/** From metric rows to the edges of the cluster map: the HTTP summaries, the
    redirect collapse, and what becomes of the destinations known only by address. */
module FlowEdges {
  import opened Options
  import opened Sums
  import opened Filters

  datatype Pair = Pair(srcNamespace: string, srcPod: string, dstNamespace: string, dstPod: string)

  /** One L4 row, one HTTP row, one row towards an address. */
  datatype Row = Row(pair: Pair, verdict: string, rate: real)
  datatype HttpRow = HttpRow(pair: Pair, status: string, rate: real)
  datatype AddressRow = AddressRow(srcNamespace: string, srcPod: string, ip: string, verdict: string, rate: real)

  datatype L7Summary = L7Summary(requests: real, classes: map<string, real>)

  datatype FlowEdge = FlowEdge(pair: Pair, dstIP: string, dstFqdn: string, verdict: string, rate: real,
                               l7: Option<L7Summary>)

  // ---- HTTP by pair ----

  function Class(status: string): string { if status == "" then "unknown" else status }

  function Count(s: L7Summary, row: HttpRow): L7Summary {
    var c := Class(row.status);
    L7Summary(s.requests + row.rate, s.classes[c := (if c in s.classes then s.classes[c] else 0.0) + row.rate])
  }

  function Bucket(rows: seq<HttpRow>): map<Pair, L7Summary> {
    if rows == [] then map[]
    else
      var n := |rows| - 1;
      var b := Bucket(rows[..n]);
      b[rows[n].pair := Count(if rows[n].pair in b then b[rows[n].pair] else L7Summary(0.0, map[]), rows[n])]
  }

  method BucketHttp(rows: seq<HttpRow>) returns (byPair: map<Pair, L7Summary>)
    ensures byPair == Bucket(rows)
  {
    byPair := map[];
    for i := 0 to |rows|
      invariant byPair == Bucket(rows[..i])
    {
      assert rows[..i + 1][..i] == rows[..i];
      var row := rows[i];
      var s := if row.pair in byPair then byPair[row.pair] else L7Summary(0.0, map[]);
      byPair := byPair[row.pair := Count(s, row)];
    }
    assert rows[..|rows|] == rows;
  }

  function HttpRate(rows: seq<HttpRow>, p: Pair): real {
    if rows == [] then 0.0
    else HttpRate(rows[..|rows| - 1], p) + if rows[|rows| - 1].pair == p then rows[|rows| - 1].rate else 0.0
  }

  lemma {:induction false} BucketHas(rows: seq<HttpRow>, p: Pair)
    ensures p in Bucket(rows) <==> exists r :: r in rows && r.pair == p
  {
    if rows != [] {
      var n := |rows| - 1;
      BucketHas(rows[..n], p);
      assert rows == rows[..n] + [rows[n]];
      assert rows[n] in rows;
      forall r | r in rows[..n] ensures r in rows {}
    }
  }

  /** A summary's requests are its pair's rows' rates, and its status classes add up to them. */
  lemma {:induction false} BucketConserves(rows: seq<HttpRow>, p: Pair)
    ensures p in Bucket(rows) ==>
              Bucket(rows)[p].requests == HttpRate(rows, p) == RealTotal(Bucket(rows)[p].classes)
    ensures p !in Bucket(rows) ==> HttpRate(rows, p) == 0.0
  {
    if rows != [] {
      var n := |rows| - 1;
      BucketConserves(rows[..n], p);
      if rows[n].pair == p {
        var b := Bucket(rows[..n]);
        var s := if p in b then b[p] else L7Summary(0.0, map[]);
        RealBumped(s.classes, Class(rows[n].status), rows[n].rate);
      }
    }
  }

  /** A pair's row with a status; a row without one counts as "unknown". */
  predicate OfClass(r: HttpRow, p: Pair, status: string) {
    r.pair == p && status != "" && (r.status == status || (r.status == "" && status == "unknown"))
  }

  function ClassRate(rows: seq<HttpRow>, p: Pair, status: string): real {
    if rows == [] then 0.0
    else ClassRate(rows[..|rows| - 1], p, status) +
         if OfClass(rows[|rows| - 1], p, status) then rows[|rows| - 1].rate else 0.0
  }

  predicate Lists(b: map<Pair, L7Summary>, p: Pair, status: string) { p in b && status in b[p].classes }

  lemma BucketLast(rows: seq<HttpRow>, p: Pair, status: string)
    requires rows != []
    ensures var n := |rows| - 1;
            var was, now := Bucket(rows[..n]), Bucket(rows);
            && (Lists(now, p, status) <==> Lists(was, p, status) || OfClass(rows[n], p, status))
            && (Lists(now, p, status) ==>
                  now[p].classes[status] ==
                  (if Lists(was, p, status) then was[p].classes[status] else 0.0) +
                  (if OfClass(rows[n], p, status) then rows[n].rate else 0.0))
  {
  }

  /** A summary lists exactly the statuses of its pair's rows, each with its rows' rate. */
  lemma {:induction false} BucketByClass(rows: seq<HttpRow>, p: Pair, status: string)
    ensures Lists(Bucket(rows), p, status) <==> exists r | r in rows :: OfClass(r, p, status)
    ensures ClassRate(rows, p, status) ==
            if Lists(Bucket(rows), p, status) then Bucket(rows)[p].classes[status] else 0.0
  {
    if rows != [] {
      var n := |rows| - 1;
      BucketByClass(rows[..n], p, status);
      BucketLast(rows, p, status);
      assert rows == rows[..n] + [rows[n]];
    }
  }

  // ---- redirect collapse ----

  const FORWARDED := "forwarded"
  const REDIRECTED := "redirected"

  ghost predicate HasForwarded(rows: seq<Row>, p: Pair) {
    exists r :: r in rows && r.verdict == FORWARDED && r.pair == p
  }

  function EdgeOf(r: Row, http: map<Pair, L7Summary>): FlowEdge {
    var verdict := if r.verdict == REDIRECTED then FORWARDED else r.verdict;
    FlowEdge(r.pair, "", "", verdict, r.rate,
             if verdict == FORWARDED && r.pair in http then Some(http[r.pair]) else None)
  }

  /** A redirect goes when its pair was also forwarded; a lone one counts as forwarded. */
  ghost function Collapse(rows: seq<Row>, forwarded: set<Pair>, http: map<Pair, L7Summary>): seq<FlowEdge> {
    if rows == [] then []
    else
      var n := |rows| - 1;
      Collapse(rows[..n], forwarded, http) +
      if rows[n].verdict == REDIRECTED && rows[n].pair in forwarded then [] else [EdgeOf(rows[n], http)]
  }

  /** The row comes out as an edge. */
  predicate Stays(r: Row, forwarded: set<Pair>) {
    !(r.verdict == REDIRECTED && r.pair in forwarded)
  }

  lemma {:induction false} EachFromItsRow(rows: seq<Row>, forwarded: set<Pair>, http: map<Pair, L7Summary>)
    ensures var from, edges := Positions(rows, (r: Row) => Stays(r, forwarded)), Collapse(rows, forwarded, http);
            |from| == |edges| && forall k | 0 <= k < |edges| :: edges[k] == EdgeOf(rows[from[k]], http)
  {
    if rows != [] {
      EachFromItsRow(rows[..|rows| - 1], forwarded, http);
    }
  }

  /** Each edge is its own row's, in the rows' order: the row's pair and rate, nothing
      redirected, HTTP where it is forwarded. The rows without one are the redirected
      ones whose pair was forwarded. */
  method BuildPodFlowEdges(rows: seq<Row>, http: map<Pair, L7Summary>)
    returns (edges: seq<FlowEdge>, forwarded: set<Pair>, ghost from: seq<nat>)
    ensures forall p :: p in forwarded <==> HasForwarded(rows, p)
    ensures edges == Collapse(rows, forwarded, http)
    ensures |from| == |edges| && Rising(from, |rows|)
    ensures forall i | 0 <= i < |rows| :: i in from <==>
              !(rows[i].verdict == "redirected" &&
                exists r | r in rows :: r.verdict == "forwarded" && r.pair == rows[i].pair)
    ensures forall k | 0 <= k < |edges| ::
              && edges[k].pair == rows[from[k]].pair && edges[k].rate == rows[from[k]].rate
              && edges[k].dstIP == "" && edges[k].dstFqdn == ""
              && edges[k].verdict ==
                 (if rows[from[k]].verdict == "redirected" then "forwarded" else rows[from[k]].verdict)
              && edges[k].l7 == (if edges[k].verdict == "forwarded" && edges[k].pair in http
                                 then Some(http[edges[k].pair]) else None)
  {
    forwarded := {};
    for i := 0 to |rows|
      invariant forall p :: p in forwarded <==> HasForwarded(rows[..i], p)
    {
      assert rows[..i + 1] == rows[..i] + [rows[i]];
      ghost var was := forwarded;
      if rows[i].verdict == FORWARDED { forwarded := forwarded + {rows[i].pair}; }
      forall p ensures p in forwarded <==> HasForwarded(rows[..i + 1], p) {
        HasForwardedGrows(rows[..i], rows[i], p);
      }
    }
    assert rows[..|rows|] == rows;
    edges := [];
    for i := 0 to |rows|
      invariant edges == Collapse(rows[..i], forwarded, http)
    {
      assert rows[..i + 1][..i] == rows[..i];
      var row := rows[i];
      var verdict := row.verdict;
      if verdict == REDIRECTED {
        if row.pair in forwarded { continue; }
        verdict := FORWARDED;
      }
      var l7 := None;
      if verdict == FORWARDED && row.pair in http { l7 := Some(http[row.pair]); }
      edges := edges + [FlowEdge(row.pair, "", "", verdict, row.rate, l7)];
    }
    assert rows[..|rows|] == rows;
    from := Positions(rows, (r: Row) => Stays(r, forwarded));
    EachFromItsRow(rows, forwarded, http);
    forall i | 0 <= i < |rows|
      ensures rows[i].pair in forwarded <==>
              exists r | r in rows :: r.verdict == "forwarded" && r.pair == rows[i].pair
    {
      assert rows[i].pair in forwarded <==> HasForwarded(rows, rows[i].pair);
    }
  }

  lemma HasForwardedGrows(rows: seq<Row>, r: Row, p: Pair)
    ensures HasForwarded(rows + [r], p) <==> HasForwarded(rows, p) || (r.verdict == FORWARDED && r.pair == p)
  {
  }

  function RowCount(rows: seq<Row>, p: Pair, verdict: string): nat {
    if rows == [] then 0
    else RowCount(rows[..|rows| - 1], p, verdict) +
         if rows[|rows| - 1].pair == p && rows[|rows| - 1].verdict == verdict then 1 else 0
  }

  function RowRate(rows: seq<Row>, p: Pair, verdict: string): real {
    if rows == [] then 0.0
    else RowRate(rows[..|rows| - 1], p, verdict) +
         if rows[|rows| - 1].pair == p && rows[|rows| - 1].verdict == verdict then rows[|rows| - 1].rate else 0.0
  }

  function EdgeCount(edges: seq<FlowEdge>, p: Pair, verdict: string): nat {
    if edges == [] then 0
    else EdgeCount(edges[..|edges| - 1], p, verdict) +
         if edges[|edges| - 1].pair == p && edges[|edges| - 1].verdict == verdict then 1 else 0
  }

  function EdgeRate(edges: seq<FlowEdge>, p: Pair, verdict: string): real {
    if edges == [] then 0.0
    else EdgeRate(edges[..|edges| - 1], p, verdict) +
         if edges[|edges| - 1].pair == p && edges[|edges| - 1].verdict == verdict then edges[|edges| - 1].rate else 0.0
  }

  lemma VerdictsDiffer()
    ensures FORWARDED != REDIRECTED
  {
    assert FORWARDED[0] != REDIRECTED[0];
  }

  /** How many edges of a pair come out of a verdict: forwarded ones are its
      forwarded rows alone when the pair is known forwarded, else the redirected
      ones too. Every other verdict comes out as it went in. */
  lemma {:induction false} CollapseCounts(rows: seq<Row>, forwarded: set<Pair>, http: map<Pair, L7Summary>, p: Pair,
                                          verdict: string)
    ensures EdgeCount(Collapse(rows, forwarded, http), p, verdict) ==
            if verdict == REDIRECTED then 0
            else RowCount(rows, p, verdict) +
                 if verdict == FORWARDED && p !in forwarded then RowCount(rows, p, REDIRECTED) else 0
  {
    if rows != [] {
      var n := |rows| - 1;
      CollapseCounts(rows[..n], forwarded, http, p, verdict);
      CollapseLast(rows, forwarded, http);
      VerdictsDiffer();
      assert RowCount(rows, p, REDIRECTED) ==
             RowCount(rows[..n], p, REDIRECTED) + if rows[n].pair == p && rows[n].verdict == REDIRECTED then 1 else 0;
      EdgeOfRow(rows[n], http, verdict);
    }
  }

  lemma EdgeOfRow(r: Row, http: map<Pair, L7Summary>, verdict: string)
    ensures var e := EdgeOf(r, http);
            && e.pair == r.pair && e.rate == r.rate
            && (e.verdict == verdict <==>
                  && verdict != REDIRECTED
                  && (r.verdict == verdict || (r.verdict == REDIRECTED && verdict == FORWARDED)))
  {
    VerdictsDiffer();
  }

  lemma EdgeRateLast(edges: seq<FlowEdge>, e: FlowEdge, p: Pair, verdict: string)
    ensures EdgeRate(edges + [e], p, verdict) ==
            EdgeRate(edges, p, verdict) + if e.pair == p && e.verdict == verdict then e.rate else 0.0
  {
    assert (edges + [e])[..|edges|] == edges;
  }

  lemma RowRateLast(rows: seq<Row>, p: Pair, verdict: string)
    requires rows != []
    ensures var r := rows[|rows| - 1];
            RowRate(rows, p, verdict) ==
            RowRate(rows[..|rows| - 1], p, verdict) + if r.pair == p && r.verdict == verdict then r.rate else 0.0
  {
  }

  lemma {:induction false} CollapseRates(rows: seq<Row>, forwarded: set<Pair>, http: map<Pair, L7Summary>, p: Pair,
                                         verdict: string)
    ensures EdgeRate(Collapse(rows, forwarded, http), p, verdict) ==
            if verdict == REDIRECTED then 0.0
            else RowRate(rows, p, verdict) +
                 if verdict == FORWARDED && p !in forwarded then RowRate(rows, p, REDIRECTED) else 0.0
  {
    if rows != [] {
      var n := |rows| - 1;
      var before := Collapse(rows[..n], forwarded, http);
      CollapseRates(rows[..n], forwarded, http, p, verdict);
      RowRateLast(rows, p, verdict);
      RowRateLast(rows, p, REDIRECTED);
      VerdictsDiffer();
      EdgeOfRow(rows[n], http, verdict);
      EdgeRateLast(before, EdgeOf(rows[n], http), p, verdict);
      if rows[n].verdict == REDIRECTED && rows[n].pair in forwarded {
        assert Collapse(rows, forwarded, http) == before;
      } else {
        assert Collapse(rows, forwarded, http) == before + [EdgeOf(rows[n], http)];
      }
    }
  }

  lemma CollapseLast(rows: seq<Row>, forwarded: set<Pair>, http: map<Pair, L7Summary>)
    requires rows != []
    ensures var n := |rows| - 1;
            var before, edges := Collapse(rows[..n], forwarded, http), Collapse(rows, forwarded, http);
            if rows[n].verdict == REDIRECTED && rows[n].pair in forwarded then edges == before
            else edges != [] && edges[..|edges| - 1] == before && edges[|edges| - 1] == EdgeOf(rows[n], http)
  {
  }

  lemma {:induction false} NoForwardedRow(rows: seq<Row>, p: Pair)
    ensures HasForwarded(rows, p) <==> RowCount(rows, p, FORWARDED) > 0
  {
    if rows != [] {
      var n := |rows| - 1;
      NoForwardedRow(rows[..n], p);
      assert rows == rows[..n] + [rows[n]];
      HasForwardedGrows(rows[..n], rows[n], p);
    }
  }

  ghost predicate RowsHave(rows: seq<Row>, p: Pair) { exists r :: r in rows && r.pair == p }
  ghost predicate EdgesHave(edges: seq<FlowEdge>, p: Pair) { exists e :: e in edges && e.pair == p }

  lemma {:induction false} CollapseHasPair(rows: seq<Row>, forwarded: set<Pair>, http: map<Pair, L7Summary>, p: Pair)
    ensures EdgesHave(Collapse(rows, forwarded, http), p) ==> RowsHave(rows, p)
    ensures RowsHave(rows, p) && p !in forwarded ==> EdgesHave(Collapse(rows, forwarded, http), p)
    ensures HasForwarded(rows, p) ==> EdgesHave(Collapse(rows, forwarded, http), p)
  {
    if rows != [] {
      var n := |rows| - 1;
      var r := rows[n];
      CollapseHasPair(rows[..n], forwarded, http, p);
      assert rows == rows[..n] + [r];
      HasForwardedGrows(rows[..n], r, p);
      var before, edges := Collapse(rows[..n], forwarded, http), Collapse(rows, forwarded, http);
      if EdgesHave(before, p) {
        var e :| e in before && e.pair == p;
        assert e in edges;
      }
      if !(r.verdict == REDIRECTED && r.pair in forwarded) { assert EdgeOf(r, http) in edges; }
      if RowsHave(rows[..n], p) {
        var x :| x in rows[..n] && x.pair == p;
        assert x in rows;
      }
      if r.pair == p { assert r in rows; }
    }
  }

  /** What the collapse promises of any pair: it is kept, nothing is left
      redirected, and the forwarded edges are its forwarded rows if it has any,
      else its redirected ones. */
  lemma RedirectCollapse(rows: seq<Row>, forwarded: set<Pair>, http: map<Pair, L7Summary>, p: Pair)
    requires forall q :: q in forwarded <==> HasForwarded(rows, q)
    ensures var edges := Collapse(rows, forwarded, http);
            var f, r := RowCount(rows, p, FORWARDED), RowCount(rows, p, REDIRECTED);
            && (EdgesHave(edges, p) <==> RowsHave(rows, p))
            && EdgeCount(edges, p, REDIRECTED) == 0
            && EdgeCount(edges, p, FORWARDED) == (if f > 0 then f else r)
            && EdgeRate(edges, p, FORWARDED) == RowRate(rows, p, if f > 0 then FORWARDED else REDIRECTED)
  {
    NoForwardedRow(rows, p);
    VerdictsDiffer();
    CollapseCounts(rows, forwarded, http, p, FORWARDED);
    CollapseCounts(rows, forwarded, http, p, REDIRECTED);
    CollapseRates(rows, forwarded, http, p, FORWARDED);
    CollapseHasPair(rows, forwarded, http, p);
    if RowCount(rows, p, FORWARDED) == 0 { NoRowsNoRate(rows, p, FORWARDED); }
  }

  lemma {:induction false} NoRowsNoRate(rows: seq<Row>, p: Pair, verdict: string)
    requires RowCount(rows, p, verdict) == 0
    ensures RowRate(rows, p, verdict) == 0.0
  {
    if rows != [] { NoRowsNoRate(rows[..|rows| - 1], p, verdict); }
  }

  /** At most one forwarded edge for a pair, exactly when it has at most one
      forwarded row and, with none, at most one redirected. */
  lemma OneForwardedEdge(rows: seq<Row>, forwarded: set<Pair>, http: map<Pair, L7Summary>, p: Pair)
    requires forall q :: q in forwarded <==> HasForwarded(rows, q)
    ensures EdgeCount(Collapse(rows, forwarded, http), p, FORWARDED) <= 1 <==>
            && RowCount(rows, p, FORWARDED) <= 1
            && (RowCount(rows, p, FORWARDED) == 0 ==> RowCount(rows, p, REDIRECTED) <= 1)
  {
    RedirectCollapse(rows, forwarded, http, p);
  }

  /** HTTP is shown on forwarded edges only, and on each whose pair has any. */
  lemma {:induction false} L7OnForwardedOnly(rows: seq<Row>, forwarded: set<Pair>, http: map<Pair, L7Summary>)
    ensures forall e | e in Collapse(rows, forwarded, http) ::
              e.l7 == if e.verdict == FORWARDED && e.pair in http then Some(http[e.pair]) else None
  {
    if rows != [] { L7OnForwardedOnly(rows[..|rows| - 1], forwarded, http); }
  }

  // ---- destinations known only by address ----

  /** The pods by address, the pod ranges, and who a pod's past lookups say an address is. */
  datatype Addresses = Addresses(pods: map<string, (string, string)>, inRange: string -> bool,
                                 names: map<(string, string, string), string>)

  /** A live pod's address is that pod; another address of the pod ranges is a
      pod that is gone; the rest is outside. */
  function Placed(r: AddressRow, a: Addresses): Option<FlowEdge> {
    if r.ip == "" then None
    else if r.ip in a.pods then
      Some(FlowEdge(Pair(r.srcNamespace, r.srcPod, a.pods[r.ip].0, a.pods[r.ip].1), "", "", r.verdict, r.rate, None))
    else if a.inRange(r.ip) then None
    else
      var k := (r.srcNamespace, r.srcPod, r.ip);
      Some(FlowEdge(Pair(r.srcNamespace, r.srcPod, "", ""), r.ip, if k in a.names then a.names[k] else "",
                    r.verdict, r.rate, None))
  }

  function PlacedAll(rows: seq<AddressRow>, a: Addresses): seq<FlowEdge> {
    if rows == [] then []
    else
      var n := |rows| - 1;
      PlacedAll(rows[..n], a) + if Placed(rows[n], a).Some? then [Placed(rows[n], a).value] else []
  }

  lemma {:induction false} EachPlacedFromItsRow(rows: seq<AddressRow>, a: Addresses)
    ensures var from, edges := Positions(rows, (r: AddressRow) => Placed(r, a).Some?), PlacedAll(rows, a);
            |from| == |edges| && forall k | 0 <= k < |edges| :: Placed(rows[from[k]], a) == Some(edges[k])
  {
    if rows != [] {
      EachPlacedFromItsRow(rows[..|rows| - 1], a);
    }
  }

  /** The edges given, and after them an edge for each row that leads to a live pod or out
      of the cluster, in the rows' order, of the row's source, verdict and rate. */
  method AppendExternal(edges: seq<FlowEdge>, rows: seq<AddressRow>, a: Addresses)
    returns (out: seq<FlowEdge>, ghost from: seq<nat>)
    ensures out == edges + PlacedAll(rows, a)
    ensures |out| == |edges| + |from| && Rising(from, |rows|)
    ensures forall i | 0 <= i < |rows| ::
              i in from <==> rows[i].ip != "" && (rows[i].ip in a.pods || !a.inRange(rows[i].ip))
    ensures forall i | 0 <= i < |edges| :: out[i] == edges[i]
    ensures forall k | 0 <= k < |from| ::
              var e, r := out[|edges| + k], rows[from[k]];
              && e.pair.srcNamespace == r.srcNamespace && e.pair.srcPod == r.srcPod
              && e.verdict == r.verdict && e.rate == r.rate && e.l7 == None
              && (r.ip in a.pods ==>
                    (e.pair.dstNamespace, e.pair.dstPod) == a.pods[r.ip] && e.dstIP == "" && e.dstFqdn == "")
              && (r.ip !in a.pods ==>
                    && e.pair.dstNamespace == "" && e.pair.dstPod == "" && e.dstIP == r.ip
                    && var k := (r.srcNamespace, r.srcPod, r.ip);
                       e.dstFqdn == if k in a.names then a.names[k] else "")
  {
    out := edges;
    for i := 0 to |rows|
      invariant out == edges + PlacedAll(rows[..i], a)
    {
      assert rows[..i + 1][..i] == rows[..i];
      var row := rows[i];
      if row.ip == "" { continue; }
      var edge := FlowEdge(Pair(row.srcNamespace, row.srcPod, "", ""), "", "", row.verdict, row.rate, None);
      if row.ip in a.pods {
        edge := edge.(pair := edge.pair.(dstNamespace := a.pods[row.ip].0, dstPod := a.pods[row.ip].1));
      } else if a.inRange(row.ip) {
        continue;
      } else {
        edge := edge.(dstIP := row.ip);
        var k := (row.srcNamespace, row.srcPod, row.ip);
        if k in a.names { edge := edge.(dstFqdn := a.names[k]); }
      }
      out := out + [edge];
    }
    assert rows[..|rows|] == rows;
    from := Positions(rows, (r: AddressRow) => Placed(r, a).Some?);
    EachPlacedFromItsRow(rows, a);
  }

  /** An edge counts as leaving the cluster exactly when its address is no live
      pod's and in no pod range; none is both a pod's and outside. */
  lemma {:induction false} ExternalMeansOutside(rows: seq<AddressRow>, a: Addresses, e: FlowEdge)
    requires e in PlacedAll(rows, a)
    requires forall ip | ip in a.pods :: a.pods[ip].1 != ""
    ensures (e.dstIP == "") == (e.pair.dstPod != "")
    ensures e.dstIP != "" ==> e.dstIP !in a.pods && !a.inRange(e.dstIP)
    ensures exists r :: r in rows && Placed(r, a) == Some(e)
  {
    var n := |rows| - 1;
    if Placed(rows[n], a) == Some(e) {
      assert rows[n] in rows;
    } else {
      ExternalMeansOutside(rows[..n], a, e);
      var r :| r in rows[..n] && Placed(r, a) == Some(e);
      assert r in rows;
    }
  }
}
