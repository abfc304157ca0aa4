/** Grouping the flows that leave the cluster into destinations and callers. */
module ExternalFlows {
  import opened Numbers
  import opened Options
  import opened Sorting
  import opened Sums
  import opened Filters

  /** fqdn is the hostname the flow itself carries, already normalized. */
  datatype Edge = Edge(srcNamespace: string, srcPod: string, dstIP: string, fqdn: string, verdict: string, rate: real)

  /** What the cluster is known by: its own addresses, past DNS answers, pod
      owners, and which destinations are plumbing. */
  datatype View = View(internal: string -> bool, dns: map<(string, string), string>,
                       owner: (string, string) -> (string, string), plumbing: (string, string) -> bool)

  datatype Caller = Caller(namespace: string, workload: string, pod: string)

  datatype Acc = Acc(fqdn: string, ips: map<string, real>, rate: real, verdicts: set<string>,
                     callers: map<Caller, real>)

  function Answer(dns: map<(string, string), string>, k: (string, string)): string {
    if k in dns then dns[k] else ""
  }

  function Kept(e: Edge, v: View): bool { !v.internal(e.dstIP) }

  /** The flow's own hostname, else what its namespace resolved, else what anyone did. */
  function FqdnOf(e: Edge, v: View): (r: string)
    ensures e.fqdn != "" ==> r == e.fqdn
    ensures var own, any := (e.srcNamespace, e.dstIP), ("", e.dstIP);
            && (e.fqdn == "" && own in v.dns && v.dns[own] != "" ==> r == v.dns[own])
            && (e.fqdn == "" && !(own in v.dns && v.dns[own] != "") && any in v.dns ==> r == v.dns[any])
            && (e.fqdn == "" && !(own in v.dns && v.dns[own] != "") && any !in v.dns ==> r == "")
  {
    if e.fqdn != "" then e.fqdn
    else if Answer(v.dns, (e.srcNamespace, e.dstIP)) != "" then Answer(v.dns, (e.srcNamespace, e.dstIP))
    else Answer(v.dns, ("", e.dstIP))
  }

  function KeyOf(e: Edge, v: View): string {
    if FqdnOf(e, v) != "" then "fqdn:" + FqdnOf(e, v) else "ip:" + e.dstIP
  }

  function CallerOf(e: Edge, v: View): Caller {
    var owner := v.owner(e.srcNamespace, e.srcPod);
    if owner.0 != "Pod" && owner.1 != "" then Caller(e.srcNamespace, owner.0 + "/" + owner.1, "")
    else Caller(e.srcNamespace, "", e.srcPod)
  }

  predicate HasOwner(e: Edge, v: View) {
    var owner := v.owner(e.srcNamespace, e.srcPod);
    owner.0 != "Pod" && owner.1 != ""
  }

  /** Two flows have the same caller exactly when their pods, in one namespace, have the
      same owner, or have none and are the same pod. */
  lemma SameCaller(e: Edge, f: Edge, v: View)
    requires '/' !in v.owner(e.srcNamespace, e.srcPod).0 && '/' !in v.owner(f.srcNamespace, f.srcPod).0
    ensures CallerOf(e, v) == CallerOf(f, v) <==>
            && e.srcNamespace == f.srcNamespace && HasOwner(e, v) == HasOwner(f, v)
            && (HasOwner(e, v) ==> v.owner(e.srcNamespace, e.srcPod) == v.owner(f.srcNamespace, f.srcPod))
            && (!HasOwner(e, v) ==> e.srcPod == f.srcPod)
  {
    var a, b := v.owner(e.srcNamespace, e.srcPod), v.owner(f.srcNamespace, f.srcPod);
    assert a.0 + "/" + a.1 == a.0 + ("/" + a.1) && b.0 + "/" + b.1 == b.0 + ("/" + b.1);
    if HasOwner(e, v) && HasOwner(f, v) && CallerOf(e, v) == CallerOf(f, v) {
      SplitAt(a.0, a.1, b.0, b.1, '/');
    }
  }

  // ---- the accumulators ----

  function Add(a: Acc, e: Edge, v: View): Acc {
    Acc(a.fqdn, RealBump(a.ips, e.dstIP, e.rate), a.rate + e.rate,
        a.verdicts + if e.verdict != "" then {e.verdict} else {}, RealBump(a.callers, CallerOf(e, v), e.rate))
  }

  function Fresh(fqdn: string): Acc { Acc(fqdn, map[], 0.0, {}, map[]) }

  function Gather(edges: seq<Edge>, v: View): map<string, Acc> {
    if edges == [] then map[]
    else
      var n := |edges| - 1;
      var g := Gather(edges[..n], v);
      var e := edges[n];
      if Kept(e, v) then File(g, e, v) else g
  }

  function File(g: map<string, Acc>, e: Edge, v: View): map<string, Acc> {
    g[KeyOf(e, v) := Add(Current(g, e, v), e, v)]
  }

  function Current(g: map<string, Acc>, e: Edge, v: View): Acc {
    if KeyOf(e, v) in g then g[KeyOf(e, v)] else Fresh(FqdnOf(e, v))
  }

  // ---- conservation ----

  function RateWhere(edges: seq<Edge>, p: Edge -> bool): real {
    if edges == [] then 0.0
    else RateWhere(edges[..|edges| - 1], p) + if p(edges[|edges| - 1]) then edges[|edges| - 1].rate else 0.0
  }

  /** Per destination, the addresses' rates and the callers' rates both sum to its own. */
  ghost predicate Balanced(a: Acc) {
    RealTotal(a.ips) == a.rate && RealTotal(a.callers) == a.rate
  }

  lemma AddBalances(a: Acc, e: Edge, v: View)
    requires Balanced(a)
    ensures Balanced(Add(a, e, v))
  {
    RealBumped(a.ips, e.dstIP, e.rate);
    RealBumped(a.callers, CallerOf(e, v), e.rate);
  }

  ghost function Rates(g: map<string, Acc>): map<string, real> {
    map k | k in g :: g[k].rate
  }

  /** Every destination balances. */
  lemma {:induction false} EachBalances(edges: seq<Edge>, v: View)
    ensures forall k | k in Gather(edges, v) :: Balanced(Gather(edges, v)[k])
  {
    if edges != [] {
      var n := |edges| - 1;
      var g, e := Gather(edges[..n], v), edges[n];
      EachBalances(edges[..n], v);
      if Kept(e, v) {
        assert Balanced(Current(g, e, v));
        AddBalances(Current(g, e, v), e, v);
        forall k | k in File(g, e, v) ensures Balanced(File(g, e, v)[k]) {}
      }
    }
  }

  lemma FileMovesTotal(g: map<string, Acc>, e: Edge, v: View)
    ensures RealTotal(Rates(File(g, e, v))) == RealTotal(Rates(g)) + e.rate
  {
    RealBumped(Rates(g), KeyOf(e, v), e.rate);
    assert Rates(File(g, e, v)) == RealBump(Rates(g), KeyOf(e, v), e.rate);
  }

  /** All destinations together carry exactly the kept flows. */
  lemma {:induction false} TotalIsKept(edges: seq<Edge>, v: View)
    ensures RealTotal(Rates(Gather(edges, v))) == RateWhere(edges, (e: Edge) => Kept(e, v))
  {
    if edges == [] {
      assert Rates(Gather(edges, v)) == map[];
    } else {
      var n := |edges| - 1;
      TotalIsKept(edges[..n], v);
      FileMovesTotal(Gather(edges[..n], v), edges[n], v);
    }
  }

  // ---- what each accumulator holds, without order ----

  predicate Into(e: Edge, v: View, k: string) { Kept(e, v) && KeyOf(e, v) == k }

  function AtIp(v: View, k: string, ip: string): Edge -> bool { (e: Edge) => Into(e, v, k) && e.dstIP == ip }
  function ByCaller(v: View, k: string, c: Caller): Edge -> bool { (e: Edge) => Into(e, v, k) && CallerOf(e, v) == c }
  function WithVerdict(v: View, k: string, w: string): Edge -> bool { (e: Edge) => Into(e, v, k) && e.verdict == w }
  function ToDest(v: View, k: string): Edge -> bool { (e: Edge) => Into(e, v, k) }

  ghost predicate Any(edges: seq<Edge>, p: Edge -> bool) { exists e :: e in edges && p(e) }

  /** One accumulator is the sums and sets of exactly the flows into its destination. */
  ghost predicate Holds(a: Acc, edges: seq<Edge>, v: View, k: string) {
    && (forall e | e in edges && Into(e, v, k) :: a.fqdn == FqdnOf(e, v))
    && a.rate == RateWhere(edges, ToDest(v, k))
    && (forall ip :: ip in a.ips <==> Any(edges, AtIp(v, k, ip)))
    && (forall ip | ip in a.ips :: a.ips[ip] == RateWhere(edges, AtIp(v, k, ip)))
    && (forall c :: c in a.callers <==> Any(edges, ByCaller(v, k, c)))
    && (forall c | c in a.callers :: a.callers[c] == RateWhere(edges, ByCaller(v, k, c)))
    && (forall w :: w in a.verdicts <==> w != "" && Any(edges, WithVerdict(v, k, w)))
  }

  lemma AnyGrows(edges: seq<Edge>, e: Edge, p: Edge -> bool)
    ensures Any(edges + [e], p) <==> Any(edges, p) || p(e)
    ensures RateWhere(edges + [e], p) == RateWhere(edges, p) + if p(e) then e.rate else 0.0
  {
  }

  lemma {:induction false} NothingThere(edges: seq<Edge>, p: Edge -> bool)
    requires !Any(edges, p)
    ensures RateWhere(edges, p) == 0.0
  {
    if edges != [] {
      var n := |edges| - 1;
      assert edges == edges[..n] + [edges[n]];
      AnyGrows(edges[..n], edges[n], p);
      NothingThere(edges[..n], p);
    }
  }

  /** The key tells the hostname. */
  lemma KeyTellsFqdn(e: Edge, f: Edge, v: View)
    requires KeyOf(e, v) == KeyOf(f, v)
    ensures FqdnOf(e, v) == FqdnOf(f, v)
    ensures FqdnOf(e, v) == "" ==> e.dstIP == f.dstIP
  {
    var k := KeyOf(e, v);
    if FqdnOf(e, v) != "" {
      assert k[0] == 'f' && k[5..] == FqdnOf(e, v);
    } else {
      assert k[0] == 'i' && k[3..] == e.dstIP;
    }
    if FqdnOf(f, v) != "" {
      assert KeyOf(f, v)[0] == 'f' && KeyOf(f, v)[5..] == FqdnOf(f, v);
    } else {
      assert KeyOf(f, v)[0] == 'i' && KeyOf(f, v)[3..] == f.dstIP;
    }
  }

  lemma AddHolds(a: Acc, edges: seq<Edge>, v: View, e: Edge)
    requires Kept(e, v) && Holds(a, edges, v, KeyOf(e, v)) && a.fqdn == FqdnOf(e, v)
    ensures Holds(Add(a, e, v), edges + [e], v, KeyOf(e, v))
  {
    var k, b := KeyOf(e, v), Add(a, e, v);
    AnyGrows(edges, e, ToDest(v, k));
    forall f | f in edges + [e] && Into(f, v, k) ensures b.fqdn == FqdnOf(f, v) { KeyTellsFqdn(e, f, v); }
    AddHoldsIps(a, edges, v, e);
    AddHoldsCallers(a, edges, v, e);
    forall w ensures w in b.verdicts <==> w != "" && Any(edges + [e], WithVerdict(v, k, w)) {
      AnyGrows(edges, e, WithVerdict(v, k, w));
    }
  }

  lemma AddHoldsIps(a: Acc, edges: seq<Edge>, v: View, e: Edge)
    requires Kept(e, v) && Holds(a, edges, v, KeyOf(e, v))
    ensures var k, b := KeyOf(e, v), Add(a, e, v);
            && (forall ip :: ip in b.ips <==> Any(edges + [e], AtIp(v, k, ip)))
            && (forall ip | ip in b.ips :: b.ips[ip] == RateWhere(edges + [e], AtIp(v, k, ip)))
  {
    var k, b := KeyOf(e, v), Add(a, e, v);
    forall ip ensures ip in b.ips <==> Any(edges + [e], AtIp(v, k, ip))
              ensures ip in b.ips ==> b.ips[ip] == RateWhere(edges + [e], AtIp(v, k, ip))
    {
      AnyGrows(edges, e, AtIp(v, k, ip));
      if ip !in a.ips { NothingThere(edges, AtIp(v, k, ip)); }
    }
  }

  lemma AddHoldsCallers(a: Acc, edges: seq<Edge>, v: View, e: Edge)
    requires Kept(e, v) && Holds(a, edges, v, KeyOf(e, v))
    ensures var k, b := KeyOf(e, v), Add(a, e, v);
            && (forall c :: c in b.callers <==> Any(edges + [e], ByCaller(v, k, c)))
            && (forall c | c in b.callers :: b.callers[c] == RateWhere(edges + [e], ByCaller(v, k, c)))
  {
    var k, b := KeyOf(e, v), Add(a, e, v);
    forall c ensures c in b.callers <==> Any(edges + [e], ByCaller(v, k, c))
             ensures c in b.callers ==> b.callers[c] == RateWhere(edges + [e], ByCaller(v, k, c))
    {
      AnyGrows(edges, e, ByCaller(v, k, c));
      if c !in a.callers { NothingThere(edges, ByCaller(v, k, c)); }
    }
  }

  lemma FreshHolds(edges: seq<Edge>, v: View, k: string, fqdn: string)
    requires !Any(edges, ToDest(v, k))
    ensures Holds(Fresh(fqdn), edges, v, k)
  {
    NothingThere(edges, ToDest(v, k));
    forall e | e in edges ensures !Into(e, v, k) { assert !ToDest(v, k)(e); }
  }

  lemma OtherHolds(a: Acc, edges: seq<Edge>, v: View, k: string, e: Edge)
    requires Holds(a, edges, v, k) && !Into(e, v, k)
    ensures Holds(a, edges + [e], v, k)
  {
    AnyGrows(edges, e, ToDest(v, k));
    forall ip ensures Any(edges + [e], AtIp(v, k, ip)) <==> Any(edges, AtIp(v, k, ip))
              ensures RateWhere(edges + [e], AtIp(v, k, ip)) == RateWhere(edges, AtIp(v, k, ip))
    {
      AnyGrows(edges, e, AtIp(v, k, ip));
    }
    forall c ensures Any(edges + [e], ByCaller(v, k, c)) <==> Any(edges, ByCaller(v, k, c))
             ensures RateWhere(edges + [e], ByCaller(v, k, c)) == RateWhere(edges, ByCaller(v, k, c))
    {
      AnyGrows(edges, e, ByCaller(v, k, c));
    }
    forall w ensures Any(edges + [e], WithVerdict(v, k, w)) <==> Any(edges, WithVerdict(v, k, w)) {
      AnyGrows(edges, e, WithVerdict(v, k, w));
    }
  }

  /** There is a destination for exactly the keys some kept flow has, and it holds those flows. */
  lemma {:induction false} GatherHolds(edges: seq<Edge>, v: View, k: string)
    ensures k in Gather(edges, v) <==> Any(edges, ToDest(v, k))
    ensures k in Gather(edges, v) ==> Holds(Gather(edges, v)[k], edges, v, k)
  {
    if edges != [] {
      var n := |edges| - 1;
      var g, e := Gather(edges[..n], v), edges[n];
      GatherHolds(edges[..n], v, k);
      AnyGrows(edges[..n], e, ToDest(v, k));
      assert edges == edges[..n] + [e];
      if Into(e, v, k) {
        if k in g {
          var f :| f in edges[..n] && ToDest(v, k)(f);
          KeyTellsFqdn(e, f, v);
        } else {
          FreshHolds(edges[..n], v, k, FqdnOf(e, v));
        }
        AddHolds(Current(g, e, v), edges[..n], v, e);
      } else if k in g {
        OtherHolds(g[k], edges[..n], v, k, e);
      }
    }
  }

  // ---- the order of the flows does not matter ----

  lemma {:induction false} RateConcat(xs: seq<Edge>, ys: seq<Edge>, p: Edge -> bool)
    ensures RateWhere(xs + ys, p) == RateWhere(xs, p) + RateWhere(ys, p)
  {
    if ys == [] {
      assert xs + ys == xs;
    } else {
      var n := |ys| - 1;
      RateConcat(xs, ys[..n], p);
      AnyGrows(xs + ys[..n], ys[n], p);
      assert xs + ys == (xs + ys[..n]) + [ys[n]];
    }
  }

  /** A list taken apart at one element. */
  lemma Apart<T>(ys: seq<T>, i: nat)
    requires i < |ys|
    ensures ys == ys[..i] + [ys[i]] + ys[i + 1..]
    ensures multiset(ys) == multiset(ys[..i] + ys[i + 1..]) + multiset{ys[i]}
  {
  }

  lemma RateWithout(ys: seq<Edge>, i: nat, p: Edge -> bool)
    requires i < |ys|
    ensures RateWhere(ys, p) == RateWhere(ys[..i] + ys[i + 1..], p) + if p(ys[i]) then ys[i].rate else 0.0
  {
    Apart(ys, i);
    RateConcat(ys[..i] + [ys[i]], ys[i + 1..], p);
    AnyGrows(ys[..i], ys[i], p);
    RateConcat(ys[..i], ys[i + 1..], p);
  }

  /** The last of xs taken out of a list holding the same flows. */
  lemma TakeOutLast(xs: seq<Edge>, ys: seq<Edge>, p: Edge -> bool) returns (rest: seq<Edge>)
    requires multiset(xs) == multiset(ys) && xs != []
    ensures multiset(xs[..|xs| - 1]) == multiset(rest)
    ensures RateWhere(ys, p) == RateWhere(rest, p) + if p(xs[|xs| - 1]) then xs[|xs| - 1].rate else 0.0
  {
    var n := |xs| - 1;
    assert xs[n] in multiset(ys);
    var i :| 0 <= i < |ys| && ys[i] == xs[n];
    rest := ys[..i] + ys[i + 1..];
    RateWithout(ys, i, p);
    Apart(ys, i);
    LastOut(xs);
    assert multiset(rest) == multiset(ys) - multiset{ys[i]};
  }

  lemma LastOut<T>(xs: seq<T>)
    requires xs != []
    ensures multiset(xs[..|xs| - 1]) == multiset(xs) - multiset{xs[|xs| - 1]}
  {
    assert xs == xs[..|xs| - 1] + [xs[|xs| - 1]];
  }

  lemma {:induction false} RateOrderFree(xs: seq<Edge>, ys: seq<Edge>, p: Edge -> bool)
    requires multiset(xs) == multiset(ys)
    ensures RateWhere(xs, p) == RateWhere(ys, p)
    decreases |xs|
  {
    SameLength(xs, ys);
    if xs != [] {
      var rest := TakeOutLast(xs, ys, p);
      RateOrderFree(xs[..|xs| - 1], rest, p);
    }
  }

  lemma AnyOrderFree(xs: seq<Edge>, ys: seq<Edge>, p: Edge -> bool)
    requires multiset(xs) == multiset(ys)
    ensures Any(xs, p) <==> Any(ys, p)
  {
    forall e ensures e in xs <==> e in ys { assert e in multiset(xs) <==> e in multiset(ys); }
  }

  lemma SameIps(a: Acc, b: Acc, xs: seq<Edge>, ys: seq<Edge>, v: View, k: string)
    requires multiset(xs) == multiset(ys) && Holds(a, xs, v, k) && Holds(b, ys, v, k)
    ensures a.ips == b.ips
  {
    forall ip ensures (ip in a.ips <==> ip in b.ips) && (ip in a.ips ==> a.ips[ip] == b.ips[ip]) {
      AnyOrderFree(xs, ys, AtIp(v, k, ip));
      RateOrderFree(xs, ys, AtIp(v, k, ip));
    }
  }

  lemma SameCallers(a: Acc, b: Acc, xs: seq<Edge>, ys: seq<Edge>, v: View, k: string)
    requires multiset(xs) == multiset(ys) && Holds(a, xs, v, k) && Holds(b, ys, v, k)
    ensures a.callers == b.callers
  {
    forall c ensures (c in a.callers <==> c in b.callers) && (c in a.callers ==> a.callers[c] == b.callers[c]) {
      AnyOrderFree(xs, ys, ByCaller(v, k, c));
      RateOrderFree(xs, ys, ByCaller(v, k, c));
    }
  }

  lemma SameVerdicts(a: Acc, b: Acc, xs: seq<Edge>, ys: seq<Edge>, v: View, k: string)
    requires multiset(xs) == multiset(ys) && Holds(a, xs, v, k) && Holds(b, ys, v, k)
    ensures a.verdicts == b.verdicts
  {
    forall w ensures w in a.verdicts <==> w in b.verdicts {
      AnyOrderFree(xs, ys, WithVerdict(v, k, w));
    }
  }

  lemma SameHost(a: Acc, b: Acc, xs: seq<Edge>, ys: seq<Edge>, v: View, k: string)
    requires multiset(xs) == multiset(ys) && Any(xs, ToDest(v, k))
    requires Holds(a, xs, v, k) && Holds(b, ys, v, k)
    ensures a.fqdn == b.fqdn && a.rate == b.rate
  {
    RateOrderFree(xs, ys, ToDest(v, k));
    var e :| e in xs && ToDest(v, k)(e);
    assert e in multiset(ys);
    assert e in ys && Into(e, v, k);
  }

  lemma HeldIsUnique(a: Acc, b: Acc, xs: seq<Edge>, ys: seq<Edge>, v: View, k: string)
    requires multiset(xs) == multiset(ys) && Any(xs, ToDest(v, k))
    requires Holds(a, xs, v, k) && Holds(b, ys, v, k)
    ensures a == b
  {
    SameHost(a, b, xs, ys, v, k);
    SameIps(a, b, xs, ys, v, k);
    SameCallers(a, b, xs, ys, v, k);
    SameVerdicts(a, b, xs, ys, v, k);
  }

  /** Permuting the flows leaves every accumulator as it was. */
  lemma GatherOrderFree(xs: seq<Edge>, ys: seq<Edge>, v: View)
    requires multiset(xs) == multiset(ys)
    ensures Gather(xs, v) == Gather(ys, v)
  {
    forall k ensures k in Gather(xs, v) <==> k in Gather(ys, v)
             ensures k in Gather(xs, v) ==> Gather(xs, v)[k] == Gather(ys, v)[k]
    {
      GatherHolds(xs, v, k);
      GatherHolds(ys, v, k);
      AnyOrderFree(xs, ys, ToDest(v, k));
      if k in Gather(xs, v) {
        HeldIsUnique(Gather(xs, v)[k], Gather(ys, v)[k], xs, ys, v, k);
      }
    }
    assert Gather(xs, v).Keys == Gather(ys, v).Keys;
  }

  /** A flow that leaves the cluster adds its rate to one destination, its own, and
      leaves every other as it would be without it; a flow inside touches none. */
  lemma ExactlyOneDestination(xs: seq<Edge>, e: Edge, ys: seq<Edge>, v: View)
    ensures var g, k := Gather(xs + ys, v), KeyOf(e, v);
            var h := Gather(xs + [e] + ys, v);
            if Kept(e, v) then
              && k in h && h[k].rate == (if k in g then g[k].rate else 0.0) + e.rate
              && h - {k} == g - {k}
            else h == g
  {
    GatherOrderFree(xs + [e] + ys, xs + ys + [e], v);
    assert (xs + ys + [e])[..|xs + ys|] == xs + ys;
  }

  /** The flows that make up one destination: the same hostname, or no hostname and the same address. */
  predicate SameDestination(e: Edge, f: Edge, v: View) {
    !v.internal(f.dstIP) && FqdnOf(e, v) == FqdnOf(f, v) && (FqdnOf(e, v) == "" ==> e.dstIP == f.dstIP)
  }

  lemma KeyIsDestination(e: Edge, f: Edge, v: View)
    ensures Into(f, v, KeyOf(e, v)) <==> SameDestination(e, f, v)
  {
    if KeyOf(e, v) == KeyOf(f, v) { KeyTellsFqdn(e, f, v); }
  }

  lemma {:induction false} RateAgrees(edges: seq<Edge>, p: Edge -> bool, q: Edge -> bool)
    requires forall e | e in edges :: p(e) == q(e)
    ensures RateWhere(edges, p) == RateWhere(edges, q)
  {
    if edges != [] {
      var n := |edges| - 1;
      assert forall e | e in edges[..n] :: e in edges;
      RateAgrees(edges[..n], p, q);
    }
  }

  /** The accumulator of a flow that leaves the cluster: the sums and sets of the flows
      of its destination, by address, caller and verdict. */
  lemma AccumulatorOf(edges: seq<Edge>, v: View, e: Edge)
    requires e in edges && !v.internal(e.dstIP)
    ensures var g, k := Gather(edges, v), KeyOf(e, v);
            && k in g && g[k].fqdn == FqdnOf(e, v)
            && g[k].rate == RateWhere(edges, (f: Edge) => SameDestination(e, f, v))
            && (forall ip :: ip in g[k].ips <==> exists f :: f in edges && SameDestination(e, f, v) && f.dstIP == ip)
            && (forall c :: c in g[k].callers <==>
                  exists f :: f in edges && SameDestination(e, f, v) && CallerOf(f, v) == c)
            && (forall c | c in g[k].callers ::
                  g[k].callers[c] == RateWhere(edges, (f: Edge) => SameDestination(e, f, v) && CallerOf(f, v) == c))
            && (forall w :: w in g[k].verdicts <==>
                  w != "" && exists f :: f in edges && SameDestination(e, f, v) && f.verdict == w)
  {
    var k := KeyOf(e, v);
    assert ToDest(v, k)(e);
    GatherHolds(edges, v, k);
    forall f ensures Into(f, v, k) <==> SameDestination(e, f, v) { KeyIsDestination(e, f, v); }
    RateAgrees(edges, ToDest(v, k), (f: Edge) => SameDestination(e, f, v));
    forall c | c in Gather(edges, v)[k].callers
      ensures Gather(edges, v)[k].callers[c] ==
              RateWhere(edges, (f: Edge) => SameDestination(e, f, v) && CallerOf(f, v) == c)
    {
      RateAgrees(edges, ByCaller(v, k, c), (f: Edge) => SameDestination(e, f, v) && CallerOf(f, v) == c);
    }
    HeldBy(Gather(edges, v)[k], edges, v, k);
  }

  lemma HeldBy(a: Acc, edges: seq<Edge>, v: View, k: string)
    requires Holds(a, edges, v, k)
    ensures forall ip :: ip in a.ips <==> exists f :: f in edges && Into(f, v, k) && f.dstIP == ip
    ensures forall c :: c in a.callers <==> exists f :: f in edges && Into(f, v, k) && CallerOf(f, v) == c
    ensures forall w :: w in a.verdicts <==> w != "" && exists f :: f in edges && Into(f, v, k) && f.verdict == w
  {
    forall ip ensures ip in a.ips <==> exists f :: f in edges && Into(f, v, k) && f.dstIP == ip {
      assert Any(edges, AtIp(v, k, ip)) <==> exists f :: f in edges && AtIp(v, k, ip)(f);
    }
    forall c ensures c in a.callers <==> exists f :: f in edges && Into(f, v, k) && CallerOf(f, v) == c {
      assert Any(edges, ByCaller(v, k, c)) <==> exists f :: f in edges && ByCaller(v, k, c)(f);
    }
    forall w ensures w in a.verdicts <==> w != "" && exists f :: f in edges && Into(f, v, k) && f.verdict == w {
      assert Any(edges, WithVerdict(v, k, w)) <==> exists f :: f in edges && WithVerdict(v, k, w)(f);
    }
  }

  // ---- the busiest address ----

  /** best has the highest value, and the smallest key among equals. */
  ghost predicate IsTop(m: map<string, real>, best: string) {
    best in m && forall k | k in m && k != best :: m[k] < m[best] || (m[k] == m[best] && LexLess(best, k))
  }

  ghost predicate TopOrNone(m: map<string, real>, best: string) {
    if exists k :: k in m && m[k] > -1.0 then IsTop(m, best) else best == ""
  }

  /** Walks the map in any order. */
  method TopKey(m: map<string, real>) returns (best: string)
    ensures TopOrNone(m, best)
    ensures m != map[] && "" !in m ==> (IsTop(m, best) <==> exists k :: k in m && m[k] > -1.0)
  {
    best := "";
    var bestV := -1.0;
    var rest := m.Keys;
    while rest != {}
      invariant rest <= m.Keys
      invariant (bestV == -1.0 && best == "" && forall k | k in m && k !in rest :: m[k] <= -1.0)
             || (bestV > -1.0 && best in m && best !in rest && m[best] == bestV
                 && forall k | k in m && k !in rest && k != best :: m[k] < bestV || (m[k] == bestV && LexLess(best, k)))
      decreases rest
    {
      var k :| k in rest;
      LexTotal(k, best);
      if m[k] > bestV || (m[k] == bestV && LexLess(k, best)) {
        forall q | q in m && q !in rest && m[q] == m[k] == bestV && q != best ensures LexLess(k, q) {
          LexTransitive(k, best, q);
        }
        best, bestV := k, m[k];
      }
      rest := rest - {k};
    }
  }

  lemma TopIsUnique(m: map<string, real>, a: string, b: string)
    requires IsTop(m, a) && IsTop(m, b)
    ensures a == b
  {
    LexTotal(a, b);
  }

  // ---- the answer ----

  const MAX_EXTERNAL_DESTINATIONS := 30
  const MAX_EXTERNAL_CALLERS := 10

  datatype CallerRow = CallerRow(caller: Caller, rate: real)

  datatype Destination = Destination(key: string, fqdn: string, ip: string, plumbing: bool, rate: real,
                                     verdicts: seq<string>, ipCount: nat, callers: seq<CallerRow>, moreCallers: nat)

  /** The first n of a list. */
  function Cap<T>(xs: seq<T>, n: nat): seq<T> { if |xs| > n then xs[..n] else xs }

  function CallerRows(callers: map<Caller, real>): set<CallerRow> {
    set c | c in callers :: CallerRow(c, callers[c])
  }

  /** Busiest first, then by name. */
  function CallerOrder(r: CallerRow): SortKey {
    SortKey(0, r.rate, r.caller.namespace, r.caller.workload, r.caller.pod)
  }

  /** Plumbing last, busiest first, then by key. */
  function DestinationOrder(d: Destination): SortKey {
    SortKey(if d.plumbing then 1 else 0, d.rate, d.key, "", "")
  }

  function ByName(s: string): SortKey { SortKey(0, 0.0, s, "", "") }

  /** rows are the callers, sorted. */
  ghost predicate RanksCallers(callers: map<Caller, real>, rows: seq<CallerRow>) {
    multiset(rows) == multiset(CallerRows(callers)) && InOrder(rows, CallerOrder)
  }

  ghost predicate RanksNames(names: set<string>, xs: seq<string>) {
    multiset(xs) == multiset(names) && InOrder(xs, ByName)
  }

  /** d is what an accumulator shows as; rows are all its callers. */
  ghost predicate ShowsWith(k: string, a: Acc, v: View, d: Destination, rows: seq<CallerRow>) {
    && RanksCallers(a.callers, rows) && RanksNames(a.verdicts, d.verdicts) && TopOrNone(a.ips, d.ip)
    && d == Destination(k, a.fqdn, d.ip, v.plumbing(a.fqdn, d.ip), a.rate, d.verdicts,
                        if |a.ips| > 1 then |a.ips| else 0,
                        Cap(rows, MAX_EXTERNAL_CALLERS), |rows| - |Cap(rows, MAX_EXTERNAL_CALLERS)|)
  }

  ghost predicate Shows(k: string, a: Acc, v: View, d: Destination) {
    exists rows :: ShowsWith(k, a, v, d, rows)
  }

  lemma {:induction false} CallersOnce(callers: map<Caller, real>)
    ensures |CallerRows(callers)| == |callers|
    decreases |callers|
  {
    if callers != map[] {
      var c :| c in callers;
      CallersOnce(callers - {c});
      forall r ensures r in CallerRows(callers) <==> r in CallerRows(callers - {c}) || r == CallerRow(c, callers[c]) {
        if r in CallerRows(callers) && r.caller != c { assert r.caller in callers - {c}; }
      }
      assert CallerRows(callers) == CallerRows(callers - {c}) + {CallerRow(c, callers[c])};
    }
  }

  method RankCallers(callers: map<Caller, real>) returns (rows: seq<CallerRow>)
    ensures RanksCallers(callers, rows) && |rows| == |callers|
  {
    rows := [];
    var rest := callers.Keys;
    while rest != {}
      invariant rest <= callers.Keys
      invariant multiset(rows) == multiset(set c | c in callers && c !in rest :: CallerRow(c, callers[c]))
      decreases rest
    {
      var c :| c in rest;
      assert (set q | q in callers && q !in rest - {c} :: CallerRow(q, callers[q])) ==
             (set q | q in callers && q !in rest :: CallerRow(q, callers[q])) + {CallerRow(c, callers[c])};
      rows := rows + [CallerRow(c, callers[c])];
      rest := rest - {c};
    }
    rows := SortBy(rows, CallerOrder);
    CallersOnce(callers);
    assert |rows| == |multiset(rows)|;
  }

  method SortedSet(names: set<string>) returns (xs: seq<string>)
    ensures RanksNames(names, xs)
  {
    xs := [];
    var rest := names;
    while rest != {}
      invariant rest <= names && multiset(xs) == multiset(names - rest)
      decreases rest
    {
      var s :| s in rest;
      assert names - (rest - {s}) == (names - rest) + {s};
      xs := xs + [s];
      rest := rest - {s};
    }
    xs := SortBy(xs, ByName);
  }

  method Show(k: string, a: Acc, v: View) returns (d: Destination)
    ensures Shows(k, a, v, d)
  {
    var ip := TopKey(a.ips);
    var verdicts := SortedSet(a.verdicts);
    var rows := RankCallers(a.callers);
    var more := 0;
    var callers := rows;
    if |rows| > MAX_EXTERNAL_CALLERS {
      more := |rows| - MAX_EXTERNAL_CALLERS;
      callers := rows[..MAX_EXTERNAL_CALLERS];
    }
    d := Destination(k, a.fqdn, ip, v.plumbing(a.fqdn, ip), a.rate, verdicts,
                     if |a.ips| > 1 then |a.ips| else 0, callers, more);
    assert ShowsWith(k, a, v, d, rows);
  }

  lemma ShowsIsUnique(k: string, a: Acc, v: View, d: Destination, e: Destination)
    requires Shows(k, a, v, d) && Shows(k, a, v, e)
    ensures d == e
  {
    var rows :| ShowsWith(k, a, v, d, rows);
    var others :| ShowsWith(k, a, v, e, others);
    SortedIsUnique(rows, others, CallerOrder);
    SortedIsUnique(d.verdicts, e.verdicts, ByName);
    if exists x :: x in a.ips && a.ips[x] > -1.0 { TopIsUnique(a.ips, d.ip, e.ip); }
  }

  /** Busiest first, then by namespace, workload and pod. */
  predicate CallerNoLater(r: CallerRow, q: CallerRow) {
    if r.rate != q.rate then r.rate > q.rate
    else if r.caller.namespace != q.caller.namespace then LexLess(r.caller.namespace, q.caller.namespace)
    else if r.caller.workload != q.caller.workload then LexLess(r.caller.workload, q.caller.workload)
    else r.caller.pod == q.caller.pod || LexLess(r.caller.pod, q.caller.pod)
  }

  lemma CallerOrderMeans(r: CallerRow, q: CallerRow)
    requires !Below(CallerOrder(q), CallerOrder(r))
    ensures CallerNoLater(r, q)
  {
    LexTotal(r.caller.namespace, q.caller.namespace);
    LexTotal(r.caller.workload, q.caller.workload);
    LexTotal(r.caller.pod, q.caller.pod);
  }

  /** The ten busiest callers are shown, busiest first; shown and counted callers
      together are all of them. */
  lemma CallersAllAccounted(k: string, a: Acc, v: View, d: Destination)
    requires Shows(k, a, v, d)
    ensures |d.callers| + d.moreCallers == |a.callers| && |d.callers| == Min(|a.callers|, 10)
    ensures forall r | r in d.callers :: r.caller in a.callers && a.callers[r.caller] == r.rate
    ensures forall i, j | 0 <= i < j < |d.callers| :: CallerNoLater(d.callers[i], d.callers[j])
    ensures forall c, r | c in a.callers && r in d.callers && (forall x | x in d.callers :: x.caller != c) ::
              CallerNoLater(r, CallerRow(c, a.callers[c]))
  {
    var rows :| ShowsWith(k, a, v, d, rows);
    CallersOnce(a.callers);
    assert |rows| == |multiset(rows)|;
    forall r | r in d.callers ensures r.caller in a.callers && a.callers[r.caller] == r.rate {
      assert r in rows && r in multiset(rows);
    }
    forall i, j | 0 <= i < j < |rows| ensures CallerNoLater(rows[i], rows[j]) {
      CallerOrderMeans(rows[i], rows[j]);
    }
    forall c, r | c in a.callers && r in d.callers && (forall x | x in d.callers :: x.caller != c)
      ensures CallerNoLater(r, CallerRow(c, a.callers[c]))
    {
      var row := CallerRow(c, a.callers[c]);
      assert row in multiset(rows);
      var j :| 0 <= j < |rows| && rows[j] == row;
      var i :| 0 <= i < |d.callers| && d.callers[i] == r;
      assert j >= |d.callers|;
    }
  }

  ghost predicate DistinctKeys(out: seq<Destination>) {
    forall i, j | 0 <= i < j < |out| :: out[i].key != out[j].key
  }

  /** Every destination once, shown as its accumulator, in order. */
  ghost predicate Answers(g: map<string, Acc>, v: View, out: seq<Destination>) {
    && DistinctKeys(out) && InOrder(out, DestinationOrder) && |out| == |g|
    && (forall d | d in out :: d.key in g && Shows(d.key, g[d.key], v, d))
    && (forall k | k in g :: exists d :: d in out && d.key == k)
  }

  method ShowAll(g: map<string, Acc>, v: View) returns (out: seq<Destination>)
    ensures DistinctKeys(out) && |out| == |g|
    ensures forall d | d in out :: d.key in g && Shows(d.key, g[d.key], v, d)
    ensures forall k | k in g :: exists d :: d in out && d.key == k
  {
    out := [];
    var rest := g.Keys;
    while rest != {}
      invariant rest <= g.Keys && |out| + |rest| == |g.Keys|
      invariant DistinctKeys(out) && forall d | d in out :: d.key !in rest
      invariant forall d | d in out :: d.key in g && Shows(d.key, g[d.key], v, d)
      invariant forall k | k in g && k !in rest :: exists d :: d in out && d.key == k
      decreases rest
    {
      var k :| k in rest;
      var d := Show(k, g[k], v);
      ghost var was := out;
      out := out + [d];
      rest := rest - {k};
      forall q | q in g && q !in rest ensures exists x :: x in out && x.key == q {
        if q == k {
          assert d in out;
        } else {
          var x :| x in was && x.key == q;
          assert x in out;
        }
      }
    }
  }

  lemma SortKeepsKeys(out: seq<Destination>, sorted: seq<Destination>)
    requires multiset(out) == multiset(sorted) && DistinctKeys(out)
    ensures DistinctKeys(sorted) && |sorted| == |out|
    ensures forall d :: d in sorted <==> d in out
  {
    SameLength(out, sorted);
    forall d ensures d in sorted <==> d in out { assert d in multiset(out) <==> d in multiset(sorted); }
    forall i, j | 0 <= i < j < |sorted| ensures sorted[i].key != sorted[j].key {
      AtMostOnce(out, sorted[i]);
      OnceApart(sorted, i, j);
      assert sorted[i] in sorted && sorted[j] in sorted;
      var a :| 0 <= a < |out| && out[a] == sorted[i];
      var b :| 0 <= b < |out| && out[b] == sorted[j];
    }
  }

  lemma OnceApart<T>(xs: seq<T>, i: nat, j: nat)
    requires i < j < |xs| && multiset(xs)[xs[i]] <= 1
    ensures xs[i] != xs[j]
  {
    assert xs == xs[..j] + xs[j..];
    assert xs[i] in xs[..j] && xs[j] in xs[j..];
  }

  lemma {:induction false} AtMostOnce(out: seq<Destination>, d: Destination)
    requires DistinctKeys(out)
    ensures multiset(out)[d] <= 1
  {
    if out != [] {
      var n := |out| - 1;
      AtMostOnce(out[..n], d);
      assert out == out[..n] + [out[n]];
      assert forall i | 0 <= i < n :: out[i].key != out[n].key;
      assert d in out[..n] ==> d.key != out[n].key;
    }
  }

  /** The destinations of the flows, whatever order the maps are walked in. */
  method AggregateExternal(edges: seq<Edge>, v: View) returns (out: seq<Destination>)
    ensures Answers(Gather(edges, v), v, out)
  {
    var byKey: map<string, Acc> := map[];
    for i := 0 to |edges|
      invariant byKey == Gather(edges[..i], v)
    {
      var e := edges[i];
      assert edges[..i + 1][..i] == edges[..i];
      if v.internal(e.dstIP) { continue; }
      var k := KeyOf(e, v);
      var a := if k in byKey then byKey[k] else Fresh(FqdnOf(e, v));
      byKey := byKey[k := Add(a, e, v)];
    }
    assert edges[..|edges|] == edges;
    var all := ShowAll(byKey, v);
    out := SortBy(all, DestinationOrder);
    SortKeepsKeys(all, out);
  }

  lemma AnswerHas(g: map<string, Acc>, v: View, a: seq<Destination>, b: seq<Destination>, d: Destination)
    requires Answers(g, v, a) && Answers(g, v, b) && d in a
    ensures d in b
  {
    var e :| e in b && e.key == d.key;
    ShowsIsUnique(d.key, g[d.key], v, d, e);
  }

  lemma SameDestinations(g: map<string, Acc>, v: View, a: seq<Destination>, b: seq<Destination>)
    requires Answers(g, v, a) && Answers(g, v, b)
    ensures multiset(a) == multiset(b)
  {
    forall d ensures multiset(a)[d] == multiset(b)[d] {
      AtMostOnce(a, d);
      AtMostOnce(b, d);
      if d in a { AnswerHas(g, v, a, b, d); }
      if d in b { AnswerHas(g, v, b, a, d); }
    }
  }

  /** Two answers for the same accumulators are the same list. */
  lemma AnswersIsUnique(g: map<string, Acc>, v: View, a: seq<Destination>, b: seq<Destination>)
    requires Answers(g, v, a) && Answers(g, v, b)
    ensures a == b
  {
    SameDestinations(g, v, a, b);
    NoTies(a);
    SortedIsUnique(a, b, DestinationOrder);
  }

  lemma NoTies(a: seq<Destination>)
    requires DistinctKeys(a)
    ensures forall x, y | x in a && y in a && DestinationOrder(x) == DestinationOrder(y) :: x == y
  {
  }

  /** Permuting the flows leaves the answer unchanged. */
  lemma AnswerIsOrderFree(xs: seq<Edge>, ys: seq<Edge>, v: View, a: seq<Destination>, b: seq<Destination>)
    requires multiset(xs) == multiset(ys)
    requires Answers(Gather(xs, v), v, a) && Answers(Gather(ys, v), v, b)
    ensures a == b
  {
    GatherOrderFree(xs, ys, v);
    AnswersIsUnique(Gather(xs, v), v, a, b);
  }

  /** Rates as the metrics give them are never negative, so each destination of the
      list shows its busiest address, the smallest among equals. */
  lemma ShowsBusiestAddress(edges: seq<Edge>, v: View, out: seq<Destination>, d: Destination)
    requires forall e | e in edges :: e.rate >= 0.0
    requires Answers(Gather(edges, v), v, out) && d in out
    ensures IsTop(Gather(edges, v)[d.key].ips, d.ip)
  {
    var a := Gather(edges, v)[d.key];
    GatherHolds(edges, v, d.key);
    var e :| e in edges && ToDest(v, d.key)(e);
    assert AtIp(v, d.key, e.dstIP)(e);
    NotNegative(edges, AtIp(v, d.key, e.dstIP));
    assert e.dstIP in a.ips && a.ips[e.dstIP] > -1.0;
  }

  lemma {:induction false} NotNegative(edges: seq<Edge>, p: Edge -> bool)
    requires forall e | e in edges :: e.rate >= 0.0
    ensures RateWhere(edges, p) >= 0.0
  {
    if edges != [] {
      NotNegative(edges[..|edges| - 1], p);
    }
  }

  // ---- from the list to the accumulators it shows ----

  function RateOf(out: seq<Destination>): real {
    if out == [] then 0.0 else RateOf(out[..|out| - 1]) + out[|out| - 1].rate
  }

  /** The rates of the whole list add up to the flows that leave the cluster. */
  lemma AnswerConserves(edges: seq<Edge>, v: View, out: seq<Destination>)
    requires Answers(Gather(edges, v), v, out)
    ensures RateOf(out) == RateWhere(edges, (e: Edge) => Kept(e, v))
  {
    TotalIsKept(edges, v);
    var g := Gather(edges, v);
    assert Rates(g).Keys == g.Keys;
    forall d | d in out ensures d.key in Rates(g) && Rates(g)[d.key] == d.rate {
      ShowsItsRate(d.key, g[d.key], v, d);
    }
    ListTotals(out, Rates(g));
  }

  lemma ShowsItsRate(k: string, a: Acc, v: View, d: Destination)
    requires Shows(k, a, v, d)
    ensures d.rate == a.rate
  {
  }

  lemma {:induction false} ListTotals(out: seq<Destination>, m: map<string, real>)
    requires DistinctKeys(out) && |out| == |m|
    requires forall d | d in out :: d.key in m && m[d.key] == d.rate
    ensures RateOf(out) == RealTotal(m)
    decreases |out|
  {
    if out == [] {
      assert m == map[];
    } else {
      var n := |out| - 1;
      var k := out[n].key;
      assert out[n] in out && out == out[..n] + [out[n]];
      RealAddAny(m, k);
      assert (m - {k}).Keys == m.Keys - {k};
      assert |m - {k}| == |(m - {k}).Keys| == |m.Keys| - 1;
      forall d | d in out[..n] ensures d.key in m - {k} && (m - {k})[d.key] == d.rate {
        var i :| 0 <= i < n && out[i] == d;
        assert d in out;
      }
      ListTotals(out[..n], m - {k});
    }
  }

  /** Plumbing last, busiest first, then by key. */
  predicate ShownNoLater(d: Destination, x: Destination) {
    if d.plumbing != x.plumbing then x.plumbing
    else if d.rate != x.rate then d.rate > x.rate
    else d.key == x.key || LexLess(d.key, x.key)
  }

  lemma ListedInOrder(g: map<string, Acc>, v: View, out: seq<Destination>)
    requires Answers(g, v, out)
    ensures forall i, j | 0 <= i < j < |out| :: ShownNoLater(out[i], out[j])
  {
    forall i, j | 0 <= i < j < |out| ensures ShownNoLater(out[i], out[j]) {
      LexTotal(out[i].key, out[j].key);
    }
  }

  /** Each flow that leaves the cluster is in one destination of the list, its hostname's
      or else its address's: the one with the rate of all such flows, and every verdict,
      caller and address among them accounted for. */
  lemma DestinationOf(edges: seq<Edge>, v: View, out: seq<Destination>, e: Edge) returns (i: nat)
    requires Answers(Gather(edges, v), v, out) && e in edges && !v.internal(e.dstIP)
    ensures i < |out| && out[i].fqdn == FqdnOf(e, v)
    ensures out[i].rate == RateWhere(edges, (f: Edge) => SameDestination(e, f, v))
    ensures forall w :: w in out[i].verdicts <==>
              w != "" && exists f :: f in edges && SameDestination(e, f, v) && f.verdict == w
    ensures forall r | r in out[i].callers ::
              r.rate == RateWhere(edges, (f: Edge) => SameDestination(e, f, v) && CallerOf(f, v) == r.caller)
    ensures |out[i].callers| + out[i].moreCallers == |CallersOf(edges, v, e)|
    ensures out[i].ipCount == if |AddressesOf(edges, v, e)| > 1 then |AddressesOf(edges, v, e)| else 0
    ensures out[i].plumbing == v.plumbing(out[i].fqdn, out[i].ip)
    ensures forall j, f | 0 <= j < |out| && f in edges && !v.internal(f.dstIP) && out[j].key == KeyOf(f, v) ::
              j == i <==> SameDestination(e, f, v)
  {
    AccumulatorOf(edges, v, e);
    var k := KeyOf(e, v);
    var a := Gather(edges, v)[k];
    var d :| d in out && d.key == k;
    i :| 0 <= i < |out| && out[i] == d;
    CallersAllAccounted(k, a, v, d);
    assert a.callers.Keys == CallersOf(edges, v, e);
    assert a.ips.Keys == AddressesOf(edges, v, e);
    VerdictsShown(k, a, v, d);
    forall j, f | 0 <= j < |out| && f in edges && !v.internal(f.dstIP) && out[j].key == KeyOf(f, v)
      ensures j == i <==> SameDestination(e, f, v)
    {
      KeyIsDestination(e, f, v);
    }
  }

  ghost function CallersOf(edges: seq<Edge>, v: View, e: Edge): set<Caller> {
    set f | f in edges && SameDestination(e, f, v) :: CallerOf(f, v)
  }

  ghost function AddressesOf(edges: seq<Edge>, v: View, e: Edge): set<string> {
    set f | f in edges && SameDestination(e, f, v) :: f.dstIP
  }

  lemma VerdictsShown(k: string, a: Acc, v: View, d: Destination)
    requires Shows(k, a, v, d)
    ensures forall w :: w in d.verdicts <==> w in a.verdicts
    ensures d.ipCount == if |a.ips| > 1 then |a.ips| else 0
    ensures forall i, j | 0 <= i < j < |d.verdicts| :: LexLess(d.verdicts[i], d.verdicts[j])
  {
    OnceEach(d.verdicts, a.verdicts);
    forall i, j | 0 <= i < j < |d.verdicts| ensures LexLess(d.verdicts[i], d.verdicts[j]) {
      LexTotal(d.verdicts[i], d.verdicts[j]);
    }
  }

  /** What is returned to the caller: the first destinations, and how many were left off. */
  method ExternalConnections(edges: seq<Edge>, v: View)
    returns (shown: seq<Destination>, omitted: nat, ghost all: seq<Destination>)
    ensures Answers(Gather(edges, v), v, all) && shown <= all && |shown| == Min(|all|, 30)
    ensures |shown| + omitted == |Gather(edges, v)|
    ensures forall i, j | 0 <= i < j < |all| :: ShownNoLater(all[i], all[j])
  {
    var dests := AggregateExternal(edges, v);
    all := dests;
    ListedInOrder(Gather(edges, v), v, all);
    omitted := 0;
    if |dests| > MAX_EXTERNAL_DESTINATIONS {
      omitted := |dests| - MAX_EXTERNAL_DESTINATIONS;
      dests := dests[..MAX_EXTERNAL_DESTINATIONS];
    }
    shown := dests;
  }
}
