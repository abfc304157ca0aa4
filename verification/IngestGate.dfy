/** One metric batch from an agent: the tenant gate, the in-place filter of
    reserved names, and what reaches the store. */
module IngestGate {
  import opened Options
  import opened Filters
  import Exposition

  const TENANT_ID := "tenant_id"

  class Sample {
    const name: string
    const value: string
    const at: Option<int>
    var labels: map<string, string>

    constructor (name: string, labels: map<string, string>, value: string, at: Option<int>)
      ensures this.name == name && this.labels == labels && this.value == value && this.at == at
    {
      this.name, this.labels, this.value, this.at := name, labels, value, at;
    }
  }

  function NameOf(s: Sample?): string { if s == null then "" else s.name }

  /** No reserved name. */
  function Allowed(reserved: string -> bool): Sample? -> bool { (s: Sample?) => !reserved(NameOf(s)) }

  /** The sample asserts a tenant that is not this one. */
  predicate Asserts(labels: map<string, string>, tenant: string) {
    TENANT_ID in labels && labels[TENANT_ID] != tenant
  }

  ghost function Objects(samples: seq<Sample?>): set<Sample> {
    set s: Sample | s in samples
  }

  /** Rejects the batch at the first sample asserting another tenant; otherwise
      every sample carries exactly this tenant and its other labels are untouched. */
  method EnforceTenantLabel(samples: array<Sample?>, tenant: string) returns (asserted: string, ok: bool)
    modifies Objects(samples[..])`labels
    ensures samples[..] == old(samples[..])
    ensures tenant == "" ==> ok && forall s | s in Objects(samples[..]) :: s.labels == old(s.labels)
    ensures tenant != "" ==> (ok <==> forall s | s in Objects(samples[..]) :: !Asserts(old(s.labels), tenant))
    ensures tenant != "" && ok ==>
              forall s | s in Objects(samples[..]) :: s.labels == old(s.labels)[TENANT_ID := tenant]
    ensures !ok ==> exists i | 0 <= i < samples.Length && samples[i] != null ::
              && Asserts(old(samples[i].labels), tenant) && asserted == old(samples[i].labels)[TENANT_ID]
              && forall j | 0 <= j < i && samples[j] != null :: !Asserts(old(samples[j].labels), tenant)
  {
    if tenant == "" { return "", true; }
    for i := 0 to samples.Length
      invariant forall s | s in Objects(samples[..]) && s in samples[..i] ::
          !Asserts(old(s.labels), tenant) && s.labels == old(s.labels)[TENANT_ID := tenant]
      invariant forall s | s in Objects(samples[..]) && s !in samples[..i] :: s.labels == old(s.labels)
    {
      var s := samples[i];
      assert samples[..i + 1] == samples[..i] + [s];
      if s != null {
        assert s in samples[..];
        if TENANT_ID in s.labels {
          if s.labels[TENANT_ID] != tenant {
            assert s !in samples[..i];
            forall j | 0 <= j < i && samples[j] != null ensures !Asserts(old(samples[j].labels), tenant) {
              assert samples[j] in samples[..i];
            }
            return s.labels[TENANT_ID], false;
          }
        } else {
          s.labels := s.labels[TENANT_ID := tenant];
        }
      }
    }
    assert samples[..samples.Length] == samples[..];
    return "", true;
  }

  /** Keeps, over the same backing array and in order, what no reserved name
      bars; what was received is kept or counted as dropped. */
  method DropReserved(samples: array<Sample?>, reserved: string -> bool)
    returns (kept: nat, dropped: nat)
    modifies samples
    ensures kept + dropped == samples.Length
    ensures samples[..kept] == Filter(old(samples[..]), Allowed(reserved))
  {
    ghost var was := samples[..];
    kept, dropped := 0, 0;
    for i := 0 to samples.Length
      invariant kept + dropped == i
      invariant forall j | i <= j < samples.Length :: samples[j] == was[j]
      invariant samples[..kept] == Filter(was[..i], Allowed(reserved))
    {
      var sm := samples[i];
      assert sm == was[i];
      FilterNext(was, i, Allowed(reserved));
      if reserved(NameOf(sm)) {
        dropped := dropped + 1;
      } else {
        samples[kept] := sm;
        kept := kept + 1;
        assert forall j | i + 1 <= j < samples.Length :: samples[j] == was[j];
      }
    }
    assert was[..samples.Length] == was;
  }

  // ---- the whole batch ----

  /** What a sample prints as once it passed the gate of a tenant ("" is no gate). */
  function Stamped(s: Sample?, tenant: string): Exposition.Sample
    reads s
  {
    if s == null then Exposition.Sample("", map[], "", None)
    else Exposition.Sample(s.name, if tenant == "" then s.labels else s.labels[TENANT_ID := tenant], s.value, s.at)
  }

  function StampedAll(xs: seq<Sample?>, tenant: string): (r: seq<Exposition.Sample>)
    reads set s | s in xs :: s
    ensures |r| == |xs| && forall i | 0 <= i < |xs| :: xs[i] in xs && r[i] == Stamped(xs[i], tenant)
    decreases |xs|
  {
    if xs == [] then []
    else
      var n := |xs| - 1;
      assert xs[n] in xs && forall s | s in xs[..n] :: s in xs;
      StampedAll(xs[..n], tenant) + [Stamped(xs[n], tenant)]
  }

  /** The samples that go on to the store: not reserved, in order, stamped. */
  function Forwarded(views: seq<Exposition.Sample>, reserved: string -> bool): seq<Exposition.Sample> {
    Filter(views, Sendable(reserved))
  }

  function Sendable(reserved: string -> bool): Exposition.Sample -> bool {
    (v: Exposition.Sample) => !reserved(v.name)
  }

  function Readable(reserved: string -> bool): Exposition.Sample -> bool {
    (v: Exposition.Sample) => v.name != "" && !reserved(v.name)
  }

  /** What a stamped sample is stored as. */
  function RowOf(v: Exposition.Sample, now: int): Exposition.Reading {
    Exposition.Reading(v.name, v.labels, v.value, if v.at.Some? then v.at.value else now)
  }

  /** Stamping and filtering may be done in either order. */
  lemma {:induction false} FilterStamped(xs: seq<Sample?>, reserved: string -> bool)
    ensures StampedAll(Filter(xs, Allowed(reserved)), "") == Forwarded(StampedAll(xs, ""), reserved)
  {
    if xs != [] {
      var n := |xs| - 1;
      FilterStamped(xs[..n], reserved);
      var before, keep := Filter(xs[..n], Allowed(reserved)), !reserved(NameOf(xs[n]));
      var views := StampedAll(xs, "");
      assert views[..n] == StampedAll(xs[..n], "");
      assert Stamped(xs[n], "").name == NameOf(xs[n]);
      assert Forwarded(views, reserved) ==
             Forwarded(views[..n], reserved) + if keep then [Stamped(xs[n], "")] else [];
      if keep {
        assert (before + [xs[n]])[..|before|] == before;
        assert Filter(xs, Allowed(reserved)) == before + [xs[n]];
      } else {
        assert Filter(xs, Allowed(reserved)) == before;
      }
    }
  }

  /** The rows the store reads are the stamped samples with a name that is not reserved, in order. */
  lemma {:induction false} RowsByOrigin(views: seq<Exposition.Sample>, reserved: string -> bool, now: int)
    ensures var from := Positions(views, Readable(reserved));
            var rows := Exposition.Expected(Forwarded(views, reserved), now);
            |from| == |rows| && forall k | 0 <= k < |rows| :: rows[k] == RowOf(views[from[k]], now)
  {
    if views != [] {
      var n := |views| - 1;
      var v, sent := views[n], Forwarded(views[..n], reserved);
      RowsByOrigin(views[..n], reserved, now);
      Exposition.ExpectedGrows(sent, now, v);
      if reserved(v.name) {
        assert Forwarded(views, reserved) == sent;
      } else {
        assert Forwarded(views, reserved) == sent + [v];
        if v.name == "" {
          assert Exposition.Expected(sent + [v], now) == Exposition.Expected(sent, now);
        }
      }
    }
  }

  lemma Readings(views: seq<Exposition.Sample>, reserved: string -> bool, now: int)
    returns (rows: seq<Exposition.Reading>, from: seq<nat>)
    ensures |from| == |rows| && Rising(from, |views|)
    ensures forall i | 0 <= i < |views| :: i in from <==> views[i].name != "" && !reserved(views[i].name)
    ensures forall k | 0 <= k < |rows| :: rows[k] == RowOf(views[from[k]], now)
    ensures rows == Exposition.Expected(Forwarded(views, reserved), now)
    ensures (forall v | v in Forwarded(views, reserved) :: Exposition.Valid(v)) <==>
            forall x | x in rows :: Exposition.WellFormed(x)
  {
    rows, from := Exposition.Expected(Forwarded(views, reserved), now), Positions(views, Readable(reserved));
    RowsByOrigin(views, reserved, now);
    Exposition.ValidRows(Forwarded(views, reserved), now);
  }

  datatype Outcome = Rejected(asserted: string) | Written(buf: string, accepted: nat, dropped: nat)

  /** The samples not reserved, in order, as they are now. */
  method KeepAllowed(samples: array<Sample?>, reserved: string -> bool)
    returns (views: seq<Exposition.Sample>, kept: nat, dropped: nat)
    modifies samples
    ensures kept + dropped == samples.Length && kept == |Filter(old(samples[..]), Allowed(reserved))|
    ensures views == Forwarded(old(StampedAll(samples[..], "")), reserved)
  {
    ghost var unreserved := Filter(samples[..], Allowed(reserved));
    ghost var planned := Forwarded(StampedAll(samples[..], ""), reserved);
    FilterStamped(samples[..], reserved);
    assert StampedNow(unreserved, planned);
    kept, dropped := DropReserved(samples, reserved);
    SameStamps(unreserved, planned);
    views := Values(samples, kept);
  }

  /** The samples not reserved, printed as they are now. */
  method ForwardBatch(samples: array<Sample?>, reserved: string -> bool, now: int)
    returns (buf: string, kept: nat, dropped: nat, ghost lines: seq<string>)
    modifies samples
    ensures kept + dropped == samples.Length && kept == |Filter(old(samples[..]), Allowed(reserved))|
    ensures Exposition.Printed(Forwarded(old(StampedAll(samples[..], "")), reserved), now, lines)
    ensures buf == Exposition.Flatten(lines)
  {
    var views;
    views, kept, dropped := KeepAllowed(samples, reserved);
    ghost var rows, from;
    buf, lines, rows, from := Exposition.Write(views, now);
  }

  /** What every sample of an accepted batch prints as was settled before it was stamped. */
  ghost predicate StampedNow(xs: seq<Sample?>, planned: seq<Exposition.Sample>)
    reads set s | s in xs :: s
  {
    |planned| == |xs| && forall i | 0 <= i < |xs| :: xs[i] in xs && planned[i] == Stamped(xs[i], "")
  }

  lemma SameStamps(xs: seq<Sample?>, planned: seq<Exposition.Sample>)
    requires StampedNow(xs, planned)
    ensures StampedAll(xs, "") == planned
  {
  }

  /** The gate, then the filter, then the printer. */
  method PassBatch(samples: array<Sample?>, tenant: string, reserved: string -> bool, now: int)
    returns (r: Outcome, ghost lines: seq<string>, ghost views: seq<Exposition.Sample>)
    modifies samples, Objects(samples[..])`labels
    ensures r.Rejected? <==> tenant != "" && exists s | s in old(Objects(samples[..])) :: Asserts(old(s.labels), tenant)
    ensures r.Rejected? ==> exists s | s in old(Objects(samples[..])) ::
              Asserts(old(s.labels), tenant) && r.asserted == old(s.labels)[TENANT_ID]
    ensures views == old(StampedAll(samples[..], tenant))
    ensures |views| == samples.Length
    ensures forall i | 0 <= i < samples.Length :: views[i] == old(Stamped(samples[i], tenant))
    ensures r.Written? ==> r.accepted + r.dropped == samples.Length
    ensures r.Written? ==> r.accepted == |Filter(old(samples[..]), Allowed(reserved))|
    ensures r.Written? ==> Exposition.Printed(Forwarded(views, reserved), now, lines)
    ensures r.Written? ==> r.buf == Exposition.Flatten(lines)
  {
    lines, views := [], StampedAll(samples[..], tenant);
    var asserted, ok := EnforceTenantLabel(samples, tenant);
    if !ok {
      r := Rejected(asserted);
      return;
    }
    assert StampedNow(samples[..], views);
    SameStamps(samples[..], views);
    var buf, accepted, dropped;
    buf, accepted, dropped, lines := ForwardBatch(samples, reserved, now);
    r := Written(buf, accepted, dropped);
  }

  /** A batch asserting another tenant anywhere is rejected whole. Of any other the store
      reads, if and only if names and values are valid, exactly the samples with a name
      that is not reserved, in order: each with its value, its labels and this tenant,
      at its own time if it has one. */
  method HandleBatch(samples: array<Sample?>, tenant: string, reserved: string -> bool, now: int)
    returns (r: Outcome, ghost lines: seq<string>, ghost views: seq<Exposition.Sample>,
             ghost rows: seq<Exposition.Reading>, ghost from: seq<nat>)
    modifies samples, Objects(samples[..])`labels
    ensures r.Rejected? <==> tenant != "" && exists s | s in old(Objects(samples[..])) :: Asserts(old(s.labels), tenant)
    ensures r.Rejected? ==> exists s | s in old(Objects(samples[..])) ::
              Asserts(old(s.labels), tenant) && r.asserted == old(s.labels)[TENANT_ID]
    ensures r.Written? ==> r.accepted + r.dropped == samples.Length
    ensures r.Written? ==> r.accepted == |Filter(old(samples[..]), (s: Sample?) => !reserved(NameOf(s)))|
    ensures |views| == samples.Length
    ensures forall i | 0 <= i < samples.Length && old(samples[i]) != null ::
              views[i] == old(Exposition.Sample(samples[i].name,
                                                if tenant == "" then samples[i].labels
                                                else samples[i].labels[TENANT_ID := tenant],
                                                samples[i].value, samples[i].at))
    ensures forall i | 0 <= i < samples.Length && old(samples[i]) == null :: views[i].name == ""
    ensures |from| == |rows| && Rising(from, |views|)
    ensures forall i | 0 <= i < |views| :: i in from <==> views[i].name != "" && !reserved(views[i].name)
    ensures forall k | 0 <= k < |rows| ::
              var v := views[from[k]];
              rows[k] == Exposition.Reading(v.name, v.labels, v.value, if v.at.Some? then v.at.value else now)
    ensures r.Written? ==> Exposition.Printed(Forwarded(old(StampedAll(samples[..], tenant)), reserved), now, lines)
    ensures r.Written? ==> r.buf == Exposition.Flatten(lines)
    ensures r.Written? ==>
              (Exposition.ReadBack(r.buf) == Some(rows) <==> forall x | x in rows :: Exposition.WellFormed(x))
  {
    r, lines, views := PassBatch(samples, tenant, reserved, now);
    rows, from := Readings(views, reserved, now);
    if r.Written? { Exposition.RoundTrip(Forwarded(views, reserved), now, lines); }
  }

  method Values(samples: array<Sample?>, kept: nat) returns (views: seq<Exposition.Sample>)
    requires kept <= samples.Length
    ensures views == StampedAll(samples[..kept], "")
  {
    views := [];
    for i := 0 to kept
      invariant views == StampedAll(samples[..i], "")
    {
      assert samples[..i + 1][..i] == samples[..i];
      var s := samples[i];
      views := views + [if s == null then Exposition.Sample("", map[], "", None)
                        else Exposition.Sample(s.name, s.labels, s.value, s.at)];
    }
  }

  // ---- what the store then reads ----

  /** Where every name that is sent on is valid, every row the store reads back from an
      accepted batch is labelled with the authenticated tenant and bears no reserved name. */
  lemma StoredRowsAreTheTenants(xs: seq<Sample?>, tenant: string, reserved: string -> bool, now: int,
                                lines: seq<string>, rows: seq<Exposition.Reading>)
    requires tenant != "" && Exposition.Printed(Forwarded(StampedAll(xs, tenant), reserved), now, lines)
    requires forall v | v in Forwarded(StampedAll(xs, tenant), reserved) :: Exposition.Valid(v)
    requires Exposition.ReadBack(Exposition.Flatten(lines)) == Some(rows)
    ensures forall r | r in rows :: TENANT_ID in r.labels && r.labels[TENANT_ID] == tenant && !reserved(r.name)
  {
    var views := StampedAll(xs, tenant);
    Exposition.RoundTrip(Forwarded(views, reserved), now, lines);
    RowsByOrigin(views, reserved, now);
    var from := Positions(views, Readable(reserved));
    forall k | 0 <= k < |rows|
      ensures TENANT_ID in rows[k].labels && rows[k].labels[TENANT_ID] == tenant && !reserved(rows[k].name)
    {
      assert from[k] in from && views[from[k]] == Stamped(xs[from[k]], tenant);
    }
  }

  /** Nothing on the way checks the names. An accepted sample whose name holds a line
      break is stored as two rows, and the first bears neither the tenant nor a name
      the filter looked at. */
  lemma BrokenNameLosesTenant(x: Sample, tenant: string, reserved: string -> bool, now: int, lines: seq<string>)
    requires x.name == "a 1 1\n" + "b" && x.labels == map[] && x.value == "1" && x.at == Some(1)
    requires tenant != "" && !reserved(x.name)
    requires Exposition.Printed(Forwarded(StampedAll([x], tenant), reserved), now, lines)
    ensures !Asserts(x.labels, tenant)
    ensures Exposition.ReadBack(Exposition.Flatten(lines)) ==
            Some([Exposition.Reading("a", map[], "1", 1), Exposition.Reading("b", map[TENANT_ID := tenant], "1", 1)])
  {
    ForwardedAlone(x, tenant, reserved);
    var s := Stamped(x, tenant);
    PrintedAlone(s, now, lines);
    assert s.labels == map[TENANT_ID := tenant];
    Exposition.BrokenNameReadsAsTwo(s.labels, now, lines[0]);
  }

  lemma ForwardedAlone(x: Sample, tenant: string, reserved: string -> bool)
    requires !reserved(x.name)
    ensures Forwarded(StampedAll([x], tenant), reserved) == [Stamped(x, tenant)]
  {
    var views := StampedAll([x], tenant);
    var keep := Sendable(reserved);
    assert views == [Stamped(x, tenant)] && keep(views[0]);
    assert Filter(views[..0], keep) == [];
  }

  lemma PrintedAlone(s: Exposition.Sample, now: int, lines: seq<string>)
    requires Exposition.Printed([s], now, lines)
    ensures lines != [] && Exposition.PrintsAs(s, now, lines[0]) && Exposition.Flatten(lines) == lines[0]
  {
    assert Exposition.Printed([s][1..], now, lines[1..]);
    assert lines[0] + "" == lines[0];
  }
}
