/** How a cluster known through its agents is listed: by value, one step at a time. */
module ClusterModes {
  import opened Options

  datatype AgentKey = AgentKey(cluster: string, agent: string)

  /** session tells one connection of an agent from the next. */
  datatype Agent = Agent(session: nat, kubeProxy: bool)

  /** What the store keeps of an agent; left is when it disconnected. */
  datatype Record = Record(cluster: string, agent: string, kubeProxy: bool, name: string, seen: int, left: Option<int>)

  /** The manager's cluster entries and display names, the live agents, the persisted records. */
  datatype Fleet = Fleet(proxy: set<string>, metricsOnly: set<string>, listed: set<string>, names: map<string, string>,
                         live: map<AgentKey, Agent>, records: map<AgentKey, Record>, next: nat)

  datatype Mode = Absent | AgentProxy | MetricsOnly

  function ModeOf(f: Fleet, c: string): Mode {
    if c !in f.listed then Absent
    else if c in f.metricsOnly then MetricsOnly
    else if c in f.proxy then AgentProxy
    else Absent
  }

  /** The cluster the backend itself runs in, when it is known. */
  predicate IsSelfCluster(c: string, self: string) { self != "" && c == self }

  function Named(names: map<string, string>, c: string, name: string): map<string, string> {
    if name != "" then names[c := name] else names
  }

  function AddProxy(f: Fleet, c: string, name: string): Fleet {
    if c == "" then f
    else f.(proxy := f.proxy + {c}, metricsOnly := f.metricsOnly - {c}, listed := f.listed + {c},
            names := Named(f.names, c, name))
  }

  function AddMetricsOnly(f: Fleet, c: string, name: string): Fleet {
    if c == "" then f
    else f.(metricsOnly := f.metricsOnly + {c}, listed := f.listed + {c}, names := Named(f.names, c, name))
  }

  function WithoutRecords(records: map<AgentKey, Record>, c: string): map<AgentKey, Record> {
    map k | k in records && k.cluster != c :: records[k]
  }

  /** The persisted part always goes; the entry goes only from an agent-proxy cluster. */
  function Remove(f: Fleet, c: string): Fleet {
    var g := f.(names := f.names - {c}, records := WithoutRecords(f.records, c));
    if c in f.proxy then g.(proxy := g.proxy - {c}, listed := g.listed - {c}) else g
  }

  predicate HasProxyAgent(live: map<AgentKey, Agent>, c: string) {
    exists k | k in live :: k.cluster == c && live[k].kubeProxy
  }

  function AutoRegister(f: Fleet, auto: bool, self: string, c: string, name: string, kubeProxy: bool): Fleet {
    if !auto || IsSelfCluster(c, self) then f
    else if kubeProxy then AddProxy(f, c, name)
    else if HasProxyAgent(f.live, c) then f
    else AddMetricsOnly(f, c, name)
  }

  function Register(f: Fleet, k: AgentKey, name: string, kubeProxy: bool, now: int): Fleet {
    f.(live := f.live[k := Agent(f.next, kubeProxy)],
       records := f.records[k := Record(k.cluster, k.agent, kubeProxy, name, now, None)],
       next := f.next + 1)
  }

  /** A connection that was replaced meanwhile unregisters nothing. */
  function Unregister(f: Fleet, k: AgentKey, session: nat, now: int): Fleet {
    if k !in f.live || f.live[k].session != session then f
    else f.(live := f.live - {k},
            records := if k in f.records then f.records[k := f.records[k].(seen := now, left := Some(now))]
                       else f.records)
  }

  function Pruned(records: map<AgentKey, Record>, before: int): map<AgentKey, Record> {
    map k | k in records && !(records[k].left.Some? && records[k].left.value < before) :: records[k]
  }

  function AllLeft(records: map<AgentKey, Record>, now: int): map<AgentKey, Record> {
    map k | k in records :: if records[k].left.None? then records[k].(left := Some(now)) else records[k]
  }

  // ---- boot restore ----

  /** The most recently seen named record of a cluster, the first listed among equals. */
  function NamedRecord(listing: seq<Record>, c: string): Option<Record> {
    if listing == [] then None
    else
      var n := |listing| - 1;
      var best, r := NamedRecord(listing[..n], c), listing[n];
      if r.cluster == c && r.name != "" && (best.None? || r.seen > best.value.seen) then Some(r) else best
  }

  function Clusters(listing: seq<Record>): set<string> { set r | r in listing :: r.cluster }
  function ProxyClusters(listing: seq<Record>): set<string> { set r | r in listing && r.kubeProxy :: r.cluster }

  function RestoredNames(names: map<string, string>, listing: seq<Record>, restored: set<string>): map<string, string> {
    map c | c in names.Keys + restored && (c in names || NamedRecord(listing, c).Some?) ::
      if c in restored && NamedRecord(listing, c).Some? then NamedRecord(listing, c).value.name else names[c]
  }

  /** The fresh process: nobody connected, and an entry for every cluster of the records but the backend's own. */
  function Boot(f: Fleet, listing: seq<Record>, self: string, now: int): Fleet {
    var restored := set c | c in Clusters(listing) && c != "" && !IsSelfCluster(c, self);
    Fleet(restored * ProxyClusters(listing), restored - ProxyClusters(listing), restored,
          RestoredNames(f.names, listing, restored), map[], AllLeft(f.records, now), f.next)
  }

  // ---- steps ----

  /** Hello is one whole handshake; welcomed tells whether the welcome went out. */
  datatype Step =
    | Hello(key: AgentKey, name: string, kubeProxy: bool, auto: bool, welcomed: bool, now: int)
    | Disconnect(key: AgentKey, session: nat, now: int)
    | Delete(cluster: string)
    | Prune(before: int)
    | Restart(listing: seq<Record>, now: int)

  ghost predicate Lists(listing: seq<Record>, records: map<AgentKey, Record>) {
    && (forall r | r in listing ::
          AgentKey(r.cluster, r.agent) in records && records[AgentKey(r.cluster, r.agent)] == r)
    && (forall k | k in records :: records[k] in listing)
  }

  function Next(f: Fleet, self: string, step: Step): Fleet {
    match step
    case Hello(k, name, kubeProxy, auto, welcomed, now) =>
      var g := AutoRegister(f, auto, self, k.cluster, name, kubeProxy);
      if welcomed then Register(g, k, name, kubeProxy, now) else g
    case Disconnect(k, session, now) => Unregister(f, k, session, now)
    case Delete(c) => Remove(f, c)
    case Prune(before) => f.(records := Pruned(f.records, before))
    case Restart(listing, now) => Boot(f, listing, self, now)
  }

  function Run(f: Fleet, self: string, steps: seq<Step>): Fleet
    decreases steps
  {
    if steps == [] then f else Run(Next(f, self, steps[0]), self, steps[1..])
  }

  // ---- the invariant ----

  /** A cluster with a live kube-proxy agent is not metrics-only, and the backend's own is never registered. */
  ghost predicate Inv(f: Fleet, self: string) {
    && (forall k | k in f.live && f.live[k].kubeProxy :: k.cluster !in f.metricsOnly)
    && (self != "" ==> self !in f.proxy && self !in f.metricsOnly && self !in f.listed)
  }

  /** The one way a single step breaks it: a kube-proxy agent says hello on a
      metrics-only cluster while auto-register is off. */
  predicate UpgradeUnseen(f: Fleet, step: Step) {
    step.Hello? && step.welcomed && step.kubeProxy && !step.auto && step.key.cluster in f.metricsOnly
  }

  lemma StepKeepsInv(f: Fleet, self: string, step: Step)
    requires Inv(f, self) && "" !in f.metricsOnly
    ensures Inv(Next(f, self, step), self) <==> !UpgradeUnseen(f, step)
    ensures "" !in Next(f, self, step).metricsOnly
  {
  }

  predicate AutoOn(steps: seq<Step>) {
    forall i | 0 <= i < |steps| && steps[i].Hello? :: steps[i].auto
  }

  /** With auto-register on and handshakes one at a time, in every state reachable
      by restarts, hellos, disconnects, prunes and deletes: no cluster with a live
      kube-proxy agent is metrics-only, and the backend's own is never registered. */
  lemma {:induction false} EveryRunKeepsInv(f: Fleet, self: string, steps: seq<Step>)
    requires Inv(f, self) && "" !in f.metricsOnly && AutoOn(steps)
    ensures Inv(Run(f, self, steps), self)
    decreases steps
  {
    if steps != [] {
      StepKeepsInv(f, self, steps[0]);
      EveryRunKeepsInv(Next(f, self, steps[0]), self, steps[1..]);
    }
  }

  /** In such a state a listed cluster whose kube-proxy agent is live, and which
      still has its entry, is shown as agent-proxy. */
  lemma ProxyAgentMeansAgentProxy(f: Fleet, self: string, k: AgentKey)
    requires Inv(f, self) && k in f.live && f.live[k].kubeProxy && k.cluster in f.listed * f.proxy
    ensures ModeOf(f, k.cluster) == AgentProxy
  {
  }

  // ---- what the invariant does not cover ----

  /** Two handshakes of one cluster, the second checking before the first has
      registered: the live kube-proxy agent ends up on a metrics-only cluster. */
  lemma OverlappingHandshakesBreakIt(f: Fleet, self: string, c: string, now: int)
    requires Inv(f, self) && c != "" && c != self && !HasProxyAgent(f.live, c)
    ensures var first := AutoRegister(f, true, self, c, "", true);
            var second := AutoRegister(first, true, self, c, "", false);
            var node := Register(second, AgentKey(c, "node"), "", true, now);
            var done := Register(node, AgentKey(c, "promread"), "", false, now);
            !Inv(done, self) && ModeOf(done, c) == MetricsOnly
  {
  }

  /** The converse does not hold: a cluster's only kube-proxy agent reconnecting
      without it still counts itself, so the cluster stays agent-proxy with no
      agent left to proxy through. */
  lemma ReconnectWithoutProxyKeepsMode(f: Fleet, self: string, k: AgentKey, now: int)
    requires k in f.live && f.live[k].kubeProxy && k.cluster != self
    requires forall q | q in f.live && q.cluster == k.cluster && f.live[q].kubeProxy :: q == k
    ensures var g := Next(f, self, Hello(k, "", false, true, true, now));
            ModeOf(g, k.cluster) == ModeOf(f, k.cluster) && !HasProxyAgent(g.live, k.cluster)
  {
  }

  // ---- connections that replace one another ----

  predicate LiveAs(f: Fleet, k: AgentKey, n: nat) { k in f.live && f.live[k].session == n }

  /** A step that ends this connection or replaces it. */
  predicate EndsIt(step: Step, k: AgentKey, n: nat) {
    || (step.Hello? && step.key == k && step.welcomed)
    || (step.Disconnect? && step.key == k && step.session == n)
    || step.Restart?
  }

  /** An agent last welcomed with session n is live until that session disconnects or
      the backend restarts, whatever teardowns, hellos, prunes and deletes come. */
  lemma {:induction false} LiveUntilItEnds(f: Fleet, self: string, k: AgentKey, n: nat, steps: seq<Step>)
    requires LiveAs(f, k, n) && forall i | 0 <= i < |steps| :: !EndsIt(steps[i], k, n)
    ensures LiveAs(Run(f, self, steps), k, n) && Run(f, self, steps).live[k] == f.live[k]
    decreases steps
  {
    if steps != [] {
      LiveUntilItEnds(Next(f, self, steps[0]), self, k, n, steps[1..]);
    }
  }

  /** And its record stays and does not say it left, unless its cluster is deleted. */
  lemma {:induction false} RecordUntilItEnds(f: Fleet, self: string, k: AgentKey, n: nat, steps: seq<Step>)
    requires LiveAs(f, k, n) && k in f.records && f.records[k].left.None?
    requires forall i | 0 <= i < |steps| ::
               !EndsIt(steps[i], k, n) && !(steps[i].Delete? && steps[i].cluster == k.cluster)
    ensures k in Run(f, self, steps).records && Run(f, self, steps).records[k] == f.records[k]
    decreases steps
  {
    if steps != [] {
      LiveUntilItEnds(f, self, k, n, [steps[0]]);
      assert Run(f, self, [steps[0]]) == Next(f, self, steps[0]);
      RecordUntilItEnds(Next(f, self, steps[0]), self, k, n, steps[1..]);
    }
  }

  predicate RecordedLeft(f: Fleet, k: AgentKey, at: int) {
    k !in f.live && k in f.records && f.records[k].left == Some(at)
  }

  /** A step that takes a departed agent's record away: it says hello again, its cluster
      is deleted, or a prune cuts later than it left. */
  predicate Forgets(step: Step, k: AgentKey, at: int) {
    || (step.Hello? && step.key == k && step.welcomed)
    || (step.Delete? && step.cluster == k.cluster)
    || (step.Prune? && at < step.before)
  }

  /** A departed agent stays on record, with the time it left, until such a step; and a
      prune later than that takes it away. */
  lemma {:induction false} LeaverIsRemembered(f: Fleet, self: string, k: AgentKey, at: int, steps: seq<Step>,
                                              before: int)
    requires RecordedLeft(f, k, at) && forall i | 0 <= i < |steps| :: !Forgets(steps[i], k, at)
    ensures RecordedLeft(Run(f, self, steps), k, at)
    ensures k in Next(Run(f, self, steps), self, Prune(before)).records <==> before <= at
    decreases steps
  {
    if steps != [] {
      LeaverIsRemembered(Next(f, self, steps[0]), self, k, at, steps[1..], before);
    }
  }

  /** Session n of this agent is over: whoever is connected now came later. */
  predicate SessionOver(f: Fleet, k: AgentKey, n: nat) {
    n < f.next && (k in f.live ==> n < f.live[k].session)
  }

  lemma {:induction false} StaysOver(f: Fleet, self: string, k: AgentKey, n: nat, steps: seq<Step>)
    requires SessionOver(f, k, n)
    ensures SessionOver(Run(f, self, steps), k, n)
    decreases steps
  {
    if steps != [] {
      StaysOver(Next(f, self, steps[0]), self, k, n, steps[1..]);
    }
  }

  /** The teardown of a connection that another hello replaced changes nothing, however
      late it comes. */
  lemma StaleTeardown(f: Fleet, self: string, again: Step, steps: seq<Step>, n: nat, now: int)
    requires again.Hello? && again.welcomed && n < f.next
    ensures var g := Run(Next(f, self, again), self, steps);
            Next(g, self, Disconnect(again.key, n, now)) == g
  {
    StaysOver(Next(f, self, again), self, again.key, n, steps);
  }

  // ---- operator delete ----

  ghost predicate NoRecords(f: Fleet, c: string) { forall k | k in f.records :: k.cluster != c }

  lemma {:induction false} StaysForgotten(f: Fleet, self: string, c: string, steps: seq<Step>)
    requires NoRecords(f, c) && forall i | 0 <= i < |steps| && steps[i].Hello? :: steps[i].key.cluster != c
    ensures NoRecords(Run(f, self, steps), c)
    decreases steps
  {
    if steps != [] {
      var step := steps[0];
      assert NoRecords(Next(f, self, step), c) by {
        if step.Disconnect? && step.key in f.live && step.key.cluster == c { assert step.key !in f.records; }
      }
      StaysForgotten(Next(f, self, step), self, c, steps[1..]);
    }
  }

  /** Every restart reads the records as they stand then. */
  ghost predicate TrueRestarts(f: Fleet, self: string, steps: seq<Step>)
    decreases steps
  {
    steps == [] ||
    (&& (steps[0].Restart? ==> Lists(steps[0].listing, f.records))
     && TrueRestarts(Next(f, self, steps[0]), self, steps[1..]))
  }

  lemma {:induction false} StaysUnlisted(f: Fleet, self: string, c: string, steps: seq<Step>)
    requires NoRecords(f, c) && c !in f.proxy && TrueRestarts(f, self, steps)
    requires forall i | 0 <= i < |steps| && steps[i].Hello? :: steps[i].key.cluster != c
    ensures c in Run(f, self, steps).listed <==> c in f.listed && forall i | 0 <= i < |steps| :: !steps[i].Restart?
    decreases steps
  {
    if steps != [] {
      var step := steps[0];
      var g := Next(f, self, step);
      StaysForgotten(f, self, c, [step]);
      assert Run(f, self, [step]) == g;
      if step.Restart? {
        forall r | r in step.listing ensures r.cluster != c {
          assert AgentKey(r.cluster, r.agent) in f.records;
        }
      }
      StaysUnlisted(g, self, c, steps[1..]);
      assert forall i | 0 < i < |steps| :: steps[i] == steps[1..][i - 1];
    }
  }

  /** After an operator delete, as long as none of its agents says hello, a cluster
      is listed exactly when it was listed, had no agent-proxy entry, and no restart
      has come since: a delete alone never takes a metrics-only cluster off the list. */
  lemma DeleteUnlists(f: Fleet, self: string, c: string, steps: seq<Step>)
    requires TrueRestarts(Remove(f, c), self, steps)
    requires forall i | 0 <= i < |steps| && steps[i].Hello? :: steps[i].key.cluster != c
    ensures c in Run(Remove(f, c), self, steps).listed <==>
            c in f.listed && c !in f.proxy && forall i | 0 <= i < |steps| :: !steps[i].Restart?
  {
    StaysUnlisted(Remove(f, c), self, c, steps);
  }

  /** A deleted cluster does not come back: unless one of its agents says hello
      again, no later restart lists it, whatever happened in between. */
  lemma DeleteIsDurable(f: Fleet, self: string, c: string, steps: seq<Step>, listing: seq<Record>, now: int)
    requires forall i | 0 <= i < |steps| && steps[i].Hello? :: steps[i].key.cluster != c
    requires Lists(listing, Run(Remove(f, c), self, steps).records)
    ensures ModeOf(Boot(Run(Remove(f, c), self, steps), listing, self, now), c) == Absent
  {
    StaysForgotten(Remove(f, c), self, c, steps);
    forall r | r in listing ensures r.cluster != c {
      assert AgentKey(r.cluster, r.agent) in Run(Remove(f, c), self, steps).records;
    }
  }

  // ---- boot restore ----

  predicate NamedOf(r: Record, c: string) { r.cluster == c && r.name != "" }

  /** i is the most recently seen named record of c, the first listed among equals. */
  ghost predicate LatestAt(listing: seq<Record>, c: string, i: nat) {
    && i < |listing| && NamedOf(listing[i], c)
    && (forall j | 0 <= j < |listing| && NamedOf(listing[j], c) ::
          listing[j].seen < listing[i].seen || (listing[j].seen == listing[i].seen && i <= j))
  }

  lemma {:induction false} NamedRecordIsLatest(listing: seq<Record>, c: string) returns (i: nat)
    ensures NamedRecord(listing, c).None? <==> forall j | 0 <= j < |listing| :: !NamedOf(listing[j], c)
    ensures NamedRecord(listing, c).Some? ==> LatestAt(listing, c, i) && NamedRecord(listing, c).value == listing[i]
  {
    i := 0;
    if listing != [] {
      var n := |listing| - 1;
      var before := listing[..n];
      i := NamedRecordIsLatest(before, c);
      assert forall j | 0 <= j < n :: before[j] == listing[j];
      var best := NamedRecord(before, c);
      if NamedOf(listing[n], c) && (best.None? || listing[n].seen > best.value.seen) { i := n; }
    }
  }

  /** After boot, a cluster other than the backend's own is agent-proxy when some
      record of it had kube-proxy, metrics-only when it has records without, and
      absent without any. */
  lemma BootModes(f: Fleet, listing: seq<Record>, self: string, now: int, c: string)
    requires c != ""
    ensures ModeOf(Boot(f, listing, self, now), c) ==
            if IsSelfCluster(c, self) || !(exists r | r in listing :: r.cluster == c) then Absent
            else if exists r | r in listing :: r.cluster == c && r.kubeProxy then AgentProxy
            else MetricsOnly
  {
  }

  /** A restored cluster is shown under its latest named record's name, or the one
      it had when no record names it. */
  lemma BootNames(f: Fleet, listing: seq<Record>, self: string, now: int, c: string) returns (i: nat)
    requires c != "" && !IsSelfCluster(c, self) && c in Clusters(listing)
    ensures var names := Boot(f, listing, self, now).names;
            if exists j :: 0 <= j < |listing| && NamedOf(listing[j], c) then
              LatestAt(listing, c, i) && c in names && names[c] == listing[i].name
            else (c in names <==> c in f.names) && (c in names ==> names[c] == f.names[c])
  {
    i := NamedRecordIsLatest(listing, c);
  }
}

/** The backend's in-memory registrations and live agents, over its store. */
module ClusterBackend {
  import opened Options
  import opened ClusterModes

  // ---- the boot loop, by value ----

  function NameOr(listing: seq<Record>, c: string): string {
    if NamedRecord(listing, c).Some? then NamedRecord(listing, c).value.name else ""
  }

  /** One cluster's entries in the loop's maps are what its records say so far. */
  ghost predicate TracksOne(listing: seq<Record>, seen: map<string, string>, namedAt: map<string, int>, c: string) {
    && (c in seen <==> c in Clusters(listing))
    && (c in seen ==> seen[c] == NameOr(listing, c))
    && (NamedRecord(listing, c).Some? ==>
          c in seen && seen[c] != "" && c in namedAt && namedAt[c] == NamedRecord(listing, c).value.seen)
  }

  lemma TrackGrows(listing: seq<Record>, seen: map<string, string>, namedAt: map<string, int>, rec: Record, c: string)
    requires TracksOne(listing, seen, namedAt, c)
    ensures c != rec.cluster ==> TracksOne(listing + [rec], seen, namedAt, c)
    ensures c == rec.cluster ==>
              if rec.name != "" && (NamedRecord(listing, c).None? || rec.seen > namedAt[c]) then
                TracksOne(listing + [rec], seen[c := rec.name], namedAt[c := rec.seen], c)
              else TracksOne(listing + [rec], if c in seen then seen else seen[c := ""], namedAt, c)
  {
  }

  function Restored(listing: seq<Record>, done: set<string>, self: string): set<string> {
    set c | c in done && c in Clusters(listing) && c != "" && !IsSelfCluster(c, self)
  }

  /** The fleet once the clusters done have been restored. */
  function Restoring(f: Fleet, listing: seq<Record>, done: set<string>, self: string, now: int): Fleet {
    var restored := Restored(listing, done, self);
    Fleet(restored * ProxyClusters(listing), restored - ProxyClusters(listing), restored,
          RestoredNames(f.names, listing, restored), map[], AllLeft(f.records, now), f.next)
  }

  lemma {:induction false} NamedRecordIsNamed(listing: seq<Record>, c: string)
    ensures NamedRecord(listing, c).Some? ==> NamedRecord(listing, c).value.name != ""
  {
    if listing != [] { NamedRecordIsNamed(listing[..|listing| - 1], c); }
  }

  lemma RestoresName(names: map<string, string>, listing: seq<Record>, was: set<string>, c: string)
    requires c !in was
    ensures RestoredNames(names, listing, was + {c}) == Named(RestoredNames(names, listing, was), c, NameOr(listing, c))
  {
    NamedRecordIsNamed(listing, c);
  }

  lemma RestoresOne(f: Fleet, listing: seq<Record>, done: set<string>, self: string, now: int, c: string)
    requires c in Clusters(listing) && c !in done
    ensures var g := Restoring(f, listing, done, self, now);
            Restoring(f, listing, done + {c}, self, now) ==
            if IsSelfCluster(c, self) || c == "" then g
            else if c in ProxyClusters(listing) then AddProxy(g, c, NameOr(listing, c))
            else AddMetricsOnly(g, c, NameOr(listing, c))
  {
    var was, more := Restored(listing, done, self), Restored(listing, done + {c}, self);
    if IsSelfCluster(c, self) || c == "" {
      assert more == was;
    } else {
      assert more == was + {c};
      RestoresName(f.names, listing, was, c);
    }
  }

  lemma RestoresNone(f: Fleet, listing: seq<Record>, self: string, now: int)
    ensures Restoring(f, listing, {}, self, now) == Fleet({}, {}, {}, f.names, map[], AllLeft(f.records, now), f.next)
  {
    assert RestoredNames(f.names, listing, {}) == f.names;
  }

  lemma RestoresAll(f: Fleet, listing: seq<Record>, self: string, now: int)
    ensures Restoring(f, listing, Clusters(listing), self, now) == Boot(f, listing, self, now)
  {
  }

  class Backend {
    const self: string
    var proxy: set<string>
    var metricsOnly: set<string>
    var listed: set<string>
    var names: map<string, string>
    var live: map<AgentKey, Agent>
    var records: map<AgentKey, Record>
    var next: nat

    ghost function State(): Fleet
      reads this
    {
      Fleet(proxy, metricsOnly, listed, names, live, records, next)
    }

    constructor (self: string)
      ensures this.self == self && Inv(State(), self) && "" !in metricsOnly && State().records == map[]
    {
      this.self := self;
      proxy, metricsOnly, listed, names, live, records, next := {}, {}, {}, map[], map[], map[], 0;
    }

    method AddAgentProxyCluster(c: string, name: string) returns (ok: bool)
      modifies this
      ensures ok <==> c != ""
      ensures State() == AddProxy(old(State()), c, name)
      ensures ok ==> proxy == old(proxy) + {c} && metricsOnly == old(metricsOnly) - {c} && listed == old(listed) + {c}
      ensures ok ==> names == if name != "" then old(names)[c := name] else old(names)
      ensures live == old(live) && records == old(records) && next == old(next)
      ensures !ok ==> State() == old(State())
    {
      if c == "" { return false; }
      proxy := proxy + {c};
      metricsOnly := metricsOnly - {c};
      listed := listed + {c};
      if name != "" { names := names[c := name]; }
      ok := true;
    }

    method AddMetricsOnlyCluster(c: string, name: string) returns (ok: bool)
      modifies this
      ensures ok <==> c != ""
      ensures State() == AddMetricsOnly(old(State()), c, name)
      ensures ok ==> metricsOnly == old(metricsOnly) + {c} && listed == old(listed) + {c} && proxy == old(proxy)
      ensures ok ==> names == if name != "" then old(names)[c := name] else old(names)
      ensures live == old(live) && records == old(records) && next == old(next)
      ensures !ok ==> State() == old(State())
    {
      if c == "" { return false; }
      metricsOnly := metricsOnly + {c};
      listed := listed + {c};
      if name != "" { names := names[c := name]; }
      ok := true;
    }

    method RemoveAgentProxyCluster(c: string)
      modifies this
      ensures State() == Next(old(State()), self, Delete(c))
      ensures c !in proxy && forall d | d != c :: d in proxy <==> d in old(proxy)
      ensures c in listed <==> c in old(listed) && c !in old(proxy)
      ensures forall d | d != c :: d in listed <==> d in old(listed)
      ensures c !in names
      ensures forall d | d != c :: (d in names <==> d in old(names)) && (d in names ==> names[d] == old(names)[d])
      ensures forall k :: k in records <==> k in old(records) && k.cluster != c
      ensures forall k | k in records :: records[k] == old(records)[k]
      ensures metricsOnly == old(metricsOnly) && live == old(live) && next == old(next)
    {
      names := names - {c};
      var rest := records.Keys;
      ghost var was := records;
      while rest != {}
        invariant rest <= records.Keys
        invariant records == map k | k in was && (k in rest || k.cluster != c) :: was[k]
        invariant proxy == old(proxy) && metricsOnly == old(metricsOnly) && listed == old(listed)
        invariant names == old(names) - {c} && live == old(live) && next == old(next)
        decreases rest
      {
        var k :| k in rest;
        if k.cluster == c { records := records - {k}; }
        rest := rest - {k};
      }
      if c !in proxy { return; }
      proxy := proxy - {c};
      listed := listed - {c};
    }

    method HasProxyCapableAgent(c: string) returns (has: bool)
      ensures has <==> HasProxyAgent(live, c)
    {
      var rest := live.Keys;
      while rest != {}
        invariant rest <= live.Keys
        invariant forall k | k in live && k !in rest :: !(k.cluster == c && live[k].kubeProxy)
        decreases rest
      {
        var k :| k in rest;
        if k.cluster == c && live[k].kubeProxy { return true; }
        rest := rest - {k};
      }
      return false;
    }

    /** Tells whether the cluster was registered just now. */
    method MaybeAutoRegisterCluster(auto: bool, c: string, name: string, kubeProxy: bool) returns (registered: bool)
      modifies this
      ensures State() == AutoRegister(old(State()), auto, self, c, name, kubeProxy)
      ensures registered <==>
              && auto && !(self != "" && c == self) && c != ""
              && (kubeProxy || !exists k | k in old(live) :: k.cluster == c && old(live)[k].kubeProxy)
      ensures !registered ==> State() == old(State())
      ensures registered ==> c in listed && (if kubeProxy then c in proxy && c !in metricsOnly
                                             else c in metricsOnly && proxy == old(proxy))
      ensures registered && name != "" ==> c in names && names[c] == name
      ensures forall d | d != c ::
                && (d in proxy <==> d in old(proxy)) && (d in metricsOnly <==> d in old(metricsOnly))
                && (d in listed <==> d in old(listed)) && (d in names <==> d in old(names))
                && (d in names ==> names[d] == old(names)[d])
      ensures live == old(live) && records == old(records) && next == old(next)
    {
      if !auto { return false; }
      if IsSelfCluster(c, self) { return false; }
      if !kubeProxy {
        var keep := HasProxyCapableAgent(c);
        if keep { return false; }
        registered := AddMetricsOnlyCluster(c, name);
        return;
      }
      registered := AddAgentProxyCluster(c, name);
    }

    /** One handshake up to the receive loop; session is what its teardown must present. */
    method Handshake(k: AgentKey, name: string, kubeProxy: bool, auto: bool, welcomed: bool, now: int)
      returns (session: Option<nat>)
      modifies this
      ensures State() == Next(old(State()), self, Hello(k, name, kubeProxy, auto, welcomed, now))
      ensures session == if welcomed then Some(old(next)) else None
      ensures live == if welcomed then old(live)[k := Agent(old(next), kubeProxy)] else old(live)
      ensures records == if welcomed then old(records)[k := Record(k.cluster, k.agent, kubeProxy, name, now, None)]
                         else old(records)
      ensures next == if welcomed then old(next) + 1 else old(next)
      ensures forall d | d != k.cluster ::
                && (d in proxy <==> d in old(proxy)) && (d in metricsOnly <==> d in old(metricsOnly))
                && (d in listed <==> d in old(listed)) && (d in names <==> d in old(names))
                && (d in names ==> names[d] == old(names)[d])
      ensures auto && !(self != "" && k.cluster == self) && k.cluster != "" && kubeProxy ==>
                k.cluster in listed && k.cluster in proxy && k.cluster !in metricsOnly
    {
      var _ := MaybeAutoRegisterCluster(auto, k.cluster, name, kubeProxy);
      if !welcomed { return None; }
      session := Some(next);
      live := live[k := Agent(next, kubeProxy)];
      records := records[k := Record(k.cluster, k.agent, kubeProxy, name, now, None)];
      next := next + 1;
    }

    /** Only the connection that is live may take its agent away. */
    method Teardown(k: AgentKey, session: nat, now: int)
      modifies this
      ensures State() == Next(old(State()), self, Disconnect(k, session, now))
      ensures k !in old(live) || old(live)[k].session != session ==> State() == old(State())
      ensures k in old(live) && old(live)[k].session == session ==>
                && live == old(live) - {k} && records.Keys == old(records).Keys
                && (k in records ==> records[k] == old(records)[k].(seen := now, left := Some(now)))
                && (forall q | q in records && q != k :: records[q] == old(records)[q])
      ensures proxy == old(proxy) && metricsOnly == old(metricsOnly) && listed == old(listed)
      ensures names == old(names) && next == old(next)
    {
      if k in live && live[k].session == session {
        live := live - {k};
        if k in records { records := records[k := records[k].(seen := now, left := Some(now))]; }
      }
    }

    /** The loop over the records: each cluster's name so far, and those with kube-proxy. */
    method ReadRecords(listing: seq<Record>) returns (seen: map<string, string>, kubeProxyKeys: set<string>)
      ensures kubeProxyKeys == ProxyClusters(listing)
      ensures forall c :: c in seen <==> c in Clusters(listing)
      ensures forall c | c in seen :: seen[c] == NameOr(listing, c)
    {
      seen, kubeProxyKeys := map[], {};
      var namedAt: map<string, int> := map[];
      for i := 0 to |listing|
        invariant kubeProxyKeys == ProxyClusters(listing[..i])
        invariant forall c :: TracksOne(listing[..i], seen, namedAt, c)
      {
        var rec := listing[i];
        assert listing[..i + 1] == listing[..i] + [rec];
        if rec.kubeProxy { kubeProxyKeys := kubeProxyKeys + {rec.cluster}; }
        ghost var seenWas, namedAtWas := seen, namedAt;
        assert TracksOne(listing[..i], seen, namedAt, rec.cluster);
        var named := rec.cluster in seen && seen[rec.cluster] != "";
        if rec.name != "" && (!named || rec.seen > namedAt[rec.cluster]) {
          seen := seen[rec.cluster := rec.name];
          namedAt := namedAt[rec.cluster := rec.seen];
        } else if rec.cluster !in seen {
          seen := seen[rec.cluster := ""];
        }
        ghost var before, after := listing[..i], listing[..i + 1];
        forall c ensures TracksOne(after, seen, namedAt, c) {
          NamedRecordIsNamed(before, c);
          TrackGrows(before, seenWas, namedAtWas, rec, c);
        }
      }
      assert listing[..|listing|] == listing;
      forall c ensures (c in seen <==> c in Clusters(listing)) && (c in seen ==> seen[c] == NameOr(listing, c)) {
        assert TracksOne(listing, seen, namedAt, c);
      }
    }

    method MarkAllDisconnected(now: int)
      modifies this`records
      ensures records == AllLeft(old(records), now)
      ensures records.Keys == old(records).Keys
      ensures forall k | k in records ::
                records[k] == if old(records)[k].left.None? then old(records)[k].(left := Some(now))
                              else old(records)[k]
    {
      var rest := records.Keys;
      ghost var was := records;
      while rest != {}
        invariant rest <= records.Keys == was.Keys
        invariant forall k | k in was :: records[k] == if k in rest then was[k] else AllLeft(was, now)[k]
        decreases rest
      {
        var k :| k in rest;
        if records[k].left.None? { records := records[k := records[k].(left := Some(now))]; }
        rest := rest - {k};
      }
    }

    method RestoreOne(c: string, name: string, kubeProxy: bool)
      modifies this
      ensures State() == var f := old(State());
                         if IsSelfCluster(c, self) || c == "" then f
                         else if kubeProxy then AddProxy(f, c, name)
                         else AddMetricsOnly(f, c, name)
    {
      if IsSelfCluster(c, self) { return; }
      if kubeProxy {
        var _ := AddAgentProxyCluster(c, name);
      } else {
        var _ := AddMetricsOnlyCluster(c, name);
      }
    }

    /** Boot: a fresh process over the store it finds. */
    method BootRestore(listing: seq<Record>, now: int)
      modifies this
      ensures State() == Next(old(State()), self, Restart(listing, now))
      ensures live == map[] && next == old(next) && records.Keys == old(records).Keys
      ensures forall k | k in records ::
                records[k] == if old(records)[k].left.None? then old(records)[k].(left := Some(now))
                              else old(records)[k]
      ensures forall c :: c in listed <==>
                && c != "" && !(self != "" && c == self)
                && exists r :: r in listing && r.cluster == c
      ensures forall c :: c in proxy <==> c in listed && exists r :: r in listing && r.cluster == c && r.kubeProxy
      ensures metricsOnly == listed - proxy
    {
      proxy, metricsOnly, listed, live := {}, {}, {}, map[];
      MarkAllDisconnected(now);
      var seen, kubeProxyKeys := ReadRecords(listing);
      var rest := seen.Keys;
      ghost var done := {};
      ghost var was := old(State());
      RestoresNone(was, listing, self, now);
      while rest != {}
        invariant rest <= seen.Keys && done == seen.Keys - rest
        invariant State() == Restoring(was, listing, done, self, now)
        decreases rest
      {
        var c :| c in rest;
        RestoresOne(was, listing, done, self, now, c);
        rest := rest - {c};
        done := done + {c};
        RestoreOne(c, seen[c], c in kubeProxyKeys);
      }
      assert done == Clusters(listing);
      RestoresAll(was, listing, self, now);
    }
  }
}
