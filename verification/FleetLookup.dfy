/** What one cluster of the fleet exposes to the outside. */
module FleetTypes {
  datatype Kind = Gateway | Ingress | Service | OtherKind(name: string)

  /** An object answering on an address; address is already normalized. */
  datatype ExternalAddress = ExternalAddress(address: string, kind: Kind, namespace: string, name: string,
                                             ports: seq<string>)

  type Addresses = seq<ExternalAddress>

  /** A cluster the caller may see; live when a connector can read it. */
  datatype Cluster = Cluster(context: string, display: string, current: bool, live: bool)
}

/** The per-(tenant, context) cache of what each cluster exposes. */
module FleetCache {
  import opened Options
  import opened FleetTypes

  datatype Key = Key(tenant: string, context: string)
  datatype Entry = Entry(at: int, addrs: Addresses)

  predicate Expired(e: Entry, ttl: int, now: int) { now - e.at >= ttl }

  function Lookup(entries: map<Key, Entry>, ttl: int, k: Key, now: int): Option<Entry> {
    if k in entries && !Expired(entries[k], ttl, now) then Some(entries[k]) else None
  }

  function Put(entries: map<Key, Entry>, ttl: int, k: Key, addrs: Addresses, now: int): map<Key, Entry> {
    (map q | q in entries && !Expired(entries[q], ttl, now) :: entries[q])[k := Entry(now, addrs)]
  }

  class FleetAddressIndex {
    var entries: map<Key, Entry>
    const ttl: int

    constructor (ttl: int)
      ensures entries == map[] && this.ttl == ttl
    {
      entries, this.ttl := map[], ttl;
    }

    /** A hit is the key's own entry, younger than the TTL. */
    method Cached(k: Key, now: int) returns (hit: Option<Addresses>)
      ensures hit.Some? <==> k in entries && now - entries[k].at < ttl
      ensures hit.Some? ==> hit.value == entries[k].addrs
      ensures var e := Lookup(entries, ttl, k, now); hit == if e.Some? then Some(e.value.addrs) else None
    {
      if k !in entries || now - entries[k].at >= ttl {
        return None;
      }
      return Some(entries[k].addrs);
    }

    /** Drops what expired, then files the new addresses. */
    method Store(k: Key, addrs: Addresses, now: int)
      modifies this`entries
      ensures entries == Put(old(entries), ttl, k, addrs, now)
      ensures k in entries && entries[k] == Entry(now, addrs)
      ensures forall q | q != k :: q in entries <==> q in old(entries) && now - old(entries)[q].at < ttl
      ensures forall q | q != k && q in entries :: entries[q] == old(entries)[q]
    {
      var rest := entries.Keys;
      while rest != {}
        invariant rest <= old(entries).Keys
        invariant entries ==
                  map q | q in old(entries) && (q in rest || !Expired(old(entries)[q], ttl, now)) :: old(entries)[q]
        decreases rest
      {
        var q :| q in rest;
        if now - entries[q].at >= ttl {
          entries := entries - {q};
        }
        rest := rest - {q};
      }
      entries := entries[k := Entry(now, addrs)];
    }
  }
}

/** One lookup over the fleet, under any schedule. It scans the cache, queues the
    clusters left to read, and waits for a bounded pool of workers until it has
    every answer, its deadline passes or its caller leaves. */
module FleetLookup {
  import opened Options
  import opened Numbers
  import opened FleetTypes
  import opened FleetCache

  /** Where one worker stands. Got: it took a job and has not looked at stop yet.
      Cleared: it looked, and its read has not begun. */
  datatype Worker =
    | Idle
    | Got(i: nat)
    | Cleared(i: nat)
    | Reading(i: nat)
    | Sending(i: nat, addrs: Addresses)
    | Exited

  datatype Result = Result(i: nat, addrs: Addresses)

  datatype Answer =
    | FromCache(entry: Entry, asked: int)
    | FromRead(addrs: Addresses)

  datatype Phase = Scanning(next: nat) | Waiting | Leaving | Returned(searched: nat, skipped: nat)

  /** How far the read of one cluster got, and which worker has it. */
  datatype Stage =
    | NotQueued
    | Queued
    | Taken(w: nat)
    | Admitted(w: nat)
    | BeingRead(w: nat)
    | Read(w: nat, addrs: Addresses)
    | Buffered(addrs: Addresses)
    | Collected(addrs: Addresses)
    | Dropped                    // taken after the lookup stopped
  {
    predicate Begun() { BeingRead? || Read? || Buffered? || Collected? }
  }

  datatype LookupState = LookupState(
    tenant: string,
    clusters: seq<Cluster>,
    parallel: int,
    phase: Phase,
    done: seq<Option<Answer>>,
    pending: seq<nat>,
    jobs: seq<nat>,
    workers: seq<Worker>,
    results: seq<Result>,        // the buffered channel; its capacity is |pending|
    left: nat,                   // answers still waited for
    stopped: bool,
    gaveUp: bool,                // the deadline passed or the caller left
    // history
    stage: seq<Stage>,
    started: seq<nat>,           // the reads begun, in order
    answered: seq<nat>)          // the reads collected, in order
  {
    function KeyOf(i: nat): Key
      requires i < |clusters|
    {
      Key(tenant, clusters[i].context)
    }
  }

  function Begin(tenant: string, clusters: seq<Cluster>, parallel: int): LookupState {
    LookupState(tenant, clusters, parallel, Scanning(0), seq(|clusters|, _ => None), [], [], [], [], 0, false, false,
                seq(|clusters|, _ => NotQueued), [], [])
  }

  // ---- steps of one lookup ----

  /** hit is what the cache holds for the cluster scanned next. */
  datatype Act =
    | Scan(hit: Option<Entry>, now: int)
    | Take(w: nat)
    | CheckStop(w: nat)
    | StartRead(w: nat)
    | FinishRead(w: nat, addrs: Addresses)
    | Send(w: nat)
    | Collect
    | GiveUp
    | Return

  predicate Busy(l: LookupState, w: nat) {
    && w < |l.workers|
    && (l.workers[w].Got? || l.workers[w].Cleared? || l.workers[w].Reading? || l.workers[w].Sending?)
    && l.workers[w].i < |l.stage|
  }

  predicate Enabled(l: LookupState, a: Act) {
    match a
    case Scan(_, _) => l.phase.Scanning? && |l.done| == |l.clusters|
    case Take(w) => w < |l.workers| && l.workers[w].Idle?
    case CheckStop(w) => Busy(l, w) && l.workers[w].Got?
    case StartRead(w) => Busy(l, w) && l.workers[w].Cleared?
    case FinishRead(w, _) => Busy(l, w) && l.workers[w].Reading?
    case Send(w) => Busy(l, w) && l.workers[w].Sending? && |l.results| < |l.pending|
    case Collect => l.phase.Waiting? && l.results != [] && l.results[0].i < |l.stage| == |l.done| && 0 < l.left
    case GiveUp => l.phase.Waiting?
    case Return => l.phase.Leaving?
  }

  /** The end of the scan: the jobs are queued and the pool starts. */
  function Launch(l: LookupState): LookupState {
    if l.pending == [] then l.(phase := Leaving)
    else l.(phase := Waiting, jobs := l.pending, left := |l.pending|,
            workers := seq(Min(Max(l.parallel, 1), |l.pending|), _ => Idle),
            stage := seq(|l.stage|, i => if i in l.pending then Queued else NotQueued))
  }

  function CountDone(done: seq<Option<Answer>>): (n: nat)
    ensures n <= |done|
  {
    if done == [] then 0 else CountDone(done[..|done| - 1]) + if done[|done| - 1].Some? then 1 else 0
  }

  function Advance(l: LookupState, a: Act): LookupState
    requires Enabled(l, a)
  {
    match a
    case Scan(hit, now) =>
      var i := l.phase.next;
      if i >= |l.clusters| then Launch(l)
      else if hit.Some? then
        l.(phase := Scanning(i + 1), done := l.done[i := Some(FromCache(hit.value, now))])
      else if l.clusters[i].live then l.(phase := Scanning(i + 1), pending := l.pending + [i])
      else l.(phase := Scanning(i + 1))
    case Take(w) =>
      if l.jobs == [] then l.(workers := l.workers[w := Exited])
      else
        var i := l.jobs[0];
        l.(jobs := l.jobs[1..], workers := l.workers[w := Got(i)],
           stage := if i < |l.stage| then l.stage[i := Taken(w)] else l.stage)
    case CheckStop(w) =>
      var i := l.workers[w].i;
      if l.stopped then l.(workers := l.workers[w := Exited], stage := l.stage[i := Dropped])
      else l.(workers := l.workers[w := Cleared(i)], stage := l.stage[i := Admitted(w)])
    case StartRead(w) =>
      var i := l.workers[w].i;
      l.(workers := l.workers[w := Reading(i)], stage := l.stage[i := BeingRead(w)], started := l.started + [i])
    case FinishRead(w, addrs) =>
      var i := l.workers[w].i;
      l.(workers := l.workers[w := Sending(i, addrs)], stage := l.stage[i := Read(w, addrs)])
    case Send(w) =>
      var i, addrs := l.workers[w].i, l.workers[w].addrs;
      l.(workers := l.workers[w := Idle], results := l.results + [Result(i, addrs)],
         stage := l.stage[i := Buffered(addrs)])
    case Collect =>
      var r := l.results[0];
      l.(results := l.results[1..], left := l.left - 1, stage := l.stage[r.i := Collected(r.addrs)],
         done := l.done[r.i := Some(FromRead(r.addrs))], answered := l.answered + [r.i],
         phase := if l.left == 1 then Leaving else Waiting)
    case GiveUp => l.(phase := Leaving, gaveUp := true)
    case Return =>
      var n := CountDone(l.done);
      l.(phase := Returned(n, |l.done| - n), stopped := true)
  }

  // ---- what every schedule keeps ----

  ghost predicate Distinct(ids: seq<nat>) {
    forall p, q | 0 <= p < q < |ids| :: ids[p] != ids[q]
  }

  /** The queue is what the scan left: readable clusters the cache did not answer. */
  ghost predicate QueueOk(l: LookupState) {
    && |l.done| == |l.clusters| == |l.stage|
    && Distinct(l.pending)
    && (forall p | 0 <= p < |l.pending| :: l.pending[p] < |l.clusters| && l.clusters[l.pending[p]].live)
    && Distinct(l.jobs)
    && (forall p | 0 <= p < |l.jobs| :: l.jobs[p] < |l.stage| && l.stage[l.jobs[p]].Queued?)
    && (forall i | 0 <= i < |l.stage| :: l.stage[i] != NotQueued ==> i in l.pending)
  }

  /** Every cluster scanned so far was answered by the cache, queued, or has no live connection. */
  ghost predicate ScanOk(l: LookupState) {
    var next := if l.phase.Scanning? then l.phase.next else |l.clusters|;
    && next <= |l.clusters|
    && (forall p | 0 <= p < |l.pending| :: l.pending[p] < next)
    && (forall i | next <= i < |l.done| :: l.done[i].None?)
    && (forall i | 0 <= i < next && i < |l.done| && l.done[i].None? && l.clusters[i].live :: i in l.pending)
    && (l.phase.Scanning? ==>
          && l.jobs == [] && l.workers == [] && l.results == [] && l.started == [] && l.answered == []
          && l.left == 0 && !l.stopped && !l.gaveUp
          && (forall i | 0 <= i < |l.stage| :: l.stage[i].NotQueued?))
  }

  /** A worker and the cluster it has agree on where the read stands. */
  ghost predicate WorkersOk(l: LookupState) {
    && (forall w | 0 <= w < |l.workers| && l.workers[w].Got? ::
          l.workers[w].i < |l.stage| && l.stage[l.workers[w].i] == Taken(w))
    && (forall w | 0 <= w < |l.workers| && l.workers[w].Cleared? ::
          l.workers[w].i < |l.stage| && l.stage[l.workers[w].i] == Admitted(w))
    && (forall w | 0 <= w < |l.workers| && l.workers[w].Reading? ::
          l.workers[w].i < |l.stage| && l.stage[l.workers[w].i] == BeingRead(w))
    && (forall w | 0 <= w < |l.workers| && l.workers[w].Sending? ::
          l.workers[w].i < |l.stage| && l.stage[l.workers[w].i] == Read(w, l.workers[w].addrs))
    && (!l.phase.Scanning? ==> |l.workers| == if l.pending == [] then 0 else Min(Max(l.parallel, 1), |l.pending|))
  }

  ghost predicate ResultsOk(l: LookupState) {
    && (forall k, j | 0 <= k < j < |l.results| :: l.results[k].i != l.results[j].i)
    && (forall k | 0 <= k < |l.results| ::
          l.results[k].i < |l.stage| && l.stage[l.results[k].i] == Buffered(l.results[k].addrs))
  }

  /** A slot is filled by the cache and then never queued, or by its own collected read. */
  ghost predicate AnswersOk(l: LookupState) {
    && (forall i | 0 <= i < |l.done| == |l.stage| && l.done[i].None? :: !l.stage[i].Collected?)
    && (forall i | 0 <= i < |l.done| == |l.stage| && l.done[i].Some? && l.done[i].value.FromCache? ::
          l.stage[i].NotQueued? && i !in l.pending)
    && (forall i | 0 <= i < |l.done| == |l.stage| && l.done[i].Some? && l.done[i].value.FromRead? ::
          l.stage[i] == Collected(l.done[i].value.addrs))
    && Distinct(l.answered)
    && (forall p | 0 <= p < |l.answered| :: l.answered[p] < |l.stage| && l.stage[l.answered[p]].Collected?)
    && (!l.phase.Scanning? ==> l.left + |l.answered| == |l.pending|)
  }

  ghost predicate StartedOk(l: LookupState) {
    && Distinct(l.started)
    && (forall p | 0 <= p < |l.started| :: l.started[p] < |l.stage| && l.stage[l.started[p]].Begun())
    && (forall i | 0 <= i < |l.stage| && l.stage[i].Begun() :: i in l.started)
  }

  ghost predicate PhaseOk(l: LookupState) {
    && (l.phase.Waiting? ==> 0 < l.left)
    && (l.phase.Leaving? || l.phase.Returned? ==> l.left == 0 || l.gaveUp)
    && (l.phase.Returned? ==> l.phase == Returned(CountDone(l.done), |l.done| - CountDone(l.done)))
    && (l.stopped <==> l.phase.Returned?)
  }

  ghost predicate LookupInv(l: LookupState) {
    QueueOk(l) && ScanOk(l) && WorkersOk(l) && ResultsOk(l) && AnswersOk(l) && StartedOk(l) && PhaseOk(l)
  }

  lemma BeginOk(tenant: string, clusters: seq<Cluster>, parallel: int)
    ensures LookupInv(Begin(tenant, clusters, parallel))
  {
  }

  lemma ScanKeepsQueue(l: LookupState, hit: Option<Entry>, now: int)
    requires QueueOk(l) && ScanOk(l) && Enabled(l, Scan(hit, now))
    ensures QueueOk(Advance(l, Scan(hit, now)))
  {
  }

  lemma ScanKeepsScan(l: LookupState, hit: Option<Entry>, now: int)
    requires |l.done| == |l.clusters| && ScanOk(l) && Enabled(l, Scan(hit, now))
    ensures ScanOk(Advance(l, Scan(hit, now)))
  {
  }

  lemma ScanKeepsWorkers(l: LookupState, hit: Option<Entry>, now: int)
    requires ScanOk(l) && WorkersOk(l) && ResultsOk(l) && StartedOk(l) && PhaseOk(l) && Enabled(l, Scan(hit, now))
    ensures var m := Advance(l, Scan(hit, now)); WorkersOk(m) && ResultsOk(m) && StartedOk(m) && PhaseOk(m)
  {
  }

  lemma ScanKeepsAnswers(l: LookupState, hit: Option<Entry>, now: int)
    requires |l.done| == |l.stage| && ScanOk(l) && AnswersOk(l) && Enabled(l, Scan(hit, now))
    ensures AnswersOk(Advance(l, Scan(hit, now)))
  {
  }

  lemma ScanKeeps(l: LookupState, hit: Option<Entry>, now: int)
    requires LookupInv(l) && Enabled(l, Scan(hit, now))
    ensures LookupInv(Advance(l, Scan(hit, now)))
  {
    ScanKeepsQueue(l, hit, now);
    ScanKeepsScan(l, hit, now);
    ScanKeepsWorkers(l, hit, now);
    ScanKeepsAnswers(l, hit, now);
  }

  lemma TakeKeepsQueue(l: LookupState, w: nat)
    requires QueueOk(l) && ScanOk(l) && Enabled(l, Take(w))
    ensures QueueOk(Advance(l, Take(w))) && ScanOk(Advance(l, Take(w)))
  {
  }

  lemma TakeKeepsWorkers(l: LookupState, w: nat)
    requires QueueOk(l) && WorkersOk(l) && Enabled(l, Take(w))
    ensures WorkersOk(Advance(l, Take(w)))
  {
  }

  lemma TakeKeepsAnswers(l: LookupState, w: nat)
    requires QueueOk(l) && AnswersOk(l) && PhaseOk(l) && Enabled(l, Take(w))
    ensures AnswersOk(Advance(l, Take(w))) && PhaseOk(Advance(l, Take(w)))
  {
  }

  lemma TakeKeepsReads(l: LookupState, w: nat)
    requires QueueOk(l) && ResultsOk(l) && StartedOk(l) && Enabled(l, Take(w))
    ensures ResultsOk(Advance(l, Take(w))) && StartedOk(Advance(l, Take(w)))
  {
  }

  lemma TakeKeeps(l: LookupState, w: nat)
    requires LookupInv(l) && Enabled(l, Take(w))
    ensures LookupInv(Advance(l, Take(w)))
  {
    TakeKeepsQueue(l, w);
    TakeKeepsWorkers(l, w);
    TakeKeepsAnswers(l, w);
    TakeKeepsReads(l, w);
  }

  /** Whatever a worker does with the cluster it holds leaves the queue alone. */
  lemma WorkerStepKeepsQueue(l: LookupState, a: Act)
    requires QueueOk(l) && ScanOk(l) && WorkersOk(l) && Enabled(l, a)
    requires a.CheckStop? || a.StartRead? || a.FinishRead? || a.Send?
    ensures QueueOk(Advance(l, a)) && ScanOk(Advance(l, a))
  {
  }

  lemma WorkerStepKeepsWorkers(l: LookupState, a: Act)
    requires WorkersOk(l) && Enabled(l, a)
    requires a.CheckStop? || a.StartRead? || a.FinishRead? || a.Send?
    ensures WorkersOk(Advance(l, a))
  {
  }

  lemma WorkerStepKeepsResults(l: LookupState, a: Act)
    requires WorkersOk(l) && ResultsOk(l) && Enabled(l, a)
    requires a.CheckStop? || a.StartRead? || a.FinishRead? || a.Send?
    ensures ResultsOk(Advance(l, a))
  {
  }

  lemma WorkerStepKeepsAnswers(l: LookupState, a: Act)
    requires WorkersOk(l) && AnswersOk(l) && PhaseOk(l) && Enabled(l, a)
    requires a.CheckStop? || a.StartRead? || a.FinishRead? || a.Send?
    requires |l.done| == |l.stage| && forall i | 0 <= i < |l.stage| :: l.stage[i] != NotQueued ==> i in l.pending
    ensures AnswersOk(Advance(l, a)) && PhaseOk(Advance(l, a))
  {
  }

  lemma WorkerStepKeepsStarted(l: LookupState, a: Act)
    requires WorkersOk(l) && StartedOk(l) && Enabled(l, a)
    requires a.CheckStop? || a.StartRead? || a.FinishRead? || a.Send?
    ensures StartedOk(Advance(l, a))
  {
  }

  lemma WorkerStepKeeps(l: LookupState, a: Act)
    requires LookupInv(l) && Enabled(l, a) && (a.CheckStop? || a.StartRead? || a.FinishRead? || a.Send?)
    ensures LookupInv(Advance(l, a))
  {
    WorkerStepKeepsQueue(l, a);
    WorkerStepKeepsWorkers(l, a);
    WorkerStepKeepsResults(l, a);
    WorkerStepKeepsAnswers(l, a);
    WorkerStepKeepsStarted(l, a);
  }

  lemma CollectKeepsQueue(l: LookupState)
    requires QueueOk(l) && ScanOk(l) && WorkersOk(l) && ResultsOk(l) && StartedOk(l) && Enabled(l, Collect)
    ensures var m := Advance(l, Collect); QueueOk(m) && ScanOk(m) && WorkersOk(m) && ResultsOk(m) && StartedOk(m)
  {
  }

  lemma CollectKeepsAnswers(l: LookupState)
    requires ResultsOk(l) && AnswersOk(l) && PhaseOk(l) && Enabled(l, Collect)
    ensures AnswersOk(Advance(l, Collect)) && PhaseOk(Advance(l, Collect))
  {
  }

  lemma LeaveKeeps(l: LookupState, a: Act)
    requires LookupInv(l) && Enabled(l, a) && (a.GiveUp? || a.Return?)
    ensures LookupInv(Advance(l, a))
  {
  }

  /** Every step of the scan, a worker or the waiter keeps the invariant. */
  lemma StepKeeps(l: LookupState, a: Act)
    requires LookupInv(l) && Enabled(l, a)
    ensures LookupInv(Advance(l, a))
  {
    match a
    case Scan(hit, now) => ScanKeeps(l, hit, now);
    case Take(w) => TakeKeeps(l, w);
    case CheckStop(_) | StartRead(_) | FinishRead(_, _) | Send(_) => WorkerStepKeeps(l, a);
    case Collect => CollectKeepsQueue(l); CollectKeepsAnswers(l);
    case GiveUp | Return => LeaveKeeps(l, a);
  }

  // ---- what the invariant promises ----

  ghost function Elements(ids: seq<nat>): set<nat> { set x | x in ids }

  lemma {:induction false} DistinctSize(ids: seq<nat>)
    requires Distinct(ids)
    ensures |Elements(ids)| == |ids|
  {
    if ids != [] {
      var init, last := ids[..|ids| - 1], ids[|ids| - 1];
      DistinctSize(init);
      assert Elements(ids) == Elements(init) + {last};
    }
  }

  lemma SubsetSize(a: set<nat>, b: set<nat>)
    requires a <= b
    ensures |a| <= |b| && (|a| == |b| ==> a == b)
  {
    assert b == a + (b - a) && |b| == |a| + |b - a|;
  }

  lemma {:induction false} BelowSize(s: set<nat>, n: nat)
    requires forall x | x in s :: x < n
    ensures |s| <= n
  {
    if n > 0 {
      BelowSize(s - {n - 1}, n - 1);
    }
  }

  /** A worker with an answer always finds room for it, whether or not anyone still waits. */
  lemma NoWorkerBlocks(l: LookupState, w: nat)
    requires LookupInv(l) && w < |l.workers| && l.workers[w].Sending?
    ensures Enabled(l, Send(w))
  {
    var ids := seq(|l.results|, k requires 0 <= k < |l.results| => l.results[k].i) + [l.workers[w].i];
    DistinctSize(ids);
    DistinctSize(l.pending);
    assert Elements(ids) <= Elements(l.pending);
    SubsetSize(Elements(ids), Elements(l.pending));
  }

  ghost function OpenReads(l: LookupState): set<nat> {
    set w | 0 <= w < |l.workers| && l.workers[w].Reading?
  }

  lemma ReadsAreBounded(l: LookupState)
    requires LookupInv(l)
    ensures |OpenReads(l)| <= Max(l.parallel, 1)
  {
    BelowSize(OpenReads(l), |l.workers|);
  }

  ghost function Answered(done: seq<Option<Answer>>): set<nat> {
    set i | 0 <= i < |done| && done[i].Some?
  }

  lemma {:induction false} CountsAnswers(done: seq<Option<Answer>>)
    ensures CountDone(done) == |Answered(done)|
  {
    if done != [] {
      var n := |done| - 1;
      CountsAnswers(done[..n]);
      assert Answered(done) == Answered(done[..n]) + if done[n].Some? then {n} else {};
    }
  }

  /** A lookup that was not cut short answered for every cluster it could read. */
  lemma NothingReadableSkipped(l: LookupState, i: nat)
    requires LookupInv(l) && l.phase.Returned? && !l.gaveUp && i < |l.done| && l.clusters[i].live
    ensures l.done[i].Some?
  {
    DistinctSize(l.answered);
    DistinctSize(l.pending);
    assert Elements(l.answered) <= Elements(l.pending);
    SubsetSize(Elements(l.answered), Elements(l.pending));
    if i in l.pending {
      assert i in Elements(l.pending);
      assert i in l.answered;
    }
  }

  // ---- whole schedules ----

  /** A step that cannot happen is skipped. */
  function Perform(l: LookupState, a: Act): LookupState {
    if Enabled(l, a) then Advance(l, a) else l
  }

  /** A schedule names one step after another. */
  function Play(l: LookupState, acts: seq<Act>): LookupState
    decreases acts
  {
    if acts == [] then l else Play(Perform(l, acts[0]), acts[1..])
  }

  lemma PerformKeeps(l: LookupState, a: Act)
    requires LookupInv(l)
    ensures LookupInv(Perform(l, a))
    ensures Perform(l, a).clusters == l.clusters && Perform(l, a).parallel == l.parallel
  {
    if Enabled(l, a) { StepKeeps(l, a); }
  }

  lemma {:induction false} PlayKeeps(l: LookupState, acts: seq<Act>)
    requires LookupInv(l)
    ensures LookupInv(Play(l, acts))
    ensures Play(l, acts).clusters == l.clusters && Play(l, acts).parallel == l.parallel
    decreases acts
  {
    if acts != [] {
      PerformKeeps(l, acts[0]);
      PlayKeeps(Perform(l, acts[0]), acts[1..]);
    }
  }

  /** Under every schedule and deadline: searched and skipped split the clusters,
      no cluster is read twice, no more than max(parallel, 1) reads run at once,
      no worker blocks, and an uncut lookup skips only clusters it cannot read. */
  lemma EverySchedule(tenant: string, clusters: seq<Cluster>, parallel: int, acts: seq<Act>)
    ensures var l := Play(Begin(tenant, clusters, parallel), acts);
            && (l.phase.Returned? ==>
                  l.phase.searched == |Answered(l.done)| && l.phase.searched + l.phase.skipped == |clusters|)
            && Distinct(l.started)
            && |OpenReads(l)| <= Max(parallel, 1)
            && (forall w | 0 <= w < |l.workers| && l.workers[w].Sending? :: Enabled(l, Send(w)))
            && (l.phase.Returned? && !l.gaveUp ==>
                  forall i | 0 <= i < |clusters| == |l.done| && clusters[i].live :: l.done[i].Some?)
  {
    BeginOk(tenant, clusters, parallel);
    PlayKeeps(Begin(tenant, clusters, parallel), acts);
    var l := Play(Begin(tenant, clusters, parallel), acts);
    CountsAnswers(l.done);
    ReadsAreBounded(l);
    forall w | 0 <= w < |l.workers| && l.workers[w].Sending? ensures Enabled(l, Send(w)) {
      NoWorkerBlocks(l, w);
    }
    if l.phase.Returned? && !l.gaveUp {
      forall i | 0 <= i < |clusters| == |l.done| && clusters[i].live ensures l.done[i].Some? {
        NothingReadableSkipped(l, i);
      }
    }
  }

  // ---- a lookup always gets on ----

  /** A worker's step, or an answer taken in. */
  predicate Works(a: Act) { a.Take? || a.CheckStop? || a.StartRead? || a.FinishRead? || a.Send? || a.Collect? }

  predicate Holds(worker: Worker, i: nat) {
    (worker.Got? || worker.Cleared? || worker.Reading? || worker.Sending?) && worker.i == i
  }

  /** Until the lookup stops, no cluster is dropped, and workers leave only an empty queue. */
  ghost predicate QueueStocked(l: LookupState) {
    && (forall w | 0 <= w < |l.workers| && l.workers[w].Exited? :: l.jobs == [])
    && (forall i | 0 <= i < |l.stage| && l.stage[i].Queued? :: i in l.jobs)
    && (forall i | 0 <= i < |l.stage| :: !l.stage[i].Dropped?)
    && (l.phase.Waiting? ==> forall i | 0 <= i < |l.stage| && i in l.pending :: l.stage[i] != NotQueued)
  }

  /** A cluster taken from the queue is with the worker that took it. */
  ghost predicate Carried(l: LookupState) {
    forall i | 0 <= i < |l.stage| && (l.stage[i].Taken? || l.stage[i].Admitted? || l.stage[i].BeingRead?
                                      || l.stage[i].Read?) ::
      l.stage[i].w < |l.workers| && Holds(l.workers[l.stage[i].w], i)
  }

  ghost predicate InBuffer(results: seq<Result>, i: nat) { exists k :: 0 <= k < |results| && results[k].i == i }

  /** An answer sent is in the buffer until it is taken in. */
  ghost predicate Delivered(l: LookupState) {
    && (forall i: nat | i < |l.stage| && l.stage[i].Buffered? :: InBuffer(l.results, i))
    && (forall i | 0 <= i < |l.stage| && l.stage[i].Collected? :: i in l.answered)
  }

  ghost predicate Supplied(l: LookupState) { !l.stopped ==> QueueStocked(l) && Carried(l) && Delivered(l) }

  lemma WorkerStepKeepsStock(l: LookupState, a: Act)
    requires QueueOk(l) && WorkersOk(l) && QueueStocked(l) && !l.stopped && Enabled(l, a)
    requires a.CheckStop? || a.StartRead? || a.FinishRead? || a.Send?
    ensures QueueStocked(Advance(l, a))
  {
  }

  lemma WorkerStepKeepsCarried(l: LookupState, a: Act)
    requires QueueOk(l) && WorkersOk(l) && Carried(l) && !l.stopped && Enabled(l, a)
    requires a.CheckStop? || a.StartRead? || a.FinishRead? || a.Send?
    ensures Carried(Advance(l, a))
  {
  }

  lemma SendDelivers(l: LookupState, a: Act)
    requires QueueOk(l) && WorkersOk(l) && ResultsOk(l) && Delivered(l) && !l.stopped && Enabled(l, a)
    requires a.CheckStop? || a.StartRead? || a.FinishRead? || a.Send?
    ensures Delivered(Advance(l, a))
  {
    var m := Advance(l, a);
    forall i: nat | i < |m.stage| && m.stage[i].Buffered? ensures InBuffer(m.results, i) {
      if l.stage[i].Buffered? {
        var k :| 0 <= k < |l.results| && l.results[k].i == i;
        assert m.results[k].i == i;
      } else {
        assert m.results[|l.results|].i == i;
      }
    }
  }

  lemma TakeKeepsStock(l: LookupState, w: nat)
    requires QueueOk(l) && QueueStocked(l) && !l.stopped && Enabled(l, Take(w))
    ensures QueueStocked(Advance(l, Take(w)))
  {
  }

  lemma TakeKeepsCarried(l: LookupState, w: nat)
    requires QueueOk(l) && Carried(l) && Enabled(l, Take(w))
    ensures Carried(Advance(l, Take(w)))
  {
  }

  lemma TakeKeepsSupply(l: LookupState, w: nat)
    requires QueueOk(l) && Supplied(l) && !l.stopped && Enabled(l, Take(w))
    ensures Supplied(Advance(l, Take(w)))
  {
    TakeKeepsStock(l, w);
    TakeKeepsCarried(l, w);
  }

  lemma CollectKeepsSupply(l: LookupState)
    requires QueueOk(l) && WorkersOk(l) && ResultsOk(l) && Supplied(l) && !l.stopped && Enabled(l, Collect)
    ensures Supplied(Advance(l, Collect))
  {
    var m := Advance(l, Collect);
    forall i: nat | i < |m.stage| && m.stage[i].Buffered? ensures InBuffer(m.results, i) {
      var k :| 0 <= k < |l.results| && l.results[k].i == i;
      assert m.results[k - 1].i == i;
    }
  }

  lemma ScanKeepsSupply(l: LookupState, hit: Option<Entry>, now: int)
    requires QueueOk(l) && ScanOk(l) && Enabled(l, Scan(hit, now))
    ensures Supplied(Advance(l, Scan(hit, now)))
  {
  }

  lemma LeaveKeepsSupply(l: LookupState, a: Act)
    requires Supplied(l) && Enabled(l, a) && (a.GiveUp? || a.Return?)
    ensures Supplied(Advance(l, a))
  {
  }

  lemma StepKeepsSupply(l: LookupState, a: Act)
    requires LookupInv(l) && Supplied(l) && Enabled(l, a)
    ensures Supplied(Advance(l, a))
  {
    if a.GiveUp? || a.Return? {
      LeaveKeepsSupply(l, a);
    } else if a.Scan? {
      ScanKeepsSupply(l, a.hit, a.now);
    } else if !l.stopped {
      WorkKeepsSupply(l, a);
    } else {
      assert Advance(l, a).stopped;
    }
  }

  lemma WorkKeepsSupply(l: LookupState, a: Act)
    requires QueueOk(l) && WorkersOk(l) && ResultsOk(l) && Supplied(l) && !l.stopped && Enabled(l, a) && Works(a)
    ensures Supplied(Advance(l, a))
  {
    match a
    case Take(w) => TakeKeepsSupply(l, w);
    case Collect => CollectKeepsSupply(l);
    case CheckStop(_) | StartRead(_) | FinishRead(_, _) | Send(_) =>
      WorkerStepKeepsStock(l, a);
      WorkerStepKeepsCarried(l, a);
      SendDelivers(l, a);
  }

  lemma {:induction false} PlayKeepsSupply(l: LookupState, acts: seq<Act>)
    requires LookupInv(l) && Supplied(l)
    ensures LookupInv(Play(l, acts)) && Supplied(Play(l, acts))
    decreases acts
  {
    if acts != [] {
      PerformKeeps(l, acts[0]);
      if Enabled(l, acts[0]) { StepKeepsSupply(l, acts[0]); }
      PlayKeepsSupply(Perform(l, acts[0]), acts[1..]);
    }
  }

  /** How many steps a cluster's read is from being collected, at most. */
  function StepsLeft(s: Stage): nat {
    match s
    case Queued => 6
    case Taken(_) => 5
    case Admitted(_) => 4
    case BeingRead(_) => 3
    case Read(_, _) => 2
    case Buffered(_) => 1
    case _ => 0
  }

  function Sum(ns: seq<nat>): nat { if ns == [] then 0 else Sum(ns[..|ns| - 1]) + ns[|ns| - 1] }

  lemma {:induction false} SumLess(xs: seq<nat>, i: nat, n: nat)
    requires i < |xs| && n < xs[i]
    ensures Sum(xs[i := n]) < Sum(xs)
  {
    var m := |xs| - 1;
    if i < m {
      SumLess(xs[..m], i, n);
      assert xs[i := n][..m] == xs[..m][i := n];
    } else {
      assert xs[i := n][..m] == xs[..m];
    }
  }

  function ReadSteps(stage: seq<Stage>): seq<nat> {
    seq(|stage|, i requires 0 <= i < |stage| => StepsLeft(stage[i]))
  }

  function Present(workers: seq<Worker>): seq<nat> {
    seq(|workers|, w requires 0 <= w < |workers| => if workers[w].Exited? then 0 else 1)
  }

  /** What is left to do: the queued reads' steps, and the workers that have yet to leave. */
  function Work(l: LookupState): nat { Sum(ReadSteps(l.stage)) + Sum(Present(l.workers)) }

  lemma StageMoves(stage: seq<Stage>, i: nat, to: Stage)
    requires i < |stage| && StepsLeft(to) < StepsLeft(stage[i])
    ensures Sum(ReadSteps(stage[i := to])) < Sum(ReadSteps(stage))
  {
    assert ReadSteps(stage[i := to]) == ReadSteps(stage)[i := StepsLeft(to)];
    SumLess(ReadSteps(stage), i, StepsLeft(to));
  }

  lemma WorkerMoves(workers: seq<Worker>, w: nat, to: Worker)
    requires w < |workers| && !workers[w].Exited?
    ensures Sum(Present(workers[w := to])) <= Sum(Present(workers))
    ensures to.Exited? ==> Sum(Present(workers[w := to])) < Sum(Present(workers))
  {
    if to.Exited? {
      assert Present(workers[w := to]) == Present(workers)[w := 0];
      SumLess(Present(workers), w, 0);
    } else {
      assert Present(workers[w := to]) == Present(workers);
    }
  }

  lemma TakeDrops(l: LookupState, w: nat)
    requires QueueOk(l) && Enabled(l, Take(w))
    ensures Work(Advance(l, Take(w))) < Work(l)
  {
    WorkerMoves(l.workers, w, Advance(l, Take(w)).workers[w]);
    if l.jobs != [] { StageMoves(l.stage, l.jobs[0], Taken(w)); }
  }

  lemma CollectDrops(l: LookupState)
    requires ResultsOk(l) && Enabled(l, Collect)
    ensures Work(Advance(l, Collect)) < Work(l)
  {
    StageMoves(l.stage, l.results[0].i, Collected(l.results[0].addrs));
  }

  lemma HolderDrops(l: LookupState, a: Act, w: nat)
    requires WorkersOk(l) && Busy(l, w) && Enabled(l, a)
    requires a == CheckStop(w) || a == StartRead(w) || (a.FinishRead? && a.w == w) || a == Send(w)
    ensures Work(Advance(l, a)) < Work(l)
  {
    var m, i := Advance(l, a), l.workers[w].i;
    assert m.workers == l.workers[w := m.workers[w]] && m.stage == l.stage[i := m.stage[i]];
    assert StepsLeft(m.stage[i]) < StepsLeft(l.stage[i]);
    WorkerMoves(l.workers, w, m.workers[w]);
    StageMoves(l.stage, i, m.stage[i]);
  }

  /** Each step of a worker and each answer taken in leaves less to do. */
  lemma WorkDrops(l: LookupState, a: Act)
    requires QueueOk(l) && WorkersOk(l) && ResultsOk(l) && Enabled(l, a) && Works(a)
    ensures Work(Advance(l, a)) < Work(l)
  {
    match a
    case Take(w) => TakeDrops(l, w);
    case Collect => CollectDrops(l);
    case CheckStop(_) | StartRead(_) | FinishRead(_, _) | Send(_) => HolderDrops(l, a, a.w);
  }

  /** Some queued cluster is still to be collected while answers are waited for. */
  lemma SomeIsOwed(l: LookupState) returns (i: nat)
    requires LookupInv(l) && Supplied(l) && l.phase.Waiting?
    ensures i < |l.stage| && i in l.pending && !l.stage[i].Collected?
  {
    DistinctSize(l.answered);
    DistinctSize(l.pending);
    if Elements(l.pending) <= Elements(l.answered) { SubsetSize(Elements(l.pending), Elements(l.answered)); }
    i :| i in Elements(l.pending) && i !in Elements(l.answered);
  }

  /** With a queue there is a worker, and it has not left. */
  lemma FirstWorkerGoesOn(l: LookupState, i: nat) returns (a: Act)
    requires LookupInv(l) && Supplied(l) && l.phase.Waiting? && i < |l.stage| && i in l.pending && l.stage[i].Queued?
    ensures Works(a) && Enabled(l, a)
  {
    var first := l.workers[0];
    a := Take(0);
    if first.Got? {
      a := CheckStop(0);
    } else if first.Cleared? {
      a := StartRead(0);
    } else if first.Reading? {
      a := FinishRead(0, []);
    } else if first.Sending? {
      a := Send(0);
      NoWorkerBlocks(l, 0);
    }
  }

  /** The step that brings a cluster's read on. */
  lemma CanGoOn(l: LookupState, i: nat) returns (a: Act)
    requires LookupInv(l) && Supplied(l) && l.phase.Waiting?
    requires i < |l.stage| && i in l.pending && !l.stage[i].Collected?
    ensures Works(a) && Enabled(l, a)
  {
    match l.stage[i]
    case Queued =>
      a := FirstWorkerGoesOn(l, i);
    case Taken(w) => a := CheckStop(w);
    case Admitted(w) => a := StartRead(w);
    case BeingRead(w) => a := FinishRead(w, []);
    case Read(w, _) =>
      a := Send(w);
      NoWorkerBlocks(l, w);
    case Buffered(_) => a := Collect;
    case _ => assert false;
  }

  /** No schedule leaves a lookup stuck: while it waits for answers, some worker can go on or
      an answer can be taken in, and each such step leaves less to do; so a wait without the
      deadline comes to its end. The pool is as large as the queue needs and the limit allows. */
  lemma NeverStuck(tenant: string, clusters: seq<Cluster>, parallel: int, acts: seq<Act>) returns (a: Act)
    ensures var l := Play(Begin(tenant, clusters, parallel), acts);
            && (!l.phase.Returned? ==> Enabled(l, a) && !a.GiveUp?)
            && (l.phase.Waiting? ==> Works(a))
            && (forall b | Works(b) && Enabled(l, b) :: Work(Advance(l, b)) < Work(l))
            && |l.workers| <= Max(parallel, 1)
            && (l.phase.Waiting? ==> |l.workers| == Min(Max(parallel, 1), |l.pending|) && l.pending != [])
  {
    var l := Play(Begin(tenant, clusters, parallel), acts);
    BeginOk(tenant, clusters, parallel);
    PlayKeepsSupply(Begin(tenant, clusters, parallel), acts);
    PlayKeeps(Begin(tenant, clusters, parallel), acts);
    forall b | Works(b) && Enabled(l, b) ensures Work(Advance(l, b)) < Work(l) { WorkDrops(l, b); }
    a := match l.phase case Scanning(_) => Scan(None, 0) case _ => Return;
    if l.phase.Waiting? {
      var i := SomeIsOwed(l);
      a := CanGoOn(l, i);
    }
  }

  // ---- reads that begin late ----

  ghost function ClearedWorkers(l: LookupState): set<nat> {
    set w | 0 <= w < |l.workers| && l.workers[w].Cleared?
  }

  /** The clusters whose worker looked at stop, was let on and has not begun to read. */
  ghost function ClearedJobs(l: LookupState): set<nat> {
    set w | 0 <= w < |l.workers| && l.workers[w].Cleared? :: l.workers[w].i
  }

  lemma StepAfterReturn(l: LookupState, a: Act)
    requires l.stopped && l.phase.Returned?
    ensures var m := Perform(l, a);
            && m.stopped && m.done == l.done && m.phase == l.phase
            && ClearedJobs(m) <= ClearedJobs(l)
            && if a.StartRead? && Enabled(l, a) then
                 m.started == l.started + [l.workers[a.w].i] && l.workers[a.w].i in ClearedJobs(l)
                 && ClearedWorkers(m) == ClearedWorkers(l) - {a.w} && a.w in ClearedWorkers(l)
               else m.started == l.started && ClearedWorkers(m) <= ClearedWorkers(l)
  {
    var m := Perform(l, a);
    forall w | 0 <= w < |m.workers| && m.workers[w].Cleared? ensures m.workers[w].i in ClearedJobs(l) {
      assert l.workers[w] == m.workers[w];
    }
  }

  /** Once the lookup returned, its answer stands. The only reads that still begin
      are of clusters whose worker had passed the stop test by then: one such
      worker begins one, and there are at most max(parallel, 1) of them. */
  lemma {:induction false} LateReads(l: LookupState, acts: seq<Act>)
    requires l.stopped && l.phase.Returned?
    ensures var m := Play(l, acts);
            && m.done == l.done && m.phase == l.phase
            && l.started <= m.started
            && (forall p | |l.started| <= p < |m.started| :: m.started[p] in ClearedJobs(l))
            && |m.started| - |l.started| <= |ClearedWorkers(l)|
    decreases acts
  {
    if acts != [] {
      var n := Perform(l, acts[0]);
      StepAfterReturn(l, acts[0]);
      LateReads(n, acts[1..]);
      SubsetSize(ClearedWorkers(n), ClearedWorkers(l));
    }
  }

  lemma LateReadsAreBounded(l: LookupState)
    requires LookupInv(l) && l.phase.Returned?
    ensures |ClearedWorkers(l)| <= Min(Max(l.parallel, 1), |l.pending|)
  {
    BelowSize(ClearedWorkers(l), |l.workers|);
  }

  lemma PlayThen(l: LookupState, a: Act, acts: seq<Act>)
    ensures Play(l, [a] + acts) == Play(Perform(l, a), acts)
  {
    assert ([a] + acts)[1..] == acts;
  }

  /** A lookup over one live cluster: its job is queued, and its one worker has done so much. */
  function OneJob(tenant: string, c: Cluster, jobs: seq<nat>, worker: Worker, stage: Stage): LookupState {
    LookupState(tenant, [c], 1, Waiting, [None], [0], jobs, [worker], [], 1, false, false, [stage], [], [])
  }

  lemma OneJobQueued(tenant: string, c: Cluster, acts: seq<Act>)
    requires c.live
    ensures Play(Begin(tenant, [c], 1), [Scan(None, 0)] + ([Scan(None, 0)] + acts)) ==
            Play(OneJob(tenant, c, [0], Idle, Queued), acts)
  {
    var l := Begin(tenant, [c], 1);
    PlayThen(l, Scan(None, 0), [Scan(None, 0)] + acts);
    var m := Perform(l, Scan(None, 0));
    PlayThen(m, Scan(None, 0), acts);
    assert m.pending == [0] && m.stage == [NotQueued] && m.done == [None];
    assert Launch(m).workers == [Idle] && Launch(m).stage == [Queued];
    assert Perform(m, Scan(None, 0)) == OneJob(tenant, c, [0], Idle, Queued);
  }

  lemma OneJobCleared(tenant: string, c: Cluster, acts: seq<Act>)
    ensures Play(OneJob(tenant, c, [0], Idle, Queued), [Take(0)] + ([CheckStop(0)] + acts)) ==
            Play(OneJob(tenant, c, [], Cleared(0), Admitted(0)), acts)
  {
    var l := OneJob(tenant, c, [0], Idle, Queued);
    PlayThen(l, Take(0), [CheckStop(0)] + acts);
    assert Perform(l, Take(0)) == OneJob(tenant, c, [], Got(0), Taken(0));
    PlayThen(Perform(l, Take(0)), CheckStop(0), acts);
    assert Perform(OneJob(tenant, c, [], Got(0), Taken(0)), CheckStop(0)) ==
           OneJob(tenant, c, [], Cleared(0), Admitted(0));
  }

  /** One live cluster, and a caller that leaves while the worker stands between the
      test and the read: the read begins after the lookup returned. */
  lemma AReadBeginsLate(tenant: string, c: Cluster)
    requires c.live
    ensures var gone := [GiveUp] + [Return];
            var cleared := [Take(0)] + ([CheckStop(0)] + gone);
            var l := Play(Begin(tenant, [c], 1), [Scan(None, 0)] + ([Scan(None, 0)] + cleared));
            l.phase == Returned(0, 1) && l.started == [] && Play(l, [StartRead(0)]).started == [0]
  {
    var gone := [GiveUp] + [Return];
    OneJobQueued(tenant, c, [Take(0)] + ([CheckStop(0)] + gone));
    OneJobCleared(tenant, c, gone);
    var l := OneJob(tenant, c, [], Cleared(0), Admitted(0));
    PlayThen(l, GiveUp, [Return]);
    var m := Play(l, gone);
    assert m == Perform(Perform(l, GiveUp), Return);
    assert l.done[..0] == [];
  }
}

/** Any number of lookups at once, interleaved over one cache while time passes. */
module FleetWorld {
  import opened Options
  import opened FleetTypes
  import opened FleetCache
  import opened FleetLookup

  /** A read that came back: what it returned, when, and whether it may be reused. */
  datatype ReadBack = ReadBack(key: Key, addrs: Addresses, at: int, complete: bool, inTime: bool)

  datatype World = World(now: int, ttl: int, entries: map<Key, Entry>, lookups: seq<LookupState>,
                         history: seq<ReadBack>)

  datatype WorldStep =
    | Tick(elapsed: nat)
    | Open(tenant: string, clusters: seq<Cluster>, parallel: int)
    | ScanNext(j: nat)
    | ReadReturns(j: nat, w: nat, addrs: Addresses, complete: bool, inTime: bool)
    | Local(j: nat, act: Act)    // a step of one lookup that leaves the cache alone

  function Replace(w: World, j: nat, a: Act): World
    requires j < |w.lookups| && Enabled(w.lookups[j], a)
  {
    w.(lookups := w.lookups[j := Advance(w.lookups[j], a)])
  }

  /** One step; one that cannot happen changes nothing. */
  function Next(w: World, step: WorldStep): World {
    match step
    case Tick(d) => w.(now := w.now + d)
    case Open(tenant, clusters, parallel) => w.(lookups := w.lookups + [Begin(tenant, clusters, parallel)])
    case ScanNext(j) =>
      if j >= |w.lookups| || !w.lookups[j].phase.Scanning? then w
      else
        var l := w.lookups[j];
        var i := l.phase.next;
        var hit := if i < |l.clusters| then Lookup(w.entries, w.ttl, l.KeyOf(i), w.now) else None;
        if Enabled(l, Scan(hit, w.now)) then Replace(w, j, Scan(hit, w.now)) else w
    case ReadReturns(j, k, addrs, complete, inTime) =>
      if j >= |w.lookups| || !Enabled(w.lookups[j], FinishRead(k, addrs)) then w
      else
        var l := w.lookups[j];
        var i := l.workers[k].i;
        if i >= |l.clusters| then w
        else
          var key := l.KeyOf(i);
          var entries := if complete && inTime then Put(w.entries, w.ttl, key, addrs, w.now) else w.entries;
          Replace(w, j, FinishRead(k, addrs)).(entries := entries,
                  history := w.history + [ReadBack(key, addrs, w.now, complete, inTime)])
    case Local(j, a) =>
      if j < |w.lookups| && !a.Scan? && !a.FinishRead? && Enabled(w.lookups[j], a) then Replace(w, j, a) else w
  }

  function Run(w: World, steps: seq<WorldStep>): World
    decreases steps
  {
    if steps == [] then w else Run(Next(w, steps[0]), steps[1..])
  }

  /** Every entry is what some complete, timely read of its own key returned. */
  ghost predicate CacheSound(w: World) {
    forall k | k in w.entries ::
      && w.entries[k].at <= w.now
      && ReadBack(k, w.entries[k].addrs, w.entries[k].at, true, true) in w.history
  }

  /** Some read of this key returned these addresses. */
  ghost predicate WasRead(history: seq<ReadBack>, key: Key, addrs: Addresses) {
    exists r :: r in history && r.key == key && r.addrs == addrs
  }

  /** A cached answer was fresh when given and is a sound entry of the slot's own
      (tenant, context); a read one was returned by a read of that same key. */
  ghost predicate AnswerSound(w: World, l: LookupState, i: nat)
    requires i < |l.clusters| == |l.done| == |l.stage|
  {
    && (l.done[i].Some? && l.done[i].value.FromCache? ==>
          var e := l.done[i].value.entry;
          && l.done[i].value.asked <= w.now
          && 0 <= l.done[i].value.asked - e.at < w.ttl
          && ReadBack(l.KeyOf(i), e.addrs, e.at, true, true) in w.history)
    && (l.done[i].Some? && l.done[i].value.FromRead? ==> WasRead(w.history, l.KeyOf(i), l.done[i].value.addrs))
    && (l.stage[i].Read? || l.stage[i].Buffered? || l.stage[i].Collected? ==>
          WasRead(w.history, l.KeyOf(i), l.stage[i].addrs))
  }

  ghost predicate LookupSound(w: World, l: LookupState) {
    && LookupInv(l)
    && forall i | 0 <= i < |l.clusters| :: AnswerSound(w, l, i)
  }

  ghost predicate WorldInv(w: World) {
    && CacheSound(w)
    && forall j | 0 <= j < |w.lookups| :: LookupSound(w, w.lookups[j])
  }

  /** Time and later reads do not undo an answer. */
  lemma SoundStays(w: World, v: World, l: LookupState)
    requires LookupSound(w, l) && v.ttl == w.ttl && w.now <= v.now && w.history <= v.history
    ensures LookupSound(v, l)
  {
    forall i | 0 <= i < |l.clusters| ensures AnswerSound(v, l, i) {
      assert AnswerSound(w, l, i);
      forall key, addrs | WasRead(w.history, key, addrs) ensures WasRead(v.history, key, addrs) {
        var r :| r in w.history && r.key == key && r.addrs == addrs;
        assert r in v.history;
      }
      forall r | r in w.history ensures r in v.history {
        var n :| 0 <= n < |w.history| && w.history[n] == r;
        assert v.history[n] == r;
      }
    }
  }

  /** Such a step moves what a read returned along, never to another slot. */
  lemma LocalMovesOwn(l: LookupState, a: Act, i: nat)
    requires LookupInv(l) && Enabled(l, a) && !a.Scan? && !a.FinishRead? && i < |l.clusters|
    ensures var m := Advance(l, a);
            && m.tenant == l.tenant && m.clusters == l.clusters && |m.done| == |l.done| && |m.stage| == |l.stage|
            && (m.stage[i].Read? || m.stage[i].Buffered? || m.stage[i].Collected? ==>
                  (l.stage[i].Read? || l.stage[i].Buffered? || l.stage[i].Collected?)
                  && l.stage[i].addrs == m.stage[i].addrs)
            && (m.done[i] == l.done[i] || (m.stage[i].Collected? && m.done[i] == Some(FromRead(m.stage[i].addrs))))
  {
  }

  /** A step that reads no cache and no cluster fills slots only from what the reads returned. */
  lemma LocalKeepsSound(w: World, l: LookupState, a: Act)
    requires LookupSound(w, l) && Enabled(l, a) && !a.Scan? && !a.FinishRead?
    ensures LookupSound(w, Advance(l, a))
  {
    StepKeeps(l, a);
    var m := Advance(l, a);
    forall i | 0 <= i < |m.clusters| ensures AnswerSound(w, m, i) {
      assert AnswerSound(w, l, i);
      LocalMovesOwn(l, a, i);
    }
  }

  lemma ScanKeepsSound(w: World, l: LookupState, hit: Option<Entry>)
    requires LookupSound(w, l) && CacheSound(w) && Enabled(l, Scan(hit, w.now))
    requires l.phase.next < |l.clusters| ==> hit == Lookup(w.entries, w.ttl, l.KeyOf(l.phase.next), w.now)
    ensures LookupSound(w, Advance(l, Scan(hit, w.now)))
  {
    ScanKeeps(l, hit, w.now);
    var m := Advance(l, Scan(hit, w.now));
    forall i | 0 <= i < |m.clusters| ensures AnswerSound(w, m, i) {
      assert AnswerSound(w, l, i);
    }
  }

  lemma FinishKeepsSound(w: World, l: LookupState, k: nat, addrs: Addresses)
    requires LookupSound(w, l) && Enabled(l, FinishRead(k, addrs))
    requires WasRead(w.history, l.KeyOf(l.workers[k].i), addrs)
    ensures LookupSound(w, Advance(l, FinishRead(k, addrs)))
  {
    WorkerStepKeeps(l, FinishRead(k, addrs));
    var m := Advance(l, FinishRead(k, addrs));
    forall i | 0 <= i < |m.clusters| ensures AnswerSound(w, m, i) {
      assert AnswerSound(w, l, i);
    }
  }

  lemma ReadReturnsKeeps(w: World, j: nat, k: nat, addrs: Addresses, complete: bool, inTime: bool)
    requires WorldInv(w) && j < |w.lookups| && Enabled(w.lookups[j], FinishRead(k, addrs))
    ensures WorldInv(Next(w, ReadReturns(j, k, addrs, complete, inTime)))
  {
    var v := Next(w, ReadReturns(j, k, addrs, complete, inTime));
    var l := w.lookups[j];
    assert LookupSound(w, l);
    var back := ReadBack(l.KeyOf(l.workers[k].i), addrs, w.now, complete, inTime);
    assert v.history == w.history + [back];
    assert back in v.history;
    forall n | 0 <= n < |v.lookups| ensures LookupSound(v, v.lookups[n]) {
      assert LookupSound(w, w.lookups[n]);
      SoundStays(w, v, w.lookups[n]);
      if n == j {
        FinishKeepsSound(v, l, k, addrs);
      }
    }
  }

  /** Putting a sound lookup in place of another keeps the world sound. */
  lemma ReplaceKeeps(w: World, j: nat, m: LookupState)
    requires WorldInv(w) && j < |w.lookups| && LookupSound(w, m)
    ensures WorldInv(w.(lookups := w.lookups[j := m]))
  {
    var v := w.(lookups := w.lookups[j := m]);
    forall n | 0 <= n < |v.lookups| ensures LookupSound(v, v.lookups[n]) {
      assert LookupSound(w, v.lookups[n]);
      SoundStays(w, v, v.lookups[n]);
    }
  }

  lemma ScanNextKeeps(w: World, j: nat)
    requires WorldInv(w) && j < |w.lookups| && w.lookups[j].phase.Scanning?
    ensures WorldInv(Next(w, ScanNext(j)))
  {
    var l := w.lookups[j];
    assert LookupSound(w, l);
    var i := l.phase.next;
    var hit := if i < |l.clusters| then Lookup(w.entries, w.ttl, l.KeyOf(i), w.now) else None;
    ScanKeepsSound(w, l, hit);
    ReplaceKeeps(w, j, Advance(l, Scan(hit, w.now)));
  }

  lemma LocalKeeps(w: World, j: nat, a: Act)
    requires WorldInv(w) && j < |w.lookups| && !a.Scan? && !a.FinishRead? && Enabled(w.lookups[j], a)
    ensures WorldInv(Next(w, Local(j, a)))
  {
    assert LookupSound(w, w.lookups[j]);
    LocalKeepsSound(w, w.lookups[j], a);
    ReplaceKeeps(w, j, Advance(w.lookups[j], a));
  }

  lemma StepKeepsWorld(w: World, step: WorldStep)
    requires WorldInv(w)
    ensures WorldInv(Next(w, step)) && Next(w, step).ttl == w.ttl
  {
    var v := Next(w, step);
    match step
    case Tick(_) =>
      forall n | 0 <= n < |v.lookups| ensures LookupSound(v, v.lookups[n]) {
        assert LookupSound(w, w.lookups[n]);
        SoundStays(w, v, w.lookups[n]);
      }
    case Open(tenant, clusters, parallel) =>
      BeginOk(tenant, clusters, parallel);
      forall n | 0 <= n < |v.lookups| ensures LookupSound(v, v.lookups[n]) {
        if n < |w.lookups| {
          assert LookupSound(w, w.lookups[n]);
          SoundStays(w, v, w.lookups[n]);
        }
      }
    case ScanNext(j) => if v != w { ScanNextKeeps(w, j); }
    case ReadReturns(j, k, addrs, complete, inTime) =>
      if j < |w.lookups| && Enabled(w.lookups[j], FinishRead(k, addrs)) {
        ReadReturnsKeeps(w, j, k, addrs, complete, inTime);
      }
    case Local(j, a) => if v != w { LocalKeeps(w, j, a); }
  }

  lemma {:induction false} RunKeeps(w: World, steps: seq<WorldStep>)
    requires WorldInv(w)
    ensures WorldInv(Run(w, steps)) && Run(w, steps).ttl == w.ttl
    decreases steps
  {
    if steps != [] {
      StepKeepsWorld(w, steps[0]);
      RunKeeps(Next(w, steps[0]), steps[1..]);
    }
  }

  // ---- what was read is reused ----

  /** A complete, timely read of this key, no older than the TTL. */
  predicate Reusable(w: World, r: ReadBack, key: Key) {
    r.key == key && r.complete && r.inTime && w.now - r.at < w.ttl
  }

  /** Nothing that may be reused was forgotten. */
  ghost predicate NothingForgotten(w: World) {
    && (forall r | r in w.history :: r.at <= w.now)
    && (forall r, key | r in w.history && Reusable(w, r, key) :: key in w.entries && r.at <= w.entries[key].at)
  }

  lemma ReadIsKept(w: World, j: nat, k: nat, addrs: Addresses, complete: bool, inTime: bool)
    requires CacheSound(w) && NothingForgotten(w)
    ensures NothingForgotten(Next(w, ReadReturns(j, k, addrs, complete, inTime)))
  {
    var v := Next(w, ReadReturns(j, k, addrs, complete, inTime));
    if v != w {
      var l := w.lookups[j];
      var back := ReadBack(l.KeyOf(l.workers[k].i), addrs, w.now, complete, inTime);
      assert v.history == w.history + [back];
      forall r, key | r in v.history && Reusable(v, r, key) ensures key in v.entries && r.at <= v.entries[key].at {
        if r in w.history { assert Reusable(w, r, key); }
      }
    }
  }

  lemma StepForgetsNothing(w: World, step: WorldStep)
    requires CacheSound(w) && NothingForgotten(w)
    ensures NothingForgotten(Next(w, step))
  {
    var v := Next(w, step);
    if step.ReadReturns? {
      ReadIsKept(w, step.j, step.w, step.addrs, step.complete, step.inTime);
    } else {
      assert v.history == w.history && v.entries == w.entries && w.now <= v.now && v.ttl == w.ttl;
      forall r, key | r in v.history && Reusable(v, r, key) ensures key in v.entries && r.at <= v.entries[key].at {
        assert Reusable(w, r, key);
      }
    }
  }

  lemma {:induction false} RunForgetsNothing(w: World, steps: seq<WorldStep>)
    requires WorldInv(w) && NothingForgotten(w)
    ensures NothingForgotten(Run(w, steps))
    decreases steps
  {
    if steps != [] {
      StepKeepsWorld(w, steps[0]);
      StepForgetsNothing(w, steps[0]);
      RunForgetsNothing(Next(w, steps[0]), steps[1..]);
    }
  }

  /** Over every interleaving, a scan fills a cluster's slot from the cache exactly when a
      complete, timely read of the cluster is younger than the TTL, and then with such a
      read, none of them newer; it queues every other cluster it can read. */
  lemma EveryScan(now: int, ttl: int, steps: seq<WorldStep>, j: nat)
    requires var w := Run(World(now, ttl, map[], [], []), steps);
             j < |w.lookups| && w.lookups[j].phase.Scanning? && w.lookups[j].phase.next < |w.lookups[j].clusters|
    ensures var w := Run(World(now, ttl, map[], [], []), steps);
            var l, m := w.lookups[j], Next(w, ScanNext(j)).lookups[j];
            var i := l.phase.next;
            && m.phase == Scanning(i + 1) && i < |m.done|
            && (m.done[i].Some? <==> exists r :: r in w.history && Reusable(w, r, l.KeyOf(i)))
            && (m.done[i].Some? ==>
                  && m.done[i].value.FromCache? && m.pending == l.pending
                  && var e := m.done[i].value.entry;
                     && ReadBack(l.KeyOf(i), e.addrs, e.at, true, true) in w.history
                     && w.now - e.at < ttl
                     && forall r | r in w.history && Reusable(w, r, l.KeyOf(i)) :: r.at <= e.at)
            && (m.done[i].None? ==> m.pending == l.pending + if l.clusters[i].live then [i] else [])
  {
    var start := World(now, ttl, map[], [], []);
    RunKeeps(start, steps);
    RunForgetsNothing(start, steps);
    var w := Run(start, steps);
    var l := w.lookups[j];
    var i, key := l.phase.next, l.KeyOf(l.phase.next);
    assert LookupSound(w, l);
    var hit := Lookup(w.entries, w.ttl, key, w.now);
    assert Next(w, ScanNext(j)).lookups[j] == Advance(l, Scan(hit, w.now));
    assert l.done[i].None?;
    if hit.Some? {
      assert Reusable(w, ReadBack(key, hit.value.addrs, hit.value.at, true, true), key);
    }
  }

  /** Over every interleaving of any number of lookups: the cache holds only what
      complete, timely reads of each key returned, and every answer is its own
      cluster's, younger than the TTL when it came from the cache. */
  lemma EveryInterleaving(now: int, ttl: int, steps: seq<WorldStep>)
    ensures var w := Run(World(now, ttl, map[], [], []), steps);
            && w.ttl == ttl && CacheSound(w)
            && forall j | 0 <= j < |w.lookups| :: LookupSound(w, w.lookups[j])
  {
    RunKeeps(World(now, ttl, map[], [], []), steps);
  }
}
