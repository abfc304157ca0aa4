/** The value of one drain session: its event log, the clients that subscribed
    and what reached each of them. Every method of the session holds its mutex,
    so a concurrent run is a sequence of whole steps, in any order. A step that
    Go would answer with a panic (send on, or close of, a closed channel) is None. */
module DrainLog {
  import opened Options

  datatype PodStatus = Evicted | Deleted

  datatype DrainStatus = Drained | DrainPartial | DrainFailed | DrainCancelled

  datatype DrainEvent =
    | PodEvicted(pod: string, status: PodStatus)
    | DrainError(message: string)
    | DrainComplete(outcome: DrainStatus, evicted: nat, message: string)

  const CHANNEL_CAPACITY := 64

  /** One subscriber: its replay, what it took from its channel, what is still
      buffered there, and how many events found the channel full. */
  datatype Client = Client(replay: seq<DrainEvent>, received: seq<DrainEvent>, buffer: seq<DrainEvent>,
                           closed: bool, lost: nat)
  {
    /** What this client has seen or will see without another emit. */
    function Observed(): seq<DrainEvent> { replay + received + buffer }
  }

  datatype Session = Session(events: seq<DrainEvent>, subscribers: seq<nat>, finished: bool, clients: seq<Client>)

  const FRESH := Session([], [], false, [])

  // ---- subsequences ----

  /** xs is what remains of ys after some elements were left out, order kept. */
  predicate Subsequence<T(==)>(xs: seq<T>, ys: seq<T>) {
    if xs == [] then true
    else if ys == [] then false
    else
      var m, n := |xs| - 1, |ys| - 1;
      (xs[m] == ys[n] && Subsequence(xs[..m], ys[..n])) || Subsequence(xs, ys[..n])
  }

  lemma {:induction false} SubsequenceGrows<T>(xs: seq<T>, ys: seq<T>, y: T)
    requires Subsequence(xs, ys)
    ensures Subsequence(xs, ys + [y])
    ensures Subsequence(xs + [y], ys + [y])
  {
  }

  lemma {:induction false} SubsequenceReflexive<T>(xs: seq<T>)
    ensures Subsequence(xs, xs)
  {
    if xs != [] { SubsequenceReflexive(xs[..|xs| - 1]); }
  }

  /** A subsequence as long as the whole is the whole. */
  lemma {:induction false} FullSubsequence<T>(xs: seq<T>, ys: seq<T>)
    requires Subsequence(xs, ys)
    ensures |xs| <= |ys| && (|xs| == |ys| ==> xs == ys)
  {
    if xs != [] {
      var m, n := |xs| - 1, |ys| - 1;
      if xs[m] == ys[n] && Subsequence(xs[..m], ys[..n]) {
        FullSubsequence(xs[..m], ys[..n]);
        if |xs| == |ys| { assert xs == xs[..m] + [xs[m]] && ys == ys[..n] + [ys[n]]; }
      } else {
        FullSubsequence(xs, ys[..n]);
      }
    }
  }

  /** at places the elements of xs in ys, left to right and no place twice. */
  ghost predicate Embeds<T>(xs: seq<T>, ys: seq<T>, at: seq<nat>) {
    && |at| == |xs|
    && (forall i | 0 <= i < |xs| :: at[i] < |ys| && ys[at[i]] == xs[i])
    && (forall i, j | 0 <= i < j < |at| :: at[i] < at[j])
  }

  /** The recursive reading above is the usual one: in order, no position twice. */
  lemma {:induction false} SubsequenceEmbeds<T>(xs: seq<T>, ys: seq<T>)
    ensures Subsequence(xs, ys) <==> exists at :: Embeds(xs, ys, at)
  {
    if Subsequence(xs, ys) {
      var at := Embedding(xs, ys);
    }
    if at :| Embeds(xs, ys, at) {
      Embedded(xs, ys, at);
    }
  }

  lemma {:induction false} Embedding<T>(xs: seq<T>, ys: seq<T>) returns (at: seq<nat>)
    requires Subsequence(xs, ys)
    ensures Embeds(xs, ys, at)
  {
    if xs == [] {
      at := [];
    } else {
      var m, n := |xs| - 1, |ys| - 1;
      if xs[m] == ys[n] && Subsequence(xs[..m], ys[..n]) {
        at := Embedding(xs[..m], ys[..n]);
        at := at + [n];
      } else {
        at := Embedding(xs, ys[..n]);
      }
    }
  }

  lemma {:induction false} Embedded<T>(xs: seq<T>, ys: seq<T>, at: seq<nat>)
    requires Embeds(xs, ys, at)
    ensures Subsequence(xs, ys)
    decreases |ys|
  {
    if xs != [] {
      var m, n := |xs| - 1, |ys| - 1;
      if at[m] == n {
        Embedded(xs[..m], ys[..n], at[..m]);
      } else {
        Embedded(xs, ys[..n], at);
      }
    }
  }

  // ---- steps ----

  /** Non-blocking send: a full buffer drops the event. */
  function Push(c: Client, ev: DrainEvent): Client {
    if |c.buffer| < CHANNEL_CAPACITY then c.(buffer := c.buffer + [ev]) else c.(lost := c.lost + 1)
  }

  function Broadcast(clients: seq<Client>, subscribers: seq<nat>, ev: DrainEvent): Option<seq<Client>> {
    if subscribers == [] then Some(clients)
    else
      var last := |subscribers| - 1;
      match Broadcast(clients, subscribers[..last], ev)
      case None => None
      case Some(cs) =>
        var id := subscribers[last];
        if id < |cs| && !cs[id].closed then Some(cs[id := Push(cs[id], ev)]) else None
  }

  function CloseAll(clients: seq<Client>, subscribers: seq<nat>): Option<seq<Client>> {
    if subscribers == [] then Some(clients)
    else
      var last := |subscribers| - 1;
      match CloseAll(clients, subscribers[..last])
      case None => None
      case Some(cs) =>
        var id := subscribers[last];
        if id < |cs| && !cs[id].closed then Some(cs[id := cs[id].(closed := true)]) else None
  }

  function Without(ids: seq<nat>, id: nat): seq<nat> {
    if ids == [] then []
    else if ids[0] == id then ids[1..]
    else [ids[0]] + Without(ids[1..], id)
  }

  datatype Step =
    | Emit(event: DrainEvent)
    | Subscribe
    | Receive(client: nat)
    | Unsubscribe(client: nat)
    | Finalize

  function Next(s: Session, step: Step): Option<Session> {
    match step
    case Emit(ev) =>
      if s.finished then Some(s)
      else
        (match Broadcast(s.clients, s.subscribers, ev)
         case None => None
         case Some(cs) => Some(s.(events := s.events + [ev], clients := cs)))
    case Subscribe =>
      var c := Client(s.events, [], [], s.finished, 0);
      Some(s.(subscribers := if s.finished then s.subscribers else s.subscribers + [|s.clients|],
              clients := s.clients + [c]))
    case Receive(id) =>
      if id < |s.clients| && s.clients[id].buffer != [] then
        var c := s.clients[id];
        Some(s.(clients := s.clients[id := c.(received := c.received + [c.buffer[0]], buffer := c.buffer[1..])]))
      else Some(s)
    case Unsubscribe(id) => Some(s.(subscribers := Without(s.subscribers, id)))
    case Finalize =>
      (match CloseAll(s.clients, s.subscribers)
       case None => None
       case Some(cs) => Some(s.(finished := true, subscribers := [], clients := cs)))
  }

  function Run(s: Session, steps: seq<Step>): Option<Session>
    decreases steps
  {
    if steps == [] then Some(s)
    else
      match Next(s, steps[0])
      case None => None
      case Some(t) => Run(t, steps[1..])
  }

  // ---- the invariant ----

  /** What reached one client, given the log and whether it is still attached. */
  ghost predicate Delivered(c: Client, events: seq<DrainEvent>, attached: bool, finished: bool) {
    && |c.buffer| <= CHANNEL_CAPACITY
    && Subsequence(c.Observed(), events)
    && (attached ==> !c.closed)
    && (c.closed ==> finished)
    && (attached || c.closed ==> |c.Observed()| + c.lost == |events|)
  }

  ghost predicate Inv(s: Session) {
    && (forall i | 0 <= i < |s.subscribers| :: s.subscribers[i] < |s.clients|)
    && Distinct(s.subscribers)
    && (s.finished ==> s.subscribers == [])
    && (forall id | 0 <= id < |s.clients| :: Delivered(s.clients[id], s.events, id in s.subscribers, s.finished))
  }

  /** With distinct open channels a broadcast reaches each subscriber once and no one else. */
  lemma {:induction false} BroadcastReaches(clients: seq<Client>, subscribers: seq<nat>, ev: DrainEvent)
    requires forall i | 0 <= i < |subscribers| :: subscribers[i] < |clients| && !clients[subscribers[i]].closed
    requires Distinct(subscribers)
    ensures var r := Broadcast(clients, subscribers, ev);
            && r.Some? && |r.value| == |clients|
            && forall id | 0 <= id < |clients| ::
                 r.value[id] == if id in subscribers then Push(clients[id], ev) else clients[id]
  {
    if subscribers != [] {
      var init := subscribers[..|subscribers| - 1];
      BroadcastReaches(clients, init, ev);
      assert subscribers == init + [subscribers[|subscribers| - 1]];
    }
  }

  lemma {:induction false} CloseAllCloses(clients: seq<Client>, subscribers: seq<nat>)
    requires forall i | 0 <= i < |subscribers| :: subscribers[i] < |clients| && !clients[subscribers[i]].closed
    requires Distinct(subscribers)
    ensures var r := CloseAll(clients, subscribers);
            && r.Some? && |r.value| == |clients|
            && forall id | 0 <= id < |clients| ::
                 r.value[id] == if id in subscribers then clients[id].(closed := true) else clients[id]
  {
    if subscribers != [] {
      var init := subscribers[..|subscribers| - 1];
      CloseAllCloses(clients, init);
      assert subscribers == init + [subscribers[|subscribers| - 1]];
    }
  }

  predicate Distinct(ids: seq<nat>) {
    forall i, j | 0 <= i < j < |ids| :: ids[i] != ids[j]
  }

  lemma {:induction false} WithoutRemoves(ids: seq<nat>, id: nat)
    requires Distinct(ids)
    ensures Distinct(Without(ids, id))
    ensures forall x :: x in Without(ids, id) <==> x in ids && x != id
  {
    if ids != [] {
      var head, tail := ids[0], ids[1..];
      assert ids == [head] + tail;
      forall x | x in tail ensures x != head {
        var i :| 0 <= i < |tail| && tail[i] == x;
        assert ids[i + 1] == x;
      }
      if head != id {
        WithoutRemoves(tail, id);
        var r := Without(tail, id);
        forall i | 0 <= i < |r| ensures r[i] != head { assert r[i] in r; }
      }
    }
  }

  lemma {:induction false} WithoutAbsent(ids: seq<nat>, id: nat)
    requires id !in ids
    ensures Without(ids, id) == ids
  {
    if ids != [] {
      WithoutAbsent(ids[1..], id);
    }
  }

  lemma {:induction false} WithoutFound(ids: seq<nat>, id: nat, i: nat)
    requires i < |ids| && ids[i] == id && id !in ids[..i]
    ensures Without(ids, id) == ids[..i] + ids[i + 1..]
  {
    if i > 0 {
      assert ids[0] in ids[..i];
      assert ids[1..][..i - 1] == ids[..i][1..];
      WithoutFound(ids[1..], id, i - 1);
      assert ids[..i] == [ids[0]] + ids[1..][..i - 1];
    }
  }

  lemma PushDelivers(c: Client, events: seq<DrainEvent>, ev: DrainEvent)
    requires Delivered(c, events, true, false)
    ensures Delivered(Push(c, ev), events + [ev], true, false)
  {
    SubsequenceGrows(c.Observed(), events, ev);
    if |c.buffer| < CHANNEL_CAPACITY {
      assert Push(c, ev).Observed() == c.Observed() + [ev];
    }
  }

  lemma SubscribeKeepsInv(s: Session)
    requires Inv(s)
    ensures Inv(Next(s, Subscribe).value)
  {
    SubsequenceReflexive(s.events);
    var t := Next(s, Subscribe).value;
    var id := |s.clients|;
    assert t.clients[id].Observed() == s.events;
    forall k | 0 <= k < |t.clients| ensures Delivered(t.clients[k], t.events, k in t.subscribers, t.finished) {
      if k < id {
        assert Delivered(s.clients[k], s.events, k in s.subscribers, s.finished);
        assert t.clients[k] == s.clients[k];
        assert k in t.subscribers <==> k in s.subscribers;
      } else if !s.finished {
        assert t.subscribers[|s.subscribers|] == id;
      }
    }
  }

  lemma ReceiveKeepsInv(s: Session, id: nat)
    requires Inv(s)
    ensures Inv(Next(s, Receive(id)).value)
  {
    if id < |s.clients| && s.clients[id].buffer != [] {
      var t := Next(s, Receive(id)).value;
      assert t.clients[id].Observed() == s.clients[id].Observed();
      forall k | 0 <= k < |t.clients| ensures Delivered(t.clients[k], t.events, k in t.subscribers, t.finished) {
        assert Delivered(s.clients[k], s.events, k in s.subscribers, s.finished);
      }
    }
  }

  lemma UnsubscribeKeepsInv(s: Session, id: nat)
    requires Inv(s)
    ensures Inv(Next(s, Unsubscribe(id)).value)
  {
    WithoutRemoves(s.subscribers, id);
    var t := Next(s, Unsubscribe(id)).value;
    forall i | 0 <= i < |t.subscribers| ensures t.subscribers[i] < |t.clients| {
      assert t.subscribers[i] in s.subscribers;
    }
    forall k | 0 <= k < |t.clients| ensures Delivered(t.clients[k], t.events, k in t.subscribers, t.finished) {
      assert Delivered(s.clients[k], s.events, k in s.subscribers, s.finished);
    }
  }

  lemma FinalizeKeepsInv(s: Session)
    requires Inv(s)
    ensures Next(s, Finalize).Some? && Inv(Next(s, Finalize).value)
  {
    CloseAllCloses(s.clients, s.subscribers);
    var t := Next(s, Finalize).value;
    forall k | 0 <= k < |t.clients| ensures Delivered(t.clients[k], t.events, k in t.subscribers, t.finished) {
      assert Delivered(s.clients[k], s.events, k in s.subscribers, s.finished);
      assert t.clients[k].Observed() == s.clients[k].Observed();
    }
  }

  /** Every step from a good session is panic-free and leads to a good session. */
  lemma StepKeepsInv(s: Session, step: Step)
    requires Inv(s)
    ensures Next(s, step).Some? && Inv(Next(s, step).value)
  {
    match step
    case Emit(ev) => if !s.finished { EmitKeepsInv(s, ev); }
    case Subscribe => SubscribeKeepsInv(s);
    case Receive(id) => ReceiveKeepsInv(s, id);
    case Unsubscribe(id) => UnsubscribeKeepsInv(s, id);
    case Finalize => FinalizeKeepsInv(s);
  }

  lemma EmitKeepsInv(s: Session, ev: DrainEvent)
    requires Inv(s) && !s.finished
    ensures Next(s, Emit(ev)).Some? && Inv(Next(s, Emit(ev)).value)
  {
    BroadcastReaches(s.clients, s.subscribers, ev);
    var t := Next(s, Emit(ev)).value;
    forall id | 0 <= id < |t.clients| ensures Delivered(t.clients[id], t.events, id in t.subscribers, t.finished) {
      if id in s.subscribers {
        PushDelivers(s.clients[id], s.events, ev);
      } else {
        SubsequenceGrows(s.clients[id].Observed(), s.events, ev);
      }
    }
  }

  /** No interleaving panics, and every one ends in a good session. */
  lemma {:induction false} EveryRunIsSafe(s: Session, steps: seq<Step>)
    requires Inv(s)
    ensures Run(s, steps).Some? && Inv(Run(s, steps).value)
    decreases steps
  {
    if steps != [] {
      StepKeepsInv(s, steps[0]);
      EveryRunIsSafe(Next(s, steps[0]).value, steps[1..]);
    }
  }

  /** Delivery in every interleaving: what a client sees is the log with events
      left out but none reordered or repeated; and as long as it stays attached,
      or once it was closed by finalize, it is the whole log exactly when its
      channel was never full at an emit. */
  lemma DeliveryInEveryRun(steps: seq<Step>, id: nat)
    requires Run(FRESH, steps).Some? && id < |Run(FRESH, steps).value.clients|
    ensures var s := Run(FRESH, steps).value;
            var c := s.clients[id];
            && Subsequence(c.Observed(), s.events)
            && (id in s.subscribers || c.closed ==> (c.Observed() == s.events <==> c.lost == 0))
  {
    EveryRunIsSafe(FRESH, steps);
    var s := Run(FRESH, steps).value;
    FullSubsequence(s.clients[id].Observed(), s.events);
  }

  /** The client is attached while the session runs and closed once it is finished. */
  predicate Follows(s: Session, id: nat) {
    id < |s.clients| ==> if s.finished then s.clients[id].closed else id in s.subscribers
  }

  lemma EmitFollows(s: Session, ev: DrainEvent, id: nat)
    requires Inv(s) && Follows(s, id)
    ensures Next(s, Emit(ev)).Some? && Follows(Next(s, Emit(ev)).value, id)
  {
    StepKeepsInv(s, Emit(ev));
    if !s.finished { BroadcastReaches(s.clients, s.subscribers, ev); }
  }

  lemma SubscribeFollows(s: Session, id: nat)
    requires Inv(s) && Follows(s, id)
    ensures Follows(Next(s, Subscribe).value, id)
  {
    var t := Next(s, Subscribe).value;
    if id < |s.clients| {
      assert t.clients[id] == s.clients[id];
    } else if !s.finished {
      assert t.subscribers[|s.subscribers|] == |s.clients|;
    }
  }

  lemma FinalizeFollows(s: Session, id: nat)
    requires Inv(s) && Follows(s, id)
    ensures Next(s, Finalize).Some? && Follows(Next(s, Finalize).value, id)
  {
    StepKeepsInv(s, Finalize);
    CloseAllCloses(s.clients, s.subscribers);
  }

  lemma StepFollows(s: Session, step: Step, id: nat)
    requires Inv(s) && Follows(s, id) && step != Unsubscribe(id)
    ensures Next(s, step).Some? && Follows(Next(s, step).value, id)
  {
    match step
    case Emit(ev) => EmitFollows(s, ev, id);
    case Subscribe => SubscribeFollows(s, id);
    case Receive(_) =>
    case Unsubscribe(other) => WithoutRemoves(s.subscribers, other);
    case Finalize => FinalizeFollows(s, id);
  }

  lemma {:induction false} RunFollows(s: Session, steps: seq<Step>, id: nat)
    requires Inv(s) && Follows(s, id) && Unsubscribe(id) !in steps
    ensures Run(s, steps).Some? && Follows(Run(s, steps).value, id)
    decreases steps
  {
    if steps != [] {
      assert steps[0] in steps;
      StepFollows(s, steps[0], id);
      StepKeepsInv(s, steps[0]);
      RunFollows(Next(s, steps[0]).value, steps[1..], id);
    }
  }

  /** In every interleaving, a client that did not leave is attached while the session
      runs, whoever else came and went, and is closed once it is finished: it sees the
      whole log exactly when its channel was never full at an emit. */
  lemma StayersSeeAll(steps: seq<Step>, id: nat)
    requires Run(FRESH, steps).Some? && id < |Run(FRESH, steps).value.clients| && Unsubscribe(id) !in steps
    ensures var s := Run(FRESH, steps).value;
            var c := s.clients[id];
            && (!s.finished ==> id in s.subscribers && !c.closed)
            && (s.finished ==> c.closed)
            && (c.replay + c.received + c.buffer == s.events <==> c.lost == 0)
  {
    RunFollows(FRESH, steps, id);
    EveryRunIsSafe(FRESH, steps);
    DeliveryInEveryRun(steps, id);
  }

  /** A streaming handler returns when its channel is closed and empty. If
      nothing was dropped it has then written the whole log. */
  lemma StreamEndsComplete(steps: seq<Step>, id: nat)
    requires Run(FRESH, steps).Some? && id < |Run(FRESH, steps).value.clients|
    requires var c := Run(FRESH, steps).value.clients[id]; c.closed && c.buffer == [] && c.lost == 0
    ensures var s := Run(FRESH, steps).value; s.clients[id].replay + s.clients[id].received == s.events && s.finished
  {
    EveryRunIsSafe(FRESH, steps);
    DeliveryInEveryRun(steps, id);
    var c := Run(FRESH, steps).value.clients[id];
    assert c.Observed() == c.replay + c.received;
  }

  /** t differs from the finished s only by new clients and by events taken from buffers. */
  ghost predicate SameOutcome(s: Session, t: Session) {
    && t.events == s.events && t.finished && |t.clients| >= |s.clients|
    && forall id | 0 <= id < |s.clients| ::
         t.clients[id].closed == s.clients[id].closed && t.clients[id].Observed() == s.clients[id].Observed()
  }

  lemma FinishedStep(s: Session, step: Step)
    requires Inv(s) && s.finished
    ensures Next(s, step).Some? && SameOutcome(s, Next(s, step).value)
  {
  }

  /** After finalize nothing is ever appended, delivered or closed again. */
  lemma {:induction false} LogFrozenAfterFinalize(s: Session, steps: seq<Step>)
    requires Inv(s) && s.finished
    ensures Run(s, steps).Some? && SameOutcome(s, Run(s, steps).value)
    decreases steps
  {
    if steps != [] {
      FinishedStep(s, steps[0]);
      StepKeepsInv(s, steps[0]);
      LogFrozenAfterFinalize(Next(s, steps[0]).value, steps[1..]);
    }
  }

  // ---- producer and consumers ----

  /** What the producer of a schedule emitted before its finalize. */
  function Emitted(steps: seq<Step>): seq<DrainEvent> {
    if steps == [] then []
    else
      match steps[0]
      case Emit(ev) => [ev] + Emitted(steps[1..])
      case Finalize => []
      case _ => Emitted(steps[1..])
  }

  lemma StepLog(s: Session, step: Step)
    requires Inv(s) && !s.finished
    ensures Next(s, step).Some? && Next(s, step).value.finished == step.Finalize?
    ensures Next(s, step).value.events == if step.Emit? then s.events + [step.event] else s.events
  {
    StepKeepsInv(s, step);
  }

  lemma EmittedStep(was: seq<DrainEvent>, now: seq<DrainEvent>, steps: seq<Step>)
    requires steps != [] && !steps[0].Finalize?
    requires now == if steps[0].Emit? then was + [steps[0].event] else was
    ensures was + Emitted(steps) == now + Emitted(steps[1..])
  {
  }

  /** Clients that come, read slowly or leave never change the log: in every
      interleaving it is what the producer emitted before finalize. */
  lemma {:induction false} ClientsDoNotDisturb(s: Session, steps: seq<Step>)
    requires Inv(s) && !s.finished
    ensures Run(s, steps).Some? && Run(s, steps).value.events == s.events + Emitted(steps)
    decreases steps
  {
    if steps != [] {
      StepKeepsInv(s, steps[0]);
      StepLog(s, steps[0]);
      var t := Next(s, steps[0]).value;
      if steps[0].Finalize? {
        LogFrozenAfterFinalize(t, steps[1..]);
      } else {
        ClientsDoNotDisturb(t, steps[1..]);
        EmittedStep(s.events, t.events, steps);
      }
    }
  }
}
