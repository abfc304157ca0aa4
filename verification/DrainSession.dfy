/** The drain session object and the manager that owns one session per node.
    Each method runs under its mutex, so it is one step of DrainLog. */
module DrainSessions {
  import opened Options
  import D = DrainLog

  class DrainSession {
    const node: string
    const startedAt: int
    var cancelled: bool
    var events: seq<D.DrainEvent>
    var subscribers: seq<nat>       // the clients' channels, by creation order
    var finished: bool
    var clients: seq<D.Client>

    function View(): D.Session
      reads this
    {
      D.Session(events, subscribers, finished, clients)
    }

    ghost predicate Valid()
      reads this
    {
      D.Inv(View())
    }

    constructor (node: string, startedAt: int)
      ensures Valid() && View() == D.FRESH && !cancelled
      ensures this.node == node && this.startedAt == startedAt
    {
      this.node, this.startedAt := node, startedAt;
      cancelled, events, subscribers, finished, clients := false, [], [], false, [];
    }

    /** Appends to the log, then offers the event to every subscriber without
        waiting. Late events of a finished session are ignored. */
    method EmitEvent(ev: D.DrainEvent)
      requires Valid()
      modifies this`events, this`clients
      ensures Valid() && Some(View()) == D.Next(old(View()), D.Emit(ev))
      ensures events == if finished then old(events) else old(events) + [ev]
      ensures |clients| == |old(clients)|
      ensures forall id | 0 <= id < |clients| ::
                var c := old(clients)[id];
                clients[id] == if finished || id !in subscribers then c
                               else if |c.buffer| < 64 then c.(buffer := c.buffer + [ev])
                               else c.(lost := c.lost + 1)
    {
      D.StepKeepsInv(View(), D.Emit(ev));
      if !finished { D.BroadcastReaches(clients, subscribers, ev); }
      if finished {
        return;
      }
      events := events + [ev];
      SendToAll(ev);
    }

    method SendToAll(ev: D.DrainEvent)
      requires D.Distinct(subscribers)
      requires forall i | 0 <= i < |subscribers| :: subscribers[i] < |clients| && !clients[subscribers[i]].closed
      modifies this`clients
      ensures Some(clients) == D.Broadcast(old(clients), subscribers, ev)
    {
      for i := 0 to |subscribers|
        invariant Some(clients) == D.Broadcast(old(clients), subscribers[..i], ev)
        invariant |clients| == |old(clients)|
        invariant forall k | i <= k < |subscribers| :: !clients[subscribers[k]].closed
      {
        assert subscribers[..i + 1][..i] == subscribers[..i];
        Send(subscribers[i], ev);
      }
      assert subscribers[..|subscribers|] == subscribers;
    }

    /** A non-blocking channel send. The channel must be open: Go panics otherwise. */
    method Send(id: nat, ev: D.DrainEvent)
      requires id < |clients| && !clients[id].closed
      modifies this`clients
      ensures clients == old(clients)[id := D.Push(old(clients)[id], ev)]
    {
      var c := clients[id];
      if |c.buffer| < D.CHANNEL_CAPACITY {
        clients := clients[id := c.(buffer := c.buffer + [ev])];
      } else {
        clients := clients[id := c.(lost := c.lost + 1)];
      }
    }

    /** Closing a channel that is closed already is a panic too. */
    method Close(id: nat)
      requires id < |clients| && !clients[id].closed
      modifies this`clients
      ensures clients == old(clients)[id := old(clients)[id].(closed := true)]
    {
      clients := clients[id := clients[id].(closed := true)];
    }

    /** A new client: the log so far, and a channel for the rest. */
    method SubscribeClient() returns (id: nat, replay: seq<D.DrainEvent>)
      requires Valid()
      modifies this`subscribers, this`clients
      ensures Valid() && Some(View()) == D.Next(old(View()), D.Subscribe)
      ensures id == |old(clients)| && replay == events
      ensures clients == old(clients) + [D.Client(events, [], [], finished, 0)]
      ensures subscribers == if finished then old(subscribers) else old(subscribers) + [id]
    {
      D.StepKeepsInv(View(), D.Subscribe);
      id, replay := |clients|, events;
      clients := clients + [D.Client(replay, [], [], false, 0)];
      if !finished {
        subscribers := subscribers + [id];
      } else {
        Close(id);
      }
      assert clients == old(clients) + [D.Client(events, [], [], finished, 0)];
    }

    /** Forgets the first subscriber entry with this channel, if there is one. */
    method UnsubscribeClient(id: nat)
      requires Valid()
      modifies this`subscribers
      ensures Valid() && Some(View()) == D.Next(old(View()), D.Unsubscribe(id))
      ensures id !in subscribers
      ensures forall other | other != id :: other in subscribers <==> other in old(subscribers)
    {
      D.StepKeepsInv(View(), D.Unsubscribe(id));
      D.WithoutRemoves(subscribers, id);
      var ids := subscribers;
      for i := 0 to |ids|
        invariant subscribers == ids && id !in ids[..i]
      {
        if ids[i] == id {
          D.WithoutFound(ids, id, i);
          subscribers := ids[..i] + ids[i + 1..];
          return;
        }
      }
      D.WithoutAbsent(ids, id);
    }

    /** One receive of a streaming client: a buffered event, or the news that
        the session is over (closed and drained), or neither yet. */
    method Take(id: nat) returns (ev: Option<D.DrainEvent>, over: bool)
      requires Valid() && id < |clients|
      modifies this`clients
      ensures Valid() && Some(View()) == D.Next(old(View()), D.Receive(id))
      ensures ev == if old(clients[id].buffer) == [] then None else Some(old(clients[id].buffer[0]))
      ensures over <==> old(clients[id].closed) && old(clients[id].buffer) == []
      ensures var c := old(clients)[id];
              clients == if ev.None? then old(clients)
                         else old(clients)[id := c.(received := c.received + [ev.value], buffer := c.buffer[1..])]
    {
      D.StepKeepsInv(View(), D.Receive(id));
      var c := clients[id];
      if c.buffer != [] {
        ev, over := Some(c.buffer[0]), false;
        clients := clients[id := c.(received := c.received + [c.buffer[0]], buffer := c.buffer[1..])];
      } else {
        ev, over := None, c.closed;
      }
    }

    /** Ends the session and closes every subscriber's channel. */
    method FinalizeSession()
      requires Valid()
      modifies this`finished, this`subscribers, this`clients
      ensures Valid() && Some(View()) == D.Next(old(View()), D.Finalize)
      ensures finished && subscribers == [] && |clients| == |old(clients)|
      ensures forall id | 0 <= id < |clients| ::
                clients[id] == if id in old(subscribers) then old(clients)[id].(closed := true) else old(clients)[id]
    {
      D.StepKeepsInv(View(), D.Finalize);
      D.CloseAllCloses(clients, subscribers);
      finished := true;
      CloseEvery();
      subscribers := [];
    }

    method CloseEvery()
      requires D.Distinct(subscribers)
      requires forall i | 0 <= i < |subscribers| :: subscribers[i] < |clients| && !clients[subscribers[i]].closed
      modifies this`clients
      ensures Some(clients) == D.CloseAll(old(clients), subscribers)
    {
      for i := 0 to |subscribers|
        invariant Some(clients) == D.CloseAll(old(clients), subscribers[..i])
        invariant |clients| == |old(clients)|
        invariant forall k | i <= k < |subscribers| :: !clients[subscribers[k]].closed
      {
        assert subscribers[..i + 1][..i] == subscribers[..i];
        Close(subscribers[i]);
      }
      assert subscribers[..|subscribers|] == subscribers;
    }
  }

  // ---- the drain goroutine ----

  /** A pod the eviction helper reported, and how it left. */
  datatype PodGone = PodGone(pod: string, usingEviction: bool)

  function PodEvent(p: PodGone): D.DrainEvent {
    D.PodEvicted(p.pod, if p.usingEviction then D.Evicted else D.Deleted)
  }

  function PodEvents(ps: seq<PodGone>): seq<D.DrainEvent> {
    seq(|ps|, i requires 0 <= i < |ps| => PodEvent(ps[i]))
  }

  /** The callbacks of a drain, by when their events went out: before the helper
      returned, before the count was read, before drain-complete went out, after it.
      A callback counts its pod before it sends the event; `ahead` and `aheadThen`
      are the pods counted but not yet sent when the status and the count were read. */
  datatype Callbacks = Callbacks(early: seq<PodGone>, between: seq<PodGone>, late: seq<PodGone>, after: seq<PodGone>,
                                 ahead: nat, aheadThen: nat)
  {
    function CountForStatus(): nat { |early| + ahead }
    function Count(): nat { |early| + |between| + aheadThen }
    function Before(): seq<PodGone> { early + between + late }
  }

  function StatusOf(err: Option<string>, cancelled: bool, evicted: nat): D.DrainStatus {
    if err.None? then D.Drained
    else if cancelled then D.DrainCancelled
    else if evicted > 0 then D.DrainPartial
    else D.DrainFailed
  }

  /** What a drain whose cordon worked reports: one event a pod, and one
      drain-complete with how many had been counted. */
  function PodReport(calls: Callbacks, err: Option<string>, cancelled: bool): seq<D.DrainEvent> {
    PodEvents(calls.Before()) +
    [D.DrainComplete(StatusOf(err, cancelled, calls.CountForStatus()), calls.Count(),
                     if err.None? then "" else err.value)] +
    PodEvents(calls.after)
  }

  /** The log a drain owes its readers; a failed cordon is an error and a
      drain-complete that counts no pod. */
  function DrainReport(cordon: Option<string>, calls: Callbacks, err: Option<string>, cancelled: bool)
    : seq<D.DrainEvent>
  {
    if cordon.Some? then [D.DrainError(cordon.value), D.DrainComplete(D.DrainFailed, 0, cordon.value)]
    else PodReport(calls, err, cancelled)
  }

  /** A report has one event a pod, saying how it left, and one drain-complete. That is
      the last event exactly when no pod event went out after it, and counts the pod
      events in front of it exactly when as many pods were counted ahead of their event
      as went out before it without being read. Its status and message say what the
      helper returned. */
  lemma ReportCounts(calls: Callbacks, err: Option<string>, cancelled: bool)
    ensures var r := PodReport(calls, err, cancelled);
            var pods, k := calls.early + calls.between + calls.late, |calls.early + calls.between + calls.late|;
            && |r| == k + 1 + |calls.after|
            && (forall i | 0 <= i < k ::
                  r[i] == D.PodEvicted(pods[i].pod, if pods[i].usingEviction then D.Evicted else D.Deleted))
            && (forall i | 0 <= i < |calls.after| ::
                  r[k + 1 + i] == D.PodEvicted(calls.after[i].pod,
                                               if calls.after[i].usingEviction then D.Evicted else D.Deleted))
            && (forall i | 0 <= i < |r| :: r[i].DrainComplete? <==> i == k)
            && (k == |r| - 1 <==> calls.after == [])
            && r[k].evicted == |calls.early| + |calls.between| + calls.aheadThen
            && (r[k].evicted == k <==> calls.aheadThen == |calls.late|)
            && r[k].message == (if err.Some? then err.value else "")
            && (r[k].outcome == D.Drained <==> err.None?)
            && (r[k].outcome == D.DrainCancelled <==> err.Some? && cancelled)
            && (r[k].outcome == D.DrainPartial <==> err.Some? && !cancelled && |calls.early| + calls.ahead > 0)
  {
  }

  method EmitPods(session: DrainSession, pods: seq<PodGone>)
    requires session.Valid() && !session.finished
    modifies session`events, session`clients
    ensures session.Valid() && !session.finished
    ensures session.events == old(session.events) + PodEvents(pods)
  {
    for i := 0 to |pods|
      invariant session.Valid() && !session.finished
      invariant session.events == old(session.events) + PodEvents(pods)[..i]
    {
      session.EmitEvent(PodEvent(pods[i]));
      assert PodEvents(pods)[..i + 1] == PodEvents(pods)[..i] + [PodEvents(pods)[i]];
    }
  }

  /** The drain itself and its drain-complete. */
  method DrainPods(session: DrainSession, calls: Callbacks, err: Option<string>, cancelled: bool)
    requires session.Valid() && !session.finished
    modifies session`events, session`clients
    ensures session.Valid() && !session.finished
    ensures session.events == old(session.events) + PodReport(calls, err, cancelled)
  {
    ghost var was := session.events;
    EmitPods(session, calls.early);
    var evicted := |calls.early| + calls.ahead;
    var status := D.Drained;
    if err.Some? {
      if cancelled {
        status := D.DrainCancelled;
      } else if evicted > 0 {
        status := D.DrainPartial;
      } else {
        status := D.DrainFailed;
      }
    }
    EmitPods(session, calls.between);
    evicted := |calls.early| + |calls.between| + calls.aheadThen;
    EmitPods(session, calls.late);
    assert session.events == was + PodEvents(calls.Before());
    ghost var done := D.DrainComplete(status, evicted, if err.None? then "" else err.value);
    session.EmitEvent(D.DrainComplete(status, evicted, if err.None? then "" else err.value));
    assert session.events == was + (PodEvents(calls.Before()) + [done]);
    EmitPods(session, calls.after);
    assert session.events == was + (PodEvents(calls.Before()) + [done] + PodEvents(calls.after));
  }

  /** The goroutine. `cancelled` tells whether the cancel signal had arrived by the
      time the helper returned; a signal is never taken back. */
  method RunDrainGoroutine(session: DrainSession, cordon: Option<string>, calls: Callbacks, err: Option<string>,
                           cancelled: bool)
    requires session.Valid() && !session.finished && (session.cancelled ==> cancelled)
    modifies session`events, session`finished, session`subscribers, session`clients, session`cancelled
    ensures session.Valid() && session.finished
    ensures session.events == old(session.events) + DrainReport(cordon, calls, err, cancelled)
    ensures cordon.Some? ==>
              session.events ==
              old(session.events) + [D.DrainError(cordon.value), D.DrainComplete(D.DrainFailed, 0, cordon.value)]
    ensures session.subscribers == []
    ensures session.cancelled == if cordon.Some? then old(session.cancelled) else cancelled
  {
    if cordon.Some? {
      session.EmitEvent(D.DrainError(cordon.value));
      session.EmitEvent(D.DrainComplete(D.DrainFailed, 0, cordon.value));
    } else {
      session.cancelled := cancelled;
      DrainPods(session, calls, err, session.cancelled);
    }
    session.FinalizeSession();
  }

  // ---- the manager ----

  predicate RunningDrain(s: DrainSession)
    reads s
  {
    !s.finished && !s.cancelled
  }

  class DrainSessionManager {
    var sessions: map<string, DrainSession>
    var history: seq<DrainSession>          // every session ever started, oldest first

    /** Each session ever started is finished, cancelled, or the one its node maps to. */
    ghost predicate Owned()
      reads this, history
    {
      && (forall n | n in sessions :: sessions[n] in history && sessions[n].node == n)
      && (forall s | s in history :: s.finished || s.cancelled || (s.node in sessions && sessions[s.node] == s))
    }

    constructor ()
      ensures Owned() && sessions == map[] && history == []
    {
      sessions, history := map[], [];
    }

    /** A fresh session, unless one is still running for the node. */
    method Start(node: string, now: int) returns (s: DrainSession, isFresh: bool)
      requires Owned()
      modifies this
      ensures Owned()
      ensures isFresh <==> !(node in old(sessions) && !old(sessions)[node].finished)
      ensures isFresh ==> fresh(s) && s.Valid() && s.node == node && s.startedAt == now && RunningDrain(s) &&
                          sessions == old(sessions)[node := s] && history == old(history) + [s]
      ensures !isFresh ==> s == old(sessions)[node] && sessions == old(sessions) && history == old(history)
    {
      if node in sessions && !sessions[node].finished {
        return sessions[node], false;
      }
      s := new DrainSession(node, now);
      sessions := sessions[node := s];
      history := history + [s];
      isFresh := true;
    }

    /** Signals a running drain. */
    method Cancel(node: string) returns (ok: bool)
      requires Owned()
      modifies sessions.Values`cancelled
      ensures Owned()
      ensures ok <==> node in sessions && !sessions[node].finished
      ensures forall s | s in history :: s.cancelled == (old(s.cancelled) || (ok && s == sessions[node]))
    {
      if node !in sessions || sessions[node].finished {
        return false;
      }
      sessions[node].cancelled := true;
      ok := true;
    }

    /** The cluster switch: every running drain is signalled and forgotten. */
    method CancelAll()
      requires Owned()
      modifies this`sessions, sessions.Values`cancelled
      ensures Owned() && sessions == map[] && history == old(history)
      ensures forall s | s in history :: !RunningDrain(s)
      ensures forall s | s in history ::
                s.cancelled == (old(s.cancelled) || (s in old(sessions).Values && !s.finished))
    {
      var rest := sessions.Keys;
      while rest != {}
        modifies sessions.Values`cancelled
        invariant rest <= sessions.Keys
        invariant forall s | s in history ::
                    s.cancelled == (old(s.cancelled) ||
                                    (!s.finished && exists n | n in sessions.Keys - rest :: sessions[n] == s))
        decreases rest
      {
        var n :| n in rest;
        if !sessions[n].finished {
          sessions[n].cancelled := true;
        }
        rest := rest - {n};
      }
      sessions := map[];
    }

    /** Forgets finished sessions that started before the cutoff. */
    method Cleanup(cutoff: int)
      requires Owned()
      modifies this`sessions
      ensures Owned() && history == old(history)
      ensures sessions == map n | n in old(sessions) &&
                !(old(sessions)[n].finished && old(sessions)[n].startedAt < cutoff) :: old(sessions)[n]
    {
      var rest := sessions.Keys;
      while rest != {}
        invariant rest <= old(sessions).Keys
        invariant sessions == map n | n in old(sessions) &&
                    (n in rest || !(old(sessions)[n].finished && old(sessions)[n].startedAt < cutoff)) ::
                      old(sessions)[n]
        decreases rest
      {
        var n :| n in rest;
        if sessions[n].finished && sessions[n].startedAt < cutoff {
          sessions := sessions - {n};
        }
        rest := rest - {n};
      }
    }
  }

  datatype ManagerStep =
    | StartDrain(node: string, now: int)
    | CancelDrain(node: string)
    | CancelEvery
    | CleanUp(cutoff: int)
    | DrainEnds(index: nat)       // some drain goroutine finalizes its session

  /** Ownership in every run: whatever the order of requests, cluster switches,
      clean-ups and ends of drains, no two drains of one node both run. */
  method RunManager(steps: seq<ManagerStep>) returns (m: DrainSessionManager)
    ensures fresh(m) && m.Owned()
    ensures forall i, j | 0 <= i < j < |m.history| && RunningDrain(m.history[i]) && RunningDrain(m.history[j]) ::
              m.history[i].node != m.history[j].node
  {
    m := new DrainSessionManager();
    for k := 0 to |steps|
      invariant fresh(m) && m.Owned()
      invariant forall s | s in m.history :: fresh(s) && s.Valid()
      invariant forall i, j | 0 <= i < j < |m.history| :: m.history[i] != m.history[j]
    {
      match steps[k] {
        case StartDrain(node, now) => var _, _ := m.Start(node, now);
        case CancelDrain(node) => var _ := m.Cancel(node);
        case CancelEvery => m.CancelAll();
        case CleanUp(cutoff) => m.Cleanup(cutoff);
        case DrainEnds(index) =>
          if index < |m.history| {
            var s := m.history[index];
            assert s in m.history;
            s.FinalizeSession();
          }
      }
    }
  }
}
