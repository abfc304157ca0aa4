/** What a chat turn's event log says, read off the log alone: its totals, where
    its calls belonged, and the transcript it tells. Whatever the outside world
    answers is an oracle (Env), indexed by the position in the log, so every
    sequence of answers is some oracle. */
module TurnLedger {
  import opened Conversation
  import opened Options
  import Sums

  // ---- usage ----

  datatype Usage = Usage(
    input: int, output: int, cacheCreation: int, cacheRead: int, cacheCreation1h: int, thinking: int,
    longInput: int, longOutput: int, longCacheCreation: int, longCacheRead: int, longCacheCreation1h: int)

  const ZERO_USAGE := Usage(0, 0, 0, 0, 0, 0, 0, 0, 0, 0, 0)

  function Add(u: Usage, v: Usage): Usage {
    Usage(u.input + v.input, u.output + v.output, u.cacheCreation + v.cacheCreation, u.cacheRead + v.cacheRead,
          u.cacheCreation1h + v.cacheCreation1h, u.thinking + v.thinking,
          u.longInput + v.longInput, u.longOutput + v.longOutput, u.longCacheCreation + v.longCacheCreation,
          u.longCacheRead + v.longCacheRead, u.longCacheCreation1h + v.longCacheCreation1h)
  }

  /** The prompt the provider processed: uncached, cache-read and cache-written. */
  function FullInput(u: Usage): int { u.input + u.cacheRead + u.cacheCreation }

  // ---- configuration and oracle ----

  const DEFAULT_MAX_ROUNDS := 20
  const MIN_MAX_ROUNDS := 2
  const MAX_CONNECTOR_CALLS := 12

  datatype Slot = Primary | Escalation | Fallback

  datatype Config = Config(
    maxRounds: int,
    fallback: bool,            // a fallback is configured
    fallbackResolves: bool,    // ... and its provider exists
    escalation: bool,          // an escalation model is configured
    connectorRouter: bool,
    autoCompact: bool,
    compactTrigger: int,
    preserveTurns: int)
  {
    predicate FallbackUsable() { fallback && fallbackResolves }
    function Rounds(): nat { if maxRounds < MIN_MAX_ROUNDS then DEFAULT_MAX_ROUNDS else maxRounds }
  }

  datatype ModelAnswer =
    | Failed(recoverable: bool)
    | Answered(text: string, calls: seq<ToolCall>, usage: Usage, cut: bool)

  datatype ToolAnswer = ToolAnswer(content: string, isError: bool, notSent: bool)

  datatype Env = Env(
    model: nat -> ModelAnswer,
    clientGone: nat -> bool,
    summary: nat -> SummaryAnswer<Usage>,
    tool: nat -> ToolAnswer,
    approxTokens: seq<Message> -> int,
    isConnectorTool: string -> bool,
    classify: ToolResult -> string,
    leavesCluster: (ToolCall, string) -> bool,
    switchEndsTurn: (string, seq<ToolCall>, seq<ToolResult>) -> bool)

  // ---- per-tool statistics ----

  datatype ToolStats = ToolStats(calls: nat, bytes: nat, errors: nat, results: map<string, int>)

  const NO_STATS := ToolStats(0, 0, 0, map[])

  function Record(s: ToolStats, result: ToolResult, outcome: string): ToolStats {
    ToolStats(s.calls + 1, s.bytes + |result.content|, s.errors + (if result.isError then 1 else 0),
              Sums.Bump(s.results, outcome))
  }

  function StatsIn(m: map<string, ToolStats>, name: string): ToolStats {
    if name in m then m[name] else NO_STATS
  }

  function RecordIn(m: map<string, ToolStats>, name: string, result: ToolResult, outcome: string)
    : map<string, ToolStats>
  {
    m[name := Record(StatsIn(m, name), result, outcome)]
  }

  /** What one tool did, read off the log. */
  function StatsOf(log: seq<Event>, name: string): ToolStats {
    if log == [] then NO_STATS
    else
      var s := StatsOf(log[..|log| - 1], name);
      var e := log[|log| - 1];
      if e.Tool? && e.call.name == name then Record(s, e.result, e.outcome) else s
  }

  function CallsPerTool(m: map<string, ToolStats>): map<string, int> { map n | n in m :: m[n].calls }
  function BytesPerTool(m: map<string, ToolStats>): map<string, int> { map n | n in m :: m[n].bytes }

  // ---- the log of a turn ----

  datatype Reason = Done | Canceled | Error | MaxRounds | Panicked

  datatype Event =
    | Call(slot: Slot, retry: bool, tools: bool, answer: ModelAnswer)
    | Compaction(slot: Slot, proactive: bool, of: seq<Message>, folded: Compacted<Usage>)
    | Tool(call: ToolCall, handed: bool, result: ToolResult, outcome: string)
    | ToolsRan(calls: seq<ToolCall>, results: seq<ToolResult>, leaves: bool)   // a whole tool round
    | Persist(messages: seq<Message>)
    | Finish(reason: Reason)

  /** A compaction counts when it folded or shortened something. */
  predicate Applied(c: Compacted<Usage>) { c.CompactDone? && (c.turnsFolded > 0 || c.resultsStubbed > 0) }

  predicate FallbackAnswered(e: Event) { e.Call? && e.slot.Fallback? && e.answer.Answered? }

  predicate FirstAsk(e: Event) { e.Call? && !e.retry }

  /** A compaction of a transcript that has a turn. */
  predicate CompactsTurns(e: Event) { e.Compaction? && CountTurns(e.of) > 0 }

  /** The reference ledger: every total of a turn read off its log alone. */
  datatype Tally = Tally(
    session: Usage, escalated: Usage,
    calls: nat, retries: nat, closes: nat, answered: bool, folds: nat,
    handed: nat, sent: nat, tools: nat, bytes: nat, perTool: map<string, ToolStats>,
    persists: nat, finishes: nat)
  {
    predicate Running() { persists == 0 && finishes == 0 }
    function Owed(): Totals { Totals(session, escalated, retries > 0, handed, sent, tools, bytes, perTool) }
  }

  /** The totals a handler keeps. */
  datatype Totals = Totals(
    session: Usage, escalated: Usage, fallbackTried: bool,
    connectorCalls: nat, connectorBudget: nat, toolCalls: nat, toolBytes: nat, breakdown: map<string, ToolStats>)

  const NO_TALLY := Tally(ZERO_USAGE, ZERO_USAGE, 0, 0, 0, false, 0, 0, 0, 0, 0, map[], 0, 0)

  function Count(t: Tally, e: Event): Tally {
    match e
    case Call(slot, retry, tools, answer) =>
      t.(calls := t.calls + 1,
         retries := t.retries + if retry then 1 else 0,
         closes := t.closes + if tools || retry then 0 else 1,
         answered := answer.Answered?,
         session := if answer.Answered? then Add(t.session, answer.usage) else t.session,
         escalated := if answer.Answered? && slot.Escalation? then Add(t.escalated, answer.usage) else t.escalated)
    case Compaction(_, _, _, folded) =>
      t.(session := if Applied(folded) then Add(t.session, folded.usage) else t.session,
         folds := t.folds + if Applied(folded) then 1 else 0)
    case Tool(call, handed, result, outcome) =>
      t.(handed := t.handed + if handed then 1 else 0,
         sent := t.sent + if handed && !result.notSent then 1 else 0,
         tools := t.tools + 1,
         bytes := t.bytes + |result.content|,
         perTool := RecordIn(t.perTool, call.name, result, outcome))
    case ToolsRan(_, _, _) => t
    case Persist(_) => t.(persists := t.persists + 1)
    case Finish(_) => t.(finishes := t.finishes + 1)
  }

  /** What the log says of the models asked and the compactions tried. */
  datatype Trail = Trail(
    lastAsked: Option<Slot>,     // the model of the last call that was no retry
    sawFallback: bool,           // the fallback has answered a call
    left: bool,                  // the turn began escalated, or a tool call left the cluster
    strayed: bool,               // something went to another model than the turn's history says
    compacted: nat)              // compactions of a transcript with a turn, applied or not
  {
    /** The model the turn's next call belongs to. */
    function Serving(): Slot { if sawFallback then Fallback else if left then Escalation else Primary }

    predicate Strays(e: Event) {
      match e
      case Call(slot, retry, _, _) => if retry then !slot.Fallback? || sawFallback else slot != Serving()
      case Compaction(slot, proactive, _, _) => if proactive then slot != Serving() else lastAsked != Some(slot)
      case _ => false
    }
  }

  function Follow(r: Trail, e: Event): Trail {
    match e
    case Call(slot, retry, _, _) =>
      r.(lastAsked := if retry then r.lastAsked else Some(slot), sawFallback := r.sawFallback || FallbackAnswered(e),
         strayed := r.strayed || r.Strays(e))
    case Compaction(_, _, _, _) =>
      r.(strayed := r.strayed || r.Strays(e), compacted := r.compacted + if CompactsTurns(e) then 1 else 0)
    case ToolsRan(_, _, leaves) => r.(left := r.left || leaves)
    case _ => r
  }

  const TOKEN_LIMIT_NOTE := "\n\n_This answer stopped at the response token limit before it was complete._"

  /** The transcript with the model's final text, if it said any. */
  function WithAnswer(ms: seq<Message>, text: string): seq<Message> {
    if text == "" then ms else ms + [AssistantText(text)]
  }

  /** An answer's text, marked when the token limit cut it. */
  function Said(text: string, cut: bool): string { if cut then text + TOKEN_LIMIT_NOTE else text }

  /** What the log tells of the conversation. */
  datatype Story = Story(
    ms: seq<Message>,            // the transcript
    text: string,                // of the answer whose tool calls are being made
    asked: seq<ToolCall>,        // those calls
    ran: seq<ToolCall>,          // the ones made since
    got: seq<ToolResult>,        // and what they answered
    input: int,                  // the prompt of the last answered round, as the provider counted it
    fitted: bool)                // the last thing was a compaction in front of a round

  function Tell(s: Story, e: Event): Story {
    match e
    case Call(_, _, tools, Answered(text, calls, usage, cut)) =>
      if tools && calls != [] then Story(s.ms, text, calls, [], [], FullInput(usage), false)
      else if tools then Story(WithAnswer(s.ms, Said(text, cut)), "", [], [], [], FullInput(usage), false)
      else Story(WithAnswer(s.ms, text), "", [], [], [], s.input, false)
    case Call(_, _, _, Failed(_)) => Story(s.ms, "", [], [], [], s.input, false)
    case Compaction(_, proactive, _, folded) =>
      Story(if Applied(folded) then folded.messages else s.ms, "", [], [], [], s.input, proactive)
    case Tool(call, _, result, _) => s.(ran := s.ran + [call], got := s.got + [result], fitted := false)
    case ToolsRan(calls, results, _) =>
      Story(s.ms + [AssistantCalls(s.text, calls), Results(results)], "", [], [], [], s.input, false)
    case Persist(_) => Story(s.ms, "", [], [], [], s.input, false)
    case Finish(_) => Story(s.ms, "", [], [], [], s.input, false)
  }

  /** The story after a question, whoever answered it. */
  function Heard(ms: seq<Message>, input: int, tools: bool, answer: ModelAnswer): Story {
    Tell(Story(ms, "", [], [], [], input, false), Call(Primary, false, tools, answer))
  }

  /** Everything the log says at one point. */
  datatype Book = Book(tally: Tally, trail: Trail, story: Story)

  function Enter(b: Book, e: Event): Book { Book(Count(b.tally, e), Follow(b.trail, e), Tell(b.story, e)) }

  /** A log with the book before each event and after the last. */
  datatype Journal = Journal(events: seq<Event>, books: seq<Book>)

  /** Before the first event. */
  function FirstBook(request: seq<Message>, input: int, escalated: bool): Book {
    Book(NO_TALLY, Trail(None, false, escalated, false, 0), Story(request, "", [], [], [], input, false))
  }

  function BookOf(first: Book, log: seq<Event>): Book {
    if log == [] then first else Enter(BookOf(first, log[..|log| - 1]), log[|log| - 1])
  }

  /** n tool calls later nothing but the tool columns moved. */
  predicate SameButTools(t: Tally, u: Tally, n: nat) {
    u == t.(handed := u.handed, sent := u.sent, bytes := u.bytes, perTool := u.perTool, tools := t.tools + n)
  }

  /** Model calls move only the columns about model calls. */
  predicate SameBut(t: Tally, u: Tally) {
    u == t.(session := u.session, escalated := u.escalated, calls := u.calls, retries := u.retries, closes := u.closes,
            answered := u.answered)
  }

  predicate SameCalls(t: Tally, u: Tally) {
    u.calls == t.calls && u.retries == t.retries && u.closes == t.closes && u.answered == t.answered
  }

  function TallyOf(log: seq<Event>): Tally {
    if log == [] then NO_TALLY else Count(TallyOf(log[..|log| - 1]), log[|log| - 1])
  }

  lemma CountBreakdown(t: Tally, e: Event, name: string)
    ensures StatsIn(Count(t, e).perTool, name) ==
            if e.Tool? && e.call.name == name then Record(StatsIn(t.perTool, name), e.result, e.outcome)
            else StatsIn(t.perTool, name)
  {
  }

  // ---- the columns, one by one ----

  function Times(log: seq<Event>, p: Event -> bool): nat {
    if log == [] then 0 else Times(log[..|log| - 1], p) + if p(log[|log| - 1]) then 1 else 0
  }

  function Amount(log: seq<Event>, f: Event -> int): int {
    if log == [] then 0 else Amount(log[..|log| - 1], f) + f(log[|log| - 1])
  }

  /** What an event costs: the usage of an answered call, or of an applied compaction. */
  function Cost(e: Event): Usage {
    if e.Call? && e.answer.Answered? then e.answer.usage
    else if e.Compaction? && Applied(e.folded) then e.folded.usage
    else ZERO_USAGE
  }

  /** Its share that the escalation model answered. */
  function EscalatedCost(e: Event): Usage { if e.Call? && e.slot.Escalation? then Cost(e) else ZERO_USAGE }

  /** The counts of a ledger are those of the log's events. */
  lemma {:induction false} TallyCounts(log: seq<Event>)
    ensures var t := TallyOf(log);
            && t.calls == Times(log, (e: Event) => e.Call?)
            && t.retries == Times(log, (e: Event) => e.Call? && e.retry)
            && t.closes == Times(log, (e: Event) => e.Call? && !e.retry && !e.tools)
            && t.folds == Times(log, (e: Event) => e.Compaction? && Applied(e.folded))
            && t.tools == Times(log, (e: Event) => e.Tool?)
            && t.handed == Times(log, (e: Event) => e.Tool? && e.handed)
            && t.sent == Times(log, (e: Event) => e.Tool? && e.handed && !e.result.notSent)
            && t.bytes == Amount(log, (e: Event) => if e.Tool? then |e.result.content| else 0)
            && t.persists == Times(log, (e: Event) => e.Persist?) && t.finishes == Times(log, (e: Event) => e.Finish?)
  {
    if log != [] {
      TallyCounts(log[..|log| - 1]);
    }
  }

  /** Each column of the session's usage is the sum of that column over what was paid for. */
  lemma {:induction false} SessionIsTheSum(log: seq<Event>)
    ensures var u := TallyOf(log).session;
            && u.input == Amount(log, (e: Event) => Cost(e).input)
            && u.output == Amount(log, (e: Event) => Cost(e).output)
            && u.cacheCreation == Amount(log, (e: Event) => Cost(e).cacheCreation)
            && u.cacheRead == Amount(log, (e: Event) => Cost(e).cacheRead)
            && u.cacheCreation1h == Amount(log, (e: Event) => Cost(e).cacheCreation1h)
            && u.thinking == Amount(log, (e: Event) => Cost(e).thinking)
            && u.longInput == Amount(log, (e: Event) => Cost(e).longInput)
            && u.longOutput == Amount(log, (e: Event) => Cost(e).longOutput)
            && u.longCacheCreation == Amount(log, (e: Event) => Cost(e).longCacheCreation)
            && u.longCacheRead == Amount(log, (e: Event) => Cost(e).longCacheRead)
            && u.longCacheCreation1h == Amount(log, (e: Event) => Cost(e).longCacheCreation1h)
  {
    if log != [] {
      SessionIsTheSum(log[..|log| - 1]);
    }
  }

  /** And each column of the escalation's share is the sum over its own answers. */
  lemma {:induction false} EscalatedIsTheSum(log: seq<Event>)
    ensures var u := TallyOf(log).escalated;
            && u.input == Amount(log, (e: Event) => EscalatedCost(e).input)
            && u.output == Amount(log, (e: Event) => EscalatedCost(e).output)
            && u.cacheCreation == Amount(log, (e: Event) => EscalatedCost(e).cacheCreation)
            && u.cacheRead == Amount(log, (e: Event) => EscalatedCost(e).cacheRead)
            && u.cacheCreation1h == Amount(log, (e: Event) => EscalatedCost(e).cacheCreation1h)
            && u.thinking == Amount(log, (e: Event) => EscalatedCost(e).thinking)
            && u.longInput == Amount(log, (e: Event) => EscalatedCost(e).longInput)
            && u.longOutput == Amount(log, (e: Event) => EscalatedCost(e).longOutput)
            && u.longCacheCreation == Amount(log, (e: Event) => EscalatedCost(e).longCacheCreation)
            && u.longCacheRead == Amount(log, (e: Event) => EscalatedCost(e).longCacheRead)
            && u.longCacheCreation1h == Amount(log, (e: Event) => EscalatedCost(e).longCacheCreation1h)
  {
    if log != [] {
      EscalatedIsTheSum(log[..|log| - 1]);
    }
  }

  /** One tool's line is counted off the log: calls, bytes, errors and each kind of outcome. */
  lemma {:induction false} StatsCount(log: seq<Event>, name: string, outcome: string)
    ensures var s := StatsOf(log, name);
            && s.calls == Times(log, (e: Event) => e.Tool? && e.call.name == name)
            && s.errors == Times(log, (e: Event) => e.Tool? && e.call.name == name && e.result.isError)
            && s.bytes == Amount(log, (e: Event) => if e.Tool? && e.call.name == name then |e.result.content| else 0)
            && (if outcome in s.results then s.results[outcome] else 0) ==
               Times(log, (e: Event) => e.Tool? && e.call.name == name && e.outcome == outcome)
  {
    if log != [] {
      StatsCount(log[..|log| - 1], name, outcome);
    }
  }

  /** The breakdown says of every tool what the log says of it, and nothing of others. */
  lemma {:induction false} BreakdownAgrees(log: seq<Event>, name: string)
    ensures StatsIn(TallyOf(log).perTool, name) == StatsOf(log, name)
  {
    if log != [] {
      var last := |log| - 1;
      BreakdownAgrees(log[..last], name);
      CountBreakdown(TallyOf(log[..last]), log[last], name);
    }
  }

  /** The breakdown adds up: calls and bytes over the tools give the session's
      totals, and each tool's results give its calls. */
  ghost predicate AddsUp(m: map<string, ToolStats>, tools: int, bytes: int) {
    && Sums.Total(CallsPerTool(m)) == tools
    && Sums.Total(BytesPerTool(m)) == bytes
    && (forall n | n in m :: Sums.Total(m[n].results) == m[n].calls)
  }

  lemma CallsRecorded(m: map<string, ToolStats>, n: string, s: ToolStats)
    requires s.calls == StatsIn(m, n).calls + 1
    ensures Sums.Total(CallsPerTool(m[n := s])) == Sums.Total(CallsPerTool(m)) + 1
  {
    Sums.Bumped(CallsPerTool(m), n, 1);
    assert CallsPerTool(m[n := s]) == CallsPerTool(m)[n := StatsIn(m, n).calls + 1];
  }

  lemma BytesRecorded(m: map<string, ToolStats>, n: string, s: ToolStats, bytes: nat)
    requires s.bytes == StatsIn(m, n).bytes + bytes
    ensures Sums.Total(BytesPerTool(m[n := s])) == Sums.Total(BytesPerTool(m)) + bytes
  {
    Sums.Bumped(BytesPerTool(m), n, bytes);
    assert BytesPerTool(m[n := s]) == BytesPerTool(m)[n := StatsIn(m, n).bytes + bytes];
  }

  lemma AddsUpRecord(m: map<string, ToolStats>, tools: int, bytes: int, n: string, s: ToolStats, size: nat)
    requires AddsUp(m, tools, bytes)
    requires s.calls == StatsIn(m, n).calls + 1 && s.bytes == StatsIn(m, n).bytes + size
    requires Sums.Total(s.results) == s.calls
    ensures AddsUp(m[n := s], tools + 1, bytes + size)
  {
    CallsRecorded(m, n, s);
    BytesRecorded(m, n, s, size);
  }

  lemma CountAddsUp(t: Tally, e: Event)
    requires AddsUp(t.perTool, t.tools, t.bytes)
    ensures var u := Count(t, e); AddsUp(u.perTool, u.tools, u.bytes)
  {
    if e.Tool? {
      var s := StatsIn(t.perTool, e.call.name);
      Sums.Bumped(s.results, e.outcome, 1);
      AddsUpRecord(t.perTool, t.tools, t.bytes, e.call.name, Record(s, e.result, e.outcome), |e.result.content|);
    }
  }

  lemma {:induction false} BreakdownAddsUp(log: seq<Event>)
    ensures var t := TallyOf(log); AddsUp(t.perTool, t.tools, t.bytes)
  {
    if log == [] {
      assert CallsPerTool(map[]) == map[] && BytesPerTool(map[]) == map[];
    } else {
      BreakdownAddsUp(log[..|log| - 1]);
      CountAddsUp(TallyOf(log[..|log| - 1]), log[|log| - 1]);
    }
  }

  lemma {:induction false} BookTally(first: Book, log: seq<Event>)
    requires first.tally == NO_TALLY
    ensures BookOf(first, log).tally == TallyOf(log)
  {
    if log != [] {
      BookTally(first, log[..|log| - 1]);
    }
  }

  // ---- routing ----

  predicate FallbackServed(log: seq<Event>) { exists i :: 0 <= i < |log| && FallbackAnswered(log[i]) }
  predicate ClusterLeft(log: seq<Event>) { exists i :: 0 <= i < |log| && log[i].ToolsRan? && log[i].leaves }

  /** Index of the last call that was no retry, -1 for none. */
  function LastAsk(log: seq<Event>): (i: int)
    ensures -1 <= i < |log| && (0 <= i ==> FirstAsk(log[i]))
    ensures forall k | i < k < |log| :: !FirstAsk(log[k])
  {
    if log == [] then -1
    else if FirstAsk(log[|log| - 1]) then |log| - 1
    else LastAsk(log[..|log| - 1])
  }

  /** The model that serves after these events: the fallback once it has answered one
      of them, else the escalation model if the turn began there or left the cluster
      since, else the primary. */
  function Serving(escalated: bool, before: seq<Event>): Slot {
    if FallbackServed(before) then Fallback
    else if escalated || ClusterLeft(before) then Escalation
    else Primary
  }

  /** Event j goes where the events before it say. A retry tries the fallback
      before it ever answered. A compaction in front of a round goes to the model
      that serves then; the one after the last answer goes to the model that served
      when the round asked. */
  predicate RoutedAt(escalated: bool, log: seq<Event>, j: nat)
    requires j < |log|
  {
    var before := log[..j];
    match log[j]
    case Call(slot, retry, _, _) =>
      if retry then slot.Fallback? && !FallbackServed(before) else slot == Serving(escalated, before)
    case Compaction(slot, proactive, _, _) =>
      if proactive then slot == Serving(escalated, before)
      else
        var i := LastAsk(before);
        0 <= i && slot == log[i].slot == Serving(escalated, log[..i])
    case _ => true
  }

  ghost predicate Routed(escalated: bool, log: seq<Event>) {
    forall j | 0 <= j < |log| :: RoutedAt(escalated, log, j)
  }

  lemma {:induction false} SawFallback(first: Book, log: seq<Event>)
    requires !first.trail.sawFallback
    ensures BookOf(first, log).trail.sawFallback <==> FallbackServed(log)
  {
    if log != [] {
      var before := log[..|log| - 1];
      SawFallback(first, before);
      FollowKeeps(BookOf(first, before).trail, log[|log| - 1]);
      assert forall i | 0 <= i < |before| :: before[i] == log[i];
      assert FallbackServed(log) <==> FallbackServed(before) || FallbackAnswered(log[|log| - 1]);
    }
  }

  lemma {:induction false} SawLeaving(first: Book, log: seq<Event>)
    ensures BookOf(first, log).trail.left <==> first.trail.left || ClusterLeft(log)
  {
    if log != [] {
      var before, e := log[..|log| - 1], log[|log| - 1];
      SawLeaving(first, before);
      FollowKeeps(BookOf(first, before).trail, e);
      assert forall i | 0 <= i < |before| :: before[i] == log[i];
      assert ClusterLeft(log) <==> ClusterLeft(before) || (e.ToolsRan? && e.leaves);
    }
  }

  lemma FollowKeeps(r: Trail, e: Event)
    ensures var u := Follow(r, e);
            && u.sawFallback == (r.sawFallback || FallbackAnswered(e))
            && u.left == (r.left || (e.ToolsRan? && e.leaves))
            && u.strayed == (r.strayed || r.Strays(e))
            && u.lastAsked == (if FirstAsk(e) then Some(e.slot) else r.lastAsked)
            && u.compacted == r.compacted + if CompactsTurns(e) then 1 else 0
  {
  }

  lemma {:induction false} SawLastAsk(first: Book, log: seq<Event>)
    requires first.trail.lastAsked == None
    ensures var i := LastAsk(log); BookOf(first, log).trail.lastAsked == if i < 0 then None else Some(log[i].slot)
  {
    if log != [] {
      SawLastAsk(first, log[..|log| - 1]);
      FollowKeeps(BookOf(first, log[..|log| - 1]).trail, log[|log| - 1]);
    }
  }

  lemma {:induction false} SawCompaction(first: Book, log: seq<Event>)
    requires first.trail.compacted == 0
    ensures BookOf(first, log).trail.compacted > 0 <==> exists i :: 0 <= i < |log| && CompactsTurns(log[i])
  {
    if log != [] {
      var before := log[..|log| - 1];
      SawCompaction(first, before);
      FollowKeeps(BookOf(first, before).trail, log[|log| - 1]);
      assert forall i | 0 <= i < |before| :: before[i] == log[i];
      if CompactsTurns(log[|log| - 1]) {
        assert exists i :: 0 <= i < |log| && CompactsTurns(log[i]);
      }
    }
  }

  /** In a trail that never strayed, no event did. */
  lemma {:induction false} NeverStrayed(first: Book, log: seq<Event>, j: nat)
    requires !BookOf(first, log).trail.strayed && j < |log|
    ensures !BookOf(first, log[..j]).trail.strayed && !BookOf(first, log[..j]).trail.Strays(log[j])
  {
    var last := |log| - 1;
    FollowKeeps(BookOf(first, log[..last]).trail, log[last]);
    if j < last {
      NeverStrayed(first, log[..last], j);
      assert log[..last][..j] == log[..j];
    }
  }

  lemma ServingIs(first: Book, before: seq<Event>)
    requires !first.trail.sawFallback
    ensures BookOf(first, before).trail.Serving() == Serving(first.trail.left, before)
  {
    SawFallback(first, before);
    SawLeaving(first, before);
  }

  /** A trail that never strayed was routed as its history says, event by event. */
  lemma NotStrayedIsRouted(first: Book, log: seq<Event>)
    requires first.trail == Trail(None, false, first.trail.left, false, 0)
    requires !BookOf(first, log).trail.strayed
    ensures Routed(first.trail.left, log)
  {
    forall j | 0 <= j < |log| ensures RoutedAt(first.trail.left, log, j) {
      var before := log[..j];
      NeverStrayed(first, log, j);
      ServingIs(first, before);
      match log[j] {
        case Call(slot, _, _, _) =>
          SawFallback(first, before);
        case Compaction(slot, false, _, _) =>
          SawLastAsk(first, before);
          var i := LastAsk(before);
          NeverStrayed(first, log, i);
          ServingIs(first, log[..i]);
        case _ =>
      }
    }
  }

  /** Once the fallback answered, every later call goes to it, retries included,
      and so does every later compaction made to fit a round. */
  ghost predicate FallbackSticks(log: seq<Event>) {
    forall i, j | 0 <= i < j < |log| && FallbackAnswered(log[i]) ::
      && (log[j].Call? ==> log[j].slot.Fallback?)
      && (log[j].Compaction? && log[j].proactive ==> log[j].slot.Fallback?)
  }

  /** The escalation model was called, or a tool call left the cluster. */
  predicate LeavesPrimary(e: Event) { (e.Call? && e.slot.Escalation?) || (e.ToolsRan? && e.leaves) }

  /** From then on no call goes to the primary, and no compaction made to fit a round. */
  ghost predicate EscalationIsOneWay(log: seq<Event>) {
    forall i, j | 0 <= i < j < |log| && LeavesPrimary(log[i]) ::
      && (log[j].Call? ==> !log[j].slot.Primary?)
      && (log[j].Compaction? && log[j].proactive ==> !log[j].slot.Primary?)
  }

  /** A routed turn stays with a fallback that answered ... */
  lemma RoutedSticks(escalated: bool, log: seq<Event>)
    requires Routed(escalated, log)
    ensures FallbackSticks(log)
  {
    forall i, j | 0 <= i < j < |log| && FallbackAnswered(log[i])
      ensures log[j].Call? || (log[j].Compaction? && log[j].proactive) ==> log[j].slot.Fallback?
    {
      assert RoutedAt(escalated, log, j);
      assert FallbackAnswered(log[..j][i]);
    }
  }

  /** ... and never returns to the primary once it left it. */
  lemma RoutedOneWay(escalated: bool, log: seq<Event>)
    requires Routed(escalated, log)
    ensures EscalationIsOneWay(log)
  {
    forall i, j | 0 <= i < j < |log| && LeavesPrimary(log[i])
      ensures log[j].Call? || (log[j].Compaction? && log[j].proactive) ==> !log[j].slot.Primary?
    {
      assert RoutedAt(escalated, log, j);
      LeftBy(escalated, log, i, j);
    }
  }

  lemma LeftBy(escalated: bool, log: seq<Event>, i: nat, j: nat)
    requires Routed(escalated, log) && i < j <= |log| && LeavesPrimary(log[i])
    ensures Serving(escalated, log[..j]) != Primary
  {
    if log[i].ToolsRan? {
      assert log[..j][i].ToolsRan? && log[..j][i].leaves;
    } else {
      assert RoutedAt(escalated, log, i);
      if !escalated {
        var k :| 0 <= k < |log[..i]| && log[..i][k].ToolsRan? && log[..i][k].leaves;
        assert log[..j][k].ToolsRan? && log[..j][k].leaves;
      }
    }
  }

  // ---- the transcript ----

  /** From event i on, the log is these tool calls and their results, and nothing else. */
  ghost predicate RanFrom(log: seq<Event>, i: int, calls: seq<ToolCall>, results: seq<ToolResult>) {
    && 0 <= i && i + |calls| == i + |results| <= |log|
    && forall j | i <= j < i + |calls| :: log[j].Tool? && log[j].call == calls[j - i] && log[j].result == results[j - i]
  }

  /** The round that ends at event j ran the calls of the answer in front of them, one
      by one, and holds their results. */
  ghost predicate RoundAt(log: seq<Event>, j: nat)
    requires j < |log| && log[j].ToolsRan?
  {
    var i := j - |log[j].calls|;
    && RanFrom(log, i, log[j].calls, log[j].results) && log[j].calls != []
    && 0 < i && log[i - 1].Call? && log[i - 1].answer.Answered? && log[i - 1].answer.calls == log[j].calls
  }

  /** An answer that asks for tools, to a question that offers them. */
  predicate AsksTools(e: Event) { e.Call? && e.tools && e.answer.Answered? && e.answer.calls != [] }

  /** Behind the answer at event j come its calls, each made, and the round they make up. */
  ghost predicate CallsMade(log: seq<Event>, j: nat)
    requires j < |log| && AsksTools(log[j])
  {
    var end := j + |log[j].answer.calls| + 1;
    && end < |log| && log[end].ToolsRan? && log[end].calls == log[j].answer.calls
    && RanFrom(log, j + 1, log[end].calls, log[end].results)
  }

  /** No compaction was applied after event j. */
  predicate KeptFrom(log: seq<Event>, j: nat) {
    forall i | j < i < |log| :: !(log[i].Compaction? && Applied(log[i].folded))
  }

  /** Event j is the model's answer in words, the last of its turn. */
  predicate LastWordsAt(log: seq<Event>, j: nat)
    requires j < |log|
  {
    && log[j].Call? && log[j].answer.Answered? && log[j].answer.text != ""
    && (log[j].tools ==> log[j].answer.calls == [])
  }

  /** The calls being made and their results are the last events of the log, right
      behind the answer that asked for them. */
  ghost predicate EndsInTools(log: seq<Event>, s: Story) {
    var i := |log| - |s.ran|;
    && RanFrom(log, i, s.ran, s.got)
    && 0 < i && log[i - 1].Call? && log[i - 1].answer.Answered?
    && log[i - 1].answer.text == s.text && log[i - 1].answer.calls == s.asked
  }

  lemma {:induction false} StoryEndsInTools(first: Book, log: seq<Event>)
    requires first.story.asked == []
    ensures var s := BookOf(first, log).story; s.asked != [] ==> EndsInTools(log, s)
  {
    if log != [] {
      var n := |log| - 1;
      StoryEndsInTools(first, log[..n]);
      ToolGrows(log[..n], BookOf(first, log[..n]).story, log[n]);
      assert log == log[..n] + [log[n]];
    }
  }

  lemma ToolGrows(before: seq<Event>, s: Story, e: Event)
    requires s.asked != [] ==> EndsInTools(before, s)
    ensures Tell(s, e).asked != [] ==> EndsInTools(before + [e], Tell(s, e))
  {
    var u, log := Tell(s, e), before + [e];
    if u.asked != [] && e.Tool? {
      var i := |before| - |s.ran|;
      assert log[i - 1] == before[i - 1];
      forall j | i <= j < |log|
        ensures log[j].Tool? && log[j].call == u.ran[j - i] && log[j].result == u.got[j - i]
      {
        if j < |before| { assert log[j] == before[j]; }
      }
    }
  }

  lemma BookStep(first: Book, log: seq<Event>, j: nat)
    requires j < |log|
    ensures BookOf(first, log[..j + 1]) == Enter(BookOf(first, log[..j]), log[j])
  {
    assert log[..j + 1][..j] == log[..j];
  }

  /** Once tools are asked for, the next event makes the next call, or ends the round when all have run. */
  predicate GoesOn(s: Story, e: Event) {
    s.asked != [] ==>
      if |s.ran| < |s.asked| then e.Tool? && e.call == s.asked[|s.ran|] else e.ToolsRan? && e.calls == s.asked
  }

  function StoriesOf(books: seq<Book>): seq<Story> {
    seq(|books|, n requires 0 <= n < |books| => books[n].story)
  }

  /** The stories before each event and after the last, each going on from the one before. */
  ghost predicate AlwaysGoesOn(log: seq<Event>, stories: seq<Story>) {
    && |stories| == |log| + 1
    && forall n {:trigger log[n], stories[n]} | 0 <= n < |log| ::
         GoesOn(stories[n], log[n]) && stories[n + 1] == Tell(stories[n], log[n])
  }

  lemma ToolNext(s: Story, e: Event, calls: seq<ToolCall>, k: nat)
    requires GoesOn(s, e) && s.asked == calls && |s.ran| == k < |calls|
    ensures e.Tool? && Tell(s, e).asked == calls && |Tell(s, e).ran| == k + 1
  {
  }

  /** In a log that always goes on, and ends in something else, the calls of the answer at
      j are followed up to the k-th. */
  lemma {:induction false} CallsFollow(log: seq<Event>, stories: seq<Story>, j: nat, k: nat)
    requires AlwaysGoesOn(log, stories) && j < |log| && AsksTools(log[j]) && k <= |log[j].answer.calls|
    requires log[|log| - 1].Finish? || log[|log| - 1].Compaction?
    ensures j + 1 + k < |log| && stories[j + 1 + k].asked == log[j].answer.calls && |stories[j + 1 + k].ran| == k
    decreases k
  {
    if k == 0 {
      assert stories[j + 1] == Tell(stories[j], log[j]);
    } else {
      CallsFollow(log, stories, j, k - 1);
      ToolNext(stories[j + k], log[j + k], log[j].answer.calls, k - 1);
    }
  }

  lemma CallsAreMade(log: seq<Event>, stories: seq<Story>, j: nat)
    requires AlwaysGoesOn(log, stories) && forall n | 0 <= n < |log| && log[n].ToolsRan? :: RoundAt(log, n)
    requires j < |log| && AsksTools(log[j]) && (log[|log| - 1].Finish? || log[|log| - 1].Compaction?)
    ensures CallsMade(log, j)
  {
    var end := j + 1 + |log[j].answer.calls|;
    CallsFollow(log, stories, j, |log[j].answer.calls|);
    assert GoesOn(stories[end], log[end]);
    assert RoundAt(log, end);
  }

  /** A log that always goes on makes every call it asks for. */
  lemma AllCallsAreMade(log: seq<Event>, stories: seq<Story>)
    requires AlwaysGoesOn(log, stories) && forall n | 0 <= n < |log| && log[n].ToolsRan? :: RoundAt(log, n)
    requires log != [] && (log[|log| - 1].Finish? || log[|log| - 1].Compaction?)
    ensures forall j | 0 <= j < |log| && AsksTools(log[j]) :: CallsMade(log, j)
  {
    forall j | 0 <= j < |log| && AsksTools(log[j]) ensures CallsMade(log, j) {
      CallsAreMade(log, stories, j);
    }
  }

  lemma RoundFromStory(log: seq<Event>, j: nat, s: Story)
    requires j < |log| && log[j].ToolsRan? && EndsInTools(log[..j], s)
    requires log[j].calls == s.asked == s.ran && log[j].results == s.got && log[j].calls != []
    ensures RoundAt(log, j) && log[j - |log[j].calls| - 1].answer.text == s.text
  {
    var i := j - |s.ran|;
    assert log[..j][i - 1] == log[i - 1];
    forall k | i <= k < j ensures log[k].Tool? && log[k].call == s.ran[k - i] && log[k].result == s.got[k - i] {
      assert log[..j][k] == log[k];
    }
  }

  /** The transcript has this tool round in it, its results right behind its calls. */
  ghost predicate HasRound(ms: seq<Message>, text: string, calls: seq<ToolCall>, results: seq<ToolResult>) {
    exists i :: 0 <= i < |ms| - 1 && ms[i] == AssistantCalls(text, calls) && ms[i + 1] == Results(results)
  }

  lemma RoundBegins(before: seq<Message>, ms: seq<Message>, text: string, calls: seq<ToolCall>,
                    results: seq<ToolResult>)
    requires before + [AssistantCalls(text, calls), Results(results)] <= ms
    ensures HasRound(ms, text, calls, results)
  {
    var i, start := |before|, before + [AssistantCalls(text, calls), Results(results)];
    assert ms[i] == start[i] && ms[i + 1] == start[i + 1];
  }

  /** A round that is told stays told unless a compaction is applied. */
  lemma RoundStays(first: Book, log: seq<Event>, j: nat, text: string)
    requires j < |log| && log[j].ToolsRan? && KeptFrom(log, j)
    requires BookOf(first, log[..j + 1]).story.ms ==
             BookOf(first, log[..j]).story.ms + [AssistantCalls(text, log[j].calls), Results(log[j].results)]
    ensures HasRound(BookOf(first, log).story.ms, text, log[j].calls, log[j].results)
  {
    StoryGrows(first, log, j + 1);
    RoundBegins(BookOf(first, log[..j]).story.ms, BookOf(first, log).story.ms, text, log[j].calls, log[j].results);
  }

  lemma TellGrows(s: Story, e: Event)
    requires !(e.Compaction? && Applied(e.folded))
    ensures s.ms <= Tell(s, e).ms
  {
  }

  /** Nothing but an applied compaction takes a message away. */
  lemma {:induction false} StoryGrows(first: Book, log: seq<Event>, j: nat)
    requires j <= |log|
    requires forall i | j <= i < |log| :: !(log[i].Compaction? && Applied(log[i].folded))
    ensures BookOf(first, log[..j]).story.ms <= BookOf(first, log).story.ms
  {
    if j == |log| {
      assert log[..j] == log;
    } else {
      var n := |log| - 1;
      StoryGrows(first, log[..n], j);
      assert log[..n][..j] == log[..j];
      TellGrows(BookOf(first, log[..n]).story, log[n]);
      PrefixChain(BookOf(first, log[..j]).story.ms, BookOf(first, log[..n]).story.ms, BookOf(first, log).story.ms);
    }
  }

  lemma PrefixChain<T>(a: seq<T>, b: seq<T>, c: seq<T>)
    requires a <= b <= c
    ensures a <= c
  {
  }

  predicate FailedLast(log: seq<Event>) {
    log != [] && log[|log| - 1].Call? && log[|log| - 1].answer.Failed?
  }

  function BudgetExhausted(call: ToolCall): ToolResult {
    ToolResult(call.id, "external call budget exhausted: " + call.name + " was NOT called", true, false)
  }

  lemma AnswerKeepsPairing(ms: seq<Message>, text: string)
    ensures Paired(ms) ==> Paired(WithAnswer(ms, text))
  {
    if text != "" && Paired(ms) {
      AppendText(ms, AssistantText(text));
    }
  }
}
