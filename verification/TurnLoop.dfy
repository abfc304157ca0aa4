/** One Kobi chat turn: rounds of model and tool calls with a sticky fallback,
    a one-way escalation, a connector budget, two usage ledgers, compaction and
    a tools-free close when the rounds run out. The turn records in its log what
    was really asked and answered; the contracts compare the handler's own
    counters, routing and transcript with what the log says. */
module TurnLoop {
  import opened Conversation
  import opened Options
  import opened TurnLedger

  class Turn {
    const cfg: Config
    const env: Env
    ghost const request: seq<Message>
    ghost const firstInput: int
    ghost const beganEscalated: bool     // the turn began escalated

    var messages: seq<Message>
    var sessionUsage: Usage
    var escalatedUsage: Usage
    var usedFallback: bool
    var fallbackTried: bool
    var escalated: bool
    var escalationRound: nat
    var connectorCalls: nat      // handed to the gateway
    var connectorBudget: nat     // of those, the ones that left KubeBolt
    var toolCalls: nat
    var toolBytes: nat
    var breakdown: map<string, ToolStats>
    var lastRoundInput: int
    var roundsUsed: nat
    var log: seq<Event>          // what was asked and answered so far

    ghost var book: Book         // what the log says now
    ghost var books: seq<Book>   // and what it said before each event, and now

    constructor (cfg: Config, env: Env, request: seq<Message>, startsEscalated: bool, lastInput: int)
      ensures this.cfg == cfg && this.env == env && this.request == request && firstInput == lastInput
      ensures beganEscalated == escalated == (cfg.escalation && startsEscalated)
      ensures messages == request && log == [] && !usedFallback && lastRoundInput == lastInput && roundsUsed == 0
      ensures Ready() && book == First()
    {
      this.cfg, this.env, this.request, firstInput := cfg, env, request, lastInput;
      beganEscalated := cfg.escalation && startsEscalated;
      messages := request;
      sessionUsage, escalatedUsage := ZERO_USAGE, ZERO_USAGE;
      usedFallback, fallbackTried := false, false;
      escalated, escalationRound := cfg.escalation && startsEscalated, 0;
      connectorCalls, connectorBudget, toolCalls, toolBytes := 0, 0, 0, 0;
      breakdown := map[];
      lastRoundInput, roundsUsed := lastInput, 0;
      log := [];
      book := FirstBook(request, lastInput, cfg.escalation && startsEscalated);
      books := [FirstBook(request, lastInput, cfg.escalation && startsEscalated)];
    }

    ghost function First(): Book { FirstBook(request, firstInput, beganEscalated) }

    // ---- what the log may record ----

    /** What compacting ms comes to when it is tried at this position of the log. */
    function Compacting(ms: seq<Message>, at: nat): Compacted<Usage> {
      Compact(ms, cfg.preserveTurns, false, env.summary(at), ZERO_USAGE)
    }

    /** One tool call, made or refused when so many connector calls had been sent. */
    function ToolEvent(call: ToolCall, sent: nat, at: nat): Event {
      var connector := cfg.connectorRouter && env.isConnectorTool(call.name);
      var answer := env.tool(at);
      var result := if connector && sent >= MAX_CONNECTOR_CALLS then BudgetExhausted(call)
                    else ToolResult(call.id, answer.content, answer.isError, answer.notSent);
      Tool(call, connector && sent < MAX_CONNECTOR_CALLS, result, env.classify(result))
    }

    predicate Full(ms: seq<Message>, input: int) {
      cfg.autoCompact && (env.approxTokens(ms) >= cfg.compactTrigger || input >= cfg.compactTrigger)
    }

    /** Some call of the round left the cluster, and there is a model to escalate to. */
    predicate Leaves(calls: seq<ToolCall>, results: seq<ToolResult>) {
      cfg.escalation && exists i :: 0 <= i < |calls| && env.leavesCluster(calls[i], ResultFor(results, calls[i].id))
    }

    /** The event is what the outside world answered at this position, about what the
        log had said so far: a round asks with a full prompt only right after trying to
        compact it, every compaction is of the transcript as it stood, the tool calls
        are the answer's, one by one, each round ends with their results, and what is
        persisted is the transcript. */
    ghost predicate Fits(b: Book, e: Event, at: nat) {
      match e
      case Call(_, retry, tools, answer) =>
        && answer == env.model(at) && b.story.asked == []
        && (tools && !retry && !b.story.fitted ==> !Full(b.story.ms, b.story.input))
      case Compaction(_, proactive, of, folded) =>
        && of == b.story.ms && folded == Compacting(of, at) && b.story.asked == []
        && (if proactive then Full(of, b.story.input) && !b.story.fitted
            else cfg.autoCompact && b.story.input >= cfg.compactTrigger)
      case Tool(call, _, _, _) =>
        && e == ToolEvent(call, b.tally.sent, at)
        && |b.story.ran| < |b.story.asked| && call == b.story.asked[|b.story.ran|]
      case ToolsRan(calls, results, leaves) =>
        && calls == b.story.asked == b.story.ran && results == b.story.got
        && calls != [] && leaves == Leaves(calls, results)
      case Persist(ms) => ms == b.story.ms && b.story.asked == []
      case Finish(_) => b.story.asked == []
    }

    /** The books were kept event by event, and every event fitted. */
    ghost predicate Faithful(j: Journal) {
      match j
      case Journal(events, books) =>
        && |books| == |events| + 1 && books[0] == First()
        && forall n {:trigger events[n], books[n]} | 0 <= n < |events| ::
             Fits(books[n], events[n], n) && books[n + 1] == Enter(books[n], events[n])
    }

    ghost predicate Recorded()
      reads this`log, this`book, this`books
    {
      Faithful(Journal(log, books)) && books[|log|] == book
    }

    /** The only writer of the log. */
    method Note(e: Event)
      requires Recorded() && Fits(book, e, |log|)
      modifies this`log, this`book, this`books
      ensures Recorded() && log == old(log) + [e]
      ensures book == Enter(old(book), e)
    {
      log, book, books := log + [e], Enter(book, e), books + [Enter(book, e)];
    }

    // ---- what a turn keeps ----

    function Kept(): Totals
      reads this
    {
      Totals(sessionUsage, escalatedUsage, fallbackTried,
             connectorCalls, connectorBudget, toolCalls, toolBytes, breakdown)
    }

    /** The handler's counters are the reference ledger of its log. */
    ghost predicate Ledger()
      reads this
    {
      && Recorded()
      && Kept() == book.tally.Owed()
      && book.tally.sent <= MAX_CONNECTOR_CALLS && book.tally.retries <= 1
    }

    /** The routing flags remember what the log has seen. */
    ghost predicate Flags()
      reads this`usedFallback, this`escalated, this`book
    {
      Remembers(usedFallback, escalated, book.trail)
    }

    ghost predicate Remembers(usedFallback: bool, escalated: bool, trail: Trail) {
      match trail
      case Trail(_, sawFallback, left, strayed, _) =>
        && (usedFallback ==> cfg.FallbackUsable())
        && (escalated ==> cfg.escalation)
        && (sawFallback <==> usedFallback)
        && (escalated ==> left)
        && !strayed
    }

    ghost predicate Books()
      reads this
    {
      Ledger() && Flags()
    }

    /** A compaction was told to keep no turn of a transcript that has one. */
    ghost predicate Crashed()
      reads this`book
    {
      cfg.preserveTurns < 1 && book.trail.compacted > 0
    }

    /** The transcript is well formed if the request was, and begins with it as long
        as no compaction was applied. */
    ghost predicate Carries()
      reads this`book
    {
      CarriesOn(book.story, book.tally.folds)
    }

    ghost predicate CarriesOn(s: Story, folds: nat) {
      match s
      case Story(ms, _, _, _, _, _, _) => (Paired(request) ==> Paired(ms)) && (folds == 0 ==> request <= ms)
    }

    lemma HeardCarries(s: Story, folds: nat, tools: bool, answer: ModelAnswer)
      requires CarriesOn(s, folds)
      ensures CarriesOn(Heard(s.ms, s.input, tools, answer), folds)
    {
      if answer.Answered? {
        AnswerKeepsPairing(s.ms, if tools then Said(answer.text, answer.cut) else answer.text);
      }
    }

    /** Within a round: the turn is running, and a retry means the fallback took over. */
    ghost predicate InRound()
      reads this
    {
      && Books() && book.tally.Running() && !Crashed() && Carries()
      && book.tally.retries == (if usedFallback then 1 else 0)
    }

    /** Before a question: the transcript is the log's, and a call that left the cluster
        has been acted on. */
    ghost predicate Open()
      reads this
    {
      && InRound() && book.trail.left == escalated
      && messages == book.story.ms && lastRoundInput == book.story.input && book.story.asked == []
    }

    /** Between rounds. */
    ghost predicate Ready()
      reads this
    {
      Open() && !book.story.fitted
    }

    /** After a round's answer: an answer in words is in the log's transcript already,
        one with tool calls is when they were made. */
    ghost predicate Replied(answer: ModelAnswer)
      requires answer.Answered?
      reads this
    {
      && InRound() && book.trail.left == escalated && book.tally.answered
      && book.story == Heard(messages, lastRoundInput, true, answer)
    }

    function ActiveProvider(): Slot
      reads this
    {
      if usedFallback && cfg.fallback then Fallback
      else if escalated && cfg.escalation then Escalation
      else Primary
    }

    // ---- compaction ----

    function AfterCompaction(ms: seq<Message>, at: nat): seq<Message> {
      var c := Compacting(ms, at);
      if Applied(c) then c.messages else ms
    }

    lemma CompactionKeeps(ms: seq<Message>, at: nat)
      ensures Paired(ms) ==> Paired(AfterCompaction(ms, at))
      ensures Compacting(ms, at).CompactPanicked? <==> cfg.preserveTurns < 1 && CountTurns(ms) > 0
    {
      if Paired(ms) {
        CompactKeepsPairing(ms, cfg.preserveTurns, false, env.summary(at), ZERO_USAGE);
      }
      CompactPanics(ms, cfg.preserveTurns, false, env.summary(at), ZERO_USAGE);
      TurnsCounted(ms);
    }

    /** Records what a compaction came to; its cost is not booked yet. */
    method NoteCompaction(ms: seq<Message>, slot: Slot, proactive: bool, c: Compacted<Usage>)
      requires Books() && !Crashed() && Carries()
      requires Fits(book, Compaction(slot, proactive, ms, c), |log|)
      requires if proactive then slot == book.trail.Serving() else book.trail.lastAsked == Some(slot)
      requires Paired(ms) && Applied(c) ==> Paired(c.messages)
      modifies this`log, this`book, this`books
      ensures Recorded() && Flags() && Carries() && book.tally.retries <= 1 && book.tally.sent <= MAX_CONNECTOR_CALLS
      ensures Kept().(session := book.tally.session) == book.tally.Owed()
      ensures book.tally.session == if Applied(c) then Add(sessionUsage, c.usage) else sessionUsage
      ensures Crashed() <==> cfg.preserveTurns < 1 && CountTurns(ms) > 0
      ensures log == old(log) + [Compaction(slot, proactive, ms, c)]
      ensures book.story.ms == if Applied(c) then c.messages else ms
      ensures book.tally == old(book.tally).(session := book.tally.session, folds := book.tally.folds)
      ensures book.trail == old(book.trail).(compacted := book.trail.compacted)
      ensures book.story.input == old(book.story.input) && book.story.fitted == proactive && book.story.asked == []
    {
      Note(Compaction(slot, proactive, ms, c));
    }

    /** Takes over what a compaction came to, and books what it cost. */
    method Apply(ms: seq<Message>, slot: Slot, proactive: bool, c: Compacted<Usage>) returns (out: seq<Message>)
      requires Books() && !Crashed() && Carries()
      requires Fits(book, Compaction(slot, proactive, ms, c), |log|)
      requires if proactive then slot == book.trail.Serving() else book.trail.lastAsked == Some(slot)
      requires Paired(ms) && Applied(c) ==> Paired(c.messages)
      modifies this`log, this`book, this`books, this`sessionUsage
      ensures Books() && Carries()
      ensures Crashed() <==> cfg.preserveTurns < 1 && CountTurns(ms) > 0
      ensures log == old(log) + [Compaction(slot, proactive, ms, c)]
      ensures out == (if Applied(c) then c.messages else ms) == book.story.ms
      ensures book.tally == old(book.tally).(session := book.tally.session, folds := book.tally.folds)
      ensures book.trail == old(book.trail).(compacted := book.trail.compacted)
      ensures book.story.input == old(book.story.input) && book.story.fitted == proactive && book.story.asked == []
    {
      NoteCompaction(ms, slot, proactive, c);
      out := ms;
      if c.CompactDone? && (c.turnsFolded > 0 || c.resultsStubbed > 0) {
        out := c.messages;
        sessionUsage := Add(sessionUsage, c.usage);
      }
    }

    /** Summarizes or shortens the transcript; `slot` pays for it. */
    method TryCompact(ms: seq<Message>, slot: Slot, proactive: bool) returns (out: seq<Message>, crashed: bool)
      requires Books() && !Crashed() && Carries() && ms == book.story.ms && book.story.asked == []
      requires if proactive then slot == book.trail.Serving() else book.trail.lastAsked == Some(slot)
      requires if proactive then Full(ms, book.story.input) && !book.story.fitted
               else cfg.autoCompact && book.story.input >= cfg.compactTrigger
      modifies this`log, this`book, this`books, this`sessionUsage
      ensures Books() && Carries() && out == book.story.ms
      ensures crashed <==> Crashed()
      ensures crashed <==> cfg.preserveTurns < 1 && CountTurns(ms) > 0
      ensures log == old(log) + [Compaction(slot, proactive, ms, Compacting(ms, |old(log)|))]
      ensures out == AfterCompaction(ms, |old(log)|)
      ensures book.tally == old(book.tally).(session := book.tally.session, folds := book.tally.folds)
      ensures book.trail == old(book.trail).(compacted := book.trail.compacted)
      ensures book.story.input == old(book.story.input) && book.story.fitted == proactive && book.story.asked == []
    {
      var c := Compacting(ms, |log|);
      CompactionKeeps(ms, |log|);
      crashed := c.CompactPanicked?;
      out := Apply(ms, slot, proactive, c);
    }

    // ---- one question ----

    /** The failure of a call may be retried on the fallback. */
    predicate Retried(at: nat, slot: Slot, tools: bool) {
      var first := env.model(at);
      && first.Failed? && !(tools && env.clientGone(at + 1))
      && first.recoverable && cfg.FallbackUsable() && !slot.Fallback?
    }

    /** The calls one question makes, asked at this position of the log. */
    function Asked(at: nat, slot: Slot, tools: bool): seq<Event> {
      var first := Call(slot, false, tools, env.model(at));
      if Retried(at, slot, tools) then [first, Call(Fallback, true, tools, env.model(at + 1))] else [first]
    }

    /** Its answer: the fallback's if that was tried and answered, else the first one's. */
    function AnswerTo(at: nat, slot: Slot, tools: bool): ModelAnswer {
      if Retried(at, slot, tools) && env.model(at + 1).Answered? then env.model(at + 1) else env.model(at)
    }

    function EnterAll(b: Book, es: seq<Event>): Book
      requires 1 <= |es| <= 2
    {
      if |es| == 1 then Enter(b, es[0]) else Enter(Enter(b, es[0]), es[1])
    }

    /** What a question does to the ledger: one call, and a retry if the first
        failed so; the usage is the answering model's. */
    predicate AskCounted(t: Tally, u: Tally, slot: Slot, tools: bool, retried: bool, answer: ModelAnswer) {
      && SameBut(t, u)
      && u.retries == t.retries + (if retried then 1 else 0)
      && u.calls - u.retries == t.calls - t.retries + 1
      && u.closes == t.closes + (if tools then 0 else 1)
      && u.answered == answer.Answered?
      && u.session == (if answer.Answered? then Add(t.session, answer.usage) else t.session)
      && u.escalated == (if answer.Answered? && slot.Escalation? && !retried then Add(t.escalated, answer.usage)
                         else t.escalated)
    }

    lemma AskCounts(b: Book, at: nat, slot: Slot, tools: bool)
      ensures AskCounted(b.tally, EnterAll(b, Asked(at, slot, tools)).tally, slot, tools, Retried(at, slot, tools),
                         AnswerTo(at, slot, tools))
    {
    }

    /** To the trail, when the model asked first is the one that serves. */
    lemma AskFollows(b: Book, at: nat, slot: Slot, tools: bool)
      requires slot == b.trail.Serving() && !b.trail.strayed
      ensures EnterAll(b, Asked(at, slot, tools)).trail ==
              b.trail.(lastAsked := Some(slot),
                       sawFallback := b.trail.sawFallback ||
                                      (Retried(at, slot, tools) && AnswerTo(at, slot, tools).Answered?))
    {
    }

    /** And to the transcript: it is told the answer, whoever gave it. */
    lemma AskTells(b: Book, at: nat, slot: Slot, tools: bool)
      ensures EnterAll(b, Asked(at, slot, tools)).story ==
              Heard(b.story.ms, b.story.input, tools, AnswerTo(at, slot, tools))
    {
    }

    /** One model call. */
    method CallModel(slot: Slot, retry: bool, tools: bool) returns (answer: ModelAnswer)
      requires Recorded() && book.story.asked == []
      requires tools && !retry && !book.story.fitted ==> !Full(book.story.ms, book.story.input)
      modifies this`log, this`book, this`books
      ensures Recorded() && answer == env.model(|old(log)|)
      ensures log == old(log) + [Call(slot, retry, tools, answer)]
      ensures book == Enter(old(book), Call(slot, retry, tools, answer))
    {
      answer := env.model(|log|);
      Note(Call(slot, retry, tools, answer));
    }

    /** A failed question is one of the two exits that report it. */
    lemma FailedAskMayEnd(before: seq<Event>, slot: Slot)
      requires AnswerTo(|before|, slot, true).Failed?
      ensures FailedFor(before + Asked(|before|, slot, true), if env.clientGone(|before| + 1) then Canceled else Error)
    {
    }

    /** The active provider, then the fallback if the failure may be retried
        elsewhere. `gone` tells a client that hung up during the call, which
        only a round looks at. Nothing is booked yet. */
    method Route(tools: bool) returns (answer: ModelAnswer, gone: bool)
      requires Recorded() && Carries() && (usedFallback ==> cfg.FallbackUsable())
      requires !book.trail.strayed && book.trail.Serving() == ActiveProvider() && book.story.asked == []
      requires tools && !book.story.fitted ==> !Full(book.story.ms, book.story.input)
      modifies this`log, this`book, this`books, this`usedFallback, this`fallbackTried
      ensures Recorded() && Carries()
      ensures log == old(log) + Asked(|old(log)|, old(ActiveProvider()), tools)
      ensures answer == AnswerTo(|old(log)|, old(ActiveProvider()), tools)
      ensures gone <==> tools && answer.Failed? && env.clientGone(|old(log)| + 1)
      ensures var retried := Retried(|old(log)|, old(ActiveProvider()), tools);
              && AskCounted(old(book.tally), book.tally, old(ActiveProvider()), tools, retried, answer)
              && fallbackTried == (old(fallbackTried) || retried)
              && usedFallback == (old(usedFallback) || (retried && answer.Answered?))
      ensures book.trail == old(book.trail).(
                lastAsked := Some(old(ActiveProvider())),
                sawFallback := old(book.trail).sawFallback ||
                               (Retried(|old(log)|, old(ActiveProvider()), tools) && answer.Answered?))
      ensures book.story == Heard(old(book.story.ms), old(book.story.input), tools, answer)
      ensures var at, first := |old(log)|, env.model(|old(log)|);
              var retried := && first.Failed? && first.recoverable && !(tools && env.clientGone(at + 1))
                             && cfg.fallback && cfg.fallbackResolves && old(ActiveProvider()) != Fallback;
              && log == old(log) + [Call(old(ActiveProvider()), false, tools, first)] +
                        (if retried then [Call(Fallback, true, tools, env.model(at + 1))] else [])
              && answer == if retried && env.model(at + 1).Answered? then env.model(at + 1) else first
    {
      HeardCarries(book.story, book.tally.folds, tools, AnswerTo(|log|, ActiveProvider(), tools));
      AskFollows(book, |log|, ActiveProvider(), tools);
      AskCounts(book, |log|, ActiveProvider(), tools);
      AskTells(book, |log|, ActiveProvider(), tools);
      answer := CallModel(ActiveProvider(), false, tools);
      gone := false;
      if answer.Failed? && tools && env.clientGone(|log|) {
        gone := true;
        return;
      }
      if answer.Failed? && answer.recoverable && cfg.fallback && !usedFallback {
        if cfg.FallbackUsable() {
          assert Retried(|old(log)|, old(ActiveProvider()), tools);
          var second := CallModel(Fallback, true, tools);
          fallbackTried := true;
          if second.Answered? {
            answer := second;
            usedFallback := true;
          }
        }
      }
    }

    /** A question was asked and its usage is not booked yet. */
    ghost predicate Pending(answer: ModelAnswer)
      reads this
    {
      && Recorded() && Flags() && Carries() && !Crashed() && book.tally.Running()
      && book.tally.retries <= 1 && book.tally.sent <= MAX_CONNECTOR_CALLS
      && Kept().(session := book.tally.session, escalated := book.tally.escalated) == book.tally.Owed()
      && book.tally.answered == answer.Answered?
      && book.tally.session == (if answer.Answered? then Add(sessionUsage, answer.usage) else sessionUsage)
      && book.tally.escalated == (if answer.Answered? && ActiveProvider().Escalation?
                                  then Add(escalatedUsage, answer.usage) else escalatedUsage)
      && (answer.Answered? ==> book.tally.retries == if usedFallback then 1 else 0)
    }

    /** A round's question, or the close's. */
    method Question(tools: bool) returns (answer: ModelAnswer, gone: bool)
      requires Open() && (tools && !book.story.fitted ==> !Full(messages, lastRoundInput))
      modifies this`log, this`book, this`books, this`usedFallback, this`fallbackTried
      ensures Pending(answer)
      ensures log == old(log) + Asked(|old(log)|, old(ActiveProvider()), tools)
      ensures answer == AnswerTo(|old(log)|, old(ActiveProvider()), tools)
      ensures book.trail.lastAsked == Some(old(ActiveProvider())) && book.trail.left == escalated
      ensures gone <==> tools && answer.Failed? && env.clientGone(|old(log)| + 1)
      ensures book.tally.calls - book.tally.retries == old(book.tally).calls - old(book.tally).retries + 1
      ensures book.tally.closes == old(book.tally).closes + if tools then 0 else 1
      ensures book.story == Heard(messages, lastRoundInput, tools, answer)
    {
      answer, gone := Route(tools);
    }

    /** Books an answered call's usage, and the escalation's share of it: the
        handler's two ledgers are the log's again. */
    method AddUsage(answer: ModelAnswer)
      requires answer.Answered? && Pending(answer)
      modifies this`sessionUsage, this`escalatedUsage
      ensures InRound()
    {
      sessionUsage := Add(sessionUsage, answer.usage);
      if escalated && cfg.escalation && !usedFallback {
        escalatedUsage := Add(escalatedUsage, answer.usage);
      }
    }

    /** A question with its usage booked. */
    method Ask(tools: bool) returns (answer: ModelAnswer, gone: bool)
      requires Open() && (tools && !book.story.fitted ==> !Full(messages, lastRoundInput))
      modifies this`log, this`book, this`books, this`usedFallback, this`fallbackTried, this`sessionUsage,
               this`escalatedUsage
      ensures Books() && book.tally.Running() && !Crashed() && Carries()
      ensures answer.Answered? ==> book.tally.retries == (if usedFallback then 1 else 0) && !gone
      ensures log == old(log) + Asked(|old(log)|, old(ActiveProvider()), tools)
      ensures answer == AnswerTo(|old(log)|, old(ActiveProvider()), tools)
      ensures book.trail.lastAsked == Some(old(ActiveProvider())) && book.trail.left == escalated
      ensures gone <==> tools && answer.Failed? && env.clientGone(|old(log)| + 1)
      ensures book.tally.calls - book.tally.retries == old(book.tally).calls - old(book.tally).retries + 1
      ensures book.tally.closes == old(book.tally).closes + if tools then 0 else 1
      ensures answer.Answered? == book.tally.answered
      ensures book.story == Heard(messages, lastRoundInput, tools, answer)
    {
      answer, gone := Question(tools);
      if answer.Answered? {
        AddUsage(answer);
      }
    }

    // ---- tools ----

    /** Decides and makes one tool call. A connector call past the budget is
        answered without being made; one KubeBolt refused itself does not use it. */
    method Execute(call: ToolCall) returns (result: ToolResult, handed: bool)
      requires connectorBudget <= MAX_CONNECTOR_CALLS
      modifies this`connectorCalls, this`connectorBudget
      ensures result ==
              if cfg.connectorRouter && env.isConnectorTool(call.name) && old(connectorBudget) >= MAX_CONNECTOR_CALLS
              then BudgetExhausted(call)
              else var a := env.tool(|log|); ToolResult(call.id, a.content, a.isError, a.notSent)
      ensures handed <==>
              cfg.connectorRouter && env.isConnectorTool(call.name) && old(connectorBudget) < MAX_CONNECTOR_CALLS
      ensures connectorCalls == old(connectorCalls) + if handed then 1 else 0
      ensures connectorBudget == old(connectorBudget) + (if handed && !result.notSent then 1 else 0)
      ensures connectorBudget <= MAX_CONNECTOR_CALLS
    {
      var connector := cfg.connectorRouter && env.isConnectorTool(call.name);
      handed := false;
      if connector && connectorBudget >= MAX_CONNECTOR_CALLS {
        result := BudgetExhausted(call);
      } else {
        if connector {
          connectorCalls := connectorCalls + 1;
          handed := true;
        }
        var answer := env.tool(|log|);
        result := ToolResult(call.id, answer.content, answer.isError, answer.notSent);
        if connector && !result.notSent {
          connectorBudget := connectorBudget + 1;
        }
      }
    }

    /** One tool call in the totals and the per-tool statistics. */
    method Tabulate(call: ToolCall, result: ToolResult, outcome: string)
      modifies this`breakdown, this`toolCalls, this`toolBytes
      ensures Kept() == old(Kept()).(toolCalls := old(toolCalls) + 1, toolBytes := old(toolBytes) + |result.content|,
                                     breakdown := RecordIn(old(breakdown), call.name, result, outcome))
    {
      toolCalls := toolCalls + 1;
      toolBytes := toolBytes + |result.content|;
      breakdown := RecordIn(breakdown, call.name, result, outcome);
    }

    /** The call is tabulated and recorded. The connector counters have moved already. */
    method EnterTool(call: ToolCall, handed: bool, result: ToolResult, outcome: string)
      requires Recorded() && Flags() && Fits(book, Tool(call, handed, result, outcome), |log|)
      requires Kept() == book.tally.Owed().(
                 connectorCalls := book.tally.handed + if handed then 1 else 0,
                 connectorBudget := book.tally.sent + if handed && !result.notSent then 1 else 0)
      requires book.tally.retries <= 1 && connectorBudget <= MAX_CONNECTOR_CALLS
      modifies this`log, this`book, this`books, this`breakdown, this`toolCalls, this`toolBytes
      ensures log == old(log) + [Tool(call, handed, result, outcome)]
      ensures Books() && book == Enter(old(book), Tool(call, handed, result, outcome))
    {
      Tabulate(call, result, outcome);
      Note(Tool(call, handed, result, outcome));
    }

    /** The next call of the answer: made or refused, its result handed back as it came,
        entered once in the totals. */
    method RunTool(call: ToolCall) returns (result: ToolResult)
      requires Books()
      requires |book.story.ran| < |book.story.asked| && call == book.story.asked[|book.story.ran|]
      modifies this`log, this`book, this`books, this`breakdown, this`connectorCalls, this`connectorBudget,
               this`toolCalls, this`toolBytes
      ensures Books() && book.trail == old(book.trail)
      ensures result.callId == call.id
      ensures log == old(log) + [ToolEvent(call, old(connectorBudget), |old(log)|)]
      ensures result == ToolEvent(call, old(connectorBudget), |old(log)|).result
      ensures SameButTools(old(book.tally), book.tally, 1)
      ensures book.story == Tell(old(book.story), ToolEvent(call, old(connectorBudget), |old(log)|))
    {
      var handed;
      result, handed := Execute(call);
      EnterTool(call, handed, result, env.classify(result));
    }

    /** The event records this call and this result, and that is what came back for it. */
    ghost predicate RanAs(call: ToolCall, result: ToolResult, e: Event, at: nat) {
      var connector := cfg.connectorRouter && env.isConnectorTool(call.name);
      && e.Tool? && e.call == call && e.result == result && e.outcome == env.classify(result)
      && (e.handed ==> connector)
      && (connector && !e.handed ==> result == BudgetExhausted(call))
      && (!connector || e.handed ==>
            var a := env.tool(at);
            result == ToolResult(call.id, a.content, a.isError, a.notSent))
    }

    /** Runs the calls of one answer in order. The log gains one event a call, holding the
        call and the result handed back: the outside world's answer, or the budget's refusal. */
    method RunTools(calls: seq<ToolCall>) returns (results: seq<ToolResult>)
      requires Books() && book.story.asked == calls && book.story.ran == [] && book.story.got == []
      modifies this`log, this`book, this`books, this`breakdown, this`connectorCalls, this`connectorBudget,
               this`toolCalls, this`toolBytes
      ensures Books() && book.trail == old(book.trail)
      ensures AnswersInOrder(calls, results)
      ensures SameButTools(old(book.tally), book.tally, |calls|)
      ensures book.story == old(book.story).(ran := calls, got := results, fitted := book.story.fitted)
      ensures |log| == |old(log)| + |calls| && old(log) <= log
      ensures forall i | 0 <= i < |calls| :: RanAs(calls[i], results[i], log[|old(log)| + i], |old(log)| + i)
    {
      results := [];
      for i := 0 to |calls|
        invariant |results| == i
        invariant forall k | 0 <= k < i :: results[k].callId == calls[k].id
        invariant Books() && book.trail == old(book.trail)
        invariant SameButTools(old(book.tally), book.tally, i)
        invariant book.story == old(book.story).(ran := calls[..i], got := results, fitted := book.story.fitted)
        invariant |log| == |old(log)| + i && old(log) <= log
        invariant forall k | 0 <= k < i ::
                    RanAs(calls[k], results[k], log[|old(log)| + k], |old(log)| + k)
      {
        ghost var was := log;
        var result := RunTool(calls[i]);
        results := results + [result];
        assert calls[..i + 1] == calls[..i] + [calls[i]];
        forall k | 0 <= k <= i ensures RanAs(calls[k], results[k], log[|old(log)| + k], |old(log)| + k) {
          if k < i { assert log[|old(log)| + k] == was[|old(log)| + k]; }
        }
      }
      assert calls[..|calls|] == calls;
    }

    // ---- exits ----

    /** The log ends in a failed call, and the failure and the client say which exit that is. */
    predicate FailedFor(log: seq<Event>, reason: Reason) {
      && FailedLast(log)
      && var last := log[|log| - 1];
         if reason.Canceled? then !last.retry && env.clientGone(|log|)
         else last.retry ||
              (!env.clientGone(|log|) && !(last.answer.recoverable && cfg.FallbackUsable() && !last.slot.Fallback?))
    }

    /** When each exit is taken. */
    ghost predicate MayEnd(reason: Reason)
      reads this
    {
      match reason
      case Done => book.tally.answered
      case Canceled => FailedFor(log, reason)
      case Error => FailedFor(log, reason)
      case MaxRounds => book.tally.closes == 1
      case Panicked => false
    }

    /** A finished turn ends in one persist of the transcript and one finish, for a reason. */
    ghost predicate ClosedProperly(reason: Reason)
      reads this
    {
      && book.tally.persists == 1 && book.tally.finishes == 1 && |log| >= 2
      && log[|log| - 2] == Persist(book.story.ms) && log[|log| - 1] == Finish(reason)
      && Carries()
      && match reason
         case Done => book.tally.answered
         case Canceled => FailedFor(log[..|log| - 2], reason)
         case Error => FailedFor(log[..|log| - 2], reason)
         case MaxRounds => book.tally.closes == 1
         case Panicked => false
    }

    /** A panicked turn stopped at the compaction that panicked: nothing was persisted, nothing finished. */
    ghost predicate StoppedDead()
      reads this
    {
      book.tally.Running() && log != [] && CompactsTurns(log[|log| - 1])
    }

    /** How a turn is over. */
    ghost predicate Ended(reason: Reason)
      reads this
    {
      && Books() && (reason.Panicked? <==> Crashed())
      && if reason.Panicked? then StoppedDead() else ClosedProperly(reason)
    }

    /** Every exit but a panic: the transcript is persisted, then the session is closed. */
    method Exit(final: seq<Message>, reason: Reason)
      requires Books() && book.tally.Running() && !Crashed() && Carries()
      requires final == book.story.ms && book.story.asked == []
      requires MayEnd(reason)
      modifies this`log, this`book, this`books
      ensures Ended(reason)
      ensures log == old(log) + [Persist(final), Finish(reason)]
      ensures book.tally == old(book.tally).(persists := 1, finishes := 1)
    {
      Note(Persist(final));
      Note(Finish(reason));
      assert log[..|log| - 2] == old(log);
    }

    /** The events that end an answered turn. */
    function Closing(final: seq<Message>, slot: Slot, input: int, at: nat): seq<Event> {
      if cfg.autoCompact && input >= cfg.compactTrigger then
        [Compaction(slot, false, final, Compacting(final, at))] +
        (if Compacting(final, at).CompactPanicked? then []
         else [Persist(AfterCompaction(final, at)), Finish(Done)])
      else [Persist(final), Finish(Done)]
    }

    /** Ends an answered turn; `slot` is the provider the round started on. */
    method CompleteTurn(final: seq<Message>, slot: Slot) returns (reason: Reason)
      requires InRound() && final == book.story.ms && lastRoundInput == book.story.input && book.story.asked == []
      requires book.tally.answered && book.trail.lastAsked == Some(slot)
      modifies this`log, this`book, this`books, this`sessionUsage
      ensures Ended(reason) && (reason.Done? || reason.Panicked?)
      ensures log == old(log) + Closing(final, slot, lastRoundInput, |old(log)|)
      ensures |log| > |old(log)| + 1 && log[|old(log)|].Compaction? <==>
              && cfg.autoCompact && lastRoundInput >= cfg.compactTrigger && !reason.Panicked?
      ensures SameCalls(old(book.tally), book.tally)
    {
      var out := final;
      if cfg.autoCompact && lastRoundInput >= cfg.compactTrigger {
        var crashed;
        out, crashed := TryCompact(final, slot, false);
        if crashed {
          return Panicked;
        }
      }
      Exit(out, Done);
      reason := Done;
    }

    // ---- rounds ----

    /** The first call out of the cluster moves the rest of the conversation
        to the escalation model. */
    method MaybeEscalate(calls: seq<ToolCall>, results: seq<ToolResult>, round: nat)
      requires escalated ==> cfg.escalation
      modifies this`escalated, this`escalationRound
      ensures escalated == (old(escalated) || Leaves(calls, results)) && (escalated ==> cfg.escalation)
      ensures escalated && !old(escalated) <==>
              && cfg.escalation && !old(escalated)
              && exists i :: 0 <= i < |calls| && env.leavesCluster(calls[i], ResultFor(results, calls[i].id))
      ensures escalated && !old(escalated) ==> escalationRound == round + 1
      ensures escalated == old(escalated) ==> escalationRound == old(escalationRound)
    {
      if cfg.escalation && !escalated {
        for i := 0 to |calls|
          invariant !escalated && escalationRound == old(escalationRound)
          invariant forall k | 0 <= k < i :: !env.leavesCluster(calls[k], ResultFor(results, calls[k].id))
        {
          if env.leavesCluster(calls[i], ResultFor(results, calls[i].id)) {
            escalated, escalationRound := true, round + 1;
            break;
          }
        }
      }
    }

    /** The compaction, if any, in front of a round. */
    function Fitting(): seq<Event>
      reads this
    {
      if Full(messages, lastRoundInput) then [Compaction(ActiveProvider(), true, messages, Compacting(messages, |log|))]
      else []
    }

    function Fitted(): seq<Message>
      reads this
    {
      if Full(messages, lastRoundInput) then AfterCompaction(messages, |log|) else messages
    }

    /** Compacts the transcript for the model that serves next. */
    method CompactPrompt() returns (crashed: bool)
      requires Ready() && Full(messages, lastRoundInput)
      modifies this`log, this`book, this`books, this`sessionUsage, this`messages
      ensures crashed ==> Ended(Panicked)
      ensures !crashed ==> Open() && book.story.fitted
      ensures crashed <==> cfg.preserveTurns < 1 && CountTurns(old(messages)) > 0
      ensures var c := Compacting(old(messages), |old(log)|);
              log == old(log) + [Compaction(old(ActiveProvider()), true, old(messages), c)]
      ensures messages == AfterCompaction(old(messages), |old(log)|)
      ensures book.tally == old(book.tally).(session := book.tally.session, folds := book.tally.folds)
    {
      var compacted;
      compacted, crashed := TryCompact(messages, ActiveProvider(), true);
      messages := compacted;
    }

    /** The compaction in front of a round whose prompt got too big. */
    method FitPrompt() returns (crashed: bool)
      requires Ready()
      modifies this`log, this`book, this`books, this`sessionUsage, this`messages
      ensures crashed ==> Ended(Panicked)
      ensures !crashed ==> Open() && (!book.story.fitted ==> !Full(messages, lastRoundInput))
      ensures crashed <==>
              old(Full(messages, lastRoundInput)) && cfg.preserveTurns < 1 && CountTurns(old(messages)) > 0
      ensures log == old(log) + old(Fitting()) && messages == old(Fitted())
      ensures log == old(log) <==>
              !(cfg.autoCompact && (|| env.approxTokens(old(messages)) >= cfg.compactTrigger
                                    || old(lastRoundInput) >= cfg.compactTrigger))
      ensures book.tally == old(book.tally).(session := book.tally.session, folds := book.tally.folds)
    {
      crashed := false;
      if cfg.autoCompact {
        var approx := env.approxTokens(messages);
        var context := if approx > lastRoundInput then approx else lastRoundInput;
        if context >= cfg.compactTrigger {
          crashed := CompactPrompt();
        }
      }
    }

    /** The answer called no tool: it is the turn's answer. */
    method AnswerTurn(answer: ModelAnswer, slot: Slot) returns (reason: Reason)
      requires answer.Answered? && answer.calls == [] && InRound() && book.tally.answered
      requires book.story.ms == WithAnswer(messages, Said(answer.text, answer.cut))
      requires lastRoundInput == book.story.input && book.trail.lastAsked == Some(slot) && book.story.asked == []
      modifies this`log, this`book, this`books, this`sessionUsage
      ensures Ended(reason) && (reason.Done? || reason.Panicked?)
      ensures log == old(log) +
                     Closing(WithAnswer(messages, Said(answer.text, answer.cut)), slot, lastRoundInput, |old(log)|)
      ensures SameCalls(old(book.tally), book.tally)
    {
      var text := answer.text;
      if answer.cut {
        text := text + TOKEN_LIMIT_NOTE;
      }
      var final := messages;
      if text != "" {
        final := messages + [AssistantText(text)];
      }
      reason := CompleteTurn(final, slot);
    }

    /** The answer called tools: run them, append both messages. */
    method ToolRound(text: string, calls: seq<ToolCall>) returns (results: seq<ToolResult>)
      requires InRound() && calls != [] && messages == book.story.ms
      requires book.story.text == text && book.story.asked == calls && book.story.ran == [] && book.story.got == []
      modifies this`log, this`book, this`books, this`breakdown, this`connectorCalls, this`connectorBudget,
               this`toolCalls, this`toolBytes, this`messages
      ensures InRound() && messages == book.story.ms && !book.story.fitted
      ensures AnswersInOrder(calls, results)
      ensures messages == old(messages) + [AssistantCalls(text, calls), Results(results)]
      ensures book.trail == old(book.trail).(left := old(book.trail).left || Leaves(calls, results))
      ensures SameButTools(old(book.tally), book.tally, |calls|)
      ensures book.story.input == old(book.story.input) && book.story.asked == []
    {
      messages := messages + [AssistantCalls(text, calls)];
      results := RunTools(calls);
      Observe(calls, results);
      messages := messages + [Results(results)];
      AppendRound(old(messages), text, calls, results);
      assert messages == old(messages) + [AssistantCalls(text, calls), Results(results)];
    }

    /** For the log alone: the round's calls and results, and whether one left the cluster. */
    method Observe(calls: seq<ToolCall>, results: seq<ToolResult>)
      requires Books() && calls != [] && book.story.asked == book.story.ran == calls && book.story.got == results
      modifies this`log, this`book, this`books
      ensures Books() && log == old(log) + [ToolsRan(calls, results, Leaves(calls, results))]
      ensures book.tally == old(book.tally)
      ensures book.trail == old(book.trail).(left := old(book.trail).left || Leaves(calls, results))
      ensures book.story == Tell(old(book.story), ToolsRan(calls, results, Leaves(calls, results)))
    {
      Note(ToolsRan(calls, results, Leaves(calls, results)));
    }

    /** A switch card ends the turn; otherwise a call that left the cluster is acted on. */
    method AfterTools(text: string, calls: seq<ToolCall>, results: seq<ToolResult>, active: Slot, round: nat)
      returns (over: bool, reason: Reason)
      requires InRound() && book.tally.answered && book.trail.lastAsked == Some(active)
      requires messages == book.story.ms && lastRoundInput == book.story.input && !book.story.fitted
      requires book.story.asked == []
      requires book.trail.left == (escalated || Leaves(calls, results))
      modifies this`log, this`book, this`books, this`sessionUsage, this`escalated, this`escalationRound
      ensures SameCalls(old(book.tally), book.tally)
      ensures over <==> env.switchEndsTurn(text, calls, results)
      ensures if over then Ended(reason) && (reason.Done? || reason.Panicked?) else Ready()
      ensures over ==> log == old(log) + Closing(messages, active, lastRoundInput, |old(log)|)
    {
      over := env.switchEndsTurn(text, calls, results);
      reason := Done;
      if over {
        reason := CompleteTurn(messages, active);
      } else {
        MaybeEscalate(calls, results, round);
      }
    }

    /** What a round does with its answer: end the turn, or run the tools and go on. */
    method UseAnswer(answer: ModelAnswer, active: Slot, round: nat) returns (over: bool, reason: Reason)
      requires answer.Answered? && Replied(answer) && book.trail.lastAsked == Some(active)
      modifies this`log, this`book, this`books, this`sessionUsage, this`breakdown, this`connectorCalls,
               this`connectorBudget, this`toolCalls, this`toolBytes, this`messages, this`lastRoundInput,
               this`escalated, this`escalationRound
      ensures SameCalls(old(book.tally), book.tally)
      ensures if over then Ended(reason) && (reason.Done? || reason.Panicked?) else Ready()
      ensures lastRoundInput == answer.usage.input + answer.usage.cacheRead + answer.usage.cacheCreation
      ensures answer.calls == [] ==>
                over && log == old(log) + LastWords(old(messages), answer, active, |old(log)|)
    {
      lastRoundInput := FullInput(answer.usage);
      if answer.calls == [] {
        reason := AnswerTurn(answer, active);
        return true, reason;
      }
      var results := ToolRound(answer.text, answer.calls);
      over, reason := AfterTools(answer.text, answer.calls, results, active, round);
    }

    /** The events that follow an answer without tool calls. */
    function LastWords(ms: seq<Message>, answer: ModelAnswer, slot: Slot, at: nat): seq<Event>
      requires answer.Answered?
    {
      Closing(WithAnswer(ms, Said(answer.text, answer.cut)), slot, FullInput(answer.usage), at)
    }

    /** The log after a question, asked at its end, that was answered in words alone. */
    function AfterWords(before: seq<Event>, ms: seq<Message>, slot: Slot): seq<Event>
      requires AnswerTo(|before|, slot, true).Answered?
    {
      var asked := before + Asked(|before|, slot, true);
      asked + LastWords(ms, AnswerTo(|before|, slot, true), slot, |asked|)
    }

    /** As many rounds were used as questions were asked in them. */
    ghost predicate RoundsCounted()
      reads this
    {
      roundsUsed == book.tally.calls - book.tally.retries - book.tally.closes
    }

    /** Asks the active model and uses its answer. */
    method AskAndUse(active: Slot, round: nat) returns (over: bool, reason: Reason)
      requires Open() && active == ActiveProvider() && (!book.story.fitted ==> !Full(messages, lastRoundInput))
      requires book.tally.calls == round + book.tally.retries && book.tally.closes == 0
      modifies this`log, this`book, this`books, this`sessionUsage, this`escalatedUsage, this`breakdown,
               this`connectorCalls, this`connectorBudget, this`toolCalls, this`toolBytes, this`messages,
               this`lastRoundInput, this`escalated, this`escalationRound, this`usedFallback, this`fallbackTried
      ensures over ==> Ended(reason) && !reason.MaxRounds?
      ensures !over ==> Ready()
      ensures book.tally.calls == round + 1 + book.tally.retries && book.tally.closes == 0
      ensures var at := |old(log)|; var answer := AnswerTo(at, active, true);
              && (answer.Failed? ==>
                    && over && reason == (if env.clientGone(at + 1) then Canceled else Error)
                    && log == old(log) + Asked(at, active, true) + [Persist(old(messages)), Finish(reason)])
              && (answer.Answered? && answer.calls == [] ==>
                    over && log == AfterWords(old(log), old(messages), active))
    {
      var answer, gone := Ask(true);
      if answer.Failed? {
        FailedAskMayEnd(old(log), active);
        reason := if gone then Canceled else Error;
        Exit(messages, reason);
        return true, reason;
      }
      over, reason := UseAnswer(answer, active, round);
    }

    /** The next round compacts nothing that panics and is answered in words alone. */
    predicate EndsAtOnce()
      reads this
    {
      var answer := AnswerTo(|log + Fitting()|, ActiveProvider(), true);
      && !(Full(messages, lastRoundInput) && cfg.preserveTurns < 1 && CountTurns(messages) > 0)
      && answer.Answered? && answer.calls == []
    }

    /** The log such a round leaves. */
    function LastLog(): seq<Event>
      requires EndsAtOnce()
      reads this
    {
      AfterWords(log + Fitting(), Fitted(), ActiveProvider())
    }

    /** One round: compact if the prompt is too big, ask, use the answer.
        `over` when the turn ended here. */
    method Round(round: nat) returns (over: bool, reason: Reason)
      requires Ready() && roundsUsed == round
      requires book.tally.calls == round + book.tally.retries && book.tally.closes == 0
      modifies this
      ensures over ==> Ended(reason) && !reason.MaxRounds?
      ensures !over ==> Ready()
      ensures book.tally.calls <= round + 1 + book.tally.retries && book.tally.closes == 0
      ensures !over || !reason.Panicked? ==> book.tally.calls == round + 1 + book.tally.retries
      ensures RoundsCounted()
      ensures old(EndsAtOnce()) ==> over && log == old(LastLog())
    {
      var active := ActiveProvider();
      var crashed := FitPrompt();
      if crashed {
        return true, Panicked;
      }
      roundsUsed := round + 1;
      over, reason := AskAndUse(active, round);
    }

    /** The rounds ran out: one last question without tools, whatever comes of it. */
    method Close()
      requires Ready() && book.tally.closes == 0
      modifies this`log, this`book, this`books, this`usedFallback, this`fallbackTried, this`sessionUsage,
               this`escalatedUsage
      ensures Ended(MaxRounds) && book.tally.closes == 1
      ensures book.tally.calls - book.tally.retries == old(book.tally).calls - old(book.tally).retries + 1
      ensures var answer := AnswerTo(|old(log)|, old(ActiveProvider()), false);
              log == old(log) + Asked(|old(log)|, old(ActiveProvider()), false) +
                     [Persist(if answer.Answered? && answer.text != "" then messages + [AssistantText(answer.text)]
                              else messages),
                      Finish(MaxRounds)]
    {
      var answer, _ := Ask(false);
      var final := messages;
      if answer.Answered? && answer.text != "" {
        final := messages + [AssistantText(answer.text)];
      }
      Exit(final, MaxRounds);
    }

    /** The whole turn. */
    method Run() returns (reason: Reason)
      requires Ready() && book == First() && roundsUsed == 0
      modifies this
      ensures Ended(reason)
      ensures book.tally.calls <= cfg.Rounds() + 2
      ensures book.tally.closes == if reason.MaxRounds? then 1 else 0
      ensures reason.MaxRounds? ==> book.tally.calls - book.tally.retries == cfg.Rounds() + 1
      ensures RoundsCounted()
      ensures old(EndsAtOnce()) ==> log == old(LastLog())
    {
      for round := 0 to cfg.Rounds()
        invariant Ready() && roundsUsed == round
        invariant round > 0 ==> !old(EndsAtOnce())
        invariant round == 0 && old(EndsAtOnce()) ==> EndsAtOnce() && LastLog() == old(LastLog())
        invariant book.tally.calls == round + book.tally.retries && book.tally.closes == 0
      {
        var over, why := Round(round);
        if over {
          return why;
        }
      }
      Close();
      reason := MaxRounds;
    }

    // ---- what a finished turn's log says ----

    lemma {:induction false} BookAt(n: nat)
      requires Recorded() && n <= |log|
      ensures books[n] == BookOf(First(), log[..n])
    {
      if n > 0 {
        BookAt(n - 1);
        assert log[..n][..n - 1] == log[..n - 1];
        assert Fits(books[n - 1], log[n - 1], n - 1) && books[n - 1 + 1] == Enter(books[n - 1], log[n - 1]);
      }
    }

    /** Every event is what the outside world answered then, about what the log had said. */
    ghost predicate TrueToTheWorld()
      reads this
    {
      forall j | 0 <= j < |log| :: Fits(BookOf(First(), log[..j]), log[j], j)
    }

    lemma RecordedIsTrue()
      requires Recorded()
      ensures TrueToTheWorld() && book == BookOf(First(), log)
    {
      forall j | 0 <= j < |log| ensures Fits(BookOf(First(), log[..j]), log[j], j) {
        BookAt(j);
        assert Fits(books[j], log[j], j);
      }
      BookAt(|log|);
      assert log[..|log|] == log;
    }

    /** Each tool call came back as the world answered it or as the budget refused it, ... */
    ghost predicate ToolsAnswerTheWorld()
      reads this
    {
      forall j | 0 <= j < |log| && log[j].Tool? ::
        && RanAs(log[j].call, log[j].result, log[j], j)
        && (log[j].handed <==> && cfg.connectorRouter && env.isConnectorTool(log[j].call.name)
                               && TallyOf(log[..j]).sent < 12)
    }

    /** ... and each tool round ran exactly the calls of the answer in front of it, in
        order, and ended with exactly their results. */
    ghost predicate RoundsHoldTheirTools()
      reads this
    {
      forall j | 0 <= j < |log| && log[j].ToolsRan? :: RoundAt(log, j)
    }

    lemma ToolsAreTrue()
      requires TrueToTheWorld()
      ensures ToolsAnswerTheWorld() && RoundsHoldTheirTools()
    {
      forall j | 0 <= j < |log| && log[j].Tool?
        ensures RanAs(log[j].call, log[j].result, log[j], j)
        ensures log[j] == ToolEvent(log[j].call, TallyOf(log[..j]).sent, j)
      {
        assert Fits(BookOf(First(), log[..j]), log[j], j);
        BookTally(First(), log[..j]);
      }
      forall j | 0 <= j < |log| && log[j].ToolsRan? ensures RoundAt(log, j) {
        RoundIsTold(j);
      }
    }

    /** What a round adds to the transcript. */
    lemma RoundIsTold(j: nat)
      requires TrueToTheWorld() && j < |log| && log[j].ToolsRan?
      ensures RoundAt(log, j)
      ensures var ms := BookOf(First(), log[..j]).story.ms; var n := |log[j].calls|;
              BookOf(First(), log[..j + 1]).story.ms ==
              ms + [AssistantCalls(log[j - n - 1].answer.text, log[j].calls), Results(log[j].results)]
    {
      var b := BookOf(First(), log[..j]);
      assert Fits(b, log[j], j);
      StoryEndsInTools(First(), log[..j]);
      RoundFromStory(log, j, b.story);
      BookStep(First(), log, j);
    }

    /** Every tool call the model asked for is made. */
    ghost predicate EveryCallIsMade()
      reads this
    {
      forall j | 0 <= j < |log| && AsksTools(log[j]) :: CallsMade(log, j)
    }

    lemma FitsGoesOn(b: Book, e: Event, at: nat)
      requires Fits(b, e, at)
      ensures GoesOn(b.story, e)
    {
    }

    lemma LogGoesOn()
      requires Recorded()
      ensures AlwaysGoesOn(log, StoriesOf(books))
    {
      forall n | 0 <= n < |log|
        ensures GoesOn(books[n].story, log[n]) && books[n + 1].story == Tell(books[n].story, log[n])
      {
        assert Fits(books[n], log[n], n) && books[n + 1] == Enter(books[n], log[n]);
        FitsGoesOn(books[n], log[n], n);
      }
    }

    lemma AskedIsMade()
      requires AlwaysGoesOn(log, StoriesOf(books)) && RoundsHoldTheirTools()
      requires log != [] && (log[|log| - 1].Finish? || log[|log| - 1].Compaction?)
      ensures EveryCallIsMade()
    {
      AllCallsAreMade(log, StoriesOf(books));
    }

    /** Whatever the model said last and the tools answered is in the transcript, in its
        own words, unless a compaction was applied later. */
    ghost predicate Tells(ms: seq<Message>)
      reads this
    {
      && (forall j | 0 <= j < |log| && log[j].ToolsRan? && KeptFrom(log, j) && RoundAt(log, j) ::
            HasRound(ms, log[j - |log[j].calls| - 1].answer.text, log[j].calls, log[j].results))
      && (forall j | 0 <= j < |log| && LastWordsAt(log, j) && KeptFrom(log, j) ::
            AssistantText(if log[j].tools && log[j].answer.cut then log[j].answer.text + TOKEN_LIMIT_NOTE
                          else log[j].answer.text) in ms)
    }

    lemma WordsStay(j: nat)
      requires j < |log| && LastWordsAt(log, j) && KeptFrom(log, j)
      ensures AssistantText(if log[j].tools && log[j].answer.cut then log[j].answer.text + TOKEN_LIMIT_NOTE
                            else log[j].answer.text) in BookOf(First(), log).story.ms
    {
      StoryGrows(First(), log, j + 1);
      assert log[..j + 1][..j] == log[..j];
      var ms, i := BookOf(First(), log).story.ms, |BookOf(First(), log[..j]).story.ms|;
      assert BookOf(First(), log[..j + 1]).story == Tell(BookOf(First(), log[..j]).story, log[j]);
      assert ms[i] == BookOf(First(), log[..j + 1]).story.ms[i];
    }

    lemma TranscriptTells()
      requires TrueToTheWorld()
      ensures Tells(BookOf(First(), log).story.ms)
    {
      forall j | 0 <= j < |log| && log[j].ToolsRan? && KeptFrom(log, j) && RoundAt(log, j)
        ensures HasRound(BookOf(First(), log).story.ms, log[j - |log[j].calls| - 1].answer.text,
                         log[j].calls, log[j].results)
      {
        RoundIsTold(j);
        RoundStays(First(), log, j, log[j - |log[j].calls| - 1].answer.text);
      }
      forall j | 0 <= j < |log| && LastWordsAt(log, j) && KeptFrom(log, j)
        ensures AssistantText(if log[j].tools && log[j].answer.cut then log[j].answer.text + TOKEN_LIMIT_NOTE
                              else log[j].answer.text) in BookOf(First(), log).story.ms
      {
        WordsStay(j);
      }
    }

    /** The turn ends in one persist of a transcript that tells what was said, and one finish. */
    ghost predicate Persisted(reason: Reason)
      reads this
    {
      exists final ::
        && |log| >= 2 && log[|log| - 2] == Persist(final) && log[|log| - 1] == Finish(reason)
        && TallyOf(log).persists == 1 && TallyOf(log).finishes == 1
        && (Paired(request) ==> Paired(final))
        && (TallyOf(log).folds == 0 ==> request <= final)
        && Tells(final)
        && match reason
           case Done => TallyOf(log).answered
           case Canceled => FailedFor(log[..|log| - 2], reason)
           case Error => FailedFor(log[..|log| - 2], reason)
           case MaxRounds => TallyOf(log).closes == 1
           case Panicked => false
    }

    lemma ClosedIsPersisted(reason: Reason)
      requires Recorded() && ClosedProperly(reason)
      ensures Persisted(reason)
    {
      RecordedIsTrue();
      BookTally(First(), log);
      TranscriptTells();
      var final := book.story.ms;
      assert log[|log| - 2] == Persist(final);
    }
  }

  /** What a turn owes its caller, whatever the models, the tools and the client did. */
  ghost predicate TurnKeptItsWord(turn: Turn, reason: Reason)
    reads turn
  {
    var t := TallyOf(turn.log);
    // the log is what the models, the tools and the summarizer answered, asked about the transcript as it stood
    && turn.TrueToTheWorld() && turn.ToolsAnswerTheWorld() && turn.RoundsHoldTheirTools() && turn.EveryCallIsMade()
    // the two ledgers are those of the calls that were answered and the compactions that were applied
    && turn.sessionUsage == t.session
    && turn.escalatedUsage == t.escalated
    // bounded, with the fallback tried at most once
    && t.calls <= (if turn.cfg.maxRounds < 2 then 20 else turn.cfg.maxRounds) + 2
    && (reason.MaxRounds? ==> t.calls - t.retries == (if turn.cfg.maxRounds < 2 then 20 else turn.cfg.maxRounds) + 1)
    && t.retries <= 1 && (turn.fallbackTried <==> t.retries == 1)
    && t.closes == (if reason.MaxRounds? then 1 else 0)
    && turn.roundsUsed == t.calls - t.retries - t.closes
    // every call and compaction goes to the one model the turn's history says, and there is no way back
    && Routed(turn.beganEscalated, turn.log)
    && FallbackSticks(turn.log)
    && EscalationIsOneWay(turn.log)
    // tools
    && t.sent <= 12
    && turn.toolCalls == t.tools && turn.toolBytes == t.bytes && turn.connectorCalls == t.handed
    && (forall n :: StatsIn(turn.breakdown, n) == StatsOf(turn.log, n))
    && AddsUp(turn.breakdown, turn.toolCalls, turn.toolBytes)
    // it panics exactly when a compaction was told to keep no turn of a transcript that has one;
    // short of that, one persist of the transcript, then one finish
    && (reason.Panicked? <==>
          turn.cfg.preserveTurns < 1 && exists i :: 0 <= i < |turn.log| && CompactsTurns(turn.log[i]))
    && (if reason.Panicked? then t.Running() && turn.log != [] && CompactsTurns(turn.log[|turn.log| - 1])
        else turn.Persisted(reason))
  }

  lemma RunIsRouted(turn: Turn)
    requires turn.Books()
    ensures Routed(turn.beganEscalated, turn.log) && FallbackSticks(turn.log) && EscalationIsOneWay(turn.log)
    ensures turn.book.trail.compacted > 0 <==> exists i :: 0 <= i < |turn.log| && CompactsTurns(turn.log[i])
  {
    turn.RecordedIsTrue();
    NotStrayedIsRouted(turn.First(), turn.log);
    RoutedSticks(turn.beganEscalated, turn.log);
    RoutedOneWay(turn.beganEscalated, turn.log);
    SawCompaction(turn.First(), turn.log);
  }

  /** The handler: any request, any configuration, any outside world. */
  method HandleCopilotChat(cfg: Config, env: Env, request: seq<Message>, startsEscalated: bool, lastInput: int)
    returns (turn: Turn, reason: Reason)
    ensures fresh(turn) && turn.cfg == cfg && turn.env == env && turn.request == request
    ensures turn.beganEscalated == (cfg.escalation && startsEscalated) && turn.firstInput == lastInput
    ensures TurnKeptItsWord(turn, reason)
  {
    turn := new Turn(cfg, env, request, startsEscalated, lastInput);
    reason := turn.Run();
    RunIsRouted(turn);
    turn.RecordedIsTrue();
    turn.ToolsAreTrue();
    turn.LogGoesOn();
    turn.AskedIsMade();
    BookTally(turn.First(), turn.log);
    if !reason.Panicked? {
      turn.ClosedIsPersisted(reason);
    }
    BreakdownAddsUp(turn.log);
    forall n ensures StatsIn(turn.breakdown, n) == StatsOf(turn.log, n) {
      BreakdownAgrees(turn.log, n);
    }
  }

  /** The fallback answers the only round, which had asked the primary first: the
      compaction after the answer still goes to the primary. */
  method StaleCompaction() returns (turn: Turn)
    ensures |turn.log| == 5
    ensures turn.log[0].Call? && turn.log[0].slot == Primary && turn.log[0].answer.Failed?
    ensures FallbackAnswered(turn.log[1])
    ensures turn.log[2].Compaction? && turn.log[2].slot == Primary
    ensures turn.log[4] == Finish(Done)
  {
    var usage := ZERO_USAGE.(input := 100);
    var answers := (at: nat) => if at == 0 then Failed(true) else Answered("fine", [], usage, false);
    var env := Env(answers, at => false, at => NoSummary, at => ToolAnswer("", false, false), ms => 0, name => false,
                   result => "ok", (call, content) => false, (text, calls, results) => false);
    var cfg := Config(20, true, true, false, false, true, 100, 3);
    turn := new Turn(cfg, env, [Message(User, "why?", [], [])], false, 0);
    assert turn.Fitting() == [];
    assert turn.Retried(0, Primary, true);
    assert turn.EndsAtOnce();
    var _ := turn.Run();
  }
}
