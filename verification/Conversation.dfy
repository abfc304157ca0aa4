/** A Kobi conversation and what compaction does to it.
    An assistant message may call tools; the very next message then carries
    one result per call. Providers refuse a transcript that breaks this. */
module Conversation {
  import opened Options
  import opened Filters

  datatype Role = User | Assistant

  datatype ToolCall = ToolCall(id: string, name: string, input: string)

  /** notSent marks a connector call KubeBolt refused before it left. */
  datatype ToolResult = ToolResult(callId: string, content: string, isError: bool, notSent: bool)

  datatype Message = Message(role: Role, content: string, calls: seq<ToolCall>, results: seq<ToolResult>)

  function AssistantText(text: string): Message { Message(Assistant, text, [], []) }
  function AssistantCalls(text: string, calls: seq<ToolCall>): Message { Message(Assistant, text, calls, []) }
  function Results(results: seq<ToolResult>): Message { Message(User, "", [], results) }

  /** results answers calls one for one, in call order. */
  predicate AnswersInOrder(calls: seq<ToolCall>, results: seq<ToolResult>) {
    |results| == |calls| && forall i | 0 <= i < |calls| :: results[i].callId == calls[i].id
  }

  /** The content of the first result for a call id. */
  function ResultFor(results: seq<ToolResult>, id: string): string {
    if results == [] then ""
    else if results[0].callId == id then results[0].content
    else ResultFor(results[1..], id)
  }

  /** Results in call order: the content found for a call is that of the first call with its id. */
  lemma {:induction false} ResultForFirst(calls: seq<ToolCall>, results: seq<ToolResult>, i: nat)
    requires AnswersInOrder(calls, results) && i < |calls|
    requires forall j | 0 <= j < i :: calls[j].id != calls[i].id
    ensures ResultFor(results, calls[i].id) == results[i].content
  {
    if i > 0 { ResultForFirst(calls[1..], results[1..], i - 1); }
  }

  lemma {:induction false} NoResultFor(results: seq<ToolResult>, id: string)
    requires forall r | r in results :: r.callId != id
    ensures ResultFor(results, id) == ""
  {
    if results != [] { NoResultFor(results[1..], id); }
  }

  /** Message i and its successor respect the call/result protocol: calls are
      answered at once, and no result comes without the calls it answers. */
  predicate PairedAt(ms: seq<Message>, i: nat)
    requires i < |ms|
  {
    && (ms[i].calls != [] ==>
          && ms[i].role.Assistant? && ms[i].results == []
          && i + 1 < |ms| && ms[i + 1].role.User? && ms[i + 1].calls == []
          && AnswersInOrder(ms[i].calls, ms[i + 1].results))
    && (ms[i].results != [] ==> 0 < i && ms[i - 1].calls != [])
  }

  predicate Paired(ms: seq<Message>) {
    forall i | 0 <= i < |ms| :: PairedAt(ms, i)
  }

  lemma AppendText(ms: seq<Message>, m: Message)
    requires Paired(ms) && m.calls == [] && m.results == []
    ensures Paired(ms + [m])
  {
    var out := ms + [m];
    forall i | 0 <= i < |out| ensures PairedAt(out, i) {
      if i < |ms| { assert PairedAt(ms, i); }
    }
  }

  /** One tool round: the calls and their results enter together. */
  lemma AppendRound(ms: seq<Message>, text: string, calls: seq<ToolCall>, results: seq<ToolResult>)
    requires calls != [] && AnswersInOrder(calls, results)
    ensures Paired(ms) ==> Paired(ms + [AssistantCalls(text, calls), Results(results)])
  {
    var out := ms + [AssistantCalls(text, calls), Results(results)];
    if Paired(ms) {
      forall i | 0 <= i < |out| ensures PairedAt(out, i) {
        if i < |ms| { assert PairedAt(ms, i); }
      }
    }
  }

  // ---- compaction ----

  /** An operator's own message: the start of a turn. */
  predicate StartsTurn(m: Message) { m.role.User? && m.results == [] && m.content != "" }

  function CountTurns(ms: seq<Message>): nat {
    if ms == [] then 0
    else CountTurns(ms[..|ms| - 1]) + if StartsTurn(ms[|ms| - 1]) then 1 else 0
  }

  /** Where the turns start, the last turn first. */
  function TurnStarts(ms: seq<Message>): (starts: seq<nat>)
    ensures |starts| == CountTurns(ms)
    ensures forall k | 0 <= k < |starts| :: starts[k] < |ms| && StartsTurn(ms[starts[k]])
  {
    if ms == [] then []
    else
      var last := |ms| - 1;
      var before := TurnStarts(ms[..last]);
      if StartsTurn(ms[last]) then [last] + before else before
  }

  lemma TurnStartsStep(ms: seq<Message>, i: nat, after: seq<nat>)
    requires i < |ms|
    ensures after + (if StartsTurn(ms[i]) then [i] else []) + TurnStarts(ms[..i]) == after + TurnStarts(ms[..i + 1])
  {
    assert ms[..i + 1][..i] == ms[..i];
    var rest := TurnStarts(ms[..i]);
    if StartsTurn(ms[i]) {
      assert TurnStarts(ms[..i + 1]) == [i] + rest;
      Associative(after, [i], rest);
    } else {
      assert after + [] == after;
    }
  }

  /** The loop that finds them, from the end. */
  method CollectTurnStarts(ms: seq<Message>) returns (starts: seq<nat>)
    ensures starts == TurnStarts(ms)
  {
    starts := [];
    assert ms[..|ms|] == ms;
    for i := |ms| downto 0
      invariant starts + TurnStarts(ms[..i]) == TurnStarts(ms)
    {
      TurnStartsStep(ms, i, starts);
      starts := starts + (if StartsTurn(ms[i]) then [i] else []);
    }
  }

  const MIN_BYTES_TO_STUB := 256

  function StubResult(r: ToolResult): ToolResult {
    if |r.content| < MIN_BYTES_TO_STUB then r
    else r.(content := "[tool result stubbed during compact]")
  }

  function StubResults(rs: seq<ToolResult>): seq<ToolResult> {
    seq(|rs|, i requires 0 <= i < |rs| => StubResult(rs[i]))
  }

  /** Shortens the bulky results before protectFrom; everything else stays. */
  function Stub(ms: seq<Message>, protectFrom: int): (out: seq<Message>)
    ensures |out| == |ms|
  {
    seq(|ms|, i requires 0 <= i < |ms| =>
      if i >= protectFrom then ms[i] else ms[i].(results := StubResults(ms[i].results)))
  }

  function CountBulky(rs: seq<ToolResult>): nat {
    if rs == [] then 0
    else CountBulky(rs[1..]) + if |rs[0].content| < MIN_BYTES_TO_STUB then 0 else 1
  }

  function CountStubbed(ms: seq<Message>, protectFrom: int): nat {
    if ms == [] || protectFrom <= 0 then 0
    else CountBulky(ms[0].results) + CountStubbed(ms[1..], protectFrom - 1)
  }

  // ---- the summary's text ----

  /** White space as Unicode lists it. */
  predicate IsSpace(c: char) {
    || '\t' <= c <= '\r' || c == ' '
    || c in "\U{85}\U{A0}\U{1680}\U{2028}\U{2029}\U{202F}\U{205F}\U{3000}" || '\U{2000}' <= c <= '\U{200A}'
  }

  predicate Blank(s: string) { s == "" || (IsSpace(s[0]) && Blank(s[1..])) }

  function TrimLeft(s: string): (t: string)
    ensures t == "" <==> Blank(s)
    ensures t != "" ==> !IsSpace(t[0])
  {
    if s != "" && IsSpace(s[0]) then TrimLeft(s[1..]) else s
  }

  function TrimRight(s: string): (t: string)
    ensures s != "" && !IsSpace(s[0]) ==> t != ""
  {
    if s != "" && IsSpace(s[|s| - 1]) then TrimRight(s[..|s| - 1]) else s
  }

  function TrimSpace(s: string): (t: string)
    ensures t == "" <==> Blank(s)
  {
    TrimRight(TrimLeft(s))
  }

  lemma {:induction false} TrimLeftCuts(s: string) returns (cut: string)
    ensures s == cut + TrimLeft(s) && forall c | c in cut :: IsSpace(c)
  {
    cut := "";
    if s != "" && IsSpace(s[0]) {
      cut := TrimLeftCuts(s[1..]);
      cut := [s[0]] + cut;
    }
  }

  lemma {:induction false} TrimRightCuts(s: string) returns (cut: string)
    ensures s == TrimRight(s) + cut && forall c | c in cut :: IsSpace(c)
    ensures TrimRight(s) != "" ==> !IsSpace(TrimRight(s)[|TrimRight(s)| - 1])
  {
    cut := "";
    if s != "" && IsSpace(s[|s| - 1]) {
      cut := TrimRightCuts(s[..|s| - 1]);
      cut := cut + [s[|s| - 1]];
    }
  }

  /** Trimming cuts white space off both ends, all of it and nothing else. */
  lemma TrimSpaceCuts(s: string) returns (front: string, back: string)
    ensures s == front + TrimSpace(s) + back
    ensures forall c | c in front + back :: IsSpace(c)
    ensures var t := TrimSpace(s); t != "" ==> !IsSpace(t[0]) && !IsSpace(t[|t| - 1])
  {
    front := TrimLeftCuts(s);
    back := TrimRightCuts(TrimLeft(s));
  }

  // ---- Compact ----

  /** What the cheap summarizer model answered, if it did. */
  datatype SummaryAnswer<U> = NoSummary | Summary(text: string, usage: U)

  datatype Compacted<U> =
    | CompactFailed
    | CompactPanicked              // Go's index out of range
    | CompactDone(messages: seq<Message>, turnsFolded: nat, resultsStubbed: nat, usage: U)

  /** Go's s[i]: an index out of range panics. */
  function At<T>(s: seq<T>, i: int): Option<T> { if 0 <= i < |s| then Some(s[i]) else None }

  /** Puts a summary in the place of the messages before the cutoff, and shortens
      the results of the others up to the turn that runs now. */
  function Fold<U>(ms: seq<Message>, cutoff: nat, active: nat, answer: SummaryAnswer<U>): Compacted<U>
    requires cutoff <= |ms|
  {
    if answer.NoSummary? || TrimSpace(answer.text) == "" then CompactFailed
    else
      var summary := AssistantText("[Compacted conversation summary]\n" + TrimSpace(answer.text));
      CompactDone([summary] + Stub(ms[cutoff..], active - cutoff), CountTurns(ms[..cutoff]),
                  CountStubbed(ms[cutoff..], active - cutoff), answer.usage)
  }

  /** Folds the turns before the last `preserve` ones, or on a reset everything;
      with too few turns to fold it only shortens results. */
  function Compact<U>(ms: seq<Message>, preserve: int, resetAll: bool, answer: SummaryAnswer<U>, free: U)
    : Compacted<U>
  {
    var starts := TurnStarts(ms);
    if starts == [] then CompactFailed
    else if !resetAll && |starts| <= preserve then
      CompactDone(Stub(ms, starts[0]), 0, CountStubbed(ms, starts[0]), free)
    else if resetAll then Fold(ms, |ms|, starts[0], answer)
    else
      match At(starts, preserve - 1)
      case None => CompactPanicked
      case Some(cutoff) => Fold(ms, cutoff, starts[0], answer)
  }

  /** It crashes exactly when asked to keep no turn, short of a reset, of a conversation with one. */
  lemma CompactPanics<U>(ms: seq<Message>, preserve: int, resetAll: bool, answer: SummaryAnswer<U>, free: U)
    ensures Compact(ms, preserve, resetAll, answer, free).CompactPanicked? <==>
            !resetAll && preserve < 1 && exists i :: 0 <= i < |ms| && StartsTurn(ms[i])
  {
    TurnsCounted(ms);
  }

  lemma {:induction false} TurnsCounted(ms: seq<Message>)
    ensures CountTurns(ms) > 0 <==> exists i :: 0 <= i < |ms| && StartsTurn(ms[i])
  {
    if ms != [] {
      var last := |ms| - 1;
      TurnsCounted(ms[..last]);
      assert forall i :: 0 <= i < last ==> ms[..last][i] == ms[i];
      if StartsTurn(ms[last]) {
        assert exists i :: 0 <= i < |ms| && StartsTurn(ms[i]);
      }
    }
  }

  lemma StubKeepsPairing(ms: seq<Message>, protectFrom: int)
    requires Paired(ms)
    ensures Paired(Stub(ms, protectFrom))
  {
    var out := Stub(ms, protectFrom);
    forall i | 0 <= i < |out| ensures PairedAt(out, i) {
      assert PairedAt(ms, i);
    }
  }

  lemma TailKeepsPairing(ms: seq<Message>, cutoff: nat)
    requires Paired(ms) && cutoff <= |ms| && (cutoff < |ms| ==> StartsTurn(ms[cutoff]))
    ensures Paired(ms[cutoff..])
  {
    var tail := ms[cutoff..];
    forall i | 0 <= i < |tail| ensures PairedAt(tail, i) {
      assert PairedAt(ms, cutoff + i);
    }
  }

  lemma PrependText(m: Message, ms: seq<Message>)
    requires Paired(ms) && m.calls == [] && m.results == []
    ensures Paired([m] + ms)
  {
    var out := [m] + ms;
    forall i | 0 <= i < |out| ensures PairedAt(out, i) {
      if 0 < i { assert PairedAt(ms, i - 1); }
    }
  }

  /** Compaction cuts only in front of an operator message, so it never parts
      a call from its result. */
  lemma CompactKeepsPairing<U>(ms: seq<Message>, preserve: int, resetAll: bool, answer: SummaryAnswer<U>, free: U)
    requires Paired(ms)
    ensures var c := Compact(ms, preserve, resetAll, answer, free); c.CompactDone? ==> Paired(c.messages)
  {
    var starts := TurnStarts(ms);
    if starts == [] {
    } else if !resetAll && |starts| <= preserve {
      StubKeepsPairing(ms, starts[0]);
    } else if resetAll {
      FoldKeepsPairing(ms, |ms|, starts[0], answer);
    } else if 1 <= preserve {
      FoldKeepsPairing(ms, starts[preserve - 1], starts[0], answer);
    }
  }

  lemma FoldKeepsPairing<U>(ms: seq<Message>, cutoff: nat, active: nat, answer: SummaryAnswer<U>)
    requires Paired(ms) && cutoff <= |ms| && (cutoff < |ms| ==> StartsTurn(ms[cutoff]))
    ensures var c := Fold(ms, cutoff, active, answer); c.CompactDone? ==> Paired(c.messages)
  {
    if answer.Summary? {
      TailKeepsPairing(ms, cutoff);
      StubKeepsPairing(ms[cutoff..], active - cutoff);
      PrependText(AssistantText("[Compacted conversation summary]\n" + TrimSpace(answer.text)),
                  Stub(ms[cutoff..], active - cutoff));
    }
  }

  lemma {:induction false} TurnsBefore(ms: seq<Message>, k: nat)
    requires k < CountTurns(ms)
    ensures CountTurns(ms[..TurnStarts(ms)[k]]) == CountTurns(ms) - k - 1
  {
    var last := |ms| - 1;
    if StartsTurn(ms[last]) && k == 0 {
    } else {
      var k' := if StartsTurn(ms[last]) then k - 1 else k;
      TurnsBefore(ms[..last], k');
      assert ms[..last][..TurnStarts(ms[..last])[k']] == ms[..TurnStarts(ms)[k]];
    }
  }

  // ---- what a compaction leaves as it was ----

  /** No operator message comes after this one: it belongs to the turn that runs now. */
  predicate OfLastTurn(ms: seq<Message>, p: nat) { forall j | p < j < |ms| :: !StartsTurn(ms[j]) }

  /** b is a with its long results shortened: each result keeps its place, its call and
      how it ended. */
  predicate Shortened(a: Message, b: Message) {
    && b.role == a.role && b.content == a.content && b.calls == a.calls && |b.results| == |a.results|
    && forall k | 0 <= k < |a.results| ::
         && b.results[k].callId == a.results[k].callId
         && b.results[k].isError == a.results[k].isError && b.results[k].notSent == a.results[k].notSent
         && (|a.results[k].content| < 256 ==> b.results[k].content == a.results[k].content)
         && (|a.results[k].content| >= 256 ==> b.results[k].content == "[tool result stubbed during compact]")
  }

  /** rest is the messages from the cutoff on, those before the last turn with their
      long results shortened. */
  ghost predicate LeavesRest(ms: seq<Message>, cutoff: nat, rest: seq<Message>) {
    && cutoff <= |ms| && |rest| == |ms| - cutoff
    && forall p | cutoff <= p < |ms| ::
         if OfLastTurn(ms, p) then rest[p - cutoff] == ms[p] else Shortened(ms[p], rest[p - cutoff])
  }

  lemma {:induction false} LastTurnStart(ms: seq<Message>, p: nat)
    requires TurnStarts(ms) != [] && p < |ms|
    ensures OfLastTurn(ms, p) <==> TurnStarts(ms)[0] <= p
  {
    var last := |ms| - 1;
    if StartsTurn(ms[last]) {
      assert TurnStarts(ms)[0] == last;
    } else if p < last {
      LastTurnStart(ms[..last], p);
      assert forall j | p < j < last :: ms[..last][j] == ms[j];
    }
  }

  lemma StubLeavesRest(ms: seq<Message>, cutoff: nat)
    requires TurnStarts(ms) != [] && cutoff <= |ms|
    ensures LeavesRest(ms, cutoff, Stub(ms[cutoff..], TurnStarts(ms)[0] - cutoff))
  {
    var rest := Stub(ms[cutoff..], TurnStarts(ms)[0] - cutoff);
    forall p | cutoff <= p < |ms|
      ensures if OfLastTurn(ms, p) then rest[p - cutoff] == ms[p] else Shortened(ms[p], rest[p - cutoff])
    {
      LastTurnStart(ms, p);
      assert ms[cutoff..][p - cutoff] == ms[p];
    }
  }

  lemma FoldLeavesRest<U>(ms: seq<Message>, cutoff: nat, answer: SummaryAnswer<U>)
    requires TurnStarts(ms) != [] && cutoff <= |ms|
    requires Fold(ms, cutoff, TurnStarts(ms)[0], answer).CompactDone?
    ensures var c := Fold(ms, cutoff, TurnStarts(ms)[0], answer);
            && answer.Summary? && c.messages != [] && LeavesRest(ms, cutoff, c.messages[1..])
            && c.messages[0] ==
               Message(Assistant, "[Compacted conversation summary]\n" + TrimSpace(answer.text), [], [])
            && c.turnsFolded == CountTurns(ms[..cutoff])
  {
    StubLeavesRest(ms, cutoff);
    assert Fold(ms, cutoff, TurnStarts(ms)[0], answer).messages[1..] ==
           Stub(ms[cutoff..], TurnStarts(ms)[0] - cutoff);
  }

  /** What a compaction does to a transcript. With few turns, or on none to fold, every
      message stays; else one summary stands for the messages before a cutoff, which
      leaves exactly the turns to keep. What stays is as it was, but for the long
      results in front of the last turn. */
  lemma CompactLeavesTheRest<U>(ms: seq<Message>, preserve: int, resetAll: bool, answer: SummaryAnswer<U>, free: U)
    returns (cutoff: nat)
    requires Compact(ms, preserve, resetAll, answer, free).CompactDone?
    ensures var c := Compact(ms, preserve, resetAll, answer, free);
            && cutoff <= |ms| && c.turnsFolded == CountTurns(ms[..cutoff])
            && (if !resetAll && CountTurns(ms) <= preserve then cutoff == 0 && LeavesRest(ms, 0, c.messages)
                else
                  && answer.Summary? && c.messages != [] && LeavesRest(ms, cutoff, c.messages[1..])
                  && c.messages[0] ==
                     Message(Assistant, "[Compacted conversation summary]\n" + TrimSpace(answer.text), [], [])
                  && (resetAll ==> cutoff == |ms|)
                  && (!resetAll ==> cutoff < |ms| && StartsTurn(ms[cutoff])
                                    && CountTurns(ms[..cutoff]) == CountTurns(ms) - preserve))
  {
    if !resetAll && CountTurns(ms) <= preserve {
      cutoff := 0;
      StubLeavesRest(ms, 0);
      assert ms[0..] == ms;
    } else {
      cutoff := WhichFold(ms, preserve, resetAll, answer, free);
      FoldLeavesRest(ms, cutoff, answer);
    }
  }

  /** A compaction counts a shortened result exactly when there was one to shorten. */
  lemma {:induction false} StubsCounted(ms: seq<Message>, protectFrom: int)
    ensures CountStubbed(ms, protectFrom) > 0 <==>
            exists i, k :: 0 <= i < |ms| && i < protectFrom && 0 <= k < |ms[i].results|
                           && |ms[i].results[k].content| >= MIN_BYTES_TO_STUB
    decreases |ms|
  {
    if ms != [] && protectFrom > 0 {
      BulkyCounted(ms[0].results);
      StubsCounted(ms[1..], protectFrom - 1);
      if i, k :| 0 <= i < |ms| && i < protectFrom && 0 <= k < |ms[i].results|
                 && |ms[i].results[k].content| >= MIN_BYTES_TO_STUB {
        if i > 0 { assert ms[1..][i - 1] == ms[i]; }
      }
      if i, k :| 0 <= i < |ms[1..]| && i < protectFrom - 1 && 0 <= k < |ms[1..][i].results|
                 && |ms[1..][i].results[k].content| >= MIN_BYTES_TO_STUB {
        assert ms[i + 1] == ms[1..][i];
      }
    }
  }

  lemma {:induction false} BulkyCounted(rs: seq<ToolResult>)
    ensures CountBulky(rs) > 0 <==> exists k :: 0 <= k < |rs| && |rs[k].content| >= MIN_BYTES_TO_STUB
    decreases |rs|
  {
    if rs != [] {
      BulkyCounted(rs[1..]);
      if k :| 0 <= k < |rs| && |rs[k].content| >= MIN_BYTES_TO_STUB {
        if k > 0 { assert rs[1..][k - 1] == rs[k]; }
      }
      if k :| 0 <= k < |rs[1..]| && |rs[1..][k].content| >= MIN_BYTES_TO_STUB {
        assert rs[k + 1] == rs[1..][k];
      }
    }
  }

  lemma FoldCost<U>(ms: seq<Message>, cutoff: nat, active: nat, answer: SummaryAnswer<U>)
    requires cutoff <= |ms| && answer.Summary?
    ensures var c := Fold(ms, cutoff, active, answer);
            if Blank(answer.text) then c.CompactFailed?
            else c.CompactDone? && c.usage == answer.usage && c.turnsFolded == CountTurns(ms[..cutoff])
  {
  }

  lemma WhichFold<U>(ms: seq<Message>, preserve: int, resetAll: bool, answer: SummaryAnswer<U>, free: U)
    returns (cutoff: nat)
    requires CountTurns(ms) > 0 && (resetAll || 1 <= preserve < CountTurns(ms))
    ensures cutoff <= |ms|
    ensures Compact(ms, preserve, resetAll, answer, free) == Fold(ms, cutoff, TurnStarts(ms)[0], answer)
    ensures CountTurns(ms[..cutoff]) == CountTurns(ms) - (if resetAll then 0 else preserve) > 0
    ensures if resetAll then cutoff == |ms| else cutoff < |ms| && StartsTurn(ms[cutoff])
  {
    if resetAll {
      cutoff := |ms|;
      assert ms[..|ms|] == ms;
    } else {
      cutoff := TurnStarts(ms)[preserve - 1];
      TurnsBefore(ms, preserve - 1);
    }
  }

  /** When the summarizer is asked and answers, its usage comes back exactly when the
      answer is not blank, and then at least one turn was folded, so the caller's
      "anything folded or stubbed?" test keeps it. A blank answer was paid for too. */
  lemma SummaryCostComesBack<U>(ms: seq<Message>, preserve: int, resetAll: bool, answer: SummaryAnswer<U>, free: U)
    requires CountTurns(ms) > 0 && (resetAll || 1 <= preserve < CountTurns(ms)) && answer.Summary?
    ensures var c := Compact(ms, preserve, resetAll, answer, free);
            && (c.CompactDone? <==> !Blank(answer.text)) && (c.CompactFailed? <==> Blank(answer.text))
            && (c.CompactDone? ==>
                  c.usage == answer.usage && c.turnsFolded == CountTurns(ms) - (if resetAll then 0 else preserve) > 0)
  {
    var cutoff := WhichFold(ms, preserve, resetAll, answer, free);
    FoldCost(ms, cutoff, TurnStarts(ms)[0], answer);
  }

  /** Two questions, one to keep, a blank answer: nothing comes back of what it cost. */
  lemma BlankSummaryIsLost<U>(usage: U, free: U)
    ensures var ask := (q: string) => Message(User, q, [], []);
            Compact([ask("a"), ask("b")], 1, false, Summary(" \n", usage), free) == CompactFailed
  {
  }
}
