/** Label values as the text format writes them. */
module Escaping {
  import opened Options
  import opened Filters

  /** strings.ReplaceAll of one character. */
  function Replace(s: string, c: char, with: string): string {
    if s == [] then [] else (if s[0] == c then with else [s[0]]) + Replace(s[1..], c, with)
  }

  /** The three replacements, one after the other. */
  function EscapeLabelValue(s: string): string {
    Replace(Replace(Replace(s, '\\', "\\\\"), '"', "\\\""), '\n', "\\n")
  }

  function EscapeChar(c: char): string {
    if c == '\\' then "\\\\" else if c == '"' then "\\\"" else if c == '\n' then "\\n" else [c]
  }

  /** Each character escaped where it stands. */
  function Escape(s: string): string {
    if s == [] then [] else EscapeChar(s[0]) + Escape(s[1..])
  }

  /** Reads a quoted value up to its closing quote: the value and what follows.
      A raw newline, an unknown escape or a missing quote is no value. */
  function Unquote(s: string): (r: Option<(string, string)>)
    ensures r.Some? ==> |r.value.1| < |s|
  {
    if s == [] || s[0] == '\n' then None
    else if s[0] == '"' then Some(("", s[1..]))
    else if s[0] == '\\' then
      if |s| < 2 || s[1] !in "\\\"n" then None
      else
        var rest := Unquote(s[2..]);
        if rest.None? then None
        else Some(([if s[1] == 'n' then '\n' else s[1]] + rest.value.0, rest.value.1))
    else
      var rest := Unquote(s[1..]);
      if rest.None? then None else Some(([s[0]] + rest.value.0, rest.value.1))
  }

  lemma {:induction false} ReplaceConcat(s: string, t: string, c: char, with: string)
    ensures Replace(s + t, c, with) == Replace(s, c, with) + Replace(t, c, with)
  {
    if s == [] {
      assert s + t == t;
    } else {
      ReplaceConcat(s[1..], t, c, with);
      var head := if s[0] == c then with else [s[0]];
      assert (s + t)[1..] == s[1..] + t;
      assert Replace(s + t, c, with) == head + Replace(s[1..] + t, c, with);
      Associative(head, Replace(s[1..], c, with), Replace(t, c, with));
    }
  }

  lemma ReplaceOne(x: char, c: char, with: string)
    ensures Replace([x], c, with) == if x == c then with else [x]
  {
  }

  lemma ThreePassesOnChar(c: char)
    ensures Replace(Replace(Replace([c], '\\', "\\\\"), '"', "\\\""), '\n', "\\n") == EscapeChar(c)
  {
    ReplaceOne(c, '\\', "\\\\");
    ReplaceOne('\\', '"', "\\\"");
    ReplaceOne('\\', '\n', "\\n");
    ReplaceOne('"', '\n', "\\n");
    ReplaceOne(c, '"', "\\\"");
    ReplaceOne(c, '\n', "\\n");
    assert "\\\\" == ['\\'] + ['\\'] && "\\\"" == ['\\'] + ['"'];
    ReplaceConcat(['\\'], ['\\'], '"', "\\\"");
    ReplaceConcat(['\\'], ['\\'], '\n', "\\n");
    ReplaceConcat(['\\'], ['"'], '\n', "\\n");
  }

  /** The order of the three passes keeps them apart: together they escape each character once. */
  lemma {:induction false} ThreePassesAreOne(s: string)
    ensures EscapeLabelValue(s) == Escape(s)
  {
    if s != [] {
      var head, tail := [s[0]], s[1..];
      assert s == head + tail;
      ThreePassesOnChar(s[0]);
      ThreePassesAreOne(tail);
      ReplaceConcat(head, tail, '\\', "\\\\");
      var a, b := Replace(head, '\\', "\\\\"), Replace(tail, '\\', "\\\\");
      ReplaceConcat(a, b, '"', "\\\"");
      ReplaceConcat(Replace(a, '"', "\\\""), Replace(b, '"', "\\\""), '\n', "\\n");
    }
  }

  /** Reading one escaped character, then the rest. */
  lemma UnquoteStep(c: char, tail: string)
    ensures var s, rest := EscapeChar(c) + tail, Unquote(tail);
            Unquote(s) == if rest.None? then None else Some(([c] + rest.value.0, rest.value.1))
  {
  }

  /** Whatever the value holds, reading it back up to the quote gives it, and nothing of what follows. */
  lemma {:induction false} UnquoteEscape(v: string, rest: string)
    ensures Unquote(Escape(v) + ("\"" + rest)) == Some((v, rest))
  {
    var end := "\"" + rest;
    if v == [] {
      assert Escape(v) + end == end && end[1..] == rest;
    } else {
      UnquoteEscape(v[1..], rest);
      Associative(EscapeChar(v[0]), Escape(v[1..]), end);
      UnquoteStep(v[0], Escape(v[1..]) + end);
      assert v == [v[0]] + v[1..];
    }
  }

  /** An escaped value ends no line and closes no quote. */
  lemma {:induction false} EscapedIsInert(v: string)
    ensures '\n' !in Escape(v) && Unquote(Escape(v)).None?
  {
    if v != [] {
      EscapedIsInert(v[1..]);
      UnquoteStep(v[0], Escape(v[1..]));
    }
  }
}

/** Integers as strconv.FormatInt writes them in base 10. */
module Decimals {
  import opened Options

  predicate Digit(c: char) { '0' <= c <= '9' }

  function Digits(n: nat): (r: string)
    ensures r != [] && forall c | c in r :: Digit(c)
  {
    (if n < 10 then [] else Digits(n / 10)) + ['0' + (n % 10) as char]
  }

  function Decimal(n: int): string { if n < 0 then "-" + Digits(-n) else Digits(n) }

  function Natural(s: string): Option<nat> {
    if s == [] || !Digit(s[|s| - 1]) then None
    else
      var last := (s[|s| - 1] - '0') as int;
      if |s| == 1 then Some(last)
      else
        var head := Natural(s[..|s| - 1]);
        if head.None? then None else Some(10 * head.value + last)
  }

  function Integer(s: string): Option<int> {
    if s != [] && s[0] == '-' then
      var n := Natural(s[1..]);
      if n.None? then None else (var magnitude: int := n.value; Some(-magnitude))
    else
      var n := Natural(s);
      if n.None? then None else Some(n.value)
  }

  lemma {:induction false} NaturalDigits(n: nat)
    ensures Natural(Digits(n)) == Some(n)
  {
    var s := Digits(n);
    if n >= 10 {
      NaturalDigits(n / 10);
      assert s[..|s| - 1] == Digits(n / 10);
    }
  }

  lemma IntegerDecimal(n: int)
    ensures Integer(Decimal(n)) == Some(n)
    ensures forall c | c in Decimal(n) :: Digit(c) || c == '-'
  {
    if n < 0 {
      NaturalDigits(-n);
      assert Decimal(n)[1..] == Digits(-n);
    } else {
      NaturalDigits(n);
      assert Digit(Decimal(n)[0]);
    }
  }
}

/** The printer of metric batches, and a reader of the text format. */
module Exposition {
  import opened Options
  import opened Filters
  import opened Escaping
  import opened Decimals

  /** value is the already formatted number; a sample without a name is not printed. */
  datatype Sample = Sample(name: string, labels: map<string, string>, value: string, at: Option<int>)

  datatype Reading = Reading(name: string, labels: map<string, string>, value: string, at: int)

  // ---- printing ----

  /** order lists the labels, each once: the order a map happens to be walked in. */
  ghost predicate Walks(order: seq<string>, labels: map<string, string>) {
    && (forall k :: k in order <==> k in labels)
    && (forall i, j | 0 <= i < j < |order| :: order[i] != order[j])
  }

  function Pair(k: string, v: string): string {
    k + "=\"" + Escape(v) + "\""
  }

  function Pairs(order: seq<string>, labels: map<string, string>): string
    requires forall k | k in order :: k in labels
  {
    if order == [] then ""
    else Pair(order[0], labels[order[0]]) + (if |order| == 1 then "" else "," + Pairs(order[1..], labels))
  }

  function Block(order: seq<string>, labels: map<string, string>): string
    requires forall k | k in order :: k in labels
  {
    if labels == map[] then "" else "{" + Pairs(order, labels) + "}"
  }

  function Stamp(s: Sample, now: int): int { if s.at.Some? then s.at.value else now }

  function Line(s: Sample, order: seq<string>, now: int): string
    requires forall k | k in order :: k in s.labels
  {
    s.name + (Block(order, s.labels) + (" " + (s.value + (" " + (Decimal(Stamp(s, now)) + "\n")))))
  }

  /** line is what a sample may print as: nothing without a name, else its labels in some order. */
  ghost predicate PrintsAs(s: Sample, now: int, line: string) {
    if s.name == "" then line == ""
    else exists order :: Walks(order, s.labels) && line == Line(s, order, now)
  }

  ghost predicate Printed(samples: seq<Sample>, now: int, lines: seq<string>) {
    if samples == [] then lines == []
    else lines != [] && PrintsAs(samples[0], now, lines[0]) && Printed(samples[1..], now, lines[1..])
  }

  function Flatten(lines: seq<string>): string {
    if lines == [] then "" else lines[0] + Flatten(lines[1..])
  }

  lemma {:induction false} FlattenGrows(lines: seq<string>, line: string)
    ensures Flatten(lines + [line]) == Flatten(lines) + line
  {
    if lines == [] {
      assert ([line])[1..] == [];
    } else {
      FlattenGrows(lines[1..], line);
      assert (lines + [line])[1..] == lines[1..] + [line];
    }
  }

  lemma {:induction false} PrintedGrows(samples: seq<Sample>, now: int, lines: seq<string>, s: Sample, line: string)
    requires Printed(samples, now, lines) && PrintsAs(s, now, line)
    ensures Printed(samples + [s], now, lines + [line])
  {
    if samples == [] {
      assert (samples + [s])[1..] == [] && (lines + [line])[1..] == [];
    } else {
      PrintedGrows(samples[1..], now, lines[1..], s, line);
      assert (samples + [s])[1..] == samples[1..] + [s] && (lines + [line])[1..] == lines[1..] + [line];
    }
  }

  lemma {:induction false} PairsGrow(order: seq<string>, k: string, labels: map<string, string>)
    requires forall x | x in order + [k] :: x in labels
    ensures Pairs(order + [k], labels) == Pairs(order, labels) + (if order == [] then "" else ",") + Pair(k, labels[k])
  {
    if order != [] {
      forall x | x in order[1..] + [k] ensures x in labels { assert x in order + [k]; }
      PairsGrow(order[1..], k, labels);
      assert (order + [k])[1..] == order[1..] + [k];
      var head, tail := Pair(order[0], labels[order[0]]), Pairs(order[1..], labels);
      var sep := if |order| == 1 then "" else ",";
      assert Pairs(order, labels) == head + (if |order| == 1 then "" else "," + tail);
      assert Pairs(order + [k], labels) == head + ("," + (tail + sep + Pair(k, labels[k])));
    }
  }

  method WriteLabels(labels: map<string, string>) returns (buf: string)
    ensures exists order :: Walks(order, labels) && buf == Pairs(order, labels)
  {
    buf := "";
    ghost var order := [];
    var rest := labels.Keys;
    var first := true;
    while rest != {}
      invariant rest <= labels.Keys
      invariant forall k :: k in order <==> k in labels && k !in rest
      invariant forall i, j | 0 <= i < j < |order| :: order[i] != order[j]
      invariant first <==> order == []
      invariant buf == Pairs(order, labels)
      decreases rest
    {
      var k :| k in rest;
      rest := rest - {k};
      if !first { buf := buf + ","; }
      ThreePassesAreOne(labels[k]);
      buf := buf + (k + "=\"" + EscapeLabelValue(labels[k]) + "\"");
      PairsGrow(order, k, labels);
      order := order + [k];
      first := false;
    }
  }

  method WriteSample(s: Sample, now: int) returns (line: string)
    ensures PrintsAs(s, now, line)
  {
    if s.name == "" { return ""; }
    var pairs := WriteLabels(s.labels);
    ghost var order :| Walks(order, s.labels) && pairs == Pairs(order, s.labels);
    var ts := if s.at.Some? then s.at.value else now;
    line := " " + (s.value + (" " + (Decimal(ts) + "\n")));
    if |s.labels| > 0 { line := "{" + pairs + "}" + line; }
    line := s.name + line;
    assert line == Line(s, order, now);
  }

  /** One line per sample with a name, in order; it reads back as one row per line, each
      with its sample's name, labels and value, at the sample's own time if it has one
      and else at now, if and only if the names and values are valid. */
  method Write(samples: seq<Sample>, now: int)
    returns (buf: string, ghost lines: seq<string>, ghost rows: seq<Reading>, ghost from: seq<nat>)
    ensures Printed(samples, now, lines) && buf == Flatten(lines)
    ensures |from| == |rows| && Rising(from, |samples|)
    ensures forall i | 0 <= i < |samples| :: i in from <==> samples[i].name != ""
    ensures forall k | 0 <= k < |rows| ::
              var s := samples[from[k]];
              rows[k] == Reading(s.name, s.labels, s.value, if s.at.Some? then s.at.value else now)
    ensures rows == Expected(samples, now)
    ensures ReadBack(buf) == Some(rows) <==> forall s | s in samples :: Valid(s)
  {
    buf, lines := "", [];
    for i := 0 to |samples|
      invariant Printed(samples[..i], now, lines)
      invariant buf == Flatten(lines)
    {
      var line := WriteSample(samples[i], now);
      FlattenGrows(lines, line);
      PrintedGrows(samples[..i], now, lines, samples[i], line);
      assert samples[..i + 1] == samples[..i] + [samples[i]];
      lines := lines + [line];
      buf := buf + line;
    }
    assert samples[..|samples|] == samples;
    RoundTrip(samples, now, lines);
    rows, from := Expected(samples, now), Positions(samples, (s: Sample) => s.name != "");
    RowBySample(samples, now);
  }

  // ---- reading ----

  predicate Letter(c: char) { 'a' <= c <= 'z' || 'A' <= c <= 'Z' || c == '_' }
  predicate MetricChar(c: char) { Letter(c) || Digit(c) || c == ':' }
  predicate LabelChar(c: char) { Letter(c) || Digit(c) }
  predicate TokenChar(c: char) { c != ' ' && c != '\n' }

  predicate MetricName(s: string) { s != [] && !Digit(s[0]) && forall c | c in s :: MetricChar(c) }
  predicate LabelName(s: string) { s != [] && !Digit(s[0]) && forall c | c in s :: LabelChar(c) }
  predicate Token(s: string) { s != [] && forall c | c in s :: TokenChar(c) }

  /** The longest start made of such characters, and the rest. */
  function Span(s: string, p: char -> bool): (r: (string, string))
    ensures s == r.0 + r.1
  {
    if s == [] || !p(s[0]) then ("", s)
    else
      var rest := Span(s[1..], p);
      ([s[0]] + rest.0, rest.1)
  }

  lemma {:induction false} SpanStops(s: string, rest: string, p: char -> bool)
    requires forall c | c in s :: p(c)
    requires rest == [] || !p(rest[0])
    ensures Span(s + rest, p) == (s, rest)
  {
    if s == [] {
      assert s + rest == rest;
    } else {
      SpanStops(s[1..], rest, p);
      assert (s + rest)[1..] == s[1..] + rest && s == [s[0]] + s[1..];
    }
  }

  /** The pairs after an opening brace, up to and with the closing one. */
  function ReadPairs(s: string, got: map<string, string>): (r: Option<(map<string, string>, string)>)
    ensures r.Some? ==> |r.value.1| < |s|
    decreases |s|
  {
    var name := Span(s, LabelChar);
    if !LabelName(name.0) || name.0 in got || !("=\"" <= name.1) then None
    else
      var v := Unquote(name.1[2..]);
      if v.None? || v.value.1 == [] then None
      else
        var more := got[name.0 := v.value.0];
        if v.value.1[0] == '}' then Some((more, v.value.1[1..]))
        else if v.value.1[0] == ',' then ReadPairs(v.value.1[1..], more)
        else None
  }

  function ReadLabels(s: string): (r: Option<(map<string, string>, string)>)
    ensures r.Some? ==> |r.value.1| <= |s|
  {
    if s != [] && s[0] == '{' then ReadPairs(s[1..], map[]) else Some((map[], s))
  }

  /** A blank, the value, a blank, the time and the line's end. */
  function ReadValue(name: string, labels: map<string, string>, s: string): (r: Option<(Reading, string)>)
    ensures r.Some? ==> |r.value.1| < |s|
  {
    if s == [] || s[0] != ' ' then None
    else
      var value := Span(s[1..], TokenChar);
      if !Token(value.0) || value.1 == [] || value.1[0] != ' ' then None
      else
        var at := Span(value.1[1..], TokenChar);
        if Integer(at.0).None? || at.1 == [] || at.1[0] != '\n' then None
        else Some((Reading(name, labels, value.0, Integer(at.0).value), at.1[1..]))
  }

  function ReadLine(s: string): (r: Option<(Reading, string)>)
    ensures r.Some? ==> |r.value.1| < |s|
  {
    var name := Span(s, MetricChar);
    var labels := ReadLabels(name.1);
    if !MetricName(name.0) || labels.None? then None
    else ReadValue(name.0, labels.value.0, labels.value.1)
  }

  function ReadBack(s: string): Option<seq<Reading>>
    decreases |s|
  {
    if s == [] then Some([])
    else
      var line := ReadLine(s);
      if line.None? then None
      else
        var rest := ReadBack(line.value.1);
        if rest.None? then None else Some([line.value.0] + rest.value)
  }

  // ---- the round trip ----

  /** A sample that is printed has the names and the value the format asks for. */
  predicate Valid(s: Sample) {
    s.name != "" ==> MetricName(s.name) && (forall k | k in s.labels :: LabelName(k)) && Token(s.value)
  }

  function Expected(samples: seq<Sample>, now: int): seq<Reading> {
    if samples == [] then []
    else
      var s := samples[0];
      (if s.name == "" then [] else [Reading(s.name, s.labels, s.value, Stamp(s, now))]) + Expected(samples[1..], now)
  }

  lemma {:induction false} ExpectedGrows(samples: seq<Sample>, now: int, s: Sample)
    ensures Expected(samples + [s], now) ==
            Expected(samples, now) + if s.name == "" then [] else [Reading(s.name, s.labels, s.value, Stamp(s, now))]
  {
    var last := if s.name == "" then [] else [Reading(s.name, s.labels, s.value, Stamp(s, now))];
    if samples == [] {
      ExpectedHead([s], now);
      assert last + [] == last;
    } else {
      ExpectedGrows(samples[1..], now, s);
      assert (samples + [s])[1..] == samples[1..] + [s];
      ExpectedHead(samples, now);
      ExpectedHead(samples + [s], now);
      Associative(Expected(samples[..1], now), Expected(samples[1..], now), last);
    }
  }

  /** The rows are the named samples, in order, each with its own time or now. */
  lemma {:induction false} RowBySample(samples: seq<Sample>, now: int)
    ensures var from, rows := Positions(samples, (s: Sample) => s.name != ""), Expected(samples, now);
            |from| == |rows| && forall k | 0 <= k < |rows| ::
              var s := samples[from[k]];
              rows[k] == Reading(s.name, s.labels, s.value, if s.at.Some? then s.at.value else now)
  {
    if samples != [] {
      var n := |samples| - 1;
      RowBySample(samples[..n], now);
      ExpectedGrows(samples[..n], now, samples[n]);
      assert samples == samples[..n] + [samples[n]];
    }
  }

  /** The labels of `labels` named by order. */
  function Part(order: seq<string>, labels: map<string, string>): map<string, string> {
    map k | k in labels && k in order :: labels[k]
  }

  lemma ReadsPair(s: string, k: string, equals: string, v: string, after: string, got: map<string, string>)
    requires Span(s, LabelChar) == (k, equals) && LabelName(k) && k !in got
    requires "=\"" <= equals && Unquote(equals[2..]) == Some((v, after)) && after != []
    ensures ReadPairs(s, got) ==
            if after[0] == '}' then Some((got[k := v], after[1..]))
            else if after[0] == ',' then ReadPairs(after[1..], got[k := v])
            else None
  {
  }

  /** One printed pair is read as itself; what follows decides whether another must. */
  lemma PairReadsBack(k: string, v: string, after: string, got: map<string, string>)
    requires LabelName(k) && k !in got && after != []
    ensures ReadPairs(Pair(k, v) + after, got) ==
            if after[0] == '}' then Some((got[k := v], after[1..]))
            else if after[0] == ',' then ReadPairs(after[1..], got[k := v])
            else None
  {
    var quoted := Escape(v) + ("\"" + after);
    var equals := "=\"" + quoted;
    PairSplits(k, v, after);
    SpanStops(k, equals, LabelChar);
    UnquoteEscape(v, after);
    assert equals[2..] == quoted;
    ReadsPair(Pair(k, v) + after, k, equals, v, after, got);
  }

  lemma PairSplits(k: string, v: string, after: string)
    ensures Pair(k, v) + after == k + ("=\"" + (Escape(v) + ("\"" + after)))
  {
  }

  lemma {:induction false} PairsReadBack(order: seq<string>, labels: map<string, string>, got: map<string, string>,
                                         rest: string)
    requires order != [] && forall k | k in order :: k in labels && LabelName(k) && k !in got
    requires forall i, j | 0 <= i < j < |order| :: order[i] != order[j]
    ensures ReadPairs(Pairs(order, labels) + ("}" + rest), got) == Some((got + Part(order, labels), rest))
  {
    var k, v, tail := order[0], labels[order[0]], order[1..];
    assert order == [k] + tail;
    PartSplits(k, tail, labels, got);
    if tail == [] {
      LastPairReadsBack(k, v, got, rest);
      assert Pairs(order, labels) == Pair(k, v);
      assert Part(tail, labels) == map[] && got[k := v] + map[] == got[k := v];
    } else {
      PairsReadBack(tail, labels, got[k := v], rest);
      PairsJoin(order, labels, "}" + rest);
      NextPairReadsBack(k, v, got, Pairs(tail, labels) + ("}" + rest));
    }
  }

  lemma LastPairReadsBack(k: string, v: string, got: map<string, string>, rest: string)
    requires LabelName(k) && k !in got
    ensures ReadPairs(Pair(k, v) + ("}" + rest), got) == Some((got[k := v], rest))
  {
    PairReadsBack(k, v, "}" + rest, got);
    assert ("}" + rest)[1..] == rest;
  }

  lemma NextPairReadsBack(k: string, v: string, got: map<string, string>, pairs: string)
    requires LabelName(k) && k !in got
    ensures ReadPairs(Pair(k, v) + ("," + pairs), got) == ReadPairs(pairs, got[k := v])
  {
    PairReadsBack(k, v, "," + pairs, got);
    assert ("," + pairs)[1..] == pairs;
  }

  lemma PairsJoin(order: seq<string>, labels: map<string, string>, rest: string)
    requires |order| > 1 && forall k | k in order :: k in labels
    ensures Pairs(order, labels) + rest == Pair(order[0], labels[order[0]]) + ("," + (Pairs(order[1..], labels) + rest))
  {
  }

  lemma PartSplits(k: string, tail: seq<string>, labels: map<string, string>, got: map<string, string>)
    requires k in labels && k !in got && k !in tail
    ensures got[k := labels[k]] + Part(tail, labels) == got + Part([k] + tail, labels)
  {
  }

  lemma Bracketed(p: string, rest: string)
    ensures var s := "{" + p + "}" + rest; s[0] == '{' && s[1..] == p + ("}" + rest)
  {
  }

  lemma PartOfAll(order: seq<string>, labels: map<string, string>)
    requires Walks(order, labels)
    ensures map[] + Part(order, labels) == labels
    ensures labels != map[] ==> order != []
  {
  }

  lemma BlockReadsBack(order: seq<string>, labels: map<string, string>, rest: string)
    requires Walks(order, labels) && (forall k | k in labels :: LabelName(k))
    requires rest != [] && rest[0] != '{'
    ensures ReadLabels(Block(order, labels) + rest) == Some((labels, rest))
  {
    PartOfAll(order, labels);
    if labels == map[] {
      assert Block(order, labels) + rest == rest;
    } else {
      Bracketed(Pairs(order, labels), rest);
      PairsReadBack(order, labels, map[], rest);
      ReadsBlock(Block(order, labels) + rest, Pairs(order, labels) + ("}" + rest), labels, rest);
    }
  }

  lemma ReadsBlock(s: string, inner: string, labels: map<string, string>, rest: string)
    requires s != [] && s[0] == '{' && s[1..] == inner && ReadPairs(inner, map[]) == Some((labels, rest))
    ensures ReadLabels(s) == Some((labels, rest))
  {
  }

  lemma ValueReadsBack(name: string, labels: map<string, string>, value: string, at: int, rest: string)
    requires Token(value)
    ensures ReadValue(name, labels, " " + (value + (" " + (Decimal(at) + ("\n" + rest))))) ==
            Some((Reading(name, labels, value, at), rest))
  {
    var d := "\n" + rest;
    var c := " " + (Decimal(at) + d);
    var b := " " + (value + c);
    assert b[1..] == value + c && c[1..] == Decimal(at) + d && d[1..] == rest;
    SpanStops(value, c, TokenChar);
    IntegerDecimal(at);
    SpanStops(Decimal(at), d, TokenChar);
  }

  /** One printed line is read as the sample it came from. */
  lemma LineReadsBack(s: Sample, order: seq<string>, now: int, rest: string)
    requires s.name != "" && Valid(s) && Walks(order, s.labels)
    ensures ReadLine(Line(s, order, now) + rest) == Some((Reading(s.name, s.labels, s.value, Stamp(s, now)), rest))
  {
    var b := " " + (s.value + (" " + (Decimal(Stamp(s, now)) + ("\n" + rest))));
    var a := Block(order, s.labels) + b;
    assert Line(s, order, now) + rest == s.name + a;
    SpanStops(s.name, a, MetricChar);
    BlockReadsBack(order, s.labels, b);
    ValueReadsBack(s.name, s.labels, s.value, Stamp(s, now), rest);
  }

  lemma PrintedReadsBack(s: Sample, now: int, line: string, rest: string)
    requires s.name != "" && Valid(s) && PrintsAs(s, now, line) && ReadBack(rest).Some?
    ensures ReadBack(line + rest) == Some([Reading(s.name, s.labels, s.value, Stamp(s, now))] + ReadBack(rest).value)
  {
    var order :| Walks(order, s.labels) && line == Line(s, order, now);
    LineReadsBack(s, order, now, rest);
    ReadsOn(line + rest, Reading(s.name, s.labels, s.value, Stamp(s, now)), rest);
  }

  lemma ExpectedHead(samples: seq<Sample>, now: int)
    requires samples != []
    ensures Expected(samples, now) ==
            (if samples[0].name == "" then []
             else [Reading(samples[0].name, samples[0].labels, samples[0].value, Stamp(samples[0], now))])
            + Expected(samples[1..], now)
  {
  }

  lemma HeadReadsBack(s: Sample, now: int, line: string, rest: string, rows: seq<Reading>)
    requires Valid(s) && PrintsAs(s, now, line) && ReadBack(rest) == Some(rows)
    ensures ReadBack(line + rest) ==
            Some((if s.name == "" then [] else [Reading(s.name, s.labels, s.value, Stamp(s, now))]) + rows)
  {
    if s.name == "" {
      assert line + rest == rest && [] + rows == rows;
    } else {
      PrintedReadsBack(s, now, line, rest);
    }
  }

  lemma {:induction false} ValidReadsBack(samples: seq<Sample>, now: int, lines: seq<string>)
    requires Printed(samples, now, lines) && forall s | s in samples :: Valid(s)
    ensures ReadBack(Flatten(lines)) == Some(Expected(samples, now))
  {
    if samples == [] {
      assert lines == [];
    } else {
      var s, rest := samples[0], Flatten(lines[1..]);
      ValidReadsBack(samples[1..], now, lines[1..]);
      assert s in samples;
      HeadReadsBack(s, now, lines[0], rest, Expected(samples[1..], now));
      ExpectedHead(samples, now);
      assert Flatten(lines) == lines[0] + rest;
    }
  }

  /** What the reader ever returns. */
  predicate WellFormed(r: Reading) {
    MetricName(r.name) && (forall k | k in r.labels :: LabelName(k)) && Token(r.value)
  }

  lemma {:induction false} ValidRows(samples: seq<Sample>, now: int)
    ensures (forall s | s in samples :: Valid(s)) <==> forall r | r in Expected(samples, now) :: WellFormed(r)
  {
    if samples != [] {
      var s := samples[0];
      ValidRows(samples[1..], now);
      ExpectedHead(samples, now);
      assert samples == [s] + samples[1..];
      assert Valid(s) <==> s.name != "" ==> WellFormed(Reading(s.name, s.labels, s.value, Stamp(s, now)));
    }
  }

  lemma {:induction false} PairsAreNamed(s: string, got: map<string, string>)
    requires forall k | k in got :: LabelName(k)
    ensures var r := ReadPairs(s, got); r.Some? ==> forall k | k in r.value.0 :: LabelName(k)
    decreases |s|
  {
    var name := Span(s, LabelChar);
    if LabelName(name.0) && name.0 !in got && "=\"" <= name.1 {
      var v := Unquote(name.1[2..]);
      if v.Some? && v.value.1 != [] && v.value.1[0] == ',' {
        PairsAreNamed(v.value.1[1..], got[name.0 := v.value.0]);
      }
    }
  }

  lemma LineIsWellFormed(s: string)
    ensures var r := ReadLine(s); r.Some? ==> WellFormed(r.value.0)
  {
    var name := Span(s, MetricChar);
    if name.1 != [] && name.1[0] == '{' {
      PairsAreNamed(name.1[1..], map[]);
    }
  }

  lemma {:induction false} RowsAreWellFormed(s: string)
    ensures var rows := ReadBack(s); rows.Some? ==> forall r | r in rows.value :: WellFormed(r)
    decreases |s|
  {
    if s != [] {
      LineIsWellFormed(s);
      var line := ReadLine(s);
      if line.Some? {
        RowsAreWellFormed(line.value.1);
      }
    }
  }

  lemma {:induction false} ExpectedHas(samples: seq<Sample>, now: int, s: Sample)
    requires s in samples && s.name != ""
    ensures Reading(s.name, s.labels, s.value, Stamp(s, now)) in Expected(samples, now)
  {
    if samples[0] != s {
      ExpectedHas(samples[1..], now, s);
    }
  }

  /** What Write built reads back as exactly the named samples, in order, with equal
      label maps, whatever order the labels were written in, if and only if every
      sample that is printed has valid names and a valid value. */
  lemma RoundTrip(samples: seq<Sample>, now: int, lines: seq<string>)
    requires Printed(samples, now, lines)
    ensures ReadBack(Flatten(lines)) == Some(Expected(samples, now)) <==> forall s | s in samples :: Valid(s)
  {
    if forall s | s in samples :: Valid(s) {
      ValidReadsBack(samples, now, lines);
    } else {
      var s :| s in samples && !Valid(s);
      ExpectedHas(samples, now, s);
      RowsAreWellFormed(Flatten(lines));
      assert !WellFormed(Reading(s.name, s.labels, s.value, Stamp(s, now)));
    }
  }

  lemma NameOpensLine(before: string, s: Sample, order: seq<string>, now: int)
    requires forall k | k in order :: k in s.labels
    ensures Line(s.(name := before + s.name), order, now) == before + Line(s, order, now)
  {
    Associative(before, s.name, Line(s.(name := ""), order, now));
  }

  lemma TwoLinesReadBack(one: Sample, two: Sample, order: seq<string>, now: int)
    requires one.name != "" && two.name != "" && Valid(one) && Valid(two)
    requires one.labels == map[] && Walks(order, two.labels)
    ensures ReadBack(Line(one, [], now) + Line(two, order, now)) ==
            Some([Reading(one.name, map[], one.value, Stamp(one, now)),
                  Reading(two.name, two.labels, two.value, Stamp(two, now))])
  {
    var rest := Line(two, order, now);
    var last := Reading(two.name, two.labels, two.value, Stamp(two, now));
    LineReadsBack(two, order, now, "");
    assert rest + "" == rest;
    ReadsOn(rest, last, "");
    assert [last] + [] == [last];
    var head := Reading(one.name, map[], one.value, Stamp(one, now));
    LineReadsBack(one, [], now, rest);
    ReadsOn(Line(one, [], now) + rest, head, rest);
    assert [head] + [last] == [head, last];
  }

  /** A name with a line break in it is read as two rows, the first without the labels. */
  lemma BrokenNameReadsAsTwo(labels: map<string, string>, now: int, line: string)
    requires forall k | k in labels :: LabelName(k)
    requires PrintsAs(Sample("a 1 1\n" + "b", labels, "1", Some(1)), now, line)
    ensures ReadBack(line) == Some([Reading("a", map[], "1", 1), Reading("b", labels, "1", 1)])
  {
    var one, two := Sample("a", map[], "1", Some(1)), Sample("b", labels, "1", Some(1));
    var order :| Walks(order, labels) && line == Line(two.(name := "a 1 1\n" + "b"), order, now);
    NameOpensLine("a 1 1\n", two, order, now);
    PlainLine(one, now);
    TwoLinesReadBack(one, two, order, now);
  }

  lemma PlainLine(s: Sample, now: int)
    requires s == Sample("a", map[], "1", Some(1))
    ensures Line(s, [], now) == "a 1 1\n"
  {
    assert Decimal(1) == "1";
  }

  lemma ReadsOn(text: string, r: Reading, rest: string)
    requires ReadLine(text) == Some((r, rest)) && ReadBack(rest).Some?
    ensures ReadBack(text) == Some([r] + ReadBack(rest).value)
  {
  }
}
