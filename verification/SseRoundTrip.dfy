/** Printing events in the stream format and parsing them back. */
module SseRoundTrip {
  import opened Text
  import opened LineParser
  import opened Sse

  function EventLine(v: string): string { "event:" + v }
  function IdLine(v: string): string { "id:" + v }
  function DataLine(v: string): string { "data:" + v }

  function DataLines(lines: seq<string>): seq<string> {
    if lines == [] then [] else [DataLine(lines[0])] + DataLines(lines[1..])
  }

  function EventLines(e: SseEvent): seq<string> {
    [EventLine(e.eventType)] + ([IdLine(e.id)] + (DataLines(Split(e.data, '\n')) + [""]))
  }

  function AllLines(es: seq<SseEvent>): seq<string> {
    if es == [] then [] else EventLines(es[0]) + AllLines(es[1..])
  }

  function Unlines(lines: seq<string>): string {
    if lines == [] then "" else lines[0] + "\n" + Unlines(lines[1..])
  }

  function Print(es: seq<SseEvent>): string {
    Unlines(AllLines(es))
  }

  predicate NoNewline(s: string) { '\n' !in s }

  lemma {:induction false} ParseUnlines<S, E>(step: Step<S, E>, s: S, lines: seq<string>)
    requires forall k :: 0 <= k < |lines| ==> NoNewline(lines[k])
    ensures var p := ParseLines(step, s, lines); ParseInput(step, s, Unlines(lines)) == Reception(p.0, p.1, "")
    decreases |lines|
  {
    if lines == [] {
      ParseNoLine(step, s, "");
    } else {
      assert NoNewline(lines[0]);
      ParseUnlines(step, step(s, lines[0]).0, lines[1..]);
      ParseOneLine(step, s, lines[0], Unlines(lines[1..]));
    }
  }

  // -------------------------------------------------------------------------
  // What the parser makes of one printed event
  // -------------------------------------------------------------------------

  function Trimmed(lines: seq<string>): (r: seq<string>)
    ensures |r| == |lines|
  {
    if lines == [] then [] else [TrimStart(lines[0])] + Trimmed(lines[1..])
  }

  function DropEmpty(lines: seq<string>): seq<string> {
    if lines != [] && lines[0] == "" then DropEmpty(lines[1..]) else lines
  }

  /** The data lines joined by line feeds, without the leading empty ones. */
  function Data(lines: seq<string>): string {
    Join(DropEmpty(Trimmed(lines)), '\n')
  }

  function Received(e: SseEvent): seq<SseEvent> {
    var name := TrimStart(e.eventType);
    var data := Data(Split(e.data, '\n'));
    if data == "" then []
    else [SseEvent(TrimStart(e.id), if name == "" then "message" else name, data)]
  }

  lemma PrefixStripped(prefix: string, v: string)
    ensures prefix <= prefix + v && (prefix + v)[|prefix|..] == v
  {
  }

  lemma PrefixDiffers(prefix: string, s: string)
    requires prefix != "" && s != "" && prefix[0] != s[0]
    ensures !(prefix <= s)
  {
  }

  lemma ClassifyEvent(v: string)
    ensures Classify("event:" + v) == EventField(TrimStart(v))
  {
    PrefixStripped("event:", v);
  }

  lemma ClassifyId(v: string)
    ensures Classify("id:" + v) == IdField(TrimStart(v))
  {
    PrefixDiffers("event:", "id:" + v);
    PrefixStripped("id:", v);
  }

  lemma ClassifyData(v: string)
    ensures Classify("data:" + v) == DataField(TrimStart(v))
  {
    PrefixDiffers("event:", "data:" + v);
    PrefixDiffers("id:", "data:" + v);
    PrefixStripped("data:", v);
  }

  /** What the lemmas below need to know of the parser's step. */
  ghost predicate Understands(step: Step<Fields, SseEvent>) {
    && (forall f, v :: step(f, EventLine(v)) == Apply(f, EventField(TrimStart(v))))
    && (forall f, v :: step(f, IdLine(v)) == Apply(f, IdField(TrimStart(v))))
    && (forall f, v :: step(f, DataLine(v)) == Apply(f, DataField(TrimStart(v))))
    && (forall f :: step(f, "") == Apply(f, Blank))
  }

  lemma TakeLineUnderstands()
    ensures Understands(TakeLine)
  {
    forall v ensures Classify(EventLine(v)) == EventField(TrimStart(v)) { ClassifyEvent(v); }
    forall v ensures Classify(IdLine(v)) == IdField(TrimStart(v)) { ClassifyId(v); }
    forall v ensures Classify(DataLine(v)) == DataField(TrimStart(v)) { ClassifyData(v); }
  }

  function Absorb(data: string, lines: seq<string>): string
    decreases |lines|
  {
    if lines == [] then data
    else
      var chunk := TrimStart(lines[0]);
      Absorb(if data == "" then chunk else data + "\n" + chunk, lines[1..])
  }

  lemma {:induction false} AbsorbLines(step: Step<Fields, SseEvent>, f: Fields, lines: seq<string>)
    requires Understands(step)
    ensures ParseLines(step, f, DataLines(lines)) == (f.(eventData := Absorb(f.eventData, lines)), [])
    decreases |lines|
  {
    if lines != [] {
      var line := DataLine(lines[0]);
      QuietLine(step, f, line, DataLines(lines[1..]));
      AbsorbLines(step, step(f, line).0, lines[1..]);
    }
  }

  lemma Glue(a: string, b: string, c: string, sep: string)
    ensures a + sep + (b + sep + c) == (a + sep + b) + sep + c
  {
  }

  lemma JoinFirst(parts: seq<string>, c: char)
    requires |parts| > 1
    ensures Join(parts, c) == parts[0] + [c] + Join(parts[1..], c)
  {
  }

  lemma {:induction false} AbsorbMore(data: string, lines: seq<string>)
    requires data != "" && lines != []
    ensures Absorb(data, lines) == data + "\n" + Join(Trimmed(lines), '\n')
    decreases |lines|
  {
    var chunk := TrimStart(lines[0]);
    if |lines| == 1 {
      assert lines[1..] == [];
    } else {
      var tail := Trimmed(lines[1..]);
      assert Trimmed(lines)[0] == chunk && Trimmed(lines)[1..] == tail;
      calc {
        Absorb(data, lines);
        Absorb(data + "\n" + chunk, lines[1..]);
        { AbsorbMore(data + "\n" + chunk, lines[1..]); }
        (data + "\n" + chunk) + "\n" + Join(tail, '\n');
        { Glue(data, chunk, Join(tail, '\n'), "\n"); }
        data + "\n" + (chunk + "\n" + Join(tail, '\n'));
        { JoinFirst(Trimmed(lines), '\n'); }
        data + "\n" + Join(Trimmed(lines), '\n');
      }
    }
  }

  lemma {:induction false} AbsorbFromEmpty(lines: seq<string>)
    ensures Absorb("", lines) == Data(lines)
    decreases |lines|
  {
    if lines != [] {
      var chunk := TrimStart(lines[0]);
      assert Trimmed(lines)[1..] == Trimmed(lines[1..]);
      if chunk == "" {
        AbsorbFromEmpty(lines[1..]);
      } else if |lines| > 1 {
        AbsorbMore(chunk, lines[1..]);
      } else {
        assert lines[1..] == [];
      }
    }
  }

  lemma ParseDataLines(step: Step<Fields, SseEvent>, f: Fields, data: seq<string>)
    requires Understands(step) && f.eventData == ""
    ensures ParseLines(step, f, DataLines(data) + [""]) == Apply(f.(eventData := Data(data)), Blank)
  {
    AbsorbLines(step, f, data);
    AbsorbFromEmpty(data);
    var g := f.(eventData := Data(data));
    LastLine(step, g, "");
    ParseLinesConcat(step, f, DataLines(data), [""]);
    assert [] + Apply(g, Blank).1 == Apply(g, Blank).1;
  }

  lemma ParseHeader(step: Step<Fields, SseEvent>, f: Fields, name: string, id: string, rest: seq<string>)
    requires Understands(step)
    ensures ParseLines(step, f, [EventLine(name)] + ([IdLine(id)] + rest)) ==
            ParseLines(step, Fields(TrimStart(name), TrimStart(id), f.eventData), rest)
  {
    var g := f.(eventType := TrimStart(name));
    assert step(f, EventLine(name)) == (g, []);
    assert step(g, IdLine(id)) == (g.(eventId := TrimStart(id)), []);
    QuietLine(step, f, EventLine(name), [IdLine(id)] + rest);
    QuietLine(step, g, IdLine(id), rest);
  }

  lemma DispatchIsReceived(e: SseEvent)
    ensures var p := Apply(Fields(TrimStart(e.eventType), TrimStart(e.id), Data(Split(e.data, '\n'))), Blank);
            p.1 == Received(e) && p.0.eventData == "" && p.0.eventType == ""
  {
  }

  lemma ParseEvent(step: Step<Fields, SseEvent>, f: Fields, e: SseEvent)
    requires Understands(step) && f.eventData == ""
    ensures var p := ParseLines(step, f, EventLines(e));
            p.1 == Received(e) && p.0.eventData == "" && p.0.eventType == ""
  {
    var data := Split(e.data, '\n');
    var named := Fields(TrimStart(e.eventType), TrimStart(e.id), "");
    calc {
      ParseLines(step, f, EventLines(e));
      { ParseHeader(step, f, e.eventType, e.id, DataLines(data) + [""]); }
      ParseLines(step, named, DataLines(data) + [""]);
      { ParseDataLines(step, named, data); }
      Apply(named.(eventData := Data(data)), Blank);
    }
    DispatchIsReceived(e);
  }

  function FlatMap<A, B>(f: A -> seq<B>, xs: seq<A>): seq<B> {
    if xs == [] then [] else f(xs[0]) + FlatMap(f, xs[1..])
  }

  lemma {:induction false} ParseAllLines(step: Step<Fields, SseEvent>, f: Fields, es: seq<SseEvent>)
    requires Understands(step) && f.eventData == ""
    ensures ParseLines(step, f, AllLines(es)).1 == FlatMap(Received, es)
    decreases |es|
  {
    if es != [] {
      ParseEvent(step, f, es[0]);
      ParseAllLines(step, ParseLines(step, f, EventLines(es[0])).0, es[1..]);
      ParseLinesConcat(step, f, EventLines(es[0]), AllLines(es[1..]));
    }
  }

  // -------------------------------------------------------------------------
  // No printed line contains a line feed
  // -------------------------------------------------------------------------

  predicate OneLine(e: SseEvent) {
    NoNewline(e.eventType) && NoNewline(e.id)
  }

  lemma {:induction false} DataLinesAreLines(lines: seq<string>)
    requires forall k :: 0 <= k < |lines| ==> NoNewline(lines[k])
    ensures forall k :: 0 <= k < |DataLines(lines)| ==> NoNewline(DataLines(lines)[k])
    decreases |lines|
  {
    if lines != [] {
      assert NoNewline(DataLine(lines[0])) by { assert NoNewline(lines[0]); }
      DataLinesAreLines(lines[1..]);
    }
  }

  lemma {:induction false} AllLinesAreLines(es: seq<SseEvent>)
    requires forall k :: 0 <= k < |es| ==> OneLine(es[k])
    ensures forall k :: 0 <= k < |AllLines(es)| ==> NoNewline(AllLines(es)[k])
    decreases |es|
  {
    if es != [] {
      assert OneLine(es[0]);
      SplitParts(es[0].data, '\n');
      DataLinesAreLines(Split(es[0].data, '\n'));
      AllLinesAreLines(es[1..]);
    }
  }

  /** For every list of events whose type and id are single lines, the stream parser receives
      exactly this. */
  lemma ParsePrinted(es: seq<SseEvent>)
    requires forall k :: 0 <= k < |es| ==> OneLine(es[k])
    ensures ParseInput(TakeLine, NO_FIELDS, Print(es)).events == FlatMap(Received, es)
    ensures ParseInput(TakeLine, NO_FIELDS, Print(es)).buffer == ""
  {
    AllLinesAreLines(es);
    ParseUnlines(TakeLine, NO_FIELDS, AllLines(es));
    TakeLineUnderstands();
    ParseAllLines(TakeLine, NO_FIELDS, es);
  }

  // -------------------------------------------------------------------------
  // When that is the list itself
  // -------------------------------------------------------------------------

  predicate StartsWithSpace(s: string) {
    s != "" && IsWhitespace(s[0])
  }

  predicate WellFormed(e: SseEvent) {
    var lines := Split(e.data, '\n');
    && e.eventType != "" && !StartsWithSpace(e.eventType)
    && !StartsWithSpace(e.id)
    && lines[0] != ""
    && forall k :: 0 <= k < |lines| ==> !StartsWithSpace(lines[k])
  }

  lemma {:induction false} JoinTrimmed(lines: seq<string>)
    ensures |Join(Trimmed(lines), '\n')| <= |Join(lines, '\n')|
    ensures |Join(Trimmed(lines), '\n')| == |Join(lines, '\n')| ==>
              Trimmed(lines) == lines && forall k :: 0 <= k < |lines| ==> !StartsWithSpace(lines[k])
    decreases |lines|
  {
    if lines != [] {
      JoinTrimmed(lines[1..]);
      assert Trimmed(lines)[1..] == Trimmed(lines[1..]);
      assert forall k :: 1 <= k < |lines| ==> lines[k] == lines[1..][k - 1];
      assert lines == [lines[0]] + lines[1..];
    }
  }

  lemma {:induction false} TrimmedSame(lines: seq<string>)
    requires forall k :: 0 <= k < |lines| ==> !StartsWithSpace(lines[k])
    ensures Trimmed(lines) == lines
    decreases |lines|
  {
    if lines != [] {
      TrimmedSame(lines[1..]);
    }
  }

  lemma {:induction false} JoinDropped(lines: seq<string>)
    ensures |Join(DropEmpty(lines), '\n')| <= |Join(lines, '\n')|
    ensures lines != [] && lines[0] == "" && Join(DropEmpty(lines), '\n') != "" ==>
              |Join(DropEmpty(lines), '\n')| < |Join(lines, '\n')|
    decreases |lines|
  {
    if lines != [] && lines[0] == "" {
      JoinDropped(lines[1..]);
    }
  }

  lemma ReceivedExactly(e: SseEvent)
    ensures Received(e) == [e] <==> WellFormed(e)
  {
    var lines := Split(e.data, '\n');
    SplitParts(e.data, '\n');
    JoinTrimmed(lines);
    JoinDropped(Trimmed(lines));
    if WellFormed(e) {
      TrimmedSame(lines);
    }
  }

  lemma HeadAndTail<A>(r: seq<A>, rest: seq<A>, xs: seq<A>)
    requires xs != [] && |r| <= 1 && |rest| <= |xs| - 1
    ensures r + rest == xs <==> r == [xs[0]] && rest == xs[1..]
  {
    assert [xs[0]] + xs[1..] == xs;
    if r + rest == xs {
      assert |r| == 1 && (r + rest)[0] == r[0] && (r + rest)[1..] == rest;
    }
  }

  lemma {:induction false} FlatMapIdentity<A>(f: A -> seq<A>, xs: seq<A>)
    requires forall k :: 0 <= k < |xs| ==> |f(xs[k])| <= 1
    ensures |FlatMap(f, xs)| <= |xs|
    ensures FlatMap(f, xs) == xs <==> forall k :: 0 <= k < |xs| ==> f(xs[k]) == [xs[k]]
    decreases |xs|
  {
    if xs != [] {
      assert forall k :: 1 <= k < |xs| ==> xs[k] == xs[1..][k - 1];
      FlatMapIdentity(f, xs[1..]);
      HeadAndTail(f(xs[0]), FlatMap(f, xs[1..]), xs);
    }
  }

  predicate OneLineFields(f: Fields) {
    NoNewline(f.eventType) && NoNewline(f.eventId)
  }

  lemma TakeLineStaysOneLine(f: Fields, line: string)
    requires OneLineFields(f) && NoNewline(line)
    ensures OneLineFields(TakeLine(f, line).0)
    ensures forall k :: 0 <= k < |TakeLine(f, line).1| ==> OneLine(TakeLine(f, line).1[k])
  {
    match Classify(line)
    case EventField(value) => assert NoNewline(value);
    case IdField(value) => assert NoNewline(value);
    case _ =>
  }

  /** No event that is ever parsed has a type or an id of several lines. */
  lemma {:induction false} ParsedAreOneLine(f: Fields, lines: seq<string>)
    requires OneLineFields(f) && forall k :: 0 <= k < |lines| ==> NoNewline(lines[k])
    ensures forall k :: 0 <= k < |ParseLines(TakeLine, f, lines).1| ==> OneLine(ParseLines(TakeLine, f, lines).1[k])
    decreases |lines|
  {
    if lines != [] {
      TakeLineStaysOneLine(f, lines[0]);
      ParsedAreOneLine(TakeLine(f, lines[0]).0, lines[1..]);
    }
  }

  lemma RoundTripOfOneLiners(es: seq<SseEvent>)
    requires forall k :: 0 <= k < |es| ==> OneLine(es[k])
    ensures ParseInput(TakeLine, NO_FIELDS, Print(es)).events == es <==>
            forall k :: 0 <= k < |es| ==> WellFormed(es[k])
  {
    ParsePrinted(es);
    forall k | 0 <= k < |es| ensures |Received(es[k])| <= 1 && (Received(es[k]) == [es[k]] <==> WellFormed(es[k])) {
      ReceivedExactly(es[k]);
    }
    FlatMapIdentity(Received, es);
  }

  /** For every list of events: printing and parsing it gives the same list if and only if
      every event has a single-line type and id and is well formed. */
  lemma RoundTripExactly(es: seq<SseEvent>)
    ensures ParseInput(TakeLine, NO_FIELDS, Print(es)).events == es <==>
            forall k :: 0 <= k < |es| ==> OneLine(es[k]) && WellFormed(es[k])
  {
    var parts := Split(Print(es), '\n');
    SplitParts(Print(es), '\n');
    ParsedAreOneLine(NO_FIELDS, ButLast(parts));
    if forall k :: 0 <= k < |es| ==> OneLine(es[k]) {
      RoundTripOfOneLiners(es);
    }
  }
}
