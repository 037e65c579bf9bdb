/** The parser against the rules of the WHATWG HTML Living Standard, section 9.2.6: on exactly
    which streams both send the same events. */
module SseStandard {
  import opened Options
  import opened Text
  import opened LineParser
  import opened Sse
  import opened SseRoundTrip

  // -------------------------------------------------------------------------
  // The standard's rules for one line
  // -------------------------------------------------------------------------

  datatype Buffers = Buffers(eventType: string, lastId: string, data: string)

  /** A line is empty, a comment, or a field with or without a colon. */
  datatype Shape = EmptyLine | Comment | Field(name: string, value: string, colon: bool)

  function DropSpace(v: string): string {
    if v != "" && v[0] == ' ' then v[1..] else v
  }

  function ShapeOf(line: string): Shape {
    var i := Find(line, ':');
    if line == "" then EmptyLine
    else if i == 0 then Comment
    else if i < |line| then Field(line[..i], DropSpace(line[i + 1..]), true)
    else Field(line, "", false)
  }

  function Process(b: Buffers, name: string, value: string): Buffers {
    if name == "event" then b.(eventType := value)
    else if name == "data" then b.(data := b.data + value + "\n")
    else if name == "id" && '\0' !in value then b.(lastId := value)
    else b
  }

  function DispatchBuffers(b: Buffers): (Buffers, seq<SseEvent>) {
    if b.data == "" then (b.(eventType := ""), [])
    else
      var name := if b.eventType == "" then "message" else b.eventType;
      (Buffers("", b.lastId, ""), [SseEvent(b.lastId, name, WithoutLast(b.data))])
  }

  /** The data buffer always ends in a line feed. */
  function WithoutLast(data: string): string {
    if data != "" && data[|data| - 1] == '\n' then data[..|data| - 1] else data
  }

  function StandardLine(b: Buffers, line: string): (Buffers, seq<SseEvent>) {
    match ShapeOf(line)
    case EmptyLine => DispatchBuffers(b)
    case Comment => (b, [])
    case Field(name, value, _) => (Process(b, name, value), [])
  }

  const NO_BUFFERS := Buffers("", "", "")

  // -------------------------------------------------------------------------
  // What the code makes of the same line
  // -------------------------------------------------------------------------

  predicate IsField(line: string, name: string) {
    ShapeOf(line).Field? && ShapeOf(line).name == name
  }

  lemma PrefixIsField(line: string, name: string)
    requires name != "" && ':' !in name
    ensures name + ":" <= line <==> IsField(line, name) && ShapeOf(line).colon
    ensures name + ":" <= line ==> ShapeOf(line).value == DropSpace(line[|name| + 1..])
  {
    if name + ":" <= line {
      assert forall j :: 0 <= j < |name| ==> line[j] == (name + ":")[j];
      assert line[|name|] == (name + ":")[|name|];
      FindUnique(line, ':', |name|);
      assert line[..|name|] == name;
    }
  }

  lemma TrimAfterDrop(v: string)
    ensures TrimStart(DropSpace(v)) == TrimStart(v)
  {
    assert IsWhitespace(' ');
  }

  /** Only the fields with a colon reach the code, and it trims more. */
  lemma ClassifiedAs(line: string)
    ensures Classify(line) == match ShapeOf(line)
                              case EmptyLine => Blank
                              case Comment => Ignored
                              case Field(name, value, colon) =>
                                if !colon then Ignored
                                else if name == "event" then EventField(TrimStart(value))
                                else if name == "id" then IdField(TrimStart(value))
                                else if name == "data" then DataField(TrimStart(value))
                                else Ignored
  {
    PrefixIsField(line, "event");
    PrefixIsField(line, "id");
    PrefixIsField(line, "data");
    assert "event" + ":" == "event:" && "id" + ":" == "id:" && "data" + ":" == "data:";
    if "event:" <= line {
      TrimAfterDrop(line[|"event:"|..]);
    } else if "id:" <= line {
      TrimAfterDrop(line[|"id:"|..]);
    } else if "data:" <= line {
      TrimAfterDrop(line[|"data:"|..]);
    }
  }

  // -------------------------------------------------------------------------
  // A block: the lines between two empty ones
  // -------------------------------------------------------------------------

  predicate IsBlock(b: seq<string>) {
    forall k :: 0 <= k < |b| ==> b[k] != ""
  }

  /** The last value in a block, or what was there before it. */
  function LastValue(b: seq<string>, f: string -> Option<string>, before: string): string {
    if b == [] then before
    else
      var n := |b| - 1;
      if f(b[n]).Some? then f(b[n]).value else LastValue(b[..n], f, before)
  }

  /** All values in a block, in order. */
  function AllValues(b: seq<string>, f: string -> Option<string>): seq<string> {
    if b == [] then []
    else
      var n := |b| - 1;
      AllValues(b[..n], f) + if f(b[n]).Some? then [f(b[n]).value] else []
  }

  function ValueOf(name: string): string -> Option<string> {
    (line: string) => if IsField(line, name) then Some(ShapeOf(line).value) else None
  }

  function TrimmedOf(name: string): string -> Option<string> {
    (line: string) =>
      if IsField(line, name) && ShapeOf(line).colon then Some(TrimStart(ShapeOf(line).value)) else None
  }

  /** An id with a null character is ignored by the standard. */
  function StandardId(): string -> Option<string> {
    (line: string) =>
      if IsField(line, "id") && '\0' !in ShapeOf(line).value then Some(ShapeOf(line).value) else None
  }

  function Terminated(values: seq<string>): string {
    if values == [] then ""
    else
      var n := |values| - 1;
      Terminated(values[..n]) + values[n] + "\n"
  }

  /** The data of the code, one value after the other. */
  function Collected(values: seq<string>): string {
    if values == [] then ""
    else
      var n := |values| - 1;
      var data := Collected(values[..n]);
      if data == "" then values[n] else data + "\n" + values[n]
  }

  function EventIn(l: Line): Option<string> { if l.EventField? then Some(l.value) else None }
  function IdIn(l: Line): Option<string> { if l.IdField? then Some(l.value) else None }
  function DataIn(l: Line): Option<string> { if l.DataField? then Some(l.value) else None }

  function Or(value: Option<string>, before: string): string {
    if value.Some? then value.value else before
  }

  lemma LineParts(line: string)
    requires line != ""
    ensures !Classify(line).Blank?
    ensures EventIn(Classify(line)) == TrimmedOf("event")(line)
    ensures IdIn(Classify(line)) == TrimmedOf("id")(line)
    ensures DataIn(Classify(line)) == TrimmedOf("data")(line)
  {
    ClassifiedAs(line);
    EmptyShape(line);
  }

  lemma ApplyParts(f: Fields, l: Line)
    requires !l.Blank?
    ensures Apply(f, l) ==
            (Fields(Or(EventIn(l), f.eventType), Or(IdIn(l), f.eventId),
                    if DataIn(l).None? then f.eventData
                    else if f.eventData == "" then DataIn(l).value
                    else f.eventData + "\n" + DataIn(l).value), [])
  {
  }

  lemma OneLineOfBlock(f: Fields, line: string)
    requires line != ""
    ensures var d := TrimmedOf("data")(line);
            TakeLine(f, line) ==
            (Fields(Or(TrimmedOf("event")(line), f.eventType), Or(TrimmedOf("id")(line), f.eventId),
                    if d.None? then f.eventData
                    else if f.eventData == "" then d.value
                    else f.eventData + "\n" + d.value), [])
  {
    LineParts(line);
    ApplyParts(f, Classify(line));
  }

  lemma EmptyShape(line: string)
    ensures ShapeOf(line).EmptyLine? <==> line == ""
  {
  }

  lemma OneLineOfStandard(g: Buffers, line: string)
    requires line != ""
    ensures StandardLine(g, line) ==
            (Buffers(Or(ValueOf("event")(line), g.eventType), Or(StandardId()(line), g.lastId),
                     if ValueOf("data")(line).None? then g.data
                     else g.data + ValueOf("data")(line).value + "\n"), [])
  {
    EmptyShape(line);
  }

  /** What the code holds at the end of a block. */
  function CodeAfter(b: seq<string>, id: string): Fields {
    Fields(LastValue(b, TrimmedOf("event"), ""), LastValue(b, TrimmedOf("id"), id),
           Collected(AllValues(b, TrimmedOf("data"))))
  }

  function StandardAfter(b: seq<string>, id: string): Buffers {
    Buffers(LastValue(b, ValueOf("event"), ""), LastValue(b, StandardId(), id),
            Terminated(AllValues(b, ValueOf("data"))))
  }

  lemma AddValue(values: seq<string>, v: string)
    ensures Collected(values + [v]) == if Collected(values) == "" then v else Collected(values) + "\n" + v
    ensures Terminated(values + [v]) == Terminated(values) + v + "\n"
  {
    assert (values + [v])[..|values|] == values;
  }

  lemma AddLine(b: seq<string>, line: string, i: string, j: string)
    requires line != ""
    ensures TakeLine(CodeAfter(b, i), line) == (CodeAfter(b + [line], i), [])
    ensures StandardLine(StandardAfter(b, j), line) == (StandardAfter(b + [line], j), [])
  {
    assert (b + [line])[..|b|] == b;
    OneLineOfBlock(CodeAfter(b, i), line);
    OneLineOfStandard(StandardAfter(b, j), line);
    var c, d := AllValues(b, TrimmedOf("data")), AllValues(b, ValueOf("data"));
    if TrimmedOf("data")(line).Some? {
      AddValue(c, TrimmedOf("data")(line).value);
    } else {
      assert c + [] == c;
    }
    if ValueOf("data")(line).Some? {
      AddValue(d, ValueOf("data")(line).value);
    } else {
      assert d + [] == d;
    }
  }

  lemma {:induction false} ParseBlock(b: seq<string>, i: string, j: string)
    requires IsBlock(b)
    ensures ParseLines(TakeLine, Fields("", i, ""), b) == (CodeAfter(b, i), [])
    ensures ParseLines(StandardLine, Buffers("", j, ""), b) == (StandardAfter(b, j), [])
    decreases |b|
  {
    if b != [] {
      var front, line := b[..|b| - 1], b[|b| - 1];
      assert b == front + [line];
      ParseBlock(front, i, j);
      ParseLinesConcat(TakeLine, Fields("", i, ""), front, [line]);
      ParseLinesConcat(StandardLine, Buffers("", j, ""), front, [line]);
      LastLine(TakeLine, CodeAfter(front, i), line);
      LastLine(StandardLine, StandardAfter(front, j), line);
      AddLine(front, line, i, j);
    }
  }

  // -------------------------------------------------------------------------
  // When both dispatch the same at the end of a block
  // -------------------------------------------------------------------------

  function DataValues(b: seq<string>): seq<string> {
    AllValues(b, ValueOf("data"))
  }

  predicate HasData(b: seq<string>) {
    DataValues(b) != []
  }

  /** The line is not a data field, or one with a colon and no further white space in front. */
  predicate PlainData(line: string) {
    IsField(line, "data") ==> ShapeOf(line).colon && !StartsWithSpace(ShapeOf(line).value)
  }

  predicate AllPlain(b: seq<string>) {
    forall k :: 0 <= k < |b| ==> PlainData(b[k])
  }

  /** All data lines are plain and the first one is not empty. */
  predicate DataKept(b: seq<string>) {
    HasData(b) && DataValues(b)[0] != "" && AllPlain(b)
  }

  predicate IsDefault(name: string) {
    name == "" || name == "message"
  }

  /** The last event field is plain; one without a colon, which means the default to the
      standard and nothing to the code, comes after no other name. */
  predicate NameKept(b: seq<string>) {
    if b == [] then true
    else
      var line := b[|b| - 1];
      if !IsField(line, "event") then NameKept(b[..|b| - 1])
      else if ShapeOf(line).colon then !StartsWithSpace(ShapeOf(line).value)
      else IsDefault(LastValue(b, TrimmedOf("event"), ""))
  }

  /** The id in force is the same for both. */
  predicate IdKept(b: seq<string>, i: string, j: string) {
    LastValue(b, TrimmedOf("id"), i) == LastValue(b, StandardId(), j)
  }

  function Named(name: string): string {
    if name == "" then "message" else name
  }

  lemma TrimmedLength(v: string)
    ensures |TrimStart(v)| == |v| <==> TrimStart(v) == v
    ensures TrimStart(v) == v <==> !StartsWithSpace(v)
  {
    assert |TrimStart(v)| == |v| ==> TrimStart(v) == v[0..];
  }

  lemma {:induction false} NameKeptExactly(b: seq<string>)
    ensures Named(LastValue(b, TrimmedOf("event"), "")) == Named(LastValue(b, ValueOf("event"), "")) <==> NameKept(b)
    decreases |b|
  {
    if b != [] {
      var line := b[|b| - 1];
      if !IsField(line, "event") {
        NameKeptExactly(b[..|b| - 1]);
      } else if ShapeOf(line).colon {
        var v := ShapeOf(line).value;
        TrimmedLength(v);
        assert StartsWithSpace(v) ==> v != "message" && v != "";
      }
    }
  }

  /** The values of the code against those of the standard, by their total length. */
  predicate Outweighed(c: seq<string>, d: seq<string>, plain: bool) {
    && |Terminated(c)| <= |Terminated(d)|
    && (|Terminated(c)| == |Terminated(d)| <==> plain)
    && (plain ==> c == d)
    && (d == [] ==> c == [])
  }

  lemma OutweighedOneMore(c: seq<string>, d: seq<string>, plain: bool, v: string, colon: bool)
    requires Outweighed(c, d, plain)
    ensures Outweighed(if colon then c + [TrimStart(v)] else c, d + [v], plain && colon && !StartsWithSpace(v))
  {
    TrimmedLength(v);
    AddValue(d, v);
    AddValue(c, TrimStart(v));
  }

  lemma AllPlainSnoc(front: seq<string>, line: string)
    ensures AllPlain(front + [line]) <==> AllPlain(front) && PlainData(line)
  {
    var b := front + [line];
    if AllPlain(b) {
      assert PlainData(b[|front|]);
      assert forall k :: 0 <= k < |front| ==> b[k] == front[k];
    }
  }

  lemma {:induction false} ValuesWeight(b: seq<string>)
    ensures Outweighed(AllValues(b, TrimmedOf("data")), DataValues(b), AllPlain(b))
    decreases |b|
  {
    if b != [] {
      var front, line := b[..|b| - 1], b[|b| - 1];
      assert b == front + [line];
      ValuesWeight(front);
      AllPlainSnoc(front, line);
      var c, d := AllValues(front, TrimmedOf("data")), DataValues(front);
      if IsField(line, "data") {
        OutweighedOneMore(c, d, AllPlain(front), ShapeOf(line).value, ShapeOf(line).colon);
        assert c + [] == c;
      } else {
        assert c + [] == c && d + [] == d;
      }
    }
  }

  lemma {:induction false} CollectedWeight(c: seq<string>)
    requires c != []
    ensures |Collected(c)| < |Terminated(c)|
    ensures c[0] != "" ==> Collected(c) != "" && Collected(c) + "\n" == Terminated(c)
    ensures c[0] == "" && Collected(c) != "" ==> |Collected(c)| + 1 < |Terminated(c)|
    decreases |c|
  {
    var n := |c| - 1;
    if n > 0 {
      CollectedWeight(c[..n]);
      assert c[..n][0] == c[0];
    } else {
      assert c[..0] == [];
    }
  }

  lemma TerminatedEnds(d: seq<string>)
    requires d != []
    ensures Terminated(d) != "" && WithoutLast(Terminated(d)) + "\n" == Terminated(d)
  {
  }

  /** Whether the code has data, and the standard's data, can be read off the lines. */
  lemma DataKeptExactly(b: seq<string>)
    requires HasData(b)
    ensures var code := Collected(AllValues(b, TrimmedOf("data")));
            code != "" && code == WithoutLast(Terminated(DataValues(b))) <==> DataKept(b)
  {
    var c, d := AllValues(b, TrimmedOf("data")), DataValues(b);
    ValuesWeight(b);
    TerminatedEnds(d);
    if c != [] {
      CollectedWeight(c);
    }
    if DataKept(b) {
      assert Collected(c) + "\n" == WithoutLast(Terminated(d)) + "\n";
      assert (Collected(c) + "\n")[..|Collected(c)|] == Collected(c);
    }
  }

  function CodeSends(b: seq<string>, i: string): seq<SseEvent> {
    Apply(CodeAfter(b, i), Blank).1
  }

  function StandardSends(b: seq<string>, j: string): seq<SseEvent> {
    DispatchBuffers(StandardAfter(b, j)).1
  }

  predicate BlockKept(b: seq<string>, i: string, j: string) {
    HasData(b) ==> DataKept(b) && NameKept(b) && IdKept(b, i, j)
  }

  lemma DispatchAgrees(f: Fields, g: Buffers)
    requires g.data != ""
    ensures Apply(f, Blank).1 == DispatchBuffers(g).1 <==>
            f.eventData != "" && f.eventData == WithoutLast(g.data)
            && Named(f.eventType) == Named(g.eventType) && f.eventId == g.lastId
    ensures |Apply(f, Blank).1| <= |DispatchBuffers(g).1|
  {
  }

  /** One block: both send the same if and only if it has no data for the standard, or data,
      name and id are kept. */
  lemma BlockKeptExactly(b: seq<string>, i: string, j: string)
    ensures CodeSends(b, i) == StandardSends(b, j) <==> BlockKept(b, i, j)
    ensures |CodeSends(b, i)| <= |StandardSends(b, j)|
  {
    if HasData(b) {
      TerminatedEnds(DataValues(b));
      DispatchAgrees(CodeAfter(b, i), StandardAfter(b, j));
      DataKeptExactly(b);
      NameKeptExactly(b);
    } else {
      ValuesWeight(b);
    }
  }

  // -------------------------------------------------------------------------
  // Whole streams
  // -------------------------------------------------------------------------

  function FirstEmpty(lines: seq<string>): (k: nat)
    ensures k <= |lines| && IsBlock(lines[..k]) && (k < |lines| ==> lines[k] == "")
  {
    if lines == [] || lines[0] == "" then 0
    else
      var k := 1 + FirstEmpty(lines[1..]);
      assert lines[..k] == [lines[0]] + lines[1..][..k - 1];
      k
  }

  /** The blocks that an empty line ends. */
  function Blocks(lines: seq<string>): seq<seq<string>>
    decreases |lines|
  {
    var k := FirstEmpty(lines);
    if k == |lines| then [] else [lines[..k]] + Blocks(lines[k + 1..])
  }

  /** The id that the code carries into the next block. */
  function CarriedId(b: seq<string>, i: string): string {
    if HasData(b) then "" else LastValue(b, TrimmedOf("id"), i)
  }

  /** Every block is kept; a sent event takes the code's id with it, the standard's stays. */
  predicate AllKept(blocks: seq<seq<string>>, i: string, j: string)
    decreases |blocks|
  {
    blocks == [] ||
    var b := blocks[0];
    && BlockKept(b, i, j)
    && AllKept(blocks[1..], CarriedId(b, i), LastValue(b, StandardId(), j))
  }

  lemma CutEqual<A>(a: seq<A>, a': seq<A>, b: seq<A>, b': seq<A>)
    requires |a| <= |b| && |a'| <= |b'|
    ensures a + a' == b + b' <==> a == b && a' == b'
  {
    if a + a' == b + b' {
      assert |a| == |b|;
      assert (a + a')[..|a|] == a && (b + b')[..|b|] == b;
      assert (a + a')[|a|..] == a' && (b + b')[|b|..] == b';
    }
  }

  lemma ParseFirstBlock<S, E>(step: Step<S, E>, s: S, b: seq<string>, rest: seq<string>, t: S)
    requires ParseLines(step, s, b) == (t, [])
    ensures ParseLines(step, s, b + ([""] + rest)).1 == step(t, "").1 + ParseLines(step, step(t, "").0, rest).1
  {
    ParseLinesConcat(step, s, b, [""] + rest);
    var lines := [""] + rest;
    assert lines[0] == "" && lines[1..] == rest;
    assert [] + ParseLines(step, t, lines).1 == ParseLines(step, t, lines).1;
  }

  /** Where the code stands after the empty line. */
  function IdAfter(b: seq<string>, i: string): string {
    Apply(CodeAfter(b, i), Blank).0.eventId
  }

  lemma AfterBlock(b: seq<string>, i: string, j: string)
    ensures TakeLine(CodeAfter(b, i), "") == (Fields("", IdAfter(b, i), ""), CodeSends(b, i))
    ensures StandardLine(StandardAfter(b, j), "") ==
            (Buffers("", LastValue(b, StandardId(), j), ""), StandardSends(b, j))
    ensures BlockKept(b, i, j) ==> IdAfter(b, i) == CarriedId(b, i)
  {
    EmptyShape("");
    if HasData(b) {
      DataKeptExactly(b);
    } else {
      ValuesWeight(b);
    }
  }

  lemma {:induction false} SameLinesExactly(lines: seq<string>, i: string, j: string)
    ensures var code := ParseLines(TakeLine, Fields("", i, ""), lines).1;
            var standard := ParseLines(StandardLine, Buffers("", j, ""), lines).1;
            |code| <= |standard| && (code == standard <==> AllKept(Blocks(lines), i, j))
    decreases |lines|
  {
    var k := FirstEmpty(lines);
    if k == |lines| {
      assert lines[..k] == lines;
      ParseBlock(lines, i, j);
    } else {
      var b, rest := lines[..k], lines[k + 1..];
      assert lines == b + ([""] + rest);
      ParseBlock(b, i, j);
      ParseFirstBlock(TakeLine, Fields("", i, ""), b, rest, CodeAfter(b, i));
      ParseFirstBlock(StandardLine, Buffers("", j, ""), b, rest, StandardAfter(b, j));
      AfterBlock(b, i, j);
      BlockKeptExactly(b, i, j);
      var i', j' := IdAfter(b, i), LastValue(b, StandardId(), j);
      SameLinesExactly(rest, i', j');
      CutEqual(CodeSends(b, i), ParseLines(TakeLine, Fields("", i', ""), rest).1,
               StandardSends(b, j), ParseLines(StandardLine, Buffers("", j', ""), rest).1);
      FirstOfBlocks(b, Blocks(rest), i, j);
    }
  }

  lemma FirstOfBlocks(b: seq<string>, rest: seq<seq<string>>, i: string, j: string)
    ensures AllKept([b] + rest, i, j) <==>
            BlockKept(b, i, j)
            && AllKept(rest, CarriedId(b, i), LastValue(b, StandardId(), j))
  {
    assert ([b] + rest)[1..] == rest;
  }

  /** For every stream of LF-terminated lines, the code sends the events that the standard asks
      for if and only if every block that has data is kept. */
  lemma SameEventsExactly(input: string)
    ensures ParseInput(TakeLine, NO_FIELDS, input).events == ParseInput(StandardLine, NO_BUFFERS, input).events <==>
            AllKept(Blocks(ButLast(Split(input, '\n'))), "", "")
  {
    SameLinesExactly(ButLast(Split(input, '\n')), "", "");
  }
}
