/** Parsing a text line by line, given what one line does. */
module LineParser {
  import opened Text

  /** The new state and the events of one line. */
  type Step<!S, !E> = (S, string) -> (S, seq<E>)

  function ParseLines<S, E>(step: Step<S, E>, s: S, lines: seq<string>): (S, seq<E>)
    decreases |lines|
  {
    if lines == [] then (s, [])
    else
      var first := step(s, lines[0]);
      var rest := ParseLines(step, first.0, lines[1..]);
      (rest.0, first.1 + rest.1)
  }

  /** A line without events only changes the state. */
  lemma QuietLine<S, E>(step: Step<S, E>, s: S, line: string, rest: seq<string>)
    requires step(s, line).1 == []
    ensures ParseLines(step, s, [line] + rest) == ParseLines(step, step(s, line).0, rest)
  {
    var lines := [line] + rest;
    assert lines[0] == line && lines[1..] == rest;
    assert [] + ParseLines(step, step(s, line).0, rest).1 == ParseLines(step, step(s, line).0, rest).1;
  }

  lemma LastLine<S, E>(step: Step<S, E>, s: S, line: string)
    ensures ParseLines(step, s, [line]) == step(s, line)
  {
    assert [line][1..] == [];
    assert step(s, line).1 + [] == step(s, line).1;
  }

  /** Where a parser is after some input: its state, the events so far, the unfinished line. */
  datatype Reception<S, E> = Reception(state: S, events: seq<E>, buffer: string)

  /** The reference: split the whole input into lines and take them in order. */
  function ParseInput<S, E>(step: Step<S, E>, s: S, input: string): Reception<S, E> {
    var parts := Split(input, '\n');
    var p := ParseLines(step, s, ButLast(parts));
    Reception(p.0, p.1, Last(parts))
  }

  lemma Assoc<T>(a: seq<T>, b: seq<T>, c: seq<T>)
    ensures a + (b + c) == a + b + c
  {
  }

  lemma {:induction false} ParseLinesConcat<S, E>(step: Step<S, E>, s: S, a: seq<string>, b: seq<string>)
    ensures var p := ParseLines(step, s, a);
            var q := ParseLines(step, p.0, b);
            ParseLines(step, s, a + b) == (q.0, p.1 + q.1)
    decreases |a|
  {
    if a == [] {
      assert a + b == b;
      assert [] + ParseLines(step, s, b).1 == ParseLines(step, s, b).1;
    } else {
      var first := step(s, a[0]);
      ParseLinesConcat(step, first.0, a[1..], b);
      assert (a + b)[0] == a[0] && (a + b)[1..] == a[1..] + b;
      Assoc(first.1, ParseLines(step, first.0, a[1..]).1, ParseLines(step, ParseLines(step, s, a).0, b).1);
    }
  }

  /** Parsing may stop and go on anywhere, if the unfinished line is put back in front. */
  lemma ParseInPieces<S, E>(step: Step<S, E>, s: S, x: string, y: string)
    ensures var p := ParseInput(step, s, x);
            var q := ParseInput(step, p.state, p.buffer + y);
            ParseInput(step, s, x + y) == Reception(q.state, p.events + q.events, q.buffer)
  {
    var parts := Split(x, '\n');
    var rest := Split(Last(parts) + y, '\n');
    SplitConcat(x, y, '\n');
    LastOfConcat(ButLast(parts), rest);
    ParseLinesConcat(step, s, ButLast(parts), ButLast(rest));
  }

  lemma ParseOneLine<S, E>(step: Step<S, E>, s: S, line: string, rest: string)
    requires '\n' !in line
    ensures var p := step(s, line);
            var q := ParseInput(step, p.0, rest);
            ParseInput(step, s, line + "\n" + rest) == Reception(q.state, p.1 + q.events, q.buffer)
  {
    SplitStep(line, rest, '\n');
    LastOfConcat([line], Split(rest, '\n'));
    var lines := [line] + ButLast(Split(rest, '\n'));
    assert lines[0] == line && lines[1..] == ButLast(Split(rest, '\n'));
  }

  lemma ParseNoLine<S, E>(step: Step<S, E>, s: S, input: string)
    requires '\n' !in input
    ensures ParseInput(step, s, input) == Reception(s, [], input)
  {
    SplitNone(input, '\n');
    assert ButLast([input]) == [];
  }

  // -------------------------------------------------------------------------
  // Chunks
  // -------------------------------------------------------------------------

  function Flatten(chunks: seq<string>): string {
    if chunks == [] then "" else chunks[0] + Flatten(chunks[1..])
  }

  function ParseChunks<S, E>(step: Step<S, E>, s: S, buffer: string, chunks: seq<string>): Reception<S, E>
    decreases |chunks|
  {
    if chunks == [] then Reception(s, [], buffer)
    else
      var p := ParseInput(step, s, buffer + chunks[0]);
      var q := ParseChunks(step, p.state, p.buffer, chunks[1..]);
      Reception(q.state, p.events + q.events, q.buffer)
  }

  /** However a character stream is cut into chunks, an incremental parser ends where the parser
      of the whole stream ends: same events, same state, same unfinished line. */
  lemma {:induction false} ChunkInvariance<S, E>(step: Step<S, E>, s: S, buffer: string, chunks: seq<string>)
    requires '\n' !in buffer
    ensures ParseChunks(step, s, buffer, chunks) == ParseInput(step, s, buffer + Flatten(chunks))
    decreases |chunks|
  {
    if chunks == [] {
      assert buffer + "" == buffer;
      ParseNoLine(step, s, buffer);
    } else {
      var p := ParseInput(step, s, buffer + chunks[0]);
      SplitParts(buffer + chunks[0], '\n');
      ChunkInvariance(step, p.state, p.buffer, chunks[1..]);
      ParseInPieces(step, s, buffer + chunks[0], Flatten(chunks[1..]));
      assert (buffer + chunks[0]) + Flatten(chunks[1..]) == buffer + Flatten(chunks);
    }
  }
}
