/** The incremental parser of the event stream. */
module Sse {
  import opened Text
  import opened LineParser

  datatype SseEvent = SseEvent(id: string, eventType: string, data: string)

  // -------------------------------------------------------------------------
  // One line
  // -------------------------------------------------------------------------

  /** The characters of Unicode property White_Space, which `trim_start` removes. */
  predicate IsWhitespace(c: char) {
    || '\t' <= c <= '\r' || c == ' '
    || c == '\U{85}' || c == '\U{A0}' || c == '\U{1680}'
    || '\U{2000}' <= c <= '\U{200A}'
    || c == '\U{2028}' || c == '\U{2029}' || c == '\U{202F}' || c == '\U{205F}' || c == '\U{3000}'
  }

  /** The code points with that property. */
  lemma WhitespaceIsUnicode(c: char)
    ensures IsWhitespace(c) <==>
            c as int in [0x09, 0x0A, 0x0B, 0x0C, 0x0D, 0x20, 0x85, 0xA0, 0x1680, 0x2000, 0x2001, 0x2002, 0x2003, 0x2004,
                         0x2005, 0x2006, 0x2007, 0x2008, 0x2009, 0x200A, 0x2028, 0x2029, 0x202F, 0x205F, 0x3000]
  {
  }

  function TrimStart(s: string): (t: string)
    ensures t == "" || !IsWhitespace(t[0])
    ensures |t| <= |s| && t == s[|s| - |t|..]
    ensures forall k :: 0 <= k < |s| - |t| ==> IsWhitespace(s[k])
  {
    if s != "" && IsWhitespace(s[0]) then TrimStart(s[1..]) else s
  }

  /** What one complete line means. */
  datatype Line = Blank | EventField(value: string) | IdField(value: string) | DataField(value: string) | Ignored

  function Classify(line: string): Line {
    if line == "" then Blank
    else if "event:" <= line then EventField(TrimStart(line[|"event:"|..]))
    else if "id:" <= line then IdField(TrimStart(line[|"id:"|..]))
    else if "data:" <= line then DataField(TrimStart(line[|"data:"|..]))
    else Ignored
  }

  /** The three strings that collect the event being received. */
  datatype Fields = Fields(eventType: string, eventId: string, eventData: string)

  const NO_FIELDS := Fields("", "", "")

  function Apply(f: Fields, line: Line): (Fields, seq<SseEvent>) {
    match line
    case Blank =>
      if f.eventData == "" then (f.(eventType := ""), [])
      else
        var name := if f.eventType == "" then "message" else f.eventType;
        (NO_FIELDS, [SseEvent(f.eventId, name, f.eventData)])
    case EventField(value) => (f.(eventType := value), [])
    case IdField(value) => (f.(eventId := value), [])
    case DataField(value) =>
      (f.(eventData := if f.eventData == "" then value else f.eventData + "\n" + value), [])
    case Ignored => (f, [])
  }

  function TakeLine(f: Fields, line: string): (Fields, seq<SseEvent>) {
    Apply(f, Classify(line))
  }

  // -------------------------------------------------------------------------
  // The parsing task
  // -------------------------------------------------------------------------

  /** The state of the spawned task.  The receiver takes `takes` events and then goes away, at
      a moment the task does not know. */
  class Subscription {
    var eventType: string
    var eventId: string
    var eventData: string
    var buffer: string
    var sent: seq<SseEvent>
    var open: bool
    const takes: nat

    ghost function View(): Reception<Fields, SseEvent>
      reads this
    {
      Reception(Fields(eventType, eventId, eventData), sent, buffer)
    }

    /** The task is where the reference parser is after `input`, or the receiver has gone
        after the first `takes` events of the input. */
    ghost predicate Follows(input: string)
      reads this
    {
      var p := ParseInput(TakeLine, NO_FIELDS, input);
      if open then View() == p && |sent| <= takes
      else |p.events| > takes && sent == p.events[..takes]
    }

    constructor (takes: nat)
      ensures Follows("") && open && this.takes == takes
    {
      eventType, eventId, eventData, buffer := "", "", "", "";
      sent, open := [], true;
      this.takes := takes;
    }

    /** A blank line: dispatch the event, if there is data. */
    method Dispatch()
      requires open && |sent| <= takes
      modifies this`eventType, this`eventId, this`eventData, this`sent, this`open
      ensures var (fields, events) := Apply(old(View()).state, Blank);
              && open == (|old(sent) + events| <= takes)
              && (open ==> View() == Reception(fields, old(sent) + events, buffer))
              && (!open ==> sent == old(sent) && |sent| == takes)
    {
      if eventData != "" {
        var name := eventType;
        if eventType == "" {
          name := "message";
        } else {
          eventType := "";
        }
        var evt := SseEvent(eventId, name, eventData);
        eventId, eventData := "", "";
        if |sent| == takes {
          open := false;
          return;
        }
        sent := sent + [evt];
      }
      eventType := "";
    }

    /** Any other line: set or extend one of the three strings, or ignore the line. */
    method HandleField(line: Line)
      requires !line.Blank?
      modifies this`eventType, this`eventId, this`eventData
      ensures (View().state, []) == Apply(old(View()).state, line)
    {
      match line
      case EventField(value) =>
        eventType := value;
      case IdField(value) =>
        eventId := value;
      case DataField(chunk) =>
        if eventData == "" {
          eventData := chunk;
        } else {
          eventData := eventData + "\n";
          eventData := eventData + chunk;
        }
      case Ignored =>
    }

    /** The branches for one complete line. */
    method HandleLine(line: string)
      requires open && |sent| <= takes
      modifies this`eventType, this`eventId, this`eventData, this`sent, this`open
      ensures var (fields, events) := TakeLine(old(View()).state, line);
              && open == (|old(sent) + events| <= takes)
              && (open ==> View() == Reception(fields, old(sent) + events, buffer))
              && (!open ==> sent == old(sent) && |sent| == takes)
    {
      if Classify(line).Blank? {
        Dispatch();
      } else {
        HandleField(Classify(line));
      }
    }

    /** What is sent and what is still to come from the buffer make up all events of the input. */
    ghost predicate Ahead(all: Reception<Fields, SseEvent>)
      reads this
    {
      var p := ParseInput(TakeLine, View().state, buffer);
      all == Reception(p.state, sent + p.events, p.buffer)
    }

    /** Take one complete line off the front of the buffer. */
    method TakeFront(newline: nat, ghost all: Reception<Fields, SseEvent>)
      requires open && |sent| <= takes && Ahead(all)
      requires newline == Find(buffer, '\n') && newline < |buffer|
      modifies this
      ensures |buffer| < |old(buffer)|
      ensures if open then |sent| <= takes && Ahead(all) else |all.events| > takes && sent == all.events[..takes]
    {
      var line := buffer[..newline];
      ghost var rest := buffer[newline + 1..];
      CutFirst(buffer, '\n');
      ParseOneLine(TakeLine, View().state, line, rest);
      ghost var (fields, events) := TakeLine(View().state, line);
      Assoc(sent, events, ParseInput(TakeLine, fields, rest).events);
      buffer := buffer[newline + 1..];
      HandleLine(line);
    }

    /** One chunk: append it to the buffer, then handle every complete line. */
    method Receive(chunk: string, ghost input: string)
      requires open && Follows(input)
      modifies this
      ensures Follows(input + chunk)
    {
      ParseInPieces(TakeLine, NO_FIELDS, input, chunk);
      ghost var all := ParseInput(TakeLine, NO_FIELDS, input + chunk);
      buffer := buffer + chunk;
      var newline := Find(buffer, '\n');
      while newline < |buffer|
        invariant open && |sent| <= takes && newline == Find(buffer, '\n')
        invariant Ahead(all)
        decreases |buffer|
      {
        TakeFront(newline, all);
        if !open {
          return;
        }
        newline := Find(buffer, '\n');
      }
      ParseNoLine(TakeLine, View().state, buffer);
    }

    /** The whole task: the chunks that arrive before the stream ends or fails. */
    method Consume(chunks: seq<string>)
      requires open && Follows("")
      modifies this
      ensures Follows(Flatten(chunks))
    {
      ghost var input := "";
      for k := 0 to |chunks|
        invariant open && Follows(input)
        invariant Flatten(chunks) == input + Flatten(chunks[k..])
      {
        ghost var rest := Flatten(chunks[k + 1..]);
        assert chunks[k..][0] == chunks[k] && chunks[k..][1..] == chunks[k + 1..];
        assert Flatten(chunks) == (input + chunks[k]) + rest;
        Receive(chunks[k], input);
        input := input + chunks[k];
        if !open {
          ParseInPieces(TakeLine, NO_FIELDS, input, rest);
          return;
        }
      }
      assert chunks[|chunks|..] == [];
      assert input + "" == input;
    }
  }
}
