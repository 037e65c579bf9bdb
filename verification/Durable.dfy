/** The replay log of a durable handler: record on first execution, replay after a crash. */
module Durable {
  import opened Options

  /** A JSON value, as the text serde writes for it. */
  type Json = string

  datatype Entry = Entry(index: nat, entryType: string, key: string, result: Json)

  /** What a handler may ask its context for. */
  datatype Op = Now | Random(numBytes: nat) | SideEffect(key: string)

  datatype Outcome = Value(json: Json) | Error(message: string)

  function TypeOf(op: Op): string {
    match op case Now => "now" case Random(_) => "random" case SideEffect(_) => "side_effect"
  }

  function KeyOf(op: Op): string {
    match op case Now => "now" case Random(_) => "random" case SideEffect(key) => key
  }

  /** The entry at the cursor is taken as the answer to `op`. */
  predicate Answers(e: Entry, op: Op) {
    e.entryType == TypeOf(op) && (op.SideEffect? ==> e.key == op.key)
  }

  function Record(at: nat, op: Op, result: Json): Entry {
    Entry(at, TypeOf(op), KeyOf(op), result)
  }

  datatype Context = Context(log: seq<Entry>, cursor: nat)

  predicate Replays(c: Context, op: Op) {
    c.cursor < |c.log| && Answers(c.log[c.cursor], op)
  }

  /** One deterministic helper; `sample` is what the clock, the generator or the closure would
      give if it were asked. */
  function Perform(c: Context, op: Op, sample: Outcome): (Context, Outcome) {
    if Replays(c, op) then (c.(cursor := c.cursor + 1), Value(c.log[c.cursor].result))
    else if sample.Error? then (c, sample)
    else (Context(c.log + [Record(c.cursor, op, sample.json)], c.cursor + 1), sample)
  }

  class DurableContext {
    var replayLog: seq<Entry>
    var replayCursor: nat

    ghost function View(): Context
      reads this
    {
      Context(replayLog, replayCursor)
    }

    constructor ()
      ensures View() == Context([], 0)
    {
      replayLog, replayCursor := [], 0;
    }

    constructor WithReplay(log: seq<Entry>)
      ensures View() == Context(log, 0)
    {
      replayLog, replayCursor := log, 0;
    }

    method GetNow(clock: Json) returns (time: Json)
      modifies this
      ensures (View(), Value(time)) == Perform(old(View()), Now, Value(clock))
    {
      if replayCursor < |replayLog| && replayLog[replayCursor].entryType == "now" {
        time := replayLog[replayCursor].result;
        replayCursor := replayCursor + 1;
        return;
      }
      time := clock;
      replayLog := replayLog + [Entry(replayCursor, "now", "now", time)];
      replayCursor := replayCursor + 1;
    }

    method GetRandom(numBytes: nat, generated: Json) returns (hex: Json)
      modifies this
      ensures (View(), Value(hex)) == Perform(old(View()), Random(numBytes), Value(generated))
    {
      if replayCursor < |replayLog| && replayLog[replayCursor].entryType == "random" {
        hex := replayLog[replayCursor].result;
        replayCursor := replayCursor + 1;
        return;
      }
      hex := generated;
      replayLog := replayLog + [Entry(replayCursor, "random", "random", hex)];
      replayCursor := replayCursor + 1;
    }

    method RunSideEffect(key: string, closure: Outcome) returns (result: Outcome)
      modifies this
      ensures (View(), result) == Perform(old(View()), SideEffect(key), closure)
    {
      if replayCursor < |replayLog| {
        var entry := replayLog[replayCursor];
        if entry.entryType == "side_effect" && entry.key == key {
          replayCursor := replayCursor + 1;
          return Value(entry.result);
        }
      }
      result := closure;
      if result.Error? {
        return;
      }
      replayLog := replayLog + [Entry(replayCursor, "side_effect", key, result.json)];
      replayCursor := replayCursor + 1;
    }
  }

  // -------------------------------------------------------------------------
  // Handlers and attempts
  // -------------------------------------------------------------------------

  /** A deterministic handler: from the outcomes seen so far to the next request, if any. */
  type Handler = seq<Outcome> -> Option<Op>

  /** The handler returns as soon as a helper gives it an error. */
  ghost predicate StopsAtError(h: Handler) {
    forall seen: seq<Outcome> :: seen != [] && seen[|seen| - 1].Error? ==> h(seen) == None
  }

  /** What the outside world would answer to the request made at each step of an attempt. */
  datatype Reading = Reading(json: Json, fails: bool)
  type World = nat -> Reading

  function Sample(w: World, step: nat, op: Op): Outcome {
    if op.SideEffect? && w(step).fails then Error(w(step).json) else Value(w(step).json)
  }

  datatype Attempt = Attempt(context: Context, seen: seq<Outcome>, sampled: nat)

  /** The attempt after one more request. */
  function OneMore(a: Attempt, op: Op, sample: Outcome): Attempt {
    var (c, outcome) := Perform(a.context, op, sample);
    Attempt(c, a.seen + [outcome], a.sampled + if Replays(a.context, op) then 0 else 1)
  }

  /** An attempt of `h` on a replay log, crashed after at most `n` requests. */
  function Execute(h: Handler, log: seq<Entry>, w: World, n: nat): Attempt {
    if n == 0 then Attempt(Context(log, 0), [], 0)
    else
      var a := Execute(h, log, w, n - 1);
      match h(a.seen)
      case None => a
      case Some(op) => OneMore(a, op, Sample(w, n - 1, op))
  }

  function Values(log: seq<Entry>): seq<Outcome> {
    seq(|log|, i requires 0 <= i < |log| => Value(log[i].result))
  }

  lemma ValuesNext(log: seq<Entry>, n: nat)
    requires n < |log|
    ensures Values(log[..n + 1]) == Values(log[..n]) + [Value(log[n].result)]
  {
  }

  /** Entry `i` is the record, at position `i`, of what the handler asks for after seeing the
      entries before it. */
  ghost predicate Matches(h: Handler, log: seq<Entry>, i: nat)
    requires i < |log|
  {
    var next := h(Values(log[..i]));
    next.Some? && log[i] == Record(i, next.value, log[i].result)
  }

  ghost predicate Coherent(h: Handler, log: seq<Entry>) {
    forall i :: 0 <= i < |log| ==> Matches(h, log, i)
  }

  lemma CoherentPrefix(h: Handler, log: seq<Entry>, p: nat)
    requires Coherent(h, log) && p <= |log|
    ensures Coherent(h, log[..p])
  {
    forall i | 0 <= i < p ensures Matches(h, log[..p], i) {
      assert log[..p][..i] == log[..i];
      assert Matches(h, log, i);
    }
  }

  lemma CoherentExtend(h: Handler, log: seq<Entry>, op: Op, json: Json)
    requires Coherent(h, log) && h(Values(log)) == Some(op)
    ensures Coherent(h, log + [Record(|log|, op, json)])
    ensures Values(log + [Record(|log|, op, json)]) == Values(log) + [Value(json)]
  {
    var longer := log + [Record(|log|, op, json)];
    forall i | 0 <= i < |longer| ensures Matches(h, longer, i) {
      assert longer[..i] == log[..i];
      if i < |log| {
        assert Matches(h, log, i);
      } else {
        assert log[..i] == log;
      }
    }
  }

  /** The handler's next request on a coherent log is answered by the entry at the cursor. */
  lemma CoherentAnswers(h: Handler, log: seq<Entry>, n: nat)
    requires Coherent(h, log) && n < |log|
    ensures var next := h(Values(log[..n])); next.Some? && Answers(log[n], next.value)
  {
    assert Matches(h, log, n);
  }

  /** What holds at the start and is kept by every request holds at every point of an attempt. */
  lemma {:induction false} AttemptInduction(P: Attempt -> bool, h: Handler, log: seq<Entry>, w: World, n: nat)
    requires P(Attempt(Context(log, 0), [], 0))
    requires forall a, op, sample :: P(a) && h(a.seen) == Some(op) ==> P(OneMore(a, op, sample))
    ensures P(Execute(h, log, w, n))
  {
    if n > 0 {
      AttemptInduction(P, h, log, w, n - 1);
      var a := Execute(h, log, w, n - 1);
      if h(a.seen).Some? {
        var op := h(a.seen).value;
        assert Execute(h, log, w, n) == OneMore(a, op, Sample(w, n - 1, op));
      }
    }
  }

  /** What holds after any number of requests of one attempt on a coherent log. */
  ghost predicate OnTrack(h: Handler, log: seq<Entry>, a: Attempt) {
    var c := a.context;
    && log <= c.log
    && Coherent(h, c.log)
    && c.cursor <= |c.log|
    && (c.cursor < |log| ==> c.log == log && a.sampled == 0)
    && (c.cursor >= |log| ==> c.cursor == |c.log|)
    && ((a.seen == Values(c.log[..c.cursor]) && a.sampled == |c.log| - |log|)
        || (c.cursor >= |log| && a.sampled == |c.log| - |log| + 1
            && exists message :: a.seen == Values(c.log) + [Error(message)]))
  }

  lemma OneReplay(h: Handler, log: seq<Entry>, a: Attempt, op: Op, sample: Outcome)
    requires OnTrack(h, log, a) && h(a.seen) == Some(op) && a.context.cursor < |a.context.log|
    requires a.seen == Values(a.context.log[..a.context.cursor])
    ensures OnTrack(h, log, OneMore(a, op, sample))
  {
    CoherentAnswers(h, a.context.log, a.context.cursor);
    ValuesNext(a.context.log, a.context.cursor);
  }

  lemma OneSample(h: Handler, log: seq<Entry>, a: Attempt, op: Op, sample: Outcome)
    requires OnTrack(h, log, a) && h(a.seen) == Some(op) && a.context.cursor == |a.context.log|
    requires a.seen == Values(a.context.log)
    ensures OnTrack(h, log, OneMore(a, op, sample))
  {
    var c := a.context;
    if sample.Value? {
      CoherentExtend(h, c.log, op, sample.json);
      var longer := c.log + [Record(c.cursor, op, sample.json)];
      assert longer[..|longer|] == longer;
    } else {
      assert OneMore(a, op, sample).seen == Values(c.log) + [Error(sample.message)];
    }
  }

  lemma OneRequest(h: Handler, log: seq<Entry>, a: Attempt, op: Op, sample: Outcome)
    requires StopsAtError(h) && OnTrack(h, log, a) && h(a.seen) == Some(op)
    ensures OnTrack(h, log, OneMore(a, op, sample))
  {
    var c := a.context;
    assert a.seen == Values(c.log[..c.cursor]);
    if c.cursor < |c.log| {
      OneReplay(h, log, a, op, sample);
    } else {
      assert c.log[..c.cursor] == c.log;
      OneSample(h, log, a, op, sample);
    }
  }

  lemma AttemptStaysOnTrack(h: Handler, log: seq<Entry>, w: World, n: nat)
    requires StopsAtError(h) && Coherent(h, log)
    ensures OnTrack(h, log, Execute(h, log, w, n))
  {
    assert Values(log[..0]) == [];
    var P := (a: Attempt) => OnTrack(h, log, a);
    forall a: Attempt, op: Op, sample: Outcome | P(a) && h(a.seen) == Some(op) ensures P(OneMore(a, op, sample)) {
      OneRequest(h, log, a, op, sample);
    }
    AttemptInduction(P, h, log, w, n);
  }

  // -------------------------------------------------------------------------
  // One request, in plain terms
  // -------------------------------------------------------------------------

  /** The entry at the cursor was recorded for this request. */
  predicate RecordedFor(c: Context, op: Op) {
    c.cursor < |c.log| &&
    var e := c.log[c.cursor];
    match op
    case Now => e.entryType == "now"
    case Random(_) => e.entryType == "random"
    case SideEffect(key) => e.entryType == "side_effect" && e.key == key
  }

  /** What is logged for a request that the world answered. */
  predicate LoggedAs(e: Entry, position: nat, op: Op, json: Json) {
    && e.index == position && e.result == json
    && match op
       case Now => e.entryType == "now" && e.key == "now"
       case Random(_) => e.entryType == "random" && e.key == "random"
       case SideEffect(key) => e.entryType == "side_effect" && e.key == key
  }

  /** Request `n` of any attempt, of any handler on any log: the entry at the cursor answers if
      and only if it was recorded for this request; otherwise the world does, and its answer is
      put at the end of the log unless it is a failed side effect. */
  lemma RequestExactly(h: Handler, log: seq<Entry>, w: World, n: nat, op: Op)
    requires h(Execute(h, log, w, n).seen) == Some(op)
    ensures var a, b := Execute(h, log, w, n), Execute(h, log, w, n + 1);
            var c, d := a.context, b.context;
            if RecordedFor(c, op) then
              && b.seen == a.seen + [Value(c.log[c.cursor].result)]
              && b.sampled == a.sampled && d == Context(c.log, c.cursor + 1)
            else if op.SideEffect? && w(n).fails then
              && b.seen == a.seen + [Error(w(n).json)]
              && b.sampled == a.sampled + 1 && d == c
            else
              && b.seen == a.seen + [Value(w(n).json)]
              && b.sampled == a.sampled + 1 && d.cursor == c.cursor + 1
              && |d.log| == |c.log| + 1 && d.log[..|c.log|] == c.log
              && LoggedAs(d.log[|c.log|], c.cursor, op, w(n).json)
  {
    var a := Execute(h, log, w, n);
    assert Execute(h, log, w, n + 1) == OneMore(a, op, Sample(w, n, op));
  }

  /** The key decides: a log entry for one key is not taken for another. */
  lemma OtherKeyIsNotReplayed()
    ensures exists h: Handler, w: World, w': World ::
              var first := Execute(h, [], w, 2);
              var again := Execute(h, first.context.log, w', 1);
              && first.seen == [Error("declined"), Value("receipt B")]
              && first.context.log == [Entry(0, "side_effect", "charge B", "receipt B")]
              && again.seen == [Value("receipt A")] && again.sampled == 1
  {
    var h: Handler := (seen: seq<Outcome>) =>
      if |seen| == 0 then Some(SideEffect("charge A"))
      else if |seen| == 1 then Some(SideEffect("charge B"))
      else None;
    var w: World := (k: nat) => if k == 0 then Reading("declined", true) else Reading("receipt B", false);
    var w': World := (k: nat) => Reading("receipt A", false);
    assert Execute(h, [], w, 1) == Attempt(Context([], 0), [Error("declined")], 1);
    RequestExactly(h, [], w, 1, SideEffect("charge B"));
    var first := Execute(h, [], w, 2);
    assert first.context.log == [Entry(0, "side_effect", "charge B", "receipt B")];
    assert "charge A"[7] != "charge B"[7];
    assert Execute(h, first.context.log, w', 0) == Attempt(Context(first.context.log, 0), [], 0);
    RequestExactly(h, first.context.log, w', 0, SideEffect("charge A"));
  }

  // -------------------------------------------------------------------------
  // Determinism, for every handler
  // -------------------------------------------------------------------------

  predicate NoError(seen: seq<Outcome>) {
    forall i :: 0 <= i < |seen| ==> seen[i].Value?
  }

  /** Entry `i` answers what the handler asks for after seeing the entries before it. */
  ghost predicate AnswersAt(h: Handler, log: seq<Entry>, i: nat)
    requires i < |log|
  {
    var next := h(Values(log[..i]));
    next.Some? && Answers(log[i], next.value)
  }

  ghost predicate AnswersAll(h: Handler, log: seq<Entry>) {
    forall i :: 0 <= i < |log| ==> AnswersAt(h, log, i)
  }

  lemma CoherentAnswersAll(h: Handler, log: seq<Entry>)
    requires Coherent(h, log)
    ensures AnswersAll(h, log)
  {
    forall i | 0 <= i < |log| ensures AnswersAt(h, log, i) {
      CoherentAnswers(h, log, i);
    }
  }

  lemma OneReplayFromLog(log: seq<Entry>, n: nat, op: Op, sample: Outcome)
    requires n < |log| && Answers(log[n], op)
    ensures OneMore(Attempt(Context(log, n), Values(log[..n]), 0), op, sample) ==
            Attempt(Context(log, n + 1), Values(log[..n + 1]), 0)
  {
    ValuesNext(log, n);
  }

  /** As long as the log lasts, an attempt asks neither clock, generator nor closure. */
  lemma {:induction false} ReplayConsumesLog(h: Handler, log: seq<Entry>, w: World, n: nat)
    requires n <= |log| && forall i :: 0 <= i < n ==> AnswersAt(h, log, i)
    ensures Execute(h, log, w, n) == Attempt(Context(log, n), Values(log[..n]), 0)
  {
    if n > 0 {
      ReplayConsumesLog(h, log, w, n - 1);
      assert AnswersAt(h, log, n - 1);
      var op := h(Values(log[..n - 1])).value;
      OneReplayFromLog(log, n - 1, op, Sample(w, n - 1, op));
    } else {
      assert Values(log[..0]) == [];
    }
  }

  /** What can be said of two moments of an attempt on any log: nothing is forgotten, and there
      are no more questions than answers. */
  predicate Grows(a: Attempt, b: Attempt) {
    && a.seen <= b.seen && a.context.log <= b.context.log
    && 0 <= b.sampled - a.sampled <= |b.seen| - |a.seen|
  }

  lemma GrowsOneMore(a: Attempt, op: Op, sample: Outcome)
    ensures Grows(a, OneMore(a, op, sample))
  {
  }

  lemma GrowsFurther(a: Attempt, b: Attempt, c: Attempt)
    requires Grows(a, b) && Grows(b, c)
    ensures Grows(a, c)
  {
  }

  lemma {:induction false} AttemptGrows(h: Handler, log: seq<Entry>, w: World, m: nat, n: nat)
    requires m <= n
    ensures Grows(Execute(h, log, w, m), Execute(h, log, w, n))
  {
    if m < n {
      AttemptGrows(h, log, w, m, n - 1);
      var a := Execute(h, log, w, n - 1);
      if h(a.seen).Some? {
        var op := h(a.seen).value;
        GrowsOneMore(a, op, Sample(w, n - 1, op));
        GrowsFurther(Execute(h, log, w, m), a, OneMore(a, op, Sample(w, n - 1, op)));
      }
    }
  }

  /** The attempt has only taken entries off the front of its log. */
  ghost predicate TookFront(h: Handler, log: seq<Entry>, a: Attempt) {
    && a.context.log == log && a.context.cursor == |a.seen| <= |log|
    && a.seen == Values(log[..|a.seen|])
    && forall i :: 0 <= i < |a.seen| ==> AnswersAt(h, log, i)
  }

  lemma TakeOneMore(h: Handler, log: seq<Entry>, a: Attempt, op: Op, sample: Outcome)
    requires TookFront(h, log, a) && h(a.seen) == Some(op) && Replays(a.context, op)
    ensures TookFront(h, log, OneMore(a, op, sample))
  {
    ValuesNext(log, |a.seen|);
    assert AnswersAt(h, log, |a.seen|);
  }

  lemma {:induction false} UnaskedIsReplay(h: Handler, log: seq<Entry>, w: World, n: nat)
    requires Execute(h, log, w, n).sampled == 0
    ensures TookFront(h, log, Execute(h, log, w, n))
  {
    if n > 0 {
      var a := Execute(h, log, w, n - 1);
      AttemptGrows(h, log, w, n - 1, n);
      assert a.sampled == 0;
      UnaskedIsReplay(h, log, w, n - 1);
      if h(a.seen).Some? {
        TakeOneMore(h, log, a, h(a.seen).value, Sample(w, n - 1, h(a.seen).value));
      }
    } else {
      assert Values(log[..0]) == [];
    }
  }

  /** For every handler and every log: the log is replayed to its end without asking anything
      if and only if each entry answers what the handler asks at that point. */
  lemma ReplaysWholeLogExactly(h: Handler, log: seq<Entry>, w: World)
    ensures var again := Execute(h, log, w, |log|);
            again.sampled == 0 && again.seen == Values(log) <==> AnswersAll(h, log)
  {
    assert log[..|log|] == log;
    if AnswersAll(h, log) {
      ReplayConsumesLog(h, log, w, |log|);
    }
    if Execute(h, log, w, |log|).sampled == 0 && Execute(h, log, w, |log|).seen == Values(log) {
      UnaskedIsReplay(h, log, w, |log|);
    }
  }

  lemma PastTheLog(log: seq<Entry>, a: Attempt)
    requires Grows(Attempt(Context(log, |log|), Values(log), 0), a)
    ensures Values(log) <= a.seen && log <= a.context.log
    ensures a.sampled > 0 ==> |a.seen| > |log|
  {
  }

  lemma ResumeOnAnsweringLog(h: Handler, log: seq<Entry>, w: World, n: nat)
    requires AnswersAll(h, log)
    ensures var again := Execute(h, log, w, n);
            && (n <= |log| ==> again == Attempt(Context(log, n), Values(log[..n]), 0))
            && (n > |log| ==> Values(log) <= again.seen)
            && log <= again.context.log
            && (again.sampled > 0 ==> |again.seen| > |log|)
  {
    if n <= |log| {
      ReplayConsumesLog(h, log, w, n);
    } else {
      ReplayConsumesLog(h, log, w, |log|);
      assert log[..|log|] == log;
      AttemptGrows(h, log, w, |log|, n);
      PastTheLog(log, Execute(h, log, w, n));
    }
  }

  /** What a first attempt leaves behind: up to its first error, the log is the record of what
      the handler asked for and saw. */
  ghost predicate Recorded(h: Handler, a: Attempt) {
    && a.context.cursor == |a.context.log| <= |a.seen|
    && a.sampled == |a.seen|
    && forall m: nat :: m <= |a.seen| && NoError(a.seen[..m]) ==>
         m <= |a.context.log| && Coherent(h, a.context.log[..m]) && Values(a.context.log[..m]) == a.seen[..m]
  }

  lemma RecordOneMore(h: Handler, a: Attempt, op: Op, sample: Outcome)
    requires Recorded(h, a) && h(a.seen) == Some(op)
    ensures Recorded(h, OneMore(a, op, sample))
  {
    var b := OneMore(a, op, sample);
    forall m: nat | m <= |b.seen| && NoError(b.seen[..m])
      ensures m <= |b.context.log| && Coherent(h, b.context.log[..m]) && Values(b.context.log[..m]) == b.seen[..m]
    {
      if m <= |a.seen| {
        assert b.seen[..m] == a.seen[..m];
        assert b.context.log[..m] == a.context.log[..m];
      } else {
        assert b.seen[..m] == b.seen && a.seen[..|a.seen|] == a.seen;
        assert forall i :: 0 <= i < |a.seen| ==> b.seen[i] == a.seen[i];
        assert b.seen[|a.seen|].Value?;
        assert a.context.log[..|a.context.log|] == a.context.log;
        CoherentExtend(h, a.context.log, op, sample.json);
        assert b.context.log[..m] == b.context.log;
      }
    }
  }

  lemma FirstAttempt(h: Handler, w: World, n: nat)
    ensures Recorded(h, Execute(h, [], w, n))
  {
    assert Values([]) == [];
    var P := (a: Attempt) => Recorded(h, a);
    forall a: Attempt, op: Op, sample: Outcome | P(a) && h(a.seen) == Some(op) ensures P(OneMore(a, op, sample)) {
      RecordOneMore(h, a, op, sample);
    }
    AttemptInduction(P, h, [], w, n);
  }

  /** Crash after `n` requests, keep any prefix of the log, resume in any world, for any
      handler: the resume sees again what the first attempt saw, asking nothing, if and only if
      no error was among the outcomes that the kept entries stand for. */
  lemma ResumesExactly(h: Handler, w: World, n: nat, kept: nat, w': World)
    requires kept <= |Execute(h, [], w, n).context.log|
    ensures var first := Execute(h, [], w, n);
            var again := Execute(h, first.context.log[..kept], w', kept);
            && kept <= |first.seen|
            && (again.seen == first.seen[..kept] && again.sampled == 0 <==> NoError(first.seen[..kept]))
  {
    FirstAttempt(h, w, n);
    var first := Execute(h, [], w, n);
    var log := first.context.log[..kept];
    if NoError(first.seen[..kept]) {
      CoherentAnswersAll(h, log);
      ResumeOnAnsweringLog(h, log, w', kept);
      assert log[..kept] == log;
    }
    if Execute(h, log, w', kept).sampled == 0 {
      UnaskedIsReplay(h, log, w', kept);
    }
  }

  /** And from there on it only goes beyond what was kept, at any point of the resume. */
  lemma ResumeIsDeterministic(h: Handler, w: World, n: nat, kept: nat, w': World, n': nat)
    requires kept <= |Execute(h, [], w, n).context.log|
    ensures var first := Execute(h, [], w, n);
            var log := first.context.log[..kept];
            var again := Execute(h, log, w', n');
            && kept <= |first.seen|
            && (NoError(first.seen[..kept]) ==>
                  && (n' <= kept ==> again == Attempt(Context(log, n'), first.seen[..n'], 0))
                  && (n' > kept ==> first.seen[..kept] <= again.seen && log <= again.context.log)
                  && (again.sampled > 0 ==> |again.seen| > kept))
  {
    FirstAttempt(h, w, n);
    var first := Execute(h, [], w, n);
    if NoError(first.seen[..kept]) {
      var log := first.context.log[..kept];
      CoherentAnswersAll(h, log);
      ResumeOnAnsweringLog(h, log, w', n');
      if n' <= kept {
        assert Values(log[..n']) == Values(log)[..n'];
        assert first.seen[..kept][..n'] == first.seen[..n'];
      }
    }
  }

  /** A handler that stops at its first error always qualifies. */
  lemma StoppingHandlersQualify(h: Handler, w: World, n: nat, kept: nat)
    requires StopsAtError(h) && kept <= |Execute(h, [], w, n).context.log|
    ensures kept <= |Execute(h, [], w, n).seen| && NoError(Execute(h, [], w, n).seen[..kept])
  {
    AttemptStaysOnTrack(h, [], w, n);
    var first := Execute(h, [], w, n);
    assert first.context.log[..|first.context.log|] == first.context.log;
    assert Values(first.context.log) <= first.seen;
  }

  /** An entry that was not kept is asked for again, and the new world answers. */
  lemma LostEntryIsAskedAgain(h: Handler, log: seq<Entry>, kept: nat, w: World)
    requires AnswersAll(h, log) && kept < |log|
    ensures var again := Execute(h, log[..kept], w, kept + 1);
            && h(Values(log[..kept])).Some?
            && again.sampled == 1
            && again.seen == Values(log[..kept]) + [Sample(w, kept, h(Values(log[..kept])).value)]
  {
    assert AnswersAt(h, log, kept);
    forall i | 0 <= i < kept ensures AnswersAt(h, log[..kept], i) {
      assert AnswersAt(h, log, i);
      assert log[..kept][..i] == log[..i];
    }
    ReplayConsumesLog(h, log[..kept], w, kept);
    assert log[..kept][..kept] == log[..kept];
  }

  /** A finished attempt is reproduced whole on every resume if and only if it saw no error. */
  lemma FinishedHandlerReplaysWhole(h: Handler, w: World, n: nat, w': World, n': nat)
    requires h(Execute(h, [], w, n).seen) == None && n' >= |Execute(h, [], w, n).seen|
    ensures var first := Execute(h, [], w, n);
            Execute(h, first.context.log, w', n') == Attempt(first.context, first.seen, 0) <==> NoError(first.seen)
  {
    FirstAttempt(h, w, n);
    var first := Execute(h, [], w, n);
    var log := first.context.log;
    assert log[..|log|] == log && first.seen[..|first.seen|] == first.seen;
    if NoError(first.seen) {
      assert |log| == |first.seen|;
      CoherentAnswersAll(h, log);
      ReplayConsumesLog(h, log, w', |log|);
      FinishedStays(h, log, w', |log|, n');
    }
    if Execute(h, log, w', n').sampled == 0 {
      UnaskedIsReplay(h, log, w', n');
    }
  }

  lemma NothingMore(h: Handler, log: seq<Entry>, w: World, n: nat)
    requires h(Execute(h, log, w, n).seen) == None
    ensures Execute(h, log, w, n + 1) == Execute(h, log, w, n)
  {
  }

  lemma {:induction false} FinishedStays(h: Handler, log: seq<Entry>, w: World, m: nat, n: nat)
    requires m <= n && h(Execute(h, log, w, m).seen) == None
    ensures Execute(h, log, w, n) == Execute(h, log, w, m)
    decreases n - m
  {
    if m < n {
      NothingMore(h, log, w, m);
      FinishedStays(h, log, w, m + 1, n);
    }
  }

  // -------------------------------------------------------------------------
  // Crash and resume, any number of times
  // -------------------------------------------------------------------------

  /** One life of the job: its world, the request after which it crashes, and how much of the
      log the caller manages to keep. */
  datatype Life = Life(world: World, crash: nat, kept: nat)

  function Kept(log: seq<Entry>, kept: nat): seq<Entry> {
    if kept < |log| then log[..kept] else log
  }

  function After(h: Handler, lives: seq<Life>): seq<Entry> {
    if lives == [] then []
    else
      var last := lives[|lives| - 1];
      Kept(Execute(h, After(h, lives[..|lives| - 1]), last.world, last.crash).context.log, last.kept)
  }

  lemma {:induction false} AfterIsCoherent(h: Handler, lives: seq<Life>)
    requires StopsAtError(h)
    ensures Coherent(h, After(h, lives))
  {
    if lives != [] {
      var last := lives[|lives| - 1];
      var before := After(h, lives[..|lives| - 1]);
      AfterIsCoherent(h, lives[..|lives| - 1]);
      AttemptStaysOnTrack(h, before, last.world, last.crash);
      var log := Execute(h, before, last.world, last.crash).context.log;
      CoherentPrefix(h, log, if last.kept < |log| then last.kept else |log|);
      assert log[..|log|] == log;
    }
  }

  function WorldOf(log: seq<Entry>): World {
    (k: nat) => if k < |log| then Reading(log[k].result, false) else Reading("", false)
  }

  lemma RecordOneEntry(h: Handler, log: seq<Entry>, n: nat, op: Op, sample: Outcome)
    requires n < |log| && log[n] == Record(n, op, log[n].result) && sample == Value(log[n].result)
    ensures OneMore(Attempt(Context(log[..n], n), Values(log[..n]), n), op, sample) ==
            Attempt(Context(log[..n + 1], n + 1), Values(log[..n + 1]), n + 1)
  {
    ValuesNext(log, n);
    assert log[..n + 1] == log[..n] + [log[n]];
  }

  lemma {:induction false} RecordingRebuildsLog(h: Handler, log: seq<Entry>, n: nat)
    requires Coherent(h, log) && n <= |log|
    ensures Execute(h, [], WorldOf(log), n) == Attempt(Context(log[..n], n), Values(log[..n]), n)
  {
    if n > 0 {
      RecordingRebuildsLog(h, log, n - 1);
      assert Matches(h, log, n - 1);
      var op := h(Values(log[..n - 1])).value;
      RecordOneEntry(h, log, n - 1, op, Sample(WorldOf(log), n - 1, op));
    } else {
      assert log[..0] == [] && Values([]) == [];
    }
  }

  /** The logs that crashes and resumes can leave behind are exactly the coherent ones: entry
      `i` has index `i` and records the request the handler makes at that point. */
  lemma SurvivingLogsAreExactlyCoherent(h: Handler, log: seq<Entry>)
    requires StopsAtError(h)
    ensures Coherent(h, log) <==> exists lives :: After(h, lives) == log
  {
    if Coherent(h, log) {
      RecordingRebuildsLog(h, log, |log|);
      var life := Life(WorldOf(log), |log|, |log|);
      assert log[..|log|] == log;
      assert [life][..0] == [];
      assert After(h, [life]) == log;
    }
    if lives :| After(h, lives) == log {
      AfterIsCoherent(h, lives);
    }
  }

  function LastAttempt(h: Handler, lives: seq<Life>): Attempt
    requires lives != []
  {
    var last := lives[|lives| - 1];
    Execute(h, After(h, lives[..|lives| - 1]), last.world, last.crash)
  }

  /** How often clock, generator and closures were asked, over all lives together. */
  function Asked(h: Handler, lives: seq<Life>): nat {
    if lives == [] then 0 else Asked(h, lives[..|lives| - 1]) + LastAttempt(h, lives).sampled
  }

  /** How many side effects failed. */
  function Errors(seen: seq<Outcome>): nat {
    if seen == [] then 0 else Errors(seen[..|seen| - 1]) + if seen[|seen| - 1].Error? then 1 else 0
  }

  function Failures(h: Handler, lives: seq<Life>): nat {
    if lives == [] then 0 else Failures(h, lives[..|lives| - 1]) + Errors(LastAttempt(h, lives).seen)
  }

  /** The log at the crash that ends the last life. */
  function AtCrash(h: Handler, lives: seq<Life>): seq<Entry>
    requires lives != []
  {
    LastAttempt(h, lives).context.log
  }

  ghost predicate KeepsAll(h: Handler, lives: seq<Life>) {
    lives != [] ==>
      lives[|lives| - 1].kept >= |AtCrash(h, lives)| && KeepsAll(h, lives[..|lives| - 1])
  }

  /** Whatever was asked was logged or failed, and the log only grows. */
  predicate Balanced(log: seq<Entry>, a: Attempt) {
    log <= a.context.log && a.sampled + |log| == |a.context.log| + Errors(a.seen)
  }

  lemma BalancedOneMore(log: seq<Entry>, a: Attempt, op: Op, sample: Outcome)
    requires Balanced(log, a)
    ensures Balanced(log, OneMore(a, op, sample))
  {
    var outcome := Perform(a.context, op, sample).1;
    assert (a.seen + [outcome])[..|a.seen|] == a.seen;
  }

  /** One life, of any handler, asks once for every entry it adds and once for every failure. */
  lemma AskedInOneLife(h: Handler, lives: seq<Life>)
    requires lives != []
    ensures Balanced(After(h, lives[..|lives| - 1]), LastAttempt(h, lives))
  {
    var last := lives[|lives| - 1];
    var log := After(h, lives[..|lives| - 1]);
    var P := (a: Attempt) => Balanced(log, a);
    forall a: Attempt, op: Op, sample: Outcome | P(a) && h(a.seen) == Some(op) ensures P(OneMore(a, op, sample)) {
      BalancedOneMore(log, a, op, sample);
    }
    AttemptInduction(P, h, log, last.world, last.crash);
  }

  /** For every handler and any lives: at least one question was asked per logged position and
      per failure, and no more than that if and only if every life kept its whole log. */
  lemma {:induction false} AskedExactly(h: Handler, lives: seq<Life>)
    ensures Asked(h, lives) >= |After(h, lives)| + Failures(h, lives)
    ensures Asked(h, lives) == |After(h, lives)| + Failures(h, lives) <==> KeepsAll(h, lives)
    ensures Asked(h, lives) == |After(h, lives)| <==> KeepsAll(h, lives) && Failures(h, lives) == 0
  {
    if lives != [] {
      AskedExactly(h, lives[..|lives| - 1]);
      AskedInOneLife(h, lives);
      assert |After(h, lives)| <= |AtCrash(h, lives)|;
      assert |After(h, lives)| == |AtCrash(h, lives)| <==> lives[|lives| - 1].kept >= |AtCrash(h, lives)|;
    }
  }

  function Beyond(log: seq<Entry>, n: nat): seq<Entry> {
    if n <= |log| then log[n..] else []
  }

  /** All entries that were pushed, over all lives together, in order. */
  function Pushed(h: Handler, lives: seq<Life>): seq<Entry> {
    if lives == [] then []
    else
      var front := lives[..|lives| - 1];
      Pushed(h, front) + Beyond(AtCrash(h, lives), |After(h, front)|)
  }

  lemma {:induction false} PushedCount(h: Handler, lives: seq<Life>)
    ensures |Pushed(h, lives)| + Failures(h, lives) == Asked(h, lives)
  {
    if lives != [] {
      PushedCount(h, lives[..|lives| - 1]);
      AskedInOneLife(h, lives);
    }
  }

  lemma {:induction false} KeptLogIsPushed(h: Handler, lives: seq<Life>)
    requires KeepsAll(h, lives)
    ensures Pushed(h, lives) == After(h, lives)
  {
    if lives != [] {
      var front := lives[..|lives| - 1];
      KeptLogIsPushed(h, front);
      AskedInOneLife(h, lives);
      var before, crash := After(h, front), AtCrash(h, lives);
      assert crash == before + crash[|before|..];
      assert After(h, lives) == crash;
    }
  }

  /** For every handler, the log holds all that was ever pushed, once and in order, if and only
      if every life kept its whole log. */
  lemma PushedIsLogExactly(h: Handler, lives: seq<Life>)
    ensures Pushed(h, lives) == After(h, lives) <==> KeepsAll(h, lives)
  {
    PushedCount(h, lives);
    AskedExactly(h, lives);
    if KeepsAll(h, lives) {
      KeptLogIsPushed(h, lives);
    }
  }

  /** While every life keeps its whole log, each log extends all earlier ones. */
  lemma {:induction false} LogsExtend(h: Handler, lives: seq<Life>, k: nat)
    requires KeepsAll(h, lives) && k <= |lives|
    ensures After(h, lives[..k]) <= After(h, lives)
  {
    if k == |lives| {
      assert lives[..k] == lives;
    } else {
      var front := lives[..|lives| - 1];
      assert front[..k] == lives[..k];
      LogsExtend(h, front, k);
      AskedInOneLife(h, lives);
    }
  }

  /** And for a handler that stops at its first error, the entries pushed over all lives carry
      the indices 0, 1, 2, ... in order: each position is recorded exactly once. */
  lemma EachPositionRecordedOnce(h: Handler, lives: seq<Life>, k: nat)
    requires StopsAtError(h) && KeepsAll(h, lives) && k <= |lives|
    ensures After(h, lives[..k]) <= After(h, lives)
    ensures Asked(h, lives) == |After(h, lives)| + Failures(h, lives)
    ensures Pushed(h, lives) == After(h, lives)
    ensures forall i :: 0 <= i < |Pushed(h, lives)| ==> Pushed(h, lives)[i].index == i
  {
    LogsExtend(h, lives, k);
    AskedExactly(h, lives);
    PushedIsLogExactly(h, lives);
    AfterIsCoherent(h, lives);
    forall i | 0 <= i < |After(h, lives)| ensures After(h, lives)[i].index == i {
      assert Matches(h, After(h, lives), i);
    }
  }

  lemma {:induction false} ValuesHaveNoErrors(log: seq<Entry>)
    ensures Errors(Values(log)) == 0
  {
    if log != [] {
      var n := |log| - 1;
      ValuesHaveNoErrors(log[..n]);
      assert Values(log)[..n] == Values(log[..n]);
    }
  }

  /** A handler that stops at its first error fails at most once in each life. */
  lemma FailsAtMostOnce(h: Handler, lives: seq<Life>)
    requires StopsAtError(h) && lives != []
    ensures Errors(LastAttempt(h, lives).seen) <= 1
  {
    var last := lives[|lives| - 1];
    var before := After(h, lives[..|lives| - 1]);
    AfterIsCoherent(h, lives[..|lives| - 1]);
    AttemptStaysOnTrack(h, before, last.world, last.crash);
    var a := LastAttempt(h, lives);
    var log := a.context.log;
    ValuesHaveNoErrors(log[..a.context.cursor]);
    ValuesHaveNoErrors(log);
    if message :| a.seen == Values(log) + [Error(message)] {
      assert a.seen[..|log|] == Values(log);
    }
  }

  // -------------------------------------------------------------------------
  // What goes wrong when a handler goes on after an error
  // -------------------------------------------------------------------------

  /** A handler that goes on after a failed side effect leaves a log on which its own resume
      asks the clock again and gets a different time. */
  lemma SwallowedErrorBreaksReplay()
    ensures exists h: Handler, w: World, w': World ::
              var first := Execute(h, [], w, 2);
              var again := Execute(h, first.context.log, w', 2);
              && first.seen == [Error("down"), Value("noon")]
              && first.context.log == [Record(0, Now, "noon")]
              && again.seen == [Value("paid"), Value("midnight")] && again.sampled == 2
  {
    var h: Handler := (seen: seq<Outcome>) =>
      if |seen| == 0 then Some(SideEffect("pay")) else if |seen| == 1 then Some(Now) else None;
    var w: World := (k: nat) => if k == 0 then Reading("down", true) else Reading("noon", false);
    var w': World := (k: nat) => if k == 0 then Reading("paid", false) else Reading("midnight", false);
    var first := Execute(h, [], w, 2);
    assert Execute(h, [], w, 1) == Attempt(Context([], 0), [Error("down")], 1);
    assert first == Attempt(Context([Record(0, Now, "noon")], 1), [Error("down"), Value("noon")], 2);
    var log := first.context.log;
    assert Execute(h, log, w', 1) ==
        Attempt(Context(log + [Record(0, SideEffect("pay"), "paid")], 1), [Value("paid")], 1);
    assert Execute(h, log, w', 2).seen == [Value("paid"), Value("midnight")];
  }
}
