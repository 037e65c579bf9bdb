/** The validators of queue names and job types.  A text stands for its UTF-8 bytes; no byte of
    a character outside ASCII is allowed by either validator. */
module Names {
  import opened Decimal
  import opened Text

  const MAX_QUEUE_LENGTH := 128
  const MAX_TYPE_LENGTH := 255

  datatype Verdict =
    | Accepted
    | Empty
    | TooLong
    | BadStart
    | BadEnd
    | BadCharacter
    | DoubleSeparator
    | BadSegment

  predicate IsLower(c: char) { 'a' <= c <= 'z' }
  predicate IsAlnum(c: char) { IsLower(c) || IsDigit(c) }
  predicate IsSeparator(c: char) { c == '-' || c == '.' }

  predicate AllAlnum(s: string) {
    forall k :: 0 <= k < |s| ==> IsAlnum(s[k])
  }

  // -------------------------------------------------------------------------
  // Queue names
  // -------------------------------------------------------------------------

  /** The grammar alnum+ ([-.] alnum+)* */
  ghost predicate QueueGrammar(s: string)
    decreases |s|
  {
    || (s != "" && AllAlnum(s))
    || exists i :: 0 < i < |s| && AllAlnum(s[..i]) && IsSeparator(s[i]) && QueueGrammar(s[i + 1..])
  }

  /** Position `i` holds an allowed character that does not start a run of separators. */
  predicate GoodAt(s: string, i: nat)
    requires i < |s|
  {
    && (IsAlnum(s[i]) || IsSeparator(s[i]))
    && (IsSeparator(s[i]) && i + 1 < |s| ==> !IsSeparator(s[i + 1]))
  }

  predicate QueueShape(s: string) {
    && s != "" && IsAlnum(s[0]) && IsAlnum(s[|s| - 1])
    && forall i :: 0 <= i < |s| ==> GoodAt(s, i)
  }

  lemma ShapeOfRest(s: string, i: nat)
    requires QueueShape(s) && i < |s| && IsSeparator(s[i])
    ensures i + 1 < |s| && QueueShape(s[i + 1..])
  {
    var rest := s[i + 1..];
    assert i != |s| - 1;
    assert GoodAt(s, i) && GoodAt(s, i + 1);
    forall k | 0 <= k < |rest| ensures GoodAt(rest, k) {
      assert GoodAt(s, i + 1 + k);
    }
  }

  lemma ShapeOfWhole(s: string, i: nat)
    requires 0 < i < |s| && AllAlnum(s[..i]) && IsSeparator(s[i]) && QueueShape(s[i + 1..])
    ensures QueueShape(s)
  {
    var rest := s[i + 1..];
    forall k | 0 <= k < |s| ensures GoodAt(s, k) {
      if k < i {
        assert IsAlnum(s[..i][k]);
      } else if k == i {
        assert s[i + 1] == rest[0];
      } else {
        assert GoodAt(rest, k - i - 1);
      }
    }
    assert s[0] == s[..i][0];
    assert s[|s| - 1] == rest[|rest| - 1];
  }

  /** The index of the first character that is not alphanumeric, or the length. */
  function FirstBreak(s: string): (i: nat)
    ensures i <= |s| && (forall k :: 0 <= k < i ==> IsAlnum(s[k])) && (i < |s| ==> !IsAlnum(s[i]))
  {
    if s == "" || !IsAlnum(s[0]) then 0 else 1 + FirstBreak(s[1..])
  }

  lemma GrammarByBreak(s: string, i: nat)
    requires 0 < i < |s| && AllAlnum(s[..i]) && IsSeparator(s[i]) && QueueGrammar(s[i + 1..])
    ensures QueueGrammar(s)
  {
  }

  lemma {:induction false} ShapeHasGrammar(s: string)
    requires QueueShape(s)
    ensures QueueGrammar(s)
    decreases |s|
  {
    var i := FirstBreak(s);
    if i < |s| {
      assert GoodAt(s, i);
      ShapeOfRest(s, i);
      ShapeHasGrammar(s[i + 1..]);
      GrammarByBreak(s, i);
    }
  }

  lemma {:induction false} GrammarHasShape(s: string)
    requires QueueGrammar(s)
    ensures QueueShape(s)
    decreases |s|
  {
    if AllAlnum(s) {
      assert forall i :: 0 <= i < |s| ==> GoodAt(s, i);
    } else {
      var i :| 0 < i < |s| && AllAlnum(s[..i]) && IsSeparator(s[i]) && QueueGrammar(s[i + 1..]);
      GrammarHasShape(s[i + 1..]);
      ShapeOfWhole(s, i);
    }
  }

  /** What the loop checks position by position is exactly the grammar. */
  lemma ShapeIsGrammar(s: string)
    ensures QueueShape(s) <==> QueueGrammar(s)
  {
    if QueueShape(s) {
      ShapeHasGrammar(s);
    }
    if QueueGrammar(s) {
      GrammarHasShape(s);
    }
  }

  predicate Separates(c: char) {
    c == '-' || c == '.'
  }

  /** Small letters, digits, hyphens and dots; no separator at an end or next to another. */
  predicate QueueByCharacters(s: string) {
    && (forall k :: 0 <= k < |s| ==> 'a' <= s[k] <= 'z' || '0' <= s[k] <= '9' || Separates(s[k]))
    && s != "" && !Separates(s[0]) && !Separates(s[|s| - 1])
    && (forall k :: 0 < k < |s| ==> !(Separates(s[k]) && Separates(s[k - 1])))
  }

  lemma CharactersOfShape(s: string)
    requires QueueShape(s)
    ensures QueueByCharacters(s)
  {
    assert GoodAt(s, 0) && GoodAt(s, |s| - 1);
    forall k | 0 <= k < |s| ensures 'a' <= s[k] <= 'z' || '0' <= s[k] <= '9' || Separates(s[k]) {
      assert GoodAt(s, k);
    }
    forall k | 0 < k < |s| ensures !(Separates(s[k]) && Separates(s[k - 1])) {
      var j := k - 1;
      assert GoodAt(s, j);
    }
  }

  lemma GoodByCharacters(s: string, k: nat)
    requires QueueByCharacters(s) && k < |s|
    ensures GoodAt(s, k)
  {
    var next := k + 1;
    if next < |s| {
      assert !(Separates(s[next]) && Separates(s[next - 1]));
    }
  }

  lemma ShapeOfCharacters(s: string)
    requires QueueByCharacters(s)
    ensures QueueShape(s)
  {
    forall k | 0 <= k < |s| ensures GoodAt(s, k) {
      GoodByCharacters(s, k);
    }
    assert GoodAt(s, 0) && GoodAt(s, |s| - 1);
  }

  lemma QueueNameByCharacters(s: string)
    ensures QueueGrammar(s) <==> QueueByCharacters(s)
  {
    ShapeIsGrammar(s);
    if QueueShape(s) {
      CharactersOfShape(s);
    } else if QueueByCharacters(s) {
      ShapeOfCharacters(s);
    }
  }

  /** Accepts exactly the names of at most 128 bytes in the grammar; otherwise reports the first
      rule that is broken. */
  method ValidateQueueName(queue: string) returns (v: Verdict)
    ensures v == Accepted <==> |queue| <= MAX_QUEUE_LENGTH && QueueGrammar(queue)
    ensures v == Accepted <==> 1 <= |queue| <= 128 && QueueByCharacters(queue)
    ensures v == Empty <==> queue == ""
    ensures v == TooLong <==> |queue| > MAX_QUEUE_LENGTH
    ensures v == BadStart <==> 0 < |queue| <= MAX_QUEUE_LENGTH && !IsAlnum(queue[0])
    ensures v == BadEnd <==>
              0 < |queue| <= MAX_QUEUE_LENGTH && IsAlnum(queue[0]) && !IsAlnum(queue[|queue| - 1])
    ensures v == BadCharacter || v == DoubleSeparator ==>
              exists i :: 0 <= i < |queue| && (forall k :: 0 <= k < i ==> GoodAt(queue, k)) && !GoodAt(queue, i)
                && (v == BadCharacter <==> !IsAlnum(queue[i]) && !IsSeparator(queue[i]))
    ensures v != BadSegment
  {
    ShapeIsGrammar(queue);
    QueueNameByCharacters(queue);
    if queue == "" {
      return Empty;
    }
    if |queue| > MAX_QUEUE_LENGTH {
      return TooLong;
    }
    if !IsAlnum(queue[0]) {
      return BadStart;
    }
    if !IsAlnum(queue[|queue| - 1]) {
      return BadEnd;
    }
    for i := 0 to |queue|
      invariant forall k :: 0 <= k < i ==> GoodAt(queue, k)
    {
      var c := queue[i];
      if !(IsAlnum(c) || c == '-' || c == '.') {
        assert !GoodAt(queue, i);
        return BadCharacter;
      }
      if (c == '-' || c == '.') && i + 1 < |queue| {
        var next := queue[i + 1];
        if next == '-' || next == '.' {
          assert !GoodAt(queue, i);
          return DoubleSeparator;
        }
      }
    }
    v := Accepted;
  }

  // -------------------------------------------------------------------------
  // Job types
  // -------------------------------------------------------------------------

  /** [a-z][a-z0-9_]* */
  predicate IsSegment(s: string) {
    s != "" && IsLower(s[0]) && forall k :: 0 <= k < |s| ==> IsAlnum(s[k]) || s[k] == '_'
  }

  predicate AllSegments(parts: seq<string>) {
    forall k :: 0 <= k < |parts| ==> IsSegment(parts[k])
  }

  function ValidateJobType(jobType: string): Verdict {
    if jobType == "" then Empty
    else if |jobType| > MAX_TYPE_LENGTH then TooLong
    else if AllSegments(Split(jobType, '.')) then Accepted
    else BadSegment
  }

  lemma EmptyIsNoSegment()
    ensures !AllSegments(Split("", '.'))
  {
    SplitNone("", '.');
    assert !IsSegment(Split("", '.')[0]);
  }

  /** Accepted are exactly the texts of at most 255 bytes that are segments joined by dots. */
  lemma JobTypeGrammar(jobType: string)
    ensures ValidateJobType(jobType) == Accepted <==>
            |jobType| <= MAX_TYPE_LENGTH
            && exists parts :: parts != [] && AllSegments(parts) && Join(parts, '.') == jobType
  {
    SplitParts(jobType, '.');
    EmptyIsNoSegment();
    if parts :| parts != [] && AllSegments(parts) && Join(parts, '.') == jobType {
      forall k | 0 <= k < |parts| ensures '.' !in parts[k] {
        assert IsSegment(parts[k]);
      }
      SplitJoin(parts, '.');
    }
  }

  lemma {:induction false} JoinedSegments(types: seq<string>)
    requires types != [] && forall k :: 0 <= k < |types| ==> ValidateJobType(types[k]) == Accepted
    ensures Join(types, '.') != "" && AllSegments(Split(Join(types, '.'), '.'))
  {
    if |types| > 1 {
      JoinedSegments(types[1..]);
      SplitBetween(types[0], Join(types[1..], '.'), '.');
    }
  }

  /** Joining accepted job types with dots gives an accepted job type, up to the length bound. */
  lemma JoinedTypesAccepted(types: seq<string>)
    requires types != [] && forall k :: 0 <= k < |types| ==> ValidateJobType(types[k]) == Accepted
    ensures ValidateJobType(Join(types, '.')) == Accepted <==> |Join(types, '.')| <= MAX_TYPE_LENGTH
  {
    JoinedSegments(types);
  }

  // -------------------------------------------------------------------------
  // Job types, character by character
  // -------------------------------------------------------------------------

  predicate TypeCharacter(c: char) {
    'a' <= c <= 'z' || '0' <= c <= '9' || c == '_' || c == '.'
  }

  /** The text starts with a letter, and so does whatever comes after a dot. */
  predicate LettersLead(s: string) {
    && s != "" && 'a' <= s[0] <= 'z'
    && forall k :: 0 <= k < |s| && s[k] == '.' ==> k + 1 < |s| && 'a' <= s[k + 1] <= 'z'
  }

  predicate ByCharacters(s: string) {
    LettersLead(s) && forall k :: 0 <= k < |s| ==> TypeCharacter(s[k])
  }

  lemma OneSegment(s: string)
    requires '.' !in s
    ensures IsSegment(s) <==> ByCharacters(s)
  {
  }

  lemma FirstSegment(s: string, i: nat)
    requires i < |s| && s[i] == '.' && '.' !in s[..i]
    ensures ByCharacters(s) <==> IsSegment(s[..i]) && ByCharacters(s[i + 1..])
  {
    var a, b := s[..i], s[i + 1..];
    assert forall k :: 0 <= k < i ==> s[k] == a[k];
    assert forall k :: i < k < |s| ==> s[k] == b[k - i - 1];
    if ByCharacters(s) {
      assert a != "" by {
        assert s[0] != '.';
      }
      assert forall k :: 0 <= k < |b| ==> b[k] == s[k + i + 1];
    }
  }

  lemma {:induction false} SegmentsByCharacters(s: string)
    ensures AllSegments(Split(s, '.')) <==> ByCharacters(s)
    decreases |s|
  {
    if Find(s, '.') == |s| {
      SplitNone(s, '.');
      OneSegment(s);
      AllOfMore(s, []);
    } else {
      var i := Find(s, '.');
      CutFirst(s, '.');
      SegmentsByCharacters(s[i + 1..]);
      FirstSegment(s, i);
      var parts := Split(s, '.');
      assert parts == [s[..i]] + Split(s[i + 1..], '.');
      AllOfMore(s[..i], Split(s[i + 1..], '.'));
    }
  }

  lemma AllOfMore(first: string, rest: seq<string>)
    ensures AllSegments([first] + rest) <==> IsSegment(first) && AllSegments(rest)
  {
    var parts := [first] + rest;
    if AllSegments(parts) {
      assert IsSegment(parts[0]);
      assert forall k :: 0 <= k < |rest| ==> rest[k] == parts[k + 1];
    }
  }

  /** Accepted are exactly the texts of 1 to 255 small letters, digits, underscores and dots that
      start with a letter and have one after every dot. */
  lemma JobTypeByCharacters(jobType: string)
    ensures ValidateJobType(jobType) == Accepted <==> 1 <= |jobType| <= 255 && ByCharacters(jobType)
    ensures ValidateJobType(jobType) == Empty <==> jobType == ""
    ensures ValidateJobType(jobType) == TooLong <==> |jobType| > 255
  {
    SegmentsByCharacters(jobType);
  }
}
