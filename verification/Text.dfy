/** Splitting a text at a separator and joining it again. */
module Text {

  /** Position of the first `c`, or the length of the text. */
  function Find(s: string, c: char): (i: nat)
    ensures i <= |s| && (forall j :: 0 <= j < i ==> s[j] != c) && (i < |s| ==> s[i] == c)
  {
    if s == "" || s[0] == c then 0 else 1 + Find(s[1..], c)
  }

  function Split(s: string, c: char): (parts: seq<string>)
    ensures parts != []
    decreases |s|
  {
    var i := Find(s, c);
    if i == |s| then [s] else [s[..i]] + Split(s[i + 1..], c)
  }

  function Join(parts: seq<string>, c: char): string {
    if parts == [] then ""
    else if |parts| == 1 then parts[0]
    else parts[0] + [c] + Join(parts[1..], c)
  }

  lemma FindUnique(s: string, c: char, i: nat)
    requires i <= |s| && (forall j :: 0 <= j < i ==> s[j] != c) && (i < |s| ==> s[i] == c)
    ensures Find(s, c) == i
  {
  }

  lemma SplitStep(line: string, rest: string, c: char)
    requires c !in line
    ensures Split(line + [c] + rest, c) == [line] + Split(rest, c)
  {
    var s := line + [c] + rest;
    assert s[..|line|] == line && s[|line| + 1..] == rest;
    FindUnique(s, c, |line|);
  }

  lemma SplitNone(s: string, c: char)
    requires c !in s
    ensures Split(s, c) == [s]
  {
    assert s[..|s|] == s;
    FindUnique(s, c, |s|);
  }

  lemma {:induction false} SplitParts(s: string, c: char)
    ensures forall k :: 0 <= k < |Split(s, c)| ==> c !in Split(s, c)[k]
    ensures Join(Split(s, c), c) == s
    decreases |s|
  {
    var i := Find(s, c);
    if i < |s| {
      SplitParts(s[i + 1..], c);
      assert s == s[..i] + [c] + s[i + 1..];
      assert Split(s, c)[1..] == Split(s[i + 1..], c);
    } else {
      assert s[..i] == s;
    }
  }

  lemma {:induction false} SplitJoin(parts: seq<string>, c: char)
    requires parts != [] && forall k :: 0 <= k < |parts| ==> c !in parts[k]
    ensures Split(Join(parts, c), c) == parts
  {
    if |parts| == 1 {
      SplitNone(parts[0], c);
    } else {
      SplitJoin(parts[1..], c);
      SplitStep(parts[0], Join(parts[1..], c), c);
    }
  }

  lemma CutAt(s: string, c: char, i: nat)
    requires i < |s| && s[i] == c && forall j :: 0 <= j < i ==> s[j] != c
    ensures c !in s[..i] && s == s[..i] + [c] + s[i + 1..]
  {
  }

  lemma CutFirst(s: string, c: char)
    requires Find(s, c) < |s|
    ensures var i := Find(s, c);
            c !in s[..i] && s == s[..i] + [c] + s[i + 1..] && Split(s, c) == [s[..i]] + Split(s[i + 1..], c)
  {
    CutAt(s, c, Find(s, c));
  }

  function Last(parts: seq<string>): string
    requires parts != []
  {
    parts[|parts| - 1]
  }

  function ButLast(parts: seq<string>): seq<string>
    requires parts != []
  {
    parts[..|parts| - 1]
  }

  lemma LastOfConcat(p: seq<string>, q: seq<string>)
    requires q != []
    ensures Last(p + q) == Last(q) && ButLast(p + q) == p + ButLast(q)
  {
  }

  /** Cutting a text anywhere only cuts one part in two. */
  lemma {:induction false} SplitConcat(a: string, b: string, c: char)
    ensures Split(a + b, c) == ButLast(Split(a, c)) + Split(Last(Split(a, c)) + b, c)
    decreases |a|
  {
    var i := Find(a, c);
    if i < |a| {
      var line, tail := a[..i], a[i + 1..];
      CutFirst(a, c);
      SplitConcat(tail, b, c);
      JoinUp(line, c, tail, b);
      SplitStep(line, tail + b, c);
      Regroup(line, Split(tail, c), Split(Last(Split(tail, c)) + b, c));
    } else {
      SplitNone(a, c);
      assert ButLast([a]) == [];
    }
  }

  lemma Regroup(line: string, parts: seq<string>, more: seq<string>)
    requires parts != []
    ensures Last([line] + parts) == Last(parts)
    ensures [line] + (ButLast(parts) + more) == ButLast([line] + parts) + more
  {
  }

  lemma JoinUp(line: string, c: char, tail: string, b: string)
    ensures (line + [c] + tail) + b == line + [c] + (tail + b)
  {
  }

  lemma JoinUpBetween(line: string, c: char, tail: string, b: string)
    ensures line + [c] + tail + [c] + b == line + [c] + (tail + [c] + b)
  {
  }

  lemma PrependPart(line: string, p: seq<string>, q: seq<string>)
    ensures [line] + (p + q) == [line] + p + q
  {
  }

  lemma {:induction false} SplitBetween(a: string, b: string, c: char)
    ensures Split(a + [c] + b, c) == Split(a, c) + Split(b, c)
    decreases |a|
  {
    var i := Find(a, c);
    if i < |a| {
      var line, tail := a[..i], a[i + 1..];
      CutFirst(a, c);
      calc {
        Split(a + [c] + b, c);
        { JoinUpBetween(line, c, tail, b); }
        Split(line + [c] + (tail + [c] + b), c);
        { SplitStep(line, tail + [c] + b, c); }
        [line] + Split(tail + [c] + b, c);
        { SplitBetween(tail, b, c); }
        [line] + (Split(tail, c) + Split(b, c));
        { PrependPart(line, Split(tail, c), Split(b, c)); }
        Split(a, c) + Split(b, c);
      }
    } else {
      SplitNone(a, c);
      SplitStep(a, b, c);
    }
  }
}
