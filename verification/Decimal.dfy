/** Printing natural numbers in decimal, and comparing the texts. */
module Decimal {

  function Digit(d: nat): char
    requires d < 10
  {
    '0' + d as char
  }

  predicate IsDigit(c: char) { '0' <= c <= '9' }

  predicate AllDigits(s: string) {
    forall k :: 0 <= k < |s| ==> IsDigit(s[k])
  }

  function Digits(n: nat): (s: string)
    ensures s != "" && AllDigits(s)
  {
    if n < 10 then [Digit(n)] else Digits(n / 10) + [Digit(n % 10)]
  }

  function ValueOf(s: string): nat
    requires AllDigits(s)
  {
    if s == "" then 0
    else
      var n := |s| - 1;
      ValueOf(s[..n]) * 10 + (s[n] - '0') as nat
  }

  lemma ValueOfSnoc(s: string, c: char)
    requires AllDigits(s) && IsDigit(c)
    ensures AllDigits(s + [c]) && ValueOf(s + [c]) == ValueOf(s) * 10 + (c - '0') as nat
  {
    assert (s + [c])[..|s|] == s;
  }

  lemma {:induction false} ValueOfDigits(n: nat)
    ensures ValueOf(Digits(n)) == n
  {
    if n < 10 {
      ValueOfSnoc("", Digit(n));
      assert "" + [Digit(n)] == [Digit(n)];
    } else {
      ValueOfDigits(n / 10);
      ValueOfSnoc(Digits(n / 10), Digit(n % 10));
    }
  }

  /** Two numbers with the same decimal text are equal. */
  lemma DigitsInjective(m: nat, n: nat)
    ensures Digits(m) == Digits(n) <==> m == n
  {
    ValueOfDigits(m);
    ValueOfDigits(n);
  }

  /** Left padding with zeros to a minimal width. */
  function PadTo(s: string, width: nat): string
    decreases width - |s|
  {
    if |s| >= width then s else PadTo("0" + s, width)
  }

  function Pad(n: nat, width: nat): string {
    PadTo(Digits(n), width)
  }

  lemma {:induction false} LeadingZero(s: string)
    requires AllDigits(s)
    ensures AllDigits("0" + s) && ValueOf("0" + s) == ValueOf(s)
  {
    if s == "" {
      assert "0" + s == "0" && "0"[..0] == "";
    } else {
      var n := |s| - 1;
      LeadingZero(s[..n]);
      assert ("0" + s)[..|"0" + s| - 1] == "0" + s[..n];
    }
  }

  lemma {:induction false} PadToKeepsValue(s: string, width: nat)
    requires AllDigits(s)
    ensures AllDigits(PadTo(s, width)) && ValueOf(PadTo(s, width)) == ValueOf(s)
    ensures |PadTo(s, width)| == if |s| < width then width else |s|
    decreases width - |s|
  {
    if |s| < width {
      LeadingZero(s);
      PadToKeepsValue("0" + s, width);
    }
  }

  lemma ValueOfPad(n: nat, width: nat)
    ensures AllDigits(Pad(n, width)) && ValueOf(Pad(n, width)) == n
  {
    PadToKeepsValue(Digits(n), width);
    ValueOfDigits(n);
  }

  lemma {:induction false} DigitsLead(n: nat)
    ensures n > 0 ==> Digits(n)[0] != '0'
    ensures |Digits(n)| > 1 ==> n > 9
  {
    if n >= 10 {
      DigitsLead(n / 10);
    }
  }

  /** Padding gives at least the width, and zeros in front only up to it. */
  lemma PadLeads(n: nat, width: nat)
    requires width > 0
    ensures |Pad(n, width)| >= width
    ensures |Pad(n, width)| > width ==> Pad(n, width) == Digits(n) && Digits(n)[0] != '0'
  {
    PadToKeepsValue(Digits(n), width);
    DigitsLead(n);
  }

  lemma PadInjective(m: nat, n: nat, width: nat)
    ensures Pad(m, width) == Pad(n, width) <==> m == n
  {
    ValueOfPad(m, width);
    ValueOfPad(n, width);
  }

  // -------------------------------------------------------------------------
  // Comparing texts
  // -------------------------------------------------------------------------

  /** Lexicographic order on texts. */
  predicate Less(a: string, b: string) {
    b != "" && (a == "" || a[0] < b[0] || (a[0] == b[0] && Less(a[1..], b[1..])))
  }

  lemma {:induction false} LessConcat(a: string, b: string, c: string, d: string)
    requires |a| == |b|
    ensures Less(a + c, b + d) <==> Less(a, b) || (a == b && Less(c, d))
    decreases |a|
  {
    if a == "" {
      assert a + c == c && b + d == d;
    } else {
      assert (a + c)[1..] == a[1..] + c && (b + d)[1..] == b[1..] + d;
      LessConcat(a[1..], b[1..], c, d);
      assert a == [a[0]] + a[1..] && b == [b[0]] + b[1..];
    }
  }

  lemma LessDigit(m: nat, n: nat)
    requires m < 10 && n < 10
    ensures Less([Digit(m)], [Digit(n)]) <==> m < n
  {
  }

  function Fixed(n: nat, width: nat): (s: string)
    ensures |s| == width && AllDigits(s)
  {
    if width == 0 then "" else Fixed(n / 10, width - 1) + [Digit(n % 10)]
  }

  function Pow10(k: nat): nat { if k == 0 then 1 else 10 * Pow10(k - 1) }

  lemma {:induction false} ValueOfFixed(n: nat, width: nat)
    requires n < Pow10(width)
    ensures ValueOf(Fixed(n, width)) == n
  {
    if width > 0 {
      ValueOfFixed(n / 10, width - 1);
      ValueOfSnoc(Fixed(n / 10, width - 1), Digit(n % 10));
    }
  }

  /** Texts of the same width compare as their numbers. */
  lemma {:induction false} LessFixed(m: nat, n: nat, width: nat)
    requires m < Pow10(width) && n < Pow10(width)
    ensures Less(Fixed(m, width), Fixed(n, width)) <==> m < n
    ensures Fixed(m, width) == Fixed(n, width) <==> m == n
  {
    ValueOfFixed(m, width);
    ValueOfFixed(n, width);
    if width > 0 {
      LessFixed(m / 10, n / 10, width - 1);
      LessConcat(Fixed(m / 10, width - 1), Fixed(n / 10, width - 1), [Digit(m % 10)], [Digit(n % 10)]);
      LessDigit(m % 10, n % 10);
    }
  }

  lemma {:induction false} FixedZero(n: nat, width: nat)
    requires n < Pow10(width)
    ensures Fixed(n, width + 1) == "0" + Fixed(n, width)
  {
    if width == 0 {
      assert Fixed(n, 0) == "" && Fixed(0, 0) == "";
      assert "" + ['0'] == "0" + "";
    } else {
      FixedZero(n / 10, width - 1);
      assert "0" + (Fixed(n / 10, width - 1) + [Digit(n % 10)]) == "0" + Fixed(n / 10, width - 1) + [Digit(n % 10)];
    }
  }

  function Width(n: nat): nat { |Digits(n)| }

  lemma {:induction false} DigitsAreFixed(n: nat)
    ensures n < Pow10(Width(n)) && Digits(n) == Fixed(n, Width(n))
    ensures forall k: nat :: k > 0 && n < Pow10(k) ==> Width(n) <= k
  {
    if n < 10 {
      assert Fixed(n, 1) == Fixed(0, 0) + [Digit(n)];
      assert Pow10(1) == 10 * Pow10(0);
    } else {
      DigitsAreFixed(n / 10);
      forall k: nat | k > 0 && n < Pow10(k) ensures Width(n) <= k {
        assert Pow10(1) == 10 * Pow10(0);
        assert k > 1;
      }
    }
  }

  lemma {:induction false} PadToFixed(n: nat, k: nat, width: nat)
    requires n < Pow10(k) && k <= width
    ensures PadTo(Fixed(n, k), width) == Fixed(n, width)
    decreases width - k
  {
    if k < width {
      FixedZero(n, k);
      assert Pow10(k) <= Pow10(k + 1);
      PadToFixed(n, k + 1, width);
    }
  }

  /** Padding gives exactly `width` digits to every number that fits. */
  lemma PadIsFixed(n: nat, width: nat)
    requires width > 0 && n < Pow10(width)
    ensures Pad(n, width) == Fixed(n, width)
  {
    DigitsAreFixed(n);
    PadToFixed(n, Width(n), width);
  }
}
