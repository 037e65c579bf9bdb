/** The recorder's timestamps: seconds since the epoch as RFC 3339 text. */
module Timestamp {
  import opened Options
  import opened Decimal
  import opened Civil

  const DAY := 86400

  datatype Clock = Clock(date: Date, hour: nat, minute: nat, second: nat)

  function ClockOf(secs: nat): Clock {
    var timeOfDay := secs % DAY;
    Clock(DaysToDate(secs / DAY), timeOfDay / 3600, timeOfDay % 3600 / 60, timeOfDay % 60)
  }

  function AssembleTime(h: string, mi: string, se: string): string {
    h + (":" + (mi + (":" + (se + "Z"))))
  }

  function Assemble(mo: string, d: string, time: string): string {
    "-" + (mo + ("-" + (d + ("T" + time))))
  }

  /** What follows the year. */
  function Tail(c: Clock): string {
    Assemble(Pad(c.date.month, 2), Pad(c.date.day, 2),
             AssembleTime(Pad(c.hour, 2), Pad(c.minute, 2), Pad(c.second, 2)))
  }

  /** The text for a given reading of the system clock. */
  function Format(secs: nat): string {
    Pad(ClockOf(secs).date.year, 4) + Tail(ClockOf(secs))
  }

  // -------------------------------------------------------------------------
  // Reading a timestamp
  // -------------------------------------------------------------------------

  const TAIL_LENGTH := 16

  function DigitValue(c: char): nat
    requires IsDigit(c)
  {
    (c - '0') as nat
  }

  /** The two digits at `at`. */
  function Field(s: string, at: nat): Option<nat>
    requires at + 2 <= |s|
  {
    if IsDigit(s[at]) && IsDigit(s[at + 1]) then Some(10 * DigitValue(s[at]) + DigitValue(s[at + 1])) else None
  }

  /** Four digits, or more if the first one is not 0. */
  predicate YearShape(year: string) {
    AllDigits(year) && |year| >= 4 && (|year| > 4 ==> year[0] != '0')
  }

  /** The shape of RFC 3339 after a year of `y` digits: -mm-ddThh:mm:ssZ. */
  predicate Separated(s: string, y: nat)
    requires |s| == y + TAIL_LENGTH
  {
    && s[y] == '-' && s[y + 3] == '-' && s[y + 6] == 'T'
    && s[y + 9] == ':' && s[y + 12] == ':' && s[y + 15] == 'Z'
  }

  function Read(s: string): Option<Clock> {
    if |s| < TAIL_LENGTH || !YearShape(s[..|s| - TAIL_LENGTH]) || !Separated(s, |s| - TAIL_LENGTH) then None
    else
      var y := |s| - TAIL_LENGTH;
      var month, day := Field(s, y + 1), Field(s, y + 4);
      var hour, minute, second := Field(s, y + 7), Field(s, y + 10), Field(s, y + 13);
      if month.None? || day.None? || hour.None? || minute.None? || second.None? then None
      else Some(Clock(Date(ValueOf(s[..y]), month.value, day.value), hour.value, minute.value, second.value))
  }

  function SecondsOf(c: Clock): Option<nat> {
    if Since1970(c.date) then Some(DayNumber(c.date) * DAY + c.hour * 3600 + c.minute * 60 + c.second)
    else None
  }

  predicate TwoDigits(n: nat) { n < 100 }

  predicate Printable(c: Clock) {
    TwoDigits(c.date.month) && TwoDigits(c.date.day) && TwoDigits(c.hour) && TwoDigits(c.minute) && TwoDigits(c.second)
  }

  lemma FixedTwo(n: nat)
    requires TwoDigits(n)
    ensures Fixed(n, 2) == [Digit(n / 10), Digit(n % 10)]
  {
    assert Fixed(n / 10, 1) == Fixed(n / 100, 0) + [Digit(n / 10)];
  }

  lemma PadTwo(n: nat)
    requires TwoDigits(n)
    ensures Pad(n, 2) == Fixed(n, 2) && Pad(n, 2) == [Digit(n / 10), Digit(n % 10)]
  {
    assert Pow10(2) == 10 * Pow10(1) && Pow10(1) == 10 * Pow10(0);
    PadIsFixed(n, 2);
    FixedTwo(n);
  }

  /** `t` is the text of `n` in two digits. */
  predicate IsTwo(t: string, n: nat) {
    TwoDigits(n) && t == [Digit(n / 10), Digit(n % 10)]
  }

  /** After `head` comes the two-digit field `t`; after the separator comes the rest. */
  lemma TakeField(s: string, head: string, t: string, n: nat, sep: char, rest: string) returns (head': string)
    requires IsTwo(t, n) && s == head + (t + ([sep] + rest))
    ensures |head| + 2 < |s| && Field(s, |head|) == Some(n) && s[|head| + 2] == sep
    ensures s == head' + rest && |head'| == |head| + 3
  {
    assert s[|head|] == t[0] && s[|head| + 1] == t[1] && s[|head| + 2] == sep;
    head' := head + t + [sep];
  }

  lemma DateFields(s: string, year: string, mo: string, d: string, time: string, month: nat, day: nat)
    returns (head: string)
    requires AllDigits(year) && IsTwo(mo, month) && IsTwo(d, day) && s == year + Assemble(mo, d, time)
    ensures s == head + time && |head| == |year| + 7
    ensures s[..|year|] == year && s[|year|] == '-' && s[|year| + 3] == '-' && s[|year| + 6] == 'T'
    ensures Field(s, |year| + 1) == Some(month)
    ensures Field(s, |year| + 4) == Some(day)
  {
    head := year + "-";
    assert s == head + (mo + (['-'] + (d + (['T'] + time))));
    head := TakeField(s, head, mo, month, '-', d + (['T'] + time));
    head := TakeField(s, head, d, day, 'T', time);
  }

  lemma TimeFields(s: string, head: string, h: string, mi: string, se: string, c: Clock)
    requires IsTwo(h, c.hour) && IsTwo(mi, c.minute) && IsTwo(se, c.second) && s == head + AssembleTime(h, mi, se)
    ensures |s| == |head| + 9 && s[|head| + 2] == ':' && s[|head| + 5] == ':' && s[|head| + 8] == 'Z'
    ensures Field(s, |head|) == Some(c.hour)
    ensures Field(s, |head| + 3) == Some(c.minute)
    ensures Field(s, |head| + 6) == Some(c.second)
  {
    var rest := se + (['Z'] + "");
    assert rest == se + "Z";
    var next := TakeField(s, head, h, c.hour, ':', mi + ([':'] + rest));
    next := TakeField(s, next, mi, c.minute, ':', rest);
    next := TakeField(s, next, se, c.second, 'Z', "");
  }

  /** What `Read` looks for, field by field. */
  lemma ReadFields(s: string, y: nat, c: Clock)
    requires |s| == y + TAIL_LENGTH && YearShape(s[..y]) && ValueOf(s[..y]) == c.date.year && Separated(s, y)
    requires Field(s, y + 1) == Some(c.date.month) && Field(s, y + 4) == Some(c.date.day)
    requires Field(s, y + 7) == Some(c.hour) && Field(s, y + 10) == Some(c.minute) && Field(s, y + 13) == Some(c.second)
    ensures Read(s) == Some(c)
  {
  }

  lemma ReadAssembled(year: string, mo: string, d: string, h: string, mi: string, se: string, c: Clock)
    requires YearShape(year) && ValueOf(year) == c.date.year
    requires IsTwo(mo, c.date.month) && IsTwo(d, c.date.day)
    requires IsTwo(h, c.hour) && IsTwo(mi, c.minute) && IsTwo(se, c.second)
    ensures Read(year + Assemble(mo, d, AssembleTime(h, mi, se))) == Some(c)
  {
    var time := AssembleTime(h, mi, se);
    ReadInParts(year + Assemble(mo, d, time), year, mo, d, time, h, mi, se, c);
  }

  lemma ReadInParts(s: string, year: string, mo: string, d: string, time: string,
                    h: string, mi: string, se: string, c: Clock)
    requires YearShape(year) && ValueOf(year) == c.date.year
    requires IsTwo(mo, c.date.month) && IsTwo(d, c.date.day)
    requires IsTwo(h, c.hour) && IsTwo(mi, c.minute) && IsTwo(se, c.second)
    requires s == year + Assemble(mo, d, time) && time == AssembleTime(h, mi, se)
    ensures Read(s) == Some(c)
  {
    var head := DateFields(s, year, mo, d, time, c.date.month, c.date.day);
    TimeFields(s, head, h, mi, se, c);
    ReadFields(s, |year|, c);
  }

  lemma ReadPrinted(c: Clock)
    requires Printable(c)
    ensures Read(Pad(c.date.year, 4) + Tail(c)) == Some(c)
  {
    PadTwo(c.date.month);
    PadTwo(c.date.day);
    PadTwo(c.hour);
    PadTwo(c.minute);
    PadTwo(c.second);
    ValueOfPad(c.date.year, 4);
    PadLeads(c.date.year, 4);
    ReadAssembled(Pad(c.date.year, 4), Pad(c.date.month, 2), Pad(c.date.day, 2),
                  Pad(c.hour, 2), Pad(c.minute, 2), Pad(c.second, 2), c);
  }

  lemma ClockIsPrintable(secs: nat)
    ensures Printable(ClockOf(secs)) && Since1970(ClockOf(secs).date)
    ensures ClockOf(secs).hour < 24 && ClockOf(secs).minute < 60 && ClockOf(secs).second < 60
  {
    DayNumberInverts(secs / DAY);
  }

  lemma TimeOfDay(t: nat)
    ensures t / 3600 * 3600 + t % 3600 / 60 * 60 + t % 60 == t
  {
    assert t % 3600 % 60 == t % 60;
  }

  /** Reading a formatted timestamp gives back the clock it was made from. */
  lemma FormatReads(secs: nat)
    ensures Read(Format(secs)) == Some(ClockOf(secs))
  {
    ClockIsPrintable(secs);
    ReadPrinted(ClockOf(secs));
  }

  lemma SecondsAddUp(date: Date, days: nat, t: nat)
    requires Since1970(date) && DayNumber(date) == days
    ensures SecondsOf(Clock(date, t / 3600, t % 3600 / 60, t % 60)) == Some(days * DAY + t)
  {
    TimeOfDay(t);
  }

  /** And that clock is exactly `secs` seconds after the epoch: a timestamp loses nothing. */
  lemma ClockCountsSeconds(secs: nat)
    ensures SecondsOf(ClockOf(secs)) == Some(secs)
  {
    DayNumberInverts(secs / DAY);
    SecondsAddUp(DaysToDate(secs / DAY), secs / DAY, secs % DAY);
  }

  // -------------------------------------------------------------------------
  // Order (RFC 3339, section 5.1)
  // -------------------------------------------------------------------------

  lemma LessField(m: nat, n: nat, sep: string, c: string, d: string)
    requires TwoDigits(m) && TwoDigits(n)
    ensures Less(sep + (Pad(m, 2) + c), sep + (Pad(n, 2) + d)) <==> m < n || (m == n && Less(c, d))
  {
    PadTwo(m);
    PadTwo(n);
    assert Pow10(2) == 10 * Pow10(1) && Pow10(1) == 10 * Pow10(0);
    LessFixed(m, n, 2);
    LessConcat(Pad(m, 2), Pad(n, 2), c, d);
    LessSelf(sep);
    LessConcat(sep, sep, Pad(m, 2) + c, Pad(n, 2) + d);
  }

  lemma {:induction false} LessSelf(s: string)
    ensures !Less(s, s)
    decreases |s|
  {
    if s != "" {
      LessSelf(s[1..]);
    }
  }

  predicate Earlier(a: Clock, b: Clock) {
    || Before(a.date, b.date)
    || (a.date == b.date && (a.hour < b.hour || (a.hour == b.hour
         && (a.minute < b.minute || (a.minute == b.minute && a.second < b.second)))))
  }

  lemma LessTail(a: Clock, b: Clock)
    requires Printable(a) && Printable(b) && a.date.year == b.date.year
    ensures Less(Tail(a), Tail(b)) <==> Earlier(a, b)
  {
    var a5, b5 := Pad(a.second, 2) + "Z", Pad(b.second, 2) + "Z";
    var a4, b4 := Pad(a.minute, 2) + (":" + a5), Pad(b.minute, 2) + (":" + b5);
    var a3, b3 := Pad(a.hour, 2) + (":" + a4), Pad(b.hour, 2) + (":" + b4);
    var a2, b2 := Pad(a.date.day, 2) + ("T" + a3), Pad(b.date.day, 2) + ("T" + b3);
    LessField(a.date.month, b.date.month, "-", "-" + a2, "-" + b2);
    LessField(a.date.day, b.date.day, "-", "T" + a3, "T" + b3);
    LessField(a.hour, b.hour, "T", ":" + a4, ":" + b4);
    LessField(a.minute, b.minute, ":", ":" + a5, ":" + b5);
    LessField(a.second, b.second, ":", "Z", "Z");
    LessSelf("Z");
  }

  /** Seconds from the epoch to the end of year 9999. */
  const YEAR_10000 := 253402300800

  lemma LastDayOf9999()
    ensures DaysToDate(2932896) == Date(9999, 12, 31)
  {
    DaysToDateByParts(2932896, 24, 399, 305);
  }

  /** The years of four digits end exactly there. */
  lemma FourDigitYears(secs: nat)
    ensures ClockOf(secs).date.year <= 9999 <==> secs < YEAR_10000
  {
    LastDayOf9999();
    DatesFollowDays(2932896, secs / DAY);
    ClockIsPrintable(secs);
    assert secs < YEAR_10000 <==> secs / DAY <= 2932896;
  }

  lemma LessFormat(m: nat, n: nat)
    requires m < YEAR_10000 && n < YEAR_10000
    ensures Less(Format(m), Format(n)) <==> Earlier(ClockOf(m), ClockOf(n))
  {
    var a, b := ClockOf(m), ClockOf(n);
    FourDigitYears(m);
    FourDigitYears(n);
    ClockIsPrintable(m);
    ClockIsPrintable(n);
    assert Pow10(4) == 10000 by {
      assert Pow10(2) == 10 * Pow10(1) && Pow10(1) == 10 * Pow10(0);
      assert Pow10(4) == 10 * Pow10(3) && Pow10(3) == 10 * Pow10(2);
    }
    PadIsFixed(a.date.year, 4);
    PadIsFixed(b.date.year, 4);
    LessFixed(a.date.year, b.date.year, 4);
    LessConcat(Pad(a.date.year, 4), Pad(b.date.year, 4), Tail(a), Tail(b));
    if a.date.year == b.date.year {
      LessTail(a, b);
    }
  }

  lemma EarlierFollowsSeconds(m: nat, n: nat)
    ensures Earlier(ClockOf(m), ClockOf(n)) <==> m < n
  {
    DatesFollowDays(m / DAY, n / DAY);
    TimeOfDay(m % DAY);
    TimeOfDay(n % DAY);
    ClockIsPrintable(m);
    ClockIsPrintable(n);
  }

  /** Up to year 9999, timestamps sort as texts exactly as they sort in time. */
  lemma TextOrderIsTimeOrder(m: nat, n: nat)
    requires m < YEAR_10000 && n < YEAR_10000
    ensures Less(Format(m), Format(n)) <==> m < n
  {
    LessFormat(m, n);
    EarlierFollowsSeconds(m, n);
  }
}
