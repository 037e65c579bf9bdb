/** Days since 1970-01-01 to Gregorian dates, against the calendar itself. */
module Civil {

  datatype Date = Date(year: nat, month: nat, day: nat)

  // -------------------------------------------------------------------------
  // The calendar (RFC 3339, section 5.7 and Appendix C)
  // -------------------------------------------------------------------------

  predicate IsLeap(y: nat) {
    y % 4 == 0 && (y % 100 != 0 || y % 400 == 0)
  }

  function DaysInMonth(y: nat, m: nat): nat {
    if m == 2 then (if IsLeap(y) then 29 else 28)
    else if m == 4 || m == 6 || m == 9 || m == 11 then 30
    else 31
  }

  predicate ValidDate(d: Date) {
    1 <= d.month <= 12 && 1 <= d.day <= DaysInMonth(d.year, d.month)
  }

  function NextDay(d: Date): Date {
    if d.day < DaysInMonth(d.year, d.month) then d.(day := d.day + 1)
    else if d.month < 12 then Date(d.year, d.month + 1, 1)
    else Date(d.year + 1, 1, 1)
  }

  // -------------------------------------------------------------------------
  // Years of an era: 400 years counted from 1 March of year 0
  // -------------------------------------------------------------------------

  function YearOfEra(doe: nat): nat
    requires doe < 146097
  {
    (doe - doe / 1460 + doe / 36524 - doe / 146096) / 365
  }

  function YearStart(y: nat): nat {
    365 * y + y / 4 - y / 100
  }

  function YearLength(y: nat): nat {
    if IsLeap(y + 1) then 366 else 365
  }

  lemma YearStartByParts(y: nat, c: nat, q: nat, r: nat)
    requires y == 100 * c + 4 * q + r && q < 25 && r < 4 && c < 4
    ensures YearStart(y) == 36524 * c + 1461 * q + 365 * r
    ensures IsLeap(y + 1) <==> r == 3 && (q < 24 || c == 3)
  {
    assert y / 4 == 25 * c + q;
    assert y / 100 == c;
  }

  lemma YearOfEraByParts(doe: nat, c: nat, q: nat, r: nat, k: nat)
    requires c < 4 && q < 25 && r < 4
    requires k < 365 || (k == 365 && r == 3 && (q < 24 || c == 3))
    requires doe == 36524 * c + 1461 * q + 365 * r + k
    ensures doe < 146097 && YearOfEra(doe) == 100 * c + 4 * q + r
  {
    var t := 24 * c + q + 365 * r + k;
    var e := if t >= 1460 then 1 else 0;
    var last := if doe == 146096 then 1 else 0;
    assert doe == 1460 * (25 * c + q) + t;
    assert doe / 1460 == 25 * c + q + e;
    assert doe / 36524 == c + last;
    assert doe / 146096 == last;
    assert 0 <= k - e < 365;
    assert doe - doe / 1460 + doe / 36524 - doe / 146096 == 365 * (100 * c + 4 * q + r) + (k - e);
  }

  /** Day `k` of year `y` of the era is found again. */
  lemma YearOfEraInverts(y: nat, k: nat)
    requires y < 400 && k < YearLength(y)
    ensures YearStart(y) + k < 146097 && YearOfEra(YearStart(y) + k) == y
  {
    var c, q, r := y / 100, y % 100 / 4, y % 4;
    assert y == 100 * c + 4 * q + r;
    YearStartByParts(y, c, q, r);
    YearOfEraByParts(YearStart(y) + k, c, q, r, k);
  }

  lemma EveryDayHasAYear(doe: nat) returns (y: nat, k: nat)
    requires doe < 146097
    ensures y < 400 && k < YearLength(y) && doe == YearStart(y) + k
  {
    var c := if doe / 36524 < 3 then doe / 36524 else 3;
    var q := (doe - 36524 * c) / 1461;
    var rest := doe - 36524 * c - 1461 * q;
    var r := if rest / 365 < 3 then rest / 365 else 3;
    y, k := 100 * c + 4 * q + r, rest - 365 * r;
    YearStartByParts(y, c, q, r);
  }

  lemma YearStarts(y: nat)
    requires y < 399
    ensures YearStart(y) + YearLength(y) == YearStart(y + 1)
  {
    var c, q, r := y / 100, y % 100 / 4, y % 4;
    assert y == 100 * c + 4 * q + r;
    YearStartByParts(y, c, q, r);
    if r < 3 {
      YearStartByParts(y + 1, c, q, r + 1);
    } else if q < 24 {
      YearStartByParts(y + 1, c, q + 1, 0);
    } else {
      YearStartByParts(y + 1, c + 1, 0, 0);
    }
  }

  // -------------------------------------------------------------------------
  // The source's arithmetic; every local is unsigned, so none may go below zero
  // -------------------------------------------------------------------------

  function DayInYear(doe: nat, yoe: nat): nat
    requires YearStart(yoe) <= doe
  {
    doe - (365 * yoe + yoe / 4 - yoe / 100)
  }

  function MonthIndex(doy: nat): nat {
    (5 * doy + 2) / 153
  }

  function DayInMonth(doy: nat): nat {
    var day := doy - (153 * MonthIndex(doy) + 2) / 5 + 1;
    assert (153 * ((5 * doy + 2) / 153) + 2) / 5 <= doy;
    day
  }

  function DaysToDate(days: nat): Date {
    var z: nat := days + 719468;
    var era: nat := z / 146097;
    var doe: nat := z - era * 146097;
    var yoe: nat := YearOfEra(doe);
    YearStartsBefore(doe);
    var y: nat := yoe + era * 400;
    var doy: nat := DayInYear(doe, yoe);
    var mp: nat := MonthIndex(doy);
    var d: nat := DayInMonth(doy);
    var m: nat := if mp < 10 then mp + 3 else mp - 9;
    Date(if m <= 2 then y + 1 else y, m, d)
  }

  lemma YearStartsBefore(doe: nat)
    requires doe < 146097
    ensures YearStart(YearOfEra(doe)) <= doe
  {
    var y, k := EveryDayHasAYear(doe);
    YearOfEraInverts(y, k);
    assert YearOfEra(doe) == y;
    assert YearStart(y) <= doe;
  }

  // -------------------------------------------------------------------------
  // One day later
  // -------------------------------------------------------------------------

  /** The date of day `k` of year `y` of an era, both counted from 1 March. */
  function DateOf(era: nat, y: nat, k: nat): Date {
    var mp := MonthIndex(k);
    var m: nat := if mp < 10 then mp + 3 else mp - 9;
    Date(if m <= 2 then y + era * 400 + 1 else y + era * 400, m, DayInMonth(k))
  }

  lemma DaysToDateByParts(days: nat, era: nat, y: nat, k: nat)
    requires y < 400 && k < YearLength(y)
    requires days + 719468 == 146097 * era + YearStart(y) + k
    ensures DaysToDate(days) == DateOf(era, y, k)
  {
    YearOfEraInverts(y, k);
    var doe := YearStart(y) + k;
    assert (days + 719468) / 146097 == era;
    assert DayInYear(doe, YearOfEra(doe)) == k;
  }

  lemma EraOf(days: nat) returns (era: nat, y: nat, k: nat)
    ensures y < 400 && k < YearLength(y)
    ensures days + 719468 == 146097 * era + YearStart(y) + k
    ensures DaysToDate(days) == DateOf(era, y, k)
  {
    era := (days + 719468) / 146097;
    y, k := EveryDayHasAYear((days + 719468) % 146097);
    DaysToDateByParts(days, era, y, k);
  }

  /** First day of month `mp` of a year that starts in March. */
  function MonthStart(mp: nat): nat {
    (153 * mp + 2) / 5
  }

  lemma MonthOfDay(k: nat)
    requires k < 366
    ensures MonthIndex(k) < 12
    ensures MonthStart(MonthIndex(k)) <= k < MonthStart(MonthIndex(k) + 1)
    ensures DayInMonth(k) == k - MonthStart(MonthIndex(k)) + 1
  {
  }

  lemma Mod4NextEra(n: nat)
    ensures (n + 400) % 4 == n % 4
  {
  }

  lemma Mod100NextEra(n: nat)
    ensures (n + 400) % 100 == n % 100
  {
  }

  lemma LeapNextEra(n: nat)
    ensures IsLeap(n + 400) == IsLeap(n)
  {
    Mod4NextEra(n);
    Mod100NextEra(n);
    assert (n + 400) % 400 == n % 400;
  }

  lemma {:induction false} LeapInEra(era: nat, y: nat)
    ensures IsLeap(y + era * 400 + 1) == IsLeap(y + 1)
  {
    if era > 0 {
      LeapInEra(era - 1, y);
      LeapNextEra(y + (era - 1) * 400 + 1);
    }
  }

  /** The months between March and January have the lengths the divisions by 5 and 153 give;
      February takes what is left of the year. */
  lemma MonthLengths(era: nat, y: nat, k: nat)
    requires k < YearLength(y)
    ensures var d := DateOf(era, y, k);
            var mp := MonthIndex(k);
            DaysInMonth(d.year, d.month) ==
              (if mp == 11 then YearLength(y) else MonthStart(mp + 1)) - MonthStart(mp)
  {
    MonthOfDay(k);
    LeapInEra(era, y);
    var mp := MonthIndex(k);
    assert mp == 0 || mp == 1 || mp == 2 || mp == 3 || mp == 4 || mp == 5 || mp == 6 || mp == 7
        || mp == 8 || mp == 9 || mp == 10 || mp == 11;
  }

  lemma NextDayInYear(era: nat, y: nat, k: nat)
    requires k + 1 < YearLength(y)
    ensures DateOf(era, y, k + 1) == NextDay(DateOf(era, y, k))
  {
    MonthOfDay(k);
    MonthOfDay(k + 1);
    MonthLengths(era, y, k);
    assert MonthIndex(k + 1) == MonthIndex(k)
        || (MonthIndex(k + 1) == MonthIndex(k) + 1 && k + 1 == MonthStart(MonthIndex(k + 1)));
  }

  lemma NextDayInNextYear(era: nat, y: nat, era': nat, y': nat)
    requires y + era * 400 + 1 == y' + era' * 400
    ensures DateOf(era', y', 0) == NextDay(DateOf(era, y, YearLength(y) - 1))
  {
    MonthOfDay(YearLength(y) - 1);
    MonthLengths(era, y, YearLength(y) - 1);
  }

  lemma StepByParts(era: nat, y: nat, k: nat) returns (era': nat, y': nat, k': nat)
    requires y < 400 && k < YearLength(y)
    ensures y' < 400 && k' < YearLength(y')
    ensures 146097 * era' + YearStart(y') + k' == 146097 * era + YearStart(y) + k + 1
    ensures DateOf(era', y', k') == NextDay(DateOf(era, y, k))
  {
    if k + 1 < YearLength(y) {
      era', y', k' := era, y, k + 1;
      NextDayInYear(era, y, k);
    } else if y < 399 {
      era', y', k' := era, y + 1, 0;
      YearStarts(y);
      NextDayInNextYear(era, y, era', y');
    } else {
      era', y', k' := era + 1, 0, 0;
      assert YearStart(399) + YearLength(399) == 146097;
      NextDayInNextYear(era, y, era', y');
    }
  }

  /** The date of the next day number is the next day of the Gregorian calendar. */
  lemma DaysToDateSteps(days: nat)
    ensures DaysToDate(days + 1) == NextDay(DaysToDate(days))
  {
    var era, y, k := EraOf(days);
    var era', y', k' := StepByParts(era, y, k);
    DaysToDateByParts(days + 1, era', y', k');
  }

  lemma EpochDay()
    ensures DaysToDate(0) == Date(1970, 1, 1)
  {
    DaysToDateByParts(0, 4, 369, 306);
  }

  // -------------------------------------------------------------------------
  // The inverse: counting days by adding up years and months
  // -------------------------------------------------------------------------

  function DaysInYear(y: nat): nat {
    if IsLeap(y) then 366 else 365
  }

  function DaysBeforeYear(y: nat): nat
    requires y >= 1970
  {
    if y == 1970 then 0 else DaysBeforeYear(y - 1) + DaysInYear(y - 1)
  }

  function DaysBeforeMonth(y: nat, m: nat): nat
    requires m >= 1
  {
    if m == 1 then 0 else DaysBeforeMonth(y, m - 1) + DaysInMonth(y, m - 1)
  }

  predicate Since1970(d: Date) {
    ValidDate(d) && d.year >= 1970
  }

  function DayNumber(d: Date): nat
    requires Since1970(d)
  {
    DaysBeforeYear(d.year) + DaysBeforeMonth(d.year, d.month) + d.day - 1
  }

  lemma MonthsFillYear(y: nat)
    ensures DaysBeforeMonth(y, 13) == DaysInYear(y)
  {
    assert DaysBeforeMonth(y, 2) == 31;
    assert DaysBeforeMonth(y, 4) == DaysInYear(y) - 275;
    assert DaysBeforeMonth(y, 6) == DaysInYear(y) - 214;
    assert DaysBeforeMonth(y, 8) == DaysInYear(y) - 153;
    assert DaysBeforeMonth(y, 10) == DaysInYear(y) - 92;
    assert DaysBeforeMonth(y, 12) == DaysInYear(y) - 31;
  }

  lemma {:induction false} MonthsGrow(y: nat, m: nat, n: nat)
    requires 1 <= m <= n
    ensures DaysBeforeMonth(y, m) <= DaysBeforeMonth(y, n)
    decreases n
  {
    if m < n {
      MonthsGrow(y, m, n - 1);
    }
  }

  lemma {:induction false} YearsGrow(y: nat, z: nat)
    requires 1970 <= y <= z
    ensures DaysBeforeYear(y) <= DaysBeforeYear(z)
    decreases z
  {
    if y < z {
      YearsGrow(y, z - 1);
    }
  }

  lemma NextDayCounts(d: Date)
    requires Since1970(d)
    ensures Since1970(NextDay(d)) && DayNumber(NextDay(d)) == DayNumber(d) + 1
  {
    MonthsFillYear(d.year);
  }

  predicate Before(d: Date, e: Date) {
    d.year < e.year || (d.year == e.year && (d.month < e.month || (d.month == e.month && d.day < e.day)))
  }

  lemma DayNumberGrows(d: Date, e: Date)
    requires Since1970(d) && Since1970(e) && Before(d, e)
    ensures DayNumber(d) < DayNumber(e)
  {
    MonthsFillYear(d.year);
    if d.year < e.year {
      MonthsGrow(d.year, d.month + 1, 13);
      YearsGrow(d.year + 1, e.year);
    } else if d.month < e.month {
      MonthsGrow(d.year, d.month + 1, e.month);
    }
  }

  lemma DayNumberOrders(d: Date, e: Date)
    requires Since1970(d) && Since1970(e)
    ensures Before(d, e) <==> DayNumber(d) < DayNumber(e)
    ensures d == e <==> DayNumber(d) == DayNumber(e)
  {
    if Before(d, e) {
      DayNumberGrows(d, e);
    } else if Before(e, d) {
      DayNumberGrows(e, d);
    }
  }

  /** A conversion that starts at the epoch and follows the calendar is inverted by counting. */
  lemma {:induction false} FollowingTheCalendar(f: nat -> Date, days: nat)
    requires f(0) == Date(1970, 1, 1)
    requires forall n: nat :: f(n + 1) == NextDay(f(n))
    ensures Since1970(f(days)) && DayNumber(f(days)) == days
  {
    if days > 0 {
      FollowingTheCalendar(f, days - 1);
      NextDayCounts(f(days - 1));
      assert f((days - 1) + 1) == NextDay(f(days - 1));
    }
  }

  /** Every result is a valid date since 1970, and its day number is the input. */
  lemma DayNumberInverts(days: nat)
    ensures Since1970(DaysToDate(days)) && DayNumber(DaysToDate(days)) == days
  {
    EpochDay();
    forall n: nat ensures DaysToDate(n + 1) == NextDay(DaysToDate(n)) {
      DaysToDateSteps(n);
    }
    FollowingTheCalendar(DaysToDate, days);
  }

  /** Every date since 1970 is the date of its day number: the source misses no date. */
  lemma DaysToDateInverts(d: Date)
    requires Since1970(d)
    ensures DaysToDate(DayNumber(d)) == d
  {
    DayNumberInverts(DayNumber(d));
    DayNumberOrders(DaysToDate(DayNumber(d)), d);
  }

  lemma DatesFollowDays(m: nat, n: nat)
    ensures m < n <==> Before(DaysToDate(m), DaysToDate(n))
    ensures m == n <==> DaysToDate(m) == DaysToDate(n)
  {
    DayNumberInverts(m);
    DayNumberInverts(n);
    DayNumberOrders(DaysToDate(m), DaysToDate(n));
  }
}
