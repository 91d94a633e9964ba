/**
 * Calendar arithmetic of the temporal-expression library (kronos/src/utils.rs):
 * the Gregorian month lengths, adding years, months and days to a date, and
 * moving to the start of the next month or year.
 *
 * A date is a (year, month, day) triple. The library's date type checks on
 * construction that the triple names a real day; here that is `ValidDate`.
 * The day after a date (`Succ`) is built from `DaysInMonth`, and adding n days
 * is defined as n successor steps (`AddDays`), which is the reference the
 * imperative `DateAdd` is proved against.
 */
module Calendar {
  import opened Integers

  datatype Date = Date(year: int, month: int, day: int)

  /** Month lengths of a common year, January first. */
  const MonthLengths: seq<int> := [31, 28, 31, 30, 31, 30, 31, 31, 30, 31, 30, 31]

  /**
   * The Gregorian leap-year rule. The source tests `y % 4 == 0` on a signed
   * integer with Rust's truncating remainder; whether a remainder is zero does
   * not depend on the rounding direction, so Dafny's `%` gives the same answer
   * for negative years too.
   */
  predicate IsLeapYear(y: int) {
    y % 4 == 0 && (y % 100 != 0 || y % 400 == 0)
  }

  /** Number of days of month `m` of year `y`; the source asserts 1 <= m <= 12. */
  function DaysInMonth(m: int, y: int): (r: int)
    requires 1 <= m <= 12
    ensures 28 <= r <= 31
    ensures m == 2 ==> (r == 29 <==> IsLeapYear(y)) && (r == 28 <==> !IsLeapYear(y))
    ensures m == 4 || m == 6 || m == 9 || m == 11 ==> r == 30
    ensures m != 2 && m != 4 && m != 6 && m != 9 && m != 11 ==> r == 31
  {
    if m == 2 && IsLeapYear(y) then 29 else MonthLengths[m - 1]
  }

  /** The triple names an existing day. */
  predicate ValidDate(d: Date) {
    1 <= d.month <= 12 && 1 <= d.day <= DaysInMonth(d.month, d.year)
  }

  /** Strict chronological order (lexicographic on year, month, day). */
  predicate Before(a: Date, b: Date) {
    a.year < b.year
    || (a.year == b.year && a.month < b.month)
    || (a.year == b.year && a.month == b.month && a.day < b.day)
  }

  /** The following day. */
  function Succ(d: Date): (r: Date)
    requires ValidDate(d)
    ensures ValidDate(r) && Before(d, r)
  {
    if d.day < DaysInMonth(d.month, d.year) then Date(d.year, d.month, d.day + 1)
    else if d.month < 12 then Date(d.year, d.month + 1, 1)
    else Date(d.year + 1, 1, 1)
  }

  /** No valid date lies strictly between a date and its successor. */
  lemma SuccIsNext(d: Date, e: Date)
    requires ValidDate(d) && ValidDate(e) && Before(d, e)
    ensures !Before(e, Succ(d))
  {
    if d.day == DaysInMonth(d.month, d.year) && d.month < 12 {
      assert e.year > d.year || e.month > d.month;
    }
  }

  /** The date `n` days after `d`, one successor step at a time. */
  function AddDays(d: Date, n: nat): (r: Date)
    requires ValidDate(d)
    ensures ValidDate(r)
    ensures n > 0 ==> Before(d, r)
    decreases n
  {
    if n == 0 then d else AddDays(Succ(d), n - 1)
  }

  lemma {:induction false} AddDaysSplit(d: Date, a: nat, b: nat)
    requires ValidDate(d)
    ensures AddDays(d, a + b) == AddDays(AddDays(d, a), b)
    decreases a
  {
    if a > 0 {
      AddDaysSplit(Succ(d), a - 1, b);
    }
  }

  /** Adding no more days than are left in the month only moves the day. */
  lemma {:induction false} AddDaysWithinMonth(d: Date, k: nat)
    requires ValidDate(d) && d.day + k <= DaysInMonth(d.month, d.year)
    ensures AddDays(d, k) == Date(d.year, d.month, d.day + k)
    decreases k
  {
    if k > 0 {
      AddDaysWithinMonth(Succ(d), k - 1);
    }
  }

  /** The first day of the month after the month of `d`. */
  function FirstOfNextMonth(d: Date): Date {
    if d.month < 12 then Date(d.year, d.month + 1, 1) else Date(d.year + 1, 1, 1)
  }

  /** Days from `d` to the first day of the next month. */
  function DaysToNextMonth(d: Date): (n: int)
    requires ValidDate(d)
    ensures n >= 1
  {
    DaysInMonth(d.month, d.year) - d.day + 1
  }

  /**
   * Stepping day by day from `d`, the first date whose month differs from
   * `d`'s is the first of the next month (December rolls over into January of
   * the next year), and every date before it keeps `d`'s year and month.
   */
  lemma NextMonthByDays(d: Date, k: nat)
    requires ValidDate(d)
    ensures AddDays(d, DaysToNextMonth(d)) == FirstOfNextMonth(d)
    ensures k < DaysToNextMonth(d) ==> AddDays(d, k) == Date(d.year, d.month, d.day + k)
  {
    var last := DaysInMonth(d.month, d.year) - d.day;
    AddDaysWithinMonth(d, last);
    AddDaysSplit(d, last, 1);
    if k < DaysToNextMonth(d) {
      AddDaysWithinMonth(d, k);
    }
  }

  /** Days before January 1 of year `y`, relative to a fixed day zero. */
  function DaysBeforeYear(y: int): int {
    365 * y + LeapYearsThrough(y - 1)
  }

  /** Leap years among 1..y (for y <= 0, minus those among y+1..0). */
  function LeapYearsThrough(y: int): int {
    y / 4 - y / 100 + y / 400
  }

  /** Each of the three divisions steps up exactly at a multiple of its divisor. */
  lemma DivisionSteps(y: int)
    ensures y / 4 - (y - 1) / 4 == if y % 4 == 0 then 1 else 0
    ensures y / 100 - (y - 1) / 100 == if y % 100 == 0 then 1 else 0
    ensures y / 400 - (y - 1) / 400 == if y % 400 == 0 then 1 else 0
    ensures y % 400 == 0 ==> y % 100 == 0
    ensures y % 100 == 0 ==> y % 4 == 0
  {
  }

  /** Going from year y-1 to year y adds one leap year exactly when y is a leap year. */
  lemma LeapYearsStep(y: int)
    ensures LeapYearsThrough(y) - LeapYearsThrough(y - 1) == if IsLeapYear(y) then 1 else 0
  {
    DivisionSteps(y);
  }

  /** A year has 365 days, or 366 when it is a leap year. */
  lemma YearLength(y: int)
    ensures DaysBeforeYear(y + 1) - DaysBeforeYear(y) == if IsLeapYear(y) then 366 else 365
  {
    LeapYearsStep(y);
  }

  lemma {:induction false} DaysBeforeYearIncreasing(y1: int, y2: int)
    requires y1 < y2
    ensures DaysBeforeYear(y1) + 365 <= DaysBeforeYear(y2)
    decreases y2 - y1
  {
    YearLength(y2 - 1);
    if y1 < y2 - 1 {
      DaysBeforeYearIncreasing(y1, y2 - 1);
    }
  }

  /** Days of the year before the first of each month, in a common year. */
  const DaysBeforeMonthTable: seq<int> := [0, 31, 59, 90, 120, 151, 181, 212, 243, 273, 304, 334]

  function DaysBeforeMonth(m: int, y: int): int
    requires 1 <= m <= 12
  {
    DaysBeforeMonthTable[m - 1] + if m > 2 && IsLeapYear(y) then 1 else 0
  }

  /** A month's days follow the days before it, and the year ends after December. */
  lemma MonthLength(m: int, y: int)
    requires 1 <= m <= 12
    ensures m < 12 ==> DaysBeforeMonth(m, y) + DaysInMonth(m, y) == DaysBeforeMonth(m + 1, y)
    ensures m == 12 ==> DaysBeforeMonth(m, y) + DaysInMonth(m, y) == if IsLeapYear(y) then 366 else 365
  {
  }

  /** Consecutive numbering of all days: the day number of a date. */
  function DayNumber(d: Date): int
    requires 1 <= d.month <= 12
  {
    DaysBeforeYear(d.year) + DaysBeforeMonth(d.month, d.year) + d.day
  }

  /** The successor of a date has the next day number. */
  lemma SuccDayNumber(d: Date)
    requires ValidDate(d)
    ensures DayNumber(Succ(d)) == DayNumber(d) + 1
  {
    MonthLength(d.month, d.year);
    YearLength(d.year);
  }

  /** Adding n days adds n to the day number. */
  lemma {:induction false} AddDaysDayNumber(d: Date, n: nat)
    requires ValidDate(d)
    ensures DayNumber(AddDays(d, n)) == DayNumber(d) + n
    decreases n
  {
    if n > 0 {
      SuccDayNumber(d);
      AddDaysDayNumber(Succ(d), n - 1);
    }
  }

  /** A valid date's day number lies within its year. */
  lemma DayNumberInYear(d: Date)
    requires ValidDate(d)
    ensures DaysBeforeYear(d.year) < DayNumber(d) <= DaysBeforeYear(d.year + 1)
  {
    MonthLength(d.month, d.year);
    YearLength(d.year);
    if d.month < 12 {
      DaysBeforeMonthBound(d.month + 1, d.year);
    }
  }

  lemma DaysBeforeMonthBound(m: int, y: int)
    requires 1 <= m <= 12
    ensures DaysBeforeMonth(m, y) + DaysInMonth(m, y) <= if IsLeapYear(y) then 366 else 365
  {
  }

  /** Different valid dates have different day numbers, in chronological order. */
  lemma DayNumberOrdered(a: Date, b: Date)
    requires ValidDate(a) && ValidDate(b) && Before(a, b)
    ensures DayNumber(a) < DayNumber(b)
  {
    if a.year < b.year {
      DayNumberInYear(a);
      DayNumberInYear(b);
      if a.year + 1 < b.year {
        DaysBeforeYearIncreasing(a.year + 1, b.year);
      }
    } else if a.month < b.month {
      DaysBeforeMonthIncreasing(a.month, b.month, a.year);
    }
  }

  lemma {:induction false} DaysBeforeMonthIncreasing(m1: int, m2: int, y: int)
    requires 1 <= m1 < m2 <= 12
    ensures DaysBeforeMonth(m1, y) + DaysInMonth(m1, y) <= DaysBeforeMonth(m2, y)
    decreases m2 - m1
  {
    MonthLength(m1, y);
    if m1 + 1 < m2 {
      DaysBeforeMonthIncreasing(m1 + 1, m2, y);
      MonthLength(m1 + 1, y);
    }
  }

  /**
   * `AddDays` reaches exactly the valid date whose day number is n higher:
   * both directions of the characterisation.
   */
  lemma AddDaysByDayNumber(d: Date, n: nat, e: Date)
    requires ValidDate(d) && ValidDate(e)
    ensures AddDays(d, n) == e <==> DayNumber(e) == DayNumber(d) + n
  {
    AddDaysDayNumber(d, n);
    var r := AddDays(d, n);
    if r != e {
      if Before(r, e) {
        DayNumberOrdered(r, e);
      } else {
        assert Before(e, r);
        DayNumberOrdered(e, r);
      }
    }
  }

  /**
   * The date in the loop of `DateAdd` that its cursor (year, month, day)
   * stands for: day 0 of a month is the last day of the month before.
   */
  function Cursor(year: int, month: int, day: int): (r: Date)
    requires 1 <= month <= 12 && 0 <= day <= DaysInMonth(month, year)
    ensures ValidDate(r)
    ensures day == 0 ==> Succ(r) == Date(year, month, 1)
  {
    if day > 0 then Date(year, month, day)
    else if month == 1 then Date(year - 1, 12, 31)
    else Date(year, month - 1, DaysInMonth(month - 1, year))
  }

  /**
   * Reference meaning of `date_add(dt, y, m, d)`: first `d` days, then `m`
   * months counted on the absolute month number year*12 + (month-1), then
   * `y` years, and finally the day clamped to the length of the month reached.
   */
  function DateAddSpec(dt: Date, y: int, m: nat, d: nat): (r: Date)
    requires ValidDate(dt)
    ensures ValidDate(r)
  {
    var a := AddDays(dt, d);
    var index := a.year * 12 + (a.month - 1) + m;
    var month := index % 12 + 1;
    var year := index / 12 + y;
    Date(year, month, Min(a.day, DaysInMonth(month, year)))
  }

  /** The absolute month number determines year and month. */
  lemma MonthIndex(year: int, month: int, index: int)
    requires 1 <= month <= 12 && year * 12 + (month - 1) == index
    ensures year == index / 12 && month == index % 12 + 1
  {
  }

  /** Adding nothing returns the date unchanged. */
  lemma DateAddZero(dt: Date)
    requires ValidDate(dt)
    ensures DateAddSpec(dt, 0, 0, 0) == dt
  {
    MonthIndex(dt.year, dt.month, dt.year * 12 + (dt.month - 1));
  }

  /**
   * Adding years and months moves the absolute month number by 12y + m and
   * clamps the day to the length of the month reached: the day is kept
   * exactly when that month is long enough.
   */
  lemma DateAddMonthsClamps(dt: Date, y: int, m: nat)
    requires ValidDate(dt)
    ensures var r := DateAddSpec(dt, y, m, 0);
      r.day == Min(dt.day, DaysInMonth(r.month, r.year)) &&
      (r.day == dt.day <==> dt.day <= DaysInMonth(r.month, r.year)) &&
      r.year * 12 + (r.month - 1) == (dt.year + y) * 12 + (dt.month - 1) + m
  {
  }

  /** Days within the month are taken first, then the rest. */
  lemma AdvanceInMonth(d: Date, k: nat, rest: nat)
    requires ValidDate(d) && d.day + k <= DaysInMonth(d.month, d.year)
    ensures AddDays(d, k + rest) == AddDays(Date(d.year, d.month, d.day + k), rest)
  {
    AddDaysWithinMonth(d, k);
    AddDaysSplit(d, k, rest);
  }

  /**
   * One pass of the day loop of `date_add`: moving the cursor `diff` days
   * within its month, up to the month's last day, leaves the date reached
   * after the remaining days unchanged.
   */
  lemma FillMonth(year: int, month: int, day: int, days: nat, diff: int)
    requires 1 <= month <= 12 && 0 <= day <= DaysInMonth(month, year)
    requires day == 0 ==> days > 0
    requires diff == Min(DaysInMonth(month, year) - day, days)
    ensures 1 <= day + diff <= DaysInMonth(month, year) && diff <= days
    ensures AddDays(Cursor(year, month, day), days) == AddDays(Date(year, month, day + diff), days - diff)
  {
    var before := Cursor(year, month, day);
    if day == 0 {
      AddDaysSplit(before, 1, days - 1);
      AdvanceInMonth(Date(year, month, 1), diff - 1, days - diff);
    } else {
      AdvanceInMonth(before, diff, days - diff);
    }
  }

  /**
   * The day loop of `date_add` (kronos/src/utils.rs:47-59): whole rests of
   * months are skipped until the remaining days fit; the result is the date
   * `d` days later.
   */
  method ShiftDays(dt: Date, d: nat) returns (r: Date)
    requires ValidDate(dt)
    ensures ValidDate(r)
    ensures r == AddDays(dt, d)
  {
    var day, month, year := dt.day, dt.month, dt.year;
    var days: nat := d;
    while days > 0
      invariant 1 <= month <= 12 && 0 <= day <= DaysInMonth(month, year)
      invariant day == 0 ==> days > 0
      invariant AddDays(Cursor(year, month, day), days) == AddDays(dt, d)
      decreases days, day
    {
      var diff := Min(DaysInMonth(month, year) - day, days);
      FillMonth(year, month, day, days, diff);
      day := day + diff;
      days := days - diff;
      if days > 0 {
        ghost var full := Date(year, month, day);
        day := 0;
        month := month + 1;
        if month > 12 {
          year := year + 1;
          month := 1;
        }
        assert Cursor(year, month, day) == full;
      }
    }
    r := Date(year, month, day);
  }

  /**
   * The month loop of `date_add` (kronos/src/utils.rs:60-68): the absolute
   * month number `year * 12 + (month - 1)` grows by exactly `m`, and the
   * month stays between 1 and 12.
   */
  method ShiftMonths(year0: int, month0: int, m: nat) returns (year: int, month: int)
    requires 1 <= month0 <= 12
    ensures 1 <= month <= 12
    ensures year * 12 + (month - 1) == year0 * 12 + (month0 - 1) + m
  {
    year, month := year0, month0;
    var months: nat := m;
    while months > 0
      invariant 0 <= month <= 12
      invariant month == 0 ==> months > 0
      invariant year * 12 + (month - 1) + months == year0 * 12 + (month0 - 1) + m
      decreases months, month
    {
      var diff := Min(12 - month, months);
      month := month + diff;
      months := months - diff;
      if months > 0 {
        month := 0;
        year := year + 1;
      }
    }
  }

  /**
   * `date_add` (kronos/src/utils.rs:43-72): days are shifted first, then
   * months, then the years are added and the day is clamped to the length
   * of the month reached.
   */
  method DateAdd(dt: Date, y: int, m: nat, d: nat) returns (r: Date)
    requires ValidDate(dt)
    ensures ValidDate(r)
    ensures r == DateAddSpec(dt, y, m, d)
  {
    var a := ShiftDays(dt, d);
    var year, month := ShiftMonths(a.year, a.month, m);
    MonthIndex(year, month, a.year * 12 + (a.month - 1) + m);
    year := year + y;
    r := Date(year, month, Min(a.day, DaysInMonth(month, year)));
  }

  /**
   * `startof_next_month` (kronos/src/utils.rs:6-13): step day by day until the
   * month changes.
   */
  method StartOfNextMonth(d: Date) returns (r: Date)
    requires ValidDate(d)
    ensures r == AddDays(d, DaysToNextMonth(d))
    ensures r == FirstOfNextMonth(d)
    ensures forall k: nat :: k < DaysToNextMonth(d) ==> AddDays(d, k).month == d.month
    ensures forall e :: ValidDate(e) && Before(d, e) && Before(e, r) ==> e.year == d.year && e.month == d.month
  {
    var m := d.month;
    var next := d;
    ghost var k: nat := 0;
    while m == next.month
      invariant 0 <= k <= DaysToNextMonth(d)
      invariant next == AddDays(d, k)
      invariant k < DaysToNextMonth(d) ==> next == Date(d.year, d.month, d.day + k)
      invariant k == DaysToNextMonth(d) ==> next == FirstOfNextMonth(d)
      decreases DaysToNextMonth(d) - k
    {
      AddDaysSplit(d, k, 1);
      next := Succ(next);
      k := k + 1;
      NextMonthByDays(d, k);
    }
    r := next;
    forall j: nat | j < DaysToNextMonth(d) ensures AddDays(d, j).month == d.month {
      NextMonthByDays(d, j);
    }
  }

  /**
   * `startof_next_year` (kronos/src/utils.rs:26-33): jump month by month until
   * the year changes.
   */
  method StartOfNextYear(d: Date) returns (r: Date)
    requires ValidDate(d)
    ensures r == Date(d.year + 1, 1, 1)
    ensures forall e :: ValidDate(e) && Before(d, e) && Before(e, r) ==> e.year == d.year
  {
    var y := d.year;
    var next := d;
    while y == next.year
      invariant ValidDate(next)
      invariant next.year == y || next == Date(y + 1, 1, 1)
      decreases if next.year == y then 13 - next.month else 0
    {
      next := StartOfNextMonth(next);
    }
    r := next;
  }

  /** Adding days (no months, no years) lands on the date with the shifted day number. */
  lemma DateAddDaysByDayNumber(dt: Date, n: nat, e: Date)
    requires ValidDate(dt) && ValidDate(e) && DayNumber(e) == DayNumber(dt) + n
    ensures DateAddSpec(dt, 0, 0, n) == e
  {
    AddDaysByDayNumber(dt, n, e);
    MonthIndex(e.year, e.month, e.year * 12 + (e.month - 1));
  }

  /** Expected values from the library's tests (kronos/src/utils.rs:78-90). */
  lemma DateAddDaysExample30()
    ensures DateAddSpec(Date(2016, 9, 5), 0, 0, 30) == Date(2016, 10, 5)
  {
    DateAddDaysByDayNumber(Date(2016, 9, 5), 30, Date(2016, 10, 5));
  }

  lemma DateAddDaysExample365()
    ensures DateAddSpec(Date(2016, 9, 5), 0, 0, 365) == Date(2017, 9, 5)
  {
    DateAddDaysByDayNumber(Date(2016, 9, 5), 365, Date(2017, 9, 5));
  }

  lemma DateAddDaysExample1234()
    ensures DateAddSpec(Date(2016, 9, 5), 0, 0, 1234) == Date(2020, 1, 22)
  {
    DateAddDaysByDayNumber(Date(2016, 9, 5), 1234, Date(2020, 1, 22));
  }

  lemma DateAddDaysExample2541()
    ensures DateAddSpec(Date(2016, 9, 5), 0, 0, 2541) == Date(2023, 8, 21)
  {
    DateAddDaysByDayNumber(Date(2016, 9, 5), 2541, Date(2023, 8, 21));
  }

  lemma DateAddMonthsExamples()
    ensures DateAddSpec(Date(2016, 9, 5), 0, 1, 0) == Date(2016, 10, 5)
    ensures DateAddSpec(Date(2016, 1, 30), 0, 1, 0) == Date(2016, 2, 29)
    ensures DateAddSpec(Date(2016, 1, 30), 0, 2, 0) == Date(2016, 3, 30)
    ensures DateAddSpec(Date(2016, 1, 30), 0, 12, 0) == Date(2017, 1, 30)
  {
  }
}
