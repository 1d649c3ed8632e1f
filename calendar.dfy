/** Zoneless calendar dates in the proleptic Gregorian calendar, ordered
    lexicographically by (year, month, day), with a day count that gives the
    weekday (`Date.prototype.getDay`, Sunday = 0) and day arithmetic
    (`setDate` with a day of month outside the month rolls over).
 */
module Calendar {

  datatype Date = Date(year: int, month: int, day: int)

  predicate IsLeapYear(y: int)
  {
    y % 4 == 0 && (y % 100 != 0 || y % 400 == 0)
  }

  function DaysInMonth(y: int, m: int): (n: int)
    requires 1 <= m <= 12
    ensures 28 <= n <= 31
  {
    if m == 2 then (if IsLeapYear(y) then 29 else 28)
    else if m == 4 || m == 6 || m == 9 || m == 11 then 30
    else 31
  }

  function DaysInYear(y: int): int
  {
    if IsLeapYear(y) then 366 else 365
  }

  /** A real calendar day: month 1..12 and a day that month has. */
  predicate ValidDate(d: Date)
  {
    1 <= d.month <= 12 && 1 <= d.day <= DaysInMonth(d.year, d.month)
  }

  predicate DateLe(a: Date, b: Date)
  {
    a.year < b.year || (a.year == b.year && (a.month < b.month || (a.month == b.month && a.day <= b.day)))
  }

  predicate DateLt(a: Date, b: Date)
  {
    DateLe(a, b) && a != b
  }

  lemma DateLeIsTotalOrder(a: Date, b: Date, c: Date)
    ensures DateLe(a, a)
    ensures DateLe(a, b) || DateLe(b, a)
    ensures DateLe(a, b) && DateLe(b, a) ==> a == b
    ensures DateLe(a, b) && DateLe(b, c) ==> DateLe(a, c)
  {
  }

  /** Days in the months of year `y` before month `m` (m = 13: the whole year). */
  function DaysBeforeMonth(y: int, m: int): int
    requires 1 <= m <= 13
  {
    [0, 31, 59, 90, 120, 151, 181, 212, 243, 273, 304, 334, 365][m - 1]
      + (if m > 2 && IsLeapYear(y) then 1 else 0)
  }

  /** Days in the years before `y`, counted from 0001-01-01 (negative before it). */
  function DaysBeforeYear(y: int): int
  {
    365 * (y - 1) + (y - 1) / 4 - (y - 1) / 100 + (y - 1) / 400
  }

  /** Days since 0001-01-01, which is day 0. */
  function DayNumber(d: Date): int
    requires ValidDate(d)
  {
    DaysBeforeYear(d.year) + DaysBeforeMonth(d.year, d.month) + d.day - 1
  }

  /** `getDay()`: 0 = Sunday .. 6 = Saturday; 0001-01-01 was a Monday. */
  function Weekday(d: Date): (w: int)
    requires ValidDate(d)
    ensures 0 <= w < 7
  {
    (DayNumber(d) + 1) % 7
  }

  lemma MonthStep(y: int, m: int)
    requires 1 <= m <= 12
    ensures DaysBeforeMonth(y, m + 1) == DaysBeforeMonth(y, m) + DaysInMonth(y, m)
    ensures DaysBeforeMonth(y, 13) == DaysInYear(y)
  {
  }

  lemma YearStep(y: int)
    ensures DaysBeforeYear(y + 1) == DaysBeforeYear(y) + DaysInYear(y)
  {
    var q4, r4 := (y - 1) / 4, (y - 1) % 4;
    var q100, r100 := (y - 1) / 100, (y - 1) % 100;
    var q400, r400 := (y - 1) / 400, (y - 1) % 400;
    assert y / 4 == if r4 == 3 then q4 + 1 else q4;
    assert y / 100 == if r100 == 99 then q100 + 1 else q100;
    assert y / 400 == if r400 == 399 then q400 + 1 else q400;
    assert (y % 4 == 0) == (r4 == 3);
    assert (y % 100 == 0) == (r100 == 99);
    assert (y % 400 == 0) == (r400 == 399);
  }

  /** The first day of a year comes right after the last day of the year before. */
  lemma {:induction false} YearsIncrease(y: int, z: int)
    requires y < z
    ensures DaysBeforeYear(y) + DaysInYear(y) <= DaysBeforeYear(z)
    decreases z - y
  {
    YearStep(y);
    if y + 1 < z {
      YearsIncrease(y + 1, z);
    }
  }

  /** The day number is strictly monotone: it orders dates as DateLe does. */
  lemma DayNumberMonotone(a: Date, b: Date)
    requires ValidDate(a) && ValidDate(b)
    ensures DateLt(a, b) ==> DayNumber(a) < DayNumber(b)
    ensures DateLe(a, b) <==> DayNumber(a) <= DayNumber(b)
    ensures a == b <==> DayNumber(a) == DayNumber(b)
  {
    LtBelow(a, b);
    LtBelow(b, a);
  }

  lemma LtBelow(a: Date, b: Date)
    requires ValidDate(a) && ValidDate(b)
    ensures DateLt(a, b) ==> DayNumber(a) < DayNumber(b)
  {
    if DateLt(a, b) {
      MonthStep(a.year, a.month);
      if a.year < b.year {
        MonthsIncrease(a.year, a.month + 1, 13);
        YearsIncrease(a.year, b.year);
      } else if a.month < b.month {
        MonthsIncrease(a.year, a.month + 1, b.month);
      }
    }
  }

  lemma MonthsIncrease(y: int, m: int, n: int)
    requires 1 <= m <= n <= 13
    ensures DaysBeforeMonth(y, m) <= DaysBeforeMonth(y, n)
  {
  }

  /** The day before `d`. */
  function PrevDay(d: Date): (r: Date)
    requires ValidDate(d)
    ensures ValidDate(r)
  {
    if d.day > 1 then Date(d.year, d.month, d.day - 1)
    else if d.month > 1 then Date(d.year, d.month - 1, DaysInMonth(d.year, d.month - 1))
    else Date(d.year - 1, 12, 31)
  }

  /** The day after `d`. */
  function NextDay(d: Date): (r: Date)
    requires ValidDate(d)
    ensures ValidDate(r)
  {
    if d.day < DaysInMonth(d.year, d.month) then Date(d.year, d.month, d.day + 1)
    else if d.month < 12 then Date(d.year, d.month + 1, 1)
    else Date(d.year + 1, 1, 1)
  }

  lemma PrevDayNumber(d: Date)
    requires ValidDate(d)
    ensures DayNumber(PrevDay(d)) == DayNumber(d) - 1
  {
    if d.day == 1 {
      if d.month > 1 {
        MonthStep(d.year, d.month - 1);
      } else {
        YearStep(d.year - 1);
        MonthStep(d.year - 1, 12);
      }
    }
  }

  lemma NextDayNumber(d: Date)
    requires ValidDate(d)
    ensures DayNumber(NextDay(d)) == DayNumber(d) + 1
  {
    MonthStep(d.year, d.month);
    if d.day == DaysInMonth(d.year, d.month) && d.month == 12 {
      YearStep(d.year);
    }
  }

  /** `k` days after `d` (before it when `k` is negative). */
  function ShiftDays(d: Date, k: int): (r: Date)
    requires ValidDate(d)
    ensures ValidDate(r)
    ensures DayNumber(r) == DayNumber(d) + k
    decreases if k < 0 then -k else k
  {
    if k == 0 then d
    else if k > 0 then (NextDayNumber(d); ShiftDays(NextDay(d), k - 1))
    else (PrevDayNumber(d); ShiftDays(PrevDay(d), k + 1))
  }

  /** Consecutive days have consecutive weekdays. */
  lemma WeekdayAfterShift(d: Date, k: int)
    requires ValidDate(d)
    ensures Weekday(ShiftDays(d, k)) == (Weekday(d) + k) % 7
  {
    var r := ShiftDays(d, k);
    assert DayNumber(r) + 1 == DayNumber(d) + 1 + k;
    AddModSeven(DayNumber(d) + 1, k);
  }

  /** Adding `k` commutes with reducing modulo 7. */
  lemma AddModSeven(n: int, k: int)
    ensures (n + k) % 7 == (n % 7 + k) % 7
  {
    var q := n / 7;
    assert n == 7 * q + n % 7;
    assert n + k == 7 * q + (n % 7 + k);
  }

  /** `today` minus `today.getDay()` days: the first day of the week, Sunday. */
  function WeekStart(today: Date): (r: Date)
    requires ValidDate(today)
    ensures ValidDate(r)
    ensures DateLe(r, today)
    ensures DayNumber(r) == DayNumber(today) - Weekday(today)
  {
    var r := ShiftDays(today, -Weekday(today));
    DayNumberMonotone(r, today);
    r
  }

  lemma WeekStartIsSunday(today: Date)
    requires ValidDate(today)
    ensures Weekday(WeekStart(today)) == 0
  {
    WeekdayAfterShift(today, -Weekday(today));
  }

  /** The week start is today itself exactly when today is a Sunday. */
  lemma WeekStartOnSunday(today: Date)
    requires ValidDate(today)
    ensures (WeekStart(today) == today) <==> Weekday(today) == 0
  {
    DayNumberMonotone(WeekStart(today), today);
  }

  /** The week start is the most recent Sunday: no day after it up to today is a Sunday. */
  lemma WeekStartIsMostRecentSunday(today: Date, x: Date)
    requires ValidDate(today) && ValidDate(x)
    requires DateLt(WeekStart(today), x) && DateLe(x, today)
    ensures Weekday(x) != 0
  {
    var s := WeekStart(today);
    DayNumberMonotone(s, x);
    DayNumberMonotone(x, today);
    NotSundayWithinWeek(today, x);
  }

  lemma NotSundayWithinWeek(today: Date, x: Date)
    requires ValidDate(today) && ValidDate(x)
    requires DayNumber(today) - Weekday(today) < DayNumber(x) <= DayNumber(today)
    ensures Weekday(x) != 0
  {
    NoMultipleOfSeven(DayNumber(today) + 1, DayNumber(x) + 1);
  }

  lemma NoMultipleOfSeven(n: int, k: int)
    requires n - n % 7 < k <= n
    ensures k % 7 != 0
  {
    var q := n / 7;
    assert n == 7 * q + n % 7;
    assert k == 7 * q + (k - 7 * q);
  }

  /** `new Date(today.getFullYear(), today.getMonth(), 1)`. */
  function MonthStart(today: Date): (r: Date)
    requires ValidDate(today)
    ensures ValidDate(r) && DateLe(r, today)
    ensures r.year == today.year && r.month == today.month && r.day == 1
  {
    Date(today.year, today.month, 1)
  }

  /** The weekday of a concrete date: 14 October 2026 is a Wednesday, and its
      week starts on Sunday 11 October. */
  lemma WeekdayExample()
    ensures Weekday(Date(2026, 10, 14)) == 3
  {
    assert DayNumber(Date(2026, 10, 14)) == 739902;
  }

  lemma WeekStartExample()
    ensures WeekStart(Date(2026, 10, 14)) == Date(2026, 10, 11)
  {
    var today, sunday := Date(2026, 10, 14), Date(2026, 10, 11);
    WeekdayExample();
    assert DayNumber(sunday) == 739899;
    DayNumberMonotone(WeekStart(today), sunday);
  }
}
