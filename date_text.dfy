/** Dates as the source writes and reads them: "dd/MM/yyyy" (the pt-BR
    `toLocaleDateString`), "yyyy-MM-dd" (what a date input holds and what
    `toISOString().split('T')[0]` gives), and the local-time constructor
    `new Date(year, monthIndex, day)` that the client applies to the parts of
    a "dd/MM/yyyy" string.
 */
module DateText {
  import opened Options
  import opened Calendar
  import opened Text

  /** `toLocaleDateString('pt-BR')`: two-digit day and month, then the year. */
  function FormatDMY(d: Date): (s: string)
    requires ValidDate(d) && d.year >= 0
    ensures |s| >= 7
  {
    PadTwo(d.day) + "/" + PadTwo(d.month) + "/" + NatToString(d.year)
  }

  /** `new Date(year, monthIndex, day)` in local time: a year 0..99 means
      1900..1999, a month index outside 0..11 moves the year, and a day outside
      the month moves into the neighbouring months. */
  function LocalDate(year: int, monthIndex: int, day: int): (r: Date)
    ensures ValidDate(r)
    ensures var y := if 0 <= year <= 99 then 1900 + year else year;
            ValidDate(Date(y, monthIndex + 1, day)) ==> r == Date(y, monthIndex + 1, day)
  {
    var y := if 0 <= year <= 99 then 1900 + year else year;
    ShiftFromFirst(y, monthIndex, day);
    ShiftDays(FirstOfMonth(y, monthIndex), day - 1)
  }

  /** Counting `day - 1` days on from the 1st of a month that needs no rollover
      lands on that day of the month. */
  lemma ShiftFromFirst(y: int, monthIndex: int, day: int)
    ensures ValidDate(Date(y, monthIndex + 1, day)) ==>
              ShiftDays(FirstOfMonth(y, monthIndex), day - 1) == Date(y, monthIndex + 1, day)
  {
    if !ValidDate(Date(y, monthIndex + 1, day)) {
      return;
    }
    SameMonthNumber(y, monthIndex, day);
    var first := Date(y, monthIndex + 1, 1);
    assert FirstOfMonth(y, monthIndex) == first;
    var r := ShiftDays(first, day - 1);
    assert DayNumber(r) == DayNumber(Date(y, monthIndex + 1, day));
    DayNumberMonotone(r, Date(y, monthIndex + 1, day));
  }

  /** The 1st of month `monthIndex` (0-based) of year `y`, the index rolling
      over into neighbouring years. */
  function FirstOfMonth(y: int, monthIndex: int): (r: Date)
    ensures ValidDate(r)
    ensures r.year == y + monthIndex / 12 && r.month == monthIndex % 12 + 1 && r.day == 1
  {
    Date(y + monthIndex / 12, monthIndex % 12 + 1, 1)
  }

  lemma SameMonthNumber(y: int, monthIndex: int, day: int)
    requires ValidDate(Date(y, monthIndex + 1, day))
    ensures monthIndex / 12 == 0 && monthIndex % 12 == monthIndex
    ensures DayNumber(Date(y, monthIndex + 1, day)) == DayNumber(Date(y, monthIndex + 1, 1)) + day - 1
  {
  }

  /** Day 0 of a month is the last day of the month before: `new Date(2024, 2, 0)` is 29 February 2024. */
  lemma LocalDateRollsOver()
    ensures LocalDate(2024, 2, 0) == Date(2024, 2, 29)
  {
    var first := Date(2024, 3, 1);
    var r := ShiftDays(first, -1);
    assert LocalDate(2024, 2, 0) == r;
    assert DayNumber(Date(2024, 2, 29)) == DayNumber(first) - 1;
    DayNumberMonotone(r, Date(2024, 2, 29));
  }

  /** The date the client builds from "dd/MM/yyyy": `split('/')`, `parseInt` of
      each part, then `new Date(year, month - 1, day)`; NaN (None) when a part
      is missing or does not start with a digit. */
  function LocalDateOf(s: string): (r: Option<Date>)
    ensures r.Some? ==> ValidDate(r.value)
  {
    var parts := Split(s, '/');
    if |parts| < 3 then None
    else
      var d, m, y := ParseInt(parts[0]), ParseInt(parts[1]), ParseInt(parts[2]);
      if d.None? || m.None? || y.None? then None
      else Some(LocalDate(y.value, m.value - 1, d.value))
  }

  /** Reading back a formatted date gives the date, for years from 100 on. */
  lemma LocalDateOfFormat(d: Date)
    requires ValidDate(d) && d.year >= 100
    ensures LocalDateOf(FormatDMY(d)) == Some(d)
  {
    var a, b, c := PadTwo(d.day), PadTwo(d.month), NatToString(d.year);
    DigitsHaveNoSlash(a);
    DigitsHaveNoSlash(b);
    DigitsHaveNoSlash(c);
    assert FormatDMY(d) == a + ['/'] + (b + ['/'] + c);
    SplitAtSeparator(a, '/', b + ['/'] + c);
    SplitAtSeparator(b, '/', c);
    SplitNoSeparator(c, '/');
    assert Split(FormatDMY(d), '/') == [a, b, c];
    ParseIntOfDigits(a);
    ParseIntOfDigits(b);
    ParseIntOfDigits(c);
  }

  /** A two-digit year reads back in the 1900s: "01/01/50" is 1 January 1950. */
  lemma LocalDateOfShortYear()
    ensures LocalDateOf(FormatDMY(Date(50, 1, 1))) == Some(Date(1950, 1, 1))
  {
    var a, c := PadTwo(1), NatToString(50);
    DigitsHaveNoSlash(a);
    DigitsHaveNoSlash(c);
    assert FormatDMY(Date(50, 1, 1)) == a + ['/'] + (a + ['/'] + c);
    SplitAtSeparator(a, '/', a + ['/'] + c);
    SplitAtSeparator(a, '/', c);
    SplitNoSeparator(c, '/');
    ParseIntOfDigits(a);
    ParseIntOfDigits(c);
  }

  lemma DigitsHaveNoSlash(s: string)
    requires AllDigits(s)
    ensures '/' !in s && '-' !in s
  {
  }

  /** The "yyyy-MM-dd" text of a date (years 0..9999). */
  function FormatIso(d: Date): (s: string)
    requires ValidDate(d) && 0 <= d.year <= 9999
    ensures |s| == 10
  {
    PadFour(d.year) + "-" + PadTwo(d.month) + "-" + PadTwo(d.day)
  }

  /** `new Date("yyyy-MM-dd")` for a date-only ISO string, None for Invalid Date.
      A date input holds either "" or such a string of a real day. */
  function ParseIsoDate(s: string): (r: Option<Date>)
    ensures r.Some? ==> ValidDate(r.value) && 0 <= r.value.year <= 9999
  {
    if |s| == 10 && AllDigits(s[..4]) && s[4] == '-' && AllDigits(s[5..7]) && s[7] == '-' && AllDigits(s[8..]) then
      var d := Date(DigitsValue(s[..4]), DigitsValue(s[5..7]), DigitsValue(s[8..]));
      if ValidDate(d) && d.year <= 9999 then Some(d) else None
    else None
  }

  lemma ParseIsoOfFormat(d: Date)
    requires ValidDate(d) && 0 <= d.year <= 9999
    ensures ParseIsoDate(FormatIso(d)) == Some(d)
  {
    var s := FormatIso(d);
    assert s[..4] == PadFour(d.year);
    assert s[5..7] == PadTwo(d.month);
    assert s[8..] == PadTwo(d.day);
  }
}
