/** The dashboard summary of the backend (backend/routes/dashboard.js): the
    period filter, the totals and averages of the filtered trips, the chart
    rows grouped by date and the five most recent trips.
 */
module Dashboard {
  import opened Options
  import opened Seqs
  import opened Calendar
  import opened Text
  import opened DateText
  import opened TripDerivation

  /** The date condition the handler writes into both queries. */
  datatype DateFilter = OnOrAfter(first: Date) | OnDay(day: Date)

  /** `period` of the query string; anything but "week", "month" or "day",
      and no period at all, falls back to the week. */
  function FilterFor(period: Option<string>, today: Day): (f: DateFilter)
    ensures period == Some("month") ==> f == OnOrAfter(MonthStart(today))
    ensures period == Some("day") ==> f == OnDay(today)
    ensures period != Some("month") && period != Some("day") ==> f == OnOrAfter(WeekStart(today))
  {
    match period
    case Some(p) =>
      if p == "week" then OnOrAfter(WeekStart(today))
      else if p == "month" then OnOrAfter(MonthStart(today))
      else if p == "day" then OnDay(today)
      else OnOrAfter(WeekStart(today))
    case None => OnOrAfter(WeekStart(today))
  }

  predicate Matches(f: DateFilter, d: Date)
  {
    match f
    case OnOrAfter(first) => DateLe(first, d)
    case OnDay(day) => d == day
  }

  /** Today's trips are in the week's and in the month's figures. */
  lemma DayWithinWeekAndMonth(today: Day, d: Date)
    requires Matches(FilterFor(Some("day"), today), d)
    ensures Matches(FilterFor(Some("week"), today), d)
    ensures Matches(FilterFor(Some("month"), today), d)
  {
  }

  /** The week filter takes exactly the trips dated on or after the last Sunday
      that is not after today; no upper bound is applied. */
  lemma WeekFilterFromSunday(today: Day, d: Date)
    ensures Matches(FilterFor(Some("week"), today), d) <==> DateLe(WeekStart(today), d)
    ensures Weekday(WeekStart(today)) == 0
  {
    WeekStartIsSunday(today);
  }

  /** `WHERE user_id = ? AND <date filter>`. */
  function Selected(records: seq<TripRecord>, userId: nat, f: DateFilter): (r: seq<TripRecord>)
    ensures forall x :: x in r <==> x in records && x.userId == userId && Matches(f, x.input.date)
  {
    Filter(records, (x: TripRecord) => x.userId == userId && Matches(f, x.input.date))
  }

  /** The summed columns. */
  datatype Totals = Totals(earnings: real, netEarnings: real, distance: real, minutes: int, fuelCost: real)

  const Zero := Totals(0.0, 0.0, 0.0, 0, 0.0)

  function Plus(a: Totals, b: Totals): Totals
  {
    Totals(a.earnings + b.earnings, a.netEarnings + b.netEarnings, a.distance + b.distance,
           a.minutes + b.minutes, a.fuelCost + b.fuelCost)
  }

  function One(r: TripRecord): Totals
  {
    Totals(r.input.earnings, r.derived.netEarnings, r.input.distance, r.derived.workedMinutes, r.derived.fuelCost)
  }

  function TotalsOf(s: seq<TripRecord>): Totals
  {
    if s == [] then Zero else Plus(One(s[0]), TotalsOf(s[1..]))
  }

  /** `SUM(...)` over the selected rows: NULL (None) when there is none. */
  function SqlSums(s: seq<TripRecord>): (r: Option<Totals>)
    ensures r.None? <==> s == []
    ensures r.Some? ==> r.value == TotalsOf(s)
  {
    if s == [] then None else Some(TotalsOf(s))
  }

  /** The `summary` object: the totals with `|| 0` applied, the split hours and
      the guarded averages. */
  datatype Summary = Summary(
    totalEarnings: real, totalNetEarnings: real, totalDistance: real,
    totalHoursWorked: Duration, totalFuelCost: real,
    averageEarningsPerHour: real, averageEarningsPerKm: real, tripCount: nat)

  function Summarize(s: seq<TripRecord>): (r: Summary)
    ensures var t := TotalsOf(s);
            && r.totalEarnings == t.earnings && r.totalNetEarnings == t.netEarnings
            && r.totalDistance == t.distance && r.totalFuelCost == t.fuelCost
            && r.tripCount == |s|
    ensures var t := TotalsOf(s);
            && (t.minutes > 0 ==> r.averageEarningsPerHour * (t.minutes as real / 60.0) == t.netEarnings)
            && (t.minutes <= 0 ==> r.averageEarningsPerHour == 0.0)
            && (t.distance > 0.0 ==> r.averageEarningsPerKm * t.distance == t.netEarnings)
            && (t.distance <= 0.0 ==> r.averageEarningsPerKm == 0.0)
    ensures TotalsOf(s).minutes >= 0 ==>
              r.totalHoursWorked.hours * 60 + r.totalHoursWorked.minutes == TotalsOf(s).minutes
  {
    var t := SqlSums(s).GetOr(Zero);
    var totalHours := t.minutes as real / 60.0;
    var perHour := if totalHours > 0.0 then t.netEarnings / totalHours else 0.0;
    var perKm := if t.distance > 0.0 then t.netEarnings / t.distance else 0.0;
    Summary(t.earnings, t.netEarnings, t.distance, SplitMinutes(t.minutes), t.fuelCost, perHour, perKm, |s|)
  }

  /** A period without trips reports zero everywhere rather than NULL or NaN. */
  lemma EmptyPeriodIsZero()
    ensures Summarize([]) == Summary(0.0, 0.0, 0.0, Duration(0, 0), 0.0, 0.0, 0.0, 0)
  {
  }

  /** A row of the chart query: one date and the sums of its trips. */
  datatype ChartRow = ChartRow(date: Day, totals: Totals)

  predicate Ascending(rows: seq<ChartRow>)
  {
    forall i, j :: 0 <= i < j < |rows| ==> DateLt(rows[i].date, rows[j].date)
  }

  predicate HasRow(rows: seq<ChartRow>, d: Date)
  {
    exists i :: 0 <= i < |rows| && rows[i].date == d
  }

  lemma HasRowCons(row: ChartRow, rest: seq<ChartRow>, d: Date)
    ensures HasRow([row] + rest, d) <==> row.date == d || HasRow(rest, d)
  {
    var rows := [row] + rest;
    if row.date == d {
      assert rows[0].date == d;
    }
    if HasRow(rows, d) && row.date != d {
      var i :| 0 <= i < |rows| && rows[i].date == d;
      assert rest[i - 1].date == d;
    }
    if HasRow(rest, d) {
      var i :| 0 <= i < |rest| && rest[i].date == d;
      assert rows[i + 1].date == d;
    }
  }

  /** The sums of the first row for `d`, zero when there is none. */
  function Lookup(rows: seq<ChartRow>, d: Date): Totals
  {
    if rows == [] then Zero else if rows[0].date == d then rows[0].totals else Lookup(rows[1..], d)
  }

  function SumRows(rows: seq<ChartRow>): Totals
  {
    if rows == [] then Zero else Plus(rows[0].totals, SumRows(rows[1..]))
  }

  /** The trips of `s` dated `d`, summed. */
  function TotalsOn(s: seq<TripRecord>, d: Date): Totals
  {
    if s == [] then Zero
    else if s[0].input.date == d then Plus(One(s[0]), TotalsOn(s[1..], d))
    else TotalsOn(s[1..], d)
  }

  /** Adds one trip to the row of its date, or inserts a row for that date
      before the first later one. */
  function AddTrip(rows: seq<ChartRow>, r: TripRecord): seq<ChartRow>
  {
    var date := r.input.date;
    if rows == [] then [ChartRow(date, One(r))]
    else if rows[0].date == date then [ChartRow(date, Plus(One(r), rows[0].totals))] + rows[1..]
    else if DateLt(date, rows[0].date) then [ChartRow(date, One(r))] + rows
    else [rows[0]] + AddTrip(rows[1..], r)
  }

  /** The dates with a row after the addition are the old ones and the trip's. */
  lemma {:induction false} AddTripDates(rows: seq<ChartRow>, r: TripRecord, d: Date)
    ensures HasRow(AddTrip(rows, r), d) <==> HasRow(rows, d) || d == r.input.date
  {
    var date := r.input.date;
    if rows == [] {
      HasRowCons(ChartRow(date, One(r)), [], d);
    } else {
      assert rows == [rows[0]] + rows[1..];
      HasRowCons(rows[0], rows[1..], d);
      if rows[0].date == date {
        HasRowCons(ChartRow(date, Plus(One(r), rows[0].totals)), rows[1..], d);
      } else if DateLt(date, rows[0].date) {
        HasRowCons(ChartRow(date, One(r)), rows, d);
      } else {
        AddTripDates(rows[1..], r, d);
        HasRowCons(rows[0], AddTrip(rows[1..], r), d);
      }
    }
  }

  /** The addition keeps the rows in strictly ascending date order. */
  lemma {:induction false} AddTripAscending(rows: seq<ChartRow>, r: TripRecord)
    requires Ascending(rows)
    ensures Ascending(AddTrip(rows, r))
  {
    var date := r.input.date;
    if rows != [] && rows[0].date != date && !DateLt(date, rows[0].date) {
      var rest := AddTrip(rows[1..], r);
      AddTripAscending(rows[1..], r);
      forall k | 0 <= k < |rest|
        ensures DateLt(rows[0].date, rest[k].date)
      {
        assert HasRow(rest, rest[k].date);
        AddTripDates(rows[1..], r, rest[k].date);
        if rest[k].date != date {
          var m :| 0 <= m < |rows[1..]| && rows[1..][m].date == rest[k].date;
          assert rows[m + 1].date == rest[k].date;
        } else {
          DateLeIsTotalOrder(date, rows[0].date, date);
        }
      }
      var res := [rows[0]] + rest;
      forall i, j | 0 <= i < j < |res|
        ensures DateLt(res[i].date, res[j].date)
      {
        if i == 0 {
          assert res[j] == rest[j - 1];
        } else {
          assert res[i] == rest[i - 1] && res[j] == rest[j - 1];
        }
      }
    }
  }

  /** In ascending rows no row comes for a date before the first row's. */
  lemma {:induction false} LookupAbsent(rows: seq<ChartRow>, d: Date)
    requires Ascending(rows) && rows != [] && DateLt(d, rows[0].date)
    ensures Lookup(rows, d) == Zero
  {
    if |rows| > 1 {
      assert DateLt(rows[0].date, rows[1].date);
      DateLeIsTotalOrder(d, rows[0].date, rows[1].date);
      assert rows[1..][0] == rows[1];
      assert Ascending(rows[1..]) by {
        forall i, j | 0 <= i < j < |rows[1..]|
          ensures DateLt(rows[1..][i].date, rows[1..][j].date)
        {
          assert rows[1..][i] == rows[i + 1] && rows[1..][j] == rows[j + 1];
        }
      }
      LookupAbsent(rows[1..], d);
    }
  }

  /** The addition adds the trip to the sums of its date and of no other. */
  lemma {:induction false} AddTripLookup(rows: seq<ChartRow>, r: TripRecord, d: Date)
    requires Ascending(rows)
    ensures Lookup(AddTrip(rows, r), d) == if d == r.input.date then Plus(One(r), Lookup(rows, d)) else Lookup(rows, d)
  {
    var date := r.input.date;
    if rows != [] {
      if rows[0].date == date {
      } else if DateLt(date, rows[0].date) {
        if d == date {
          LookupAbsent(rows, d);
        }
      } else {
        assert Ascending(rows[1..]) by {
          forall i, j | 0 <= i < j < |rows[1..]|
            ensures DateLt(rows[1..][i].date, rows[1..][j].date)
          {
            assert rows[1..][i] == rows[i + 1] && rows[1..][j] == rows[j + 1];
          }
        }
        AddTripLookup(rows[1..], r, d);
      }
    }
  }

  lemma {:induction false} AddTripSum(rows: seq<ChartRow>, r: TripRecord)
    ensures SumRows(AddTrip(rows, r)) == Plus(One(r), SumRows(rows))
  {
    var date := r.input.date;
    if rows != [] {
      if rows[0].date == date {
        assert ([ChartRow(date, Plus(One(r), rows[0].totals))] + rows[1..])[1..] == rows[1..];
      } else if DateLt(date, rows[0].date) {
        assert ([ChartRow(date, One(r))] + rows)[1..] == rows;
      } else {
        AddTripSum(rows[1..], r);
        assert ([rows[0]] + AddTrip(rows[1..], r))[1..] == AddTrip(rows[1..], r);
      }
    }
  }

  /** `GROUP BY trip_date ORDER BY trip_date` over the selected trips. */
  function ChartRows(s: seq<TripRecord>): seq<ChartRow>
  {
    if s == [] then [] else AddTrip(ChartRows(s[1..]), s[0])
  }

  /** The chart rows are ordered by date, one per date that has a trip, and each
      carries the sums of that date's trips; together they sum to all the trips. */
  lemma {:induction false} ChartRowsGroup(s: seq<TripRecord>)
    ensures Ascending(ChartRows(s))
    ensures forall d :: HasRow(ChartRows(s), d) <==> exists x :: x in s && x.input.date == d
    ensures forall d :: Lookup(ChartRows(s), d) == TotalsOn(s, d)
    ensures SumRows(ChartRows(s)) == TotalsOf(s)
  {
    if s != [] {
      var rest := ChartRows(s[1..]);
      ChartRowsGroup(s[1..]);
      AddTripAscending(rest, s[0]);
      AddTripSum(rest, s[0]);
      forall d
        ensures HasRow(ChartRows(s), d) <==> exists x :: x in s && x.input.date == d
        ensures Lookup(ChartRows(s), d) == TotalsOn(s, d)
      {
        AddTripDates(rest, s[0], d);
        AddTripLookup(rest, s[0], d);
        assert forall x :: x in s <==> x == s[0] || x in s[1..];
      }
    }
  }

  /** In ascending rows each row is the one `Lookup` finds for its date. */
  lemma {:induction false} LookupAt(rows: seq<ChartRow>, i: int)
    requires Ascending(rows) && 0 <= i < |rows|
    ensures Lookup(rows, rows[i].date) == rows[i].totals
  {
    if i > 0 {
      assert DateLt(rows[0].date, rows[i].date);
      assert rows[1..][i - 1] == rows[i];
      assert Ascending(rows[1..]) by {
        forall a, b | 0 <= a < b < |rows[1..]|
          ensures DateLt(rows[1..][a].date, rows[1..][b].date)
        {
          assert rows[1..][a] == rows[a + 1] && rows[1..][b] == rows[b + 1];
        }
      }
      LookupAt(rows[1..], i - 1);
    }
  }

  /** Every chart row holds the sums of exactly the trips of its date. */
  lemma ChartRowTotals(s: seq<TripRecord>, i: int)
    requires 0 <= i < |ChartRows(s)|
    ensures ChartRows(s)[i].totals == TotalsOn(s, ChartRows(s)[i].date)
  {
    ChartRowsGroup(s);
    LookupAt(ChartRows(s), i);
  }

  /** The chart's x-axis label `dd/MM`. */
  function FormatDayMonth(d: Date): (s: string)
    requires ValidDate(d)
    ensures |s| == 5 && s[2] == '/'
    ensures AllDigits(s[..2]) && DigitsValue(s[..2]) == d.day
    ensures AllDigits(s[3..]) && DigitsValue(s[3..]) == d.month
  {
    var dd, mm := PadTwo(d.day), PadTwo(d.month);
    assert (dd + "/" + mm)[..2] == dd && (dd + "/" + mm)[3..] == mm;
    dd + "/" + mm
  }

  /** The comparator of `ORDER BY trip_date DESC, created_at DESC`. */
  function ByRecency(a: TripRecord, b: TripRecord): bool
  {
    DateLt(b.input.date, a.input.date) || (a.input.date == b.input.date && b.createdAt <= a.createdAt)
  }

  lemma ByRecencyPreorder(d: seq<TripRecord>)
    ensures PreorderOn(ByRecency, d)
  {
    forall x, y, z | x in d && y in d && z in d
      ensures ByRecency(x, y) || ByRecency(y, x)
      ensures ByRecency(x, y) && ByRecency(y, z) ==> ByRecency(x, z)
    {
      DateLeIsTotalOrder(x.input.date, y.input.date, z.input.date);
      DateLeIsTotalOrder(z.input.date, y.input.date, x.input.date);
    }
  }

  /** `ORDER BY trip_date DESC, created_at DESC LIMIT 5` over the user's trips. */
  function RecentTrips(records: seq<TripRecord>, userId: nat): (r: seq<TripRecord>)
    ensures |r| == if |OfUser(records, userId)| < 5 then |OfUser(records, userId)| else 5
  {
    Take(SortBy(OfUser(records, userId), ByRecency), 5)
  }

  /** The recent trips are the user's, latest first, and no trip of the user
      left out is more recent than one shown. */
  lemma RecentTripsAreLatest(records: seq<TripRecord>, userId: nat)
    ensures var r := RecentTrips(records, userId);
            && (forall x :: x in r ==> x in records && x.userId == userId)
            && (forall i, j :: 0 <= i < j < |r| ==> ByRecency(r[i], r[j]))
            && (forall x, y :: x in r && y in records && y.userId == userId && y !in r ==> ByRecency(x, y))
            && multiset(r) <= multiset(OfUser(records, userId))
            && (|OfUser(records, userId)| <= 5 ==> multiset(r) == multiset(OfUser(records, userId)))
  {
    var mine := OfUser(records, userId);
    var sorted := SortBy(mine, ByRecency);
    ByRecencyPreorder(mine);
    SortBySorted(mine, ByRecency, mine);
    TakeOfSortedIsTop(sorted, ByRecency, 5);
    forall x ensures x in sorted <==> x in mine {
      assert x in sorted <==> x in multiset(sorted);
    }
    var r := Take(sorted, 5);
    forall x | x in r ensures x in sorted {
      var i :| 0 <= i < |r| && r[i] == x;
      assert sorted[i] == x;
    }
    forall i, j | 0 <= i < j < |r| ensures ByRecency(r[i], r[j]) {
      assert r[i] == sorted[i] && r[j] == sorted[j];
    }
    assert sorted == r + sorted[|r|..];
    assert multiset(sorted) == multiset(r) + multiset(sorted[|r|..]);
  }

  /** One element of `recentTrips`. */
  datatype RecentRow = RecentRow(id: nat, date: string, distance: real, earnings: real,
                                 hours: Duration, fuelCost: real, netEarnings: real)

  function FormatRecent(r: TripRecord): (row: RecentRow)
    ensures row.id == r.id && LocalDateOf(row.date) == Some(r.input.date)
    ensures row.distance == r.input.distance && row.earnings == r.input.earnings
    ensures row.fuelCost == r.derived.fuelCost && row.netEarnings == r.derived.netEarnings
    ensures r.derived.workedMinutes >= 0 ==>
              row.hours.hours * 60 + row.hours.minutes == r.derived.workedMinutes
  {
    LocalDateOfFormat(r.input.date);
    RecentRow(r.id, FormatDMY(r.input.date), r.input.distance, r.input.earnings,
              SplitMinutes(r.derived.workedMinutes), r.derived.fuelCost, r.derived.netEarnings)
  }

  /** One element of `chartData`. */
  datatype ChartPoint = ChartPoint(dayMonth: string, earnings: real, expenses: real,
                                   netEarnings: real, distance: real, minutes: int)

  function FormatChartRow(row: ChartRow): (p: ChartPoint)
    ensures p.expenses == row.totals.fuelCost && p.earnings == row.totals.earnings
    ensures p.netEarnings == row.totals.netEarnings && p.minutes == row.totals.minutes
    ensures p.distance == row.totals.distance && p.dayMonth == FormatDayMonth(row.date)
  {
    ChartPoint(FormatDayMonth(row.date), row.totals.earnings, row.totals.fuelCost,
               row.totals.netEarnings, row.totals.distance, row.totals.minutes)
  }

  /** The whole answer of GET /summary. */
  datatype DashboardData = DashboardData(summary: Summary, chartData: seq<ChartPoint>, recentTrips: seq<RecentRow>)

  function DashboardSummary(records: seq<TripRecord>, userId: nat, period: Option<string>, today: Day): (r: DashboardData)
    ensures r.summary == Summarize(Selected(records, userId, FilterFor(period, today)))
    ensures r.chartData == ChartPoints(ChartRows(Selected(records, userId, FilterFor(period, today))))
    ensures r.recentTrips == RecentRows(RecentTrips(records, userId))
    ensures |r.recentTrips| <= 5
  {
    var s := Selected(records, userId, FilterFor(period, today));
    DashboardData(Summarize(s), ChartPoints(ChartRows(s)), RecentRows(RecentTrips(records, userId)))
  }

  /** `chartData.map(...)`. */
  function ChartPoints(rows: seq<ChartRow>): (r: seq<ChartPoint>)
    ensures |r| == |rows| && forall i :: 0 <= i < |rows| ==> r[i] == FormatChartRow(rows[i])
  {
    seq(|rows|, i requires 0 <= i < |rows| => FormatChartRow(rows[i]))
  }

  /** `recentTrips.map(...)`. */
  function RecentRows(trips: seq<TripRecord>): (r: seq<RecentRow>)
    ensures |r| == |trips| && forall i :: 0 <= i < |trips| ==> r[i] == FormatRecent(trips[i])
  {
    seq(|trips|, i requires 0 <= i < |trips| => FormatRecent(trips[i]))
  }

  /** The chart adds up to the summary: the chart sums over all its rows equal
      the period's totals. */
  lemma ChartMatchesSummary(records: seq<TripRecord>, userId: nat, period: Option<string>, today: Day)
    ensures var s := Selected(records, userId, FilterFor(period, today));
            var t := SumRows(ChartRows(s));
            var sum := Summarize(s);
            t.earnings == sum.totalEarnings && t.netEarnings == sum.totalNetEarnings
            && t.fuelCost == sum.totalFuelCost && t.distance == sum.totalDistance
  {
    ChartRowsGroup(Selected(records, userId, FilterFor(period, today)));
  }
}
