/** The reports page (src/pages/Reports.tsx): the inclusive date-range filter,
    the export rows with the guard against an empty period, and the period
    summary.
 */
module Reports {
  import opened Options
  import opened Seqs
  import opened Calendar
  import opened Text
  import opened DateText

  /** A trip as the reports page reads it from local storage. */
  datatype Trip = Trip(
    id: string, date: string, distance: real, startTime: string, endTime: string,
    earnings: real, netEarnings: real, fuelConsumption: real, fuelPrice: real)

  /** The trip's `dd/MM/yyyy` date lies between the two ends, both included;
      a date that does not parse compares false with both. */
  predicate InRange(t: Trip, start: Date, end: Date)
  {
    match LocalDateOf(t.date)
    case Some(d) => DateLe(start, d) && DateLe(d, end)
    case None => false
  }

  /** `filterTrips`: everything while either end is empty, otherwise the trips
      inside the range, in their order. An end that is not a `yyyy-MM-dd` date
      is an invalid date, against which every comparison is false. */
  function FilterTrips(trips: seq<Trip>, startDate: string, endDate: string): (r: seq<Trip>)
    ensures startDate == "" || endDate == "" ==> r == trips
    ensures IsSubsequence(r, trips)
    ensures startDate != "" && endDate != "" ==>
              forall t :: t in r <==> (t in trips && ParseIsoDate(startDate).Some? && ParseIsoDate(endDate).Some?
                                       && InRange(t, ParseIsoDate(startDate).value, ParseIsoDate(endDate).value))
  {
    if startDate == "" || endDate == "" then
      IdentityIsSubsequence(trips);
      trips
    else
      match (ParseIsoDate(startDate), ParseIsoDate(endDate))
      case (Some(s), Some(e)) =>
        FilterIsSubsequence(trips, (t: Trip) => InRange(t, s, e));
        Filter(trips, (t: Trip) => InRange(t, s, e))
      case _ => []
  }

  lemma {:induction false} IdentityIsSubsequence(s: seq<Trip>)
    ensures IsSubsequence(s, s)
  {
    if s != [] {
      IdentityIsSubsequence(s[1..]);
    }
  }

  /** A trip dated on either end of the range is in the report. */
  lemma EndsIncluded(t: Trip, trips: seq<Trip>, start: Date, end: Date)
    requires ValidDate(start) && ValidDate(end) && 0 <= start.year <= 9999 && 0 <= end.year <= 9999
    requires DateLe(start, end) && t in trips
    requires LocalDateOf(t.date) == Some(start) || LocalDateOf(t.date) == Some(end)
    ensures t in FilterTrips(trips, FormatIso(start), FormatIso(end))
  {
    ParseIsoOfFormat(start);
    ParseIsoOfFormat(end);
    DateLeIsTotalOrder(start, start, end);
    DateLeIsTotalOrder(end, end, end);
  }

  /** One row of the exported sheet. */
  datatype ReportRow = ReportRow(
    date: string, distance: real, startTime: string, endTime: string,
    earnings: real, netEarnings: real, fuelConsumption: real, fuelPrice: real)

  function RowOf(t: Trip): ReportRow
  {
    ReportRow(t.date, t.distance, t.startTime, t.endTime, t.earnings, t.netEarnings,
              t.fuelConsumption, t.fuelPrice)
  }

  /** `generateReport`: a warning and no file for an empty period, otherwise one
      row per filtered trip in the same order. */
  datatype ReportOutcome = NoData | Export(rows: seq<ReportRow>)

  function GenerateReport(trips: seq<Trip>, startDate: string, endDate: string): (r: ReportOutcome)
    ensures r == NoData <==> FilterTrips(trips, startDate, endDate) == []
    ensures r.Export? ==> |r.rows| == |FilterTrips(trips, startDate, endDate)|
    ensures r.Export? ==> forall i :: 0 <= i < |r.rows| ==> r.rows[i] == RowOf(FilterTrips(trips, startDate, endDate)[i])
  {
    var f := FilterTrips(trips, startDate, endDate);
    if |f| == 0 then NoData
    else Export(seq(|f|, i requires 0 <= i < |f| => RowOf(f[i])))
  }

  function Earnings(t: Trip): real { t.earnings }
  function NetEarnings(t: Trip): real { t.netEarnings }

  /** The "period summary" card. */
  datatype PeriodSummary = PeriodSummary(tripCount: nat, grossTotal: real, netTotal: real)

  function Summarize(trips: seq<Trip>, startDate: string, endDate: string): (r: PeriodSummary)
    ensures var f := FilterTrips(trips, startDate, endDate);
            r.tripCount == |f| && r.grossTotal == Sum(f, Earnings) && r.netTotal == Sum(f, NetEarnings)
    ensures r.tripCount == 0 ==> r.grossTotal == 0.0 && r.netTotal == 0.0
  {
    var f := FilterTrips(trips, startDate, endDate);
    PeriodSummary(|f|, Sum(f, Earnings), Sum(f, NetEarnings))
  }

  function RowEarnings(r: ReportRow): real { r.earnings }
  function RowNetEarnings(r: ReportRow): real { r.netEarnings }

  lemma {:induction false} RowSums(f: seq<Trip>, rows: seq<ReportRow>)
    requires |rows| == |f| && forall i :: 0 <= i < |f| ==> rows[i] == RowOf(f[i])
    ensures Sum(rows, RowEarnings) == Sum(f, Earnings) && Sum(rows, RowNetEarnings) == Sum(f, NetEarnings)
  {
    if f != [] {
      RowSums(f[1..], rows[1..]);
    }
  }

  /** The exported sheet and the summary card describe the same trips: as many
      rows as trips counted, summing to the same totals. */
  lemma ExportMatchesSummary(trips: seq<Trip>, startDate: string, endDate: string)
    ensures var g := GenerateReport(trips, startDate, endDate);
            var s := Summarize(trips, startDate, endDate);
            (g.NoData? <==> s.tripCount == 0) &&
            (g.Export? ==> |g.rows| == s.tripCount && Sum(g.rows, RowEarnings) == s.grossTotal
                           && Sum(g.rows, RowNetEarnings) == s.netTotal)
  {
    var g := GenerateReport(trips, startDate, endDate);
    if g.Export? {
      RowSums(FilterTrips(trips, startDate, endDate), g.rows);
    }
  }
}
