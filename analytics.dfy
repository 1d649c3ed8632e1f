/** The analytics page (src/pages/Analytics.tsx): the picked date range, the
    totals of the trips inside it, the per-km metrics guarded against a zero
    distance, and the two chart series.
 */
module Analytics {
  import opened Options
  import opened Seqs
  import opened Calendar
  import TripDerivation

  /** A trip as the page uses it, its date already read as a calendar date. */
  datatype Trip = Trip(date: Date, distance: real, fuelConsumption: real, fuelPrice: real, earnings: real)

  /** The day picker's range; either end may be unset. */
  datatype DateRange = DateRange(from: Option<Date>, to: Option<Date>)

  function Kept(t: Trip, range: Option<DateRange>): bool
  {
    match range
    case Some(DateRange(Some(from), Some(to))) => DateLe(from, t.date) && DateLe(t.date, to)
    case _ => true
  }

  /** `filteredTrips`: all trips until both ends are picked, then the trips
      from `from` to `to`, both included. */
  function FilteredTrips(trips: seq<Trip>, range: Option<DateRange>): (r: seq<Trip>)
    ensures (range.None? || range.value.from.None? || range.value.to.None?) ==> r == trips
    ensures range.Some? && range.value.from.Some? && range.value.to.Some? ==>
              forall t :: t in r <==> (t in trips && DateLe(range.value.from.value, t.date)
                                       && DateLe(t.date, range.value.to.value))
    ensures IsSubsequence(r, trips)
  {
    var keep := (t: Trip) => Kept(t, range);
    FilterIsSubsequence(trips, keep);
    if range.None? || range.value.from.None? || range.value.to.None? then
      FilterKeepsAll(trips, keep);
      Filter(trips, keep)
    else Filter(trips, keep)
  }

  function Earnings(t: Trip): real { t.earnings }
  function Distance(t: Trip): real { t.distance }
  function Consumption(t: Trip): real { t.fuelConsumption }

  /** The page's fuel cost of one trip: consumption times price. */
  function FuelCost(t: Trip): real { t.fuelConsumption * t.fuelPrice }

  /** The page's fuel cost is not the cost the backend stores (distance divided
      by consumption, times price): for 200 km at 10 km/l and 5 per litre the
      page counts 50 where the backend stores 100. */
  lemma FuelCostDiffersFromBackend(input: TripDerivation.TripInput)
    requires input.distance == 200.0 && input.fuelConsumption == 10.0 && input.fuelPrice == 5.0
    ensures var t := Trip(input.date, input.distance, input.fuelConsumption, input.fuelPrice, input.earnings);
            FuelCost(t) == 50.0 && TripDerivation.Derive(input).fuelCost == 100.0
  {
  }

  /** The metric cards. `averageFuelEfficiency` is None where JavaScript shows
      Infinity: a non-zero distance over consumptions summing to zero. */
  datatype Metrics = Metrics(
    totalEarnings: real, totalDistance: real, totalFuelCost: real,
    earningsPerKm: real, fuelCostPerKm: real, averageFuelEfficiency: Option<real>)

  function MetricsOf(f: seq<Trip>): (m: Metrics)
    ensures m.totalEarnings == Sum(f, Earnings) && m.totalDistance == Sum(f, Distance)
    ensures m.totalFuelCost == Sum(f, FuelCost)
    ensures m.totalDistance == 0.0 ==>
              m.earningsPerKm == 0.0 && m.fuelCostPerKm == 0.0 && m.averageFuelEfficiency == Some(0.0)
    ensures m.totalDistance != 0.0 ==>
              m.earningsPerKm * m.totalDistance == m.totalEarnings && m.fuelCostPerKm * m.totalDistance == m.totalFuelCost
    ensures m.totalDistance != 0.0 ==>
              (m.averageFuelEfficiency.None? <==> Sum(f, Consumption) == 0.0) &&
              (m.averageFuelEfficiency.Some? ==> m.averageFuelEfficiency.value * Sum(f, Consumption) == m.totalDistance)
  {
    var totalEarnings, totalDistance, totalFuelCost := Sum(f, Earnings), Sum(f, Distance), Sum(f, FuelCost);
    var consumption := Sum(f, Consumption);
    if totalDistance == 0.0 then Metrics(totalEarnings, totalDistance, totalFuelCost, 0.0, 0.0, Some(0.0))
    else
      Metrics(totalEarnings, totalDistance, totalFuelCost,
              totalEarnings / totalDistance, totalFuelCost / totalDistance,
              if consumption == 0.0 then None else Some(totalDistance / consumption))
  }

  /** The line chart: per trip, its date (the label, shown as `dd/MM`), its
      earnings and the page's fuel cost. */
  datatype Chart = Chart(labels: seq<Date>, earnings: seq<real>, fuelCosts: seq<real>)

  function ChartOf(f: seq<Trip>): (c: Chart)
    ensures |c.labels| == |f| && |c.earnings| == |f| && |c.fuelCosts| == |f|
    ensures forall i :: 0 <= i < |f| ==>
              c.labels[i] == f[i].date && c.earnings[i] == f[i].earnings && c.fuelCosts[i] == FuelCost(f[i])
  {
    Chart(seq(|f|, i requires 0 <= i < |f| => f[i].date),
          seq(|f|, i requires 0 <= i < |f| => f[i].earnings),
          seq(|f|, i requires 0 <= i < |f| => FuelCost(f[i])))
  }

  /** The chart plots what the cards total: the earnings series sums to the
      earnings card and the cost series to the fuel cost card. */
  lemma {:induction false} ChartSumsToMetrics(f: seq<Trip>)
    ensures SumReals(ChartOf(f).earnings) == MetricsOf(f).totalEarnings
    ensures SumReals(ChartOf(f).fuelCosts) == MetricsOf(f).totalFuelCost
  {
    if f != [] {
      ChartSumsToMetrics(f[1..]);
      assert ChartOf(f).earnings[1..] == ChartOf(f[1..]).earnings;
      assert ChartOf(f).fuelCosts[1..] == ChartOf(f[1..]).fuelCosts;
    }
  }

  function SumReals(s: seq<real>): real
  {
    if s == [] then 0.0 else s[0] + SumReals(s[1..])
  }
}
