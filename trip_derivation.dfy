/** The trip routes of the backend (backend/routes/trips.js): the derivation of
    litres, fuel cost, worked minutes and net earnings that both POST and PUT
    perform, the rates they report, the rows GET returns, and what the
    SELECT / UPDATE / DELETE statements of those handlers do to the trips
    table, seen as a sequence of records.
 */
module TripDerivation {
  import opened Options
  import opened Calendar
  import opened Text
  import opened Seqs
  import opened DateText

  /** A date with a four-digit year: what the trip_date column holds and what
      both date texts of the source carry. */
  type Day = d: Date | ValidDate(d) && 1000 <= d.year <= 9999 witness Date(2000, 1, 1)

  /** A time of day as the hour and minute numbers read from "HH:MM". */
  datatype Clock = Clock(hour: int, minute: int)

  predicate ValidClock(c: Clock)
  {
    0 <= c.hour <= 23 && 0 <= c.minute <= 59
  }

  function MinuteOfDay(c: Clock): int
  {
    c.hour * 60 + c.minute
  }

  const MinutesPerDay: int := 24 * 60

  /** The text an "HH:MM" time input holds. */
  function FormatClock(c: Clock): string
    requires ValidClock(c)
  {
    PadTwo(c.hour) + ":" + PadTwo(c.minute)
  }

  /** `const [h, m] = text.split(':').map(Number)`; None when a piece is
      missing or is not all digits (NaN for other text; decimal pieces such as
      "8.5", which `Number` reads, are not modelled). */
  function ClockOfText(s: string): (r: Option<Clock>)
    ensures r.Some? ==> r.value.hour >= 0 && r.value.minute >= 0
  {
    var parts := Split(s, ':');
    if |parts| < 2 then None
    else
      var h, m := NumberOfDigits(parts[0]), NumberOfDigits(parts[1]);
      if h.None? || m.None? then None else Some(Clock(h.value, m.value))
  }

  lemma ClockOfFormat(c: Clock)
    requires ValidClock(c)
    ensures ClockOfText(FormatClock(c)) == Some(c)
  {
    var a, b := PadTwo(c.hour), PadTwo(c.minute);
    assert ':' !in a && ':' !in b;
    assert FormatClock(c) == a + [':'] + b;
    SplitAtSeparator(a, ':', b);
    SplitNoSeparator(b, ':');
  }

  /** Worked minutes: end minus start, plus one day when that is negative. */
  function WorkedMinutes(start: Clock, end: Clock): int
  {
    var worked := MinuteOfDay(end) - MinuteOfDay(start);
    if worked < 0 then worked + MinutesPerDay else worked
  }

  /** For real times of day the worked minutes lie in [0, 1439] and are the one
      such value that, added to the start, lands on the end of the 24-hour clock. */
  lemma WorkedMinutesWithinDay(start: Clock, end: Clock, w: int)
    requires ValidClock(start) && ValidClock(end)
    ensures 0 <= WorkedMinutes(start, end) < MinutesPerDay
    ensures (MinuteOfDay(start) + WorkedMinutes(start, end)) % MinutesPerDay == MinuteOfDay(end)
    ensures 0 <= w < MinutesPerDay && (MinuteOfDay(start) + w) % MinutesPerDay == MinuteOfDay(end)
            ==> w == WorkedMinutes(start, end)
  {
    DayWrap(MinuteOfDay(start), MinuteOfDay(end), w);
  }

  /** The minute-of-day arithmetic behind WorkedMinutesWithinDay. */
  lemma DayWrap(s: int, e: int, w: int)
    requires 0 <= s < 1440 && 0 <= e < 1440
    ensures var v := if e - s < 0 then e - s + 1440 else e - s;
            0 <= v < 1440 && (s + v) % 1440 == e
            && (0 <= w < 1440 && (s + w) % 1440 == e ==> w == v)
  {
    var v := if e - s < 0 then e - s + 1440 else e - s;
    assert s + v == e || s + v == e + 1440;
    if 0 <= w < 1440 && (s + w) % 1440 == e {
      if s + w < 1440 {
        assert (s + w) % 1440 == s + w;
      } else {
        assert (s + w) % 1440 == s + w - 1440;
      }
    }
  }

  /** Equal start and end mean no time worked, not a whole day. */
  lemma SameTimeWorksNothing(t: Clock)
    ensures WorkedMinutes(t, t) == 0
  {
  }

  /** A shift from 22:00 to 02:00 crosses midnight and lasts four hours. */
  lemma MidnightExample()
    ensures WorkedMinutes(Clock(22, 0), Clock(2, 0)) == 240
  {
  }

  /** The inputs of POST and PUT once `parseFloat` and the time split are applied. */
  datatype TripInput = TripInput(
    date: Day, distance: real, fuelConsumption: real, fuelPrice: real,
    startTime: Clock, endTime: Clock, earnings: real)

  /** The derived columns liters_used, fuel_cost, time_worked_minutes, net_earnings. */
  datatype Derived = Derived(litersUsed: real, fuelCost: real, workedMinutes: int, netEarnings: real)

  /** The derivation shared by POST and PUT. */
  function Derive(t: TripInput): (d: Derived)
    requires t.fuelConsumption != 0.0
    ensures d.litersUsed * t.fuelConsumption == t.distance
    ensures d.fuelCost * t.fuelConsumption == t.distance * t.fuelPrice
    ensures d.netEarnings + d.fuelCost == t.earnings
    ensures d.workedMinutes == WorkedMinutes(t.startTime, t.endTime)
    ensures t.distance > 0.0 && t.fuelConsumption > 0.0 && t.fuelPrice > 0.0 ==>
              d.fuelCost > 0.0 && d.netEarnings < t.earnings
  {
    var litersUsed := t.distance / t.fuelConsumption;
    var fuelCost := litersUsed * t.fuelPrice;
    Derived(litersUsed, fuelCost, WorkedMinutes(t.startTime, t.endTime), t.earnings - fuelCost)
  }

  /** 100 km at 10 km/l and 5 per litre burn 10 litres costing 50; earning 150 nets 100, 1 per km. */
  lemma FuelExample(t: TripInput)
    requires t.distance == 100.0 && t.fuelConsumption == 10.0 && t.fuelPrice == 5.0 && t.earnings == 150.0
    ensures Derive(t).litersUsed == 10.0 && Derive(t).fuelCost == 50.0 && Derive(t).netEarnings == 100.0
    ensures PerKm(Derive(t).netEarnings, t.distance) == Some(1.0)
  {
  }

  /** A trip whose fuel costs more than it earned has negative net earnings; nothing rejects it. */
  lemma LossMakingTrip(t: TripInput)
    requires t.distance == 100.0 && t.fuelConsumption == 10.0 && t.fuelPrice == 5.0 && t.earnings == 10.0
    ensures Derive(t).netEarnings == -40.0
  {
  }

  /** Hours and minutes as `${Math.floor(m / 60)}h ${m % 60}m` prints them. */
  datatype Duration = Duration(hours: int, minutes: int)

  /** JavaScript's `%`, whose result takes the sign of the dividend. */
  function JsRem(a: int, b: int): (r: int)
    requires b > 0
    ensures a >= 0 ==> 0 <= r < b && r == a % b
    ensures a < 0 ==> -b < r <= 0 && r == -((-a) % b)
  {
    if a >= 0 then a % b else -((-a) % b)
  }

  function SplitMinutes(total: int): (d: Duration)
    ensures total >= 0 ==> d.hours * 60 + d.minutes == total && 0 <= d.minutes < 60 && d.hours >= 0
  {
    Duration(total / 60, JsRem(total, 60))
  }

  /** `net / distance`; None where JavaScript would give Infinity or NaN. */
  function PerKm(net: real, distance: real): (r: Option<real>)
    ensures r.Some? <==> distance != 0.0
    ensures r.Some? ==> r.value * distance == net
  {
    if distance == 0.0 then None else Some(net / distance)
  }

  /** `net / (minutes / 60)`; None exactly when no minute was worked. */
  function PerHour(net: real, minutes: int): (r: Option<real>)
    ensures r.Some? <==> minutes != 0
    ensures r.Some? ==> r.value * (minutes as real / 60.0) == net
  {
    if minutes == 0 then None else Some(net / (minutes as real / 60.0))
  }

  /** The `calculations` object that POST and PUT answer with. */
  datatype Calculations = Calculations(
    litersUsed: real, fuelCost: real, timeWorked: Duration, netEarnings: real,
    earningsPerKm: Option<real>, earningsPerHour: Option<real>)

  function Calculate(t: TripInput): (c: Calculations)
    requires t.fuelConsumption != 0.0
    ensures var d := Derive(t);
            && c.litersUsed == d.litersUsed && c.fuelCost == d.fuelCost && c.netEarnings == d.netEarnings
            && c.timeWorked == SplitMinutes(d.workedMinutes)
            && c.earningsPerKm == PerKm(d.netEarnings, t.distance)
            && c.earningsPerHour == PerHour(d.netEarnings, d.workedMinutes)
    ensures ValidClock(t.startTime) && ValidClock(t.endTime) ==>
              (c.earningsPerHour.None? <==> MinuteOfDay(t.startTime) == MinuteOfDay(t.endTime))
  {
    var d := Derive(t);
    Calculations(d.litersUsed, d.fuelCost, SplitMinutes(d.workedMinutes), d.netEarnings,
                 PerKm(d.netEarnings, t.distance), PerHour(d.netEarnings, d.workedMinutes))
  }

  /** A row of the trips table. */
  datatype TripRecord = TripRecord(id: nat, userId: nat, createdAt: int, input: TripInput, derived: Derived)

  /** The derived columns are the derivation of the raw ones. */
  predicate Consistent(r: TripRecord)
  {
    r.input.fuelConsumption != 0.0 && r.derived == Derive(r.input)
  }

  /** The row POST inserts. */
  function CreateTrip(id: nat, userId: nat, createdAt: int, t: TripInput): (r: TripRecord)
    requires t.fuelConsumption != 0.0
    ensures Consistent(r)
    ensures r.id == id && r.userId == userId && r.createdAt == createdAt && r.input == t
  {
    TripRecord(id, userId, createdAt, t, Derive(t))
  }

  /** The row PUT leaves: every raw and derived column rewritten, identity kept. */
  function UpdateTrip(prev: TripRecord, t: TripInput): (r: TripRecord)
    requires t.fuelConsumption != 0.0
    ensures Consistent(r)
    ensures r.id == prev.id && r.userId == prev.userId && r.createdAt == prev.createdAt && r.input == t
  {
    TripRecord(prev.id, prev.userId, prev.createdAt, t, Derive(t))
  }

  /** PUT recomputes exactly what POST computes: the same input stores the same
      values, whatever the row held before. */
  lemma {:induction false} UpdateMatchesCreate(prev: TripRecord, t: TripInput)
    requires t.fuelConsumption != 0.0
    ensures UpdateTrip(prev, t).derived == CreateTrip(prev.id, prev.userId, prev.createdAt, t).derived
    ensures UpdateTrip(prev, t) == CreateTrip(prev.id, prev.userId, prev.createdAt, t)
  {
  }

  function OfUser(records: seq<TripRecord>, userId: nat): (r: seq<TripRecord>)
    ensures forall x :: x in r <==> x in records && x.userId == userId
  {
    Filter(records, (x: TripRecord) => x.userId == userId)
  }

  /** The comparator of `ORDER BY trip_date DESC`. */
  function ByDateDesc(a: TripRecord, b: TripRecord): bool
  {
    DateLe(b.input.date, a.input.date)
  }

  lemma ByDateDescPreorder(d: seq<TripRecord>)
    ensures PreorderOn(ByDateDesc, d)
  {
    forall x, y, z | x in d && y in d && z in d
      ensures ByDateDesc(x, y) || ByDateDesc(y, x)
      ensures ByDateDesc(x, y) && ByDateDesc(y, z) ==> ByDateDesc(x, z)
    {
      DateLeIsTotalOrder(x.input.date, y.input.date, z.input.date);
      DateLeIsTotalOrder(z.input.date, y.input.date, x.input.date);
    }
  }

  /** `SELECT * FROM trips WHERE user_id = ? ORDER BY trip_date DESC`: the user's
      trips, newest date first. */
  function SelectUserTrips(records: seq<TripRecord>, userId: nat): (r: seq<TripRecord>)
    ensures multiset(r) == multiset(OfUser(records, userId))
    ensures forall i, j :: 0 <= i < j < |r| ==> DateLe(r[j].input.date, r[i].input.date)
  {
    var mine := OfUser(records, userId);
    ByDateDescPreorder(mine);
    SortBySorted(mine, ByDateDesc, mine);
    SortBy(mine, ByDateDesc)
  }

  /** One element of the JSON array GET answers with. */
  datatype TripRow = TripRow(
    id: nat, date: string, distance: real, fuelConsumption: real, fuelPrice: real,
    startTime: Clock, endTime: Clock, earnings: real, litersUsed: real, fuelCost: real,
    netEarnings: real, hours: Duration, earningsPerKm: Option<real>, earningsPerHour: Option<real>)

  /** The row formatting of GET / and GET /:id, reading the stored columns. */
  function FormatTrip(r: TripRecord): (row: TripRow)
    ensures row.id == r.id && LocalDateOf(row.date) == Some(r.input.date)
    ensures row.earnings == r.input.earnings && row.netEarnings == r.derived.netEarnings
    ensures row.earningsPerKm == PerKm(r.derived.netEarnings, r.input.distance)
    ensures row.earningsPerHour == PerHour(r.derived.netEarnings, r.derived.workedMinutes)
    ensures r.derived.workedMinutes >= 0 ==>
              row.hours.hours * 60 + row.hours.minutes == r.derived.workedMinutes && 0 <= row.hours.minutes < 60
  {
    LocalDateOfFormat(r.input.date);
    TripRow(r.id, FormatDMY(r.input.date), r.input.distance, r.input.fuelConsumption,
            r.input.fuelPrice, r.input.startTime, r.input.endTime, r.input.earnings,
            r.derived.litersUsed, r.derived.fuelCost, r.derived.netEarnings,
            SplitMinutes(r.derived.workedMinutes),
            PerKm(r.derived.netEarnings, r.input.distance),
            PerHour(r.derived.netEarnings, r.derived.workedMinutes))
  }

  /** GET /: the user's trips, newest first, formatted. */
  function ListTrips(records: seq<TripRecord>, userId: nat): (rows: seq<TripRow>)
    ensures |rows| == |OfUser(records, userId)|
    ensures forall i :: 0 <= i < |rows| ==> rows[i] == FormatTrip(SelectUserTrips(records, userId)[i])
  {
    var sorted := SelectUserTrips(records, userId);
    seq(|sorted|, i requires 0 <= i < |sorted| => FormatTrip(sorted[i]))
  }

  /** The dates of the GET / rows, read back the way the client reads them, run
      from the newest to the oldest. */
  lemma ListTripsNewestFirst(records: seq<TripRecord>, userId: nat, i: int, j: int)
    requires 0 <= i < j < |ListTrips(records, userId)|
    ensures var rows := ListTrips(records, userId);
            && LocalDateOf(rows[i].date).Some? && LocalDateOf(rows[j].date).Some?
            && DateLe(LocalDateOf(rows[j].date).value, LocalDateOf(rows[i].date).value)
  {
  }

  /** `SELECT * FROM trips WHERE id = ? AND user_id = ?`, first row; None is the 404 answer. */
  function FindTrip(records: seq<TripRecord>, id: nat, userId: nat): (r: Option<TripRecord>)
    ensures r.Some? ==> r.value in records && r.value.id == id && r.value.userId == userId
    ensures r.None? ==> forall x :: x in records ==> !(x.id == id && x.userId == userId)
  {
    var found := Filter(records, (x: TripRecord) => x.id == id && x.userId == userId);
    if found == [] then None else Some(found[0])
  }

  /** PUT /:id: 404 (None) when the user has no such trip, otherwise every row
      with that id and user is recomputed from the new input and no other row changes. */
  function UpdateTrips(records: seq<TripRecord>, id: nat, userId: nat, t: TripInput): (r: Option<seq<TripRecord>>)
    requires t.fuelConsumption != 0.0
    ensures r.None? <==> FindTrip(records, id, userId).None?
    ensures r.Some? ==> |r.value| == |records|
    ensures r.Some? ==> forall k :: 0 <= k < |records| ==>
              r.value[k] == if records[k].id == id && records[k].userId == userId
                            then UpdateTrip(records[k], t) else records[k]
  {
    if FindTrip(records, id, userId).None? then None
    else Some(seq(|records|, k requires 0 <= k < |records| =>
                  if records[k].id == id && records[k].userId == userId
                  then UpdateTrip(records[k], t) else records[k]))
  }

  /** DELETE /:id: 404 (None) when the user has no such trip, otherwise that
      trip's rows go and the others stay in order. */
  function DeleteTrips(records: seq<TripRecord>, id: nat, userId: nat): (r: Option<seq<TripRecord>>)
    ensures r.None? <==> FindTrip(records, id, userId).None?
    ensures r.Some? ==> |r.value| < |records|
    ensures r.Some? ==> forall x :: x in r.value <==> x in records && !(x.id == id && x.userId == userId)
    ensures r.Some? ==> IsSubsequence(r.value, records)
    ensures r.Some? ==> forall x :: x in records && !(x.id == id && x.userId == userId) ==>
                          multiset(r.value)[x] == multiset(records)[x]
  {
    var found := FindTrip(records, id, userId);
    if found.None? then None
    else
      var kept := Filter(records, (x: TripRecord) => !(x.id == id && x.userId == userId));
      FilterDrops(records, (x: TripRecord) => !(x.id == id && x.userId == userId), found.value);
      FilterIsSubsequence(records, (x: TripRecord) => !(x.id == id && x.userId == userId));
      Some(kept)
  }
}
