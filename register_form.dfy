/** The trip registration form (src/components/register/RegisterForm.tsx):
    the field rules its schema checks before submission and the summary its
    submit handler computes from the accepted texts.
 */
module RegisterForm {
  import opened Options
  import opened Text
  import opened Calendar
  import opened TripDerivation

  /** The form's values: the picked date and the texts of the other inputs. */
  datatype FormData = FormData(
    date: Option<Date>, distance: string, fuelConsumption: string, fuelPrice: string,
    startTime: string, endTime: string, earnings: string)

  datatype Field = DateField | Distance | FuelConsumption | FuelPrice | StartTime | EndTime | Earnings

  /** `!isNaN(Number(val)) && Number(val) > 0`. */
  predicate PositiveNumber(s: string)
  {
    NumberOf(s).Some? && NumberOf(s).value > 0.0
  }

  /** `!isNaN(Number(val)) && Number(val) >= 0`. */
  predicate NonNegativeNumber(s: string)
  {
    NumberOf(s).Some? && NumberOf(s).value >= 0.0
  }

  /** Whether one field passes its rule. `corrected` selects the earnings rule:
      false is the rule as written, true also refuses the empty text. */
  predicate FieldValid(f: FormData, field: Field, corrected: bool)
  {
    match field
    case DateField => f.date.Some?
    case Distance => PositiveNumber(f.distance)
    case FuelConsumption => PositiveNumber(f.fuelConsumption)
    case FuelPrice => PositiveNumber(f.fuelPrice)
    case StartTime => |f.startTime| >= 1
    case EndTime => |f.endTime| >= 1
    case Earnings => NonNegativeNumber(f.earnings) && (corrected ==> f.earnings != "")
  }

  /** The submit handler runs only when every field passes. */
  predicate Valid(f: FormData, corrected: bool)
  {
    forall field :: FieldValid(f, field, corrected)
  }

  /** The fields whose messages the form shows. */
  function Errors(f: FormData, corrected: bool): (e: set<Field>)
    ensures forall field :: field in e <==> !FieldValid(f, field, corrected)
    ensures e == {} <==> Valid(f, corrected)
  {
    var all := {DateField, Distance, FuelConsumption, FuelPrice, StartTime, EndTime, Earnings};
    AllFieldsListed(all);
    set field | field in all && !FieldValid(f, field, corrected)
  }

  lemma AllFieldsListed(all: set<Field>)
    requires all == {DateField, Distance, FuelConsumption, FuelPrice, StartTime, EndTime, Earnings}
    ensures forall field :: field in all
  {
    forall field ensures field in all {
      match field
      case DateField => case Distance => case FuelConsumption => case FuelPrice =>
      case StartTime => case EndTime => case Earnings =>
    }
  }

  /** What `parseFloat` makes of the numeric texts: numbers, the first three
      positive and the earnings at least zero. */
  predicate NumbersRead(f: FormData)
  {
    && ParseFloat(f.distance).Some? && ParseFloat(f.distance).value > 0.0
    && ParseFloat(f.fuelConsumption).Some? && ParseFloat(f.fuelConsumption).value > 0.0
    && ParseFloat(f.fuelPrice).Some? && ParseFloat(f.fuelPrice).value > 0.0
    && ParseFloat(f.earnings).Some? && ParseFloat(f.earnings).value >= 0.0
  }

  /** Under the corrected rules every numeric text that passes is one that
      `parseFloat` reads as the same number, so the handler never sees NaN. */
  lemma AcceptedParses(f: FormData)
    requires Valid(f, true)
    ensures ParseFloat(f.distance).Some? && ParseFloat(f.distance) == NumberOf(f.distance)
    ensures ParseFloat(f.fuelConsumption).Some? && ParseFloat(f.fuelConsumption) == NumberOf(f.fuelConsumption)
    ensures ParseFloat(f.fuelPrice).Some? && ParseFloat(f.fuelPrice) == NumberOf(f.fuelPrice)
    ensures ParseFloat(f.earnings).Some? && ParseFloat(f.earnings) == NumberOf(f.earnings)
    ensures NumbersRead(f)
  {
    assert FieldValid(f, Distance, true) && FieldValid(f, FuelConsumption, true);
    assert FieldValid(f, FuelPrice, true) && FieldValid(f, Earnings, true);
    NumberAndParseFloat(f.distance);
    NumberAndParseFloat(f.fuelConsumption);
    NumberAndParseFloat(f.fuelPrice);
    NumberAndParseFloat(f.earnings);
    assert f.distance != "" && f.fuelConsumption != "" && f.fuelPrice != "";
  }

  /** The rule as written lets an empty earnings text through (`Number("")` is 0),
      and the handler then reads it with `parseFloat` as NaN. */
  lemma EmptyEarningsPassAsWritten(f: FormData)
    requires Valid(f, true)
    ensures Valid(f.(earnings := ""), false)
    ensures !Valid(f.(earnings := ""), true)
    ensures ParseFloat(f.(earnings := "").earnings).None?
  {
    var g := f.(earnings := "");
    NumberAndParseFloat("");
    forall field ensures FieldValid(g, field, false) {
      assert FieldValid(f, field, true);
    }
    assert !FieldValid(g, Earnings, true);
  }

  /** `text.split(":")` read with `parseInt` piece by piece; None (NaN) when
      a piece is missing or does not start with a digit. */
  function FormClockOf(s: string): (r: Option<Clock>)
    ensures r.Some? ==> r.value.hour >= 0 && r.value.minute >= 0
  {
    var parts := Split(s, ':');
    if |parts| < 2 then None
    else
      var h, m := ParseInt(parts[0]), ParseInt(parts[1]);
      if h.None? || m.None? then None else Some(Clock(h.value, m.value))
  }

  /** The client and the backend read what a time input produces alike. */
  lemma FormClockOfFormat(c: Clock)
    requires ValidClock(c)
    ensures FormClockOf(FormatClock(c)) == Some(c)
    ensures FormClockOf(FormatClock(c)) == ClockOfText(FormatClock(c))
  {
    var a, b := PadTwo(c.hour), PadTwo(c.minute);
    assert ':' !in a && ':' !in b;
    assert FormatClock(c) == a + [':'] + b;
    SplitAtSeparator(a, ':', b);
    SplitNoSeparator(b, ':');
    ParseIntOfDigits(a);
    ParseIntOfDigits(b);
    ClockOfFormat(c);
  }

  /** The form's rollover: `end >= start ? end - start : 24 * 60 - start + end`. */
  function FormWorkedMinutes(start: Clock, end: Clock): int
  {
    var s, e := MinuteOfDay(start), MinuteOfDay(end);
    if e >= s then e - s else MinutesPerDay - s + e
  }

  /** The form and the backend count the same worked minutes for every pair of times. */
  lemma FormWorkedMinutesAgrees(start: Clock, end: Clock)
    ensures FormWorkedMinutes(start, end) == WorkedMinutes(start, end)
  {
  }

  /** The figures of the success message. */
  datatype Summary = Summary(
    timeWorked: Duration, fuelCost: real, netEarnings: real,
    earningsPerKm: real, earningsPerHour: Option<real>)

  /** `distance / fuelConsumption * fuelPrice`: the fuel bought for the trip. */
  function FuelCostOf(distance: real, fuelConsumption: real, fuelPrice: real): (c: real)
    requires fuelConsumption > 0.0
    ensures c * fuelConsumption == distance * fuelPrice
    ensures distance > 0.0 && fuelPrice > 0.0 ==> c > 0.0
  {
    distance / fuelConsumption * fuelPrice
  }

  /** The handler's arithmetic on the numbers it has read. */
  function SummaryOf(distance: real, fuelConsumption: real, fuelPrice: real, earnings: real,
                     start: Clock, end: Clock): (r: Summary)
    requires distance > 0.0 && fuelConsumption > 0.0 && fuelPrice > 0.0
    ensures r.earningsPerKm * distance == r.netEarnings
    ensures r.fuelCost * fuelConsumption == distance * fuelPrice
    ensures r.netEarnings + r.fuelCost == earnings
    ensures r.fuelCost > 0.0 && r.netEarnings < earnings
  {
    var fuelCost := FuelCostOf(distance, fuelConsumption, fuelPrice);
    var worked := FormWorkedMinutes(start, end);
    var net := earnings - fuelCost;
    Summary(SplitMinutes(worked), fuelCost, net, net / distance, PerHour(net, worked))
  }


  /** The numbers the handler reads with `parseFloat`; None is NaN. */
  datatype Reading = Reading(distance: real, fuelConsumption: real, fuelPrice: real, earnings: Option<real>)

  /** Under the rules as written the three positive fields read as the numbers
      the schema accepted; the earnings text reads as a number exactly when it
      is not empty. */
  function ReadNumbers(f: FormData): (n: Reading)
    requires Valid(f, false)
    ensures Some(n.distance) == ParseFloat(f.distance) == NumberOf(f.distance)
    ensures Some(n.fuelConsumption) == ParseFloat(f.fuelConsumption) == NumberOf(f.fuelConsumption)
    ensures Some(n.fuelPrice) == ParseFloat(f.fuelPrice) == NumberOf(f.fuelPrice)
    ensures n.distance > 0.0 && n.fuelConsumption > 0.0 && n.fuelPrice > 0.0
    ensures n.earnings == ParseFloat(f.earnings)
    ensures n.earnings.Some? <==> f.earnings != ""
    ensures n.earnings.Some? ==> n.earnings == NumberOf(f.earnings)
  {
    assert FieldValid(f, Distance, false) && FieldValid(f, FuelConsumption, false);
    assert FieldValid(f, FuelPrice, false) && FieldValid(f, Earnings, false);
    NumberAndParseFloat(f.distance);
    NumberAndParseFloat(f.fuelConsumption);
    NumberAndParseFloat(f.fuelPrice);
    NumberAndParseFloat(f.earnings);
    assert f.distance != "" && f.fuelConsumption != "" && f.fuelPrice != "";
    Reading(ParseFloat(f.distance).value, ParseFloat(f.fuelConsumption).value,
            ParseFloat(f.fuelPrice).value, ParseFloat(f.earnings))
  }

  /** The figures of the success message as shown; None is a figure that the
      handler computes as NaN (`NaNh NaNm` for the time). */
  datatype Toast = Toast(
    timeWorked: Option<Duration>, fuelCost: real, netEarnings: Option<real>,
    earningsPerKm: Option<real>, earningsPerHour: Option<real>)

  /** The message for a summary whose every figure is a number. */
  function ToastOf(s: Summary): Toast
  {
    Toast(Some(s.timeWorked), s.fuelCost, Some(s.netEarnings), Some(s.earningsPerKm), s.earningsPerHour)
  }

  /** The submit handler, run on whatever the schema as written lets through. The
      message is always shown; the fuel cost needs only the three positive
      fields, the time only the two time texts, and an empty earnings text makes
      the net and both rates NaN. */
  function OnSubmit(f: FormData): (r: Toast)
    requires Valid(f, false)
    ensures var n := ReadNumbers(f);
            r.fuelCost == FuelCostOf(n.distance, n.fuelConsumption, n.fuelPrice)
    ensures r.timeWorked.Some? <==> FormClockOf(f.startTime).Some? && FormClockOf(f.endTime).Some?
    ensures r.netEarnings.Some? <==> f.earnings != ""
    ensures r.earningsPerKm.Some? <==> f.earnings != ""
    ensures r.earningsPerHour.Some? ==> f.earnings != "" && r.timeWorked.Some?
    ensures r.netEarnings.Some? ==> r.netEarnings.value + r.fuelCost == ReadNumbers(f).earnings.value
    ensures r.timeWorked.Some? ==>
              r.timeWorked.value == SplitMinutes(FormWorkedMinutes(FormClockOf(f.startTime).value,
                                                                   FormClockOf(f.endTime).value))
    ensures r.netEarnings.Some? ==> r.earningsPerKm == PerKm(r.netEarnings.value, ReadNumbers(f).distance)
  {
    var n := ReadNumbers(f);
    var start, end := FormClockOf(f.startTime), FormClockOf(f.endTime);
    var worked := if start.Some? && end.Some? then Some(FormWorkedMinutes(start.value, end.value)) else None;
    ToastFrom(n.distance, n.fuelConsumption, n.fuelPrice, n.earnings, worked)
  }

  /** When every text reads as a number the message shows exactly the summary
      of the handler's arithmetic, which the backend's derivation agrees with. */
  lemma OnSubmitShowsSummary(f: FormData)
    requires Valid(f, false) && f.earnings != ""
    requires FormClockOf(f.startTime).Some? && FormClockOf(f.endTime).Some?
    ensures var n := ReadNumbers(f);
            OnSubmit(f) == ToastOf(SummaryOf(n.distance, n.fuelConsumption, n.fuelPrice, n.earnings.value,
                                             FormClockOf(f.startTime).value, FormClockOf(f.endTime).value))
  {
    var n := ReadNumbers(f);
    ToastOfSummary(n.distance, n.fuelConsumption, n.fuelPrice, n.earnings,
                   FormClockOf(f.startTime), FormClockOf(f.endTime));
  }

  /** The handler's arithmetic on the numbers it has read, with NaN as None. */
  function ToastFrom(distance: real, fuelConsumption: real, fuelPrice: real,
                     earnings: Option<real>, worked: Option<int>): (r: Toast)
    requires distance > 0.0 && fuelConsumption > 0.0 && fuelPrice > 0.0
    ensures r.fuelCost == FuelCostOf(distance, fuelConsumption, fuelPrice)
    ensures r.timeWorked.Some? <==> worked.Some?
    ensures r.netEarnings.Some? <==> earnings.Some?
    ensures r.earningsPerKm.Some? <==> earnings.Some?
    ensures r.earningsPerHour.Some? ==> earnings.Some? && worked.Some?
    ensures r.netEarnings.Some? ==> r.netEarnings.value + r.fuelCost == earnings.value
    ensures worked.Some? ==> r.timeWorked == Some(SplitMinutes(worked.value))
    ensures r.earningsPerKm.Some? ==> r.earningsPerKm.value * distance == r.netEarnings.value
    ensures r.netEarnings.Some? ==> r.earningsPerKm == PerKm(r.netEarnings.value, distance)
  {
    var fuelCost := FuelCostOf(distance, fuelConsumption, fuelPrice);
    var net := if earnings.Some? then Some(earnings.value - fuelCost) else None;
    Toast(
      if worked.Some? then Some(SplitMinutes(worked.value)) else None,
      fuelCost,
      net,
      if net.Some? then Some(net.value / distance) else None,
      if net.Some? && worked.Some? then PerHour(net.value, worked.value) else None)
  }

  /** With every figure a number, the message and the summary agree. */
  lemma ToastOfSummary(distance: real, fuelConsumption: real, fuelPrice: real,
                       earnings: Option<real>, start: Option<Clock>, end: Option<Clock>)
    requires distance > 0.0 && fuelConsumption > 0.0 && fuelPrice > 0.0
    ensures earnings.Some? && start.Some? && end.Some? ==>
              ToastFrom(distance, fuelConsumption, fuelPrice, earnings, Some(FormWorkedMinutes(start.value, end.value)))
              == ToastOf(SummaryOf(distance, fuelConsumption, fuelPrice, earnings.value, start.value, end.value))
  {
  }

  /** The project's finding, end to end: a form the schema as written accepts
      with an empty earnings text shows the fuel cost and the time but no net
      earnings and no rates. */
  lemma EmptyEarningsToast(f: FormData)
    requires Valid(f, false) && f.earnings == ""
    ensures OnSubmit(f).netEarnings.None? && OnSubmit(f).earningsPerKm.None?
    ensures OnSubmit(f).earningsPerHour.None?
    ensures OnSubmit(f).timeWorked.Some? <==> FormClockOf(f.startTime).Some? && FormClockOf(f.endTime).Some?
  {
  }

  /** What the form reports is what the backend would store and answer for the
      same values: the two derivations agree. */
  lemma SummaryMatchesBackend(t: TripInput)
    requires t.distance > 0.0 && t.fuelConsumption > 0.0 && t.fuelPrice > 0.0
    ensures var r := SummaryOf(t.distance, t.fuelConsumption, t.fuelPrice, t.earnings, t.startTime, t.endTime);
            var c := Calculate(t);
            && r.timeWorked == c.timeWorked && r.fuelCost == c.fuelCost
            && r.netEarnings == c.netEarnings && c.earningsPerKm == Some(r.earningsPerKm)
            && r.earningsPerHour == c.earningsPerHour
  {
    FormWorkedMinutesAgrees(t.startTime, t.endTime);
  }

}
