/** The fuel log page (src/pages/Fuel.tsx): a form for price, litres and fuel
    type with an automatically computed total, and a list of fill-up records
    that submitting adds to or edits in place and that delete removes from.
 */
module FuelLog {
  import opened Options
  import opened Seqs
  import opened Calendar
  import opened Text
  import opened DateText

  datatype FuelType = Etanol | Gasolina | Outros

  /** A fill-up as stored in the list. */
  datatype FuelRecord = FuelRecord(
    id: string, pricePerLiter: real, liters: real, fuelType: FuelType, totalAmount: real, date: string)

  /** A numeric input: empty, or holding a number. */
  datatype NumberField = Blank | Value(value: real)

  /** The automatic total: the product once both inputs hold a number, empty otherwise. */
  function AutoTotal(price: NumberField, liters: NumberField): (t: NumberField)
    ensures t.Value? <==> price.Value? && liters.Value?
    ensures t.Value? ==> t.value == price.value * liters.value
  {
    if price.Value? && liters.Value? then Value(price.value * liters.value) else Blank
  }

  /** `editingRecord?.id || Date.now().toString()` and the same for the date:
      what an edit keeps, what a new record gets. An empty text counts as absent. */
  function NewRecord(editing: Option<FuelRecord>, price: real, liters: real, fuelType: FuelType,
                     total: real, nowId: string, today: string): (r: FuelRecord)
    ensures editing.Some? && editing.value.id != "" ==> r.id == editing.value.id
    ensures editing.Some? && editing.value.date != "" ==> r.date == editing.value.date
    ensures (editing.None? || editing.value.id == "") ==> r.id == nowId
    ensures (editing.None? || editing.value.date == "") ==> r.date == today
    ensures r.pricePerLiter == price && r.liters == liters && r.fuelType == fuelType && r.totalAmount == total
  {
    var id := if editing.Some? && editing.value.id != "" then editing.value.id else nowId;
    var date := if editing.Some? && editing.value.date != "" then editing.value.date else today;
    FuelRecord(id, price, liters, fuelType, total, date)
  }

  /** `records.map(record => record.id === id ? replacement : record)`. */
  function ReplaceById(records: seq<FuelRecord>, id: string, replacement: FuelRecord): (r: seq<FuelRecord>)
    ensures |r| == |records|
    ensures forall i :: 0 <= i < |records| ==> r[i] == if records[i].id == id then replacement else records[i]
  {
    seq(|records|, i requires 0 <= i < |records| => if records[i].id == id then replacement else records[i])
  }

  /** An edit that keeps the id leaves exactly one kind of change: the records
      with that id now carry the new values, and the ids of the list are the same. */
  lemma ReplaceKeepsIds(records: seq<FuelRecord>, id: string, replacement: FuelRecord)
    requires replacement.id == id
    ensures var r := ReplaceById(records, id, replacement);
            forall i :: 0 <= i < |r| ==> r[i].id == records[i].id
    ensures forall x :: x in ReplaceById(records, id, replacement) && x.id != id ==> x in records
  {
  }

  /** Editing a record that is not in the list changes nothing. */
  lemma ReplaceAbsentIsIdentity(records: seq<FuelRecord>, id: string, replacement: FuelRecord)
    requires forall x :: x in records ==> x.id != id
    ensures ReplaceById(records, id, replacement) == records
  {
  }

  function OtherId(id: string): FuelRecord -> bool
  {
    (r: FuelRecord) => r.id != id
  }

  /** `records.filter((record) => record.id !== id)`. */
  function DeleteById(records: seq<FuelRecord>, id: string): (r: seq<FuelRecord>)
    ensures forall x :: x in r <==> x in records && x.id != id
    ensures IsSubsequence(r, records)
    ensures (forall x :: x in records ==> x.id != id) ==> r == records
  {
    FilterIsSubsequence(records, OtherId(id));
    if forall x :: x in records ==> x.id != id then
      FilterKeepsAll(records, OtherId(id));
      Filter(records, OtherId(id))
    else Filter(records, OtherId(id))
  }

  /** `formatDate`'s weekend test on a `dd/MM/yyyy` text: Sunday or Saturday.
      None where the text is not a date, for which the page's formatting throws. */
  function IsWeekend(dateText: string): (r: Option<bool>)
    ensures r.Some? <==> LocalDateOf(dateText).Some?
    ensures r.Some? ==> (r.value <==> Weekday(LocalDateOf(dateText).value) in {0, 6})
  {
    match LocalDateOf(dateText)
    case Some(d) => Some(Weekday(d) == 0 || Weekday(d) == 6)
    case None => None
  }

  /** The date a record is saved with reads back as the day it names. */
  lemma WeekendOfSavedDate(d: Date)
    requires ValidDate(d) && d.year >= 100
    ensures IsWeekend(FormatDMY(d)) == Some(Weekday(d) == 0 || Weekday(d) == 6)
  {
    LocalDateOfFormat(d);
  }

  /** Sunday 11 October 2026 is flagged; Wednesday 14 October 2026 is not. */
  lemma WeekendExamples()
    ensures IsWeekend(FormatDMY(Date(2026, 10, 11))) == Some(true)
    ensures IsWeekend(FormatDMY(Date(2026, 10, 14))) == Some(false)
  {
    WeekendOfSavedDate(Date(2026, 10, 11));
    WeekendOfSavedDate(Date(2026, 10, 14));
    WeekdayExample();
    WeekStartExample();
    WeekStartIsSunday(Date(2026, 10, 14));
  }

  /** The page's state. */
  class FuelPage {
    var pricePerLiter: NumberField
    var liters: NumberField
    var fuelType: FuelType
    var totalAmount: NumberField
    var records: seq<FuelRecord>
    var editingRecord: Option<FuelRecord>

    /** Once both inputs hold a number, so does the total. */
    ghost predicate Valid()
      reads this
    {
      pricePerLiter.Value? && liters.Value? ==> totalAmount.Value?
    }

    /** The page as it opens, with the records saved in local storage. */
    constructor(saved: seq<FuelRecord>)
      ensures Valid()
      ensures pricePerLiter == Blank && liters == Blank && fuelType == Etanol && totalAmount == Blank
      ensures records == saved && editingRecord == None
    {
      pricePerLiter := Blank;
      liters := Blank;
      fuelType := Etanol;
      totalAmount := Blank;
      records := saved;
      editingRecord := None;
    }

    /** Typing a price; a changed value runs the total effect. */
    method SetPricePerLiter(v: NumberField)
      requires Valid()
      modifies this
      ensures Valid()
      ensures pricePerLiter == v
      ensures totalAmount == if v != old(pricePerLiter) then AutoTotal(v, liters) else old(totalAmount)
      ensures liters == old(liters) && fuelType == old(fuelType)
      ensures records == old(records) && editingRecord == old(editingRecord)
    {
      var changed := v != pricePerLiter;
      pricePerLiter := v;
      if changed {
        totalAmount := AutoTotal(pricePerLiter, liters);
      }
    }

    /** Typing a quantity; a changed value runs the total effect. */
    method SetLiters(v: NumberField)
      requires Valid()
      modifies this
      ensures Valid()
      ensures liters == v
      ensures totalAmount == if v != old(liters) then AutoTotal(pricePerLiter, v) else old(totalAmount)
      ensures pricePerLiter == old(pricePerLiter) && fuelType == old(fuelType)
      ensures records == old(records) && editingRecord == old(editingRecord)
    {
      var changed := v != liters;
      liters := v;
      if changed {
        totalAmount := AutoTotal(pricePerLiter, liters);
      }
    }

    method SetFuelType(t: FuelType)
      requires Valid()
      modifies this
      ensures Valid()
      ensures fuelType == t
      ensures pricePerLiter == old(pricePerLiter) && liters == old(liters) && totalAmount == old(totalAmount)
      ensures records == old(records) && editingRecord == old(editingRecord)
    {
      fuelType := t;
    }

    /** `handleEdit`: the record's values go into the form and the record becomes
        the one being edited; the total effect then runs if price or litres changed. */
    method HandleEdit(record: FuelRecord)
      requires Valid()
      modifies this
      ensures Valid()
      ensures editingRecord == Some(record)
      ensures pricePerLiter == Value(record.pricePerLiter) && liters == Value(record.liters)
      ensures fuelType == record.fuelType
      ensures totalAmount ==
                if old(pricePerLiter) != Value(record.pricePerLiter) || old(liters) != Value(record.liters)
                then Value(record.pricePerLiter * record.liters) else Value(record.totalAmount)
      ensures record.totalAmount == record.pricePerLiter * record.liters ==> totalAmount == Value(record.totalAmount)
      ensures records == old(records)
    {
      var changed := pricePerLiter != Value(record.pricePerLiter) || liters != Value(record.liters);
      editingRecord := Some(record);
      pricePerLiter := Value(record.pricePerLiter);
      liters := Value(record.liters);
      fuelType := record.fuelType;
      totalAmount := Value(record.totalAmount);
      if changed {
        totalAmount := AutoTotal(pricePerLiter, liters);
      }
    }

    /** `handleSubmit`. Both inputs are required, so the form holds numbers. Not
        editing, the new record goes at the end; editing, every record with the
        edited id is replaced where it stands. The form then resets. */
    method Submit(nowId: string, today: string)
      requires Valid()
      requires pricePerLiter.Value? && liters.Value?
      modifies this
      ensures Valid()
      ensures var r := NewRecord(old(editingRecord), old(pricePerLiter).value, old(liters).value,
                                 old(fuelType), old(totalAmount).value, nowId, today);
              && (old(editingRecord).None? ==> records == old(records) + [r])
              && (old(editingRecord).Some? ==> records == ReplaceById(old(records), old(editingRecord).value.id, r))
      ensures pricePerLiter == Blank && liters == Blank && fuelType == Etanol && totalAmount == Blank
      ensures editingRecord == None
    {
      var r := NewRecord(editingRecord, pricePerLiter.value, liters.value, fuelType, totalAmount.value, nowId, today);
      if editingRecord.Some? {
        records := ReplaceById(records, editingRecord.value.id, r);
      } else {
        records := records + [r];
      }
      pricePerLiter := Blank;
      liters := Blank;
      fuelType := Etanol;
      totalAmount := Blank;
      editingRecord := None;
    }

    /** `handleCancelEdit`: the form and the editing state clear; the list stays. */
    method CancelEdit()
      modifies this
      ensures Valid()
      ensures pricePerLiter == Blank && liters == Blank && fuelType == Etanol && totalAmount == Blank
      ensures editingRecord == None && records == old(records)
    {
      editingRecord := None;
      pricePerLiter := Blank;
      liters := Blank;
      fuelType := Etanol;
      totalAmount := Blank;
    }

    /** `handleDelete`: the records with that id go, the others stay in order;
        the form is untouched. */
    method Delete(id: string)
      requires Valid()
      modifies this
      ensures Valid()
      ensures records == DeleteById(old(records), id)
      ensures pricePerLiter == old(pricePerLiter) && liters == old(liters) && fuelType == old(fuelType)
      ensures totalAmount == old(totalAmount) && editingRecord == old(editingRecord)
    {
      records := DeleteById(records, id);
    }
  }
}
