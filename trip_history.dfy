/** The trip history list (src/components/history/TripHistory.tsx): search by
    date text, sort by date or by a numeric column, pages of ten rows, and the
    view state that the sort selector, the order button and the page buttons
    change.
 */
module TripHistory {
  import opened Options
  import opened Seqs
  import opened Calendar
  import opened Text
  import opened DateText
  import TripDerivation

  /** A trip as the list holds it: dates and times are display texts. */
  datatype Trip = Trip(
    id: string, date: string, distance: real, fuelConsumption: real, fuelPrice: real,
    startTime: string, endTime: string, earnings: real)

  datatype SortOrder = Asc | Desc

  function Flip(o: SortOrder): SortOrder
  {
    if o == Asc then Desc else Asc
  }

  /** `filteredTrips`: the trips whose date text contains the search term,
      ignoring letter case, in their original order. */
  function Search(trips: seq<Trip>, term: string): (r: seq<Trip>)
    ensures forall t :: t in r <==> t in trips && Contains(ToLower(t.date), ToLower(term))
    ensures multiset(r) <= multiset(trips)
  {
    var r := Filter(trips, (t: Trip) => Contains(ToLower(t.date), ToLower(term)));
    assert forall t :: t in trips ==> multiset(r)[t] <= multiset(trips)[t];
    r
  }

  /** An empty search keeps every trip, in order. */
  lemma EmptySearchKeepsAll(trips: seq<Trip>)
    ensures Search(trips, "") == trips
  {
    forall t | t in trips
      ensures Contains(ToLower(t.date), ToLower(""))
    {
      ContainsEmpty(ToLower(t.date));
    }
    FilterKeepsAll(trips, (t: Trip) => Contains(ToLower(t.date), ToLower("")));
  }

  /** The value of a sortable column that holds a number; None for the text
      columns and for names that are not columns at all. */
  function NumericField(t: Trip, field: string): (r: Option<real>)
    ensures r.Some? <==> field in {"distance", "fuelConsumption", "fuelPrice", "earnings"}
  {
    if field == "distance" then Some(t.distance)
    else if field == "fuelConsumption" then Some(t.fuelConsumption)
    else if field == "fuelPrice" then Some(t.fuelPrice)
    else if field == "earnings" then Some(t.earnings)
    else None
  }

  /** The comparator of `sortedTrips`. Dates count in whole days, which orders
      them as `getTime()` does; a date that does not parse gives NaN, which the
      sort treats as a tie. */
  function Compare(a: Trip, b: Trip, field: string, order: SortOrder): real
  {
    if field == "date" then
      match (LocalDateOf(a.date), LocalDateOf(b.date))
      case (Some(da), Some(db)) =>
        var diff := (DayNumber(da) - DayNumber(db)) as real;
        if order == Asc then diff else -diff
      case _ => 0.0
    else
      match (NumericField(a, field), NumericField(b, field))
      case (Some(x), Some(y)) => if order == Asc then x - y else y - x
      case _ => 0.0
  }

  /** The comparator read as "may come first". */
  function Le(field: string, order: SortOrder): (Trip, Trip) -> bool
  {
    (a: Trip, b: Trip) => Compare(a, b, field, order) <= 0.0
  }

  /** `[...filteredTrips].sort(...)`: a stable sort of a copy. */
  function SortTrips(trips: seq<Trip>, field: string, order: SortOrder): (r: seq<Trip>)
    ensures multiset(r) == multiset(trips)
  {
    SortBy(trips, Le(field, order))
  }

  predicate DatesParse(trips: seq<Trip>)
  {
    forall t :: t in trips ==> LocalDateOf(t.date).Some?
  }

  /** Two parsed dates compare by their difference in days. */
  lemma DateCompare(a: Trip, b: Trip, order: SortOrder)
    requires LocalDateOf(a.date).Some? && LocalDateOf(b.date).Some?
    ensures var k := (DayNumber(LocalDateOf(a.date).value) - DayNumber(LocalDateOf(b.date).value)) as real;
            Compare(a, b, "date", order) == if order == Asc then k else -k
  {
  }

  /** Two values of a numeric column compare by their difference. */
  lemma NumericCompare(a: Trip, b: Trip, field: string, order: SortOrder)
    requires field in {"distance", "fuelConsumption", "fuelPrice", "earnings"}
    ensures var k := NumericField(a, field).value - NumericField(b, field).value;
            Compare(a, b, field, order) == if order == Asc then k else -k
  {
  }

  lemma DateComparatorPreorder(trips: seq<Trip>, order: SortOrder)
    requires DatesParse(trips)
    ensures PreorderOn(Le("date", order), trips)
  {
    var le := Le("date", order);
    forall x, y | x in trips && y in trips
      ensures le(x, y) || le(y, x)
    {
      DateCompare(x, y, order);
      DateCompare(y, x, order);
    }
    forall x, y, z | x in trips && y in trips && z in trips && le(x, y) && le(y, z)
      ensures le(x, z)
    {
      DateCompare(x, y, order);
      DateCompare(y, z, order);
      DateCompare(x, z, order);
    }
  }

  lemma NumericComparatorPreorder(trips: seq<Trip>, field: string, order: SortOrder)
    requires field in {"distance", "fuelConsumption", "fuelPrice", "earnings"}
    ensures PreorderOn(Le(field, order), trips)
  {
    var le := Le(field, order);
    forall x, y | x in trips && y in trips
      ensures le(x, y) || le(y, x)
    {
      NumericCompare(x, y, field, order);
      NumericCompare(y, x, field, order);
    }
    forall x, y, z | x in trips && y in trips && z in trips && le(x, y) && le(y, z)
      ensures le(x, z)
    {
      NumericCompare(x, y, field, order);
      NumericCompare(y, z, field, order);
      NumericCompare(x, z, field, order);
    }
  }

  /** Sorting by date orders the trips by the calendar date their `dd/MM/yyyy`
      text names, oldest first or newest first. */
  lemma SortByDateOrders(trips: seq<Trip>, order: SortOrder)
    requires DatesParse(trips)
    ensures var r := SortTrips(trips, "date", order);
            forall i, j :: 0 <= i < j < |r| ==>
              LocalDateOf(r[i].date).Some? && LocalDateOf(r[j].date).Some? &&
              (order == Asc ==> DateLe(LocalDateOf(r[i].date).value, LocalDateOf(r[j].date).value)) &&
              (order == Desc ==> DateLe(LocalDateOf(r[j].date).value, LocalDateOf(r[i].date).value))
  {
    var r := SortTrips(trips, "date", order);
    DateComparatorPreorder(trips, order);
    SortBySorted(trips, Le("date", order), trips);
    forall t | t in r
      ensures t in trips
    {
      assert t in multiset(r);
    }
    forall i, j | 0 <= i < j < |r|
      ensures LocalDateOf(r[i].date).Some? && LocalDateOf(r[j].date).Some?
      ensures order == Asc ==> DateLe(LocalDateOf(r[i].date).value, LocalDateOf(r[j].date).value)
      ensures order == Desc ==> DateLe(LocalDateOf(r[j].date).value, LocalDateOf(r[i].date).value)
    {
      assert r[i] in r && r[j] in r;
      DateOrderPair(r[i], r[j], order);
    }
  }

  /** One pair the date comparator puts in order is in calendar order. */
  lemma DateOrderPair(a: Trip, b: Trip, order: SortOrder)
    requires LocalDateOf(a.date).Some? && LocalDateOf(b.date).Some?
    requires Le("date", order)(a, b)
    ensures order == Asc ==> DateLe(LocalDateOf(a.date).value, LocalDateOf(b.date).value)
    ensures order == Desc ==> DateLe(LocalDateOf(b.date).value, LocalDateOf(a.date).value)
  {
    var da, db := LocalDateOf(a.date).value, LocalDateOf(b.date).value;
    DateCompare(a, b, order);
    DayNumberMonotone(da, db);
    DayNumberMonotone(db, da);
  }

  /** Sorting by a numeric column orders the trips by that column's value. */
  lemma SortByNumberOrders(trips: seq<Trip>, field: string, order: SortOrder, i: int, j: int)
    requires field in {"distance", "fuelConsumption", "fuelPrice", "earnings"}
    requires 0 <= i < j < |SortTrips(trips, field, order)|
    ensures var r := SortTrips(trips, field, order);
            var x, y := NumericField(r[i], field).value, NumericField(r[j], field).value;
            (order == Asc ==> x <= y) && (order == Desc ==> y <= x)
  {
    NumericComparatorPreorder(trips, field, order);
    SortBySorted(trips, Le(field, order), trips);
    var r := SortTrips(trips, field, order);
    assert Le(field, order)(r[i], r[j]);
    NumericCompare(r[i], r[j], field, order);
  }

  /** A column without numbers compares every pair as equal, so the list keeps
      its order. */
  lemma TextFieldKeepsOrder(trips: seq<Trip>, field: string, order: SortOrder)
    requires field != "date" && field !in {"distance", "fuelConsumption", "fuelPrice", "earnings"}
    ensures SortTrips(trips, field, order) == trips
  {
    SortByAllTies(trips, Le(field, order));
  }

  const ItemsPerPage: nat := 10

  /** `Array.prototype.slice` index clamping: negative counts from the end. */
  function SliceIndex(i: int, n: nat): (k: nat)
    ensures k <= n
    ensures 0 <= i <= n ==> k == i
  {
    if i < 0 then (if n + i < 0 then 0 else n + i) else if i > n then n else i
  }

  function Slice<T>(s: seq<T>, start: int, end: int): (r: seq<T>)
    ensures 0 <= start <= end ==> |r| <= end - start
  {
    var a, b := SliceIndex(start, |s|), SliceIndex(end, |s|);
    if a < b then s[a..b] else []
  }

  function Min(a: int, b: int): int
  {
    if a < b then a else b
  }

  /** `paginatedTrips`: page `p` holds the items at [(p-1)*10, p*10), cut at the end. */
  function Page<T>(s: seq<T>, p: int): (r: seq<T>)
    ensures p >= 1 ==> |r| <= ItemsPerPage
    ensures p >= 1 ==> r == s[Min((p - 1) * ItemsPerPage, |s|)..Min(p * ItemsPerPage, |s|)]
  {
    Slice(s, (p - 1) * ItemsPerPage, p * ItemsPerPage)
  }

  /** `Math.ceil(n / 10)`. */
  function TotalPages(n: nat): (k: nat)
    ensures k == 0 <==> n == 0
    ensures k > 0 ==> (k - 1) * ItemsPerPage < n <= k * ItemsPerPage
  {
    (n + ItemsPerPage - 1) / ItemsPerPage
  }

  /** Pages 1..k one after the other. */
  function Pages<T>(s: seq<T>, k: nat): seq<T>
  {
    if k == 0 then [] else Pages(s, k - 1) + Page(s, k)
  }

  /** The first k pages are the first k*10 items, no more and no fewer. */
  lemma {:induction false} PagesArePrefix<T>(s: seq<T>, k: nat)
    ensures Pages(s, k) == s[..Min(k * ItemsPerPage, |s|)]
  {
    if k > 0 {
      PagesArePrefix(s, k - 1);
      var a, b := Min((k - 1) * ItemsPerPage, |s|), Min(k * ItemsPerPage, |s|);
      assert s[..a] + s[a..b] == s[..b];
    }
  }

  /** The pages together list every item once, in order; pages past the last are empty. */
  lemma PagesCoverList<T>(s: seq<T>, p: int)
    ensures Pages(s, TotalPages(|s|)) == s
    ensures p > TotalPages(|s|) ==> Page(s, p) == []
  {
    PagesArePrefix(s, TotalPages(|s|));
  }

  /** The "showing a to b of n" footer: on a page with rows, a and b are the
      one-based positions of its first and last row; past the last page a > b. */
  function Footer<T>(s: seq<T>, p: int): (r: (int, int, nat))
    requires p >= 1
    ensures r.1 == Min(p * ItemsPerPage, |s|) && r.2 == |s|
    ensures (p - 1) * ItemsPerPage < |s| ==>
              |Page(s, p)| == r.1 - r.0 + 1 && Page(s, p)[0] == s[r.0 - 1] && Page(s, p)[|Page(s, p)| - 1] == s[r.1 - 1]
    ensures (p - 1) * ItemsPerPage >= |s| ==> Page(s, p) == [] && r.0 > r.1
  {
    ((p - 1) * ItemsPerPage + 1, Min(p * ItemsPerPage, |s|), |s|)
  }

  /** `Página {currentPage} de {totalPages || 1}`. */
  function PageLabelTotal(n: nat): (k: nat)
    ensures k >= 1 && (n > 0 ==> k == TotalPages(n))
  {
    if TotalPages(n) == 0 then 1 else TotalPages(n)
  }

  /** `calculateNetEarnings`: the row's net earnings, the backend's rule. */
  function NetEarnings(t: Trip): (r: real)
    requires t.fuelConsumption != 0.0
    ensures (t.earnings - r) * t.fuelConsumption == t.distance * t.fuelPrice
    ensures t.distance > 0.0 && t.fuelConsumption > 0.0 && t.fuelPrice > 0.0 ==> r < t.earnings
  {
    var litersUsed := t.distance / t.fuelConsumption;
    var fuelCost := litersUsed * t.fuelPrice;
    t.earnings - fuelCost
  }

  /** The list shows the net earnings the backend would store for the same numbers. */
  lemma NetEarningsMatchesBackend(t: Trip, input: TripDerivation.TripInput)
    requires t.fuelConsumption != 0.0
    requires input.distance == t.distance && input.fuelConsumption == t.fuelConsumption
    requires input.fuelPrice == t.fuelPrice && input.earnings == t.earnings
    ensures NetEarnings(t) == TripDerivation.Derive(input).netEarnings
  {
  }

  /** The list's view state. */
  class HistoryView {
    const trips: seq<Trip>
    var searchTerm: string
    var currentPage: int
    var sortField: string
    var sortOrder: SortOrder

    ghost predicate Valid()
      reads this
    {
      currentPage >= 1
    }

    constructor(trips: seq<Trip>)
      ensures Valid()
      ensures this.trips == trips && searchTerm == "" && currentPage == 1
      ensures sortField == "date" && sortOrder == Desc
    {
      this.trips := trips;
      searchTerm := "";
      currentPage := 1;
      sortField := "date";
      sortOrder := Desc;
    }

    function SortedTrips(): seq<Trip>
      reads this`searchTerm, this`sortField, this`sortOrder
    {
      SortTrips(Search(trips, searchTerm), sortField, sortOrder)
    }

    function PageCount(): nat
      reads this`searchTerm, this`sortField, this`sortOrder
    {
      TotalPages(|SortedTrips()|)
    }

    /** The rows on screen. */
    function Visible(): (r: seq<Trip>)
      reads this
      requires Valid()
      ensures |r| <= ItemsPerPage
      ensures forall t :: t in r ==> t in trips
    {
      var r := Page(SortedTrips(), currentPage);
      forall t | t in r
        ensures t in trips
      {
        assert t in multiset(SortedTrips());
      }
      r
    }

    /** Typing in the search box; the current page is kept. */
    method SetSearchTerm(term: string)
      requires Valid()
      modifies this
      ensures Valid()
      ensures searchTerm == term
      ensures currentPage == old(currentPage) && sortField == old(sortField) && sortOrder == old(sortOrder)
    {
      searchTerm := term;
    }

    /** `handleSort`: the same column flips the order, another column sorts it ascending. */
    method HandleSort(field: string)
      requires Valid()
      modifies this
      ensures Valid()
      ensures old(sortField) == field ==> sortField == field && sortOrder == Flip(old(sortOrder))
      ensures old(sortField) != field ==> sortField == field && sortOrder == Asc
      ensures searchTerm == old(searchTerm) && currentPage == old(currentPage)
    {
      if sortField == field {
        sortOrder := Flip(sortOrder);
      } else {
        sortField := field;
        sortOrder := Asc;
      }
    }

    /** The order button. */
    method ToggleOrder()
      requires Valid()
      modifies this
      ensures Valid()
      ensures sortOrder == Flip(old(sortOrder))
      ensures searchTerm == old(searchTerm) && currentPage == old(currentPage) && sortField == old(sortField)
    {
      sortOrder := Flip(sortOrder);
    }

    /** The previous-page button: disabled on page 1, never below 1. */
    method PreviousPage()
      requires Valid()
      modifies this
      ensures Valid()
      ensures currentPage == if old(currentPage) - 1 > 1 then old(currentPage) - 1 else 1
      ensures searchTerm == old(searchTerm) && sortField == old(sortField) && sortOrder == old(sortOrder)
    {
      if currentPage != 1 {
        currentPage := if currentPage - 1 > 1 then currentPage - 1 else 1;
      }
    }

    /** The next-page button: disabled on the last page and when there is no
        page; otherwise one page on, never past the last. */
    method NextPage()
      requires Valid()
      modifies this
      ensures Valid()
      ensures old(currentPage) == old(PageCount()) || old(PageCount()) == 0 ==> currentPage == old(currentPage)
      ensures old(currentPage) != old(PageCount()) && old(PageCount()) != 0 ==>
                currentPage == Min(old(currentPage) + 1, old(PageCount()))
      ensures currentPage <= PageCount() || currentPage == old(currentPage)
      ensures searchTerm == old(searchTerm) && sortField == old(sortField) && sortOrder == old(sortOrder)
    {
      var total := PageCount();
      if !(currentPage == total || total == 0) {
        currentPage := Min(currentPage + 1, total);
      }
    }
  }
}
