# DriverDash trip logic, modelled in Dafny

DriverDash ("app-motorista") is a web application for ride-hailing and delivery
drivers. A driver records each trip: date, distance, the car's fuel
consumption (km per litre), the fuel price, start and end time, and gross
earnings. From these the application derives:

- the litres used;
- the fuel cost;
- the time worked, where a shift that crosses midnight wraps once;
- the net earnings;
- net earnings per kilometre and per hour.

It then shows the trips in several places:

- a dashboard with period totals, a per-day chart and the five most recent trips;
- a sortable, searchable, paginated history;
- a date-filtered spreadsheet report;
- an analytics page;
- a fuel-purchase log kept in the browser.

This project models that logic and proves what it promises. The modules:

- `trip_derivation.dfy` (`TripDerivation`): the trips API (`backend/routes/trips.js`).
  - The derivation is done on create and on update.
  - It parses `HH:MM` times and applies the midnight rule.
  - Per-km and per-hour rates are partial.
  - The API formats rows for listing.
  - Lookups are scoped to (id, user), with the 404 path as an error result.
  - Update and delete act over the stored table.
- `register_form.dfy` (`RegisterForm`): the trip form (`src/components/register/RegisterForm.tsx`).
  - Its field rules are a set of error messages.
  - The time rules and the calculation summary shown on submit are tied to the backend's derivation.
- `dashboard.dfy` (`Dashboard`): the dashboard endpoint (`backend/routes/dashboard.js`).
  - The period filter is today / from the Sunday of this week / from the 1st of this month.
  - SQL `SUM`s return NULL for no rows, and the code coalesces them to 0.
  - The averages are guarded.
  - The per-day chart is `GROUP BY trip_date ORDER BY trip_date`.
  - The recent trips are `ORDER BY trip_date DESC, created_at DESC LIMIT 5`.
- `trip_history.dfy` (`TripHistory`): the history page (`src/components/history/TripHistory.tsx`).
  - Pure functions cover search, the ECMAScript sort comparator, pagination and the footer.
  - The class `HistoryView` holds the page's state (search term, page, sort field and order) with its event handlers.
- `reports.dfy` (`Reports`): the reports page (`src/pages/Reports.tsx`).
  - The date filter is inclusive.
  - An empty period yields "no data" instead of an export.
  - The export rows and the summary card agree.
- `analytics.dfy` (`Analytics`): the analytics page (`src/pages/Analytics.tsx`): the range filter, the totals, the guarded ratios and the chart series.
- `fuel_log.dfy` (`FuelLog`): the fuel page (`src/pages/Fuel.tsx`).
  - The class `FuelPage` holds the form fields, the saved records and the record being edited.
  - The automatic total is kept as an invariant of that class.
  - Submit appends a record or replaces one by id; delete removes by id.
  - The weekend flag is derived from the saved date.

Supporting modules:

- `Calendar`: the proleptic Gregorian calendar, with day numbers, weekdays and day shifting.
- `Text`: the JavaScript string and number readers that the code relies on: `split`, `parseInt`, `Number`, `parseFloat` on unsigned decimal text, ASCII `toLowerCase` and `includes`.
- `DateText`: `dd/MM/yyyy` (pt-BR) and `yyyy-MM-dd` text; `new Date(y, m - 1, d)`, including its rollover and two-digit years.
- `Seqs`: filter, sum, a stable sort and `LIMIT`.
- `Options`: an option type.

Modelling choices:

- Money and distances are `real`. Minutes are `int`.
- A result that JavaScript would make `NaN` or `Infinity` is modelled as `None`.
- JavaScript's `%` takes the sign of the dividend. It is written out as `TripDerivation.JsRem`.

Behaviours of the code worth noting:

- The dashboard's week and month filters are bounded below only (`trip_date >= first day`). Trips dated after today are counted. No upper bound of "today" is applied.
- The dashboard chart has one row per date that *has* trips (SQL `GROUP BY`). Days without trips are not filled with zeros.
- The analytics page computes a trip's fuel cost as `fuelConsumption * fuelPrice`. The rest of the application computes `distance / fuelConsumption * fuelPrice`. `Analytics.FuelCostDiffersFromBackend` exhibits the difference.
- The per-trip per-hour rate for a zero-minute trip, and the per-km rate for a zero distance, are not computed by the code. They are modelled as `None`. The period averages fall back to 0, as the code does.

## Model

| member | source | states |
|---|---|---|
| TripDerivation.ClockOfText | backend/routes/trips.js:36-37 | reading `H:M` with `Number` on each side of the colon gives non-negative hours and minutes; a missing piece, or one that is not all digits, gives no time |
| TripDerivation.ClockOfFormat | backend/routes/trips.js:36-37 | every valid clock time written as `HH:MM` reads back as itself |
| TripDerivation.WorkedMinutesWithinDay | backend/routes/trips.js:38-39 | for valid times the worked minutes lie in [0, 1440) and are the unique such count that carries the start time to the end time on a 24-hour clock |
| TripDerivation.SameTimeWorksNothing | backend/routes/trips.js:38-39 | equal start and end times count as 0 minutes, never 1440 |
| TripDerivation.MidnightExample | backend/routes/trips.js:38-39 | a 22:00 to 02:00 shift is 240 minutes |
| TripDerivation.Derive | backend/routes/trips.js:32-42 | litres used times consumption is the distance; fuel cost times consumption is distance times price; net plus fuel cost is gross; with positive inputs the fuel cost is positive and net is below gross |
| TripDerivation.FuelExample | backend/routes/trips.js:32-42 | 100 km at 10 km/l and 5 per litre with 150 gross gives 10 l, cost 50, net 100 and 1 per km |
| TripDerivation.LossMakingTrip | backend/routes/trips.js:42 | a trip whose fuel costs more than it earned is stored with negative net earnings (10 gross gives -40), not rejected |
| TripDerivation.JsRem | backend/routes/trips.js:60 | JavaScript's remainder: below the divisor in magnitude, with the sign of the dividend |
| TripDerivation.SplitMinutes | backend/routes/trips.js:60 | for a non-negative minute count, hours times 60 plus the minutes is the count and the minutes are below 60 |
| TripDerivation.PerKm | backend/routes/trips.js:62 | a rate exists exactly when the distance is non-zero, and rate times distance is the net earnings |
| TripDerivation.PerHour | backend/routes/trips.js:63 | a rate exists exactly when the minutes are non-zero, and rate times hours worked is the net earnings |
| TripDerivation.Calculate | backend/routes/trips.js:54-64 | the create response carries the derived figures, the hours/minutes split and both rates; for valid times the per-hour rate is missing exactly when start equals end |
| TripDerivation.CreateTrip | backend/routes/trips.js:25-52 | the inserted row keeps the given id, user, timestamp and input, and its derived columns are the derivation of its input |
| TripDerivation.UpdateTrip | backend/routes/trips.js:181-211 | the updated row keeps id, user and creation time, takes the new input and has consistent derived columns |
| TripDerivation.UpdateMatchesCreate | backend/routes/trips.js:181-198 | an update stores exactly the row a create with the same input and identity would store |
| TripDerivation.OfUser | backend/routes/trips.js:77-80 | a record is kept exactly when it belongs to the user |
| TripDerivation.ByDateDescPreorder | backend/routes/trips.js:78 | ordering by trip date descending is total and transitive |
| TripDerivation.SelectUserTrips | backend/routes/trips.js:77-80 | the listing is a permutation of the user's trips with dates from newest to oldest |
| TripDerivation.FormatTrip | backend/routes/trips.js:83-102 | the row's `dd/MM/yyyy` date reads back as the stored date; earnings, net and both rates come from the record; the hours label splits the minutes exactly |
| TripDerivation.ListTrips | backend/routes/trips.js:77-103 | one formatted row per trip of the user, in the listing's order |
| TripDerivation.ListTripsNewestFirst | backend/routes/trips.js:78-89 | the rows' dates, read back, run from newest to oldest |
| TripDerivation.FindTrip | backend/routes/trips.js:118-127 | a found record is in the table with the requested id and user; nothing is found (404) exactly when no record has both |
| TripDerivation.UpdateTrips | backend/routes/trips.js:171-211 | 404 exactly when the trip is not the user's; otherwise the same number of rows, the matching one updated and every other unchanged |
| TripDerivation.DeleteTrips | backend/routes/trips.js:237-250 | 404 exactly when the trip is not the user's; otherwise the table shrinks and keeps exactly the rows that do not match, in their order and with their multiplicities |
| RegisterForm.Errors | src/components/register/RegisterForm.tsx:25-46 | the messages shown name exactly the fields that break their rule, and there are none exactly when the form is valid |
| RegisterForm.AcceptedParses | src/components/register/RegisterForm.tsx:25-46 | every number the corrected rules accept is read by `parseFloat` as the very value the rule checked: the three trip figures positive, earnings non-negative |
| RegisterForm.EmptyEarningsPassAsWritten | src/components/register/RegisterForm.tsx:43-45 | the earnings rule as written accepts an empty field, which the corrected rule rejects and `parseFloat` cannot read |
| RegisterForm.FormClockOf | src/components/register/RegisterForm.tsx:80-83 | `parseInt` on both sides of the colon gives non-negative hours and minutes, or no time |
| RegisterForm.FormClockOfFormat | src/components/register/RegisterForm.tsx:80-83 | the form's reader and the server's reader agree on every `HH:MM` time |
| RegisterForm.FormWorkedMinutesAgrees | src/components/register/RegisterForm.tsx:84-86 | the form's midnight rule gives the server's worked minutes for every pair of times |
| RegisterForm.SummaryOf | src/components/register/RegisterForm.tsx:76-97 | per-km times distance is net; fuel cost times consumption is distance times price; net plus cost is gross; cost is positive and net below gross |
| RegisterForm.ReadNumbers | src/components/register/RegisterForm.tsx:69-73 | on any form the rules as written accept, `parseFloat` reads the three positive fields as the numbers the rules checked, and reads the earnings exactly when the text is not empty |
| RegisterForm.FuelCostOf | src/components/register/RegisterForm.tsx:76-77 | the fuel cost times the consumption is the distance times the price, and it is positive for positive figures |
| RegisterForm.ToastFrom | src/components/register/RegisterForm.tsx:76-97 | the time is shown exactly when the minutes are read; the net and per-km figures exactly when the earnings are read, and then net plus fuel cost is the earnings and the per-km figure is the net over the distance; the time is the exact hours/minutes split of the minutes read; the per-hour figure only when both are read |
| RegisterForm.OnSubmit | src/components/register/RegisterForm.tsx:66-111 | on every form the rules as written accept, the message is shown with the fuel cost of the read figures; the time is a number exactly when both times parse; the net and per-km figures exactly when the earnings text is not empty; the time shown is the exact split of the form's worked minutes, and the per-km figure is the net over the distance read; the per-hour figure only when both hold |
| RegisterForm.OnSubmitShowsSummary | src/components/register/RegisterForm.tsx:66-111 | when every text reads as a number, the message shows exactly the summary of the handler's arithmetic |
| RegisterForm.EmptyEarningsToast | src/components/register/RegisterForm.tsx:43-45 | with the earnings left empty, the rules as written pass the form and the message shows no net earnings and no rates, while the time depends only on the two time texts |
| RegisterForm.SummaryMatchesBackend | src/components/register/RegisterForm.tsx:69-97 | the summary the form shows has the same net, fuel cost, worked minutes and rates as the server's response for the same trip |
| Calendar.DateLeIsTotalOrder | backend/routes/dashboard.js:64 | comparing dates is reflexive, total, antisymmetric and transitive |
| Calendar.DayNumberMonotone | src/components/history/TripHistory.tsx:92 | a date's day count orders dates as the calendar does, and equal counts mean equal dates |
| Calendar.ShiftDays | backend/routes/dashboard.js:19 | moving a date by k days (with month and year rollover) gives a valid date k days away |
| Calendar.WeekdayAfterShift | backend/routes/dashboard.js:19 | moving k days moves the weekday by k modulo 7 |
| Calendar.WeekStart | backend/routes/dashboard.js:18-19 | the week start is a valid date, not after today, as many days back as today's weekday number |
| Calendar.WeekStartIsSunday | backend/routes/dashboard.js:18-19 | the week starts on a Sunday |
| Calendar.WeekStartOnSunday | backend/routes/dashboard.js:18-19 | the week starts today exactly when today is a Sunday |
| Calendar.WeekStartIsMostRecentSunday | backend/routes/dashboard.js:18-19 | no day after the week start up to today is a Sunday |
| Calendar.MonthStart | backend/routes/dashboard.js:21 | the month start is the 1st of today's month and year, not after today |
| Calendar.WeekdayExample | backend/routes/dashboard.js:19 | 14 October 2026 is a Wednesday (day 3) |
| Calendar.WeekStartExample | backend/routes/dashboard.js:18-19 | the week of 14 October 2026 starts on Sunday 11 October |
| DateText.LocalDate | src/components/history/TripHistory.tsx:82-86 | `new Date(y, m - 1, d)` always yields a valid date (out-of-range months and days roll over), and when the year (0 to 99 meaning 1900 to 1999), month and day name a real day it is exactly that day |
| DateText.LocalDateRollsOver | src/components/history/TripHistory.tsx:82-86 | day 0 of March 2024 is 29 February 2024 |
| DateText.LocalDateOf | src/components/history/TripHistory.tsx:82-91 | whatever date the `dd/MM/yyyy` reader yields is valid |
| DateText.LocalDateOfFormat | backend/routes/trips.js:89 | every date from year 100 on, written by the pt-BR formatter, reads back as itself |
| DateText.LocalDateOfShortYear | src/components/history/TripHistory.tsx:82-86 | a saved year 50 reads back as 1950 |
| DateText.ParseIsoDate | src/pages/Reports.tsx:49-50 | whatever `yyyy-MM-dd` date is read is valid with a four-digit year |
| DateText.ParseIsoOfFormat | src/pages/Reports.tsx:49-50 | every four-digit-year date written as `yyyy-MM-dd` reads back as itself |
| Text.Split | backend/routes/trips.js:36 | `split` returns at least one piece |
| Text.SplitAtSeparator | backend/routes/trips.js:36 | text before the first separator is the first piece, the rest is split again |
| Text.ParseInt | src/components/register/RegisterForm.tsx:82 | `parseInt` reads a number exactly when the text starts with a digit |
| Text.ParseIntOfDigits | src/components/register/RegisterForm.tsx:82 | on all-digit text `parseInt` gives its decimal value |
| Text.NumberOf | src/components/register/RegisterForm.tsx:29-45 | `Number("")` is 0; other text is a number only when it is entirely a decimal numeral, and then it is what `parseFloat` reads |
| Text.ParseFloat | src/components/register/RegisterForm.tsx:70-73 | `parseFloat` of unsigned decimal text is never negative |
| Text.NumberAndParseFloat | src/components/register/RegisterForm.tsx:43-45 | `Number` and `parseFloat` agree on non-empty numerals and disagree on the empty text (0 against NaN) |
| Text.ParseFloatOfNat | backend/routes/trips.js:26-29 | both readers read a written natural number back as its value |
| Text.ToLower | src/components/history/TripHistory.tsx:77 | lower-casing keeps the length and maps exactly the ASCII capitals to small letters |
| Text.ContainsOccurs | src/components/history/TripHistory.tsx:77 | when `includes` holds, the needle occurs at some position |
| Text.OccursContains | src/components/history/TripHistory.tsx:77 | when the needle occurs at some position, `includes` holds |
| Text.ContainsEmpty | src/components/history/TripHistory.tsx:77 | every text includes the empty text |
| Seqs.Filter | src/components/history/TripHistory.tsx:76-78 | the result holds exactly the elements passing the test, each as often as in the input |
| Seqs.FilterIsSubsequence | src/pages/Reports.tsx:53-57 | a filter keeps the order of what it keeps |
| Seqs.SortBy | src/components/history/TripHistory.tsx:80 | sorting returns a permutation of its input |
| Seqs.SortBySorted | src/components/history/TripHistory.tsx:80 | with a consistent comparator the sorted sequence is ordered by it |
| Seqs.SortByAllTies | src/components/history/TripHistory.tsx:102 | a comparator that ties every pair leaves the order unchanged (the sort is stable) |
| Seqs.Take | backend/routes/dashboard.js:73 | `LIMIT n` keeps a prefix of length min(n, count) |
| Seqs.TakeOfSortedIsTop | backend/routes/dashboard.js:72-73 | the rows kept by a limit over a sorted listing come before every row left out |
| Dashboard.FilterFor | backend/routes/dashboard.js:23-35 | "month" filters from the 1st of the month, "day" on today only, and anything else, absent included, from the week's Sunday |
| Dashboard.DayWithinWeekAndMonth | backend/routes/dashboard.js:23-35 | a trip in the day period is also in the week and month periods |
| Dashboard.WeekFilterFromSunday | backend/routes/dashboard.js:24-25 | the week period holds exactly the dates from the week's Sunday on, with no upper bound |
| Dashboard.Selected | backend/routes/dashboard.js:47-48 | a trip is selected exactly when it is the user's and its date passes the period filter |
| Dashboard.SqlSums | backend/routes/dashboard.js:39-50 | the SQL sums are NULL exactly when no row is selected, and otherwise the column totals |
| Dashboard.Summarize | backend/routes/dashboard.js:103-121 | totals are the column sums (0 for no rows); the trip count is the row count; each average is net over hours or distance when that is positive, else 0; the hours label splits the minutes exactly |
| Dashboard.EmptyPeriodIsZero | backend/routes/dashboard.js:113-120 | a period without trips reports all zeros, not an error |
| Dashboard.AddTripDates | backend/routes/dashboard.js:63 | adding a trip to the group rows adds its date and no other |
| Dashboard.AddTripAscending | backend/routes/dashboard.js:64 | adding a trip keeps the rows in strictly increasing date order |
| Dashboard.AddTripLookup | backend/routes/dashboard.js:54-63 | adding a trip adds its figures to its own date's row and to no other |
| Dashboard.AddTripSum | backend/routes/dashboard.js:54-63 | adding a trip adds its figures to the sum of all rows |
| Dashboard.LookupAbsent | backend/routes/dashboard.js:63-64 | a date before the first of strictly ascending rows has no row, so zero totals |
| Dashboard.ChartRowsGroup | backend/routes/dashboard.js:53-66 | the chart rows ascend strictly by date; a row exists exactly for each date that has a trip; each date's row holds the sums over that date's trips; all rows together sum to the period totals |
| Dashboard.ChartRowTotals | backend/routes/dashboard.js:53-66 | every chart row holds the totals of the trips of its own date |
| Dashboard.FormatDayMonth | backend/routes/dashboard.js:94 | the chart label is `dd/MM`: two digits that read as the day, a slash, and two digits that read as the month |
| Dashboard.FormatChartRow | backend/routes/dashboard.js:93-100 | a chart point carries its row's earnings, expenses (fuel cost), net, distance and minutes, with its date's `dd/MM` label |
| Dashboard.ByRecencyPreorder | backend/routes/dashboard.js:72 | ordering by trip date descending, then creation time descending, is total and transitive |
| Dashboard.RecentTrips | backend/routes/dashboard.js:69-75 | at most five recent trips: five when the user has at least five, otherwise as many as the user has (which trips they are is stated by `Dashboard.RecentTripsAreLatest`) |
| Dashboard.RecentTripsAreLatest | backend/routes/dashboard.js:69-75 | the recent trips are the user's, newest first by date then creation time, and no trip left out is more recent than one shown; no trip is repeated (their multiset is within the user's trips), and a user with at most five trips gets exactly all of them |
| Dashboard.FormatRecent | backend/routes/dashboard.js:78-91 | a recent row's date reads back as the trip's date and its hours label splits the minutes exactly; the other figures are the stored ones |
| Dashboard.DashboardSummary | backend/routes/dashboard.js:111-124 | the response's summary is the summary of the selected trips; its chart points are the chart rows formatted one by one; its recent rows are at most five, formatted from the recent trips |
| Dashboard.ChartMatchesSummary | backend/routes/dashboard.js:39-66 | the chart rows sum to the summary's totals for the same period |
| TripHistory.Search | src/components/history/TripHistory.tsx:76-78 | a trip is shown exactly when its date text contains the search term, ignoring ASCII case; nothing is duplicated |
| TripHistory.EmptySearchKeepsAll | src/components/history/TripHistory.tsx:76-78 | an empty search shows every trip in its order |
| TripHistory.NumericField | src/components/history/TripHistory.tsx:95-98 | a sort field has a numeric value exactly for distance, fuel consumption, fuel price and earnings |
| TripHistory.SortTrips | src/components/history/TripHistory.tsx:80-103 | sorting shows the same trips, each as often |
| TripHistory.DateComparatorPreorder | src/components/history/TripHistory.tsx:81-93 | when every date parses, the date comparator is consistent in either order |
| TripHistory.NumericComparatorPreorder | src/components/history/TripHistory.tsx:95-100 | the numeric comparator is consistent in either order |
| TripHistory.SortByDateOrders | src/components/history/TripHistory.tsx:81-93 | when every date parses, sorting by date ascending (descending) lists dates oldest (newest) first |
| TripHistory.SortByNumberOrders | src/components/history/TripHistory.tsx:95-100 | sorting by a numeric field lists its values in increasing (decreasing) order |
| TripHistory.TextFieldKeepsOrder | src/components/history/TripHistory.tsx:102 | a field that is neither the date nor numeric leaves the list in its filtered order |
| TripHistory.SliceIndex | src/components/history/TripHistory.tsx:105-108 | a slice bound is clamped into [0, length] and kept when already inside |
| TripHistory.Slice | src/components/history/TripHistory.tsx:105-108 | a slice is no longer than its bounds allow |
| TripHistory.Page | src/components/history/TripHistory.tsx:105-108 | page p (from 1) holds at most 10 trips, the ones at positions 10(p-1) up to 10p, clamped to the list |
| TripHistory.TotalPages | src/components/history/TripHistory.tsx:110 | zero pages exactly for an empty list; otherwise the least page count whose 10 rows per page hold the whole list |
| TripHistory.PagesArePrefix | src/components/history/TripHistory.tsx:105-110 | the first k pages together are the first 10k trips |
| TripHistory.PagesCoverList | src/components/history/TripHistory.tsx:105-110 | all pages together are the whole list, and a page past the last is empty |
| TripHistory.Footer | src/components/history/TripHistory.tsx:231-233 | the footer names the first and last positions shown and the total; past the end the first position exceeds the last |
| TripHistory.PageLabelTotal | src/components/history/TripHistory.tsx:246 | the page label's total is at least 1 and equals the page count whenever there are trips |
| TripHistory.NetEarnings | src/components/history/TripHistory.tsx:121-125 | gross minus net, times the consumption, is the distance times the price; with positive figures the net is below the gross |
| TripHistory.NetEarningsMatchesBackend | src/components/history/TripHistory.tsx:121-125 | the history's net earnings equal the server's for the same figures |
| TripHistory.HistoryView.constructor | src/components/history/TripHistory.tsx:68-71 | the page opens with an empty search, on page 1, sorted by date descending |
| TripHistory.HistoryView.Visible | src/components/history/TripHistory.tsx:105-108 | at most 10 trips are shown, all of them from the list |
| TripHistory.HistoryView.SetSearchTerm | src/components/history/TripHistory.tsx:136-137 | typing changes the search term only; the page number is kept |
| TripHistory.HistoryView.HandleSort | src/components/history/TripHistory.tsx:112-119 | choosing the current field flips the order; choosing another field sorts by it ascending |
| TripHistory.HistoryView.ToggleOrder | src/components/history/TripHistory.tsx:168 | the order button flips the order and nothing else |
| TripHistory.HistoryView.PreviousPage | src/components/history/TripHistory.tsx:239-240 | the previous page is one back but never below 1 |
| TripHistory.HistoryView.NextPage | src/components/history/TripHistory.tsx:252-254 | the button does nothing on the last page or with no pages; otherwise the page moves on by one, capped at the last page |
| Reports.FilterTrips | src/pages/Reports.tsx:46-58 | with either end empty every trip is kept; otherwise exactly the trips whose date lies in the range, both ends included, in their order, and none when an end is not a date |
| Reports.EndsIncluded | src/pages/Reports.tsx:49-56 | trips dated on the first or the last day of the range are kept |
| Reports.GenerateReport | src/pages/Reports.tsx:60-82 | "no data" exactly when the filter keeps nothing; otherwise one row per kept trip in order |
| Reports.Summarize | src/pages/Reports.tsx:176-192 | the card counts the kept trips and sums their gross and net earnings; an empty period shows zeros |
| Reports.RowSums | src/pages/Reports.tsx:73-82 | the export rows sum to the same gross and net totals as the trips they come from |
| Reports.ExportMatchesSummary | src/pages/Reports.tsx:60-82 | the export exists exactly when the card counts trips, with as many rows and the same totals |
| Analytics.FilteredTrips | src/pages/Analytics.tsx:83-87 | without both range ends every trip is kept; otherwise exactly the trips within the range, both ends included, in their order |
| Analytics.FuelCostDiffersFromBackend | src/pages/Analytics.tsx:92 | for a 200 km trip at 10 km/l and 5 per litre the page counts a fuel cost of 50 while the server stores 100 |
| Analytics.MetricsOf | src/pages/Analytics.tsx:90-96 | totals are the sums over the kept trips; with zero distance every ratio is 0; otherwise ratios are per km, and the fuel efficiency is missing exactly when the consumptions sum to 0 |
| Analytics.ChartOf | src/pages/Analytics.tsx:99-114 | three series as long as the kept trips, index by index their date, earnings and fuel cost |
| Analytics.ChartSumsToMetrics | src/pages/Analytics.tsx:90-114 | the chart's earnings and fuel cost series sum to the page's totals |
| FuelLog.AutoTotal | src/pages/Fuel.tsx:46-53 | there is a total exactly when both price and litres are filled in, and it is their product |
| FuelLog.NewRecord | src/pages/Fuel.tsx:66-73 | the new record takes the form's figures; id and date come from the record being edited when they are non-empty, otherwise from now |
| FuelLog.ReplaceById | src/pages/Fuel.tsx:76-79 | the list keeps its length, with each record having the edited id replaced and every other kept |
| FuelLog.ReplaceKeepsIds | src/pages/Fuel.tsx:76-79 | replacing by id introduces no record with a new id and loses none with another id |
| FuelLog.ReplaceAbsentIsIdentity | src/pages/Fuel.tsx:76-79 | replacing an id no record has changes nothing |
| FuelLog.DeleteById | src/pages/Fuel.tsx:110-111 | exactly the records with another id are kept, in order; deleting an absent id changes nothing |
| FuelLog.IsWeekend | src/pages/Fuel.tsx:121-125 | a weekend flag exists exactly when the date text parses, and it is set exactly for Saturdays and Sundays |
| FuelLog.WeekendOfSavedDate | src/pages/Fuel.tsx:72 | a saved pt-BR date is flagged by its own weekday |
| FuelLog.WeekendExamples | src/pages/Fuel.tsx:121-125 | 11 October 2026 is a weekend day, 14 October 2026 is not |
| FuelLog.FuelPage.constructor | src/pages/Fuel.tsx:29-43 | the page opens with empty fields, etanol selected, no record being edited and the saved records loaded |
| FuelLog.FuelPage.SetPricePerLiter | src/pages/Fuel.tsx:46-53 | entering a price changes the price, and the total follows the price and litres when the price changed |
| FuelLog.FuelPage.SetLiters | src/pages/Fuel.tsx:46-53 | entering litres changes the litres, and the total follows the price and litres when the litres changed |
| FuelLog.FuelPage.SetFuelType | src/pages/Fuel.tsx:172 | choosing the fuel type changes nothing else |
| FuelLog.FuelPage.HandleEdit | src/pages/Fuel.tsx:55-61 | editing loads the record into the form and remembers it; the total shown is the record's own, unless price or litres changed, in which case the automatic total recomputes it; a record whose total is its product always shows that total |
| FuelLog.FuelPage.Submit | src/pages/Fuel.tsx:63-92 | submitting replaces the edited record by id, or appends a new one, then empties the form and ends editing |
| FuelLog.FuelPage.CancelEdit | src/pages/Fuel.tsx:102-108 | cancelling empties the form and ends editing, keeping the records |
| FuelLog.FuelPage.Delete | src/pages/Fuel.tsx:110-113 | deleting removes the records with that id and leaves the form alone |

## Left out

- HTTP routing, authentication (the user id is a parameter), the MySQL connection and its error paths (500 responses), browser local storage and `JSON.parse`, toasts, the XLSX workbook writer and Chart.js rendering: these are I/O and foreign libraries.
- The current time (`new Date()`, `Date.now()`) is a parameter: `today` for the dashboard and the fuel page, `nowId` for a new fuel record, `createdAt` for a trip.
- Time zones. The dashboard turns local dates into `toISOString()` UTC dates, and the reports page reads `yyyy-MM-dd` as UTC midnight but sets the end to local 23:59:59.999. The model works on calendar dates in a single zone.
- `toFixed(2)` rounding and the text the pages display: the model keeps the exact values.
- IEEE floating point. Money is exact `real` arithmetic. Results that are `NaN` or `Infinity` in JavaScript are modelled as `None`.
- Number text with a sign, whitespace or an exponent: `Text.ParseFloat` and `Text.NumberOf` read unsigned decimal numerals only.
- Text.ParseInt: JavaScript's `parseInt` skips leading whitespace and reads a sign (`parseInt(" 5")` is 5, `parseInt("-5")` is -5); the model reads neither. The `HH:MM` text a time input produces never contains them.
- TripDerivation.ClockOfText: reads each side of the colon as digits only. `Number("8.5")` is 8.5 in JavaScript, but the model gives no time for such a piece. A time input never produces one.
- Request bodies. The trips API takes an already-parsed `TripInput`. The `parseFloat` of each body field (backend/routes/trips.js:26-29) lives in the `Text` readers. The server does no validation of its own: it stores whatever `parseFloat` yields, whether zero, negative or NaN. The model starts from numbers that are already parsed.
- TripDerivation.Derive: requires a non-zero fuel consumption. The source divides by it and would store `Infinity`/`NaN`.
- TripHistory.NetEarnings: requires a non-zero fuel consumption, for the same reason.
- The mock trip generator of the history page and the sample data of the reports and analytics pages: they are fixed data, not logic.
- Analytics: the page parses the saved `dd/MM/yyyy` text with `new Date(string)` (src/pages/Analytics.tsx:85 and 100). That parser does not read `dd/MM/yyyy`: in V8, `"14/10/2026"` is an Invalid Date, and `"05/10/2026"` is read as 10 May. The range filter then drops or misplaces trips, and date-fns `format` throws on an Invalid Date when the chart labels are built. The model takes each trip's date as an already-parsed, correct date, so it describes the page as intended, not these failures.
- The form's date field is validated (present) but not used by `onSubmit`. The model keeps it only for validation.
- FuelLog.FuelPage.SetPricePerLiter: the source's effect compares the fields' text. The model compares the entered numbers, so `"5"` and `"5.0"` count as the same value.
- FuelLog.FuelPage.SetLiters: the same holds for the litres field. Typing `"10.0"` over `"10"` reruns the effect in the source but not in the model.
- FuelLog.FuelPage.HandleEdit: whether the effect recomputes the total after an edit depends on the fields' text in the source and on their numbers in the model. If a field held `"10.0"` and the record's value `toString()`s to `"10"`, the source recomputes the total from price and litres; the model keeps the record's own total.
- The history page's filter toggle (`filterOpen`) changes only the button's label and is not modelled.

## Findings

| source | as written | input that shows it | evidently intended | confidence | as-written member | corrected member |
|---|---|---|---|---|---|---|
| src/components/register/RegisterForm.tsx:43-45 | the earnings rule checks `Number(value) >= 0`, and `Number("")` is 0, so an empty earnings field passes validation; `onSubmit` then reads it with `parseFloat`, which gives NaN, so the net earnings, the earnings per km and the earnings per hour become NaN; the fuel cost and the time worked do not depend on earnings and are unaffected (`RegisterForm.EmptyEarningsToast`) | earnings left empty, every other field valid | an empty earnings field is rejected like the other required numbers, so every accepted number is one that `parseFloat` reads | not executed | RegisterForm.EmptyEarningsPassAsWritten | RegisterForm.AcceptedParses |
