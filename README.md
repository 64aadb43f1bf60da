# Taxi management: the business rules, modelled and proved

This project models the rules at the core of a Django taxi-booking back office:

- **Trip money and lifecycle:**
  - a trip's derived amounts (agent revenue, remaining amount, final balance) and the per-kilometre rate rule;
  - finalizing and cancelling a trip, and the guard on rating it;
  - the trip list's status filter and the calendar feed;
  - the invoice figures and the date-filtered trip report;
  - the trip form's date check and the field sets of the three trip forms.
- **The audit pipeline:**
  - the "current user" cell and the middleware that sets and clears it around each request;
  - the signal handlers that append entries to the admin log;
  - the log viewer's split into session logs and action logs.
- **Small pure rules:**
  - the calendar's month fallback, navigation, per-day grouping and statistics;
  - the dashboard's period selection, chart series, revenue totals and top vendors;
  - the vehicle and vendor lookups and list filters;
  - the mail backend's merge of stored SMTP settings over the defaults;
  - the migration that builds the "Staff" permission group.

How the model represents things:

- **Money** is `real`, because the source's `Decimal` fields are exact.
- **Times** are whole seconds (`DateTime`). Calendar days are day numbers; `DateOf` floors to the day.
- **Tables** are sequences, and **query filters** are `Seqs.Filter`.
- **Foreign keys** are embedded values: a trip holds its customer, vehicle and package; a vehicle holds its vendor.
- **Request parameters** are a `Param`: missing, given, or malformed (not a number, not a date).
- **Where the source changes state in place**, the model uses classes:
  - `TripStore`: the trip and rating tables, changed by finalize, cancel and rate;
  - `AuditLog`: the current-user cell and the append-only log;
  - `DbEmailBackend`: the connection settings;
  - `AuthTables`: the groups and their permissions.
- **Loops** the source runs are methods with loop invariants:
  - building the calendar's trip details;
  - the calendar feed;
  - the vehicle dropdown;
  - the middleware's handling of a request;
  - the migration's nested loops.

Modules, one file each:

| module | covers |
|---|---|
| `Base` | shared types and text helpers |
| `Seqs` | filter, sum, sort |
| `Domain` | the entities |
| `TripMoney` | the trip model's properties |
| `TripForms` | the trip forms |
| `TripViews` | the trip views |
| `Reports` | the invoice and the report |
| `Grouping` | grouping by day |
| `Civil` | the civil calendar |
| `CalendarView` | the calendar page |
| `Dashboard` | the dashboard |
| `Auditing` | the current-user cell, the middleware and the signal handlers |
| `AuditViews` | the log viewer |
| `VehicleViews` | the vehicle lookup and list |
| `VendorViews` | the vendor lookup and list |
| `EmailBackend` | the mail backend |
| `StaffGroup` | the migration |

## Model

| member | source | states |
|---|---|---|
| Domain.StatusValueRoundTrip | trips/models.py:24-28 | every one of the four status values reads back as the status it came from |
| Domain.StatusFromValue | trips/models.py:24-28 | a text is recognised as a status only when it is that status's stored value |
| Domain.NewTrip | trips/models.py:35-81 | a trip saved with the model's field defaults is Upcoming, with zero price and advance, no package, extra distance, final payment or vendor price, and both timestamps set to the creation time |
| TripMoney.EffectiveKmRate | trips/models.py:50-54 | the rate is the package's extra charge per km when a package with that charge is set, else the vehicle's price per km |
| TripMoney.FinalBalance | trips/models.py:56-61 | the final balance plus everything paid equals the total price plus the extra distance (0 when unset) times the rate |
| TripMoney.AgentRevenue | trips/models.py:63-68 | the revenue is total price minus vendor price when both are set and non-zero, and 0 otherwise |
| TripMoney.RemainingAmount | trips/models.py:70-72 | the remaining amount plus the advance equals the total price |
| TripMoney.FinalBalanceWithoutDistance | trips/models.py:56-61 | with no extra distance, the final balance is the total price minus what was paid, which is the remaining amount minus the final payment |
| TripMoney.FinalBalanceLinearInDistance | trips/models.py:56-57 | changing the extra distance changes the final balance by the difference times the rate |
| TripForms.CleanTripDate | trips/forms.py:39-45 | the date is rejected with "Trip date cannot be in the past." exactly when it is before now; otherwise it is returned unchanged |
| TripForms.TripFormNamesUnknownFields | trips/forms.py:11-15 | the trip form, as written, lists two payment-option fields the Trip model does not have |
| TripForms.TripFormFieldsExist | trips/forms.py:11-15 | the trip form's other fields all exist on Trip, and none of them is the extra distance or a final-payment field |
| TripForms.FinalizeFormIsDisjoint | trips/forms.py:64 | the finalize form edits only the extra distance and the final payment, shares no field with the trip form, and touches neither price nor status |
| TripForms.RatingFormExcludesLinks | trips/forms.py:75 | the rating form takes stars and comment only, never the trip or the vendor |
| TripViews.Finalized | trips/views.py:204-215 | finalizing adds the extra distance (0 when unset) times the rate to the price, marks the trip Completed, stores the three form fields and changes nothing else |
| TripViews.CancelledTrip | trips/views.py:107-109 | cancelling sets the status to Cancelled and changes nothing else |
| TripViews.FinalizeKeepsRate | trips/views.py:198-202 | finalizing does not change the rate a later finalize or invoice uses |
| TripViews.FinalizeTwiceChargesTwice | trips/views.py:195-215 | finalizing twice adds the extra cost twice, so finalize is not idempotent whenever that cost is non-zero |
| TripViews.NewTripMayNotBeRated | trips/views.py:236 | a trip saved with the model's field defaults is Upcoming, so the rating view turns it away (the trip form may store another status) |
| TripViews.NoStatusGuards | trips/views.py:104-109 | a cancelled trip can be finalized to Completed, and a completed one can be cancelled |
| TripViews.TripList | trips/views.py:25-31 | an empty filter lists every trip; otherwise exactly the trips whose status value equals the filter |
| TripViews.UnknownStatusSelectsNothing | trips/views.py:30-31 | a filter that is not a status value lists no trip |
| TripViews.TripDates | trips/views.py:265-269 | one date per trip: the day of its trip date |
| TripViews.TripFeed | trips/views.py:260-280 | one all-day event per day with trips, in ascending date order, titled "Total Trips: " and that day's count; every trip's day has an event |
| TripViews.TripStore.Finalize | trips/views.py:195-228 | an unknown key is not found; a valid POST stores the finalized trip and redirects; anything else shows the form and changes nothing |
| TripViews.TripStore.Cancel | trips/views.py:104-131 | an unknown key is not found; POST stores the cancelled trip and redirects; GET shows the confirmation and changes nothing |
| TripViews.TripStore.AddRating | trips/views.py:232-257 | a trip that is not Completed or is already rated is refused unchanged; a valid POST appends one rating for this trip and its vehicle's vendor; at most one rating per trip and 1 to 5 stars are kept invariant |
| Reports.Bill | reports/views.py:75-88 | the grand total is always the stored price; with a positive extra distance the base price is the price minus distance times rate, otherwise it is the price with no extra cost; the balance due is the price minus what was paid |
| Reports.GenerateBill | reports/views.py:71-98 | the step-by-step computation yields the invoice `Bill` describes |
| Reports.InvoiceUndoesFinalize | reports/views.py:84-87 | for a non-negative extra distance, the invoice of a finalized trip shows the price before finalizing as its base and the added cost as its extra |
| Reports.InvoiceHidesNegativeDistance | reports/views.py:78 | a negative extra distance lowers the price at finalize, yet the invoice shows no extra cost and a lower base price |
| Reports.FinalBalanceExceedsInvoice | trips/models.py:56-61 | the trip's final balance exceeds the invoice's balance due by exactly the extra distance times the rate |
| Reports.FinalBalanceChargesDistanceTwice | trips/models.py:56-57 | after finalizing, the final balance counts the extra-distance cost twice |
| Reports.OutstandingBalance | reports/views.py:88 | the corrected balance equals the invoice's balance due, that is, the final balance less the extra cost |
| Reports.OutstandingChargesDistanceOnce | reports/views.py:84-88 | after finalizing, the corrected balance counts the extra cost once, and agrees with the final balance exactly when that cost is zero |
| Reports.ReportTrips | reports/views.py:25-31 | a bound that is not a date fails the request; otherwise exactly the trips whose day lies within the given bounds, both inclusive, are kept |
| Reports.EndDateIsInclusive | reports/views.py:29-31 | a trip in the last second of the end day is inside the range, and outside it when the end is one day earlier |
| Reports.Summarize | reports/views.py:34-39 | the count is the number of trips; price and advance sums are the sums over the trips, or null when there are none; the agent-revenue sum is null exactly when no trip has a vendor price |
| Reports.AgentRevenueTotalAgrees | reports/views.py:37 | when every trip has non-zero prices, the report's agent-revenue sum is the sum of the trips' agent revenue |
| Reports.AgentRevenueTotalAppend | reports/views.py:37 | one more trip adds its price less its vendor price to the agent-revenue sum exactly when it has a vendor price, zero included; a trip with a null vendor price leaves the sum as it was |
| Grouping.CountByDay | calendar_app/views.py:26-34 | one entry per distinct day, ascending, each counting that day's occurrences; the counts add up to the number of trips |
| Grouping.MaxCountIsReached | calendar_app/views.py:69 | the largest count is the count of some day, and is 0 exactly when there are no trips |
| Civil.CivilFromDays | calendar_app/views.py:21 | the civil date of a day number has a month in 1..12 and a day in 1..31 |
| Civil.Epoch | calendar_app/views.py:21 | day 0 is 1 January 1970 |
| CalendarView.SelectMonth | calendar_app/views.py:12-18 | a year or month that is not a number resets both to today's; otherwise each given value is used and each missing one is today's |
| CalendarView.MalformedMonthResetsYear | calendar_app/views.py:15-18 | a malformed month discards a valid year as well |
| CalendarView.PrevMonth | calendar_app/views.py:55-58 | January goes back to December of the previous year, any other month to the month before; a valid month's index drops by one |
| CalendarView.NextMonth | calendar_app/views.py:60-63 | December goes on to January of the next year, any other month to the month after; a valid month's index rises by one |
| CalendarView.PrevNextRoundTrip | calendar_app/views.py:55-63 | for a valid month, previous-of-next and next-of-previous give the month back |
| CalendarView.MonthTrips | calendar_app/views.py:21 | a trip is kept exactly when its year and month are the shown ones |
| CalendarView.StatsCountTrips | calendar_app/views.py:66-67 | the total is the number of trips in the month; the active days are the distinct days with a trip |
| CalendarView.BusiestDayBoundsEveryDay | calendar_app/views.py:69 | no day has more trips than the busiest day |
| CalendarView.BusiestDayIsReached | calendar_app/views.py:69 | some day has as many trips as the busiest day; it is 0 exactly when the month has no trips |
| CalendarView.BuildTripDetails | calendar_app/views.py:37-48 | the details have a key for each day with trips, and each lists that day's trips in table order |
| CalendarView.DetailsListEachTripOnce | calendar_app/views.py:37-48 | every trip is listed under its own day and under no other |
| CalendarView.Calendar | calendar_app/views.py:11-87 | a year outside 1 to 9999 fails with the year-out-of-range error, and otherwise a month outside 1 to 12 fails with the bad-month error naming it; otherwise the page holds the shown month, its neighbours, the per-day counts, details and statistics of that month's trips |
| Dashboard.PeriodOf | dashboard/views.py:35-68 | "month" and "year" select those periods and every other value the week |
| Dashboard.PeriodTrips | dashboard/views.py:40-62 | a trip is in the period exactly when it was created no earlier than the window's start |
| Dashboard.DayPoints | dashboard/views.py:46 | the n points are the n days ending today, oldest first |
| Dashboard.YearPointsAsWritten | dashboard/views.py:56 | as written, the year chart's points step back 30 days at a time |
| Dashboard.MonthPointIsDaysBefore | dashboard/views.py:56 | as written, the i-th point is the month of the day 30·i days before today |
| Dashboard.YearPointsRepeatAMonth | dashboard/views.py:56 | on 31 January 2025 the last two year points are both January 2025, and the oldest is March 2024 |
| Dashboard.YearPoints | dashboard/views.py:56-58 | the corrected year points are the twelve calendar months ending with this one, oldest first |
| Dashboard.PointKeys | dashboard/views.py:46-66 | the week's 7 and the month's 30 points are the days ending today, oldest first; the year's 12 points are the months of the days 30·i days back, for i from 11 down to 0 |
| Dashboard.ChartOver | dashboard/views.py:47-66 | each point's value is the number of period trips created at its key, and 0 for a key with no trips |
| Dashboard.Chart | dashboard/views.py:39-68 | the chart as the view draws it: the period's points as written, year included, each with the number of trips created at its key, and 0 for a key with none |
| Dashboard.CorrectedChart | dashboard/views.py:56-58 | the chart with the year's points made of the twelve calendar months ending with the current one; week and month charts are unchanged |
| Dashboard.AgentRevenueTotal | dashboard/views.py:25-28 | with no completed trip the total is 0 |
| Dashboard.AgentRevenueTotalAgrees | dashboard/views.py:25-28 | when the completed trips have non-zero prices, the total is the sum of their agent revenue |
| Dashboard.ZeroVendorPriceCountsFully | dashboard/views.py:25-28 | a completed trip with a vendor price of 0 adds its whole price to the total, though its own agent revenue is 0 |
| Dashboard.PeriodRevenue | dashboard/views.py:71-74 | when every trip is inside the window, the period revenue is the total agent revenue |
| Dashboard.PeriodRevenueAppend | dashboard/views.py:71-74 | one more trip adds its margin exactly when it is completed, has a vendor price and lies in the window; otherwise nothing |
| Dashboard.UpcomingCount | dashboard/views.py:21 | the count is at most the number of trips, and equals it exactly when every trip is Upcoming and not in the past |
| Dashboard.UpcomingCountAppend | dashboard/views.py:21 | no trips count 0, and one more trip adds 1 exactly when it is Upcoming and its date is not in the past |
| Dashboard.Scores | dashboard/views.py:87-90 | every vendor with at least one rating is scored, and only those; each score is that vendor's own score |
| Dashboard.ScoreIsMeanOfStars | dashboard/views.py:87-90 | a score's count is the number of its vendor's ratings, and its average is the mean of their stars |
| Dashboard.AverageInRange | dashboard/views.py:88 | when every rating has 1 to 5 stars, every average lies between 1 and 5 |
| Dashboard.RankScores | dashboard/views.py:90 | the scores are reordered by average, then by number of ratings, both descending, and none is lost |
| Dashboard.RankedPrefixIsTop | dashboard/views.py:90 | every score left out of the first n ranks no higher than each of them |
| Dashboard.TopVendors | dashboard/views.py:87-90 | at most five distinct scores (no score more often than in the scores), ranked; each shown score is a rated vendor's, and every rated vendor left out ranks no higher than each one shown |
| Dashboard.LatestTrips | dashboard/views.py:32 | at most five trips, none more often than in the table, newest first, and no trip left out is newer than one shown |
| Dashboard.DashboardView | dashboard/views.py:16-103 | the page's counts are the table sizes, the chart is the chart as written for the chosen period, and at most five top vendors and latest trips are shown |
| Auditing.BeforeComma | auditing/signals.py:23 | the result is the longest comma-free prefix of the text |
| Auditing.BeforeCommaOfList | auditing/signals.py:23 | a list of addresses yields its first address |
| Auditing.ClientIp | auditing/signals.py:19-26 | with a non-empty forwarding header the address is that header's text before the first comma; otherwise it is the remote address |
| Auditing.ClientIpIsFirstHop | auditing/signals.py:21-23 | for a header "first,rest" the client address is "first" |
| Auditing.SessionEntry | auditing/signals.py:29-61 | a login or logout entry is a change of the user's own row by that user, saying "User logged in" or "out" "from IP address:" and the address |
| Auditing.SaveEntry | auditing/signals.py:64-230 | the entry names the current user and the saved row, and it is an addition exactly when the row was created, a change otherwise, never a deletion |
| Auditing.SaveEntryMessage | auditing/signals.py:138-146 | a created row's message says "was created"; a trip's update says "was cancelled" exactly when its status is Cancelled; every other update says "was updated" |
| Base.NatToStringRoundTrip | auditing/signals.py:140 | the decimal text of a trip id is all digits and reads back as that id |
| Auditing.SaveLog | auditing/signals.py:71-94 | a save adds one entry exactly when the current user is authenticated and the write does not fail, and none otherwise |
| Auditing.SavesLog | auditing/signals.py:71-94 | with no authenticated user nothing is logged; every entry is on a business model and under the current user |
| Auditing.EverySaveLogged | auditing/signals.py:71-94 | with an authenticated user and no failing write, each save is logged once, in order |
| Auditing.AuditLog.SetCurrentUser | auditing/local_user.py:5-15 | the cell then holds the user given, and the log is unchanged |
| Auditing.AuditLog.OnSaved | auditing/signals.py:64-230 | the log grows by exactly the save's entry, if any |
| Auditing.AuditLog.OnPackageDeleted | auditing/signals.py:233-251 | a package deletion by an authenticated user adds a deletion entry "Package '…' was deleted"; otherwise the log is unchanged |
| Auditing.AuditLog.OnLogin | auditing/signals.py:29-43 | a login always adds a "logged in" entry, unless the write itself fails |
| Auditing.AuditLog.OnLogout | auditing/signals.py:46-61 | a logout adds a "logged out" entry only for a present, authenticated user |
| Auditing.AuditLog.HandleRequest | auditing/middleware.py:8-19 | the handler's saves are logged under the request's user; afterwards the cell is empty, whether the handler returned or raised; its outcome is passed on unchanged |
| AuditViews.AllLogs | auditing/views.py:21 | the same entries, newest first |
| AuditViews.SessionLogs | auditing/views.py:24-27 | exactly the entries on the user model whose message contains "logged" in any case, newest first, each as often as the log holds it |
| AuditViews.ActionLogs | auditing/views.py:30 | exactly the entries not on the user model, newest first, each as often as the log holds it |
| AuditViews.SessionAndActionDisjoint | auditing/views.py:24-30 | no entry is both a session log and an action log |
| AuditViews.ActionLogView | auditing/views.py:11-36 | only a superuser gets the page, and it holds the action logs and the session logs |
| AuditViews.SessionEntriesAreSessionLogs | auditing/signals.py:34-42 | every login or logout entry shows among the session logs and not among the action logs |
| AuditViews.SaveEntriesAreActionLogs | auditing/signals.py:82-89 | every entry a save handler writes shows among the action logs and not among the session logs |
| VehicleViews.SelectVehicles | vehicles/views.py:98-112 | a vendor id that is not a number fails; otherwise exactly the vehicles of the given vendor, or else of the given district in any case, narrowed by a given type |
| VehicleViews.VendorIdOverridesDistrict | vehicles/views.py:102-107 | with a vendor id, the district makes no difference |
| VehicleViews.NoParametersSelectEverything | vehicles/views.py:99 | without parameters every vehicle is returned, in table order |
| VehicleViews.DropdownName | vehicles/views.py:120 | the name starts with the vehicle number followed by " - " |
| VehicleViews.VehiclesByVendor | vehicles/views.py:91-124 | the failure case is the selection's; otherwise there is one entry per selected vehicle, in order, with its id and dropdown name |
| VehicleViews.VehicleList | vehicles/views.py:24-28 | the district and type filters combine; an empty value does not filter |
| VehicleViews.VehicleListView | vehicles/views.py:12-38 | the table is the filtered vehicle list, the district dropdown is each vendor district once in ascending order, the type dropdown is the five vehicle types, and both selections are passed back |
| VehicleViews.ListAgreesWithLookup | vehicles/views.py:24-28 | with no vendor, the list page's table is the lookup's selection for the same district and type |
| VendorViews.DistrictRows | vendors/views.py:85 | exactly the vendors whose district matches in any letter case, no more rows than the table |
| VendorViews.VendorsByDistrict | vendors/views.py:82-89 | with a non-empty district, exactly the vendors of that district in any case; otherwise all of them; each entry holds only id and name |
| VendorViews.DistrictLookupIgnoresCase | vendors/views.py:85 | asking for a district in lower case gives the same answer |
| VendorViews.VendorList | vendors/views.py:18-22 | an empty selection lists every vendor; otherwise exactly the vendors of that district in any case |
| VendorViews.VendorListView | vendors/views.py:10-30 | the table is the filtered vendor list, the district dropdown is each vendor district once in ascending order, and the selection is passed back |
| VendorViews.Districts | vendors/views.py:15 | each vendor district once, in ascending order, and nothing else |
| VendorViews.NoRepeatedDistrict | vendors/views.py:15 | the district dropdown has no repeats |
| EmailBackend.Merged | configuration/db_backend.py:17-26 | a setting differs from its default only when the stored value is truthy (TLS: when set at all) and then equals it |
| EmailBackend.StoredValuesWin | configuration/db_backend.py:17-26 | every truthy stored value, and any set TLS flag, replaces the default |
| EmailBackend.StoredTlsOffWins | configuration/db_backend.py:25-26 | a stored TLS flag of false turns TLS off |
| EmailBackend.BlankConfigurationKeepsDefaults | configuration/db_backend.py:17-24 | blank texts, a zero port and no TLS choice leave the defaults in place |
| EmailBackend.DbEmailBackend.constructor | configuration/db_backend.py:6-26 | fail-silently is passed through, and the settings are the merge of the configuration row over the defaults; with no saved row, that of a row created with the column defaults |
| EmailBackend.NoStoredRowUsesColumnDefaults | configuration/db_backend.py:13 | with no saved configuration the created row sets port 587 and TLS on and keeps the other defaults |
| StaffGroup.StaffModels | authentication/migrations/0001_create_staff_group.py:13-18 | the migration considers exactly the customer, vendor, vehicle, trip, package and rating models |
| StaffGroup.Granted | authentication/migrations/0001_create_staff_group.py:25-30 | a permission is granted exactly when it belongs to a considered, existing content type and is not a delete permission |
| StaffGroup.AfterMigration | authentication/migrations/0001_create_staff_group.py:21-33 | the Staff group exists afterwards and keeps what it had; other groups are unchanged; it holds every non-delete permission of each listed model that has a content type, and everything it gains is such a permission |
| StaffGroup.MigrationIsIdempotent | authentication/migrations/0001_create_staff_group.py:21-30 | running the migration twice gives the same groups as once |
| StaffGroup.NoDeletePermission | authentication/migrations/0001_create_staff_group.py:29 | a newly created Staff group holds no delete permission |
| StaffGroup.MissingContentTypeIsSkipped | authentication/migrations/0001_create_staff_group.py:25-33 | a missing content type loses only its own permissions; the other models are granted as before |
| StaffGroup.AuthTables.CreateStaffGroup | authentication/migrations/0001_create_staff_group.py:3-33 | the nested loops leave the groups as described by `AfterMigration` and change no other table |

## Left out

- Email sending, its templates and PDF rendering of the invoice: outbound I/O through libraries. The invoice's figures are modelled.
- URL routing, admin registration, app configuration and the plain add/update/delete views: framework glue with no rule to state.
- The authentication app's views and forms and the configuration app's views and models: form glue. The stored configuration is modelled as an input.
- Float conversions and rounding:
  - the calendar's average trips per day;
  - the report's per-row float values for the chart;
  - the dashboard's thousands formatting.
- Timezones, `strftime` labels and ISO date text: a day or month number stands for each label and each date string.
- `calendar.monthdayscalendar`: the calendar grid is library output. It is not part of this model.
- Decimal quantisation to two places on save: money is exact.
- Database uniqueness and PROTECT constraints.
- The database's tie order when sorting: tied trips or vendors may come in any order.
- Thread-local storage and concurrent requests: the current user is one field of a single-threaded `AuditLog`.
- Signal dispatch: a save does not call its handler. The handlers are methods that the middleware model calls once per save the request handler reports.
- Debug printing in the signal handlers and the vehicle lookup.
- The string forms of rows (`__str__`): they are inputs to the model.
- `Auditing.SaveEntry`: the stored representation is the row's string form as given; the log's cut to its first 200 characters is not modelled.
- `Auditing.SessionEntry`: likewise, the user's string form is not cut to 200 characters.
- `EmailBackend.GetSolo`: the singleton library's `get_solo` is not part of this model. It is modelled as returning the saved row, or a row created with the column defaults. The handler for a missing row can never run, so the model has no such branch.
- The dashboard's counts of completed trips and of all trips are computed but not shown on the page, so the page model leaves them out.
- A year or month that is not a number, and a date bound that is not a date, are a `Param` that is `Malformed`. The model does not parse text.
- The HTML `min` attribute the trip form sets on its date widget is presentation only.
- Form validation by the framework is an input (`Form.Valid` or `Invalid`), except the 1 to 5 stars rule of a rating, which is modelled.
- `Package.extra_charge_per_km` and the stored TLS flag are columns that cannot be null. The model keeps them optional because the code tests them against `None`.
- `Dashboard.DashboardView`: states the sizes of the page parts and its chart; the contents of the other parts are stated by the members it calls.
- `Dashboard.Scores`: the average rating is a `real` quotient, not the database's `AVG` rounding.
- The report's sums over no rows are null (`None`), as the code's aggregate returns them. A zero total is not substituted.
- The trip feed in the dashboard views is the same code as the one in the trip views; `TripViews.TripFeed` models both.

## Findings

| source | as written | input that shows it | evidently intended | confidence | as-written member | corrected member |
|---|---|---|---|---|---|---|
| trips/models.py:56-61 | `final_balance` adds the extra distance times the rate to a total price that finalizing already raised by that amount | any finalized trip with extra distance 10 and rate 20: the balance is 200 more than the invoice's balance due | the balance due the invoice shows, with the extra cost counted once | not executed | Reports.FinalBalanceChargesDistanceTwice | Reports.OutstandingBalance |
| trips/forms.py:11-15 | the trip form lists `customer_payment_option` and `vendor_payment_option`, which the Trip model does not have | any construction of the form: the model-form machinery refuses unknown fields | the form lists only fields of Trip | not executed | TripForms.TripFormNamesUnknownFields | TripForms.TripFormFieldsExist |
| dashboard/views.py:56 | the year chart steps back 30 days per point, so a month can appear twice and another be skipped | now = 31 January 2025: the last two points are both January 2025, and the oldest is March 2024, so the chart shows eleven months and February 2024 is missing | the twelve calendar months ending with the current one | not executed | Dashboard.YearPointsRepeatAMonth | Dashboard.CorrectedChart |
