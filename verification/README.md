# Facturel core, modelled in Dafny

Facturel is a desktop bill tracker. A local SQLite store holds bills, their
payments, tags and the links between bills and tags. A React interface lists
the bills, shows their due dates, records payments and exports everything as
CSV. This project models the parts of it that decide what is stored, shown
and computed, and proves properties about them:

- `DatabaseManager` (`public/database.js`), as a class over four tables:
  - the schema's constraints, and the order in which SQLite checks them;
  - every query and statement;
  - the `ON DELETE CASCADE` of a bill's payments and links;
  - the one-insert-at-a-time loop of `updateBillTags`;
  - the statistics aggregates;
  - the CSV export, built line by line.
- `billReducer` (`src/context/BillContext.js`): the pure transition function
  of the interface's shared state.
- The bill form (`src/components/BillForm.js`): the next due date computed from
  a due day (with JavaScript's `new Date(y, m, d)` normalisation), the
  validation rules and the tag toggle.
- The dashboard (`src/components/Dashboard.js`): the "due soon" and "overdue"
  filters and each card's due-date badge.
- The bill details screen (`src/components/BillDetails.js`): the bill's
  payments and their total, average and latest entry, the day suffix and the
  recurrence wording.
- The payment form (`src/components/PaymentForm.js`): the amount field's
  acceptor, `parseFloat` on the amount, the validation rules, the edit date and
  the payload sent to the store.
- The application shell (`src/App.js`): the current view, the three selections
  and the screen each view renders.

Modelling conventions:

- Amounts are exact `real`s.
- Instants are integer milliseconds on one clock with 24-hour days.
- The current time, the generated ids, `new Date(text)`, `parseISO`, and the
  number and date formatting are parameters: `now`, `id`, `instantOf`,
  `amountText`, `formatDate`.
- A JavaScript `null`, `undefined` or empty text is `None` or `""`. `value || null`
  is `OrNull`.
- SQLite's checks run in this order: NOT NULL, then CHECK, then PRIMARY KEY and
  UNIQUE, then FOREIGN KEY. Foreign keys are enforced.
- `ORDER BY` is a stable insertion sort on the text column. Contracts promise only
  what SQL promises: the rows come out sorted and are a permutation of the input.

Properties worth reading first:

- `Tables.ReplaceLinks` and `Database.DatabaseManager.UpdateBillTags`: replacing
  a bill's tags first removes all of its links. With existing tags and distinct
  ids, all of the new links then go in. A repeated id or a missing bill stops
  the inserts part way, and the links inserted so far are kept.
- `Stats.YearTotalsSplitSum`: the total paid splits into this year's total, last
  year's total and the rest.
- `CsvExport.ExportLineCount`: the export has one line per bill and per payment
  after the header, as long as no field holds a line break.
  `CsvExport.BillLineNotInjective`: quotes inside fields are not escaped, so two
  different bills can produce the same line.
- `BillForm.NextDueDateIsAfterToday`: a positive due day yields a date strictly
  after today. `BillForm.NextDueDateOverflowsLeap`: day 31 in February rolls
  over into March; it is not clamped.
- `Dashboard.DueTodayFilterBadgeDisagree`: a bill due at today's midnight is
  listed under the "overdue" filter while its badge says "due soon".
- `PaymentForm.LonePointPassesAsWritten`: see Findings.

## Model

| member | source | states |
|---|---|---|
| Calendar.MakeDate | src/components/BillForm.js:41 | `new Date(y, m, d)` always names an existing day |
| Calendar.MakeDateSuccessor | src/components/BillForm.js:41 | day `d + 1` of a month is the day after day `d`, across month and year ends |
| Calendar.MakeDateOfValid | src/components/BillForm.js:41 | a date that exists is built back unchanged from its own fields |
| Calendar.MakeDateOneDayOver | src/components/BillForm.js:47 | one day past a month's last day is the first of the next month |
| Calendar.MakeDateNotBeforeMonth | src/components/BillForm.js:47-53 | a positive day never lands in a month before the one asked for |
| BillForm.NextDueDate | src/components/BillForm.js:34-61 | no due day or no recurrence type gives no date; any date given exists |
| BillForm.NextDueDateCases | src/components/BillForm.js:41-58 | a candidate after today is kept whatever the type; a passed one moves 1, 3 or 12 months on by type; an unknown type then gives none |
| BillForm.NextDueDateIsAfterToday | src/components/BillForm.js:41-60 | for a positive due day, every date returned is strictly after today |
| BillForm.NextDueDateExamples | src/components/BillForm.js:41-53 | due day 15, seen on 20 January, rolls to 15 February; seen on 10 January, it stays 15 January |
| BillForm.NextDueDateOverflowsLeap | src/components/BillForm.js:41 | due day 31 seen on 10 February 2024 gives 2 March: the day overflows and is not clamped |
| BillForm.NextDueDateOverflowsCommon | src/components/BillForm.js:41 | the same in the common year 2023 gives 3 March |
| BillForm.ValidateForm | src/components/BillForm.js:63-80 | each error key is present exactly when its rule fails; the messages; no other key; valid iff no error, which is iff the trimmed name is non-empty |
| BillForm.ToggleTag | src/components/BillForm.js:137-144 | a selected id is removed (every occurrence), with the rest kept in order and each other id kept as many times as it occurred; an unselected id is appended |
| BillForm.ToggleTagTwice | src/components/BillForm.js:137-144 | toggling an unselected tag twice gives back the original list |
| Strings.TrimEmptyIff | src/components/BillForm.js:66 | the trimmed name is empty exactly when every character is JavaScript white space |
| Dashboard.CeilDiv | src/components/Dashboard.js:227 | `Math.ceil(a / b)` is the least `q` with `a <= q * b` |
| Dashboard.DaysUntilIsCalendarDays | src/components/Dashboard.js:227 | seen at any time on day `n`, an instant at the midnight starting day `n + k` is `k` days away, for every `k` |
| Dashboard.DueDateStatus | src/components/Dashboard.js:222-232 | no date gives no-date; otherwise overdue iff days < 0, due soon iff 0..7, upcoming iff > 7 |
| Dashboard.StatusByCalendarDays | src/components/Dashboard.js:222-232 | the badge is decided by whole calendar days to the due day |
| Dashboard.StatusTextReportsDays | src/components/Dashboard.js:244-257 | an overdue text carries the absolute day count; a due-soon text carries the day count |
| Dashboard.FilteredBills | src/components/Dashboard.js:13-32 | each filter keeps, in order, exactly the bills in its time window; any other filter keeps all bills |
| Dashboard.FiltersDisjoint | src/components/Dashboard.js:18-28 | no bill is both due soon and overdue |
| Dashboard.DueTodayFilterBadgeDisagree | src/components/Dashboard.js:24-28 | a bill due at today's midnight is listed as overdue while its badge reads due soon |
| Sorting.SortBy | public/database.js:88 | `ORDER BY`: the result is sorted by the column and is a permutation of the rows |
| Tables.OrNull | public/database.js:118-123 | `value \|\| null` keeps a truthy text and binds every falsy one as NULL |
| Tables.FindBill | public/database.js:179 | a row comes back iff one has the id, and it is that row |
| Tables.FindPayment | public/database.js:221 | a row comes back iff one has the id, and it is that row |
| Tables.FindTagByName | public/database.js:270 | a row comes back iff one has the name, and it is that row |
| Tables.LinkedTags | public/database.js:94-98 | the tags joined to a bill are exactly the tags linked to it |
| Tables.Views | public/database.js:100-103 | each bill row gets exactly its linked tags |
| Tables.UpdateBillRows | public/database.js:139-156 | same length; the rows with the id are replaced by their updated form (new columns, `\|\| null` applied, new update time), every other row is unchanged |
| Tables.ArchiveRows | public/database.js:172-176 | only the row with the id is flagged, with the new update time |
| Tables.InsertBillConsistent | public/database.js:106-126 | an insert that passes its checks keeps every constraint |
| Tables.UpdateBillConsistent | public/database.js:136-156 | an update that passes its checks keeps every constraint |
| Tables.ArchiveConsistent | public/database.js:172-176 | archiving keeps every constraint |
| Tables.ArchiveHidesBill | public/database.js:172-176 | an archived bill is still present but no longer active; other rows are unchanged |
| Tables.DeleteBillConsistent | public/database.js:166-170 | a delete with its cascade keeps every constraint, leaves no row with the id, and keeps every other bill |
| Tables.InsertLinksConsistent | public/database.js:281-286 | the link inserts keep every constraint |
| Tables.InsertLinksPrefix | public/database.js:283-285 | the inserts always leave the table extended by the links of a prefix of the ids |
| Tables.InsertLinksSucceeds | public/database.js:283-285 | an existing bill with no links, existing tags and distinct ids: every link goes in, in order |
| Tables.InsertLinksSucceedsAfter | public/database.js:283-285 | the same when the bill already has links to other tags |
| Tables.MissingBillLinksFail | public/database.js:276-287 | for a bill that does not exist, the first insert fails the foreign key and nothing is added |
| Tables.InsertLinksDuplicateFails | public/database.js:283-285 | a repeated tag id always makes an insert fail |
| Tables.InsertedLinkRefused | public/database.js:283-285 | an id already linked to the bill makes an insert fail |
| Tables.ReplaceLinks | public/database.js:276-287 | delete-then-insert keeps every constraint and every other bill's links; when no insert fails, the bill is linked to exactly the given ids |
| Tables.UpdatePaymentRows | public/database.js:227-239 | same length; the rows with the id are replaced by their updated form, every other row is unchanged |
| Tables.InsertPaymentConsistent | public/database.js:202-219 | a payment insert that passes its checks keeps every constraint |
| Tables.UpdatePaymentConsistent | public/database.js:224-239 | a payment update that passes its checks keeps every constraint |
| Tables.UpdatedPaymentReadBack | public/database.js:224-241 | reading the payment back gives the new amount, date, notes and update time |
| Tables.DeletePaymentConsistent | public/database.js:244-248 | deleting a payment keeps every constraint |
| Tables.TagInsertNew | public/database.js:264-266 | a new name with a fresh id appends one row with the colour given, or the default colour |
| Tables.TagInsertExisting | public/database.js:267-271 | a name clash leaves the table unchanged and answers the row that has the name |
| Tables.TagInsertIdempotent | public/database.js:255-274 | creating a tag twice under one name answers the same row and leaves the table as after the first |
| Tables.TagInsertConsistent | public/database.js:255-274 | creating a tag keeps every constraint |
| Database.SelectedBills | public/database.js:87-89 | all rows, or exactly the rows not archived |
| Database.SelectedPayments | public/database.js:193-199 | all payments, or exactly those of a truthy bill id |
| Database.ViewsMembers | public/database.js:100-103 | a view is a stored row with exactly its linked tags |
| Database.DatabaseManager.constructor | public/database.js:24-83 | a new store has four empty tables that satisfy the schema |
| Database.DatabaseManager.GetBills | public/database.js:86-104 | sorted by name; one view per selected row; membership iff selected row with its linked tags |
| Database.DatabaseManager.GetBillById | public/database.js:178-189 | a bill comes back iff the id exists, with its linked tags |
| Database.DatabaseManager.GetPayments | public/database.js:192-200 | latest date first; exactly the selected payments |
| Database.DatabaseManager.GetTags | public/database.js:251-253 | sorted by name; a permutation of the tag table |
| Database.DatabaseManager.UpdateBillTags | public/database.js:276-287 | the new link table and error are those of inserting one link per id after deleting the bill's links; the other tables are untouched; the constraints still hold |
| Database.DatabaseManager.CreateBill | public/database.js:106-134 | the first failing check, or the row appended, its tags linked when a non-empty list is given, and the view read back |
| Database.DatabaseManager.UpdateBill | public/database.js:136-164 | the row updated when present; tags replaced unless the property is missing; the answer is present iff the id exists |
| Database.DatabaseManager.DeleteBill | public/database.js:166-170 | the row goes, with its payments and links by the cascade; the answer is whether it existed |
| Database.DatabaseManager.ArchiveBill | public/database.js:172-176 | the row is flagged; the answer is whether it existed |
| Database.DatabaseManager.CreatePayment | public/database.js:202-222 | the first failing check, or the row appended and read back |
| Database.DatabaseManager.UpdatePayment | public/database.js:224-242 | no row gives null; a failing check leaves the table unchanged; otherwise the row is updated and read back with the new values |
| Database.DatabaseManager.DeletePayment | public/database.js:244-248 | the row goes; the answer is whether it existed |
| Database.DatabaseManager.CreateTag | public/database.js:255-274 | the answer and the new tag table are those of `TagInsert` |
| Database.DatabaseManager.ExportToCsv | public/database.js:331-349 | the text is the header, the lines of `getBills(true)`, then the lines of every payment |
| Database.WriteBillLines | public/database.js:337-340 | the loop builds the concatenated `Bill` lines |
| Database.WritePaymentLines | public/database.js:342-346 | the loop builds the concatenated `Payment` lines |
| Database.NoLinksOfNewBill | public/database.js:128-131 | a bill just inserted has no links to delete |
| Stats.MinAmount | public/database.js:297 | `MIN(amount)` is at most every amount and is one of them |
| Stats.MaxAmount | public/database.js:298 | `MAX(amount)` is at least every amount and is one of them |
| Stats.SumBetweenExtremes | public/database.js:296-299 | count times the minimum is at most the sum, which is at most count times the maximum |
| Stats.Average | public/database.js:296 | `AVG` lies between the minimum and the maximum, and count times it is the sum |
| Stats.Aggregate | public/database.js:290-328 | `totalBills` is the number of unarchived bills and `totalPayments` the number of payments; `totalPaid` is the sum, lowest and highest are `MIN` and `MAX` of the amounts; the year totals are the `LIKE 'Y-%'` sums for this and last year; zeros for no payment; the average times the count is the total; lowest ≤ average ≤ highest |
| Stats.InYearHasYear | public/database.js:306-310 | a payment counted in year `y` has a date text that starts with `y` and a dash |
| Stats.YearsExclusive | public/database.js:303-316 | no payment counts in both this year's and last year's total |
| Stats.YearTotalsSplitSum | public/database.js:299-316 | the total is this year's plus last year's plus the rest |
| Stats.AggregateTotalsSplit | public/database.js:290-328 | the statistics' `totalPaid` is their `thisYearTotal` plus `lastYearTotal` plus the payments dated in neither year |
| Stats.AggregateExample | public/database.js:290-328 | amounts 10, 20 and 30 give average 20, lowest 10, highest 30, total 60 |
| CsvExport.TagNames | public/database.js:338 | one name per tag, in order |
| CsvExport.BillNameFor | public/database.js:343-344 | the name of the first bill with the id, or "Unknown" |
| CsvExport.BillLinesAppend | public/database.js:337-340 | the bill lines of two lists are the lines of each, one after the other |
| CsvExport.ExportLineCount | public/database.js:335-346 | with no line break in any field: exactly 1 + bills + payments line breaks |
| CsvExport.BillLineDecodes | public/database.js:339 | with no quote in any field and no semicolon in a tag name, splitting the line on quotes gives back the fields, and for a bill with at least one tag splitting the tags on semicolons gives back the tag names; a bill without tags writes an empty field, which splits into one empty name |
| CsvExport.BillLineIsJoin | public/database.js:339 | a `Bill` line is its fixed pieces and fields joined by quotes |
| CsvExport.BillLineNotInjective | public/database.js:339 | two different bills can give the same line, because quotes are not escaped |
| BillContext.Reduce | src/context/BillContext.js:14-74 | only SET_LOADING, SET_ERROR and SET_BILLS touch `loading`; only SET_ERROR touches `error`; only SET_STATISTICS touches `statistics`; each list changes only under its own actions |
| BillContext.ReplaceWhere | src/context/BillContext.js:28-54 | same length; each matching element is replaced, the others are kept in place |
| BillContext.OtherIsIdentity | src/context/BillContext.js:71-72 | an unknown action returns the state unchanged |
| BillContext.AddPositions | src/context/BillContext.js:25-66 | bills and tags are appended, payments prepended |
| BillContext.UpdateBillReplaces | src/context/BillContext.js:28-34 | same length; exactly the bills with the payload's id are replaced |
| BillContext.UpdatePaymentReplaces | src/context/BillContext.js:48-54 | same length; exactly the payments with the payload's id are replaced |
| BillContext.DeleteBillRemoves | src/context/BillContext.js:36-40 | no bill with the id is left; every other bill stays, in order |
| BillContext.DeletePaymentRemoves | src/context/BillContext.js:56-60 | no payment with the id is left; every other payment stays, in order |
| BillContext.AddThenDeleteBill | src/context/BillContext.js:25-40 | deleting a bill just added under a new id restores the state |
| BillContext.AddThenDeletePayment | src/context/BillContext.js:45-60 | deleting a payment just added under a new id restores the state |
| BillContext.DeleteBillIdempotent | src/context/BillContext.js:36-40 | deleting a bill twice is deleting it once |
| BillContext.DeletePaymentIdempotent | src/context/BillContext.js:56-60 | deleting a payment twice is deleting it once |
| BillContext.ReplaceWhereIdempotent | src/context/BillContext.js:31-33 | replacing twice with a matching payload is replacing once |
| BillContext.UpdateBillIdempotent | src/context/BillContext.js:28-34 | updating bills twice with the same payload is updating once |
| BillContext.UpdatePaymentIdempotent | src/context/BillContext.js:48-54 | updating payments twice with the same payload is updating once |
| BillDetails.BillPayments | src/components/BillDetails.js:17 | exactly the payments of the bill, in order; none without a bill |
| BillDetails.FoldAmountsIsSum | src/components/BillDetails.js:45 | the left fold of the amounts is the running sum |
| BillDetails.TotalPaid | src/components/BillDetails.js:44-46 | the sum of the amounts, 0 for none |
| BillDetails.AveragePayment | src/components/BillDetails.js:48-50 | 0 for none; otherwise count times average is the total, between the smallest and largest amount |
| BillDetails.AverageAgreesWithStatistics | src/components/BillDetails.js:48-50 | the screen's average equals the store's `AVG(amount)` over the same payments |
| BillDetails.LastPaymentIsLatest | src/components/BillDetails.js:52-54 | over payments loaded latest first, the last payment has the latest date of the bill's payments |
| BillDetails.JsRem | src/components/BillDetails.js:408 | JavaScript `%`: the remainder takes the sign of the dividend and is smaller than the divisor in size |
| BillDetails.JsDivision | src/components/BillDetails.js:408 | the dividend is the truncated quotient times the divisor plus the remainder |
| BillDetails.JsRemUnique | src/components/BillDetails.js:408 | any quotient and remainder meeting the division equation, with the remainder of the dividend's sign and smaller than the divisor, are the truncated quotient and `%` |
| BillDetails.DaySuffixOfDueDays | src/components/BillDetails.js:406-414 | for days 1..31: 1, 21, 31 give "st"; 2, 22 give "nd"; 3, 23 give "rd"; all others give "th" |
| BillDetails.DaySuffixNotPositive | src/components/BillDetails.js:406-414 | a day of 0 or less gives "th" |
| BillDetails.RecurrenceLabel | src/components/BillDetails.js:96-99 | "One-time bill" without a recurrence; otherwise the text with its first letter capitalised and " bill" after it |
| BillDetails.RecurrenceLabelMonthly | src/components/BillDetails.js:96-99 | "monthly" reads "Monthly bill" |
| BillDetails.RecurrenceLabelQuarterly | src/components/BillDetails.js:96-99 | "quarterly" reads "Quarterly bill" |
| BillDetails.RecurrenceLabelYearly | src/components/BillDetails.js:96-99 | "yearly" reads "Yearly bill" |
| BillDetails.FirstLy | src/components/BillDetails.js:164 | the index of the first "ly", or none when there is none |
| BillDetails.PeriodWordOfStem | src/components/BillDetails.js:164 | a stem with no "ly", followed by "ly", gives back the stem |
| BillDetails.PeriodWordMonthly | src/components/BillDetails.js:164 | "monthly" reads "month" |
| BillDetails.PeriodWordQuarterly | src/components/BillDetails.js:164 | "quarterly" reads "quarter" |
| BillDetails.PeriodWordYearly | src/components/BillDetails.js:164 | "yearly" reads "year" |
| PaymentForm.AmountPatternIff | src/components/PaymentForm.js:77 | the pattern accepts exactly the texts of digits with at most one point |
| PaymentForm.ChangeAmount | src/components/PaymentForm.js:74-80 | the amount becomes the new text iff it is empty or well shaped; otherwise the form is unchanged; other fields are never touched |
| PaymentForm.ChangeAmountKeepsShape | src/components/PaymentForm.js:74-80 | the amount field keeps holding digits with at most one point |
| PaymentForm.ParseAmountNaN | src/components/PaymentForm.js:54-58 | a well-shaped amount reads as NaN exactly when it is empty or a lone point |
| PaymentForm.ParseWholeNumber | src/components/PaymentForm.js:54-58 | the decimal text of a whole number reads back as that number |
| PaymentForm.ValidateFormAsWritten | src/components/PaymentForm.js:25-44 | the amount error iff empty or read as a number ≤ 0; the date error iff empty or in the future, with the future message taking over; no other key; valid iff no error |
| PaymentForm.ValidateForm | src/components/PaymentForm.js:25-44 | the corrected check: as above, and a valid form has an amount read as a positive number and a date not in the future |
| PaymentForm.DatePartIsPrefix | src/components/PaymentForm.js:19 | the date shown is a prefix with no 'T'; it is the whole text when there is no 'T', and is followed by the 'T' otherwise |
| PaymentForm.DatePartOfTimestamp | src/components/PaymentForm.js:19 | an ISO timestamp shows as its date |
| PaymentForm.EditForm | src/components/PaymentForm.js:15-23 | the edit date has no 'T' and is a prefix of the stored date |
| PaymentForm.AcceptedPayloadIsComplete | src/components/PaymentForm.js:54-58 | the payload of a form the corrected check accepts passes every NOT NULL column; only the keys can refuse it |
| PaymentForm.LonePointPassesAsWritten | src/components/PaymentForm.js:25-80 | "." is accepted and passes the check as written, reads as NaN, and is refused by the store's NOT NULL amount |
| App.Navigation.constructor | src/App.js:10-13 | the dashboard, with nothing selected |
| App.Navigation.HandleViewChange | src/App.js:15-40 | the view always becomes current; each view sets or clears only the selections it names; any other view clears all three; the next screen is `Landing` |
| App.Navigation.ReturnToDashboard | src/App.js:48-62 | the dashboard, with nothing selected |
| App.Navigation.ClosePaymentForm | src/App.js:69-78 | back to the selected bill's details when one is selected, else the dashboard; the selected bill is kept |
| App.PaymentRoundTrip | src/App.js:63-80 | opening a bill's payment form from its details and closing it returns to the same bill's details |

## Left out

- `public/electron.js`, `src/preload.js` and `src/components/Sidebar.js` are not part of this model: they create the window, register IPC channels and render statistics.
- The async provider functions of `src/context/BillContext.js` are not part of this model. They are IPC calls followed by a dispatch. The Blob download of the export is left out too.
- JSX rendering is left out. `format`, `parseISO`, `toFixed`, `toLocaleString`, `toString` of amounts, and `new Date(text)` are abstract function parameters.
- Floating point is not modelled: amounts are exact reals, so rounding in `SUM`, `AVG` and the reduce is not captured.
- Time zones and daylight saving are not modelled. The clock, the UUIDs and `toISOString` timestamps are parameters.
- Opening an existing database file is not modelled: the constructor starts from empty tables, as `createTables` leaves a new file.
- The row order of the tag join is not modelled: SQL leaves it open, and `Tables.LinkedTags` follows the order of the link table.
- Ties under `ORDER BY` are broken by insertion order; SQL leaves them unspecified, and no contract depends on them.
- Dates are not validated: a stored `payment_date` or `next_due_date` is any text.
- PaymentForm.ParseAmount: models `parseFloat` only on texts of digits and at most one point, the only texts the amount field admits; signs, exponents, leading white space and `Infinity` are not modelled.
- PaymentForm.Payload: a NaN amount is modelled as a missing value, which is how SQLite binds it.
- BillDetails.UpperChar: `toUpperCase` is modelled for ASCII letters only.
- BillDetails.RecurrenceLabel: states the "One-time bill" case in one direction only, because a recurrence type of "one-time" gives the same text.
- Database.DatabaseManager.GetStatistics: carries no contract of its own; `Stats.Aggregate` states the properties.
- Dashboard.StatusText: the "upcoming" and default texts are the abstract `formatDate`; only the overdue and due-soon texts are stated.
- The error shown when saving fails (`errors.submit`) and the `isSubmitting` flag are not modelled.
- The `handleAddTag` flow of the bill form is not modelled. It calls `createTag`, which is modelled, and appends the id.

## Findings

| source | as written | input that shows it | evidently intended | confidence | as-written member | corrected member |
|---|---|---|---|---|---|---|
| src/components/PaymentForm.js:28 | `!amount \|\| parseFloat(amount) <= 0` lets a NaN amount through, because NaN compares false | amount "." (the field's pattern accepts it): no amount error, and the payload's amount is NaN, which the store refuses on `amount REAL NOT NULL` | an amount passes only when it reads as a positive number | not executed | PaymentForm.ValidateFormAsWritten, PaymentForm.LonePointPassesAsWritten | PaymentForm.ValidateForm, PaymentForm.AcceptedPayloadIsComplete |
