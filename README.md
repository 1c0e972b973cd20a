# lab-station: a verified model of the staff dashboard's core

lab-station is a restaurant staff dashboard. It keeps employees (`employes`),
their daily attendance rows (`pointages`: a day status of `Présent`, `Absent`
or `Repos`, a realised amount, a paid flag), their salary advances
(`avances_salaire`, with a status of `En attente`, `Approuvée`, `Refusée` or
`Payée`), a status-change history and the daily revenues (`revenus`). Its
server routes shape fetched rows into weekly payroll figures, attendance
reports, rankings and chart series. Its server actions and routes write to the
tables. Its client components fold the routes' answers into totals and keep
small pieces of state. Around all of this sit the locale switcher, the
sidebar, the request middleware, the layout choice and the role guard.

This project models that core in Dafny. Rows arrive as sequences that are
already fetched. Dates are day numbers, with day 0 being 1970-01-01. Amounts
are integers, and rates are reals. The clock ("today", "now") is a parameter.
Each query a read route makes arrives as a `Query` value, either its rows or
a failure, and a failure makes the route answer 500 with its own message. A
failed write of an action is a boolean parameter.

- **Pure code** becomes functions, with lemmas about them. This covers the
  `filter`/`reduce` chains, the decisions and the string rewrites.
- **Code that mutates** becomes methods with loop invariants. This covers the
  `forEach` loops that fill a dictionary in place, and the reducers that
  mutate their accumulator. Each such method is proved equal to a
  specification function, and the properties are proved about that function.
- **Tables and component state** become classes with `seq` fields. This
  covers the `pointages` table, the employee/history/advance store, the
  modals' form state, the week navigator, the sidebar and the guard. Their
  methods state the whole new state.

`Object.values` lists an object's integer keys that are array indices first,
in ascending order, and its other keys in insertion order. The ranking
routes key their dictionary by employee id, so `PresenceRanking` models that
order (`OwnKeys`). The other routes key theirs by names holding a space, by
dates holding `-` or `/`, or by years that are inserted in ascending order,
and so enumerate them in insertion order.

The modules, one per source file:
- Shared helpers: `Wrappers`, `Seqs`, `Strings`, `Calendar`, `Sorting`,
  `Records`, `Grouping`, `Dictionaries`.
- Routes: `WeeklyPayroll`, `CurrentWeek`, `AttendanceReport`,
  `PresenceRanking` (shared by the two ranking routes), `EmployeeOfWeek`,
  `EmployeeOfMonth`, `SalaryPayments`, `EmployeePayments`,
  `EmployeePaymentsTable`, `RevenueAnalysis`.
- Writes to the tables: `PointageStore`, `EmployeeStore`.
- Components: `ChangeStatusModal`, `WeeklyPointage`, `WeeklySummaryModal`,
  `SalaryAdvanceModal`, `RevenueStats`, `LanguageSwitcher`, `Navigation`,
  `ConditionalLayout`, `AuthGuard`, `EmployeesManager`, `PointageManager`.
- The request middleware: `Middleware`.

## Model

| member | source | states |
|---|---|---|
| WeeklyPayroll.WeeklyData | src/app/api/pointages/weekly/route.js:50 | one entry per fetched employee, in the employee list's order |
| WeeklyPayroll.WeeklyRoute | src/app/api/pointages/weekly/route.js:5-104 | 500 iff the given `weekStart` does not parse as a date or any of the three queries fails; otherwise the week starts at the given date or this week's Monday and ends on the Sunday of its week, with one `EntryFor` entry per fetched employee, in order |
| WeeklyPayroll.EntryFor | src/app/api/pointages/weekly/route.js:51-52 | an entry holds exactly the fetched attendance rows and advances whose `employe_id` is that employee's id |
| WeeklyPayroll.EntryKeepsOrder | src/app/api/pointages/weekly/route.js:51-52 | an entry's rows and advances keep their fetched order, as sub-sequences of the fetched lists |
| WeeklyPayroll.StatusCountsBounded | src/app/api/pointages/weekly/route.js:55-58 | the three status counts add up to at most the row count, and to exactly the row count when every status is one of the three |
| WeeklyPayroll.EntryCounts | src/app/api/pointages/weekly/route.js:55-58 | for an entry, present + absent + rest days ≤ `totalDays`, with equality when every status is known |
| WeeklyPayroll.SalaryIsSumOfDayWages | src/app/api/pointages/weekly/route.js:60 | present days × daily rate equals the rate summed over the present rows |
| WeeklyPayroll.EntrySalary | src/app/api/pointages/weekly/route.js:60 | `totalSalary` pays the daily rate, a missing rate counting as 0, once for each of the employee's present rows |
| WeeklyPayroll.AdvancesPartition | src/app/api/pointages/weekly/route.js:63-65 | `totalAdvances` counts every advance: it is the pending sum plus the approved sum plus the sum of all other statuses |
| WeeklyPayroll.EntryRemaining | src/app/api/pointages/weekly/route.js:63-68 | with non-negative advances, `remainingAmount` is at most the salary, and at most the salary minus the pending and approved sums |
| WeeklyPayroll.EntryPaid | src/app/api/pointages/weekly/route.js:71 | `isWeekPaid` holds iff the employee has at least one row and every one of their rows is paid |
| WeeklyPayroll.AllKeptIffAll | src/app/api/pointages/weekly/route.js:71 | a filter keeps every element iff the predicate holds for all of them, as the `every` test needs |
| CurrentWeek.CurrentWeekRoute | src/app/api/employees/current-week/route.js:9-91 | 400 iff `employeeId` is missing or empty; otherwise 500 iff the employee lookup (`.single()`), the attendance query or the advance query fails; on success the body is `StatsOf` the answered employee, rows and advances: the total, present, absent and rest day counts of the rows, the realised amount as the sum of the rows' amounts, the salary as present days × the daily rate (0 when unset), the advances as the sum of the approved and paid advances, and the remainder as the realised amount minus those advances |
| CurrentWeek.AgreesWithWeeklyView | src/app/api/employees/current-week/route.js:53-58 | the day counts, the realised amount and the salary equal the weekly view's figures for the same rows |
| CurrentWeek.OnlyGrantedAdvancesCount | src/app/api/employees/current-week/route.js:61-66 | one more pending or refused advance leaves the remainder unchanged; an approved or paid one lowers it by exactly its amount |
| CurrentWeek.RemaindersCompared | src/app/api/employees/current-week/route.js:66 | the weekly view's remainder minus this route's remainder is (salary − realised amount) − (the advances that are neither approved nor paid) |
| CurrentWeek.RemaindersDisagree | src/app/api/employees/current-week/route.js:66 | for one present day at rate 10 and one pending advance of 5, the weekly view leaves 5 and this route leaves 0 |
| AttendanceReport.PeriodStart | src/app/api/employes/attendance/route.js:22-34 | the start is never after today; `week` gives the Monday of today's week, `year` January 1st of today's year, and any other value the first of today's month |
| AttendanceReport.AttendanceRate | src/app/api/employes/attendance/route.js:64 | the rate is 0 with no days; otherwise rate × total = present × 100, which lies in [0, 100] when present ≤ total |
| AttendanceReport.OverallStats | src/app/api/employes/attendance/route.js:56-64 | `totalDays` is the row count, the three status counts fit within it, and the rate lies in [0, 100] |
| AttendanceReport.BucketsKeys | src/app/api/employes/attendance/route.js:67-72 | the week buckets are created in the order in which their weeks first appear among the rows |
| AttendanceReport.BucketsAt | src/app/api/employes/attendance/route.js:67-91 | a week has a bucket iff one of the rows falls in it, and that bucket equals the tally of exactly those rows |
| AttendanceReport.CountRow | src/app/api/employes/attendance/route.js:84-90 | one row adds one day, at most one status count in the else-if chain, and the daily rate when present |
| AttendanceReport.BucketByWeek | src/app/api/employes/attendance/route.js:67-91 | the in-place `forEach` over the rows yields exactly the specified week dictionary |
| AttendanceReport.TallySums | src/app/api/employes/attendance/route.js:84-90 | a bucket's days, present days and salary are sums over its rows, and its status counts fit within its days |
| AttendanceReport.StatusCountIsSum | src/app/api/employes/attendance/route.js:85 | counting the rows with a status equals summing an indicator of that status |
| AttendanceReport.BucketTotals | src/app/api/employes/attendance/route.js:61-90 | over all buckets, days add up to the row count, present days to the present count, and salaries to present days × rate |
| AttendanceReport.WeekBuckets | src/app/api/employes/attendance/route.js:67-91 | one bucket per week among the rows, in first-appearance order, each the tally of exactly that week's rows |
| AttendanceReport.WeeklyStats | src/app/api/employes/attendance/route.js:67-106 | the `forEach`, `Object.values` and chronological sort give `WeekBuckets` sorted by week; their days, present days and salaries add up to the rows' totals, and each bucket's status counts fit within its days |
| AttendanceReport.AttendanceRoute | src/app/api/employes/attendance/route.js:9-115 | 400 iff the id is missing; otherwise 500 iff the attendance query or the employee lookup fails; on success the period defaults to month, `weeklyStats` is `WeekBuckets` of the rows sorted by week, the buckets' sums equal the overall stats, and the rows are a date-sorted permutation of the fetched rows |
| PresenceRanking.TallyKeys | src/app/api/statistics/employee-of-week/route.js:40-53 | employees enter the dictionary in the order of their first fetched row; this is its insertion order, not yet the order `Object.values` enumerates |
| PresenceRanking.TallyAt | src/app/api/statistics/employee-of-week/route.js:40-53 | an employee has an entry iff they have a fetched row; `presentDays` counts their rows and `totalAmount` sums their amounts |
| PresenceRanking.TallyAttendance | src/app/api/statistics/employee-of-week/route.js:40-53 | the in-place `forEach` yields exactly the specified dictionary |
| PresenceRanking.OwnKeys | src/app/api/statistics/employee-of-week/route.js:56 | the keys `Object.values` enumerates are a permutation of the inserted keys |
| PresenceRanking.OwnKeysOrder | src/app/api/statistics/employee-of-week/route.js:40-56 | integer keys that are array indices come first, in ascending order; the other keys follow in insertion order |
| PresenceRanking.SmallerIdFirst | src/app/api/statistics/employee-of-week/route.js:40-56 | keys inserted as 5 then 2 are enumerated as 2 then 5 |
| PresenceRanking.EntriesInKeyOrder | src/app/api/statistics/employee-of-week/route.js:56 | the `Object.values` list is in key order and holds no entry twice |
| PresenceRanking.TotalPresentDays | src/app/api/statistics/employee-of-week/route.js:69-71 | the entries' present days add up to the number of fetched rows |
| PresenceRanking.RankAttendance | src/app/api/statistics/employee-of-week/route.js:56-79 | the sort runs over the entries in `Object.values` order; the winner is the head of the sorted list or none; the top list is its first five; the totals are the row count and the distinct-employee count; the average is their quotient, 0 with no employees |
| PresenceRanking.EntriesAreSorted | src/app/api/statistics/employee-of-week/route.js:56-64 | every employee's entry appears in the sorted list |
| PresenceRanking.SortedAreEntries | src/app/api/statistics/employee-of-week/route.js:56-64 | every element of the sorted list is the entry of a fetched employee |
| PresenceRanking.WinnerOutranksAll | src/app/api/statistics/employee-of-week/route.js:56-66 | there is a winner iff a row was fetched, and no employee has more present days, or as many with a larger amount |
| PresenceRanking.TopFiveOutrankTheRest | src/app/api/statistics/employee-of-week/route.js:79 | an entry left out of the top list ranks no higher than the fifth entry, which exists |
| PresenceRanking.TiesKeepKeyOrder | src/app/api/statistics/employee-of-week/route.js:56-64 | entries tied on both sort keys keep their `Object.values` order, because the sort is stable |
| PresenceRanking.TiesByAscendingId | src/app/api/statistics/employee-of-week/route.js:56-66 | of two entries tied on both sort keys, the one with the smaller id ranks first whenever the later id is an array index |
| EmployeeOfWeek.WeekStartParam | src/app/api/statistics/employee-of-week/route.js:9-16 | a given `weekStart` is used as is; an absent or empty one is the Monday of today's week; one that does not parse gives no week |
| EmployeeOfWeek.EmployeeOfWeekRoute | src/app/api/statistics/employee-of-week/route.js:5-92 | 500 iff the given `weekStart` does not parse or the query fails; otherwise the week starts at `WeekStartParam` and ends on the Sunday at most six days after its start, and the winner, the top five, the employee count, the present-day total and the average (0 with no employee) are those of the ranked entries |
| EmployeeOfMonth.ParamOr | src/app/api/statistics/employee-of-month/route.js:9-10 | a missing month or year, or one that parses to 0, falls back to the current one |
| EmployeeOfMonth.MonthBounds | src/app/api/statistics/employee-of-month/route.js:12-13 | the start is day 1 of the normalised month, and the bounds span exactly that month's length, leap years included |
| EmployeeOfMonth.EmployeeOfMonthRoute | src/app/api/statistics/employee-of-month/route.js:5-87 | 500 iff the query fails; otherwise the month and year fall back to today's, the bounds are the month's, and the winner, the top five, the employee count, the present-day total and the average (0 with no employee) are those of the ranked entries |
| SalaryPayments.DateRange | src/app/api/statistics/salary-payments/route.js:15-37 | both given dates are used as they are, and there is no range when both are given and one does not parse; otherwise `week` gives Monday to Sunday of today's week, `year` January 1st to December 31st of today's year, and any other period the first to the last day of today's month |
| SalaryPayments.Range | src/app/api/statistics/salary-payments/route.js:62-107 | the enumeration lists the consecutive numbers lo..hi, each exactly once |
| SalaryPayments.Periods | src/app/api/statistics/salary-payments/route.js:62-107 | the pre-enumerated buckets have distinct keys, and there are none for an unknown period |
| SalaryPayments.RowListed | src/app/api/statistics/salary-payments/route.js:110-124 | a row's period has a bucket iff its period number lies between those of the range's ends |
| SalaryPayments.FetchedWeekRowsListed | src/app/api/statistics/salary-payments/route.js:64-124 | every row dated within the range finds its week bucket |
| SalaryPayments.BucketOfSnoc | src/app/api/statistics/salary-payments/route.js:124-129 | a row adds to the bucket of its own period and leaves every other bucket unchanged |
| SalaryPayments.BucketEmployees | src/app/api/statistics/salary-payments/route.js:128-129 | a bucket's employee set has no duplicates, its size is `employeeCount`, and it holds exactly the ids of the rows in that period |
| SalaryPayments.LayoutKeys | src/app/api/statistics/salary-payments/route.js:62-107 | the pre-filled dictionary has exactly the enumerated keys, in order |
| SalaryPayments.LayoutAt | src/app/api/statistics/salary-payments/route.js:62-107 | every pre-filled bucket starts empty |
| SalaryPayments.FillFrame | src/app/api/statistics/salary-payments/route.js:110-131 | filling never creates or removes a bucket |
| SalaryPayments.FillAt | src/app/api/statistics/salary-payments/route.js:110-131 | after filling, each pre-filled bucket holds the totals of exactly the rows of its period |
| SalaryPayments.LayOut | src/app/api/statistics/salary-payments/route.js:62-107 | the enumeration loops build exactly the specified empty dictionary |
| SalaryPayments.FillBuckets | src/app/api/statistics/salary-payments/route.js:110-131 | the in-place `forEach` yields exactly the specified filled dictionary |
| SalaryPayments.GroupedValues | src/app/api/statistics/salary-payments/route.js:62-131 | after laying out the periods and counting the rows, `Object.values(groupedData)` is the bucket of each period, in the periods' order |
| SalaryPayments.BucketTotals | src/app/api/statistics/salary-payments/route.js:142-144 | over the buckets, salaries and amounts add up to the sums over the rows that found a bucket |
| SalaryPayments.Report | src/app/api/statistics/salary-payments/route.js:58-147 | once the rows are fetched: one bucket per enumerated period, in strictly ascending period order, each holding exactly that period's rows; the global totals sum the counted rows, the employee count covers all fetched rows, and the average is 0 with no period |
| SalaryPayments.SalaryPaymentsRoute | src/app/api/statistics/salary-payments/route.js:9-162 | 500 iff the query fails or both dates are given and one does not parse; otherwise the range is `DateRange`'s and the data are the buckets in strictly ascending period order, none for an unknown period; the global totals sum the counted rows; the employee count covers all fetched rows |
| EmployeePayments.SinceDate | src/app/api/statistics/employee-payments/route.js:16-31 | the start is never after today; `month` gives the month start, `quarter` the quarter start, `year` January 1st, and `week` or an unknown period the Monday of today's week |
| EmployeePayments.Fetched | src/app/api/statistics/employee-payments/route.js:44-48 | the rows kept are dated on or after the start, belong to the chosen employee when one is given, and include every such row |
| EmployeePayments.AllFiltersNoEmployee | src/app/api/statistics/employee-payments/route.js:46-48 | with `all`, every row in the date range is kept, whoever it belongs to |
| EmployeePayments.ChartFold | src/app/api/statistics/employee-payments/route.js:57-66 | accumulating one name's rows gives the sum of their amounts |
| EmployeePayments.ChartEntryAt | src/app/api/statistics/employee-payments/route.js:57-66 | there is one entry per distinct display name, in first-appearance order, and its amount sums that name's rows |
| EmployeePayments.ChartEntriesTotal | src/app/api/statistics/employee-payments/route.js:57-66 | the entries' amounts add up to the fetched total |
| EmployeePayments.EmployeePaymentsRoute | src/app/api/statistics/employee-payments/route.js:9-80 | 500 iff the query fails; otherwise the answer is the first ten of the amount-sorted entries: at most ten, in descending amount order |
| EmployeePayments.AmountsDescend | src/app/api/statistics/employee-payments/route.js:69-71 | a prefix of the sorted list is in descending amount order |
| EmployeePayments.ChartIsTopTen | src/app/api/statistics/employee-payments/route.js:69-71 | an entry cut off from the first ten has an amount no larger than any entry kept |
| EmployeePayments.SortedAreGroups | src/app/api/statistics/employee-payments/route.js:69-70 | every sorted element is one of the accumulated entries |
| EmployeePayments.SameNameMerges | src/app/api/statistics/employee-payments/route.js:58-59 | two rows whose employees share a name merge into one entry carrying both amounts |
| EmployeePaymentsTable.StatsFold | src/app/api/statistics/employee-payments-table/route.js:58-69 | accumulating one name's rows gives their amount sum and their distinct dates |
| EmployeePaymentsTable.TableRowAt | src/app/api/statistics/employee-payments-table/route.js:58-76 | each row is one name in first-appearance order: its total sums the name's amounts, its days count distinct dates (between 1 and its row count), and its average is total / days |
| EmployeePaymentsTable.DistinctKeysAtMostRows | src/app/api/statistics/employee-payments-table/route.js:68-75 | there are never more distinct keys than rows |
| EmployeePaymentsTable.TableRowsTotal | src/app/api/statistics/employee-payments-table/route.js:79 | the rows' totals add up to the grand total |
| EmployeePaymentsTable.TotalsDescend | src/app/api/statistics/employee-payments-table/route.js:77 | the sorted table is in descending total order |
| EmployeePaymentsTable.EmployeePaymentsTableRoute | src/app/api/statistics/employee-payments-table/route.js:9-91 | 500 iff the query fails; otherwise the data are the table rows sorted by descending total, and the total sums every fetched amount |
| RevenueAnalysis.FormatOf | src/app/api/statistics/revenue-analysis/route.js:17-42 | keys are month/year for `quarter` and `year`, and day/month for every other period |
| RevenueAnalysis.TotalsFold | src/app/api/statistics/revenue-analysis/route.js:65-80 | accumulating a key's contributions gives the sum of its revenue parts and the sum of its payment parts |
| RevenueAnalysis.RevenuePartOfKey | src/app/api/statistics/revenue-analysis/route.js:65-71 | a key's revenue sums `montant_jour` over the revenue rows that map to it |
| RevenueAnalysis.PaymentPartOfKey | src/app/api/statistics/revenue-analysis/route.js:74-80 | a key's payments sum `montant_realise` over the attendance rows that map to it |
| RevenueAnalysis.KeysAreUnion | src/app/api/statistics/revenue-analysis/route.js:65-87 | the keys are distinct, and are exactly the union of the revenue rows' keys and the attendance rows' keys |
| RevenueAnalysis.OneSidedKeys | src/app/api/statistics/revenue-analysis/route.js:67-79 | a key with no revenue row has revenue 0, and a key with no attendance row has payments 0 |
| RevenueAnalysis.AnalysisChart | src/app/api/statistics/revenue-analysis/route.js:44-89 | one chart point per key, in the order the keys first appear, each carrying that key's two sums over the rows since the period start |
| RevenueAnalysis.RevenueAnalysisRoute | src/app/api/statistics/revenue-analysis/route.js:9-96 | 500 iff either query fails; otherwise the chart of `AnalysisChart` over the answered rows |
| PointageStore.MarkWeekEffect | src/app/api/pointages/mark-paid/route.js:17-28 | a row of a listed employee dated from `weekStart` to that week's Sunday becomes paid at `now` with its other columns kept; every other row is unchanged |
| PointageStore.MarkNobody | src/app/api/pointages/mark-paid/route.js:26 | an empty id list changes no row |
| PointageStore.MarkTwice | src/app/api/pointages/mark-paid/route.js:22-24 | marking again leaves every paid flag as the first call set it |
| PointageStore.PointageTable.MarkPaid | src/app/api/pointages/mark-paid/route.js:10-41 | a missing week or a non-array id list gives 400, and a week that does not parse or a failed update gives 500, all with the table unchanged; otherwise the table is the marked table |
| PointageStore.KeyIndex | src/app/actions/pointages.js:11-12 | the index found holds a row with the (employee, date) key; none is found only when no row has that key |
| PointageStore.Written | src/app/actions/pointages.js:11-14 | the written row carries the saved key |
| PointageStore.UpsertEffect | src/app/actions/pointages.js:11-14 | an existing key is replaced in place, a new key is appended, and rows with other keys are unchanged |
| PointageStore.UpsertKeepsKeysUnique | src/app/actions/pointages.js:12 | at most one row per (employee, date) before the save implies the same after it, and the saved key is present |
| PointageStore.KeyIndexFirst | src/app/actions/pointages.js:12 | the lookup finds the first row with the key |
| PointageStore.PointageTable.SavePointage | src/app/actions/pointages.js:9-24 | a failure leaves the table unchanged and returns the fixed message; success upserts and returns a saved row carrying the key |
| EmployeeStore.Updated | src/app/actions/employees.js:65-68 | the update sets `statut`, and sets `date_sortie` only when the caller supplies that key; the other fields are untouched |
| EmployeeStore.OldStatus | src/app/actions/employees.js:59-63 | the status read before the update is one the employee actually had; there is none for an unknown id |
| EmployeeStore.ChangeRow | src/app/actions/employees.js:58-87 | the history row records the employee and the new status; the old status is `null` when its read failed; the reason defaults to `Changement de statut` |
| EmployeeStore.AdvancesOfEmployee | src/app/actions/employees.js:141-145 | the advances returned are exactly that employee's, as a permutation, ordered by descending `date_avance` |
| EmployeeStore.FilterKeepsUniqueIds | src/app/actions/employees.js:100-103 | deleting keeps ids unique and removes only the row with the given id |
| EmployeeStore.Store.CreateEmployee | src/app/actions/employees.js:6-32 | the employee is appended with a fresh id, followed by one history row with no old status and reason `Employé créé`; a failed insert changes nothing |
| EmployeeStore.Store.ChangeEmployeeStatus | src/app/actions/employees.js:55-94 | the call fails iff the update fails or the id is unknown, and then nothing changes; a failed read of the old status is ignored; otherwise the employee is updated and one history row is appended unless its insert fails |
| EmployeeStore.Store.DeleteEmployee | src/app/actions/employees.js:97-112 | success removes exactly the rows with that id; failure changes nothing |
| EmployeeStore.Store.AddSalaryAdvance | src/app/actions/employees.js:115-135 | success appends one advance with status `En attente`; failure changes nothing |
| EmployeeStore.Store.GetSalaryAdvances | src/app/actions/employees.js:138-153 | the answer is the employee's advances, newest first, or the fixed error |
| ChangeStatusModal.Changed | src/components/employees/ChangeStatusModal.jsx:61-63 | changing one form field leaves the other two as they were |
| ChangeStatusModal.UpdateData | src/components/employees/ChangeStatusModal.jsx:29-40 | the update carries the status and reason; `Renvoyé` sets the entered exit date or today; another status clears an existing exit date and otherwise sends no exit-date key |
| ChangeStatusModal.ExitDateRule | src/components/employees/ChangeStatusModal.jsx:29-42 | after the action runs, the employee has the chosen status, and an exit date iff dismissed; the history reason is the entered one or the default |
| ChangeStatusModal.StatusDialog.constructor | src/components/employees/ChangeStatusModal.jsx:18-22 | the form starts from the employee's status and exit date, with an empty reason |
| ChangeStatusModal.StatusDialog.HandleChange | src/components/employees/ChangeStatusModal.jsx:61-63 | the form becomes the changed form |
| ChangeStatusModal.StatusDialog.HandleSubmit | src/components/employees/ChangeStatusModal.jsx:24-59 | success holds iff the update succeeds on an existing row; it updates the employee with the built data, appends the history row unless its insert fails, and resets the form; failure changes neither the form, the employees nor the history; advances and ids never change |
| WeeklyPointage.WeeklyDataConsistent | src/app/api/pointages/weekly/route.js:55-58 | every entry of the weekly route has present days within total days |
| WeeklyPointage.PresentWithinDays | src/components/pointage/WeeklyPointageManager.jsx:87-112 | for consistent entries, total present days lie between 0 and total days |
| WeeklyPointage.WeeklyTotals | src/components/pointage/WeeklyPointageManager.jsx:87-112 | the mutating reduce yields the field-wise sums, and `paidEmployees` counts the paid entries, never more than there are |
| WeeklyPointage.AverageAttendance | src/components/pointage/WeeklyPointageManager.jsx:114-116 | the average is 0 with no days; otherwise average × total days = present days × 100 |
| WeeklyPointage.AverageInRange | src/components/pointage/WeeklyPointageManager.jsx:114-116 | for consistent entries the average lies in [0, 100] |
| WeeklyPointage.WeekNavigator.constructor | src/components/pointage/WeeklyPointageManager.jsx:17 | the initial week is the Monday of today's week, and that week contains today |
| WeeklyPointage.WeekNavigator.GoToPreviousWeek | src/components/pointage/WeeklyPointageManager.jsx:42-44 | the week moves back exactly seven days |
| WeeklyPointage.WeekNavigator.GoToNextWeek | src/components/pointage/WeeklyPointageManager.jsx:46-48 | the week moves forward exactly seven days |
| WeeklyPointage.WeekNavigator.GoToCurrentWeek | src/components/pointage/WeeklyPointageManager.jsx:50-52 | the week returns to the Monday of today's week, as in the initial state |
| WeeklyPointage.WeekNavigator.HandleMarkAsPaid | src/components/pointage/WeeklyPointageManager.jsx:54-76 | the data are reloaded iff the request succeeds, in which case the shown week is marked paid; otherwise the table is unchanged |
| WeeklyPointage.PreviousThenNext | src/components/pointage/WeeklyPointageManager.jsx:42-48 | going back one week and then forward one returns to the same week |
| WeeklySummaryModal.GlobalStatsOf | src/components/pointage/WeeklySummaryModal.jsx:21-44 | the mutating reduce yields the field-wise sums; `presentEmployees` counts entries with a present day and `paidEmployees` the paid ones |
| WeeklySummaryModal.GuardImpliesDays | src/components/pointage/WeeklySummaryModal.jsx:27-48 | for consistent entries, presentEmployees ≤ present days ≤ days, so the guard `presentEmployees > 0` rules out division by zero |
| WeeklySummaryModal.SummaryAverage | src/components/pointage/WeeklySummaryModal.jsx:46-48 | the average is 0 with nobody present; otherwise average × days = present days × 100; it lies in [0, 100] |
| WeeklySummaryModal.WeeklySummary | src/components/pointage/WeeklySummaryModal.jsx:16-138 | nothing is shown iff the week's data or start is missing; otherwise the totals are `GlobalOf` and the average `SummaryAverage` of the entries, and each per-employee rate lies in [0, 100], is 0 with no days, and otherwise satisfies rate × days = present × 100 |
| SalaryAdvanceModal.TotalIsGrantedPart | src/components/employees/SalaryAdvanceModal.jsx:102-104 | the total is all advances minus those neither approved nor paid |
| SalaryAdvanceModal.TotalOfOneMore | src/components/employees/SalaryAdvanceModal.jsx:102-104 | one more advance adds its amount iff it is approved or paid |
| SalaryAdvanceModal.StatusColorsDistinct | src/components/employees/SalaryAdvanceModal.jsx:82-90 | the four statuses and the default get five distinct colours, and a status is grey iff it is none of the four |
| SalaryAdvanceModal.AdvanceDialog.constructor | src/components/employees/SalaryAdvanceModal.jsx:21-26 | the form starts with no amount, today's date and no description, and the list is empty |
| SalaryAdvanceModal.AdvanceDialog.FetchAdvances | src/components/employees/SalaryAdvanceModal.jsx:34-43 | the list becomes the employee's advances, or stays as it was on failure |
| SalaryAdvanceModal.AdvanceDialog.HandleSubmit | src/components/employees/SalaryAdvanceModal.jsx:45-80 | an empty amount or date changes nothing; an advance is added iff both are given and the action succeeds, after which the form is reset and the list reloaded (kept if the reload fails); a failed add keeps the form and the list; employees, history and ids never change |
| RevenueStats.TotalOfOneMore | src/components/revenues/RevenueStats.jsx:18-25 | one more revenue adds its `montant_jour` iff its date lies in [start, today], both ends included |
| RevenueStats.EarlierStartCountsMore | src/components/revenues/RevenueStats.jsx:18-25 | the revenues counted from a later start are among those counted from an earlier one, so with non-negative revenues the earlier total is larger |
| RevenueStats.StatsNest | src/components/revenues/RevenueStats.jsx:27-52 | with non-negative revenues, yearly ≥ quarterly ≥ monthly |
| LanguageSwitcher.NewLocale | src/components/LanguageSwitcher.jsx:14 | `fr` switches to `ar`, and every other locale to `fr` |
| LanguageSwitcher.SwitchPathEffect | src/components/LanguageSwitcher.jsx:15 | only the first `/locale` is replaced, everything after it is kept, and a path without it is unchanged |
| LanguageSwitcher.SwitchTwice | src/components/LanguageSwitcher.jsx:14-15 | switching twice from `fr` restores the path when no `/ar` occurs before the first `/fr` |
| LanguageSwitcher.ButtonLabel | src/components/LanguageSwitcher.jsx:27 | the label names the language switched to |
| Navigation.ActiveIffSuffix | src/components/Navigation.jsx:11-54 | every listed `href` is non-empty, so an item is active iff the pathname ends with its `href` |
| Navigation.NoLinkEndsWithAnother | src/components/Navigation.jsx:11-17 | no listed `href` ends with another |
| Navigation.AtMostOneActive | src/components/Navigation.jsx:53-54 | at most one item is active for any pathname |
| Navigation.DashboardActive | src/components/Navigation.jsx:53-54 | the dashboard is active iff the pathname ends with `/`, and no item is active on `/fr` |
| Navigation.Sidebar.constructor | src/components/Navigation.jsx:21 | the sidebar starts closed |
| Navigation.Sidebar.Toggle | src/components/Navigation.jsx:26 | the menu button flips the sidebar |
| Navigation.Sidebar.CloseOnLinkClick | src/components/Navigation.jsx:65 | clicking a link closes the sidebar |
| Navigation.ToggleTwice | src/components/Navigation.jsx:26 | two clicks on the menu button restore the sidebar |
| Middleware.PublicIffContains | src/middleware.js:12-13 | a path is public iff it contains `/login` or `/unauthorized` anywhere, as `/fr/employes/login-history` does |
| Middleware.AuthMiddleware | src/middleware.js:7-52 | the request passes iff the path is public, under `/api/` or has a session; otherwise it redirects to `/login`, with `next` set to the path |
| Middleware.Handle | src/middleware.js:55-77 | `/api/` paths pass; otherwise the login redirect wins iff the path is protected, there is no session and the redirect's status is 302, and the internationalisation response is served in every other case |
| Middleware.ApiIgnoresSession | src/middleware.js:59-62 | an `/api/` path passes with or without a session |
| Middleware.IntlUnlessRedirect302 | src/middleware.js:71-76 | with a session, on a public page, or when redirects do not carry 302, the internationalisation response is served |
| ConditionalLayout.LayoutFor | src/components/ConditionalLayout.jsx:11-31 | a page is bare iff its pathname contains `/login` or `/unauthorized`, and guarded with the navigation otherwise |
| ConditionalLayout.AgreesWithMiddleware | src/components/ConditionalLayout.jsx:11-14 | the layout and the middleware classify every path alike |
| AuthGuard.Decide | src/components/AuthGuard.jsx:13-46 | an exception or no user redirects to `/login`; with no required role any user is allowed; otherwise the user is allowed iff admin or of the required role, and sent to `/` if not |
| AuthGuard.GuardState.constructor | src/components/AuthGuard.jsx:9-10 | the guard starts loading, with no user |
| AuthGuard.GuardState.CheckAuth | src/components/AuthGuard.jsx:13-46 | loading always ends; an allowed user is stored; a refusal records the redirect and keeps the user |
| AuthGuard.Guard | src/components/AuthGuard.jsx:52-69 | once checked, the guard shows the page iff the decision allows the user, and nothing otherwise |
| AuthGuard.GuardRoles | src/components/AuthGuard.jsx:73-80 | `AdminGuard` admits only admins, `ManagerGuard` admits managers and admins, so whoever passes the first passes the second |
| EmployeesManager.FilteredIsMatchingSublist | src/components/employees/EmployeesManger.jsx:37-39 | the list shown is a sub-list of the employees in their order, and holds an employee iff the lowercased `prenom nom` contains the lowercased term |
| EmployeesManager.EmptyTermKeepsAll | src/components/employees/EmployeesManger.jsx:37-39 | an empty search term keeps every employee |
| EmployeesManager.SpanningTerm | src/components/employees/EmployeesManger.jsx:38 | a term that spans the space, in another case (`ALI B`), finds Ali Ben |
| PointageManager.LockedIffPast | src/components/pointage/PointageManager.jsx:39-43 | a day is locked iff it is before today, so today and future days never are |
| PointageManager.Cards | src/components/pointage/PointageManager.jsx:105-113 | one card per employee, in order, each with the selected date and locked iff that date is past |
| PointageManager.OneFlagForAll | src/components/pointage/PointageManager.jsx:105-110 | every card carries the same lock flag |
| Calendar.WeekStart | src/app/api/pointages/weekly/route.js:15 | the week start is the Monday on or before the day |
| Calendar.WeekEnd | src/app/api/pointages/weekly/route.js:18 | the week end is the Sunday on or after the day |
| Calendar.JsMonthBounds | src/app/api/statistics/employee-of-month/route.js:12-13 | day 1 of a month index and day 0 of the next index bound exactly one month, which is the month the index rolls over to, as in the JavaScript Date constructor |
| Calendar.PeriodStartsOrdered | src/components/revenues/RevenueStats.jsx:30-48 | year start ≤ quarter start ≤ month start ≤ today, so the four periods nest |
| Sorting.SortByRank | src/app/api/statistics/employee-of-week/route.js:56-64 | the sort returns a permutation of its input, ordered by rank |
| Sorting.SortIsStable | src/app/api/statistics/employee-of-week/route.js:56-64 | elements of equal rank keep their relative order |
| Sorting.SortKeepsTieOrder | src/app/api/statistics/employee-of-week/route.js:56-64 | when the input is ordered by a second key, elements of equal rank stay ordered by it after the sort |
| Strings.ReplaceFirst | src/components/LanguageSwitcher.jsx:15 | only the first occurrence is replaced, and the text around it is kept |
| Strings.ToLower | src/components/employees/EmployeesManger.jsx:38 | lowercasing keeps the length, lowers each character on its own, and leaves no upper-case letter |
| Strings.LowerChar | src/components/employees/EmployeesManger.jsx:38 | an ASCII or Latin-1 capital moves 32 code points up to its small letter, anything else is kept, and no capital is left |
| Strings.ToLowerIdempotent | src/components/employees/EmployeesManger.jsx:38 | lowering twice is lowering once |
| Strings.ToLowerIgnoresCase | src/components/employees/EmployeesManger.jsx:37-38 | strings that differ only in the case of their letters lower alike, so the search ignores case |
| Records.TextParam | src/app/api/employes/attendance/route.js:10 | a missing or empty query parameter takes the fallback |
| Wrappers.OrZero | src/app/api/pointages/weekly/route.js:59-60 | a missing amount counts as 0 |

## Left out

- The hosted row store. Rows come in as sequences that the queries have already
  fetched, filtered and ordered. The query engine is not modelled. Neither are
  embedded-resource filters, such as the active-status filter on joined
  employees.
- Database, network and action failures are not modelled as such. In a read
  route, each query's outcome is a `Query` input, and a failed one answers
  500 with the route's message. In an action or a component, each failure is
  a boolean parameter. The exact error objects and console logging are not
  modelled.
- The Supabase client factory (`src/utils/supabase/server.js` is not part of
  this model). The employee-payments and revenue-analysis routes use its
  result without `await`; whatever that does, it ends in the route's `catch`
  or in an answered query, both of which the `Query` input covers.
- `Middleware.Handle` models the body of the handler given to next-intl's
  `createMiddleware(routing, handler)`. Whether and when next-intl calls that
  handler is outside the model, since next-intl is not part of it.
- Database-assigned ids. They are the store's `nextId` counter, and ids are integers.
- The ignored failure of a history insert. It is a flag that drops the
  history row, as the action does.
- date-fns formatting, locales and time zones. Dates are day numbers. The week,
  month, quarter and year starts are written out on the proleptic Gregorian
  calendar. Parsing `'YYYY-MM-DD'` strings as UTC midnight, and the string
  date keys of the salary and revenue charts, are modelled by these day
  numbers. A date parameter is `Records.DateParam`: absent or empty, a day,
  or a string `new Date` cannot read, on which `format` throws and the route
  answers 500. Which strings `new Date` reads is not modelled.
- SalaryPayments.Periods: for a start date after the end date the model lays
  out no period. date-fns throws there in version 2 (the route then answers
  500) and lists the periods in reverse from version 3 on; the installed
  version is not visible in the repository, and the dashboard's chart sends
  no dates.
- SalaryPayments.SalaryPaymentsRoute: for a start date after the end date it
  answers `Ok` with no buckets, following `Periods`; see the line above.
- Floating-point amounts, `toFixed`, `Math.round` display rounding and
  `parseFloat`/`parseInt` fallbacks. Amounts are integers and rates are reals.
- `NextResponse.redirect`'s default status is not visible in the repository.
  `Middleware.AuthMiddleware` and `Middleware.Handle` take it as the parameter
  `redirectStatus`.
- The middleware's `config.matcher` pattern, which decides which requests
  reach the middleware at all.
- The session lookup (`src/utils/auth.js` is not part of this model), the user
  context, and the polling hook. The session and the captured user details are inputs.
- Router navigation, `revalidatePath`, and the `onAdvanceAdded` and
  `onStatusChanged` callbacks. A redirect is recorded as the target it names,
  and a reload as a boolean result.
- The page components' fetch effects and loading flags, in the employee list
  and the daily attendance page. Only the filtering and the lock flag
  are modelled.
- Icons, labels, translations, toasts and all rendering. The status colours
  are modelled; the icons are not.
- Concurrency and the ordering of asynchronous React effects. Each handler
  runs to completion.
- Lowercasing is modelled for ASCII and the Latin-1 capitals only.
  `Strings.ToLower` does not model the rest of Unicode's case mapping.
- The unused `days` variable of the revenue-analysis route.
- WeeklyPayroll.EntryRemaining: requires non-negative advance amounts. The
  route itself accepts any amount, and the bound only holds without negative
  advances.
- RevenueStats.StatsNest: requires non-negative daily revenues. It compares
  the yearly, quarterly and monthly totals but not the weekly one, because a
  week can start before the month does.
- RevenueStats.EarlierStartCountsMore: the totals are compared only for
  non-negative revenues. The inclusion of the counted rows holds without it.
- WeeklySummaryModal.SummaryAverage: requires every entry to have present days
  within its total days. `WeeklyPointage.WeeklyDataConsistent` proves this of
  the weekly route's answer.
- WeeklySummaryModal.WeeklySummary: requires the same consistency of the
  entries.
- WeeklyPointage.AverageInRange: requires the same consistency of the entries.
