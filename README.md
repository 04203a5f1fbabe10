# Workforce dashboard rules, modelled in Dafny

The dashboard shows one store of labourers, contractors and work orders through
five panels. Each panel derives what it shows, and the commands it sends back to
the store, from a snapshot of that store. This project models those derivations
and proves what they promise:

- **Agent console** (`agent_console.dfy`, module `AgentConsole`). The suggestion engine
  runs three rules in order and pushes onto one list:
  - a high-priority alert for a labourer whose first absent record is at most three days old;
  - a medium alert for each blocked work order;
  - a medium payout alert for each contractor whose balance is above 40000.

  When nothing fires, the list is a single low-priority "All clear" entry. The loops are
  methods proved equal to a specification function. The count, order, priority and
  fallback properties are lemmas about that function.
- **Attendance matrix** (`attendance_matrix.dfy`). A click on a cell becomes one
  `saveAttendance` call. It toggles against the status the cell shows, and hours follow
  the new status. The calendar header is the store's dates, copied into an array and
  sorted ascending in place.
- **Work-order board** (`work_order_board.dfy`). The orders are grouped into four
  status columns by a loop that pushes onto buckets. Each card resolves its contractor,
  its crew names and its timeline date.
- **Contractor ledger** (`contractor_ledger.dfy`). For each contractor, the ledger shows:
  - crew size;
  - daily burn (the summed rates);
  - runway (balance over the burn, with the divisor clamped to at least 1, rounded half up).

  The release form is a class. Its state is the selection and the amount, and its
  `handleRelease` guards, records the `releasePayment` call and resets the amount.
- **Metrics overview** (`metrics_overview.dfy`). This panel shows:
  - the latest attendance date;
  - the present rate on that date;
  - the number of blocked jobs;
  - the total pending balance;
  - the tone thresholds of the tiles.

`domain.dfy` holds the entities and the array helpers the panels share: `find`,
`filter`, a summing `reduce` and `Math.round`.

Calendar dates are day numbers. The current day is a parameter. Each id-keyed store
collection is the sequence of its values in `Object.values` order. Rates and balances are
integers. The release amount is a real.

The absence rule names the record it examines `recentAbsence`, but the code takes the
first absent record in list order, which need not be the most recent. The model follows the code, and `AgentConsole.FirstAbsenceDecides` shows
an input where the two readings differ.

## Model

| member | source | states |
|---|---|---|
| Domain.Find | src/components/AgentConsole.tsx:33 | `find`: none exactly when no element matches; otherwise the first matching element |
| Domain.Filter | src/components/MetricsOverview.tsx:29 | `filter`: keeps exactly the matching elements and is never longer than its input |
| Domain.FilterKeepsOrder | src/components/MetricsOverview.tsx:29 | `filter`'s result is the input read at the increasing positions of the matching elements |
| Domain.SumAppend | src/components/MetricsOverview.tsx:31 | a summing `reduce` over two lists laid end to end is the sum of the two reductions |
| Domain.Round | src/components/ContractorLedger.tsx:25 | `Math.round`: the result lies within half a unit of its argument, halves rounding up |
| Domain.RoundScaled | src/components/ContractorLedger.tsx:25 | rounding `b / d` and scaling back by `d > 0` lands within `d / 2` of `b` |
| AgentConsole.AbsenceSuggestion | src/components/AgentConsole.tsx:32-43 | a labourer yields an alert iff their first absent record exists and today minus its date is at most 3 (negative differences included); the alert is high priority and carries that difference |
| AgentConsole.ContractorNameOrDefault | src/components/AgentConsole.tsx:48 | the blocked alert names the contractor stored under the order's contractor id, or "Contractor" when no contractor has that id |
| AgentConsole.PushAbsenceSuggestions | src/components/AgentConsole.tsx:32-44 | the first loop appends exactly the absence alerts of the specification, in labourer order |
| AgentConsole.PushBlockedSuggestions | src/components/AgentConsole.tsx:46-55 | the second loop appends exactly one alert per blocked order, in order |
| AgentConsole.PushBalanceSuggestions | src/components/AgentConsole.tsx:57-65 | the third loop appends exactly the payout alerts of the specification, in contractor order |
| AgentConsole.GenerateSuggestions | src/components/AgentConsole.tsx:28-76 | the hook's result equals the specification list: the three groups in order, or the single fallback |
| AgentConsole.AbsenceCount | src/components/AgentConsole.tsx:32-44 | the absence group has one entry per labourer whose rule fires |
| AgentConsole.BlockedCount | src/components/AgentConsole.tsx:46-55 | the blocked group has one entry per order whose status is blocked |
| AgentConsole.BalanceCount | src/components/AgentConsole.tsx:57-58 | the payout group has one entry per contractor with balance strictly above 40000 |
| AgentConsole.BlockedSuggestionsFollowOrders | src/components/AgentConsole.tsx:46-55 | the k-th blocked alert is the alert of the k-th blocked order, with the "Contractor" and "Reason not logged" fallbacks |
| AgentConsole.AbsenceSuggestionsFollowLabourers | src/components/AgentConsole.tsx:32-44 | the k-th absence alert is the alert of the k-th labourer whose rule fires, so the group keeps labourer order |
| AgentConsole.BalanceSuggestionsFollowContractors | src/components/AgentConsole.tsx:57-65 | the k-th payout alert names the k-th contractor with balance above 40000, with that contractor's company and balance, in contractor order |
| AgentConsole.SuggestionCount | src/components/AgentConsole.tsx:29-73 | the list is never empty; it is exactly the low "All clear" entry when no rule fires, else its length is the sum of the three firing counts; it contains the "All clear" entry iff no rule fires |
| AgentConsole.SuggestionOrder | src/components/AgentConsole.tsx:32-73 | absences precede blocked alerts, which precede payouts; every entry carries its rule's priority, so priorities never rise along the list |
| AgentConsole.FirstAbsenceDecides | src/components/AgentConsole.tsx:33-36 | an old absence listed before an absence today suppresses the alert |
| AttendanceMatrix.ExistingStatus | src/components/AttendanceMatrix.tsx:41-42 | the shown status is that of the labourer's first record on the date, and absent when the labourer or the record is missing |
| AttendanceMatrix.Toggled | src/components/AttendanceMatrix.tsx:43 | the result is absent or the selected status, and it is the selected status iff that differs from the shown one or is absent itself |
| AttendanceMatrix.HoursFor | src/components/AttendanceMatrix.tsx:44-49 | absent carries no hours, every other status a positive number |
| AttendanceMatrix.HandleToggle | src/components/AttendanceMatrix.tsx:40-56 | the saved record keeps the id and date, toggles the status, carries that status's hours, is well-formed, and selecting absent always saves absent |
| AttendanceMatrix.FirstClickRecords | src/components/AttendanceMatrix.tsx:42-43 | with no record on the date, a click saves the selected status |
| AttendanceMatrix.ClicksAlternate | src/components/AttendanceMatrix.tsx:43 | repeated clicks with one selected status alternate between the same two statuses |
| AttendanceMatrix.InsertBackwards | src/components/AttendanceMatrix.tsx:34-36 | one insertion step extends the sorted prefix by one element and permutes the array |
| AttendanceMatrix.SortInPlace | src/components/AttendanceMatrix.tsx:34-36 | the in-place sort leaves the array ascending and a permutation of what it held |
| AttendanceMatrix.SortedDates | src/components/AttendanceMatrix.tsx:32-38 | the header is an ascending permutation of the store's dates |
| AttendanceMatrix.AscendingPermutationUnique | src/components/AttendanceMatrix.tsx:34-36 | two ascending permutations of the same dates are equal, so the header is determined by the dates |
| WorkOrderBoard.Group | src/components/WorkOrderBoard.tsx:34-42 | exactly the four statuses are keys, and each column is the orders with that status in input order |
| WorkOrderBoard.BucketMembership | src/components/WorkOrderBoard.tsx:37 | an order is in a column iff it is on the board with that status |
| WorkOrderBoard.BucketSizes | src/components/WorkOrderBoard.tsx:35-41 | the four column sizes add up to the number of orders |
| WorkOrderBoard.BucketKeepsOrder | src/components/WorkOrderBoard.tsx:35-41 | a column is the board read at the increasing positions of the orders with that status |
| WorkOrderBoard.ContractorLabel | src/components/WorkOrderBoard.tsx:70 | the card names the contractor stored under the order's contractor id, or "Unassigned" |
| WorkOrderBoard.CrewNames | src/components/WorkOrderBoard.tsx:71 | one name per assigned id in order: the labourer's name, or "-" for an unknown id |
| WorkOrderBoard.TimelineDate | src/components/WorkOrderBoard.tsx:72-75 | a completed order counts from its end date when it has one, every other case from its start date |
| ContractorLedger.DailyBurnIgnoresUnknown | src/components/ContractorLedger.tsx:19-20 | ids that resolve to no labourer add nothing to the daily burn |
| ContractorLedger.DailyBurnAppend | src/components/ContractorLedger.tsx:20 | the burn of two crews laid end to end is the sum of their burns |
| ContractorLedger.RunwayDivisor | src/components/ContractorLedger.tsx:25 | the divisor is at least 1 and is the total rate whenever that is positive |
| ContractorLedger.Runway | src/components/ContractorLedger.tsx:25 | runway times the divisor lies within half a divisor of the balance |
| ContractorLedger.IdleCrewRunway | src/components/ContractorLedger.tsx:25 | a crew whose rates sum to at most zero leaves the whole balance as runway |
| ContractorLedger.Ledger | src/components/ContractorLedger.tsx:17-28 | one entry per contractor in order: the contractor, the number of listed ids, their summed rate and the runway |
| ContractorLedger.InitialSelection | src/components/ContractorLedger.tsx:14 | the first contractor's id, and none iff there are no contractors |
| ContractorLedger.ReleaseRequest | src/components/ContractorLedger.tsx:30-32 | a call is made iff a non-empty selection exists and the amount is non-zero, and it carries both unchanged |
| ContractorLedger.EnabledButtonReleases | src/components/ContractorLedger.tsx:69-73 | whenever the button is enabled, a click releases the selected contractor and the amount |
| ContractorLedger.NegativeAmountOnlyStoppedByButton | src/components/ContractorLedger.tsx:31 | the handler's own guard lets a negative amount through; only the disabled button stops it |
| ContractorLedger.ReleaseForm.constructor | src/components/ContractorLedger.tsx:14-15 | the form opens on the first contractor with amount 0 and no calls made |
| ContractorLedger.ReleaseForm.Select | src/components/ContractorLedger.tsx:49 | choosing a contractor changes only the selection |
| ContractorLedger.ReleaseForm.SetAmount | src/components/ContractorLedger.tsx:63 | typing an amount changes only the amount |
| ContractorLedger.ReleaseForm.HandleRelease | src/components/ContractorLedger.tsx:30-34 | a rejected click changes nothing; an accepted one records exactly one call and resets the amount to 0; every recorded call has a contractor and a non-zero amount |
| MetricsOverview.AllDates | src/components/MetricsOverview.tsx:17 | a date is listed iff some labourer has a record on it |
| MetricsOverview.MaxOf | src/components/MetricsOverview.tsx:18 | none iff there are no dates, otherwise one of the dates that none exceeds |
| MetricsOverview.LatestDate | src/components/MetricsOverview.tsx:17-18 | none iff no labourer has a record; otherwise a recorded date no record lies after |
| MetricsOverview.HeadOfDescending | src/components/MetricsOverview.tsx:18 | the head of any latest-first arrangement of the dates is their maximum, and there is none iff there are no dates |
| MetricsOverview.LatestIsHeadOfSorted | src/components/MetricsOverview.tsx:18 | the panel's head of the latest-first sort is the latest date, however equal dates are ordered |
| MetricsOverview.PresentOnLatest | src/components/MetricsOverview.tsx:20-27 | the count is at most the number of labourers and zero without a latest date |
| MetricsOverview.PresentCountIsFilter | src/components/MetricsOverview.tsx:20-27 | the count is the number of labourers whose first record on the date exists and is not absent |
| MetricsOverview.PresentCountExtremes | src/components/MetricsOverview.tsx:20-27 | everybody present gives the full count, nobody present gives 0 |
| MetricsOverview.RoundedPercent | src/components/MetricsOverview.tsx:34 | the rounded percentage lies in 0..100, and rate times count is within half a count of 100 times present |
| MetricsOverview.RoundedPercentExtremes | src/components/MetricsOverview.tsx:34 | a full crew rounds to 100, an empty one to 0 |
| MetricsOverview.PresentRate | src/components/MetricsOverview.tsx:34 | the rate lies in 0..100, is 0 without labourers or without a latest date, and is otherwise the rounded percentage present |
| MetricsOverview.RateExtremes | src/components/MetricsOverview.tsx:20-34 | everybody present on the date reads 100, nobody present reads 0 |
| MetricsOverview.BlockedJobs | src/components/MetricsOverview.tsx:29 | at most the number of orders, and 0 iff no order is blocked |
| MetricsOverview.BlockedTileMatchesConsole | src/components/MetricsOverview.tsx:29 | the Blocked Jobs tile equals the number of unblock alerts in the agent console |
| MetricsOverview.TotalBalanceAppend | src/components/MetricsOverview.tsx:31 | the total over two lists of contractors is the sum of their totals |
| MetricsOverview.TotalBalanceCoversEach | src/components/MetricsOverview.tsx:31 | with no balance negative, the total is non-negative and covers each balance |
| MetricsOverview.SmallTotalNoPayout | src/components/MetricsOverview.tsx:31 | a total of at most 40000 with no negative balance leaves the console without payout alerts |
| MetricsOverview.ComputeMetrics | src/components/MetricsOverview.tsx:16-38 | the tiles' values: rate in 0..100 and 0 without labourers, blocked jobs at most the orders and 0 iff none blocked |
| MetricsOverview.AttendanceTone | src/components/MetricsOverview.tsx:48 | positive iff the rate is at least 92, accent iff it is in 85..91, negative iff below 85 |
| MetricsOverview.AttendanceToneMonotone | src/components/MetricsOverview.tsx:48 | a higher rate never shows a worse tone |
| MetricsOverview.BlockedTone | src/components/MetricsOverview.tsx:55 | positive iff no job is blocked, and never the accent |
| MetricsOverview.FullAttendanceOnTarget | src/components/MetricsOverview.tsx:34-48 | full attendance on the latest date shows the attendance tile as positive |

## Left out

- The store's mutations (`saveAttendance`, `releasePayment`, `updateWorkOrderStatus`, `computeCostSummary`): their code is not part of this model. The attendance toggle returns the arguments of its `saveAttendance` call. The release form records its `releasePayment` calls. Neither states what the store then does.
- `src/components/CostEstimator.tsx`: its only own logic is a sum over the unmodelled `computeCostSummary` and formatting.
- React hooks, memoisation and JSX markup, class names, icons, and the components `Header`, `StatCard` and the app pages: presentation only.
- Text: suggestion titles and bodies beyond the values they interpolate, `toLocaleString`, currency strings, `fromNow` wording, and the column order of the board's status headings.
- Floating point: rates and balances are unbounded integers and the release amount a real, so `NaN`, infinities and rounding of binary fractions are not modelled. In particular a `NaN` amount, which the handler's `!releaseAmount` also rejects, has no counterpart.
- Ids: each store collection is the sequence of its values. A keyed lookup (`contractors[id]`, `labourers[id]` in the board and the ledger) is the first value whose own id matches, which agrees with the keyed lookup when every record is stored under its own id.
- AgentConsole.AbsenceSuggestion: `daysAgo` is today minus the record's date in whole day numbers. `dayjs().diff(date, "day")` counts from the current time of day and truncates, so for a date in the future the shown number may differ by one. The rule fires on the same inputs either way, since both values are then at most 0.
- MetricsOverview.LatestIsHeadOfSorted: the sort on line 18 of the metrics panel uses a comparator that never answers "equal". The model states its result only as some latest-first arrangement of the dates, and proves that the head of every such arrangement is the latest date. The sort algorithm itself is not modelled.
- Dates are day numbers rather than ISO strings, so the falsy-string check on `latestDate` reduces to "there is no date".
