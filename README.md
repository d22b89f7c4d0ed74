# Construction labour tracker — a verified model of its core

The application tracks the labour of one construction project. It keeps six collections:
- the team;
- the budget items;
- the daily hour logs;
- the monthly plans;
- the executed quantities per month;
- the monthly payroll records.

Each screen changes one of these collections through a small write rule, and the dashboard derives its analytics from all of them. This project models both halves in Dafny.

- **Write rules.** Each stateful screen is a class whose fields are the component's state. Its handlers are methods whose contracts state the new state, tied to pure functions with proved properties:
  - the daily entry gate: positive hours, the 8-hour ceiling per collaborator and date, and a justification when an item's budget for the role is exceeded;
  - the (item, month) upserts of plans and executed quantities, with their clamping;
  - replace-by-month of payroll records;
  - the code-sorted insertion and the import of budget items;
  - the filter-style removals;
  - saving the project with its creation time kept.
- **Analytics.** These are functions over the collections:
  - measured hours by item, role and month;
  - planned shares;
  - realised and predicted productivity and its top-5 ranking;
  - predicted, measured and payroll cost.

  The cumulative timeline and the cost breakdown, which the source computes with loops over mutable accumulators, are methods with loop invariants. They are proved against sum functions.

Modules follow the source files:
- `Types` (records and the daily ceiling);
- `Daily`, `Planning`, `Quantities`, `Financial`, `Budget`, `Team`, `Setup` and `Dashboard` (one per component);
- `Months` for the month texts and the month picker's arithmetic;
- `Ordering` for string order, the numeric-aware code order and the stable sort;
- `Seqs` for the `filter`/`reduce`/`find`/`findIndex` vocabulary and its lemmas.

Quantities are exact `real`s. Ids, dates and months are strings. Fresh ids, the current month or date, and the instant of "now" are parameters.

## Model

| member | source | states |
|---|---|---|
| Types.RoleOf | components/DailyLog.tsx:40-41 | a log's collaborator has a role exactly when some team member has that id, and then it is the role of the first member with that id |
| Types.FindItem | components/DailyLog.tsx:48 | an item is found exactly when some budget item has the id, and the one found is the first budget item with that id |
| Months.MonthOf | components/Dashboard.tsx:74 | `slice(0, 7)` is the prefix of the date of length min(7, length) |
| Months.InMonth | components/Dashboard.tsx:37 | `date.startsWith(month)`; Months.MonthOfAgreesWithInMonth ties it to the seven-character slice |
| Months.MonthOfAgreesWithInMonth | types.ts:32 | for a seven-character month, "the date starts with the month" and "the date's first seven characters are the month" agree |
| Months.ShiftMonth | components/MonthlyPlanning.tsx:16-20 | a month text stays a month text; any other text is left as it is |
| Months.ShiftMonthMovesIndex | components/MonthlyPlanning.tsx:16-20 | for years 0100–9999, a shift by delta moves the month index (year·12 + month − 1) by exactly delta and lands on a month 01–12 |
| Months.ShiftMonthParts | components/Dashboard.tsx:25-29 | the shifted month's year and month are the quotient and remainder of the new index |
| Months.ShiftMonthInverse | components/MonthlyPlanning.tsx:16-20 | shifting by delta and then by −delta returns the original month |
| Months.DecemberRollsOver | components/QuantitativeLog.tsx:16-20 | "2024-12" + 1 is "2025-01", and "2025-01" − 1 is "2024-12" |
| Months.FormatOfParts | components/FinancialInput.tsx:15-19 | printing the year and month read from a month text gives back the text |
| Months.SameParts | components/FinancialInput.tsx:15-19 | two month texts with equal year and month are the same text |
| Months.IndexDeterminesParts | components/FinancialInput.tsx:15-19 | with months 01–12, equal month indices mean equal texts |
| Seqs.Filter | components/DailyLog.tsx:26 | `filter` never grows; what it keeps comes from the input and passes the test, and every element passing the test is kept |
| Seqs.FilterConcat | components/DailyLog.tsx:98 | filtering distributes over concatenation, so it keeps relative order |
| Seqs.FilterCount | components/MonthlyPlanning.tsx:46-47 | `filter` keeps every occurrence of a kept element and none of a dropped one |
| Seqs.FilterPermutation | components/MonthlyPlanning.tsx:46-47 | filtering two reorderings of the same elements gives reorderings of the same elements |
| Seqs.FindIndex | components/MonthlyPlanning.tsx:26 | `findIndex` gives the first position whose element satisfies the test, or −1 when there is none |
| Seqs.Find | components/MonthlyPlanning.tsx:42 | `find` gives an element exactly when one passes the test, and then the first element of the input that passes it |
| Seqs.TrimStart | components/TeamManager.tsx:19 | the result is a suffix, does not start with white space, and only white space was dropped |
| Seqs.TrimEnd | components/TeamManager.tsx:19 | the result is a prefix, does not end with white space, and only white space was dropped |
| Seqs.TrimEmptyIffBlank | components/TeamManager.tsx:19 | `trim()` yields "" exactly when the text is all JavaScript white space |
| Seqs.UpsertFound | components/MonthlyPlanning.tsx:29-30 | with a match, the first match is updated in place and nothing else changes |
| Seqs.UpsertMissing | components/MonthlyPlanning.tsx:31-38 | without a match, exactly the new element is appended |
| Seqs.UpsertOtherKey | components/QuantitativeLog.tsx:25-38 | a lookup under a key disjoint from the updated one reads the same |
| Seqs.UpsertIdempotent | components/QuantitativeLog.tsx:25-38 | repeating the same upsert changes nothing more |
| Seqs.Upsert | components/MonthlyPlanning.tsx:26-37 | the `findIndex`, then assign in place or `push`, pattern; its effect is stated by Seqs.UpsertFound, UpsertMissing, UpsertOtherKey and UpsertIdempotent |
| Ordering.StrCmp | components/Dashboard.tsx:78 | character-code comparison is −1, 0 or 1, and 0 exactly for equal texts |
| Ordering.StrBeforeIsStrictOrder | components/Dashboard.tsx:78 | the default `sort()` order is asymmetric and transitive |
| Ordering.CodeCmpIsTotalPreorder | components/BudgetManager.tsx:43 | the code comparator is total, antisymmetric in sign and transitive |
| Ordering.NumericSegmentsCompareAsNumbers | components/BudgetManager.tsx:43 | codes that differ in a numeric last segment compare by its number, whatever its length |
| Ordering.SortBy | components/BudgetManager.tsx:43 | the sort is a permutation of its input |
| Ordering.SortBySorted | components/BudgetManager.tsx:116 | for a strict order, the sort's output is sorted |
| Ordering.SortByStable | components/BudgetManager.tsx:43 | for a strict weak order, the elements tied with any given one come out in their input order |
| Ordering.InsertKeepsTies | components/BudgetManager.tsx:43 | inserting into a sorted sequence leaves the order of the tied elements unchanged, with the new element last among them |
| Ordering.Take | components/Dashboard.tsx:160 | `slice(0, n)` is a prefix of length min(n, length) |
| Ordering.TopOfSorted | components/Dashboard.tsx:160 | filter, sort, then take n: at most n kept elements, all from the input, sorted; a kept element left out means the list is full of elements not after it |
| Ordering.FilterSorted | components/BudgetManager.tsx:52 | filtering a sorted sequence leaves it sorted |
| Setup.EffectiveRate | components/Dashboard.tsx:22-23 | the rate is the stored one when there is a project and the stored rate is non-zero; otherwise it is 50 (skilled) or 35 (labourer); it is never 0 |
| Setup.ProjectSetup.constructor | components/ProjectSetup.tsx:13-15 | the form starts with the project's name (or "") and the effective rates |
| Setup.ProjectSetup.HandleSave | components/ProjectSetup.tsx:17-25 | a blank name saves nothing; otherwise the project takes the entered name and rates, and keeps its creation time unless that was empty, in which case it is stamped with now |
| Team.WithoutCollaboratorSpec | components/TeamManager.tsx:32-34 | removal drops exactly the members with the id, keeps all others, and distributes over any split of the roster (order kept) |
| Team.WithoutCollaborator | components/TeamManager.tsx:33 | the roster `filter` by id; Team.WithoutCollaboratorSpec states what it keeps |
| Team.TeamManager.constructor | components/TeamManager.tsx:13-16 | the form starts with an empty name and end date, role labourer and start date today |
| Team.TeamManager.AddCollaborator | components/TeamManager.tsx:18-30 | a blank name changes nothing; otherwise exactly one member is appended with the form's name, role and start date, an empty end date stored as absent, and the name and end date are cleared |
| Team.TeamManager.RemoveCollaborator | components/TeamManager.tsx:32-34 | the roster becomes the filtered one and never grows |
| Budget.CodeBeforeIsStrictOrder | components/BudgetManager.tsx:43 | "code before" is a strict order |
| Budget.CodeSortedIsSortedBy | components/BudgetManager.tsx:43 | the code-sorted property is sortedness under that order |
| Budget.SortByCodeSpec | components/BudgetManager.tsx:43 | the code sort is a code-sorted permutation of its input |
| Budget.SortByCodeStable | components/BudgetManager.tsx:43 | items whose codes compare equal keep their order through the code sort |
| Budget.SortByCode | components/BudgetManager.tsx:43 | the `sort` by numeric-aware code; Budget.SortByCodeSpec states it is a code-sorted permutation |
| Budget.NumericCodeOrder | components/BudgetManager.tsx:43 | "1.2" sorts before "1.10" |
| Budget.WithoutItemSpec | components/BudgetManager.tsx:51-53 | removal drops exactly the items with the id, keeps all others, distributes over any split (order kept) and keeps a code-sorted budget sorted |
| Budget.WithoutItemKeepsSorted | components/BudgetManager.tsx:52 | removal keeps a code-sorted budget code-sorted |
| Budget.WithoutItem | components/BudgetManager.tsx:52 | the budget `filter` by id; Budget.WithoutItemSpec states what it keeps |
| Budget.FormItem | components/BudgetManager.tsx:32-41 | the new item keeps the fresh id, the code and the description; its unit is the form's unit, or "un" when that is empty; each of the quantity, the value and the two hour estimates is the form's number, or 0 when the field holds no number |
| Budget.FirstTruthy | components/BudgetManager.tsx:106-112 | `row[k0] \|\| row[k1] \|\| …` is none exactly when no header holds a truthy cell, and otherwise the cell of the first header that does |
| Budget.FirstTruthySecond | components/BudgetManager.tsx:106-112 | with the first header empty and the second truthy, the second header's cell is used |
| Budget.RowItemAliases | components/BudgetManager.tsx:104-113 | the canonical header wins, the accented or short alias is used only when the headers before it are empty, and with none the code is "", the unit "un" and the quantity 0 |
| Budget.RowItem | components/BudgetManager.tsx:104-112 | one spreadsheet row's item; Budget.RowItemAliases states its header aliases and defaults |
| Budget.IsImportable | components/BudgetManager.tsx:113 | an item is kept when both its code and its description are not empty |
| Budget.ImportedItemsSpec | components/BudgetManager.tsx:104-113 | exactly the mapped rows with a code and a description are imported, each as the item its row maps to |
| Budget.ImportedItems | components/BudgetManager.tsx:104-113 | the mapped rows that are importable; Budget.ImportedItemsSpec states exactly which |
| Budget.BudgetManager.constructor | components/BudgetManager.tsx:15-23 | the form starts empty with zero numbers |
| Budget.BudgetManager.AddItem | components/BudgetManager.tsx:29-49 | an empty code or description changes nothing; otherwise the budget becomes the code sort of the old budget plus the defaulted item, so it is code-sorted, a permutation of the old budget plus the item and one longer; the form is reset |
| Budget.BudgetManager.RemoveItem | components/BudgetManager.tsx:51-53 | the budget becomes the filtered one, still code-sorted if it was |
| Budget.BudgetManager.ClearBudget | components/BudgetManager.tsx:55-60 | an empty budget or an unconfirmed request changes nothing; a confirmed one empties the budget |
| Budget.BudgetManager.ImportRows | components/BudgetManager.tsx:115-121 | with no usable row the budget is unchanged; otherwise it is the code sort of the old budget plus the imported items, code-sorted and a permutation of both |
| Daily.AvailableHours | components/DailyLog.tsx:179 | the available hours are non-negative exactly when the day's hours are within 8 |
| Daily.DayHours | components/DailyLog.tsx:25-33 | `getCollaboratorHours`: the collaborator's hours on the date, never negative when no entry is; Daily.DayHoursAppend and DayHoursFilterAtMost state how it moves |
| Daily.ConsumedHours | components/DailyLog.tsx:37-44 | `getTotalConsumedHoursForItem`: never negative when no entry is, and 0 when no entry is for the item |
| Daily.IsOverBudget | components/DailyLog.tsx:59-62 | false without item statistics, else consumed plus the new hours above the limit; Daily.Decide states its place in the gate |
| Daily.DayHoursAppend | components/DailyLog.tsx:29-33 | appending an entry adds its hours to its own (date, collaborator) total and to no other |
| Daily.DayHoursFilterAtMost | components/DailyLog.tsx:98 | with no negative hours, dropping entries never raises a daily total |
| Daily.ItemStats | components/DailyLog.tsx:46-57 | stats exist exactly when an item is chosen, the collaborator is on the team and the item is in the budget; then the limit is the role's estimate, consumed is the role's hours on the item over all dates, and remaining is limit − consumed |
| Daily.Decide | components/DailyLog.tsx:64-87 | the entry is ignored exactly without a collaborator, without an item or with hours ≤ 0; otherwise it is refused exactly when the day would exceed 8; otherwise a justification is demanded exactly when the entry goes over budget with a blank justification; an accepted entry has the form's date, collaborator, item and positive hours, and carries the justification exactly when over budget |
| Daily.CeilingBoundary | components/DailyLog.tsx:68-72 | on a day with 6 hours, 3 more are refused and 2 more pass the ceiling |
| Daily.AppendKeepsCeiling | components/DailyLog.tsx:68-72 | an entry fitting under its own day's ceiling keeps every total within 8 |
| Daily.FilterKeepsCeiling | components/DailyLog.tsx:97-99 | removing entries from a log of positive hours keeps every total within 8 and the hours positive |
| Daily.AppendKeepsInvariant | components/DailyLog.tsx:65-89 | a positive entry under its day's ceiling keeps both invariants |
| Daily.EmptyLogValid | components/DailyLog.tsx:65-89 | the empty log is within the daily ceiling and holds only positive hours, the base case of the invariant |
| Daily.WithoutEntrySpec | components/DailyLog.tsx:97-99 | deletion drops exactly the entries with the id, keeps all others and distributes over any split (order kept) |
| Daily.WithoutEntry | components/DailyLog.tsx:97-99 | the log `filter` by id; Daily.WithoutEntrySpec states what it keeps |
| Daily.DailyLog.constructor | components/DailyLog.tsx:15-22 | the screen starts on today with no collaborator, no item, 0 hours and no justification; an empty log satisfies the ceiling invariant |
| Daily.DailyLog.AddEntry | components/DailyLog.tsx:64-95 | the outcome is the gate's decision; an accepted entry is appended at the end and the form reset, anything else changes nothing; the ceiling and positive-hours invariant is kept |
| Daily.DailyLog.DeleteEntry | components/DailyLog.tsx:97-99 | the log becomes the filtered one and the invariant is kept |
| Planning.Clamp | components/MonthlyPlanning.tsx:23 | the stored value lies in [0, 100]; it is the value itself when in range, 0 below and 100 above |
| Planning.GetPlan | components/MonthlyPlanning.tsx:42 | a plan exactly when one has the item and the month, and then the first such plan |
| Planning.UpsertPlan | components/MonthlyPlanning.tsx:22-39 | `handlePercentageChange`'s new plans; Planning.UpsertPlanExisting, UpsertPlanMissing, UpsertPlanOthers and UpsertPlanIdempotent state its effect |
| Planning.UpsertPlanExisting | components/MonthlyPlanning.tsx:26-30 | with a plan for (item, month), the first one takes the clamped value in place, keeping its id, item and month; the length and all other positions are unchanged |
| Planning.UpsertPlanMissing | components/MonthlyPlanning.tsx:31-38 | without one, exactly one new plan with the fresh id and the clamped value is appended |
| Planning.UpsertPlanOthers | components/MonthlyPlanning.tsx:26-39 | the plan of every other (item, month) reads the same |
| Planning.UpsertPlanIdempotent | components/MonthlyPlanning.tsx:26-39 | entering the same value twice gives the collection of entering it once |
| Planning.UpsertPlanKeepsKeysUnique | components/MonthlyPlanning.tsx:26-38 | the upsert never creates a second plan for an (item, month) |
| Planning.UpsertPlanAccumulated | components/MonthlyPlanning.tsx:45-49 | the item's accumulated share moves from the old month value (0 without one) to the clamped new one; other items' sums are unchanged |
| Planning.AccumulatedPercentage | components/MonthlyPlanning.tsx:45-49 | never negative when no share is, and 0 for an item without plans; Planning.AccumulatedOrderFree and UpsertPlanAccumulated state the rest |
| Planning.OverAllocated | components/MonthlyPlanning.tsx:109 | the red flag: the accumulated share above 100; Planning.SharesCanExceedWhole shows it reached |
| Planning.PlannedPercent | components/MonthlyPlanning.tsx:95-96 | the month's `plan?.projectedPercentage`, or 0 without a plan; used by Planning.UpsertPlanAccumulated and RowPrediction |
| Planning.SharesCanExceedWhole | components/MonthlyPlanning.tsx:109 | two months of 60% accumulate to 120% and flag the item: the sum is not clamped |
| Planning.AccumulatedOrderFree | components/MonthlyPlanning.tsx:45-49 | the accumulated share of an item is the same for any order in which the months were entered |
| Planning.ShareIsLinear | components/MonthlyPlanning.tsx:99-101 | shares add and scale with the percentage, 0% is nothing and 100% the whole item |
| Planning.Share | components/MonthlyPlanning.tsx:99-101 | `(x * percent) / 100` for the quantity and both hour estimates; Planning.ShareIsLinear states its linearity |
| Planning.RowPrediction | components/MonthlyPlanning.tsx:95-101 | a row predicts nothing without a plan and the plan's share of the item with one |
| Planning.MonthlyPlanning.constructor | components/MonthlyPlanning.tsx:14 | the screen starts on the current month |
| Planning.MonthlyPlanning.SetPercentage | components/MonthlyPlanning.tsx:22-40 | the plans become the upsert of the clamped value, the plan for (item, month) then holds it, and unique keys stay unique |
| Planning.MonthlyPlanning.ChangeMonth | components/MonthlyPlanning.tsx:16-20 | the displayed month is shifted by delta |
| Quantities.FloorAtZero | components/QuantitativeLog.tsx:23 | the stored quantity is never negative; it is the value itself when non-negative and 0 otherwise |
| Quantities.GetLog | components/QuantitativeLog.tsx:41 | a measurement exactly when one has the item and the month, and then the first such one |
| Quantities.UpsertLog | components/QuantitativeLog.tsx:22-39 | `handleQuantityChange`'s new logs; Quantities.UpsertLogExisting, UpsertLogMissing, UpsertLogOthers and UpsertLogIdempotent state its effect |
| Quantities.UpsertLogExisting | components/QuantitativeLog.tsx:25-30 | an existing measurement of (item, month) is updated in place; the length and all other positions are unchanged |
| Quantities.UpsertLogMissing | components/QuantitativeLog.tsx:31-38 | without one, exactly one new measurement is appended |
| Quantities.UpsertLogOthers | components/QuantitativeLog.tsx:25-39 | every other (item, month) reads the same |
| Quantities.UpsertLogIdempotent | components/QuantitativeLog.tsx:25-39 | repeating the same entry changes nothing more |
| Quantities.Progress | components/QuantitativeLog.tsx:86 | 0 for an item without a positive total; otherwise at most 100 exactly when executed ≤ total and 100 exactly at the total; non-negative for non-negative execution |
| Quantities.NoLogNoProgress | components/QuantitativeLog.tsx:84-86 | a month with nothing recorded shows no progress |
| Quantities.ExecutedOrZero | components/Dashboard.tsx:62-64 | `getExecutedQty`: never negative when no measurement is |
| Quantities.QuantitativeLogScreen.constructor | components/QuantitativeLog.tsx:14 | the screen starts on the current month |
| Quantities.QuantitativeLogScreen.SetQuantity | components/QuantitativeLog.tsx:22-39 | the logs become the upsert of the floored value and the measurement for (item, month) then holds it |
| Quantities.QuantitativeLogScreen.ChangeMonth | components/QuantitativeLog.tsx:16-20 | the displayed month is shifted by delta |
| Financial.CurrentRecord | components/FinancialInput.tsx:21-25 | the record is of the month; it is the empty record when the month has none, and otherwise the first record of the month |
| Financial.SavedRecord | components/FinancialInput.tsx:47-51 | the record pushed on save; Financial.SaveRecordRead states how it is read back |
| Financial.SaveRecord | components/FinancialInput.tsx:42-53 | the new records; Financial.SaveRecordOnePerMonth, SaveRecordKeepsOthers and SaveRecordRead state its effect |
| Financial.NoneLeftForMonth | components/FinancialInput.tsx:44 | no record of the month survives the filter |
| Financial.SaveRecordOnePerMonth | components/FinancialInput.tsx:44-51 | after saving, the month has exactly one record, the saved one, and it is last |
| Financial.SaveRecordKeepsOthers | components/FinancialInput.tsx:44-47 | the other months' records are those of before, in their order |
| Financial.SaveRecordRead | components/FinancialInput.tsx:47-50 | reading the month gives back the saved record, whose id is the form's when non-empty and otherwise the fresh one |
| Financial.FinancialInput.constructor | components/FinancialInput.tsx:27 | the form starts from the current month's record |
| Financial.FinancialInput.HandleChange | components/FinancialInput.tsx:38-40 | exactly the chosen numeric field of the form takes the value |
| Financial.FinancialInput.HandleSave | components/FinancialInput.tsx:42-55 | the records become the filtered ones plus the saved one, which is then the month's only record and the one read back |
| Financial.FinancialInput.ChangeMonth | components/FinancialInput.tsx:15-19 | the displayed month is shifted by delta |
| Dashboard.MeasuredHoursSplit | components/Dashboard.tsx:40-45 | without a role, an item's hours are the skilled hours plus the labourer hours plus the hours of collaborators no longer on the team |
| Dashboard.MeasuredTotalCoversRoles | components/Dashboard.tsx:40-45 | with no negative hours the roleless total is at least the two roles together |
| Dashboard.MeasuredHours | components/Dashboard.tsx:40-45 | `getMeasuredHours`; Dashboard.MeasuredHoursSplit and ItemHoursWithinMonth state how it splits and what bounds it |
| Dashboard.PlannedData | components/Dashboard.tsx:47-60 | nothing is planned when the item has no plan for the month or is not in the budget |
| Dashboard.PlannedDataMatchesPlanRow | components/Dashboard.tsx:47-60 | for a budget item the dashboard's plan equals the plan screen's row prediction, hence is linear in the percentage |
| Dashboard.ActualCost | components/Dashboard.tsx:66-68 | the payroll cost is 0 without a record for the month and otherwise that of the first record of the month |
| Dashboard.RealizedProd | components/Dashboard.tsx:147 | with execution, productivity times executed quantity is the hours; without, it is 0 (no division by zero) |
| Dashboard.PredictedProd | components/Dashboard.tsx:149-150 | planned hours per planned unit, else estimated hours per unit, else 0, each guarded against division by zero |
| Dashboard.ProductivityRowOf | components/Dashboard.tsx:143-159 | a productivity row is its item's, and it shows "Eficiente" exactly when its deviation is not positive |
| Dashboard.Efficient | components/Dashboard.tsx:210 | realized productivity at most the predicted one; Dashboard.ProductivityRowOf ties it to the deviation |
| Dashboard.AllProductivityRows | components/Dashboard.tsx:143-159 | one productivity row per budget item, in budget order |
| Dashboard.ProductivityItemsSpec | components/Dashboard.tsx:160 | at most five rows, all of budget items with execution, in non-increasing execution; an executed item left out finds five rows that executed at least as much |
| Dashboard.ProductivityRankingStable | components/Dashboard.tsx:160 | rows with equal executed quantity are ranked in budget order |
| Dashboard.ProductivityItems | components/Dashboard.tsx:143-160 | filter, sort and `slice(0, 5)`; Dashboard.ProductivityItemsSpec states what it holds |
| Dashboard.SingleItemScenario | components/Dashboard.tsx:143-160 | an item of 100 units, 50 and 80 hours half planned is 50 units, 25 and 40 hours, and costs 2650 at 50 and 35 an hour; 25 h for 40 units is 0.625 against a predicted 1.3, which is "Eficiente" |
| Dashboard.PredictedHoursMonth | components/Dashboard.tsx:138-141 | the planned-hours card is the skilled plus the labourer planned hours over the budget |
| Dashboard.LoggedHoursMonth | components/Dashboard.tsx:178 | the logged-hours card; Dashboard.ItemHoursWithinMonth bounds every item by it |
| Dashboard.PredictedCostByRole | components/Dashboard.tsx:240 | the budget's predicted cost is the planned skilled hours at the skilled rate plus the planned labourer hours at the labourer rate |
| Dashboard.MeasuredCostByRole | components/Dashboard.tsx:241 | the budget's measured cost is the skilled hours at the skilled rate plus the labourer hours at the labourer rate |
| Dashboard.ItemHoursWithinMonth | components/Dashboard.tsx:178 | with no negative hours, an item's hours in a month never exceed the month's logged total |
| Dashboard.FilterOfFilter | components/Dashboard.tsx:41-43 | filtering by the month and then by the item's condition is filtering by the item's condition |
| Dashboard.CostRowOf | components/Dashboard.tsx:235-246 | one item's predicted and measured cost; Dashboard.CostBreakdown states the rows are these |
| Dashboard.CostBreakdown | components/Dashboard.tsx:232-247 | one row per budget item with its predicted and measured cost; the totals are the sums of those costs over the budget |
| Dashboard.CostBreakdownTotals | components/Dashboard.tsx:243-244 | the totals are the sums of the breakdown's two columns |
| Dashboard.VisibleCostRows | components/Dashboard.tsx:294 | the table shows exactly the rows with some predicted or measured cost |
| Dashboard.Deviation | components/Dashboard.tsx:295-301 | the deviation is favourable (≥ 0) exactly when predicted ≥ measured |
| Dashboard.MonthSetOfLists | components/Dashboard.tsx:73-76 | the months gathered from the logs, plans and payroll records are exactly the timeline's month set |
| Dashboard.MonthSet | components/Dashboard.tsx:73-76 | the months of logs, plans and payroll records; Dashboard.MonthSetOfLists and CollectMonths state how it is collected |
| Dashboard.AddMonth | components/Dashboard.tsx:74 | `add` yields the old months plus the new one, without duplicates |
| Dashboard.AddMonths | components/Dashboard.tsx:74-76 | adding a list of months yields the old ones plus the list's, without duplicates |
| Dashboard.CollectMonths | components/Dashboard.tsx:73-78 | the sorted months are exactly the month set, strictly ascending, so each appears once |
| Dashboard.MonthTotals | components/Dashboard.tsx:94-104 | the month's four totals are the sums over the budget of each item's planned and measured cost and hours |
| Dashboard.EvolutionData | components/Dashboard.tsx:71-132 | one point per month of the set, strictly ascending; each point has its month's figures, and every accumulated field is the running sum of its monthly field |
| Dashboard.RowsFollowMonths | components/Dashboard.tsx:87 | the points carry the sorted months, in order |
| Dashboard.Accumulate | components/Dashboard.tsx:80-131 | the points follow the months, each has its month's figures, and the accumulators are running sums |
| Dashboard.NextPoint | components/Dashboard.tsx:88-130 | a point has its month's figures and adds them to the running totals |
| Dashboard.AppendPoint | components/Dashboard.tsx:108-114 | a point carrying the running totals so far extends a cumulative timeline, and its accumulators are the new sums |
| Dashboard.AppendKeepsCumulative | components/Dashboard.tsx:108-114 | the same, for the accumulated fields alone |
| Dashboard.CumulativeNonDecreasing | components/Dashboard.tsx:109-114 | with non-negative monthly figures, none of the five accumulated figures (predicted, measured and payroll cost, predicted and measured hours) ever goes down |
| Dashboard.DashboardView.constructor | components/Dashboard.tsx:19 | the dashboard starts on the current month |
| Dashboard.DashboardView.ChangeMonth | components/Dashboard.tsx:25-29 | the displayed month is shifted by delta |

## Left out

- The JSX, styling, icons, charts, tab state, and currency, `toFixed` and `toLocaleString` formatting are not modelled. They are presentation.
- App.tsx is not part of this model. Loading and saving in local storage and navigation are persistence and plumbing.
- Spreadsheet reading and writing, `FileReader`, the template download and the file input reset are not modelled; the import is modelled from the rows `sheet_to_json` would hand over (`Row`, a map from header to `Cell`). A cell carries both its text and the number JavaScript reads from it. For a numeric cell, the text `String` prints for it is given rather than computed. A numeric description or unit cell is taken as its printed text, where the source keeps the number itself (`row['Descricao'] || …` and `row['Unidade'] || 'un'` are not passed through `String`).
- Fresh ids (`crypto.randomUUID`) are `freshId` parameters and are not assumed distinct. The clock (`new Date()`) is a `today`, `currentMonth` or `now` parameter.
- `alert` and `window.confirm` are modelled as the `Outcome` result of the entry gate and as the `confirmed` argument of `ClearBudget`.
- Months.ShiftMonth: does not model the timezone dependence of `toISOString`. Years outside 0000–9999 leave the month unchanged rather than printing an extended year. Text that is not of the `DDDD-DD` form is left unchanged. In JavaScript, text whose first two `-`-separated fields are not numbers, such as the "" a cleared month input delivers, gives an invalid date and `toISOString` throws; other text, such as "2024-1" or "2024-05-17", is shifted by its first two fields, which the model does not do. No setter produces such text: the month comes from `toISOString().slice(0, 7)` or a month input. The shift lemmas are stated only for years from 0100, away from the `Date` rule that maps years 0–99 to 1900–1999. That rule itself is modelled.
- IEEE-754 rounding and `NaN` are not modelled; quantities are exact reals. `Number(x) || 0` is modelled through an optional number read from the form.
- Planning.Clamp: does not model a `NaN` input, which `Math.min`/`Math.max` pass through unclamped.
- Quantities.FloorAtZero: does not model a `NaN` input, which `Math.max` passes through.
- Ordering.CodeCmp: stands for ICU's `localeCompare(…, { numeric: true })` through a simplified comparator. It compares dot-separated segments numerically when they are all digits, and by character code otherwise. Ordering.StrCmp compares by code point rather than by UTF-16 unit.
- The sort is modelled as an insertion sort, which is stable like JavaScript's sort (Ordering.SortByStable). Its running time is not modelled.
- The form-sync effect of the payroll screen (components/FinancialInput.tsx:29-36) is not modelled, since it is a React effect. The form keeps what the constructor or `HandleChange` set.
- React state setters are not modelled. These include the budget form's `handleChange` and the plain field setters of the other forms, which assign one field.
- Daily.DayHours is one filter by date and collaborator, where the source filters by date and then by collaborator. Dashboard.MeasuredHours likewise combines the month filter and the item-and-role filter. Dashboard.FilterOfFilter proves the two forms equal.
- Seqs.SumFour and Seqs.MapSumTwo model the `forEach` and the `map` with side effects as one loop over the budget. The source's closures that update outer variables are not modelled as such.
- The dashboard's `useMemo` caching is not modelled. The timeline's memo (Dashboard.tsx:71-132) does not list `selectedMonth` among its dependencies, yet a log with an empty date, or a plan or record with an empty month, falls back to `selectedMonth` in `getMeasuredHours`, `getPlannedData` and `getFinancialRecord`. In the source such a point keeps the figures of the month that was on display when the memo last ran; the model resolves it against the month on display now.
