/** The dashboard's analytics: measured and planned hours per item and month,
    productivity and its top-5 ranking, the predicted / measured / payroll cost
    comparison, and the cumulative timeline over the months that have data. */
module Dashboard {
  import opened Seqs
  import opened Types
  import opened Months
  import opened Ordering
  import Setup
  import Daily
  import Planning
  import Quantities
  import Financial

  /** Everything the dashboard is given. */
  datatype Data = Data(
    project: Option<Project>,
    team: seq<Collaborator>,
    budget: seq<BudgetItem>,
    logs: seq<DailyLogEntry>,
    plans: seq<MonthlyPlan>,
    quantities: seq<QuantitativeLog>,
    records: seq<FinancialRecord>)

  /** `specificMonth || selectedMonth`: an empty month falls back to the one on display. */
  function ResolveMonth(specific: string, selected: string): string
  {
    if specific != "" then specific else selected
  }

  /** `RATE_PROF` and `RATE_SERV`. */
  function RateProf(d: Data): real { Setup.EffectiveRate(d.project, Profissional) }
  function RateServ(d: Data): real { Setup.EffectiveRate(d.project, Servente) }

  /** Whether a log counts for `getMeasuredHours(itemId, role, month)`: in the month,
      on the item, and, when a role is asked for, by a team member of that role. */
  function MeasuredFor(team: seq<Collaborator>, itemId: string, role: Option<Role>, month: string): DailyLogEntry -> bool
  {
    (l: DailyLogEntry) => InMonth(l.date, month) && l.budgetItemId == itemId
                          && (role.None? || RoleOf(team, l.collaboratorId) == role)
  }

  /** The logs of the item in the month whose collaborator is not on the team. */
  function OrphanFor(team: seq<Collaborator>, itemId: string, month: string): DailyLogEntry -> bool
  {
    (l: DailyLogEntry) => InMonth(l.date, month) && l.budgetItemId == itemId && RoleOf(team, l.collaboratorId).None?
  }

  function MeasuredHoursOf(team: seq<Collaborator>, logs: seq<DailyLogEntry>, itemId: string, role: Option<Role>, month: string): real
  {
    Sum(Filter(logs, MeasuredFor(team, itemId, role, month)), Daily.LogHours())
  }

  function OrphanHoursOf(team: seq<Collaborator>, logs: seq<DailyLogEntry>, itemId: string, month: string): real
  {
    Sum(Filter(logs, OrphanFor(team, itemId, month)), Daily.LogHours())
  }

  /** `getMeasuredHours(itemId, role, month)` for the resolved month. */
  function MeasuredHours(d: Data, itemId: string, role: Option<Role>, month: string): real
  {
    MeasuredHoursOf(d.team, d.logs, itemId, role, month)
  }

  /** Without a role every log of the item counts: the skilled hours, the labourer
      hours, and the hours of collaborators no longer on the team. */
  lemma {:induction false} MeasuredHoursSplit(team: seq<Collaborator>, logs: seq<DailyLogEntry>, itemId: string, month: string)
    ensures MeasuredHoursOf(team, logs, itemId, None, month) ==
      MeasuredHoursOf(team, logs, itemId, Some(Profissional), month)
      + MeasuredHoursOf(team, logs, itemId, Some(Servente), month)
      + OrphanHoursOf(team, logs, itemId, month)
  {
    if logs != [] {
      var n := |logs| - 1;
      var front, x := logs[..n], logs[n];
      assert logs == front + [x];
      MeasuredHoursSplit(team, front, itemId, month);
      SumFilterSnoc(front, x, MeasuredFor(team, itemId, None, month), Daily.LogHours());
      SumFilterSnoc(front, x, MeasuredFor(team, itemId, Some(Profissional), month), Daily.LogHours());
      SumFilterSnoc(front, x, MeasuredFor(team, itemId, Some(Servente), month), Daily.LogHours());
      SumFilterSnoc(front, x, OrphanFor(team, itemId, month), Daily.LogHours());
      MeasuredSplitEntry(team, x, itemId, month);
    }
  }

  /** One log counts without a role exactly when it counts for one role or is an orphan. */
  lemma MeasuredSplitEntry(team: seq<Collaborator>, x: DailyLogEntry, itemId: string, month: string)
    ensures (if MeasuredFor(team, itemId, None, month)(x) then x.hours else 0.0) ==
      (if MeasuredFor(team, itemId, Some(Profissional), month)(x) then x.hours else 0.0)
      + (if MeasuredFor(team, itemId, Some(Servente), month)(x) then x.hours else 0.0)
      + (if OrphanFor(team, itemId, month)(x) then x.hours else 0.0)
  {
  }

  /** With no negative hours the total is at least the two roles together. */
  lemma MeasuredTotalCoversRoles(d: Data, itemId: string, month: string)
    requires forall i :: 0 <= i < |d.logs| ==> d.logs[i].hours >= 0.0
    ensures MeasuredHours(d, itemId, None, month) >=
      MeasuredHours(d, itemId, Some(Profissional), month) + MeasuredHours(d, itemId, Some(Servente), month)
  {
    MeasuredHoursSplit(d.team, d.logs, itemId, month);
    var orphans := Filter(d.logs, OrphanFor(d.team, itemId, month));
    forall i | 0 <= i < |orphans| ensures Daily.LogHours()(orphans[i]) >= 0.0 {
      var j :| 0 <= j < |d.logs| && d.logs[j] == orphans[i];
    }
    SumNonNegative(orphans, Daily.LogHours());
  }

  /** `getPlannedData(itemId, month)`. */
  function PlannedData(d: Data, itemId: string, month: string): (r: Planning.Planned)
    ensures Planning.GetPlan(d.plans, itemId, month).None? || FindItem(d.budget, itemId).None? ==>
      r == Planning.NOTHING_PLANNED
  {
    match Planning.GetPlan(d.plans, itemId, month)
    case None => Planning.NOTHING_PLANNED
    case Some(p) =>
      match FindItem(d.budget, itemId)
      case None => Planning.NOTHING_PLANNED
      case Some(item) => Planning.Share(item, p.projectedPercentage)
  }

  /** For an item of the budget, the dashboard plans exactly what the plan screen's
      row predicts, so it is linear in the month's percentage. */
  lemma PlannedDataMatchesPlanRow(d: Data, item: BudgetItem, month: string)
    requires FindItem(d.budget, item.id) == Some(item)
    ensures PlannedData(d, item.id, month) == Planning.RowPrediction(d.plans, item, month)
  {
  }

  /** `getFinancialRecord(month).payrollCost`: the month's payroll, 0 without a record. */
  function ActualCost(d: Data, month: string): (r: real)
    ensures (forall i :: 0 <= i < |d.records| ==> d.records[i].month != month) ==> r == 0.0
    ensures (exists i :: 0 <= i < |d.records| && d.records[i].month == month) ==>
      exists i :: 0 <= i < |d.records| && d.records[i].month == month && d.records[i].payrollCost == r
                  && forall j :: 0 <= j < i ==> d.records[j].month != month
  {
    Financial.CurrentRecord(d.records, month).payrollCost
  }

  /** Hours per executed unit; 0 when nothing was executed. */
  function RealizedProd(hours: real, executed: real): (r: real)
    ensures executed > 0.0 ==> r * executed == hours
    ensures executed <= 0.0 ==> r == 0.0
  {
    if executed > 0.0 then hours / executed else 0.0
  }

  /** Planned hours per planned unit, else the item's estimated hours per unit,
      else 0. */
  function PredictedProd(planned: Planning.Planned, item: BudgetItem): (r: real)
    ensures planned.qty > 0.0 ==> r * planned.qty == planned.hoursProf + planned.hoursServ
    ensures planned.qty <= 0.0 && item.quantity > 0.0 ==> r * item.quantity == item.estimatedProfHours + item.estimatedServHours
    ensures planned.qty <= 0.0 && item.quantity <= 0.0 ==> r == 0.0
  {
    if planned.qty > 0.0 then (planned.hoursProf + planned.hoursServ) / planned.qty
    else if item.quantity > 0.0 then (item.estimatedProfHours + item.estimatedServHours) / item.quantity
    else 0.0
  }

  /** A productivity row as `productivityItems` builds it. */
  datatype ProductivityRow = ProductivityRow(
    item: BudgetItem,
    executedQty: real,
    totalHoursUsed: real,
    realizedProd: real,
    predictedProd: real,
    deviation: real)

  function ProductivityRowOf(d: Data, month: string, item: BudgetItem): (r: ProductivityRow)
    ensures r.item == item
    ensures Efficient(r) <==> r.deviation <= 0.0
  {
    var executed := Quantities.ExecutedOrZero(d.quantities, item.id, month);
    var used := MeasuredHours(d, item.id, None, month);
    var realized := RealizedProd(used, executed);
    var predicted := PredictedProd(PlannedData(d, item.id, month), item);
    ProductivityRow(item, executed, used, realized, predicted, realized - predicted)
  }

  /** The "Eficiente" badge. */
  predicate Efficient(row: ProductivityRow)
  {
    row.realizedProd <= row.predictedProd
  }

  /** `(a, b) => b.executedQty - a.executedQty`: a larger executed quantity goes first. */
  predicate ExecutedBefore(a: ProductivityRow, b: ProductivityRow)
  {
    a.executedQty > b.executedQty
  }

  function HasExecution(): ProductivityRow -> bool
  {
    (r: ProductivityRow) => r.executedQty > 0.0
  }

  function AllProductivityRows(d: Data, month: string): (rows: seq<ProductivityRow>)
    ensures |rows| == |d.budget|
    ensures forall i :: 0 <= i < |rows| ==> rows[i] == ProductivityRowOf(d, month, d.budget[i])
  {
    seq(|d.budget|, i requires 0 <= i < |d.budget| => ProductivityRowOf(d, month, d.budget[i]))
  }

  /** The items with execution, largest execution first, at most five. */
  function ProductivityItems(d: Data, month: string): seq<ProductivityRow>
  {
    Take(SortBy(Filter(AllProductivityRows(d, month), HasExecution()), ExecutedBefore), 5)
  }

  /** The ranking holds at most five rows, all of budget items with execution, in
      non-increasing order of execution; a budget item with execution that is left
      out of it finds the list full of items that executed at least as much. */
  lemma ProductivityItemsSpec(d: Data, month: string)
    ensures |ProductivityItems(d, month)| <= 5
    ensures forall i :: 0 <= i < |ProductivityItems(d, month)| ==>
      ProductivityItems(d, month)[i].executedQty > 0.0 && ProductivityItems(d, month)[i] in AllProductivityRows(d, month)
    ensures forall i, j :: 0 <= i < j < |ProductivityItems(d, month)| ==>
      ProductivityItems(d, month)[i].executedQty >= ProductivityItems(d, month)[j].executedQty
    ensures forall x :: x in AllProductivityRows(d, month) && x.executedQty > 0.0 && x !in ProductivityItems(d, month) ==>
      |ProductivityItems(d, month)| == 5
      && forall i :: 0 <= i < 5 ==> ProductivityItems(d, month)[i].executedQty >= x.executedQty
  {
    var all := AllProductivityRows(d, month);
    var r := ProductivityItems(d, month);
    assert StrictOrder(ExecutedBefore);
    TopOfSorted(all, HasExecution(), ExecutedBefore, 5);
    forall i | 0 <= i < |r| ensures r[i].executedQty > 0.0 {
      assert HasExecution()(r[i]);
    }
    forall i, j | 0 <= i < j < |r| ensures r[i].executedQty >= r[j].executedQty {
      assert !ExecutedBefore(r[j], r[i]);
    }
    forall x | x in all && x.executedQty > 0.0 && x !in r
      ensures |r| == 5 && forall i :: 0 <= i < 5 ==> r[i].executedQty >= x.executedQty
    {
      assert HasExecution()(x);
      forall i | 0 <= i < 5 ensures r[i].executedQty >= x.executedQty {
        assert !ExecutedBefore(x, r[i]);
      }
    }
  }

  /** Rows with the same executed quantity are ranked in budget order. */
  lemma ProductivityRankingStable(d: Data, month: string, x: ProductivityRow)
    ensures var executed := Filter(AllProductivityRows(d, month), HasExecution());
      Filter(SortBy(executed, ExecutedBefore), TiedWith(ExecutedBefore, x)) == Filter(executed, TiedWith(ExecutedBefore, x))
  {
    assert WeakOrder(ExecutedBefore);
    SortByStable(Filter(AllProductivityRows(d, month), HasExecution()), ExecutedBefore, x);
  }

  /** The dashboard's figures for a single item: 50% of 100 units with 50 skilled
      and 80 labourer hours plans 25 and 40 hours, 2650 at 50 and 35 an hour;
      25 hours for 40 units is 0.625 h/unit against a predicted 1.3, which is
      "Eficiente". */
  lemma SingleItemScenario(item: BudgetItem)
    requires item.quantity == 100.0 && item.estimatedProfHours == 50.0 && item.estimatedServHours == 80.0
    ensures Planning.Share(item, 50.0) == Planning.Planned(50.0, 25.0, 40.0)
    ensures Planning.Share(item, 50.0).hoursProf * 50.0 + Planning.Share(item, 50.0).hoursServ * 35.0 == 2650.0
    ensures RealizedProd(25.0, 40.0) == 0.625
    ensures PredictedProd(Planning.Share(item, 50.0), item) == 1.3
    ensures RealizedProd(25.0, 40.0) <= PredictedProd(Planning.Share(item, 50.0), item)
  {
  }

  function PlannedProfFn(d: Data, month: string): BudgetItem -> real
  {
    (item: BudgetItem) => PlannedData(d, item.id, month).hoursProf
  }

  function PlannedServFn(d: Data, month: string): BudgetItem -> real
  {
    (item: BudgetItem) => PlannedData(d, item.id, month).hoursServ
  }

  function MeasuredProfFn(d: Data, month: string): BudgetItem -> real
  {
    (item: BudgetItem) => MeasuredHours(d, item.id, Some(Profissional), month)
  }

  function MeasuredServFn(d: Data, month: string): BudgetItem -> real
  {
    (item: BudgetItem) => MeasuredHours(d, item.id, Some(Servente), month)
  }

  /** `(planned.hoursProf * RATE_PROF) + (planned.hoursServ * RATE_SERV)`. */
  function PredictedCostFn(d: Data, month: string): BudgetItem -> real
  {
    Weighted(PlannedProfFn(d, month), PlannedServFn(d, month), RateProf(d), RateServ(d))
  }

  /** `(measuredProf * RATE_PROF) + (measuredServ * RATE_SERV)`. */
  function MeasuredCostFn(d: Data, month: string): BudgetItem -> real
  {
    Weighted(MeasuredProfFn(d, month), MeasuredServFn(d, month), RateProf(d), RateServ(d))
  }

  /** An item's planned hours, both roles. */
  function PredictedHoursFn(d: Data, month: string): BudgetItem -> real
  {
    Weighted(PlannedProfFn(d, month), PlannedServFn(d, month), 1.0, 1.0)
  }

  /** An item's measured hours, both roles. */
  function MeasuredHoursFn(d: Data, month: string): BudgetItem -> real
  {
    Weighted(MeasuredProfFn(d, month), MeasuredServFn(d, month), 1.0, 1.0)
  }

  /** The budget's predicted cost is its planned skilled hours at the skilled rate
      plus its planned labourer hours at the labourer rate. */
  lemma PredictedCostByRole(d: Data, month: string)
    ensures Sum(d.budget, PredictedCostFn(d, month)) ==
      RateProf(d) * Sum(d.budget, PlannedProfFn(d, month)) + RateServ(d) * Sum(d.budget, PlannedServFn(d, month))
  {
    SumWeighted(d.budget, PlannedProfFn(d, month), PlannedServFn(d, month), RateProf(d), RateServ(d));
  }

  /** The budget's measured cost is its skilled hours at the skilled rate plus its
      labourer hours at the labourer rate. */
  lemma MeasuredCostByRole(d: Data, month: string)
    ensures Sum(d.budget, MeasuredCostFn(d, month)) ==
      RateProf(d) * Sum(d.budget, MeasuredProfFn(d, month)) + RateServ(d) * Sum(d.budget, MeasuredServFn(d, month))
  {
    SumWeighted(d.budget, MeasuredProfFn(d, month), MeasuredServFn(d, month), RateProf(d), RateServ(d));
  }

  /** `totalPredictedHoursMonth`. */
  function PredictedHoursMonth(d: Data, month: string): (r: real)
    ensures r == Sum(d.budget, PlannedProfFn(d, month)) + Sum(d.budget, PlannedServFn(d, month))
  {
    assert PredictedHoursFn(d, month) == Weighted(PlannedProfFn(d, month), PlannedServFn(d, month), 1.0, 1.0);
    SumUnitWeighted(d.budget, PlannedProfFn(d, month), PlannedServFn(d, month));
    Sum(d.budget, PredictedHoursFn(d, month))
  }

  /** The "Horas Totais Apontadas" card: all hours logged in the month. */
  function LoggedHoursMonth(d: Data, month: string): real
  {
    Sum(Filter(d.logs, InMonthLog(month)), Daily.LogHours())
  }

  function InMonthLog(month: string): DailyLogEntry -> bool
  {
    (l: DailyLogEntry) => InMonth(l.date, month)
  }

  /** With no negative hours, an item's hours in a month never exceed the month's card. */
  lemma ItemHoursWithinMonth(d: Data, itemId: string, month: string)
    requires forall i :: 0 <= i < |d.logs| ==> d.logs[i].hours >= 0.0
    ensures MeasuredHours(d, itemId, None, month) <= LoggedHoursMonth(d, month)
  {
    var inMonth := Filter(d.logs, InMonthLog(month));
    FilterOfFilter(d.logs, InMonthLog(month), MeasuredFor(d.team, itemId, None, month));
    forall i | 0 <= i < |inMonth| ensures Daily.LogHours()(inMonth[i]) >= 0.0 {
      var j :| 0 <= j < |d.logs| && d.logs[j] == inMonth[i];
    }
    SumFilterAtMost(inMonth, MeasuredFor(d.team, itemId, None, month), Daily.LogHours());
  }

  /** Filtering by a stronger condition after a weaker one is filtering by the stronger. */
  lemma {:induction false} FilterOfFilter(logs: seq<DailyLogEntry>, weak: DailyLogEntry -> bool, strong: DailyLogEntry -> bool)
    requires forall x :: strong(x) ==> weak(x)
    ensures Filter(Filter(logs, weak), strong) == Filter(logs, strong)
  {
    if logs != [] {
      var n := |logs| - 1;
      assert logs == logs[..n] + [logs[n]];
      FilterOfFilter(logs[..n], weak, strong);
      FilterSnoc(logs[..n], logs[n], weak);
      FilterSnoc(logs[..n], logs[n], strong);
      if weak(logs[n]) {
        FilterSnoc(Filter(logs[..n], weak), logs[n], strong);
      } else {
        assert Filter(logs, weak) == Filter(logs[..n], weak);
      }
    }
  }

  /** A row of the cost breakdown. */
  datatype CostRow = CostRow(item: BudgetItem, predicted: real, measured: real)

  function CostRowOf(d: Data, month: string, item: BudgetItem): CostRow
  {
    CostRow(item, PredictedCostFn(d, month)(item), MeasuredCostFn(d, month)(item))
  }

  function CostRowFn(d: Data, month: string): BudgetItem -> CostRow
  {
    (item: BudgetItem) => CostRowOf(d, month, item)
  }

  function RowPredicted(): CostRow -> real { (r: CostRow) => r.predicted }
  function RowMeasured(): CostRow -> real { (r: CostRow) => r.measured }

  /** `renderCost`'s `map` over the budget, adding each item's costs to the totals. */
  method CostBreakdown(d: Data, month: string) returns (rows: seq<CostRow>, totalPredicted: real, totalMeasured: real)
    ensures rows == Map(d.budget, CostRowFn(d, month))
    ensures totalPredicted == Sum(d.budget, PredictedCostFn(d, month))
    ensures totalMeasured == Sum(d.budget, MeasuredCostFn(d, month))
  {
    rows, totalPredicted, totalMeasured := MapSumTwo(d.budget, CostRowFn(d, month), RowPredicted(), RowMeasured());
    CostBreakdownTotals(d, month);
  }

  /** The breakdown's totals are the sums of its two columns. */
  lemma CostBreakdownTotals(d: Data, month: string)
    ensures Sum(Map(d.budget, CostRowFn(d, month)), RowPredicted()) == Sum(d.budget, PredictedCostFn(d, month))
    ensures Sum(Map(d.budget, CostRowFn(d, month)), RowMeasured()) == Sum(d.budget, MeasuredCostFn(d, month))
  {
    SumMap(d.budget, CostRowFn(d, month), RowPredicted(), PredictedCostFn(d, month));
    SumMap(d.budget, CostRowFn(d, month), RowMeasured(), MeasuredCostFn(d, month));
  }

  function Shown(): CostRow -> bool
  {
    (r: CostRow) => r.predicted > 0.0 || r.measured > 0.0
  }

  /** The rows the breakdown table shows: those with some predicted or measured cost. */
  function VisibleCostRows(rows: seq<CostRow>): (r: seq<CostRow>)
    ensures forall i :: 0 <= i < |r| ==> r[i].predicted > 0.0 || r[i].measured > 0.0
    ensures forall i :: 0 <= i < |rows| && (rows[i].predicted > 0.0 || rows[i].measured > 0.0) ==> rows[i] in r
  {
    Filter(rows, Shown())
  }

  /** `diff`, shown green when favourable. */
  function Deviation(row: CostRow): (r: real)
    ensures r >= 0.0 <==> row.predicted >= row.measured
  {
    row.predicted - row.measured
  }

  /** The months on the timeline: those of the log dates, the plans and the payroll
      records. Executed quantities contribute none. */
  ghost function MonthSet(d: Data): set<string>
  {
    (set l | l in d.logs :: MonthOf(l.date)) + (set p | p in d.plans :: p.month) + (set r | r in d.records :: r.month)
  }

  function LogMonth(): DailyLogEntry -> string { (l: DailyLogEntry) => MonthOf(l.date) }
  function PlanMonth(): MonthlyPlan -> string { (p: MonthlyPlan) => p.month }
  function RecordMonth(): FinancialRecord -> string { (r: FinancialRecord) => r.month }

  function LogMonths(d: Data): seq<string> { Map(d.logs, LogMonth()) }
  function PlanMonths(d: Data): seq<string> { Map(d.plans, PlanMonth()) }
  function RecordMonths(d: Data): seq<string> { Map(d.records, RecordMonth()) }

  lemma MonthSetOfLists(d: Data)
    ensures forall x :: x in MonthSet(d) <==> x in LogMonths(d) || x in PlanMonths(d) || x in RecordMonths(d)
  {
    MapMembers(d.logs, LogMonth());
    MapMembers(d.plans, PlanMonth());
    MapMembers(d.records, RecordMonth());
  }

  /** `months.add(m)`: `m` is added unless it is there already. */
  method AddMonth(seen: seq<string>, m: string) returns (r: seq<string>)
    ensures forall x :: x in r <==> x in seen || x == m
    ensures Distinct(seen) ==> Distinct(r)
  {
    if m in seen {
      r := seen;
    } else {
      r := seen + [m];
    }
  }

  /** One of the `forEach` loops of lines 74-76: every month of `ms` is added. */
  method AddMonths(seen: seq<string>, ms: seq<string>) returns (r: seq<string>)
    ensures forall x :: x in r <==> x in seen || x in ms
    ensures Distinct(seen) ==> Distinct(r)
  {
    r := seen;
    var i := 0;
    while i < |ms|
      invariant 0 <= i <= |ms|
      invariant Distinct(seen) ==> Distinct(r)
      invariant forall x :: x in r <==> x in seen || x in ms[..i]
    {
      assert ms[..i + 1] == ms[..i] + [ms[i]];
      r := AddMonth(r, ms[i]);
      i := i + 1;
    }
    assert ms[..i] == ms;
  }

  /** Lines 73-78: gather the months into a `Set`, then sort them. */
  method CollectMonths(d: Data) returns (months: seq<string>)
    ensures forall m :: m in months <==> m in MonthSet(d)
    ensures forall i, j :: 0 <= i < j < |months| ==> StrCmp(months[i], months[j]) < 0
  {
    var seen := AddMonths([], LogMonths(d));
    seen := AddMonths(seen, PlanMonths(d));
    seen := AddMonths(seen, RecordMonths(d));
    MonthSetOfLists(d);
    months := SortBy(seen, StrBefore);
    StrBeforeIsStrictOrder();
    SortBySorted(seen, StrBefore);
    DistinctPermutation(seen, months);
    forall x ensures x in months <==> x in seen {
      assert x in months <==> x in multiset(months);
      assert x in seen <==> x in multiset(seen);
    }
    forall i, j | 0 <= i < j < |months| ensures StrCmp(months[i], months[j]) < 0 {
      StrCmpAntisymmetric(months[i], months[j]);
    }
  }

  /** The figures of one month for the whole budget. */
  datatype Figures = Figures(predictedCost: real, measuredCost: real, predictedHours: real, measuredHours: real)

  /** The inner `budget.forEach` of the timeline: one pass over the budget adding
      each item's planned and measured cost and hours to the month's totals. */
  method MonthTotals(d: Data, month: string) returns (f: Figures)
    ensures f.predictedCost == Sum(d.budget, PredictedCostFn(d, month))
    ensures f.measuredCost == Sum(d.budget, MeasuredCostFn(d, month))
    ensures f.predictedHours == Sum(d.budget, PredictedHoursFn(d, month))
    ensures f.measuredHours == Sum(d.budget, MeasuredHoursFn(d, month))
  {
    var pc, mc, ph, mh := SumFour(d.budget, PredictedCostFn(d, month), MeasuredCostFn(d, month),
                                  PredictedHoursFn(d, month), MeasuredHoursFn(d, month));
    f := Figures(pc, mc, ph, mh);
  }

  /** A point of the timeline. */
  datatype EvolutionRow = EvolutionRow(
    month: string,
    monthPredictedCost: real,
    monthMeasuredCost: real,
    monthRHCost: real,
    accPredictedCost: real,
    accMeasuredCost: real,
    accRHCost: real,
    monthPredictedHours: real,
    monthMeasuredHours: real,
    accPredictedHours: real,
    accMeasuredHours: real)

  function RowMonth(): EvolutionRow -> string { (r: EvolutionRow) => r.month }
  function MonthPredictedCost(): EvolutionRow -> real { (r: EvolutionRow) => r.monthPredictedCost }
  function MonthMeasuredCost(): EvolutionRow -> real { (r: EvolutionRow) => r.monthMeasuredCost }
  function MonthRHCost(): EvolutionRow -> real { (r: EvolutionRow) => r.monthRHCost }
  function MonthPredictedHours(): EvolutionRow -> real { (r: EvolutionRow) => r.monthPredictedHours }
  function MonthMeasuredHours(): EvolutionRow -> real { (r: EvolutionRow) => r.monthMeasuredHours }
  function AccPredictedCost(): EvolutionRow -> real { (r: EvolutionRow) => r.accPredictedCost }
  function AccMeasuredCost(): EvolutionRow -> real { (r: EvolutionRow) => r.accMeasuredCost }
  function AccRHCost(): EvolutionRow -> real { (r: EvolutionRow) => r.accRHCost }
  function AccPredictedHours(): EvolutionRow -> real { (r: EvolutionRow) => r.accPredictedHours }
  function AccMeasuredHours(): EvolutionRow -> real { (r: EvolutionRow) => r.accMeasuredHours }

  /** Every `acc*` field is the running sum of its monthly field. */
  ghost predicate Cumulative(rows: seq<EvolutionRow>)
  {
    && RunningSums(rows, AccPredictedCost(), MonthPredictedCost())
    && RunningSums(rows, AccMeasuredCost(), MonthMeasuredCost())
    && RunningSums(rows, AccRHCost(), MonthRHCost())
    && RunningSums(rows, AccPredictedHours(), MonthPredictedHours())
    && RunningSums(rows, AccMeasuredHours(), MonthMeasuredHours())
  }

  /** The monthly fields of a point are the month's figures (an empty month is read
      as the month on display). */
  predicate RowFigures(d: Data, selected: string, row: EvolutionRow)
  {
    var m := ResolveMonth(row.month, selected);
    && row.monthPredictedCost == Sum(d.budget, PredictedCostFn(d, m))
    && row.monthMeasuredCost == Sum(d.budget, MeasuredCostFn(d, m))
    && row.monthRHCost == ActualCost(d, m)
    && row.monthPredictedHours == Sum(d.budget, PredictedHoursFn(d, m))
    && row.monthMeasuredHours == Sum(d.budget, MeasuredHoursFn(d, m))
  }

  function HasFigures(d: Data, selected: string): EvolutionRow -> bool
  {
    (row: EvolutionRow) => RowFigures(d, selected, row)
  }

  /** `evolutionData`: one point per month with data, in ascending order, each with
      the month's figures and the running totals up to it. */
  method EvolutionData(d: Data, selected: string) returns (rows: seq<EvolutionRow>)
    ensures forall m :: (exists k :: 0 <= k < |rows| && rows[k].month == m) <==> m in MonthSet(d)
    ensures forall i, j :: 0 <= i < j < |rows| ==> StrCmp(rows[i].month, rows[j].month) < 0
    ensures forall k :: 0 <= k < |rows| ==> RowFigures(d, selected, rows[k])
    ensures Cumulative(rows)
  {
    var months := CollectMonths(d);
    rows := Accumulate(d, selected, months);
    EveryAll(rows, HasFigures(d, selected));
    RowsFollowMonths(rows, months);
  }

  /** The points of a timeline built from `months` carry those months, in order. */
  lemma RowsFollowMonths(rows: seq<EvolutionRow>, months: seq<string>)
    requires Map(rows, RowMonth()) == months
    ensures |rows| == |months|
    ensures forall k :: 0 <= k < |rows| ==> rows[k].month == months[k]
    ensures forall m :: (exists k :: 0 <= k < |rows| && rows[k].month == m) <==> m in months
  {
    assert forall k :: 0 <= k < |rows| ==> rows[k].month == RowMonth()(rows[k]) == months[k];
    forall m | m in months ensures exists k :: 0 <= k < |rows| && rows[k].month == m {
      var k :| 0 <= k < |months| && months[k] == m;
      assert rows[k].month == m;
    }
  }

  /** The outer loop of lines 80-131: a point per month, carrying the running totals. */
  method Accumulate(d: Data, selected: string, months: seq<string>) returns (rows: seq<EvolutionRow>)
    ensures Map(rows, RowMonth()) == months
    ensures Every(rows, HasFigures(d, selected)) && Cumulative(rows)
  {
    var accPredictedCost, accMeasuredCost, accRHCost := 0.0, 0.0, 0.0;
    var accPredictedHours, accMeasuredHours := 0.0, 0.0;
    rows := [];
    var k := 0;
    while k < |months|
      invariant 0 <= k <= |months|
      invariant Map(rows, RowMonth()) == months[..k]
      invariant Every(rows, HasFigures(d, selected)) && Cumulative(rows)
      invariant accPredictedCost == Sum(rows, MonthPredictedCost())
      invariant accMeasuredCost == Sum(rows, MonthMeasuredCost())
      invariant accRHCost == Sum(rows, MonthRHCost())
      invariant accPredictedHours == Sum(rows, MonthPredictedHours())
      invariant accMeasuredHours == Sum(rows, MonthMeasuredHours())
    {
      var row := NextPoint(d, selected, months[k], accPredictedCost, accMeasuredCost, accRHCost,
                           accPredictedHours, accMeasuredHours);
      AppendPoint(d, selected, rows, row);
      MapSnoc(rows, row, RowMonth());
      PrefixSnoc(months, k);
      accPredictedCost, accMeasuredCost, accRHCost := row.accPredictedCost, row.accMeasuredCost, row.accRHCost;
      accPredictedHours, accMeasuredHours := row.accPredictedHours, row.accMeasuredHours;
      rows := rows + [row];
      k := k + 1;
    }
    assert months[..k] == months;
  }

  /** The body of the outer loop: the month's figures, added to the running totals. */
  method NextPoint(d: Data, selected: string, month: string, accPredictedCost: real, accMeasuredCost: real,
                   accRHCost: real, accPredictedHours: real, accMeasuredHours: real) returns (row: EvolutionRow)
    ensures row.month == month
    ensures RowFigures(d, selected, row)
    ensures row.accPredictedCost == accPredictedCost + row.monthPredictedCost
    ensures row.accMeasuredCost == accMeasuredCost + row.monthMeasuredCost
    ensures row.accRHCost == accRHCost + row.monthRHCost
    ensures row.accPredictedHours == accPredictedHours + row.monthPredictedHours
    ensures row.accMeasuredHours == accMeasuredHours + row.monthMeasuredHours
  {
    var resolved := ResolveMonth(month, selected);
    var f := MonthTotals(d, resolved);
    var rhCost := ActualCost(d, resolved);
    row := EvolutionRow(month, f.predictedCost, f.measuredCost, rhCost,
                        accPredictedCost + f.predictedCost, accMeasuredCost + f.measuredCost, accRHCost + rhCost,
                        f.predictedHours, f.measuredHours,
                        accPredictedHours + f.predictedHours, accMeasuredHours + f.measuredHours);
  }

  /** A point with its month's figures and the running totals so far extends a timeline. */
  lemma AppendPoint(d: Data, selected: string, rows: seq<EvolutionRow>, row: EvolutionRow)
    requires Every(rows, HasFigures(d, selected)) && Cumulative(rows)
    requires RowFigures(d, selected, row)
    requires row.accPredictedCost == Sum(rows, MonthPredictedCost()) + row.monthPredictedCost
    requires row.accMeasuredCost == Sum(rows, MonthMeasuredCost()) + row.monthMeasuredCost
    requires row.accRHCost == Sum(rows, MonthRHCost()) + row.monthRHCost
    requires row.accPredictedHours == Sum(rows, MonthPredictedHours()) + row.monthPredictedHours
    requires row.accMeasuredHours == Sum(rows, MonthMeasuredHours()) + row.monthMeasuredHours
    ensures Every(rows + [row], HasFigures(d, selected)) && Cumulative(rows + [row])
    ensures Sum(rows + [row], MonthPredictedCost()) == row.accPredictedCost
    ensures Sum(rows + [row], MonthMeasuredCost()) == row.accMeasuredCost
    ensures Sum(rows + [row], MonthRHCost()) == row.accRHCost
    ensures Sum(rows + [row], MonthPredictedHours()) == row.accPredictedHours
    ensures Sum(rows + [row], MonthMeasuredHours()) == row.accMeasuredHours
  {
    EverySnoc(rows, row, HasFigures(d, selected));
    AppendKeepsCumulative(rows, row);
    SumSnoc(rows, row, MonthPredictedCost());
    SumSnoc(rows, row, MonthMeasuredCost());
    SumSnoc(rows, row, MonthRHCost());
    SumSnoc(rows, row, MonthPredictedHours());
    SumSnoc(rows, row, MonthMeasuredHours());
  }

  lemma AppendKeepsCumulative(rows: seq<EvolutionRow>, row: EvolutionRow)
    requires Cumulative(rows)
    requires row.accPredictedCost == Sum(rows, MonthPredictedCost()) + row.monthPredictedCost
    requires row.accMeasuredCost == Sum(rows, MonthMeasuredCost()) + row.monthMeasuredCost
    requires row.accRHCost == Sum(rows, MonthRHCost()) + row.monthRHCost
    requires row.accPredictedHours == Sum(rows, MonthPredictedHours()) + row.monthPredictedHours
    requires row.accMeasuredHours == Sum(rows, MonthMeasuredHours()) + row.monthMeasuredHours
    ensures Cumulative(rows + [row])
  {
    RunningSumsSnoc(rows, row, AccPredictedCost(), MonthPredictedCost());
    RunningSumsSnoc(rows, row, AccMeasuredCost(), MonthMeasuredCost());
    RunningSumsSnoc(rows, row, AccRHCost(), MonthRHCost());
    RunningSumsSnoc(rows, row, AccPredictedHours(), MonthPredictedHours());
    RunningSumsSnoc(rows, row, AccMeasuredHours(), MonthMeasuredHours());
  }

  /** On a cumulative timeline whose monthly figures are never negative, no
      accumulated figure ever goes down. */
  lemma CumulativeNonDecreasing(rows: seq<EvolutionRow>, i: int, j: int)
    requires Cumulative(rows)
    requires 0 <= i <= j < |rows|
    requires forall k :: 0 <= k < |rows| ==>
      && rows[k].monthPredictedCost >= 0.0 && rows[k].monthMeasuredCost >= 0.0 && rows[k].monthRHCost >= 0.0
      && rows[k].monthPredictedHours >= 0.0 && rows[k].monthMeasuredHours >= 0.0
    ensures rows[i].accPredictedCost <= rows[j].accPredictedCost
    ensures rows[i].accMeasuredCost <= rows[j].accMeasuredCost
    ensures rows[i].accRHCost <= rows[j].accRHCost
    ensures rows[i].accPredictedHours <= rows[j].accPredictedHours
    ensures rows[i].accMeasuredHours <= rows[j].accMeasuredHours
  {
    RunningSumsMonotone(rows, AccPredictedCost(), MonthPredictedCost(), i, j);
    RunningSumsMonotone(rows, AccMeasuredCost(), MonthMeasuredCost(), i, j);
    RunningSumsMonotone(rows, AccRHCost(), MonthRHCost(), i, j);
    RunningSumsMonotone(rows, AccPredictedHours(), MonthPredictedHours(), i, j);
    RunningSumsMonotone(rows, AccMeasuredHours(), MonthMeasuredHours(), i, j);
  }

  /** The dashboard's state: the month on display. */
  class DashboardView {
    var selectedMonth: string

    constructor (currentMonth: string)
      ensures selectedMonth == currentMonth
    {
      selectedMonth := currentMonth;
    }

    /** `changeMonth`. */
    method ChangeMonth(delta: int)
      modifies this
      ensures selectedMonth == ShiftMonth(old(selectedMonth), delta)
    {
      selectedMonth := ShiftMonth(selectedMonth, delta);
    }
  }
}
