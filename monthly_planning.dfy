/** The monthly plan screen: the share of each budget item expected in a month,
    the upsert that records it, the sum of an item's shares over all months, and
    the quantities and hours the share predicts. */
module Planning {
  import opened Seqs
  import opened Types
  import opened Months

  /** `Math.min(100, Math.max(0, value))`. */
  function Clamp(value: real): (r: real)
    ensures 0.0 <= r <= 100.0
    ensures 0.0 <= value <= 100.0 ==> r == value
    ensures value < 0.0 ==> r == 0.0
    ensures value > 100.0 ==> r == 100.0
  {
    if value < 0.0 then 0.0 else if value > 100.0 then 100.0 else value
  }

  function PlanKey(itemId: string, month: string): MonthlyPlan -> bool
  {
    (p: MonthlyPlan) => p.budgetItemId == itemId && p.month == month
  }

  function WithPercentage(pct: real): MonthlyPlan -> MonthlyPlan
  {
    (p: MonthlyPlan) => p.(projectedPercentage := pct)
  }

  /** `getPlan` (for any month): the first plan of the item for that month. */
  function GetPlan(plans: seq<MonthlyPlan>, itemId: string, month: string): (r: Option<MonthlyPlan>)
    ensures r.Some? <==> exists i :: 0 <= i < |plans| && plans[i].budgetItemId == itemId && plans[i].month == month
    ensures r.Some? ==> r.value.budgetItemId == itemId && r.value.month == month
    ensures r.Some? ==>
      exists i :: 0 <= i < |plans| && plans[i] == r.value && forall j :: 0 <= j < i ==> plans[j].budgetItemId != itemId || plans[j].month != month
  {
    Find(plans, PlanKey(itemId, month))
  }

  /** The new collection `handlePercentageChange` builds. */
  function UpsertPlan(plans: seq<MonthlyPlan>, itemId: string, month: string, value: real, freshId: string): seq<MonthlyPlan>
  {
    Upsert(plans, PlanKey(itemId, month), WithPercentage(Clamp(value)), MonthlyPlan(freshId, month, itemId, Clamp(value)))
  }

  /** When the item already has a plan for the month, that first plan takes the
      clamped value in place, keeping its id, item and month; the length and every
      other position are unchanged. */
  lemma {:induction false} UpsertPlanExisting(plans: seq<MonthlyPlan>, itemId: string, month: string, value: real, freshId: string)
    requires GetPlan(plans, itemId, month).Some?
    ensures |UpsertPlan(plans, itemId, month, value, freshId)| == |plans|
    ensures GetPlan(UpsertPlan(plans, itemId, month, value, freshId), itemId, month) ==
      Some(GetPlan(plans, itemId, month).value.(projectedPercentage := Clamp(value)))
    ensures forall j :: 0 <= j < |plans| && j != FindIndex(plans, PlanKey(itemId, month)) ==>
      UpsertPlan(plans, itemId, month, value, freshId)[j] == plans[j]
  {
    UpsertFound(plans, PlanKey(itemId, month), WithPercentage(Clamp(value)), MonthlyPlan(freshId, month, itemId, Clamp(value)));
  }

  /** Otherwise exactly one new plan, with the fresh id and the clamped value, is appended. */
  lemma {:induction false} UpsertPlanMissing(plans: seq<MonthlyPlan>, itemId: string, month: string, value: real, freshId: string)
    requires GetPlan(plans, itemId, month).None?
    ensures UpsertPlan(plans, itemId, month, value, freshId) == plans + [MonthlyPlan(freshId, month, itemId, Clamp(value))]
    ensures GetPlan(UpsertPlan(plans, itemId, month, value, freshId), itemId, month) ==
      Some(MonthlyPlan(freshId, month, itemId, Clamp(value)))
  {
    UpsertMissing(plans, PlanKey(itemId, month), WithPercentage(Clamp(value)), MonthlyPlan(freshId, month, itemId, Clamp(value)));
  }

  /** The plan of every other (item, month) reads the same afterwards. */
  lemma {:induction false} UpsertPlanOthers(plans: seq<MonthlyPlan>, itemId: string, month: string, value: real, freshId: string,
                                            otherItem: string, otherMonth: string)
    requires otherItem != itemId || otherMonth != month
    ensures GetPlan(UpsertPlan(plans, itemId, month, value, freshId), otherItem, otherMonth) == GetPlan(plans, otherItem, otherMonth)
  {
    UpsertOtherKey(plans, PlanKey(itemId, month), WithPercentage(Clamp(value)), MonthlyPlan(freshId, month, itemId, Clamp(value)),
                PlanKey(otherItem, otherMonth));
  }

  /** Entering the same value twice leaves the plans as entering it once. */
  lemma {:induction false} UpsertPlanIdempotent(plans: seq<MonthlyPlan>, itemId: string, month: string, value: real,
                                                freshId: string, freshId2: string)
    ensures UpsertPlan(UpsertPlan(plans, itemId, month, value, freshId), itemId, month, value, freshId2) ==
      UpsertPlan(plans, itemId, month, value, freshId)
  {
    UpsertIdempotent(plans, PlanKey(itemId, month), WithPercentage(Clamp(value)),
                     MonthlyPlan(freshId, month, itemId, Clamp(value)), MonthlyPlan(freshId2, month, itemId, Clamp(value)));
  }

  /** No two plans share an (item, month) pair. */
  predicate KeysUnique(plans: seq<MonthlyPlan>)
  {
    forall i, j :: 0 <= i < j < |plans| ==>
      plans[i].budgetItemId != plans[j].budgetItemId || plans[i].month != plans[j].month
  }

  /** The upsert never creates a second plan for an (item, month). */
  lemma {:induction false} UpsertPlanKeepsKeysUnique(plans: seq<MonthlyPlan>, itemId: string, month: string, value: real, freshId: string)
    requires KeysUnique(plans)
    ensures KeysUnique(UpsertPlan(plans, itemId, month, value, freshId))
  {
    var r := UpsertPlan(plans, itemId, month, value, freshId);
    if GetPlan(plans, itemId, month).Some? {
      UpsertPlanExisting(plans, itemId, month, value, freshId);
      var k := FindIndex(plans, PlanKey(itemId, month));
      assert forall j :: 0 <= j < |plans| ==>
        r[j].budgetItemId == plans[j].budgetItemId && r[j].month == plans[j].month;
    } else {
      UpsertPlanMissing(plans, itemId, month, value, freshId);
      assert forall j :: 0 <= j < |plans| ==> !PlanKey(itemId, month)(plans[j]);
    }
  }

  function ForItem(itemId: string): MonthlyPlan -> bool
  {
    (p: MonthlyPlan) => p.budgetItemId == itemId
  }

  function Percentage(): MonthlyPlan -> real
  {
    (p: MonthlyPlan) => p.projectedPercentage
  }

  /** `getAccumulatedPercentage`: every month's share of the item, summed, unclamped. */
  function AccumulatedPercentage(plans: seq<MonthlyPlan>, itemId: string): (r: real)
    ensures (forall i :: 0 <= i < |plans| ==> plans[i].projectedPercentage >= 0.0) ==> r >= 0.0
    ensures (forall i :: 0 <= i < |plans| ==> plans[i].budgetItemId != itemId) ==> r == 0.0
  {
    SumFilterBounds(plans, ForItem(itemId), Percentage());
    Sum(Filter(plans, ForItem(itemId)), Percentage())
  }

  /** The accumulated share does not depend on the order in which the months were
      entered: any reordering of the plans gives the same sum. */
  lemma AccumulatedOrderFree(p: seq<MonthlyPlan>, q: seq<MonthlyPlan>, itemId: string)
    requires multiset(p) == multiset(q)
    ensures AccumulatedPercentage(p, itemId) == AccumulatedPercentage(q, itemId)
  {
    FilterPermutation(p, q, ForItem(itemId));
    SumPermutation(Filter(p, ForItem(itemId)), Filter(q, ForItem(itemId)), Percentage());
  }

  /** The row is flagged when the shares add up to more than the whole item. */
  predicate OverAllocated(plans: seq<MonthlyPlan>, itemId: string)
  {
    AccumulatedPercentage(plans, itemId) > 100.0
  }

  /** The share a row shows: the plan's value, or 0 without a plan. */
  function PlannedPercent(plans: seq<MonthlyPlan>, itemId: string, month: string): real
  {
    match GetPlan(plans, itemId, month)
    case Some(p) => p.projectedPercentage
    case None => 0.0
  }

  /** Entering a value moves the item's accumulated share from the old month value
      (0 when there was none) to the clamped new one, and leaves every other
      item's sum alone. */
  lemma {:induction false} UpsertPlanAccumulated(plans: seq<MonthlyPlan>, itemId: string, month: string, value: real, freshId: string,
                                                 otherItem: string)
    ensures AccumulatedPercentage(UpsertPlan(plans, itemId, month, value, freshId), itemId) ==
      AccumulatedPercentage(plans, itemId) - PlannedPercent(plans, itemId, month) + Clamp(value)
    ensures otherItem != itemId ==>
      AccumulatedPercentage(UpsertPlan(plans, itemId, month, value, freshId), otherItem) == AccumulatedPercentage(plans, otherItem)
  {
    var r := UpsertPlan(plans, itemId, month, value, freshId);
    var k := FindIndex(plans, PlanKey(itemId, month));
    if k >= 0 {
      var y := plans[k].(projectedPercentage := Clamp(value));
      assert r == plans[k := y];
      SumFilterReplace(plans, k, y, ForItem(itemId), Percentage());
      SumFilterReplace(plans, k, y, ForItem(otherItem), Percentage());
    } else {
      var added := MonthlyPlan(freshId, month, itemId, Clamp(value));
      assert r == plans + [added];
      SumFilterConcat(plans, [added], ForItem(itemId), Percentage());
      SumFilterConcat(plans, [added], ForItem(otherItem), Percentage());
      SumFilterSingle(added, ForItem(itemId), Percentage());
      SumFilterSingle(added, ForItem(otherItem), Percentage());
    }
  }

  /** Even with every stored share clamped, two months of 60% add up to 120% and
      flag the item. */
  lemma SharesCanExceedWhole(a: MonthlyPlan, b: MonthlyPlan)
    requires a.budgetItemId == b.budgetItemId
    requires a.projectedPercentage == 60.0 && b.projectedPercentage == 60.0
    ensures AccumulatedPercentage([a, b], a.budgetItemId) == 120.0
    ensures OverAllocated([a, b], a.budgetItemId)
  {
    SumFilterConcat([a], [b], ForItem(a.budgetItemId), Percentage());
    SumFilterSingle(a, ForItem(a.budgetItemId), Percentage());
    SumFilterSingle(b, ForItem(a.budgetItemId), Percentage());
    assert [a] + [b] == [a, b];
  }

  /** The quantity and the hours of each role a share of an item stands for. */
  datatype Planned = Planned(qty: real, hoursProf: real, hoursServ: real)

  const NOTHING_PLANNED: Planned := Planned(0.0, 0.0, 0.0)

  /** `(item.quantity * percent) / 100` and the same for both hour estimates. */
  function Share(item: BudgetItem, percent: real): Planned
  {
    Planned(item.quantity * percent / 100.0, item.estimatedProfHours * percent / 100.0,
            item.estimatedServHours * percent / 100.0)
  }

  /** Shares are linear in the percentage: they add, they scale, 0% is nothing and
      100% is the whole item. */
  lemma ShareIsLinear(item: BudgetItem, p: real, q: real, c: real)
    ensures Share(item, p + q) == Planned(Share(item, p).qty + Share(item, q).qty,
                                          Share(item, p).hoursProf + Share(item, q).hoursProf,
                                          Share(item, p).hoursServ + Share(item, q).hoursServ)
    ensures Share(item, c * p) == Planned(c * Share(item, p).qty, c * Share(item, p).hoursProf, c * Share(item, p).hoursServ)
    ensures Share(item, 0.0) == NOTHING_PLANNED
    ensures Share(item, 100.0) == Planned(item.quantity, item.estimatedProfHours, item.estimatedServHours)
  {
  }

  /** The predicted columns of a plan row. */
  function RowPrediction(plans: seq<MonthlyPlan>, item: BudgetItem, month: string): (r: Planned)
    ensures GetPlan(plans, item.id, month).None? ==> r == NOTHING_PLANNED
    ensures GetPlan(plans, item.id, month).Some? ==> r == Share(item, GetPlan(plans, item.id, month).value.projectedPercentage)
  {
    Share(item, PlannedPercent(plans, item.id, month))
  }

  /** The plan screen's state: the plans it edits and the month on display. */
  class MonthlyPlanning {
    var plans: seq<MonthlyPlan>
    var selectedMonth: string

    constructor (plans: seq<MonthlyPlan>, currentMonth: string)
      ensures this.plans == plans && selectedMonth == currentMonth
    {
      this.plans := plans;
      selectedMonth := currentMonth;
    }

    /** `handlePercentageChange`: copy the plans, then assign the clamped value to
        the first plan of the item for the displayed month, or push a new one. */
    method SetPercentage(itemId: string, value: real, freshId: string)
      modifies this`plans
      ensures plans == UpsertPlan(old(plans), itemId, selectedMonth, value, freshId)
      ensures KeysUnique(old(plans)) ==> KeysUnique(plans)
      ensures GetPlan(plans, itemId, selectedMonth).Some?
      ensures GetPlan(plans, itemId, selectedMonth).value.projectedPercentage == Clamp(value)
    {
      var numValue := Clamp(value);
      var existing := FindIndex(plans, PlanKey(itemId, selectedMonth));
      var newPlans := plans;
      if existing >= 0 {
        newPlans := newPlans[existing := newPlans[existing].(projectedPercentage := numValue)];
        UpsertPlanExisting(plans, itemId, selectedMonth, value, freshId);
      } else {
        newPlans := newPlans + [MonthlyPlan(freshId, selectedMonth, itemId, numValue)];
        UpsertPlanMissing(plans, itemId, selectedMonth, value, freshId);
      }
      if KeysUnique(plans) {
        UpsertPlanKeepsKeysUnique(plans, itemId, selectedMonth, value, freshId);
      }
      plans := newPlans;
    }

    /** `changeMonth`. */
    method ChangeMonth(delta: int)
      modifies this`selectedMonth
      ensures selectedMonth == ShiftMonth(old(selectedMonth), delta)
    {
      selectedMonth := ShiftMonth(selectedMonth, delta);
    }
  }
}
