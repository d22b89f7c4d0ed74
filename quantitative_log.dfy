/** The monthly measurement screen: the quantity of each budget item executed in a
    month, the upsert that records it, and the progress it represents. */
module Quantities {
  import opened Seqs
  import opened Types
  import opened Months

  /** `Math.max(0, value)`. */
  function FloorAtZero(value: real): (r: real)
    ensures r >= 0.0
    ensures value >= 0.0 ==> r == value
    ensures value < 0.0 ==> r == 0.0
  {
    if value < 0.0 then 0.0 else value
  }

  function LogKey(itemId: string, month: string): QuantitativeLog -> bool
  {
    (l: QuantitativeLog) => l.budgetItemId == itemId && l.month == month
  }

  function WithQuantity(qty: real): QuantitativeLog -> QuantitativeLog
  {
    (l: QuantitativeLog) => l.(executedQuantity := qty)
  }

  /** `getLog` (for any month): the first measurement of the item in that month. */
  function GetLog(logs: seq<QuantitativeLog>, itemId: string, month: string): (r: Option<QuantitativeLog>)
    ensures r.Some? <==> exists i :: 0 <= i < |logs| && logs[i].budgetItemId == itemId && logs[i].month == month
    ensures r.Some? ==> r.value.budgetItemId == itemId && r.value.month == month
    ensures r.Some? ==>
      exists i :: 0 <= i < |logs| && logs[i] == r.value && forall j :: 0 <= j < i ==> logs[j].budgetItemId != itemId || logs[j].month != month
  {
    Find(logs, LogKey(itemId, month))
  }

  /** The new collection `handleQuantityChange` builds. */
  function UpsertLog(logs: seq<QuantitativeLog>, itemId: string, month: string, value: real, freshId: string): seq<QuantitativeLog>
  {
    Upsert(logs, LogKey(itemId, month), WithQuantity(FloorAtZero(value)),
           QuantitativeLog(freshId, month, itemId, FloorAtZero(value)))
  }

  /** An existing measurement of the item for the month is updated in place: same
      length, same id, every other position unchanged. */
  lemma {:induction false} UpsertLogExisting(logs: seq<QuantitativeLog>, itemId: string, month: string, value: real, freshId: string)
    requires GetLog(logs, itemId, month).Some?
    ensures |UpsertLog(logs, itemId, month, value, freshId)| == |logs|
    ensures GetLog(UpsertLog(logs, itemId, month, value, freshId), itemId, month) ==
      Some(GetLog(logs, itemId, month).value.(executedQuantity := FloorAtZero(value)))
    ensures forall j :: 0 <= j < |logs| && j != FindIndex(logs, LogKey(itemId, month)) ==>
      UpsertLog(logs, itemId, month, value, freshId)[j] == logs[j]
  {
    UpsertFound(logs, LogKey(itemId, month), WithQuantity(FloorAtZero(value)),
                QuantitativeLog(freshId, month, itemId, FloorAtZero(value)));
  }

  /** Without one, exactly one new measurement is appended. */
  lemma {:induction false} UpsertLogMissing(logs: seq<QuantitativeLog>, itemId: string, month: string, value: real, freshId: string)
    requires GetLog(logs, itemId, month).None?
    ensures UpsertLog(logs, itemId, month, value, freshId) == logs + [QuantitativeLog(freshId, month, itemId, FloorAtZero(value))]
    ensures GetLog(UpsertLog(logs, itemId, month, value, freshId), itemId, month) ==
      Some(QuantitativeLog(freshId, month, itemId, FloorAtZero(value)))
  {
    UpsertMissing(logs, LogKey(itemId, month), WithQuantity(FloorAtZero(value)),
                  QuantitativeLog(freshId, month, itemId, FloorAtZero(value)));
  }

  /** The measurement of every other (item, month) reads the same afterwards. */
  lemma {:induction false} UpsertLogOthers(logs: seq<QuantitativeLog>, itemId: string, month: string, value: real, freshId: string,
                                           otherItem: string, otherMonth: string)
    requires otherItem != itemId || otherMonth != month
    ensures GetLog(UpsertLog(logs, itemId, month, value, freshId), otherItem, otherMonth) == GetLog(logs, otherItem, otherMonth)
  {
    UpsertOtherKey(logs, LogKey(itemId, month), WithQuantity(FloorAtZero(value)),
                   QuantitativeLog(freshId, month, itemId, FloorAtZero(value)), LogKey(otherItem, otherMonth));
  }

  /** Repeating the same entry changes nothing more. */
  lemma {:induction false} UpsertLogIdempotent(logs: seq<QuantitativeLog>, itemId: string, month: string, value: real,
                                               freshId: string, freshId2: string)
    ensures UpsertLog(UpsertLog(logs, itemId, month, value, freshId), itemId, month, value, freshId2) ==
      UpsertLog(logs, itemId, month, value, freshId)
  {
    UpsertIdempotent(logs, LogKey(itemId, month), WithQuantity(FloorAtZero(value)),
                     QuantitativeLog(freshId, month, itemId, FloorAtZero(value)),
                     QuantitativeLog(freshId2, month, itemId, FloorAtZero(value)));
  }

  /** `log?.executedQuantity || 0`. */
  function ExecutedOrZero(logs: seq<QuantitativeLog>, itemId: string, month: string): (r: real)
    ensures (forall i :: 0 <= i < |logs| ==> logs[i].executedQuantity >= 0.0) ==> r >= 0.0
  {
    match GetLog(logs, itemId, month)
    case Some(l) => l.executedQuantity
    case None => 0.0
  }

  /** The row's "% Avanço Real": executed over the item's total, as a percentage,
      and 0 for an item without a positive total. */
  function Progress(item: BudgetItem, executed: real): (r: real)
    ensures item.quantity <= 0.0 ==> r == 0.0
    ensures item.quantity > 0.0 && executed >= 0.0 ==> r >= 0.0
    ensures item.quantity > 0.0 ==> (r <= 100.0 <==> executed <= item.quantity)
    ensures item.quantity > 0.0 ==> (r == 100.0 <==> executed == item.quantity)
  {
    if item.quantity > 0.0 then executed / item.quantity * 100.0 else 0.0
  }

  /** A row of a month with nothing recorded for the item shows no progress. */
  lemma NoLogNoProgress(logs: seq<QuantitativeLog>, item: BudgetItem, month: string)
    requires GetLog(logs, item.id, month).None?
    ensures Progress(item, ExecutedOrZero(logs, item.id, month)) == 0.0
  {
  }

  /** The measurement screen's state. */
  class QuantitativeLogScreen {
    var logs: seq<QuantitativeLog>
    var selectedMonth: string

    constructor (logs: seq<QuantitativeLog>, currentMonth: string)
      ensures this.logs == logs && selectedMonth == currentMonth
    {
      this.logs := logs;
      selectedMonth := currentMonth;
    }

    /** `handleQuantityChange`: copy the logs, then assign the floored value to the
        first measurement of the item for the displayed month, or push a new one. */
    method SetQuantity(itemId: string, value: real, freshId: string)
      modifies this`logs
      ensures logs == UpsertLog(old(logs), itemId, selectedMonth, value, freshId)
      ensures GetLog(logs, itemId, selectedMonth).Some?
      ensures GetLog(logs, itemId, selectedMonth).value.executedQuantity == FloorAtZero(value)
    {
      var numValue := FloorAtZero(value);
      var existing := FindIndex(logs, LogKey(itemId, selectedMonth));
      var newLogs := logs;
      if existing >= 0 {
        newLogs := newLogs[existing := newLogs[existing].(executedQuantity := numValue)];
        UpsertLogExisting(logs, itemId, selectedMonth, value, freshId);
      } else {
        newLogs := newLogs + [QuantitativeLog(freshId, selectedMonth, itemId, numValue)];
        UpsertLogMissing(logs, itemId, selectedMonth, value, freshId);
      }
      logs := newLogs;
    }

    /** `changeMonth`. */
    method ChangeMonth(delta: int)
      modifies this`selectedMonth
      ensures selectedMonth == ShiftMonth(old(selectedMonth), delta)
    {
      selectedMonth := ShiftMonth(selectedMonth, delta);
    }
  }
}
