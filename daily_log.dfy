/** The daily hour log: the hours a collaborator has on a date, the hours a role
    has consumed on a budget item, and the gate every new entry passes (positive
    hours, the 8-hour daily ceiling, a justification when the item's budget for
    the role is exceeded). */
module Daily {
  import opened Seqs
  import opened Types

  function LogHours(): DailyLogEntry -> real
  {
    (l: DailyLogEntry) => l.hours
  }

  function OnDay(date: string, collaboratorId: string): DailyLogEntry -> bool
  {
    (l: DailyLogEntry) => l.date == date && l.collaboratorId == collaboratorId
  }

  /** `getCollaboratorHours`: the hours of the logs of that collaborator on that date
      (the logs of the date, then those of the collaborator). */
  function DayHours(logs: seq<DailyLogEntry>, date: string, collaboratorId: string): (r: real)
    ensures (forall i :: 0 <= i < |logs| ==> logs[i].hours >= 0.0) ==> r >= 0.0
  {
    SumFilterBounds(logs, OnDay(date, collaboratorId), LogHours());
    Sum(Filter(logs, OnDay(date, collaboratorId)), LogHours())
  }

  /** The "available hours" shown for the collaborator; negative when over the ceiling. */
  function AvailableHours(logs: seq<DailyLogEntry>, date: string, collaboratorId: string): (r: real)
    ensures r >= 0.0 <==> DayHours(logs, date, collaboratorId) <= DAILY_WORK_HOURS
  {
    DAILY_WORK_HOURS - DayHours(logs, date, collaboratorId)
  }

  /** Appending an entry adds its hours to its own (date, collaborator) total and to no other. */
  lemma DayHoursAppend(logs: seq<DailyLogEntry>, e: DailyLogEntry, date: string, collaboratorId: string)
    ensures DayHours(logs + [e], date, collaboratorId) ==
      DayHours(logs, date, collaboratorId) + (if e.date == date && e.collaboratorId == collaboratorId then e.hours else 0.0)
  {
    var keep := OnDay(date, collaboratorId);
    FilterSnoc(logs, e, keep);
    if keep(e) {
      SumSnoc(Filter(logs, keep), e, LogHours());
    } else {
      assert Filter(logs, keep) + [] == Filter(logs, keep);
    }
  }

  /** With no negative hours, dropping entries never raises a daily total. */
  lemma {:induction false} DayHoursFilterAtMost(logs: seq<DailyLogEntry>, keep: DailyLogEntry -> bool, date: string, collaboratorId: string)
    requires forall i :: 0 <= i < |logs| ==> logs[i].hours >= 0.0
    ensures DayHours(Filter(logs, keep), date, collaboratorId) <= DayHours(logs, date, collaboratorId)
  {
    if logs != [] {
      var n := |logs| - 1;
      var front := logs[..n];
      assert logs == front + [logs[n]];
      DayHoursFilterAtMost(front, keep, date, collaboratorId);
      DayHoursAppend(front, logs[n], date, collaboratorId);
      FilterSnoc(front, logs[n], keep);
      if keep(logs[n]) {
        DayHoursAppend(Filter(front, keep), logs[n], date, collaboratorId);
      } else {
        assert Filter(logs, keep) == Filter(front, keep);
      }
    }
  }

  /** Whether a log counts for an item and role: it is on the item and its
      collaborator is on the team with that role (`worker?.role === role`). */
  function CountsFor(team: seq<Collaborator>, itemId: string, role: Role): DailyLogEntry -> bool
  {
    (l: DailyLogEntry) => l.budgetItemId == itemId && RoleOf(team, l.collaboratorId) == Some(role)
  }

  /** `getTotalConsumedHoursForItem`: over every date, not only the selected one. */
  function ConsumedHours(team: seq<Collaborator>, logs: seq<DailyLogEntry>, itemId: string, role: Role): (r: real)
    ensures (forall i :: 0 <= i < |logs| ==> logs[i].hours >= 0.0) ==> r >= 0.0
    ensures (forall i :: 0 <= i < |logs| ==> logs[i].budgetItemId != itemId) ==> r == 0.0
  {
    SumFilterBounds(logs, CountsFor(team, itemId, role), LogHours());
    Sum(Filter(logs, CountsFor(team, itemId, role)), LogHours())
  }

  /** The consumption panel of the entry form. */
  datatype Stats = Stats(limit: real, consumed: real, remaining: real, role: Role)

  /** `!id` for the selected collaborator: nothing selected, or an empty id. */
  predicate Selected(id: Option<string>)
  {
    id.Some? && id.value != ""
  }

  /** `itemStats`: present only when an item is chosen, the selected collaborator is
      on the team and the item is in the budget; the limit is the role's estimate. */
  function ItemStats(team: seq<Collaborator>, budget: seq<BudgetItem>, logs: seq<DailyLogEntry>,
                     itemId: string, collaboratorId: Option<string>): (r: Option<Stats>)
    ensures r.Some? <==>
      && itemId != "" && collaboratorId.Some?
      && RoleOf(team, collaboratorId.value).Some?
      && FindItem(budget, itemId).Some?
    ensures r.Some? ==>
      && r.value.role == RoleOf(team, collaboratorId.value).value
      && r.value.limit == EstimatedHours(FindItem(budget, itemId).value, r.value.role)
      && r.value.consumed == ConsumedHours(team, logs, itemId, r.value.role)
      && r.value.remaining == r.value.limit - r.value.consumed
  {
    if itemId == "" || collaboratorId.None? then None
    else
      match RoleOf(team, collaboratorId.value)
      case None => None
      case Some(role) =>
        match FindItem(budget, itemId)
        case None => None
        case Some(item) =>
          var limit := EstimatedHours(item, role);
          var consumed := ConsumedHours(team, logs, item.id, role);
          Some(Stats(limit, consumed, limit - consumed, role))
  }

  /** `isOverBudget`: false without stats. */
  predicate IsOverBudget(stats: Option<Stats>, hours: real)
  {
    stats.Some? && stats.value.consumed + hours > stats.value.limit
  }

  /** What `handleAddEntry` does with the form. */
  datatype Outcome =
    | Ignored
    | ExceedsDailyLimit(currentHours: real)
    | JustificationRequired
    | Added(entry: DailyLogEntry)

  /** The entry gate, in the order the handler checks: selection and positive
      hours, then the daily ceiling, then the justification demanded when the
      entry takes the item over the role's budget. */
  function Decide(team: seq<Collaborator>, budget: seq<BudgetItem>, logs: seq<DailyLogEntry>,
                  date: string, collaboratorId: Option<string>, itemId: string, hours: real,
                  justification: string, freshId: string): (r: Outcome)
    ensures r.Ignored? <==> !Selected(collaboratorId) || itemId == "" || hours <= 0.0
    ensures r.ExceedsDailyLimit? <==>
      !r.Ignored? && DayHours(logs, date, collaboratorId.value) + hours > DAILY_WORK_HOURS
    ensures r.JustificationRequired? <==>
      && !r.Ignored? && !r.ExceedsDailyLimit?
      && IsOverBudget(ItemStats(team, budget, logs, itemId, collaboratorId), hours) && IsBlank(justification)
    ensures r.Added? ==>
      && r.entry.id == freshId && r.entry.date == date && r.entry.collaboratorId == collaboratorId.value
      && r.entry.budgetItemId == itemId && r.entry.hours == hours && r.entry.hours > 0.0
      && DayHours(logs, date, collaboratorId.value) + hours <= DAILY_WORK_HOURS
      && (r.entry.justification.Some? <==> IsOverBudget(ItemStats(team, budget, logs, itemId, collaboratorId), hours))
      && (r.entry.justification.Some? ==> r.entry.justification.value == justification && !IsBlank(justification))
  {
    if !Selected(collaboratorId) || itemId == "" || hours <= 0.0 then Ignored
    else
      var current := DayHours(logs, date, collaboratorId.value);
      if current + hours > DAILY_WORK_HOURS then ExceedsDailyLimit(current)
      else
        var over := IsOverBudget(ItemStats(team, budget, logs, itemId, collaboratorId), hours);
        if over && IsBlank(justification) then JustificationRequired
        else Added(DailyLogEntry(freshId, date, collaboratorId.value, itemId, hours,
                                 if over then Some(justification) else None))
  }

  /** The ceiling sits at exactly 8: on a day with 6 hours, 3 more are refused and
      2 more pass the ceiling check. */
  lemma CeilingBoundary(team: seq<Collaborator>, budget: seq<BudgetItem>, logs: seq<DailyLogEntry>,
                        date: string, c: string, itemId: string, justification: string, freshId: string)
    requires c != "" && itemId != ""
    requires DayHours(logs, date, c) == 6.0
    ensures Decide(team, budget, logs, date, Some(c), itemId, 3.0, justification, freshId).ExceedsDailyLimit?
    ensures !Decide(team, budget, logs, date, Some(c), itemId, 2.0, justification, freshId).ExceedsDailyLimit?
    ensures !Decide(team, budget, logs, date, Some(c), itemId, 2.0, justification, freshId).Ignored?
  {
  }

  /** Every (date, collaborator) total that occurs in the log is within the ceiling. */
  predicate WithinCeiling(logs: seq<DailyLogEntry>)
  {
    forall i :: 0 <= i < |logs| ==> DayHours(logs, logs[i].date, logs[i].collaboratorId) <= DAILY_WORK_HOURS
  }

  predicate PositiveHours(logs: seq<DailyLogEntry>)
  {
    forall i :: 0 <= i < |logs| ==> logs[i].hours > 0.0
  }

  /** The application starts from an empty log, which keeps both invariants. */
  lemma EmptyLogValid()
    ensures WithinCeiling([]) && PositiveHours([])
  {
  }

  /** An entry that fits under its own day's ceiling keeps the whole log within it. */
  lemma AppendKeepsCeiling(logs: seq<DailyLogEntry>, e: DailyLogEntry)
    requires WithinCeiling(logs)
    requires DayHours(logs, e.date, e.collaboratorId) + e.hours <= DAILY_WORK_HOURS
    ensures WithinCeiling(logs + [e])
  {
    var s := logs + [e];
    forall i | 0 <= i < |s| ensures DayHours(s, s[i].date, s[i].collaboratorId) <= DAILY_WORK_HOURS {
      DayHoursAppend(logs, e, s[i].date, s[i].collaboratorId);
      if i < |logs| {
        assert s[i] == logs[i];
      }
    }
  }

  /** Removing entries from a log of positive hours keeps it within the ceiling. */
  lemma FilterKeepsCeiling(logs: seq<DailyLogEntry>, keep: DailyLogEntry -> bool)
    requires WithinCeiling(logs) && PositiveHours(logs)
    ensures WithinCeiling(Filter(logs, keep)) && PositiveHours(Filter(logs, keep))
  {
    var s := Filter(logs, keep);
    forall i | 0 <= i < |s| ensures DayHours(s, s[i].date, s[i].collaboratorId) <= DAILY_WORK_HOURS {
      var j :| 0 <= j < |logs| && logs[j] == s[i];
      DayHoursFilterAtMost(logs, keep, s[i].date, s[i].collaboratorId);
    }
    forall i | 0 <= i < |s| ensures s[i].hours > 0.0 {
      var j :| 0 <= j < |logs| && logs[j] == s[i];
    }
  }

  /** An entry of positive hours that fits under its day's ceiling keeps both
      invariants; every entry the gate admits is one. */
  lemma AppendKeepsInvariant(logs: seq<DailyLogEntry>, e: DailyLogEntry)
    requires WithinCeiling(logs) && PositiveHours(logs)
    requires e.hours > 0.0 && DayHours(logs, e.date, e.collaboratorId) + e.hours <= DAILY_WORK_HOURS
    ensures WithinCeiling(logs + [e]) && PositiveHours(logs + [e])
  {
    AppendKeepsCeiling(logs, e);
    var s := logs + [e];
    forall i | 0 <= i < |s| ensures s[i].hours > 0.0 {
      if i < |logs| { assert s[i] == logs[i]; }
    }
  }

  /** `logs.filter(l => l.id !== logId)`. */
  function WithoutEntry(logs: seq<DailyLogEntry>, id: string): seq<DailyLogEntry>
  {
    Filter(logs, NotEntry(id))
  }

  function NotEntry(id: string): DailyLogEntry -> bool
  {
    (l: DailyLogEntry) => l.id != id
  }

  /** Deletion drops exactly the entries with that id and keeps the others in order. */
  lemma {:induction false} WithoutEntrySpec(logs: seq<DailyLogEntry>, id: string, front: seq<DailyLogEntry>, back: seq<DailyLogEntry>)
    requires logs == front + back
    ensures forall i :: 0 <= i < |WithoutEntry(logs, id)| ==> WithoutEntry(logs, id)[i].id != id
    ensures forall i :: 0 <= i < |logs| && logs[i].id != id ==> logs[i] in WithoutEntry(logs, id)
    ensures WithoutEntry(logs, id) == WithoutEntry(front, id) + WithoutEntry(back, id)
  {
    FilterConcat(front, back, NotEntry(id));
  }

  /** The log screen: the collections it is given, the log it edits, and the form. */
  class DailyLog {
    var team: seq<Collaborator>
    var budget: seq<BudgetItem>
    var logs: seq<DailyLogEntry>
    var selectedDate: string
    var selectedCollaboratorId: Option<string>
    var entryHours: real
    var selectedBudgetItemId: string
    var justification: string
    var showForm: bool

    ghost predicate Valid()
      reads this
    {
      WithinCeiling(logs) && PositiveHours(logs)
    }

    constructor (team: seq<Collaborator>, budget: seq<BudgetItem>, logs: seq<DailyLogEntry>, today: string)
      ensures this.team == team && this.budget == budget && this.logs == logs
      ensures selectedDate == today && selectedCollaboratorId == None
      ensures entryHours == 0.0 && selectedBudgetItemId == "" && justification == "" && !showForm
      ensures logs == [] ==> Valid()
    {
      this.team := team;
      this.budget := budget;
      this.logs := logs;
      selectedDate := today;
      selectedCollaboratorId := None;
      entryHours := 0.0;
      selectedBudgetItemId := "";
      justification := "";
      showForm := false;
    }

    /** `handleAddEntry`: the gate decides; an accepted entry goes at the end of the
        log and the form is reset, anything else changes nothing. */
    method AddEntry(freshId: string) returns (outcome: Outcome)
      modifies this`logs, this`entryHours, this`justification, this`showForm
      ensures outcome == Decide(team, budget, old(logs), selectedDate, selectedCollaboratorId,
                                selectedBudgetItemId, old(entryHours), old(justification), freshId)
      ensures outcome.Added? ==>
        logs == old(logs) + [outcome.entry] && entryHours == 0.0 && justification == "" && !showForm
      ensures !outcome.Added? ==>
        logs == old(logs) && entryHours == old(entryHours) && justification == old(justification) && showForm == old(showForm)
      ensures old(Valid()) ==> Valid()
    {
      outcome := Decide(team, budget, logs, selectedDate, selectedCollaboratorId,
                        selectedBudgetItemId, entryHours, justification, freshId);
      if outcome.Added? {
        if Valid() {
          AppendKeepsInvariant(logs, outcome.entry);
        }
        logs := logs + [outcome.entry];
        entryHours := 0.0;
        justification := "";
        showForm := false;
      }
    }

    /** `handleDeleteEntry`. */
    method DeleteEntry(id: string)
      modifies this`logs
      ensures logs == WithoutEntry(old(logs), id)
      ensures old(Valid()) ==> Valid()
    {
      if Valid() {
        FilterKeepsCeiling(logs, NotEntry(id));
      }
      logs := WithoutEntry(logs, id);
    }
  }
}
