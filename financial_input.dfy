/** The payroll screen: one record of hours and costs per month, read with a
    zero default and saved by replacing whatever the month had. */
module Financial {
  import opened Seqs
  import opened Types
  import opened Months

  function InRecordMonth(month: string): FinancialRecord -> bool
  {
    (r: FinancialRecord) => r.month == month
  }

  function NotRecordMonth(month: string): FinancialRecord -> bool
  {
    (r: FinancialRecord) => r.month != month
  }

  /** The record shown for a month that has none: no id and all zeros. */
  function EmptyRecord(month: string): FinancialRecord
  {
    FinancialRecord("", month, 0.0, 0.0, 0.0)
  }

  /** `getCurrentRecord`: the first record of the month, else the empty one. */
  function CurrentRecord(records: seq<FinancialRecord>, month: string): (r: FinancialRecord)
    ensures r.month == month
    ensures (forall i :: 0 <= i < |records| ==> records[i].month != month) ==> r == EmptyRecord(month)
    ensures (exists i :: 0 <= i < |records| && records[i].month == month) ==>
      exists i :: 0 <= i < |records| && records[i] == r && forall j :: 0 <= j < i ==> records[j].month != month
  {
    var k := FindIndex(records, InRecordMonth(month));
    if k >= 0 then records[k] else EmptyRecord(month)
  }

  /** The record `handleSave` pushes: the form, with its id kept when it has one
      (else the fresh id) and its month forced to the month on display. */
  function SavedRecord(form: FinancialRecord, month: string, freshId: string): FinancialRecord
  {
    form.(id := if form.id != "" then form.id else freshId, month := month)
  }

  /** The new collection `handleSave` builds: the other months' records, then the saved one. */
  function SaveRecord(records: seq<FinancialRecord>, month: string, form: FinancialRecord, freshId: string): seq<FinancialRecord>
  {
    Filter(records, NotRecordMonth(month)) + [SavedRecord(form, month, freshId)]
  }

  /** No record is left for the month once its records are filtered out. */
  lemma NoneLeftForMonth(records: seq<FinancialRecord>, month: string)
    ensures Filter(Filter(records, NotRecordMonth(month)), InRecordMonth(month)) == []
  {
    var kept := Filter(records, NotRecordMonth(month));
    FilterKeepsNone(kept, InRecordMonth(month));
  }

  /** After saving, the month has exactly one record: the saved one, which is last. */
  lemma {:induction false} SaveRecordOnePerMonth(records: seq<FinancialRecord>, month: string, form: FinancialRecord, freshId: string)
    ensures Filter(SaveRecord(records, month, form, freshId), InRecordMonth(month)) == [SavedRecord(form, month, freshId)]
    ensures SaveRecord(records, month, form, freshId)[|SaveRecord(records, month, form, freshId)| - 1] == SavedRecord(form, month, freshId)
  {
    var kept := Filter(records, NotRecordMonth(month));
    FilterSnoc(kept, SavedRecord(form, month, freshId), InRecordMonth(month));
    NoneLeftForMonth(records, month);
  }

  /** The other months' records are those of before, in their order. */
  lemma {:induction false} SaveRecordKeepsOthers(records: seq<FinancialRecord>, month: string, form: FinancialRecord, freshId: string)
    ensures Filter(SaveRecord(records, month, form, freshId), NotRecordMonth(month)) == Filter(records, NotRecordMonth(month))
  {
    var kept := Filter(records, NotRecordMonth(month));
    FilterSnoc(kept, SavedRecord(form, month, freshId), NotRecordMonth(month));
    FilterIdempotent(records, NotRecordMonth(month));
  }

  /** Reading the month after saving gives back the saved record, with its id kept
      when the form had one. */
  lemma {:induction false} SaveRecordRead(records: seq<FinancialRecord>, month: string, form: FinancialRecord, freshId: string)
    ensures CurrentRecord(SaveRecord(records, month, form, freshId), month) == SavedRecord(form, month, freshId)
    ensures form.id != "" ==> SavedRecord(form, month, freshId).id == form.id
    ensures freshId != "" ==> SavedRecord(form, month, freshId).id != ""
  {
    var kept := Filter(records, NotRecordMonth(month));
    var r := SaveRecord(records, month, form, freshId);
    assert forall i :: 0 <= i < |kept| ==> r[i] == kept[i] && kept[i].month != month;
    assert r[|kept|] == SavedRecord(form, month, freshId);
    assert FindIndex(r, InRecordMonth(month)) == |kept|;
  }

  /** A payroll form field. */
  datatype Field = HrHours | PayrollCost | IndirectCost

  /** The payroll screen's state: the records, the month on display and the form. */
  class FinancialInput {
    var records: seq<FinancialRecord>
    var selectedMonth: string
    var formData: FinancialRecord

    /** The form starts from the current month's record. */
    constructor (records: seq<FinancialRecord>, currentMonth: string)
      ensures this.records == records && selectedMonth == currentMonth
      ensures formData == CurrentRecord(records, currentMonth)
    {
      this.records := records;
      selectedMonth := currentMonth;
      formData := CurrentRecord(records, currentMonth);
    }

    /** `handleChange`: one numeric field of the form takes the entered number. */
    method HandleChange(field: Field, value: real)
      modifies this`formData
      ensures formData == match field
        case HrHours => old(formData).(hrHours := value)
        case PayrollCost => old(formData).(payrollCost := value)
        case IndirectCost => old(formData).(indirectCost := value)
    {
      match field
      case HrHours => formData := formData.(hrHours := value);
      case PayrollCost => formData := formData.(payrollCost := value);
      case IndirectCost => formData := formData.(indirectCost := value);
    }

    /** `handleSave`: filter out the month's records, then push the saved one. */
    method HandleSave(freshId: string)
      modifies this`records
      ensures records == SaveRecord(old(records), selectedMonth, formData, freshId)
      ensures CurrentRecord(records, selectedMonth) == SavedRecord(formData, selectedMonth, freshId)
      ensures |Filter(records, InRecordMonth(selectedMonth))| == 1
    {
      var newRecords := Filter(records, NotRecordMonth(selectedMonth));
      newRecords := newRecords + [SavedRecord(formData, selectedMonth, freshId)];
      SaveRecordOnePerMonth(records, selectedMonth, formData, freshId);
      SaveRecordRead(records, selectedMonth, formData, freshId);
      records := newRecords;
    }

    /** `changeMonth`. */
    method ChangeMonth(delta: int)
      modifies this`selectedMonth
      ensures selectedMonth == ShiftMonth(old(selectedMonth), delta)
    {
      selectedMonth := ShiftMonth(selectedMonth, delta);
    }
  }
}
