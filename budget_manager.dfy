/** The budget screen: adding an item from the form, removing one, clearing the
    budget, and merging the rows of an imported spreadsheet. After every change
    that adds items the budget is sorted by the numeric-aware code order. */
module Budget {
  import opened Seqs
  import opened Types
  import opened Ordering

  /** `a.code.localeCompare(b.code, undefined, { numeric: true }) < 0`. */
  predicate CodeBefore(a: BudgetItem, b: BudgetItem)
  {
    CodeCmp(a.code, b.code) < 0
  }

  lemma CodeBeforeIsStrictOrder()
    ensures StrictOrder(CodeBefore)
  {
    forall a, b | CodeBefore(a, b) ensures !CodeBefore(b, a) {
      CodeCmpIsTotalPreorder(a.code, b.code, b.code);
    }
    forall a, b, c | CodeBefore(a, b) && CodeBefore(b, c) ensures CodeBefore(a, c) {
      CodeCmpIsTotalPreorder(a.code, b.code, c.code);
      CodeCmpIsTotalPreorder(c.code, a.code, b.code);
      CodeCmpIsTotalPreorder(b.code, c.code, a.code);
    }
  }

  /** Every item's code is at or before the codes of the items after it. */
  predicate CodeSorted(s: seq<BudgetItem>)
  {
    forall i, j :: 0 <= i < j < |s| ==> CodeCmp(s[i].code, s[j].code) <= 0
  }

  lemma CodeSortedIsSortedBy(s: seq<BudgetItem>)
    ensures CodeSorted(s) <==> SortedBy(s, CodeBefore)
  {
    forall i, j | 0 <= i < j < |s| ensures CodeCmp(s[i].code, s[j].code) <= 0 <==> !CodeBefore(s[j], s[i]) {
      CodeCmpIsTotalPreorder(s[i].code, s[j].code, s[j].code);
    }
  }

  /** The `sort` by code; ties keep their order, as JavaScript's sort is stable. */
  function SortByCode(s: seq<BudgetItem>): seq<BudgetItem>
  {
    SortBy(s, CodeBefore)
  }

  /** Sorting by code yields a code-sorted permutation of its input. */
  lemma SortByCodeSpec(s: seq<BudgetItem>)
    ensures CodeSorted(SortByCode(s))
    ensures multiset(SortByCode(s)) == multiset(s)
    ensures |SortByCode(s)| == |s|
  {
    CodeBeforeIsStrictOrder();
    SortBySorted(s, CodeBefore);
    CodeSortedIsSortedBy(SortByCode(s));
  }

  /** Items whose codes compare equal keep the order they had before the sort. */
  lemma SortByCodeStable(s: seq<BudgetItem>, x: BudgetItem)
    ensures Filter(SortByCode(s), TiedWith(CodeBefore, x)) == Filter(s, TiedWith(CodeBefore, x))
  {
    CodeBeforeIsStrictOrder();
    forall a, b, c | Tied(CodeBefore, a, b) && CodeBefore(b, c) ensures CodeBefore(a, c) {
      CodeCmpIsTotalPreorder(c.code, a.code, b.code);
      CodeCmpIsTotalPreorder(a.code, b.code, c.code);
      CodeCmpIsTotalPreorder(b.code, c.code, a.code);
    }
    SortByStable(s, CodeBefore, x);
  }

  /** A second segment compares by its number: "1.2" goes before "1.10". */
  lemma NumericCodeOrder()
    ensures CodeCmp("1.2", "1.10") < 0
  {
    assert AllDigits("1") && AllDigits("2") && AllDigits("10");
    assert DigitsValue("10") == 10 by {
      assert "10"[..1] == "1";
    }
    assert "1" + "." + "2" == "1.2";
    assert "1" + "." + "10" == "1.10";
    NumericSegmentsCompareAsNumbers("1", "2", "10");
  }

  /** `budget.filter(i => i.id !== id)`. */
  function WithoutItem(budget: seq<BudgetItem>, id: string): seq<BudgetItem>
  {
    Filter(budget, NotItem(id))
  }

  function NotItem(id: string): BudgetItem -> bool
  {
    (b: BudgetItem) => b.id != id
  }

  /** Removal drops exactly the items with that id, keeps every other item, keeps
      their order (it distributes over any split of the budget) and keeps a
      code-sorted budget sorted. */
  lemma {:induction false} WithoutItemSpec(budget: seq<BudgetItem>, id: string, front: seq<BudgetItem>, back: seq<BudgetItem>)
    requires budget == front + back
    ensures forall i :: 0 <= i < |WithoutItem(budget, id)| ==> WithoutItem(budget, id)[i].id != id
    ensures forall i :: 0 <= i < |budget| && budget[i].id != id ==> budget[i] in WithoutItem(budget, id)
    ensures WithoutItem(budget, id) == WithoutItem(front, id) + WithoutItem(back, id)
    ensures CodeSorted(budget) ==> CodeSorted(WithoutItem(budget, id))
  {
    FilterConcat(front, back, NotItem(id));
    if CodeSorted(budget) {
      WithoutItemKeepsSorted(budget, id);
    }
  }

  lemma WithoutItemKeepsSorted(budget: seq<BudgetItem>, id: string)
    requires CodeSorted(budget)
    ensures CodeSorted(WithoutItem(budget, id))
  {
    CodeSortedIsSortedBy(budget);
    FilterSorted(budget, NotItem(id), CodeBefore);
    CodeSortedIsSortedBy(WithoutItem(budget, id));
  }

  /** The add form: text fields, and numeric fields whose reading is None when the
      input is empty of a number (`Number(x)` is NaN). */
  datatype ItemForm = ItemForm(
    code: string,
    description: string,
    unit: string,
    quantity: Option<real>,
    estimatedValue: Option<real>,
    estimatedProfHours: Option<real>,
    estimatedServHours: Option<real>)

  const EMPTY_FORM: ItemForm := ItemForm("", "", "", Some(0.0), Some(0.0), Some(0.0), Some(0.0))

  /** `Number(x) || 0`: a number that is missing (or zero) becomes 0. */
  function NumberOrZero(x: Option<real>): real
  {
    if x.Some? then x.value else 0.0
  }

  /** The item `addItem` builds: the unit defaults to "un" and the numbers to 0. */
  function FormItem(id: string, form: ItemForm): (r: BudgetItem)
    ensures r.id == id && r.code == form.code && r.description == form.description
    ensures form.unit != "" ==> r.unit == form.unit
    ensures form.unit == "" ==> r.unit == "un"
    ensures form.quantity.Some? ==> r.quantity == form.quantity.value
    ensures form.quantity.None? ==> r.quantity == 0.0
    ensures form.estimatedValue.Some? ==> r.estimatedValue == form.estimatedValue.value
    ensures form.estimatedValue.None? ==> r.estimatedValue == 0.0
    ensures form.estimatedProfHours.Some? ==> r.estimatedProfHours == form.estimatedProfHours.value
    ensures form.estimatedProfHours.None? ==> r.estimatedProfHours == 0.0
    ensures form.estimatedServHours.Some? ==> r.estimatedServHours == form.estimatedServHours.value
    ensures form.estimatedServHours.None? ==> r.estimatedServHours == 0.0
  {
    BudgetItem(id, form.code, form.description, if form.unit == "" then "un" else form.unit,
               NumberOrZero(form.quantity), NumberOrZero(form.estimatedValue),
               NumberOrZero(form.estimatedProfHours), NumberOrZero(form.estimatedServHours))
  }

  /** A spreadsheet cell as `sheet_to_json` hands it over: text (with the value
      `Number` reads from it) or a number (with the text `String` prints for it). */
  datatype Cell = Text(text: string, number: real) | Num(value: real, printed: string)

  type Row = map<string, Cell>

  /** JavaScript truthiness of a cell: non-empty text, a non-zero number. */
  predicate Truthy(c: Cell)
  {
    match c
    case Text(t, _) => t != ""
    case Num(v, _) => v != 0.0
  }

  predicate TruthyAt(row: Row, key: string)
  {
    key in row && Truthy(row[key])
  }

  function CellText(c: Cell): string
  {
    match c
    case Text(t, _) => t
    case Num(_, p) => p
  }

  function CellNumber(c: Cell): real
  {
    match c
    case Text(_, n) => n
    case Num(v, _) => v
  }

  /** `row[k0] || row[k1] || …`: the cell under the first header that holds a truthy
      value, or None when no header does. */
  function FirstTruthy(row: Row, keys: seq<string>): (r: Option<Cell>)
    ensures r.None? <==> forall i :: 0 <= i < |keys| ==> !TruthyAt(row, keys[i])
    ensures r.Some? ==> exists i :: 0 <= i < |keys| && TruthyAt(row, keys[i]) && row[keys[i]] == r.value
                                    && forall j :: 0 <= j < i ==> !TruthyAt(row, keys[j])
  {
    if keys == [] then None
    else if TruthyAt(row, keys[0]) then Some(row[keys[0]])
    else
      var r := FirstTruthy(row, keys[1..]);
      assert forall i :: 1 <= i < |keys| ==> keys[i] == keys[1..][i - 1];
      if r.Some? then
        ghost var i :| 0 <= i < |keys[1..]| && TruthyAt(row, keys[1..][i]) && row[keys[1..][i]] == r.value
                       && forall j :: 0 <= j < i ==> !TruthyAt(row, keys[1..][j]);
        assert forall j :: 0 <= j < i + 1 ==> !TruthyAt(row, keys[j]) by {
          forall j | 0 <= j < i + 1 ensures !TruthyAt(row, keys[j]) {
            if j > 0 { assert keys[j] == keys[1..][j - 1]; }
          }
        }
        r
      else r
  }

  /** The text under the first truthy header, else the fallback. */
  function TextOr(row: Row, keys: seq<string>, fallback: string): string
  {
    match FirstTruthy(row, keys)
    case Some(c) => CellText(c)
    case None => fallback
  }

  /** `Number(row[k0] || row[k1] || 0)`. */
  function NumberAt(row: Row, keys: seq<string>): real
  {
    match FirstTruthy(row, keys)
    case Some(c) => CellNumber(c)
    case None => 0.0
  }

  const CODE_HEADERS: seq<string> := ["Codigo", "C\U{00F3}digo", "Item"]
  const DESCRIPTION_HEADERS: seq<string> := ["Descricao", "Descri\U{00E7}\U{00E3}o", "Descri\U{00E7}ao"]
  const UNIT_HEADERS: seq<string> := ["Unidade"]
  const QUANTITY_HEADERS: seq<string> := ["Quantidade", "Qtd"]
  const VALUE_HEADERS: seq<string> := ["ValorPrevisto", "Valor"]
  const PROF_HOURS_HEADERS: seq<string> := ["HorasProfissional", "HorasProf"]
  const SERV_HOURS_HEADERS: seq<string> := ["HorasServente", "HorasServ"]

  /** The item one spreadsheet row maps to. */
  function RowItem(id: string, row: Row): BudgetItem
  {
    BudgetItem(id,
               TextOr(row, CODE_HEADERS, ""),
               TextOr(row, DESCRIPTION_HEADERS, ""),
               TextOr(row, UNIT_HEADERS, "un"),
               NumberAt(row, QUANTITY_HEADERS),
               NumberAt(row, VALUE_HEADERS),
               NumberAt(row, PROF_HOURS_HEADERS),
               NumberAt(row, SERV_HOURS_HEADERS))
  }

  /** The header aliases: the canonical header wins when it holds a value, the
      accented or short alias is used only when the ones before it are empty, and
      a row with none of them yields the default. */
  lemma RowItemAliases(id: string, row: Row)
    ensures TruthyAt(row, "Codigo") ==> RowItem(id, row).code == CellText(row["Codigo"])
    ensures !TruthyAt(row, "Codigo") && TruthyAt(row, "C\U{00F3}digo") ==>
      RowItem(id, row).code == CellText(row["C\U{00F3}digo"])
    ensures !TruthyAt(row, "Codigo") && !TruthyAt(row, "C\U{00F3}digo") && !TruthyAt(row, "Item") ==>
      RowItem(id, row).code == ""
    ensures !TruthyAt(row, "Unidade") ==> RowItem(id, row).unit == "un"
    ensures !TruthyAt(row, "Quantidade") && TruthyAt(row, "Qtd") ==> RowItem(id, row).quantity == CellNumber(row["Qtd"])
    ensures !TruthyAt(row, "Quantidade") && !TruthyAt(row, "Qtd") ==> RowItem(id, row).quantity == 0.0
  {
    assert CODE_HEADERS[0] == "Codigo" && CODE_HEADERS[1] == "C\U{00F3}digo" && CODE_HEADERS[2] == "Item";
    assert QUANTITY_HEADERS[0] == "Quantidade" && QUANTITY_HEADERS[1] == "Qtd";
    if !TruthyAt(row, "Codigo") && TruthyAt(row, "C\U{00F3}digo") {
      FirstTruthySecond(row, CODE_HEADERS);
    }
    if !TruthyAt(row, "Quantidade") && TruthyAt(row, "Qtd") {
      FirstTruthySecond(row, QUANTITY_HEADERS);
    }
  }

  /** When the first header is empty and the second holds a value, the second wins. */
  lemma FirstTruthySecond(row: Row, keys: seq<string>)
    requires |keys| >= 2 && !TruthyAt(row, keys[0]) && TruthyAt(row, keys[1])
    ensures FirstTruthy(row, keys) == Some(row[keys[1]])
  {
    assert keys[1..][0] == keys[1];
    assert FirstTruthy(row, keys[1..]) == Some(row[keys[1]]);
  }

  /** `item.code && item.description`. */
  predicate IsImportable(item: BudgetItem)
  {
    item.code != "" && item.description != ""
  }

  /** The mapped rows with the unusable ones dropped; `ids[i]` is the fresh id of row i. */
  function ImportedItems(rows: seq<Row>, ids: seq<string>): seq<BudgetItem>
    requires |ids| == |rows|
  {
    Filter(seq(|rows|, i requires 0 <= i < |rows| => RowItem(ids[i], rows[i])), IsImportable)
  }

  /** Exactly the usable rows are imported, each as the item its row maps to. */
  lemma ImportedItemsSpec(rows: seq<Row>, ids: seq<string>)
    requires |ids| == |rows|
    ensures |ImportedItems(rows, ids)| <= |rows|
    ensures forall k :: 0 <= k < |ImportedItems(rows, ids)| ==>
      IsImportable(ImportedItems(rows, ids)[k])
      && exists i :: 0 <= i < |rows| && ImportedItems(rows, ids)[k] == RowItem(ids[i], rows[i])
    ensures forall i :: 0 <= i < |rows| && IsImportable(RowItem(ids[i], rows[i])) ==>
      RowItem(ids[i], rows[i]) in ImportedItems(rows, ids)
  {
    var mapped := seq(|rows|, i requires 0 <= i < |rows| => RowItem(ids[i], rows[i]));
    forall k | 0 <= k < |ImportedItems(rows, ids)|
      ensures exists i :: 0 <= i < |rows| && ImportedItems(rows, ids)[k] == RowItem(ids[i], rows[i])
    {
      var i :| 0 <= i < |mapped| && mapped[i] == ImportedItems(rows, ids)[k];
    }
    forall i | 0 <= i < |rows| && IsImportable(RowItem(ids[i], rows[i]))
      ensures RowItem(ids[i], rows[i]) in ImportedItems(rows, ids)
    {
      assert mapped[i] == RowItem(ids[i], rows[i]);
    }
  }

  /** The budget and the add form of the component. */
  class BudgetManager {
    var budget: seq<BudgetItem>
    var form: ItemForm

    constructor (budget: seq<BudgetItem>)
      ensures this.budget == budget && form == EMPTY_FORM
    {
      this.budget := budget;
      form := EMPTY_FORM;
    }

    /** `addItem`: a form missing its code or description adds nothing; otherwise
        the defaulted item joins the budget, the budget is re-sorted by code and
        the form is reset. */
    method AddItem(freshId: string)
      modifies this
      ensures old(form).code == "" || old(form).description == "" ==>
        budget == old(budget) && form == old(form)
      ensures old(form).code != "" && old(form).description != "" ==>
        && budget == SortByCode(old(budget) + [FormItem(freshId, old(form))])
        && CodeSorted(budget)
        && multiset(budget) == multiset(old(budget)) + multiset{FormItem(freshId, old(form))}
        && |budget| == |old(budget)| + 1
        && form == EMPTY_FORM
    {
      if form.code == "" || form.description == "" {
        return;
      }
      var item := FormItem(freshId, form);
      SortByCodeSpec(budget + [item]);
      budget := SortByCode(budget + [item]);
      form := EMPTY_FORM;
    }

    /** `removeItem`. */
    method RemoveItem(id: string)
      modifies this`budget
      ensures budget == WithoutItem(old(budget), id)
      ensures CodeSorted(old(budget)) ==> CodeSorted(budget)
    {
      WithoutItemSpec(budget, id, budget, []);
      budget := WithoutItem(budget, id);
    }

    /** `clearBudget`: nothing to do on an empty budget; otherwise the budget is
        emptied only when the user confirms. */
    method ClearBudget(confirmed: bool)
      modifies this`budget
      ensures |old(budget)| == 0 || !confirmed ==> budget == old(budget)
      ensures |old(budget)| > 0 && confirmed ==> budget == []
    {
      if |budget| == 0 {
        return;
      }
      if confirmed {
        budget := [];
      }
    }

    /** The merge step of `handleFileUpload`: with no usable row the budget stays as
        it was; otherwise the imported items join it and it is re-sorted by code. */
    method ImportRows(rows: seq<Row>, ids: seq<string>) returns (imported: nat)
      requires |ids| == |rows|
      modifies this`budget
      ensures imported == |ImportedItems(rows, ids)|
      ensures imported == 0 ==> budget == old(budget)
      ensures imported > 0 ==>
        && budget == SortByCode(old(budget) + ImportedItems(rows, ids))
        && CodeSorted(budget)
        && multiset(budget) == multiset(old(budget)) + multiset(ImportedItems(rows, ids))
    {
      var items := ImportedItems(rows, ids);
      imported := |items|;
      if imported > 0 {
        SortByCodeSpec(budget + items);
        budget := SortByCode(budget + items);
      }
    }
  }
}
