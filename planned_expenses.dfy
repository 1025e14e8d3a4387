/** The "planned" section (src/components/PlannedExpenses.jsx): the records
    flagged `is_planned`, and the small form that creates and edits them. */
module PlannedExpenses {
  import opened Lists
  import opened Records
  import MonthlyChart
  import MonthlySummary

  predicate IsPlanned(exp: Record)
  {
    exp.isPlanned
  }

  /** `plannedExpenses`: the order-preserving sublist of records with a truthy
      `is_planned`, each kept as often as it occurs. */
  function PlannedItems(expenses: seq<Record>): (r: seq<Record>)
    ensures forall i :: 0 <= i < |r| ==> r[i].isPlanned
    ensures IsSubsequence(r, expenses)
    ensures multiset(r) <= multiset(expenses)
    ensures forall x | x in expenses && x.isPlanned :: multiset(r)[x] == multiset(expenses)[x]
  {
    FilterIsSubsequence(IsPlanned, expenses);
    FilterMultiset(IsPlanned, expenses);
    Filter(IsPlanned, expenses)
  }

  /** `formData` of the planned form. */
  datatype PlannedForm = PlannedForm(item: string, obs: string, value: Amount, status: bool)

  /** `resetForm`'s value. */
  function BlankPlannedForm(): (f: PlannedForm)
    ensures f.item == f.obs == "" && f.value == NotNum && !f.status
  {
    PlannedForm("", "", NotNum, false)
  }

  /** The form `openEditForm` fills from a record: falsy texts become `''`, a
      falsy status becomes false. */
  function PlannedFormOf(item: Record): (f: PlannedForm)
    ensures f.status == item.status
    ensures item.value == Num(0) ==> f.value == NotNum
    ensures item.value != Num(0) ==> f.value == item.value
    ensures Coerce(f.value) == Coerce(item.value)
    ensures FilledFrom(f.item, item.item) && FilledFrom(f.obs, item.obs)
  {
    PlannedForm(OrEmpty(item.item), OrEmpty(item.obs), OrBlank(item.value), item.status)
  }

  /** `dataToSave`: the form's fields spread, then the category flags and the
      date forced. */
  datatype PlannedPayload = PlannedPayload(
    item: string, obs: string, value: Amount, status: bool,
    isPlanned: bool, isRiskItem: bool, month: int, year: int)

  function DataToSave(f: PlannedForm, today: Today): (d: PlannedPayload)
    ensures d.isPlanned && !d.isRiskItem
    ensures d.item == f.item && d.obs == f.obs && d.value == f.value && d.status == f.status
    ensures d.month == today.month && d.year == today.year && 1 <= d.month <= 12
  {
    PlannedPayload(f.item, f.obs, f.value, f.status, true, false, today.month, today.year)
  }

  /** The row left behind when `d` is written over `base`. */
  function WritePlanned(base: Record, d: PlannedPayload): (r: Record)
    ensures r.id == base.id
    ensures r.isPlanned == d.isPlanned && r.isRiskItem == d.isRiskItem && r.value == d.value
    ensures r.item == Text(d.item) && r.obs == Text(d.obs) && r.status == d.status
    ensures r.month == d.month && r.year == d.year
    ensures r.periodicity == base.periodicity && r.maintenanceDate == base.maintenanceDate
    ensures r.description == base.description && r.law == base.law
    ensures r.riskType == base.riskType && r.deadline == base.deadline
  {
    base.(item := Text(d.item), obs := Text(d.obs), value := d.value, status := d.status,
          isPlanned := d.isPlanned, isRiskItem := d.isRiskItem, month := d.month, year := d.year)
  }

  /** Whatever the form holds, the row a save leaves is listed in this section,
      and the chart and the month-by-month table of every year ignore it. */
  lemma SavedRowStaysPlanned(a: seq<Record>, base: Record, b: seq<Record>, f: PlannedForm, today: Today, year: int)
    ensures var r := WritePlanned(base, DataToSave(f, today));
      && r in PlannedItems(a + [r] + b)
      && MonthlyChart.MonthlyData(a + [r] + b, year) == MonthlyChart.MonthlyData(a + b, year)
      && MonthlySummary.MonthlyTotals(a + [r] + b, year) == MonthlySummary.MonthlyTotals(a + b, year)
      && MonthlySummary.YearTotal(a + [r] + b, year) == MonthlySummary.YearTotal(a + b, year)
  {
    var r := WritePlanned(base, DataToSave(f, today));
    FilterInsert(IsPlanned, a, r, b);
    MonthlyChart.IgnoresPlannedAndRisk(a, r, b, year);
    MonthlySummary.IgnoresPlannedRiskAndOtherYears(a, r, b, year);
  }

  /** Saving an opened item unchanged, when its item and obs are present and its
      value is not a numeric zero, keeps its texts, value and status, but dates it
      today and forces it into this section. */
  lemma EditSaveRedates(item: Record, today: Today)
    requires item.item.Text? && item.obs.Text? && item.value != Num(0)
    ensures WritePlanned(item, DataToSave(PlannedFormOf(item), today))
      == item.(month := today.month, year := today.year, isPlanned := true, isRiskItem := false)
  {
  }

  /** An item whose value is a numeric zero is written back with an empty value
      when it is opened and saved unchanged; a missing obs comes back as `''`. */
  lemma EditBlanksZeroValue(item: Record, today: Today)
    requires item.value == Num(0)
    ensures var r := WritePlanned(item, DataToSave(PlannedFormOf(item), today));
      r.value == NotNum && (item.obs.Missing? ==> r.obs == Text(""))
  {
  }

  /** The component state the planned form works on. */
  class PlannedEditor {
    var showForm: bool
    var editingItem: Option<Record>
    var formData: PlannedForm

    constructor ()
      ensures !showForm && editingItem == None && formData == BlankPlannedForm()
    {
      showForm := false;
      editingItem := None;
      formData := BlankPlannedForm();
    }

    /** `resetForm`: only the form changes. */
    method ResetForm()
      modifies this
      ensures formData == BlankPlannedForm()
      ensures showForm == old(showForm) && editingItem == old(editingItem)
    {
      formData := BlankPlannedForm();
    }

    /** `openNewForm`: nothing under edit, a blank form, the form shown. */
    method OpenNewForm()
      modifies this
      ensures editingItem == None && showForm && formData == BlankPlannedForm()
    {
      editingItem := None;
      ResetForm();
      showForm := true;
    }

    /** `openEditForm`: `item` under edit, its fields in the form, the form shown. */
    method OpenEditForm(item: Record)
      modifies this
      ensures editingItem == Some(item) && showForm && formData == PlannedFormOf(item)
    {
      editingItem := Some(item);
      formData := PlannedFormOf(item);
      showForm := true;
    }

    /** The close button and the overlay: the form hides and nothing else changes. */
    method CloseForm()
      modifies this
      ensures !showForm
      ensures editingItem == old(editingItem) && formData == old(formData)
    {
      showForm := false;
    }

    /** `handleSubmit`: `dataToSave` is sent as an update of the item under edit,
        or as an insert. On success the form hides, nothing is under edit and the
        form is blank; on error nothing changes. */
    method HandleSubmit(outcome: Outcome, today: Today) returns (w: Write<PlannedPayload>)
      modifies this
      ensures w == SaveRequest(old(editingItem), DataToSave(old(formData), today))
      ensures outcome == Ok ==> !showForm && editingItem == None && formData == BlankPlannedForm()
      ensures outcome == Err ==>
        showForm == old(showForm) && editingItem == old(editingItem) && formData == old(formData)
    {
      var dataToSave := DataToSave(formData, today);
      if editingItem.Some? {
        w := Update(editingItem.value.id, dataToSave);
      } else {
        w := Insert(dataToSave);
      }
      if outcome == Ok {
        showForm := false;
        editingItem := None;
        ResetForm();
      }
    }
  }
}
