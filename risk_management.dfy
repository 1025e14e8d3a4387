/** The risk section (src/components/RiskManagement.jsx): the records flagged
    `is_risk_item`, and the form that creates and edits them. */
module RiskManagement {
  import opened Lists
  import opened Records
  import App
  import MonthlyChart
  import MonthlySummary

  predicate IsRisk(exp: Record)
  {
    exp.isRiskItem
  }

  /** `riskItems`: the order-preserving sublist of records with a truthy
      `is_risk_item`, each kept as often as it occurs. */
  function RiskItems(expenses: seq<Record>): (r: seq<Record>)
    ensures forall i :: 0 <= i < |r| ==> r[i].isRiskItem
    ensures IsSubsequence(r, expenses)
    ensures multiset(r) <= multiset(expenses)
    ensures forall x | x in expenses && x.isRiskItem :: multiset(r)[x] == multiset(expenses)[x]
  {
    FilterIsSubsequence(IsRisk, expenses);
    FilterMultiset(IsRisk, expenses);
    Filter(IsRisk, expenses)
  }

  /** `formData` of the risk form: five texts. */
  datatype RiskForm = RiskForm(item: string, riskType: string, obs: string, deadline: string, description: string)

  /** `resetForm`'s value. */
  function BlankRiskForm(): (f: RiskForm)
    ensures f.item == f.riskType == f.obs == f.deadline == f.description == ""
  {
    RiskForm("", "", "", "", "")
  }

  /** The form `openEditForm` fills from a record: each falsy text becomes `''`. */
  function RiskFormOf(item: Record): (f: RiskForm)
    ensures FilledFrom(f.item, item.item) && FilledFrom(f.riskType, item.riskType) && FilledFrom(f.obs, item.obs)
    ensures FilledFrom(f.deadline, item.deadline) && FilledFrom(f.description, item.description)
  {
    RiskForm(OrEmpty(item.item), OrEmpty(item.riskType), OrEmpty(item.obs),
             OrEmpty(item.deadline), OrEmpty(item.description))
  }

  /** `dataToSave`: the form's texts spread, then the category flags, the date
      and a zero value forced. */
  datatype RiskPayload = RiskPayload(
    item: string, riskType: string, obs: string, deadline: string, description: string,
    isRiskItem: bool, isPlanned: bool, month: int, year: int, value: Amount)

  function DataToSave(f: RiskForm, today: Today): (d: RiskPayload)
    ensures d.isRiskItem && !d.isPlanned && d.value == Num(0)
    ensures d.item == f.item && d.riskType == f.riskType && d.obs == f.obs
    ensures d.deadline == f.deadline && d.description == f.description
    ensures d.month == today.month && d.year == today.year && 1 <= d.month <= 12
  {
    RiskPayload(f.item, f.riskType, f.obs, f.deadline, f.description, true, false, today.month, today.year, Num(0))
  }

  /** The row left behind when `d` is written over `base`. */
  function WriteRisk(base: Record, d: RiskPayload): (r: Record)
    ensures r.id == base.id && r.status == base.status
    ensures r.isPlanned == d.isPlanned && r.isRiskItem == d.isRiskItem && r.value == d.value
    ensures r.item == Text(d.item) && r.riskType == Text(d.riskType) && r.obs == Text(d.obs)
    ensures r.deadline == Text(d.deadline) && r.description == Text(d.description)
    ensures r.month == d.month && r.year == d.year
    ensures r.periodicity == base.periodicity && r.maintenanceDate == base.maintenanceDate
    ensures r.law == base.law
  {
    base.(item := Text(d.item), riskType := Text(d.riskType), obs := Text(d.obs), deadline := Text(d.deadline),
          description := Text(d.description), isRiskItem := d.isRiskItem, isPlanned := d.isPlanned,
          month := d.month, year := d.year, value := d.value)
  }

  /** Whatever the form holds, the row a save leaves adds exactly 0 to the
      header's total, is listed in this section and not among the planned items,
      and reaches neither the chart nor the month-by-month table. */
  lemma SavedRowAddsNothing(a: seq<Record>, base: Record, b: seq<Record>, f: RiskForm, today: Today, year: int)
    ensures var r := WriteRisk(base, DataToSave(f, today));
      && App.TotalExpenses(a + [r] + b) == App.TotalExpenses(a + b)
      && r in RiskItems(a + [r] + b)
      && !r.isPlanned
      && MonthlyChart.MonthlyData(a + [r] + b, year) == MonthlyChart.MonthlyData(a + b, year)
      && MonthlySummary.YearTotal(a + [r] + b, year) == MonthlySummary.YearTotal(a + b, year)
  {
    var r := WriteRisk(base, DataToSave(f, today));
    App.TotalInsert(a, r, b);
    FilterInsert(IsRisk, a, r, b);
    MonthlyChart.IgnoresPlannedAndRisk(a, r, b, year);
    MonthlySummary.IgnoresPlannedRiskAndOtherYears(a, r, b, year);
  }

  /** Saving over an existing record removes that record's value from the
      header's total. */
  lemma UpdateDropsOldValue(a: seq<Record>, base: Record, b: seq<Record>, f: RiskForm, today: Today)
    ensures App.TotalExpenses(a + [WriteRisk(base, DataToSave(f, today))] + b)
      == App.TotalExpenses(a + [base] + b) - Coerce(base.value)
  {
    App.TotalInsert(a, WriteRisk(base, DataToSave(f, today)), b);
    App.TotalInsert(a, base, b);
  }

  /** The component state the risk form works on. */
  class RiskEditor {
    var showForm: bool
    var editingItem: Option<Record>
    var formData: RiskForm

    constructor ()
      ensures !showForm && editingItem == None && formData == BlankRiskForm()
    {
      showForm := false;
      editingItem := None;
      formData := BlankRiskForm();
    }

    /** `resetForm`: only the form changes. */
    method ResetForm()
      modifies this
      ensures formData == BlankRiskForm()
      ensures showForm == old(showForm) && editingItem == old(editingItem)
    {
      formData := BlankRiskForm();
    }

    /** `openNewForm`: nothing under edit, a blank form, the form shown. */
    method OpenNewForm()
      modifies this
      ensures editingItem == None && showForm && formData == BlankRiskForm()
    {
      editingItem := None;
      ResetForm();
      showForm := true;
    }

    /** `openEditForm`: `item` under edit, its texts in the form, the form shown. */
    method OpenEditForm(item: Record)
      modifies this
      ensures editingItem == Some(item) && showForm && formData == RiskFormOf(item)
    {
      editingItem := Some(item);
      formData := RiskFormOf(item);
      showForm := true;
    }

    /** The close button and the overlay: the form hides and nothing else changes. */
    method CloseForm()
      modifies this
      ensures !showForm
      ensures editingItem == old(editingItem) && formData == old(formData)
    {
      showForm := false;
    }

    /** `handleSubmit`: `dataToSave` is sent as an update of the item under edit,
        or as an insert. On success the form hides, nothing is under edit and
        all five texts are blank; on error nothing changes. */
    method HandleSubmit(outcome: Outcome, today: Today) returns (w: Write<RiskPayload>)
      modifies this
      ensures w == SaveRequest(old(editingItem), DataToSave(old(formData), today))
      ensures outcome == Ok ==> !showForm && editingItem == None && formData == BlankRiskForm()
      ensures outcome == Err ==>
        showForm == old(showForm) && editingItem == old(editingItem) && formData == old(formData)
    {
      var dataToSave := DataToSave(formData, today);
      if editingItem.Some? {
        w := Update(editingItem.value.id, dataToSave);
      } else {
        w := Insert(dataToSave);
      }
      if outcome == Ok {
        showForm := false;
        editingItem := None;
        ResetForm();
      }
    }
  }
}
