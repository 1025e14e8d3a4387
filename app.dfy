/** The main screen (src/App.jsx): the header statistics over the whole fetched
    list, the expense form with its modal, and the status toggle. */
module App {
  import opened Lists
  import opened Records
  import MonthlySummary

  // ---------------------------------------------------------------------------
  // Header statistics

  /** `totalExpenses`: the coerced values of ALL records, planned and risk
      records included; no category filter is applied. */
  function TotalExpenses(expenses: seq<Record>): (t: int)
    ensures NonNegative(expenses) ==> 0 <= Sum(Filter(IsRegular, expenses)) <= t
    ensures (forall i :: 0 <= i < |expenses| ==> expenses[i].value.NotNum?) ==> t == 0
  {
    SumFilterBounds(IsRegular, expenses);
    Sum(expenses)
  }

  predicate IsPaid(exp: Record)
  {
    exp.status
  }

  predicate IsPending(exp: Record)
  {
    !exp.status
  }

  /** `paidExpenses`: how many records have a truthy status. */
  function PaidExpenses(expenses: seq<Record>): (n: nat)
    ensures n <= |expenses|
    ensures n == |expenses| <==> forall i :: 0 <= i < |expenses| ==> expenses[i].status
    ensures n == 0 <==> forall i :: 0 <= i < |expenses| ==> !expenses[i].status
  {
    FilterKeepsAll(IsPaid, expenses);
    FilterEmpty(IsPaid, expenses);
    |Filter(IsPaid, expenses)|
  }

  /** `pendingExpenses`: how many records have a falsy status. */
  function PendingExpenses(expenses: seq<Record>): (n: nat)
    ensures n <= |expenses|
    ensures n == |expenses| <==> forall i :: 0 <= i < |expenses| ==> !expenses[i].status
    ensures n == 0 <==> forall i :: 0 <= i < |expenses| ==> expenses[i].status
  {
    FilterKeepsAll(IsPending, expenses);
    FilterEmpty(IsPending, expenses);
    |Filter(IsPending, expenses)|
  }

  /** Every record is either paid or pending: the two counts add up to the
      number of records. */
  lemma PaidPlusPending(expenses: seq<Record>)
    ensures PaidExpenses(expenses) + PendingExpenses(expenses) == |expenses|
  {
    FilterComplementLength(IsPaid, IsPending, expenses);
  }

  /** A record anywhere in the list adds exactly its coerced value to the total. */
  lemma TotalInsert(a: seq<Record>, r: Record, b: seq<Record>)
    ensures TotalExpenses(a + [r] + b) == TotalExpenses(a + b) + Coerce(r.value)
  {
    SumInsert(a, r, b);
  }

  /** A record whose value does not parse adds nothing to the total. */
  lemma UnparsedValueAddsNothing(a: seq<Record>, r: Record, b: seq<Record>)
    requires r.value == NotNum
    ensures TotalExpenses(a + [r] + b) == TotalExpenses(a + b)
  {
    SumInsert(a, r, b);
  }

  predicate IsCategorized(exp: Record)
  {
    exp.isPlanned || exp.isRiskItem
  }

  /** The total covers every category: it is the regular records' sum plus the
      planned and risk records' sum. */
  lemma TotalCoversEveryCategory(expenses: seq<Record>)
    ensures TotalExpenses(expenses) == Sum(Filter(IsRegular, expenses)) + Sum(Filter(IsCategorized, expenses))
  {
    SumFilterSplit(IsRegular, IsCategorized, expenses);
  }

  // ---------------------------------------------------------------------------
  // The expense form

  /** `formData`: the inputs of the expense modal. */
  datatype ExpenseForm = ExpenseForm(
    item: string,
    obs: string,
    value: Amount,
    periodicity: string,
    maintenanceDate: string,
    description: string,
    law: string,
    month: int,
    year: int,
    status: bool)

  /** `resetForm`'s value: every text empty, not paid, dated today. */
  function BlankExpenseForm(today: Today): (f: ExpenseForm)
    ensures f.item == f.obs == f.periodicity == f.maintenanceDate == f.description == f.law == ""
    ensures f.value == NotNum && !f.status
    ensures f.month == today.month && f.year == today.year && 1 <= f.month <= 12
  {
    ExpenseForm("", "", NotNum, "", "", "", "", today.month, today.year, false)
  }

  /** The form `openEditModal` fills from a record: falsy texts become `''`, a
      falsy month or year becomes today's, a falsy status becomes false. */
  function ExpenseFormOf(e: Record, today: Today): (f: ExpenseForm)
    ensures FilledFrom(f.item, e.item) && FilledFrom(f.obs, e.obs) && FilledFrom(f.periodicity, e.periodicity)
    ensures FilledFrom(f.maintenanceDate, e.maintenanceDate) && FilledFrom(f.description, e.description)
    ensures FilledFrom(f.law, e.law)
    ensures e.month != 0 ==> f.month == e.month
    ensures e.month == 0 ==> f.month == today.month
    ensures e.year != 0 ==> f.year == e.year
    ensures e.year == 0 ==> f.year == today.year
    ensures f.status == e.status
    ensures e.value == Num(0) ==> f.value == NotNum
    ensures e.value != Num(0) ==> f.value == e.value
    ensures Coerce(f.value) == Coerce(e.value)
  {
    ExpenseForm(
      OrEmpty(e.item), OrEmpty(e.obs), OrBlank(e.value), OrEmpty(e.periodicity),
      OrEmpty(e.maintenanceDate), OrEmpty(e.description), OrEmpty(e.law),
      OrElse(e.month, today.month), OrElse(e.year, today.year), e.status)
  }

  /** The row left behind when `f` is written over `base`: the form's columns
      replaced, every other column (identifier, category flags, risk fields) kept. */
  function WriteExpenseForm(base: Record, f: ExpenseForm): (r: Record)
    ensures r.id == base.id && r.isPlanned == base.isPlanned && r.isRiskItem == base.isRiskItem
    ensures r.riskType == base.riskType && r.deadline == base.deadline
    ensures r.item == Text(f.item) && r.obs == Text(f.obs) && r.value == f.value && r.status == f.status
    ensures r.periodicity == Text(f.periodicity) && r.maintenanceDate == Text(f.maintenanceDate)
    ensures r.description == Text(f.description) && r.law == Text(f.law)
    ensures r.month == f.month && r.year == f.year
  {
    base.(item := Text(f.item), obs := Text(f.obs), value := f.value, periodicity := Text(f.periodicity),
          maintenanceDate := Text(f.maintenanceDate), description := Text(f.description), law := Text(f.law),
          month := f.month, year := f.year, status := f.status)
  }

  /** Opening a record for edit and saving it unchanged writes back the same
      record when every form text is present, month and year are set and the
      value is not a numeric zero. */
  lemma EditRoundTrip(e: Record, today: Today)
    requires e.item.Text? && e.obs.Text? && e.periodicity.Text? && e.maintenanceDate.Text?
    requires e.description.Text? && e.law.Text?
    requires e.month != 0 && e.year != 0 && e.value != Num(0)
    ensures WriteExpenseForm(e, ExpenseFormOf(e, today)) == e
  {
  }

  /** A record whose value is a numeric zero is written back with an empty value
      when it is opened and saved unchanged; it still adds 0 to every sum. */
  lemma EditBlanksZeroValue(e: Record, today: Today)
    requires e.value == Num(0)
    ensures WriteExpenseForm(e, ExpenseFormOf(e, today)).value == NotNum
  {
  }

  /** Opening any record for edit and saving it unchanged leaves the header
      statistics as they were. */
  lemma EditKeepsStatistics(a: seq<Record>, e: Record, b: seq<Record>, today: Today)
    ensures var e' := WriteExpenseForm(e, ExpenseFormOf(e, today));
      && TotalExpenses(a + [e'] + b) == TotalExpenses(a + [e] + b)
      && PaidExpenses(a + [e'] + b) == PaidExpenses(a + [e] + b)
  {
    var e' := WriteExpenseForm(e, ExpenseFormOf(e, today));
    SumInsert(a, e', b);
    SumInsert(a, e, b);
    FilterInsert(IsPaid, a, e', b);
    FilterInsert(IsPaid, a, e, b);
  }

  /** A record created from the modal is an insert over an empty row: it is a
      regular record, so it adds its value to the header's total and, when its
      month is 1..12, to `yearTotal` of its year. */
  lemma NewExpenseIsCounted(a: seq<Record>, id: Id, f: ExpenseForm, b: seq<Record>)
    ensures var r := WriteExpenseForm(NewRow(id), f);
      && TotalExpenses(a + [r] + b) == TotalExpenses(a + b) + Coerce(f.value)
      && MonthlySummary.YearTotal(a + [r] + b, f.year)
        == MonthlySummary.YearTotal(a + b, f.year) + (if 1 <= f.month <= 12 then Coerce(f.value) else 0)
  {
    var r := WriteExpenseForm(NewRow(id), f);
    SumInsert(a, r, b);
    MonthlySummary.YearTotalInsert(a, r, b, f.year);
  }

  // ---------------------------------------------------------------------------
  // The status toggle

  /** The patch `toggleStatus` sends: only `status`, addressed to one record. */
  datatype StatusPatch = StatusPatch(id: Id, status: bool)

  function ToggleStatus(e: Record): (p: StatusPatch)
    ensures p.id == e.id && p.status != e.status
  {
    StatusPatch(e.id, !e.status)
  }

  /** The row a status patch leaves behind on the record it addresses. */
  function ApplyStatusPatch(e: Record, p: StatusPatch): (r: Record)
    requires p.id == e.id
    ensures r.status == p.status
    ensures r.(status := e.status) == e
  {
    e.(status := p.status)
  }

  /** Toggling twice restores the record. */
  lemma ToggleTwice(e: Record)
    ensures var once := ApplyStatusPatch(e, ToggleStatus(e));
      ApplyStatusPatch(once, ToggleStatus(once)) == e
  {
  }

  /** A toggle moves exactly one record between paid and pending and leaves the
      total as it was. */
  lemma ToggleMovesOneRecord(a: seq<Record>, e: Record, b: seq<Record>)
    ensures var e' := ApplyStatusPatch(e, ToggleStatus(e));
      && PaidExpenses(a + [e'] + b) == PaidExpenses(a + [e] + b) + (if e.status then -1 else 1)
      && PendingExpenses(a + [e'] + b) == PendingExpenses(a + [e] + b) + (if e.status then 1 else -1)
      && TotalExpenses(a + [e'] + b) == TotalExpenses(a + [e] + b)
  {
    var e' := ApplyStatusPatch(e, ToggleStatus(e));
    FilterInsert(IsPaid, a, e', b);
    FilterInsert(IsPaid, a, e, b);
    FilterInsert(IsPending, a, e', b);
    FilterInsert(IsPending, a, e, b);
    SumInsert(a, e', b);
    SumInsert(a, e, b);
  }

  // ---------------------------------------------------------------------------
  // The modal's state

  /** The component state the expense modal works on. */
  class ExpenseEditor {
    var showModal: bool
    var editingExpense: Option<Record>
    var formData: ExpenseForm

    /** The initial state: hidden, nothing under edit, a blank form. */
    constructor (today: Today)
      ensures !showModal && editingExpense == None && formData == BlankExpenseForm(today)
    {
      showModal := false;
      editingExpense := None;
      formData := BlankExpenseForm(today);
    }

    /** `resetForm`: only the form changes. */
    method ResetForm(today: Today)
      modifies this
      ensures formData == BlankExpenseForm(today)
      ensures showModal == old(showModal) && editingExpense == old(editingExpense)
    {
      formData := BlankExpenseForm(today);
    }

    /** `openNewModal`: nothing under edit, a blank form, the modal shown. */
    method OpenNewModal(today: Today)
      modifies this
      ensures editingExpense == None && showModal
      ensures formData == BlankExpenseForm(today)
    {
      editingExpense := None;
      ResetForm(today);
      showModal := true;
    }

    /** `openEditModal`: `e` under edit, its fields in the form, the modal shown. */
    method OpenEditModal(e: Record, today: Today)
      modifies this
      ensures editingExpense == Some(e) && showModal
      ensures formData == ExpenseFormOf(e, today)
    {
      editingExpense := Some(e);
      formData := ExpenseFormOf(e, today);
      showModal := true;
    }

    /** The close button and the overlay: the modal hides and nothing else changes. */
    method CloseModal()
      modifies this
      ensures !showModal
      ensures editingExpense == old(editingExpense) && formData == old(formData)
    {
      showModal := false;
    }

    /** `handleSubmit`: the form is sent as an update of the record under edit,
        or as an insert; the store's answer decides the new state. On success
        the modal hides, nothing is under edit and the form is blank; on error
        nothing changes. */
    method HandleSubmit(outcome: Outcome, today: Today) returns (w: Write<ExpenseForm>)
      modifies this
      ensures w == SaveRequest(old(editingExpense), old(formData))
      ensures outcome == Ok ==> !showModal && editingExpense == None && formData == BlankExpenseForm(today)
      ensures outcome == Err ==>
        showModal == old(showModal) && editingExpense == old(editingExpense) && formData == old(formData)
    {
      if editingExpense.Some? {
        w := Update(editingExpense.value.id, formData);
      } else {
        w := Insert(formData);
      }
      if outcome == Ok {
        showModal := false;
        editingExpense := None;
        ResetForm(today);
      }
    }
  }
}
