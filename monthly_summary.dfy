/** The month-by-month table (src/components/MonthlySummary.jsx): twelve rows of
    regular-expense totals for the chosen year and their sum, `yearTotal`. */
module MonthlySummary {
  import opened Lists
  import opened Records
  import MonthlyChart

  /** One entry of the table's month list: its number and its row label. */
  datatype MonthName = MonthName(num: int, name: string)

  const Months: seq<MonthName> := [
    MonthName(1, "JANEIRO"), MonthName(2, "FEVEREIRO"), MonthName(3, "MARÇO"),
    MonthName(4, "ABRIL"), MonthName(5, "MAIO"), MonthName(6, "JUNHO"),
    MonthName(7, "JULHO"), MonthName(8, "AGOSTO"), MonthName(9, "SETEMBRO"),
    MonthName(10, "OUTUBRO"), MonthName(11, "NOVEMBRO"), MonthName(12, "DEZEMBRO")]

  /** One row of the table: the month's name and its total in cents. */
  datatype MonthRow = MonthRow(month: string, total: int)

  /** The table's filter, written out again in the component. */
  predicate InRow(exp: Record, num: int, year: int)
  {
    exp.month == num && exp.year == year && !exp.isPlanned && !exp.isRiskItem
  }

  function InRowAt(num: int, year: int): Record -> bool
  {
    exp => InRow(exp, num, year)
  }

  /** The total of one row; when no value is negative, it lies between 0 and the
      sum of all records. */
  function RowTotal(expenses: seq<Record>, num: int, year: int): (t: int)
    ensures NonNegative(expenses) ==> 0 <= t <= Sum(expenses)
  {
    SumFilterBounds(InRowAt(num, year), expenses);
    Sum(Filter(InRowAt(num, year), expenses))
  }

  /** `monthlyTotals`: one row per entry of `Months`, in order. */
  function MonthlyTotals(expenses: seq<Record>, year: int): (rows: seq<MonthRow>)
    ensures |rows| == 12
    ensures forall i :: 0 <= i < 12 ==> rows[i].month == Months[i].name
    ensures forall i :: 0 <= i < 12 ==> rows[i].total == RowTotal(expenses, Months[i].num, year)
  {
    seq(12, i requires 0 <= i < 12 => MonthRow(Months[i].name, RowTotal(expenses, Months[i].num, year)))
  }

  /** `monthlyTotals.reduce((sum, month) => sum + month.total, 0)`. */
  function SumRows(rows: seq<MonthRow>): (s: int)
    ensures (forall i :: 0 <= i < |rows| ==> rows[i].total >= 0) ==> s >= 0
  {
    if rows == [] then 0 else SumRows(rows[..|rows| - 1]) + rows[|rows| - 1].total
  }

  /** `yearTotal`: the sum of the twelve row totals; never negative when no
      value is. */
  function YearTotal(expenses: seq<Record>, year: int): (t: int)
    ensures NonNegative(expenses) ==> t >= 0
  {
    SumRows(MonthlyTotals(expenses, year))
  }

  /** The records `yearTotal` accounts for: regular, of `year`, with a month 1..12. */
  predicate InYear(exp: Record, year: int)
  {
    IsRegular(exp) && exp.year == year && 1 <= exp.month <= 12
  }

  function InYearAt(year: int): Record -> bool
  {
    exp => InYear(exp, year)
  }

  /** The month list runs through the numbers 1..12 in order. */
  lemma MonthNumbers()
    ensures forall i :: 0 <= i < 12 ==> Months[i].num == i + 1
  {
  }

  /** Row `i` covers month number `i + 1`, and its total is the chart's bar `i`:
      the two components aggregate identically. */
  lemma RowsMatchChart(expenses: seq<Record>, year: int)
    ensures forall i :: 0 <= i < 12 ==>
      MonthlyTotals(expenses, year)[i].total == MonthlyChart.MonthlyData(expenses, year)[i].total
  {
    MonthNumbers();
    forall i | 0 <= i < 12
      ensures MonthlyTotals(expenses, year)[i].total == MonthlyChart.MonthlyData(expenses, year)[i].total
    {
      FilterExt(InRowAt(Months[i].num, year), MonthlyChart.InMonthAt(i + 1, year), expenses);
    }
  }

  /** Two row lists that differ only at index `k`, by `d`, differ by `d` in their sum. */
  lemma {:induction false} SumRowsShift(a: seq<MonthRow>, b: seq<MonthRow>, k: int, d: int)
    requires |a| == |b|
    requires forall i :: 0 <= i < |a| ==> a[i].total == b[i].total + (if i == k then d else 0)
    ensures SumRows(a) == SumRows(b) + (if 0 <= k < |a| then d else 0)
  {
    if a != [] {
      SumRowsShift(a[..|a| - 1], b[..|b| - 1], k, d);
    }
  }

  /** Inserting a record changes each row by what it contributes to that month. */
  lemma InsertRecord(a: seq<Record>, r: Record, b: seq<Record>, year: int)
    ensures forall i :: 0 <= i < 12 ==>
      MonthlyTotals(a + [r] + b, year)[i].total
        == MonthlyTotals(a + b, year)[i].total + (if InRow(r, i + 1, year) then Coerce(r.value) else 0)
  {
    MonthNumbers();
    forall i | 0 <= i < 12
      ensures MonthlyTotals(a + [r] + b, year)[i].total
        == MonthlyTotals(a + b, year)[i].total + (if InRow(r, i + 1, year) then Coerce(r.value) else 0)
    {
      SumFilterInsert(InRowAt(i + 1, year), a, r, b);
    }
  }

  /** Inserting a record adds its coerced value to `yearTotal` exactly when it is
      a regular record of `year` with a month 1..12. */
  lemma YearTotalInsert(a: seq<Record>, r: Record, b: seq<Record>, year: int)
    ensures YearTotal(a + [r] + b, year) == YearTotal(a + b, year) + (if InYear(r, year) then Coerce(r.value) else 0)
  {
    InsertRecord(a, r, b, year);
    SumRowsShift(MonthlyTotals(a + [r] + b, year), MonthlyTotals(a + b, year),
                 r.month - 1, if InYear(r, year) then Coerce(r.value) else 0);
  }

  /** `yearTotal` is the sum of the coerced values of every regular record of
      `year` whose month is 1..12: the twelve rows partition those records. */
  lemma {:induction false} YearTotalIsYearSum(expenses: seq<Record>, year: int)
    ensures YearTotal(expenses, year) == Sum(Filter(InYearAt(year), expenses))
  {
    if expenses == [] {
      SumRowsZero(MonthlyTotals(expenses, year));
    } else {
      var init, last := expenses[..|expenses| - 1], expenses[|expenses| - 1];
      assert expenses == init + [last] + [];
      assert init + [] == init;
      YearTotalIsYearSum(init, year);
      YearTotalInsert(init, last, [], year);
      SumFilterInsert(InYearAt(year), init, last, []);
    }
  }

  /** When no value is negative, `yearTotal` never exceeds the sum of all records,
      the header's `totalExpenses`. */
  lemma YearTotalAtMostTotal(expenses: seq<Record>, year: int)
    ensures NonNegative(expenses) ==> YearTotal(expenses, year) <= Sum(expenses)
  {
    YearTotalIsYearSum(expenses, year);
    SumFilterBounds(InYearAt(year), expenses);
  }

  /** Rows whose totals are all 0 sum to 0. */
  lemma {:induction false} SumRowsZero(rows: seq<MonthRow>)
    requires forall i :: 0 <= i < |rows| ==> rows[i].total == 0
    ensures SumRows(rows) == 0
  {
    if rows != [] {
      SumRowsZero(rows[..|rows| - 1]);
    }
  }

  /** Adding a planned record, a risk record or a record of another year leaves
      every row and `yearTotal` unchanged. */
  lemma IgnoresPlannedRiskAndOtherYears(a: seq<Record>, r: Record, b: seq<Record>, year: int)
    requires r.isPlanned || r.isRiskItem || r.year != year
    ensures MonthlyTotals(a + [r] + b, year) == MonthlyTotals(a + b, year)
    ensures YearTotal(a + [r] + b, year) == YearTotal(a + b, year)
  {
    InsertRecord(a, r, b, year);
    YearTotalInsert(a, r, b, year);
  }
}
