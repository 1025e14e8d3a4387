/** The bar chart's series (src/components/MonthlyChart.jsx): twelve points,
    one per month of the chosen year, each the total of that month's regular
    expenses. */
module MonthlyChart {
  import opened Lists
  import opened Records

  /** The bar labels, January to December. */
  const Months: seq<string> :=
    ["JAN", "FEV", "MAR", "ABR", "MAI", "JUN", "JUL", "AGO", "SET", "OUT", "NOV", "DEZ"]

  /** One bar: its label and its total in cents. The localized `fullMonth`
      tooltip name is presentation and is not modelled. */
  datatype MonthPoint = MonthPoint(month: string, total: int)

  /** The chart's filter: month and year match exactly and the record is
      neither planned nor a risk item. */
  predicate InMonth(exp: Record, monthNumber: int, year: int)
  {
    exp.month == monthNumber && exp.year == year && !exp.isPlanned && !exp.isRiskItem
  }

  function InMonthAt(monthNumber: int, year: int): Record -> bool
  {
    exp => InMonth(exp, monthNumber, year)
  }

  /** The total of one bar: the coerced values of the records the filter keeps.
      When no value is negative, a bar lies between 0 and the sum of all records. */
  function MonthTotal(expenses: seq<Record>, monthNumber: int, year: int): (t: int)
    ensures NonNegative(expenses) ==> 0 <= t <= Sum(expenses)
  {
    SumFilterBounds(InMonthAt(monthNumber, year), expenses);
    Sum(Filter(InMonthAt(monthNumber, year), expenses))
  }

  /** `monthlyData`: bar `i` carries label `Months[i]` and the total of month
      number `i + 1`. */
  function MonthlyData(expenses: seq<Record>, year: int): (r: seq<MonthPoint>)
    ensures |r| == 12
    ensures forall i :: 0 <= i < 12 ==> r[i].month == Months[i]
    ensures forall i :: 0 <= i < 12 ==> r[i].total == MonthTotal(expenses, i + 1, year)
  {
    seq(12, i requires 0 <= i < 12 => MonthPoint(Months[i], MonthTotal(expenses, i + 1, year)))
  }

  /** Inserting a record anywhere in the list adds its coerced value to the bar of
      its month when it is a regular record of `year`, and changes no other bar. */
  lemma InsertRecord(a: seq<Record>, r: Record, b: seq<Record>, year: int)
    ensures forall i :: 0 <= i < 12 ==>
      MonthlyData(a + [r] + b, year)[i].total
        == MonthlyData(a + b, year)[i].total + (if InMonth(r, i + 1, year) then Coerce(r.value) else 0)
  {
    forall i | 0 <= i < 12
      ensures MonthlyData(a + [r] + b, year)[i].total
        == MonthlyData(a + b, year)[i].total + (if InMonth(r, i + 1, year) then Coerce(r.value) else 0)
    {
      SumFilterInsert(InMonthAt(i + 1, year), a, r, b);
    }
  }

  /** A record changes at most one bar: the one at index `r.month - 1`. */
  lemma AtMostOneBar(a: seq<Record>, r: Record, b: seq<Record>, year: int)
    ensures forall i :: 0 <= i < 12 && i != r.month - 1 ==>
      MonthlyData(a + [r] + b, year)[i] == MonthlyData(a + b, year)[i]
  {
    InsertRecord(a, r, b, year);
  }

  /** Planned and risk records never reach the chart. */
  lemma IgnoresPlannedAndRisk(a: seq<Record>, r: Record, b: seq<Record>, year: int)
    requires r.isPlanned || r.isRiskItem
    ensures MonthlyData(a + [r] + b, year) == MonthlyData(a + b, year)
  {
    InsertRecord(a, r, b, year);
  }

  /** A record of another year, or whose month is not 1..12, reaches no bar. */
  lemma IgnoresOutsideYear(a: seq<Record>, r: Record, b: seq<Record>, year: int)
    requires r.year != year || r.month < 1 || r.month > 12
    ensures MonthlyData(a + [r] + b, year) == MonthlyData(a + b, year)
  {
    InsertRecord(a, r, b, year);
  }

  /** A month that no record matches has total 0. */
  lemma EmptyMonthIsZero(expenses: seq<Record>, year: int, i: int)
    requires 0 <= i < 12
    requires forall k :: 0 <= k < |expenses| ==> !InMonth(expenses[k], i + 1, year)
    ensures MonthlyData(expenses, year)[i].total == 0
  {
    FilterEmpty(InMonthAt(i + 1, year), expenses);
  }
}
