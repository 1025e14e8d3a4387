/** The expense record as the components receive it from the `expenses` table,
    the numeric coercion `parseFloat(v) || 0` applied to its value, and the
    abstract view of the remote store that every editor writes through. */
module Records {
  import opened Lists

  datatype Option<+T> = None | Some(value: T)

  /** The identifier the store assigns on insert. */
  type Id = int

  /** A record's `value` column. Money is counted in integer cents: `Num(n)` is a
      value that parses to `n` cents, `NotNum` is an empty, null or non-numeric
      value. Floating-point rounding and text parsing are not modelled. */
  datatype Amount = Num(cents: int) | NotNum

  /** `parseFloat(v) || 0`: what a value adds to any sum. */
  function Coerce(a: Amount): (n: int)
    ensures a.Num? ==> n == a.cents
    ensures a.NotNum? ==> n == 0
  {
    match a
    case Num(n) => n
    case NotNum => 0
  }

  /** `v || ''` on a value: a numeric zero is falsy and becomes the empty text,
      which is not a number; every other value is kept. */
  function OrBlank(a: Amount): (r: Amount)
    ensures Coerce(r) == Coerce(a)
    ensures r.Num? ==> r == a
    ensures a == Num(0) ==> r == NotNum
  {
    if a == Num(0) then NotNum else a
  }

  /** An optional text column: absent (null or undefined) or a string. */
  datatype Field = Missing | Text(s: string)

  /** `s` is what `f || ''` puts in a form input: the text when present, `''`
      when the column is missing. */
  predicate FilledFrom(s: string, f: Field)
  {
    (f.Text? ==> s == f.s) && (f.Missing? ==> s == "")
  }

  /** `f || ''` on a text column: a missing or empty text becomes `''`. */
  function OrEmpty(f: Field): (s: string)
    ensures FilledFrom(s, f)
  {
    match f
    case Missing => ""
    case Text(s) => s
  }

  /** `n || fallback` on a numeric column; a missing month or year is 0. */
  function OrElse(n: int, fallback: int): (r: int)
    ensures r == n || r == fallback
    ensures n != 0 ==> r == n
    ensures r == 0 <==> n == 0 && fallback == 0
  {
    if n != 0 then n else fallback
  }

  /** One row of the `expenses` table. A missing month or year is 0, which no
      `===` against a month number 1..12 matches. `created_at` only orders the
      rows on the server and is not modelled. */
  datatype Record = Record(
    id: Id,
    item: Field,
    obs: Field,
    value: Amount,
    periodicity: Field,
    maintenanceDate: Field,
    description: Field,
    law: Field,
    riskType: Field,
    deadline: Field,
    month: int,
    year: int,
    status: bool,
    isPlanned: bool,
    isRiskItem: bool)

  /** A row with the identifier `id` and every other column empty: the base an
      insert fills in. */
  function NewRow(id: Id): (r: Record)
    ensures r.id == id && !r.status && !r.isPlanned && !r.isRiskItem && Coerce(r.value) == 0
  {
    Record(id, Missing, Missing, NotNum, Missing, Missing, Missing, Missing, Missing, Missing,
           0, 0, false, false, false)
  }

  /** A regular expense: neither category flag is set. */
  predicate IsRegular(r: Record)
  {
    !r.isPlanned && !r.isRiskItem
  }

  /** Every value in `rs` adds a non-negative amount to a sum. */
  predicate NonNegative(rs: seq<Record>)
  {
    forall i :: 0 <= i < |rs| ==> Coerce(rs[i].value) >= 0
  }

  /** `rs.reduce((sum, exp) => sum + (parseFloat(exp.value) || 0), 0)`, folded
      from the left as `reduce` does. */
  function Sum(rs: seq<Record>): (s: int)
    ensures NonNegative(rs) ==> s >= 0
    ensures (forall i :: 0 <= i < |rs| ==> rs[i].value.NotNum?) ==> s == 0
  {
    if rs == [] then 0 else Sum(rs[..|rs| - 1]) + Coerce(rs[|rs| - 1].value)
  }

  /** The sum of a concatenation is the sum of the parts. */
  lemma {:induction false} SumConcat(a: seq<Record>, b: seq<Record>)
    ensures Sum(a + b) == Sum(a) + Sum(b)
  {
    if b == [] {
      assert a + b == a;
    } else {
      var b' := b[..|b| - 1];
      assert (a + b)[..|a + b| - 1] == a + b';
      assert (a + b)[|a + b| - 1] == b[|b| - 1];
      SumConcat(a, b');
    }
  }

  /** A record placed anywhere in a list adds exactly its coerced value to the sum. */
  lemma SumInsert(a: seq<Record>, r: Record, b: seq<Record>)
    ensures Sum(a + [r] + b) == Sum(a + b) + Coerce(r.value)
  {
    SumConcat(a + [r], b);
    SumConcat(a, [r]);
    SumConcat(a, b);
    assert [r][..0] == [];
  }

  /** Summing the elements that pass a filter after inserting `r` adds `r`'s
      value exactly when `r` passes. */
  lemma SumFilterInsert(p: Record -> bool, a: seq<Record>, r: Record, b: seq<Record>)
    ensures Sum(Filter(p, a + [r] + b)) == Sum(Filter(p, a + b)) + (if p(r) then Coerce(r.value) else 0)
  {
    FilterInsert(p, a, r, b);
    if p(r) {
      SumInsert(Filter(p, a), r, Filter(p, b));
    } else {
      assert Filter(p, a) + [] + Filter(p, b) == Filter(p, a) + Filter(p, b);
    }
  }

  /** Splitting a list by a predicate and its negation splits its sum. */
  lemma {:induction false} SumFilterSplit(p: Record -> bool, q: Record -> bool, rs: seq<Record>)
    requires forall x :: q(x) == !p(x)
    ensures Sum(rs) == Sum(Filter(p, rs)) + Sum(Filter(q, rs))
  {
    if rs != [] {
      var init, last := rs[..|rs| - 1], rs[|rs| - 1];
      assert rs == init + [last] + [];
      SumFilterSplit(p, q, init);
      SumFilterInsert(p, init, last, []);
      SumFilterInsert(q, init, last, []);
      assert init + [] == init;
    }
  }

  /** When no value is negative, summing a filtered list gives at least 0 and at
      most the sum of the whole list. */
  lemma {:induction false} SumFilterBounds(p: Record -> bool, rs: seq<Record>)
    ensures NonNegative(rs) ==> 0 <= Sum(Filter(p, rs)) <= Sum(rs)
  {
    if rs != [] && NonNegative(rs) {
      var init, last := rs[..|rs| - 1], rs[|rs| - 1];
      assert rs == init + [last] + [];
      assert init + [] == init;
      assert Coerce(last.value) >= 0;
      SumFilterBounds(p, init);
      SumFilterInsert(p, init, last, []);
    }
  }

  /** A calendar month number, as `new Date().getMonth() + 1` yields. */
  type MonthNumber = m: int | 1 <= m <= 12 witness 1

  /** The clock reading the handlers take as "now": current month and year. */
  datatype Today = Today(month: MonthNumber, year: int)

  /** What the store answered to a write: success, or an error that the handler
      reports and otherwise ignores. */
  datatype Outcome = Ok | Err

  /** The write a save handler sends: an insert of the payload, or an update of
      the row with the given identifier. */
  datatype Write<P> = Insert(payload: P) | Update(id: Id, payload: P)

  /** The request a submit sends: an update addressed to the record under
      edit when there is one, an insert otherwise. */
  function SaveRequest<P>(editing: Option<Record>, payload: P): (w: Write<P>)
    ensures w.payload == payload
    ensures w.Update? <==> editing.Some?
    ensures w.Update? ==> w.id == editing.value.id
  {
    match editing
    case Some(e) => Update(e.id, payload)
    case None => Insert(payload)
  }
}
