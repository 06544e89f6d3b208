/**
 * Quarterly statement tables (balance sheet, income statement, cash flow)
 * as the scoring code sees them: a row per period in ascending date order,
 * a column per line item, and every cell a number or undefined.
 */
module Statements {
  import opened Wrappers

  /** One cell of a table; `None` is an undefined (NaN) or missing value. */
  type Cell = Option<real>

  /** The dtype flag the code inspects: only `object` columns are skipped. */
  datatype Kind = Numeric | Object | Timestamp

  datatype Column = Column(kind: Kind, cells: seq<Cell>)

  /**
   * A table: the column labels in order, the columns by label, and the
   * number of rows. "Latest" is always the last row.
   */
  datatype Table = Table(names: seq<string>, cols: map<string, Column>, height: nat) {

    /** Labels are distinct, label the columns exactly, and every column has `height` cells. */
    ghost predicate Valid() {
      && (forall i, j :: 0 <= i < j < |names| ==> names[i] != names[j])
      && (forall c :: c in cols <==> c in names)
      && (forall c :: c in cols ==> |cols[c].cells| == height)
    }

    predicate Has(c: string) {
      c in cols
    }

    /** `df[c].iloc[-1]`: the latest cell of column `c`. */
    function Latest(c: string): Cell
      requires Valid() && c in cols && height > 0
    {
      cols[c].cells[height - 1]
    }

    /** `df[c] = ...`: replace column `c` in place, or append it at the end. */
    function With(c: string, col: Column): (t: Table)
      ensures t.height == height && t.cols == cols[c := col]
      ensures c in cols ==> t.names == names
      ensures c !in cols ==> t.names == names + [c]
    {
      if c in cols then Table(names, cols[c := col], height)
      else Table(names + [c], cols[c := col], height)
    }

    /** `rename(columns={from: to})` when `to` is not a label yet. */
    function Renamed(from: string, to: string): Table
      requires from in cols
    {
      Table(Relabel(names, from, to), (cols - {from})[to := cols[from]], height)
    }
  }

  /** Every occurrence of `from` in `names` replaced by `to`. */
  function Relabel(names: seq<string>, from: string, to: string): (r: seq<string>)
    ensures |r| == |names|
    ensures forall i :: 0 <= i < |names| ==> r[i] == if names[i] == from then to else names[i]
  {
    if names == [] then []
    else [if names[0] == from then to else names[0]] + Relabel(names[1..], from, to)
  }

  /** Assigning a column of the right height keeps a table valid, and the new label is last. */
  lemma {:induction false} WithValid(t: Table, c: string, col: Column)
    requires t.Valid() && |col.cells| == t.height
    ensures t.With(c, col).Valid()
    ensures forall d :: d in t.cols && d != c ==> t.With(c, col).cols[d] == t.cols[d]
  {
  }

  /** Renaming to a fresh label keeps a table valid, the column at the same position. */
  lemma {:induction false} RenamedValid(t: Table, from: string, to: string)
    requires t.Valid() && from in t.cols && to !in t.cols
    ensures t.Renamed(from, to).Valid()
    ensures to in t.Renamed(from, to).cols && from !in t.Renamed(from, to).cols
    ensures t.Renamed(from, to).cols[to] == t.cols[from]
  {
    RelabelDistinct(t, from, to);
    RelabelMembers(t, from, to);
  }

  lemma {:induction false} RelabelDistinct(t: Table, from: string, to: string)
    requires t.Valid() && to !in t.cols
    ensures forall i, j :: 0 <= i < j < |t.names| ==>
      Relabel(t.names, from, to)[i] != Relabel(t.names, from, to)[j]
  {
    var r := Relabel(t.names, from, to);
    forall i, j | 0 <= i < j < |t.names| ensures r[i] != r[j] {
      assert t.names[i] in t.cols && t.names[j] in t.cols;
    }
  }

  lemma {:induction false} RelabelMembers(t: Table, from: string, to: string)
    requires t.Valid() && from in t.cols && to !in t.cols
    ensures forall c :: c in t.Renamed(from, to).cols <==> c in t.Renamed(from, to).names
  {
    var r := t.Renamed(from, to);
    forall c ensures c in r.cols <==> c in r.names {
      if c in r.cols {
        if c == to {
          var i :| 0 <= i < |t.names| && t.names[i] == from;
          assert r.names[i] == to;
        } else {
          assert c in t.names;
          var i :| 0 <= i < |t.names| && t.names[i] == c;
          assert r.names[i] == c;
        }
      }
    }
  }

  /** The table has at least one row, as every table after preparation has. */
  ghost predicate Ready(t: Option<Table>) {
    t.Some? ==> t.value.Valid() && t.value.height > 0
  }

  /** The latest cell of `c` when the table exists and has that column (the `... if c in df.columns else None` pattern). */
  function LatestOf(t: Option<Table>, c: string): (r: Option<Cell>)
    requires Ready(t)
    ensures r.Some? <==> t.Some? && c in t.value.cols
  {
    if t.Some? && c in t.value.cols then Some(t.value.Latest(c)) else None
  }

  /** A table, when given, is well formed; it may have no rows. */
  ghost predicate Shaped(t: Option<Table>) {
    t.Some? ==> t.value.Valid()
  }

  /** `df[c].iloc[-1]` does not raise: the table exists, has the column and a row. */
  predicate Reachable(t: Option<Table>, c: string) {
    t.Some? && c in t.value.cols && t.value.height > 0
  }

  /** The latest cell of `c`. */
  function At(t: Option<Table>, c: string): Cell
    requires Shaped(t) && Reachable(t, c)
  {
    t.value.Latest(c)
  }

  /** Flattens "column absent" and "cell undefined" into one missing value. */
  function Flat(v: Option<Cell>): Cell {
    if v.Some? then v.value else None
  }

  // Cell arithmetic: an undefined operand gives an undefined result, as NaN does.

  function Plus(a: Cell, b: Cell): Cell {
    if a.Some? && b.Some? then Some(a.value + b.value) else None
  }

  function Minus(a: Cell, b: Cell): Cell {
    if a.Some? && b.Some? then Some(a.value - b.value) else None
  }

  function AbsValue(x: real): real {
    if x < 0.0 then -x else x
  }

  function Magnitude(a: Cell): Cell {
    if a.Some? then Some(AbsValue(a.value)) else None
  }

  /** A quotient that is undefined when the divisor is zero (where the code would get inf or NaN). */
  function Quotient(a: Cell, b: Cell): (r: Cell)
    ensures r.Some? <==> a.Some? && b.Some? && b.value != 0.0
    ensures r.Some? ==> r.value * b.value == a.value
  {
    if a.Some? && b.Some? && b.value != 0.0 then Some(a.value / b.value) else None
  }

  /** One `{"value": ..., "score": ...}` entry of a breakdown. */
  /**
   * A Python scalar as a scoring helper receives it: `None` (nothing was
   * computed), NaN (a missing cell or arithmetic on one) or a number. A
   * helper that tests only `is None` lets NaN through, and every comparison
   * with NaN is false.
   */
  datatype Scalar = Nothing | NaN | Num(x: real)

  /** A cell read out of a table: never `None`, NaN when the cell is missing. */
  function OfCell(c: Cell): (s: Scalar)
    ensures !s.Nothing?
    ensures s.Num? <==> c.Some?
    ensures s.Num? ==> s.x == c.value
  {
    if c.Some? then Num(c.value) else NaN
  }

  /** The cell a scalar is stored as: `None` and NaN both become a missing cell. */
  function CellOf(s: Scalar): (c: Cell)
    ensures c.Some? <==> s.Num?
    ensures s.Num? ==> c.value == s.x
  {
    if s.Num? then Some(s.x) else None
  }

  datatype Metric = Metric(value: Option<real>, score: real)

  /** The `{"value": None, "score": 3}` entry every model falls back to. */
  const Neutral := Metric(None, 3.0)

  /** The labels of an ordered breakdown, in insertion order. */
  function Labels<M>(entries: seq<(string, M)>): (r: seq<string>)
    ensures |r| == |entries|
    ensures forall i :: 0 <= i < |entries| ==> r[i] == entries[i].0
  {
    if entries == [] then [] else [entries[0].0] + Labels(entries[1..])
  }

  /** The `score` fields of an ordered breakdown, in order. */
  function MetricScores(entries: seq<(string, Metric)>): (r: seq<real>)
    ensures |r| == |entries|
    ensures forall i :: 0 <= i < |entries| ==> r[i] == entries[i].1.score
  {
    if entries == [] then [] else [entries[0].1.score] + MetricScores(entries[1..])
  }

  /** The sum of a sequence of scores. */
  function Sum(xs: seq<real>): real {
    if xs == [] then 0.0 else xs[0] + Sum(xs[1..])
  }

  /** Peels the first term off a suffix sum. */
  lemma {:induction false} SumFrom(xs: seq<real>, k: nat)
    requires k < |xs|
    ensures Sum(xs[k..]) == xs[k] + Sum(xs[k + 1..])
  {
    assert xs[k..][1..] == xs[k + 1..];
  }

  /** The sum of a five-element sequence, written out term by term. */
  lemma {:induction false} SumOfFive(xs: seq<real>)
    requires |xs| == 5
    ensures Sum(xs) == xs[0] + xs[1] + xs[2] + xs[3] + xs[4]
  {
    assert xs[0..] == xs;
    SumFrom(xs, 0); SumFrom(xs, 1); SumFrom(xs, 2); SumFrom(xs, 3); SumFrom(xs, 4);
  }

  /** The sum of a six-element sequence, written out term by term. */
  lemma {:induction false} SumOfSix(xs: seq<real>)
    requires |xs| == 6
    ensures Sum(xs) == xs[0] + xs[1] + xs[2] + xs[3] + xs[4] + xs[5]
  {
    assert xs[0..] == xs;
    SumFrom(xs, 0); SumFrom(xs, 1); SumFrom(xs, 2); SumFrom(xs, 3); SumFrom(xs, 4); SumFrom(xs, 5);
  }

  /** The sum of an eight-element sequence, written out term by term. */
  lemma {:induction false} SumOfEight(xs: seq<real>)
    requires |xs| == 8
    ensures Sum(xs) == xs[0] + xs[1] + xs[2] + xs[3] + xs[4] + xs[5] + xs[6] + xs[7]
  {
    assert xs[0..] == xs;
    SumFrom(xs, 0); SumFrom(xs, 1); SumFrom(xs, 2); SumFrom(xs, 3);
    SumFrom(xs, 4); SumFrom(xs, 5); SumFrom(xs, 6); SumFrom(xs, 7);
  }
}
