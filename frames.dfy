/**
 * A data frame the analysis and fetching code mutates in place: column
 * assignment (`df[c] = ...`) and in-place renaming. Its state at any time
 * is a `Table` value, `View()`.
 */
module Frames {
  import opened Wrappers
  import opened Statements

  class Frame {
    var names: seq<string>
    var cols: map<string, Column>
    var height: nat

    /** The frame's current contents as a table value. */
    function View(): Table
      reads this
    {
      Table(names, cols, height)
    }

    ghost predicate Valid()
      reads this
    {
      View().Valid()
    }

    constructor (t: Table)
      requires t.Valid()
      ensures View() == t && Valid()
    {
      names := t.names;
      cols := t.cols;
      height := t.height;
    }

    /** `df[c] = cells`: a numeric column, replaced where `c` exists and appended otherwise. */
    method Assign(c: string, cells: seq<Cell>)
      requires Valid() && |cells| == height
      modifies this
      ensures View() == old(View()).With(c, Column(Numeric, cells))
      ensures Valid()
    {
      WithValid(View(), c, Column(Numeric, cells));
      if c !in cols {
        names := names + [c];
      }
      cols := cols[c := Column(Numeric, cells)];
    }

    /** `df.rename(columns={from: to}, inplace=True)` where `to` is not a label yet. */
    method Rename(from: string, to: string)
      requires Valid() && from in cols && to !in cols
      modifies this
      ensures View() == old(View()).Renamed(from, to)
      ensures Valid()
    {
      RenamedValid(View(), from, to);
      names := Relabel(names, from, to);
      cols := (cols - {from})[to := cols[from]];
    }
  }

  // Element-wise column arithmetic, as pandas applies it row by row.

  /** `a / b` row by row (a zero divisor gives a missing cell). */
  function Ratio(a: seq<Cell>, b: seq<Cell>): (r: seq<Cell>)
    requires |a| == |b|
    ensures |r| == |a|
    ensures forall i :: 0 <= i < |r| ==> r[i] == Quotient(a[i], b[i])
  {
    seq(|a|, i requires 0 <= i < |a| => Quotient(a[i], b[i]))
  }

  /** `a - b` row by row. */
  function Difference(a: seq<Cell>, b: seq<Cell>): (r: seq<Cell>)
    requires |a| == |b|
    ensures |r| == |a|
    ensures forall i :: 0 <= i < |r| ==> r[i] == Minus(a[i], b[i])
  {
    seq(|a|, i requires 0 <= i < |a| => Minus(a[i], b[i]))
  }

  /** `abs(a)` row by row. */
  function Magnitudes(a: seq<Cell>): (r: seq<Cell>)
    ensures |r| == |a|
    ensures forall i :: 0 <= i < |r| ==> r[i] == Magnitude(a[i])
  {
    seq(|a|, i requires 0 <= i < |a| => Magnitude(a[i]))
  }
}
