/**
 * Derived columns added to a prepared statement frame in place:
 * four-period (year-over-year) percentage changes, the two margins of the
 * income statement and a signed free cash flow.
 */
module Analysis {
  import opened Wrappers
  import opened Statements
  import opened Frames

  /** The label suffix of a change column. */
  const YoYSuffix: string := "_YoY_%"

  /** The change at row `i` against row `i - 4`, in percent: (x[i] / x[i-4] - 1) * 100. */
  function YoYAt(x: seq<Cell>, i: nat): (r: Cell)
    requires i < |x|
    ensures i < 4 ==> r.None?
    ensures 4 <= i ==> (r.Some? <==> x[i].Some? && x[i - 4].Some? && x[i - 4].value != 0.0)
    ensures r.Some? ==> 4 <= i && r.value * x[i - 4].value == (x[i].value - x[i - 4].value) * 100.0
  {
    if i < 4 then None
    else
      var ratio := Quotient(x[i], x[i - 4]);
      if ratio.Some? then
        ChangeInPercent(x[i].value, x[i - 4].value);
        Some((ratio.value - 1.0) * 100.0)
      else None
  }

  lemma {:induction false} ChangeInPercent(now: real, before: real)
    requires before != 0.0
    ensures ((now / before - 1.0) * 100.0) * before == (now - before) * 100.0
  {
    assert (now / before) * before == now;
  }

  /**
   * `pct_change(periods=4, fill_method=None) * 100`: the first four rows
   * have no change, a missing cell on either side leaves the row missing,
   * and otherwise the change relates the row to the one four periods back.
   */
  function YoY(x: seq<Cell>): (r: seq<Cell>)
    ensures |r| == |x|
    ensures forall i :: 0 <= i < |r| && i < 4 ==> r[i].None?
    ensures forall i :: 4 <= i < |r| ==> (r[i].Some? <==> x[i].Some? && x[i - 4].Some? && x[i - 4].value != 0.0)
    ensures forall i :: 4 <= i < |r| && r[i].Some? ==> r[i].value * x[i - 4].value == (x[i].value - x[i - 4].value) * 100.0
  {
    seq(|x|, i requires 0 <= i < |x| => YoYAt(x, i))
  }

  /** A steady series (every row equal to the one four back and nonzero) has a zero change from row 4 on. */
  lemma {:induction false} YoYOfSteadySeries(x: seq<Cell>, i: nat)
    requires 4 <= i < |x| && x[i].Some? && x[i] == x[i - 4] && x[i].value != 0.0
    ensures YoY(x)[i] == Some(0.0)
  {
    var r := YoY(x)[i];
    assert r.Some?;
    assert r.value * x[i].value == 0.0;
  }

  // ---------------------------------------------------------------------
  // compute_yoy_change
  // ---------------------------------------------------------------------

  /**
   * The table after `compute_yoy_change(df, column)`: an object column is
   * left alone; otherwise `<column>_YoY_%` holds its change series (added
   * at the end, or replaced where it exists) and nothing else changes.
   */
  function YoYColumn(t: Table, column: string): (r: Table)
    requires t.Valid() && column in t.cols
    ensures r.Valid() && r.height == t.height
    ensures t.cols[column].kind == Object ==> r == t
    ensures t.cols[column].kind != Object ==>
      && column + YoYSuffix in r.cols
      && r.cols[column + YoYSuffix] == Column(Numeric, YoY(t.cols[column].cells))
      && r.names == (if column + YoYSuffix in t.cols then t.names else t.names + [column + YoYSuffix])
    ensures forall c :: c in t.cols && c != column + YoYSuffix ==> c in r.cols && r.cols[c] == t.cols[c]
    ensures forall c :: c in r.cols ==> c in t.cols || (t.cols[column].kind != Object && c == column + YoYSuffix)
  {
    if t.cols[column].kind != Object then
      var change := Column(Numeric, YoY(t.cols[column].cells));
      WithValid(t, column + YoYSuffix, change);
      t.With(column + YoYSuffix, change)
    else t
  }

  /** `compute_yoy_change`: a datetime column makes the division raise, hence the requirement. */
  method ComputeYoYChange(df: Frame, column: string)
    requires df.Valid() && column in df.cols && df.cols[column].kind != Timestamp
    modifies df
    ensures df.Valid()
    ensures df.View() == YoYColumn(old(df.View()), column)
  {
    if df.cols[column].kind != Object {
      df.Assign(column + YoYSuffix, YoY(df.cols[column].cells));
    }
  }

  // ---------------------------------------------------------------------
  // add_all_yoy
  // ---------------------------------------------------------------------

  /** A column `add_all_yoy` visits: not "Date" and not of object dtype. */
  predicate Eligible(t: Table, c: string) {
    c != "Date" && c in t.cols && t.cols[c].kind != Object
  }

  /** Only "Date" may hold timestamps (any other datetime column would make the change raise). */
  ghost predicate DatesOnlyInDate(t: Table) {
    forall c :: c in t.cols && c != "Date" ==> t.cols[c].kind != Timestamp
  }

  /** One iteration of the loop: compute the change for `c` when it is eligible. */
  function VisitColumn(t: Table, c: string): (r: Table)
    requires t.Valid() && c in t.cols && DatesOnlyInDate(t)
    ensures r.Valid() && DatesOnlyInDate(r) && r.height == t.height
    ensures forall d :: d in t.cols ==> d in r.cols
  {
    if Eligible(t, c) then YoYColumn(t, c) else t
  }

  /** The table after the loop has visited the labels `cs`, in order. */
  function AllYoY(t: Table, cs: seq<string>): (r: Table)
    requires t.Valid() && DatesOnlyInDate(t) && forall c :: c in cs ==> c in t.cols
    ensures r.Valid() && DatesOnlyInDate(r) && r.height == t.height
    ensures forall d :: d in t.cols ==> d in r.cols
  {
    if cs == [] then t
    else
      var u := AllYoY(t, cs[..|cs| - 1]);
      VisitColumn(u, cs[|cs| - 1])
  }

  /** `add_all_yoy`: the loop visits the labels the frame had when it started. */
  method AddAllYoY(df: Frame)
    requires df.Valid() && DatesOnlyInDate(df.View())
    modifies df
    ensures df.Valid()
    ensures df.View() == AllYoY(old(df.View()), old(df.names))
  {
    var start := df.View();
    var labels := df.names;
    assert forall c :: c in labels ==> c in start.cols;
    var i := 0;
    while i < |labels|
      invariant 0 <= i <= |labels|
      invariant df.Valid()
      invariant df.View() == AllYoY(start, labels[..i])
    {
      var col := labels[i];
      AllYoYStep(start, labels, i);
      if col != "Date" && df.cols[col].kind != Object {
        ComputeYoYChange(df, col);
      }
      i := i + 1;
    }
    assert labels[..i] == labels;
  }

  /** Visiting one more label extends the loop's table by one visit. */
  lemma {:induction false} AllYoYStep(t: Table, cs: seq<string>, i: nat)
    requires t.Valid() && DatesOnlyInDate(t) && forall c :: c in cs ==> c in t.cols
    requires i < |cs|
    ensures cs[i] in AllYoY(t, cs[..i]).cols
    ensures AllYoY(t, cs[..i + 1]) == VisitColumn(AllYoY(t, cs[..i]), cs[i])
  {
    assert cs[..i + 1][..i] == cs[..i];
  }

  /** `c` is the change label of some visited column. */
  ghost predicate IsChangeLabelOf(c: string, cs: seq<string>) {
    exists d :: d in cs && c == d + YoYSuffix
  }

  /** No label is the change label of another, so the loop never overwrites an input column. */
  ghost predicate FreshChangeLabels(t: Table) {
    forall c, d :: c in t.cols && d in t.cols ==> d + YoYSuffix != c
  }

  lemma {:induction false} SuffixCancels(a: string, b: string)
    requires a + YoYSuffix == b + YoYSuffix
    ensures a == b
  {
    assert |a| == |b|;
    assert a == (a + YoYSuffix)[..|a|];
    assert b == (b + YoYSuffix)[..|b|];
  }

  /** What `add_all_yoy` leaves alone: every column that is not the change label of a visited column. */
  lemma {:induction false} AllYoYUntouched(t: Table, cs: seq<string>)
    requires t.Valid() && DatesOnlyInDate(t) && forall c :: c in cs ==> c in t.cols
    ensures forall c :: c in t.cols && !IsChangeLabelOf(c, cs) ==> AllYoY(t, cs).cols[c] == t.cols[c]
  {
    if cs != [] {
      var front := cs[..|cs| - 1];
      var last := cs[|cs| - 1];
      assert cs == front + [last];
      AllYoYUntouched(t, front);
      forall c | c in t.cols && !IsChangeLabelOf(c, cs)
        ensures AllYoY(t, cs).cols[c] == t.cols[c]
      {
        assert last in cs;
        forall d | d in front
          ensures c != d + YoYSuffix
        {
          assert d in cs;
        }
      }
    }
  }

  /**
   * What `add_all_yoy` adds: every eligible visited column gets its change
   * series, computed from its original cells.
   */
  lemma {:induction false} AllYoYAdded(t: Table, cs: seq<string>)
    requires t.Valid() && DatesOnlyInDate(t) && forall c :: c in cs ==> c in t.cols
    requires FreshChangeLabels(t)
    ensures forall d :: d in cs && Eligible(t, d) ==>
      && d + YoYSuffix in AllYoY(t, cs).cols
      && AllYoY(t, cs).cols[d + YoYSuffix] == Column(Numeric, YoY(t.cols[d].cells))
  {
    if cs != [] {
      var front := cs[..|cs| - 1];
      var last := cs[|cs| - 1];
      assert cs == front + [last];
      AllYoYAdded(t, front);
      AllYoYUntouched(t, front);
      forall d | d in front
        ensures last != d + YoYSuffix
      {
        assert d in cs && last in cs;
        assert d in t.cols && last in t.cols;
      }
      assert AllYoY(t, front).cols[last] == t.cols[last];
      forall d | d in cs && Eligible(t, d)
        ensures d + YoYSuffix in AllYoY(t, cs).cols
        ensures AllYoY(t, cs).cols[d + YoYSuffix] == Column(Numeric, YoY(t.cols[d].cells))
      {
        if d != last {
          assert d in front;
          if d + YoYSuffix == last + YoYSuffix {
            SuffixCancels(d, last);
          }
        }
      }
    }
  }

  /** `c` is the change label of a visited column the loop computes a change for. */
  ghost predicate IsAddedLabel(c: string, t: Table, cs: seq<string>) {
    exists d :: d in cs && Eligible(t, d) && c == d + YoYSuffix
  }

  /**
   * Nothing else is added: every label after the loop was already there or
   * is the change label of an eligible visited column (none for "Date" or
   * an object column, and no change of a change).
   */
  lemma {:induction false} AllYoYOnlyAdds(t: Table, cs: seq<string>)
    requires t.Valid() && DatesOnlyInDate(t) && forall c :: c in cs ==> c in t.cols
    requires FreshChangeLabels(t)
    ensures forall c :: c in AllYoY(t, cs).cols ==> c in t.cols || IsAddedLabel(c, t, cs)
  {
    if cs != [] {
      var front := cs[..|cs| - 1];
      var last := cs[|cs| - 1];
      assert cs == front + [last];
      AllYoYOnlyAdds(t, front);
      AllYoYUntouched(t, front);
      var u := AllYoY(t, front);
      assert last in cs && last in t.cols;
      assert !IsChangeLabelOf(last, front) by {
        forall d | d in front
          ensures last != d + YoYSuffix
        {
          assert d in cs;
        }
      }
      assert u.cols[last] == t.cols[last];
      forall c | c in AllYoY(t, cs).cols
        ensures c in t.cols || IsAddedLabel(c, t, cs)
      {
        if c in u.cols {
          if !(c in t.cols) {
            var d :| d in front && Eligible(t, d) && c == d + YoYSuffix;
            assert d in cs;
          }
        } else {
          assert Eligible(u, last) && c == last + YoYSuffix;
          assert Eligible(t, last);
        }
      }
    }
  }

  // ---------------------------------------------------------------------
  // add_income_statement_ratios, add_cash_flow_ratios
  // ---------------------------------------------------------------------

  /**
   * The table after `add_income_statement_ratios`: with revenue and gross
   * profit present, "Gross_Margin" is their row-by-row ratio; with revenue
   * and net income present, "Net_Margin" likewise; nothing else changes.
   */
  function IncomeRatios(t: Table): (r: Table)
    requires t.Valid()
    ensures r.Valid() && r.height == t.height
    ensures "Total Revenue" in t.cols && "Gross Profit" in t.cols ==>
      && "Gross_Margin" in r.cols
      && r.cols["Gross_Margin"] == Column(Numeric, Ratio(t.cols["Gross Profit"].cells, t.cols["Total Revenue"].cells))
    ensures "Total Revenue" in t.cols && "Net Income" in t.cols ==>
      && "Net_Margin" in r.cols
      && r.cols["Net_Margin"] == Column(Numeric, Ratio(t.cols["Net Income"].cells, t.cols["Total Revenue"].cells))
    ensures forall c :: c in t.cols ==> c in r.cols
    ensures forall c :: c in r.cols && c != "Gross_Margin" && c != "Net_Margin" ==> c in t.cols && r.cols[c] == t.cols[c]
    ensures !("Total Revenue" in t.cols && "Gross Profit" in t.cols) && "Gross_Margin" in t.cols ==>
      r.cols["Gross_Margin"] == t.cols["Gross_Margin"]
    ensures !("Total Revenue" in t.cols && "Net Income" in t.cols) && "Net_Margin" in t.cols ==>
      r.cols["Net_Margin"] == t.cols["Net_Margin"]
    ensures !("Total Revenue" in t.cols && "Gross Profit" in t.cols) ==> ("Gross_Margin" in r.cols <==> "Gross_Margin" in t.cols)
    ensures !("Total Revenue" in t.cols && "Net Income" in t.cols) ==> ("Net_Margin" in r.cols <==> "Net_Margin" in t.cols)
    ensures !("Total Revenue" in t.cols && "Gross Profit" in t.cols) && !("Total Revenue" in t.cols && "Net Income" in t.cols) ==>
      r == t
  {
    NetMarginAdded(GrossMarginAdded(t))
  }

  /** The first half of `add_income_statement_ratios`: the gross margin. */
  function GrossMarginAdded(t: Table): (r: Table)
    requires t.Valid()
    ensures r.Valid() && r.height == t.height
    ensures "Total Revenue" in t.cols && "Gross Profit" in t.cols ==>
      && "Gross_Margin" in r.cols
      && r.cols["Gross_Margin"] == Column(Numeric, Ratio(t.cols["Gross Profit"].cells, t.cols["Total Revenue"].cells))
    ensures !("Total Revenue" in t.cols && "Gross Profit" in t.cols) ==> r == t
    ensures forall c :: c in t.cols ==> c in r.cols
    ensures forall c :: c in r.cols && c != "Gross_Margin" ==> c in t.cols && r.cols[c] == t.cols[c]
  {
    if "Total Revenue" in t.cols && "Gross Profit" in t.cols then
      var gross := Column(Numeric, Ratio(t.cols["Gross Profit"].cells, t.cols["Total Revenue"].cells));
      WithValid(t, "Gross_Margin", gross);
      t.With("Gross_Margin", gross)
    else t
  }

  /** The second half of `add_income_statement_ratios`: the net margin. */
  function NetMarginAdded(t: Table): (r: Table)
    requires t.Valid()
    ensures r.Valid() && r.height == t.height
    ensures "Total Revenue" in t.cols && "Net Income" in t.cols ==>
      && "Net_Margin" in r.cols
      && r.cols["Net_Margin"] == Column(Numeric, Ratio(t.cols["Net Income"].cells, t.cols["Total Revenue"].cells))
    ensures !("Total Revenue" in t.cols && "Net Income" in t.cols) ==> r == t
    ensures forall c :: c in t.cols ==> c in r.cols
    ensures forall c :: c in r.cols && c != "Net_Margin" ==> c in t.cols && r.cols[c] == t.cols[c]
  {
    if "Total Revenue" in t.cols && "Net Income" in t.cols then
      var net := Column(Numeric, Ratio(t.cols["Net Income"].cells, t.cols["Total Revenue"].cells));
      WithValid(t, "Net_Margin", net);
      t.With("Net_Margin", net)
    else t
  }

  method AddIncomeStatementRatios(df: Frame)
    requires df.Valid()
    modifies df
    ensures df.Valid()
    ensures df.View() == IncomeRatios(old(df.View()))
  {
    if "Total Revenue" in df.cols && "Gross Profit" in df.cols {
      df.Assign("Gross_Margin", Ratio(df.cols["Gross Profit"].cells, df.cols["Total Revenue"].cells));
    }
    if "Total Revenue" in df.cols && "Net Income" in df.cols {
      df.Assign("Net_Margin", Ratio(df.cols["Net Income"].cells, df.cols["Total Revenue"].cells));
    }
  }

  /**
   * The table after `add_cash_flow_ratios`: with operating cash flow and
   * capital expenditures present, "Free_Cash_Flow" is their signed
   * row-by-row difference; nothing else changes.
   */
  function CashFlowRatios(t: Table): (r: Table)
    requires t.Valid()
    ensures r.Valid() && r.height == t.height
    ensures "Total Cash From Operating Activities" in t.cols && "Capital Expenditures" in t.cols ==>
      "Free_Cash_Flow" in r.cols &&
      r.cols["Free_Cash_Flow"] == Column(Numeric, Difference(t.cols["Total Cash From Operating Activities"].cells,
                                                             t.cols["Capital Expenditures"].cells))
    ensures !("Total Cash From Operating Activities" in t.cols && "Capital Expenditures" in t.cols) ==> r == t
    ensures forall c :: c in t.cols ==> c in r.cols
    ensures forall c :: c in r.cols && c != "Free_Cash_Flow" ==> c in t.cols && r.cols[c] == t.cols[c]
  {
    if "Total Cash From Operating Activities" in t.cols && "Capital Expenditures" in t.cols then
      var fcf := Column(Numeric, Difference(t.cols["Total Cash From Operating Activities"].cells,
                                            t.cols["Capital Expenditures"].cells));
      WithValid(t, "Free_Cash_Flow", fcf);
      t.With("Free_Cash_Flow", fcf)
    else t
  }

  method AddCashFlowRatios(df: Frame)
    requires df.Valid()
    modifies df
    ensures df.Valid()
    ensures df.View() == CashFlowRatios(old(df.View()))
  {
    if "Total Cash From Operating Activities" in df.cols && "Capital Expenditures" in df.cols {
      df.Assign("Free_Cash_Flow", Difference(df.cols["Total Cash From Operating Activities"].cells,
                                             df.cols["Capital Expenditures"].cells));
    }
  }
}
