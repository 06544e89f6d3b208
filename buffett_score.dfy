/**
 * The Buffett models. One source file holds two drafts: the model the app
 * uses (`ScoreBuffettCompany`, linear-range and inverse-range curves) and an
 * older draft (`ScoreBuffett`, per-metric fallbacks and tier curves). Both
 * call the second definition of the positivity scorer.
 */
module BuffettScore {
  import opened Wrappers
  import opened Statements
  import opened Format

  // ---------------------------------------------------------------------
  // Curves used by the app's model
  // ---------------------------------------------------------------------

  /**
   * Linear-range curve. Below `low` it is 10 * v / low floored at 0 (so it
   * climbs towards 10 just under `low`), from `low` to `high` it rises from
   * 5 to 10, above `high` it is 10.
   */
  function ScoreRange(v: Option<real>, low: real, high: real): (r: real)
    requires 0.0 < low < high
    ensures v.None? ==> r == 3.0
    ensures 0.0 <= r <= 10.0
    ensures v.Some? && v.value <= 0.0 ==> r == 0.0
    ensures v.Some? && 0.0 < v.value < low ==> r * low == 10.0 * v.value
    ensures v.Some? && low <= v.value <= high ==> 5.0 <= r <= 10.0
    ensures v.Some? && low <= v.value <= high ==> (r - 5.0) * (high - low) == 5.0 * (v.value - low)
    ensures v.Some? && v.value == low ==> r == 5.0
    ensures v.Some? && v.value >= high ==> r == 10.0
  {
    if v.None? then 3.0
    else if v.value < low then
      BelowLow(v.value, low);
      Max(0.0, 10.0 * (v.value / low))
    else if v.value > high then 10.0
    else
      FractionWithin(v.value - low, high - low);
      5.0 + 5.0 * ((v.value - low) / (high - low))
  }

  function Max(a: real, b: real): real {
    if a >= b then a else b
  }

  /**
   * Inverse-range curve. Below `low` it is 10, from `low` to `high` it falls
   * from 10 to 5, above `high` it is 10 - 10 * (v - high) / high floored at 0
   * (so it jumps back towards 10 just above `high`).
   */
  function ScoreInverseRange(v: Option<real>, low: real, high: real): (r: real)
    requires 0.0 <= low < high
    ensures v.None? ==> r == 3.0
    ensures 0.0 <= r <= 10.0
    ensures v.Some? && v.value <= low ==> r == 10.0
    ensures v.Some? && low <= v.value <= high ==> 5.0 <= r <= 10.0
    ensures v.Some? && low <= v.value <= high ==> (10.0 - r) * (high - low) == 5.0 * (v.value - low)
    ensures v.Some? && v.value == high ==> r == 5.0
    ensures v.Some? && high < v.value < 2.0 * high ==> (10.0 - r) * high == 10.0 * (v.value - high)
    ensures v.Some? && v.value >= 2.0 * high ==> r == 0.0
  {
    if v.None? then 3.0
    else if v.value < low then 10.0
    else if v.value > high then
      ExcessRatio(v.value, high);
      Max(0.0, 10.0 - (10.0 * (v.value - high) / high))
    else
      FractionWithin(v.value - low, high - low);
      10.0 - (5.0 * ((v.value - low) / (high - low)))
  }

  /** A part of a positive whole is a fraction in [0, 1], 0 for none of it and 1 for all of it. */
  lemma {:induction false} FractionWithin(part: real, whole: real)
    requires whole > 0.0 && 0.0 <= part <= whole
    ensures 0.0 <= part / whole <= 1.0
    ensures part == 0.0 ==> part / whole == 0.0
    ensures part == whole ==> part / whole == 1.0
    ensures part / whole * whole == part
  {
    DivMonotone(part, whole, whole);
    DivMonotone(0.0, part, whole);
  }

  /** Below `low` the score 10 * v / low is 0 or less for v <= 0, and in (0, 10) with score * low = 10 * v otherwise. */
  lemma {:induction false} BelowLow(v: real, low: real)
    requires 0.0 < low && v < low
    ensures v <= 0.0 ==> 10.0 * (v / low) <= 0.0
    ensures 0.0 < v ==> 0.0 < 10.0 * (v / low) < 10.0 && 10.0 * (v / low) * low == 10.0 * v
  {
    DivMonotone(v, low, low);
    if v <= 0.0 {
      DivMonotone(v, 0.0, low);
    } else {
      DivMonotone(0.0, v, low);
      var q := v / low;
      assert 0.0 / low == 0.0 && low / low == 1.0;
      assert q * low == v;
      assert q != 0.0 && q != 1.0;
      assert 0.0 < q < 1.0;
      assert 10.0 * q * low == 10.0 * v;
    }
  }

  /** Above `high` the penalty 10 * (v - high) / high is positive, and at least 10 from twice `high` on. */
  lemma {:induction false} ExcessRatio(v: real, high: real)
    requires 0.0 < high < v
    ensures 10.0 * (v - high) / high > 0.0
    ensures v >= 2.0 * high ==> 10.0 * (v - high) / high >= 10.0
  {
    if v >= 2.0 * high {
      DivMonotone(10.0 * high, 10.0 * (v - high), high);
      assert 10.0 * high / high == 10.0;
    }
  }

  /**
   * Positivity, the definition both drafts call (the later one, which tests
   * only for `None`): None -> 3, > 0 -> 10, anything else, NaN included, 0.
   */
  function ScorePositive(v: Scalar): (r: real)
    ensures v.Nothing? ==> r == 3.0
    ensures v.NaN? ==> r == 0.0
    ensures v.Num? ==> (r == 10.0 <==> v.x > 0.0) && (r == 0.0 <==> v.x <= 0.0)
    ensures 0.0 <= r <= 10.0
  {
    match v
    case Nothing => 3.0
    case NaN => 0.0
    case Num(x) => if x > 0.0 then 10.0 else 0.0
  }

  /** Within `[low, high]` and above it, the linear-range curve never decreases. */
  lemma {:induction false} RangeMonotoneFromLow(a: real, b: real, low: real, high: real)
    requires 0.0 < low < high && low <= a <= b
    ensures ScoreRange(Some(a), low, high) <= ScoreRange(Some(b), low, high)
  {
    if b <= high {
      var d := high - low;
      assert (a - low) / d <= (b - low) / d by {
        DivMonotone(a - low, b - low, d);
      }
    }
  }

  /** Below `low` the linear-range curve never decreases either. */
  lemma {:induction false} RangeMonotoneBelowLow(a: real, b: real, low: real, high: real)
    requires 0.0 < low < high && a <= b < low
    ensures ScoreRange(Some(a), low, high) <= ScoreRange(Some(b), low, high)
  {
    DivMonotone(a, b, low);
  }

  lemma {:induction false} DivMonotone(a: real, b: real, d: real)
    requires d > 0.0 && a <= b
    ensures a / d <= b / d
  {
    assert b / d - a / d == (b - a) / d;
  }

  /** The jump at `low`: ROE 0.14 outscores ROE 0.15 on the (0.15, 0.25) curve. */
  lemma {:induction false} RangeNotMonotone()
    ensures ScoreRange(Some(0.14), 0.15, 0.25) > ScoreRange(Some(0.15), 0.15, 0.25)
  {
    assert ScoreRange(Some(0.15), 0.15, 0.25) == 5.0;
    assert ScoreRange(Some(0.14), 0.15, 0.25) * 0.15 == 1.4;
  }

  /** The jump at `high`: on the (0, 2) curve a debt ratio of 2.2 outscores 2. */
  lemma {:induction false} InverseRangeNotMonotone()
    ensures ScoreInverseRange(Some(2.0), 0.0, 2.0) == 5.0
    ensures ScoreInverseRange(Some(2.2), 0.0, 2.0) == 9.0
  {
  }

  /** The leverage example: a debt ratio of 0.5 on the (0, 2) curve scores 8.75. */
  lemma {:induction false} InverseRangeExample()
    ensures ScoreInverseRange(Some(0.5), 0.0, 2.0) == 8.75
  {
  }

  // ---------------------------------------------------------------------
  // Tier curves used by the older draft (inclusive lower bounds)
  // ---------------------------------------------------------------------

  /** >= 0.20 -> 10, >= 0.10 -> 7, >= 0.05 -> 5, >= 0 -> 3, else (NaN too) 0. */
  function ScorePercentage(v: Scalar): (r: real)
    ensures v.Nothing? ==> r == 3.0
    ensures v.NaN? ==> r == 0.0
    ensures v.Num? ==> (r == 10.0 <==> v.x >= 0.20)
    ensures v.Num? ==> (r == 7.0 <==> 0.10 <= v.x < 0.20)
    ensures v.Num? ==> (r == 5.0 <==> 0.05 <= v.x < 0.10)
    ensures v.Num? ==> (r == 3.0 <==> 0.0 <= v.x < 0.05)
    ensures v.Num? ==> (r == 0.0 <==> v.x < 0.0)
  {
    match v
    case Nothing => 3.0
    case NaN => 0.0
    case Num(x) =>
      if x >= 0.20 then 10.0
      else if x >= 0.10 then 7.0
      else if x >= 0.05 then 5.0
      else if x >= 0.0 then 3.0
      else 0.0
  }

  /** Lower is better: <= 0.5 -> 10, <= 1 -> 7, <= 2 -> 5, else (NaN too) 3. */
  function ScoreInverse(v: Scalar): (r: real)
    ensures v.Nothing? ==> r == 3.0
    ensures v.NaN? ==> r == 3.0
    ensures v.Num? ==> (r == 10.0 <==> v.x <= 0.5)
    ensures v.Num? ==> (r == 7.0 <==> 0.5 < v.x <= 1.0)
    ensures v.Num? ==> (r == 5.0 <==> 1.0 < v.x <= 2.0)
    ensures v.Num? ==> (r == 3.0 <==> v.x > 2.0)
  {
    match v
    case Nothing => 3.0
    case NaN => 3.0
    case Num(x) =>
      if x <= 0.5 then 10.0
      else if x <= 1.0 then 7.0
      else if x <= 2.0 then 5.0
      else 3.0
  }

  /** >= 0.15 -> 10, >= 0.05 -> 7, > 0 -> 5, else (NaN too) 0. */
  function ScoreGrowth(v: Scalar): (r: real)
    ensures v.Nothing? ==> r == 3.0
    ensures v.NaN? ==> r == 0.0
    ensures v.Num? ==> (r == 10.0 <==> v.x >= 0.15)
    ensures v.Num? ==> (r == 7.0 <==> 0.05 <= v.x < 0.15)
    ensures v.Num? ==> (r == 5.0 <==> 0.0 < v.x < 0.05)
    ensures v.Num? ==> (r == 0.0 <==> v.x <= 0.0)
  {
    match v
    case Nothing => 3.0
    case NaN => 0.0
    case Num(x) =>
      if x >= 0.15 then 10.0
      else if x >= 0.05 then 7.0
      else if x > 0.0 then 5.0
      else 0.0
  }

  /** The tier curves never decrease (inverse: never increase) as the value grows. */
  lemma {:induction false} TiersMonotone(a: real, b: real)
    requires a <= b
    ensures ScorePercentage(Num(a)) <= ScorePercentage(Num(b))
    ensures ScoreInverse(Num(a)) >= ScoreInverse(Num(b))
    ensures ScoreGrowth(Num(a)) <= ScoreGrowth(Num(b))
    ensures ScorePositive(Num(a)) <= ScorePositive(Num(b))
  {
  }

  // ---------------------------------------------------------------------
  // The app's model: score_buffett_company
  // ---------------------------------------------------------------------

  const TotalLiabilitiesNmi := "Total Liabilities Net Minority Interest"

  /** Latest total assets minus latest liabilities, when both columns exist. */
  function InvestedCapital(bs: Table): (r: Cell)
    requires Ready(Some(bs)) && "Total Assets" in bs.cols && TotalLiabilitiesNmi in bs.cols
  {
    Minus(bs.Latest("Total Assets"), bs.Latest(TotalLiabilitiesNmi))
  }

  /** The ROE step does not raise: without "Net Income" (`ni` is None) it may not reach its division. */
  ghost predicate RoeScorable(bs: Table, inc: Table) {
    && Ready(Some(bs)) && Ready(Some(inc))
    && ("Net Income" !in inc.cols && "Total Stockholder Equity" in bs.cols ==>
          bs.Latest("Total Stockholder Equity") == Some(0.0))
  }

  /** The ROIC step does not raise: without "Net Income" the invested capital must be 0. */
  ghost predicate RoicScorable(bs: Table, inc: Table) {
    && Ready(Some(bs)) && Ready(Some(inc))
    && ("Net Income" !in inc.cols && "Total Assets" in bs.cols && TotalLiabilitiesNmi in bs.cols ==>
          InvestedCapital(bs) == Some(0.0))
  }

  /**
   * The inputs on which `score_buffett_company` does not raise: all three
   * tables exist (the type says so), a margin is only computed when "Total
   * Revenue" exists, and without "Net Income" neither ROE nor ROIC may reach
   * its division.
   */
  ghost predicate CompanyScorable(bs: Table, inc: Table, cf: Table) {
    && Ready(Some(cf)) && RoeScorable(bs, inc) && RoicScorable(bs, inc)
    && ("Gross Profit" in inc.cols ==> "Total Revenue" in inc.cols)
    && ("Net Income" in inc.cols ==> "Total Revenue" in inc.cols)
  }

  /**
   * Owner earnings, ni + da - |capex|: `None` unless net income,
   * depreciation and capital expenditures all exist, NaN when one of their
   * latest cells is missing.
   */
  function OwnerEarnings(inc: Table, cf: Table): (r: Scalar)
    requires Ready(Some(inc)) && Ready(Some(cf))
    ensures r.Nothing? <==> !("Net Income" in inc.cols && "Depreciation" in inc.cols && "Capital Expenditures" in cf.cols)
    ensures r.Num? <==>
      && "Net Income" in inc.cols && "Depreciation" in inc.cols && "Capital Expenditures" in cf.cols
      && inc.Latest("Net Income").Some? && inc.Latest("Depreciation").Some? && cf.Latest("Capital Expenditures").Some?
    ensures r.Num? ==>
      && inc.Latest("Net Income").Some? && inc.Latest("Depreciation").Some? && cf.Latest("Capital Expenditures").Some?
      && r.x == inc.Latest("Net Income").value + inc.Latest("Depreciation").value
                - AbsValue(cf.Latest("Capital Expenditures").value)
  {
    if "Net Income" in inc.cols && "Depreciation" in inc.cols && "Capital Expenditures" in cf.cols then
      OfCell(Minus(Plus(inc.Latest("Net Income"), inc.Latest("Depreciation")), Magnitude(cf.Latest("Capital Expenditures"))))
    else Nothing
  }

  /** Return on equity: None when the equity column is absent or its latest value is 0. */
  function Roe(bs: Table, inc: Table): (r: Cell)
    requires RoeScorable(bs, inc)
    ensures ("Total Stockholder Equity" !in bs.cols || bs.Latest("Total Stockholder Equity") == Some(0.0)) ==> r.None?
    ensures r.Some? <==>
      && "Total Stockholder Equity" in bs.cols && "Net Income" in inc.cols
      && bs.Latest("Total Stockholder Equity").Some? && bs.Latest("Total Stockholder Equity").value != 0.0
      && inc.Latest("Net Income").Some?
    ensures r.Some? ==>
      && "Net Income" in inc.cols && inc.Latest("Net Income").Some?
      && bs.Latest("Total Stockholder Equity").Some?
      && r.value * bs.Latest("Total Stockholder Equity").value == inc.Latest("Net Income").value
  {
    if "Total Stockholder Equity" in bs.cols && bs.Latest("Total Stockholder Equity") != Some(0.0) then
      Quotient(inc.Latest("Net Income"), bs.Latest("Total Stockholder Equity"))
    else None
  }

  /** Return on invested capital: None when a column is absent or assets minus liabilities is 0. */
  function Roic(bs: Table, inc: Table): (r: Cell)
    requires RoicScorable(bs, inc)
    ensures !("Total Assets" in bs.cols && TotalLiabilitiesNmi in bs.cols) ==> r.None?
    ensures r.Some? <==>
      && "Total Assets" in bs.cols && TotalLiabilitiesNmi in bs.cols && "Net Income" in inc.cols
      && InvestedCapital(bs).Some? && InvestedCapital(bs).value != 0.0 && inc.Latest("Net Income").Some?
    ensures "Total Assets" in bs.cols && TotalLiabilitiesNmi in bs.cols && InvestedCapital(bs) == Some(0.0) ==> r.None?
    ensures r.Some? ==>
      && "Net Income" in inc.cols && inc.Latest("Net Income").Some?
      && InvestedCapital(bs).Some?
      && r.value * InvestedCapital(bs).value == inc.Latest("Net Income").value
  {
    if "Total Assets" in bs.cols && TotalLiabilitiesNmi in bs.cols then
      var invested := InvestedCapital(bs);
      if invested != Some(0.0) then Quotient(inc.Latest("Net Income"), invested) else None
    else None
  }

  /** Latest `num / Total Revenue` when `num` exists (a zero revenue gives None). */
  function RevenueShare(inc: Table, num: string): (r: Cell)
    requires Ready(Some(inc)) && (num in inc.cols ==> "Total Revenue" in inc.cols)
    ensures num !in inc.cols ==> r.None?
    ensures r.Some? <==>
      && num in inc.cols && inc.Latest(num).Some?
      && inc.Latest("Total Revenue").Some? && inc.Latest("Total Revenue").value != 0.0
    ensures r.Some? ==>
      && inc.Latest("Total Revenue").Some? && inc.Latest(num).Some?
      && r.value * inc.Latest("Total Revenue").value == inc.Latest(num).value
  {
    if num in inc.cols then Quotient(inc.Latest(num), inc.Latest("Total Revenue")) else None
  }

  /** The latest "Debt_to_Equity" cell, missing without the column. */
  function LatestDebtToEquity(bs: Table): (r: Cell)
    requires Ready(Some(bs))
    ensures "Debt_to_Equity" !in bs.cols ==> r.None?
    ensures "Debt_to_Equity" in bs.cols ==> r == bs.Latest("Debt_to_Equity")
  {
    Flat(LatestOf(Some(bs), "Debt_to_Equity"))
  }

  /** The latest free cash flow: `None` without the column, NaN for a missing cell. */
  function Fcff(cf: Table): (r: Scalar)
    requires Ready(Some(cf))
    ensures r.Nothing? <==> "Free Cash Flow" !in cf.cols
    ensures r.Num? <==> "Free Cash Flow" in cf.cols && cf.Latest("Free Cash Flow").Some?
    ensures r.Num? ==> r.x == cf.Latest("Free Cash Flow").value
  {
    if "Free Cash Flow" in cf.cols then OfCell(cf.Latest("Free Cash Flow")) else Nothing
  }

  /** A breakdown entry of the app's model: the formatted value and the score. */
  datatype Shown = Shown(value: string, score: real)

  const BuffettLabels: seq<string> :=
    ["Owner Earnings", "ROE", "ROIC", "Debt-to-Equity", "EPS Growth", "FCFF", "Gross Margin", "Net Margin"]

  /** The app's Buffett breakdown, in insertion order. */
  function CompanyBreakdown(bs: Table, inc: Table, cf: Table, render: Render): (b: seq<(string, Shown)>)
    requires CompanyScorable(bs, inc, cf)
    ensures |b| == 8 && Labels(b) == BuffettLabels
    ensures forall i :: 0 <= i < |b| ==> 0.0 <= b[i].1.score <= 10.0
    ensures b[0].1 == Shown(FormatMetric(FromCell(CellOf(OwnerEarnings(inc, cf))), false, true, render),
                            ScorePositive(OwnerEarnings(inc, cf)))
    ensures b[1].1 == Shown(FormatMetric(FromCell(Roe(bs, inc)), true, false, render), ScoreRange(Roe(bs, inc), 0.15, 0.25))
    ensures b[2].1 == Shown(FormatMetric(FromCell(Roic(bs, inc)), true, false, render), ScoreRange(Roic(bs, inc), 0.15, 0.25))
    ensures b[3].1 == Shown(FormatMetric(FromCell(LatestDebtToEquity(bs)), false, false, render),
                            ScoreInverseRange(LatestDebtToEquity(bs), 0.0, 2.0))
    ensures b[4].1 == Shown("N/A", 3.0)
    ensures b[5].1 == Shown(FormatMetric(FromCell(CellOf(Fcff(cf))), false, true, render), ScorePositive(Fcff(cf)))
    ensures b[6].1 == Shown(FormatMetric(FromCell(RevenueShare(inc, "Gross Profit")), true, false, render),
                            ScoreRange(RevenueShare(inc, "Gross Profit"), 0.4, 0.6))
    ensures b[7].1 == Shown(FormatMetric(FromCell(RevenueShare(inc, "Net Income")), true, false, render),
                            ScoreRange(RevenueShare(inc, "Net Income"), 0.1, 0.3))
  {
    var front := ReturnRows(bs, inc, cf, render);
    var back := GrowthAndMarginRows(bs, inc, cf, render);
    BreakdownJoin(front, back);
    front + back
  }

  /** Four rows with the first four labels and four with the last four make the whole breakdown, row by row. */
  lemma {:induction false} BreakdownJoin(front: seq<(string, Shown)>, back: seq<(string, Shown)>)
    requires |front| == 4 && Labels(front) == BuffettLabels[..4]
    requires |back| == 4 && Labels(back) == BuffettLabels[4..]
    requires forall i :: 0 <= i < 4 ==> 0.0 <= front[i].1.score <= 10.0 && 0.0 <= back[i].1.score <= 10.0
    ensures |front + back| == 8 && Labels(front + back) == BuffettLabels
    ensures forall i :: 0 <= i < 8 ==> 0.0 <= (front + back)[i].1.score <= 10.0
    ensures forall i :: 0 <= i < 4 ==> (front + back)[i] == front[i] && (front + back)[i + 4] == back[i]
  {
    var b := front + back;
    var labels := Labels(b);
    forall i | 0 <= i < 8
      ensures labels[i] == BuffettLabels[i]
      ensures 0.0 <= b[i].1.score <= 10.0
    {
      if i < 4 {
        assert b[i] == front[i] && Labels(front)[i] == front[i].0;
      } else {
        assert b[i] == back[i - 4] && Labels(back)[i - 4] == back[i - 4].0;
      }
    }
  }

  /** The first four rows: owner earnings, the two returns and leverage. */
  function ReturnRows(bs: Table, inc: Table, cf: Table, render: Render): (b: seq<(string, Shown)>)
    requires CompanyScorable(bs, inc, cf)
    ensures |b| == 4 && Labels(b) == BuffettLabels[..4]
    ensures forall i :: 0 <= i < |b| ==> 0.0 <= b[i].1.score <= 10.0
    ensures b[0].1 == Shown(FormatMetric(FromCell(CellOf(OwnerEarnings(inc, cf))), false, true, render),
                            ScorePositive(OwnerEarnings(inc, cf)))
    ensures b[1].1 == Shown(FormatMetric(FromCell(Roe(bs, inc)), true, false, render), ScoreRange(Roe(bs, inc), 0.15, 0.25))
    ensures b[2].1 == Shown(FormatMetric(FromCell(Roic(bs, inc)), true, false, render), ScoreRange(Roic(bs, inc), 0.15, 0.25))
    ensures b[3].1 == Shown(FormatMetric(FromCell(LatestDebtToEquity(bs)), false, false, render),
                            ScoreInverseRange(LatestDebtToEquity(bs), 0.0, 2.0))
  {
    var ownerEarnings := OwnerEarnings(inc, cf);
    var roe := Roe(bs, inc);
    var roic := Roic(bs, inc);
    var debtToEquity := LatestDebtToEquity(bs);
    [ Entry("Owner Earnings", CellOf(ownerEarnings), false, true, ScorePositive(ownerEarnings), render),
      Entry("ROE", roe, true, false, ScoreRange(roe, 0.15, 0.25), render),
      Entry("ROIC", roic, true, false, ScoreRange(roic, 0.15, 0.25), render),
      Entry("Debt-to-Equity", debtToEquity, false, false, ScoreInverseRange(debtToEquity, 0.0, 2.0), render) ]
  }

  /** The last four rows: EPS growth, free cash flow and the two margins. */
  function GrowthAndMarginRows(bs: Table, inc: Table, cf: Table, render: Render): (b: seq<(string, Shown)>)
    requires CompanyScorable(bs, inc, cf)
    ensures |b| == 4 && Labels(b) == BuffettLabels[4..]
    ensures forall i :: 0 <= i < |b| ==> 0.0 <= b[i].1.score <= 10.0
    ensures b[0].1 == Shown("N/A", 3.0)
    ensures b[1].1 == Shown(FormatMetric(FromCell(CellOf(Fcff(cf))), false, true, render), ScorePositive(Fcff(cf)))
    ensures b[2].1 == Shown(FormatMetric(FromCell(RevenueShare(inc, "Gross Profit")), true, false, render),
                            ScoreRange(RevenueShare(inc, "Gross Profit"), 0.4, 0.6))
    ensures b[3].1 == Shown(FormatMetric(FromCell(RevenueShare(inc, "Net Income")), true, false, render),
                            ScoreRange(RevenueShare(inc, "Net Income"), 0.1, 0.3))
  {
    var epsGrowth: Cell := None;
    var fcff := Fcff(cf);
    var grossMargin := RevenueShare(inc, "Gross Profit");
    var netMargin := RevenueShare(inc, "Net Income");
    // The growth is never computed, so the "if eps_growth" guard always takes its else branch.
    [ Entry("EPS Growth", epsGrowth, true, false, 3.0, render),
      Entry("FCFF", CellOf(fcff), false, true, ScorePositive(fcff), render),
      Entry("Gross Margin", grossMargin, true, false, ScoreRange(grossMargin, 0.4, 0.6), render),
      Entry("Net Margin", netMargin, true, false, ScoreRange(netMargin, 0.1, 0.3), render) ]
  }

  /** One breakdown row: the label, the formatted value and the score. */
  function Entry(name: string, value: Cell, isPercentage: bool, isCurrency: bool, score: real, render: Render): (e: (string, Shown))
    ensures e == (name, Shown(e.1.value, score))
    ensures value.None? ==> e.1.value == "N/A"
  {
    (name, Shown(FormatMetric(FromCell(value), isPercentage, isCurrency, render), score))
  }

  /**
   * `score_buffett_company`: the breakdown and the mean of its eight scores.
   * EPS Growth is pinned at 3, so the overall score lies in [3/8, 73/8].
   */
  function ScoreBuffettCompany(bs: Table, inc: Table, cf: Table, render: Render): (r: (real, seq<(string, Shown)>))
    requires CompanyScorable(bs, inc, cf)
    ensures r.1 == CompanyBreakdown(bs, inc, cf, render)
    ensures r.0 * 8.0 == Sum(seq(8, i requires 0 <= i < 8 => r.1[i].1.score))
    ensures 0.375 <= r.0 <= 9.125
  {
    var breakdown := CompanyBreakdown(bs, inc, cf, render);
    var scores := seq(8, i requires 0 <= i < 8 => breakdown[i].1.score);
    SumOfEight(scores);
    (Sum(scores) / 8.0, breakdown)
  }

  // ---------------------------------------------------------------------
  // The older draft: score_buffett
  // ---------------------------------------------------------------------

  /** Owner earnings, latest free cash flow minus latest "Capital Expenditure" (0 when that column is absent). */
  function DraftOwnerEarnings(cf: Option<Table>): (m: Metric)
    requires Shaped(cf)
    ensures 0.0 <= m.score <= 10.0
    ensures !Reachable(cf, "Free Cash Flow") ==> m == Neutral
    ensures Reachable(cf, "Free Cash Flow") ==> m.score == ScorePositive(OfCell(m.value))
    ensures Reachable(cf, "Free Cash Flow") && m.value.Some? ==>
      && At(cf, "Free Cash Flow").Some?
      && ("Capital Expenditure" in cf.value.cols ==>
            && At(cf, "Capital Expenditure").Some?
            && m.value.value == At(cf, "Free Cash Flow").value - At(cf, "Capital Expenditure").value)
      && ("Capital Expenditure" !in cf.value.cols ==> m.value.value == At(cf, "Free Cash Flow").value)
    ensures Reachable(cf, "Free Cash Flow") ==>
      (m.value.Some? <==>
         At(cf, "Free Cash Flow").Some? && ("Capital Expenditure" in cf.value.cols ==> At(cf, "Capital Expenditure").Some?))
  {
    if Reachable(cf, "Free Cash Flow") then
      var capex := if "Capital Expenditure" in cf.value.cols then At(cf, "Capital Expenditure") else Some(0.0);
      var ownerEarnings := OfCell(Minus(At(cf, "Free Cash Flow"), capex));
      Metric(CellOf(ownerEarnings), ScorePositive(ownerEarnings))
    else Neutral
  }

  /** ROE, latest net income over latest equity; a zero equity gives `None`. */
  function DraftRoe(bs: Option<Table>, inc: Option<Table>): (m: Metric)
    requires Shaped(bs) && Shaped(inc)
    ensures 0.0 <= m.score <= 10.0
    ensures !(Reachable(inc, "Net Income") && Reachable(bs, "Total Stockholder Equity")) ==> m == Neutral
    ensures Reachable(inc, "Net Income") && Reachable(bs, "Total Stockholder Equity") ==>
      && (At(bs, "Total Stockholder Equity") == Some(0.0) ==> m == Neutral)
      && (At(bs, "Total Stockholder Equity") != Some(0.0) ==> m.score == ScorePercentage(OfCell(m.value)))
      && (At(bs, "Total Stockholder Equity") != Some(0.0) ==>
            (m.value.Some? <==> At(inc, "Net Income").Some? && At(bs, "Total Stockholder Equity").Some?))
      && (m.value.Some? ==>
            && At(inc, "Net Income").Some? && At(bs, "Total Stockholder Equity").Some?
            && m.value.value * At(bs, "Total Stockholder Equity").value == At(inc, "Net Income").value)
  {
    if Reachable(inc, "Net Income") && Reachable(bs, "Total Stockholder Equity") then
      var equity := At(bs, "Total Stockholder Equity");
      if equity == Some(0.0) then Metric(None, ScorePercentage(Nothing))
      else
        var roe := OfCell(Quotient(At(inc, "Net Income"), equity));
        Metric(CellOf(roe), ScorePercentage(roe))
    else Neutral
  }

  /** Latest total assets minus latest current liabilities. */
  function CurrentInvestedCapital(bs: Option<Table>): Cell
    requires Shaped(bs) && Reachable(bs, "Total Assets") && Reachable(bs, "Total Current Liabilities")
  {
    Minus(At(bs, "Total Assets"), At(bs, "Total Current Liabilities"))
  }

  /**
   * ROIC over assets minus current liabilities. The net income is the one
   * the ROE step read: when that step failed before binding it, the division
   * raises and the metric falls back to neutral.
   */
  function DraftRoic(bs: Option<Table>, inc: Option<Table>): (m: Metric)
    requires Shaped(bs) && Shaped(inc)
    ensures 0.0 <= m.score <= 10.0
    ensures !(Reachable(bs, "Total Assets") && Reachable(bs, "Total Current Liabilities")) ==> m == Neutral
    ensures Reachable(bs, "Total Assets") && Reachable(bs, "Total Current Liabilities") ==>
      && (CurrentInvestedCapital(bs) == Some(0.0) || !Reachable(inc, "Net Income") ==> m == Neutral)
      && (CurrentInvestedCapital(bs) != Some(0.0) && Reachable(inc, "Net Income") ==>
            m.score == ScorePercentage(OfCell(m.value)))
      && (CurrentInvestedCapital(bs) != Some(0.0) && Reachable(inc, "Net Income") ==>
            (m.value.Some? <==> At(inc, "Net Income").Some? && CurrentInvestedCapital(bs).Some?))
      && (m.value.Some? ==>
            && Reachable(inc, "Net Income") && At(inc, "Net Income").Some? && CurrentInvestedCapital(bs).Some?
            && m.value.value * CurrentInvestedCapital(bs).value == At(inc, "Net Income").value)
  {
    if Reachable(bs, "Total Assets") && Reachable(bs, "Total Current Liabilities") then
      var invested := CurrentInvestedCapital(bs);
      if invested == Some(0.0) then Metric(None, ScorePercentage(Nothing))
      else if !Reachable(inc, "Net Income") then Neutral
      else
        var roic := OfCell(Quotient(At(inc, "Net Income"), invested));
        Metric(CellOf(roic), ScorePercentage(roic))
    else Neutral
  }

  /** Debt-to-equity, latest "Total Liabilities" over latest equity; a zero equity gives `None`. */
  function DraftDebtToEquity(bs: Option<Table>): (m: Metric)
    requires Shaped(bs)
    ensures 0.0 <= m.score <= 10.0
    ensures !(Reachable(bs, "Total Liabilities") && Reachable(bs, "Total Stockholder Equity")) ==> m == Neutral
    ensures Reachable(bs, "Total Liabilities") && Reachable(bs, "Total Stockholder Equity") ==>
      && (At(bs, "Total Stockholder Equity") == Some(0.0) ==> m == Neutral)
      && (At(bs, "Total Stockholder Equity") != Some(0.0) ==> m.score == ScoreInverse(OfCell(m.value)))
      && (At(bs, "Total Stockholder Equity") != Some(0.0) ==>
            (m.value.Some? <==> At(bs, "Total Liabilities").Some? && At(bs, "Total Stockholder Equity").Some?))
      && (m.value.Some? ==>
            && At(bs, "Total Liabilities").Some? && At(bs, "Total Stockholder Equity").Some?
            && m.value.value * At(bs, "Total Stockholder Equity").value == At(bs, "Total Liabilities").value)
  {
    if Reachable(bs, "Total Liabilities") && Reachable(bs, "Total Stockholder Equity") then
      var equity := At(bs, "Total Stockholder Equity");
      if equity == Some(0.0) then Metric(None, ScoreInverse(Nothing))
      else
        var ratio := OfCell(Quotient(At(bs, "Total Liabilities"), equity));
        Metric(CellOf(ratio), ScoreInverse(ratio))
    else Neutral
  }

  /** EPS growth needs both columns and at least five rows (`iloc[-5]`). */
  predicate EpsHistory(inc: Option<Table>) {
    inc.Some? && "Net Income" in inc.value.cols && "Basic Average Shares" in inc.value.cols && inc.value.height >= 5
  }

  /** Earnings per share at `row`: net income over basic average shares. */
  function Eps(inc: Table, row: nat): Cell
    requires inc.Valid() && "Net Income" in inc.cols && "Basic Average Shares" in inc.cols && row < inc.height
  {
    Quotient(inc.cols["Net Income"].cells[row], inc.cols["Basic Average Shares"].cells[row])
  }

  /** EPS growth from four periods before the latest to the latest, relative to |old EPS|. */
  function DraftEpsGrowth(inc: Option<Table>): (m: Metric)
    requires Shaped(inc)
    ensures 0.0 <= m.score <= 10.0
    ensures !EpsHistory(inc) ==> m == Neutral
    ensures EpsHistory(inc) ==> m.score == ScoreGrowth(OfCell(m.value))
    ensures EpsHistory(inc) ==>
      var latest := Eps(inc.value, inc.value.height - 1);
      var earlier := Eps(inc.value, inc.value.height - 5);
      (m.value.Some? <==> latest.Some? && earlier.Some? && earlier.value != 0.0)
    ensures EpsHistory(inc) && m.value.Some? ==>
      var latest := Eps(inc.value, inc.value.height - 1);
      var earlier := Eps(inc.value, inc.value.height - 5);
      && latest.Some? && earlier.Some? && earlier.value != 0.0
      && m.value.value * AbsValue(earlier.value) == latest.value - earlier.value
      && (m.value.value > 0.0 <==> latest.value > earlier.value)
  {
    if EpsHistory(inc) then
      var latest := Eps(inc.value, inc.value.height - 1);
      var earlier := Eps(inc.value, inc.value.height - 5);
      var growth := Quotient(Minus(latest, earlier), Magnitude(earlier));
      if growth.Some? then
        GrowthSign(growth.value, latest.value - earlier.value, AbsValue(earlier.value));
        Metric(growth, ScoreGrowth(Num(growth.value)))
      else Metric(None, ScoreGrowth(NaN))
    else Neutral
  }

  /** A quotient by a positive number has the sign of its numerator. */
  lemma {:induction false} GrowthSign(q: real, diff: real, d: real)
    requires d > 0.0 && q * d == diff
    ensures q > 0.0 <==> diff > 0.0
  {
    if q > 0.0 {
      assert q * d > 0.0;
    } else {
      assert q * d <= 0.0;
    }
  }

  /** Free cash flow to the firm: the latest free cash flow. */
  function DraftFcff(cf: Option<Table>): (m: Metric)
    requires Shaped(cf)
    ensures 0.0 <= m.score <= 10.0
    ensures !Reachable(cf, "Free Cash Flow") ==> m == Neutral
    ensures Reachable(cf, "Free Cash Flow") ==>
      m.value == At(cf, "Free Cash Flow") && m.score == ScorePositive(OfCell(m.value))
  {
    if Reachable(cf, "Free Cash Flow") then
      var fcff := OfCell(At(cf, "Free Cash Flow"));
      Metric(CellOf(fcff), ScorePositive(fcff))
    else Neutral
  }

  /** A margin, latest `num` over latest total revenue. */
  function DraftMargin(inc: Option<Table>, num: string): (m: Metric)
    requires Shaped(inc)
    ensures 0.0 <= m.score <= 10.0
    ensures !(Reachable(inc, num) && Reachable(inc, "Total Revenue")) ==> m == Neutral
    ensures Reachable(inc, num) && Reachable(inc, "Total Revenue") ==>
      && m.score == ScorePercentage(OfCell(m.value))
      && (m.value.Some? <==>
            At(inc, num).Some? && At(inc, "Total Revenue").Some? && At(inc, "Total Revenue").value != 0.0)
      && (m.value.Some? ==>
            && At(inc, num).Some? && At(inc, "Total Revenue").Some?
            && m.value.value * At(inc, "Total Revenue").value == At(inc, num).value)
  {
    if Reachable(inc, num) && Reachable(inc, "Total Revenue") then
      var margin := OfCell(Quotient(At(inc, num), At(inc, "Total Revenue")));
      Metric(CellOf(margin), ScorePercentage(margin))
    else Neutral
  }

  /** The eight draft metrics in breakdown order. */
  function DraftMetrics(bs: Option<Table>, inc: Option<Table>, cf: Option<Table>): (b: seq<(string, Metric)>)
    requires Shaped(bs) && Shaped(inc) && Shaped(cf)
    ensures Labels(b) == BuffettLabels
  {
    [("Owner Earnings", DraftOwnerEarnings(cf)), ("ROE", DraftRoe(bs, inc)),
     ("ROIC", DraftRoic(bs, inc)), ("Debt-to-Equity", DraftDebtToEquity(bs)),
     ("EPS Growth", DraftEpsGrowth(inc)), ("FCFF", DraftFcff(cf)),
     ("Gross Margin", DraftMargin(inc, "Gross Profit")),
     ("Net Margin", DraftMargin(inc, "Net Income"))]
  }

  /** Eight successive appends to an empty breakdown give the eight entries in that order. */
  lemma {:induction false} InsertionOrder(m0: Metric, m1: Metric, m2: Metric, m3: Metric, m4: Metric, m5: Metric, m6: Metric, m7: Metric)
    ensures [] + [("Owner Earnings", m0)] + [("ROE", m1)] + [("ROIC", m2)] + [("Debt-to-Equity", m3)]
            + [("EPS Growth", m4)] + [("FCFF", m5)] + [("Gross Margin", m6)] + [("Net Margin", m7)]
            == [("Owner Earnings", m0), ("ROE", m1), ("ROIC", m2), ("Debt-to-Equity", m3),
                ("EPS Growth", m4), ("FCFF", m5), ("Gross Margin", m6), ("Net Margin", m7)]
  {
  }

  /**
   * The draft's mean lies in [0, 10], every score being in [0, 10]; with
   * no statement at all every metric is neutral and the mean is 3.
   */
  lemma {:induction false} DraftMean(bs: Option<Table>, inc: Option<Table>, cf: Option<Table>)
    requires Shaped(bs) && Shaped(inc) && Shaped(cf)
    ensures 0.0 <= Sum(MetricScores(DraftMetrics(bs, inc, cf))) / 8.0 <= 10.0
    ensures bs.None? && inc.None? && cf.None? ==> Sum(MetricScores(DraftMetrics(bs, inc, cf))) / 8.0 == 3.0
  {
    var scores := MetricScores(DraftMetrics(bs, inc, cf));
    SumOfEight(scores);
  }

  /**
   * `score_buffett`: each metric in its own guarded step, appended in
   * order, then the mean of the eight scores (none is ever `None`, so the
   * filter keeps them all).
   */
  method ScoreBuffett(bs: Option<Table>, inc: Option<Table>, cf: Option<Table>)
    returns (overall: real, breakdown: seq<(string, Metric)>)
    requires Shaped(bs) && Shaped(inc) && Shaped(cf)
    ensures Labels(breakdown) == BuffettLabels
    ensures breakdown[0].1 == DraftOwnerEarnings(cf)
    ensures breakdown[1].1 == DraftRoe(bs, inc)
    ensures breakdown[2].1 == DraftRoic(bs, inc)
    ensures breakdown[3].1 == DraftDebtToEquity(bs)
    ensures breakdown[4].1 == DraftEpsGrowth(inc)
    ensures breakdown[5].1 == DraftFcff(cf)
    ensures breakdown[6].1 == DraftMargin(inc, "Gross Profit")
    ensures breakdown[7].1 == DraftMargin(inc, "Net Income")
    ensures overall * 8.0 == Sum(MetricScores(breakdown))
    ensures 0.0 <= overall <= 10.0
    ensures bs.None? && inc.None? && cf.None? ==> overall == 3.0
  {
    var ownerEarnings, roe, roic, debtToEquity := DraftOwnerEarnings(cf), DraftRoe(bs, inc), DraftRoic(bs, inc), DraftDebtToEquity(bs);
    var epsGrowth, fcff, grossMargin, netMargin := DraftEpsGrowth(inc), DraftFcff(cf), DraftMargin(inc, "Gross Profit"), DraftMargin(inc, "Net Income");
    breakdown := [];
    breakdown := breakdown + [("Owner Earnings", ownerEarnings)];
    breakdown := breakdown + [("ROE", roe)];
    breakdown := breakdown + [("ROIC", roic)];
    breakdown := breakdown + [("Debt-to-Equity", debtToEquity)];
    breakdown := breakdown + [("EPS Growth", epsGrowth)];
    breakdown := breakdown + [("FCFF", fcff)];
    breakdown := breakdown + [("Gross Margin", grossMargin)];
    breakdown := breakdown + [("Net Margin", netMargin)];
    InsertionOrder(ownerEarnings, roe, roic, debtToEquity, epsGrowth, fcff, grossMargin, netMargin);
    assert breakdown == DraftMetrics(bs, inc, cf);
    overall := Sum(MetricScores(breakdown)) / 8.0;
    DraftMean(bs, inc, cf);
  }
}
