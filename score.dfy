/**
 * The Financial Health model: sixteen metrics in three categories (balance
 * sheet, income statement, cash flow), step-tier scorers, a null-tolerant
 * mean per category, and an overall score that is the mean of the three
 * category scores. Eight of the sixteen metrics are fixed `{None, 3}`
 * placeholders.
 */
module HealthScore {
  import opened Wrappers
  import opened Statements

  // ---------------------------------------------------------------------
  // Step-tier scorers. Each gives 3.0 for a missing value.
  // ---------------------------------------------------------------------

  /** Current ratio: >= 2 -> 10, >= 1.5 -> 7, else 3 (inclusive bounds). */
  function ScoreLiquidity(v: Option<real>): (r: real)
    ensures v.None? ==> r == 3.0
    ensures v.Some? ==> (r == 10.0 <==> v.value >= 2.0)
    ensures v.Some? ==> (r == 7.0 <==> 1.5 <= v.value < 2.0)
  {
    if v.None? then 3.0
    else if v.value >= 2.0 then 10.0
    else if v.value >= 1.5 then 7.0
    else 3.0
  }

  /** Debt to equity, lower is better: < 0.5 -> 10, < 1 -> 7, < 2 -> 5, else 3 (strict bounds). */
  function ScoreLeverage(v: Option<real>): (r: real)
    ensures v.None? ==> r == 3.0
    ensures v.Some? ==> (r == 10.0 <==> v.value < 0.5)
    ensures v.Some? ==> (r == 7.0 <==> 0.5 <= v.value < 1.0)
    ensures v.Some? ==> (r == 5.0 <==> 1.0 <= v.value < 2.0)
  {
    if v.None? then 3.0
    else if v.value < 0.5 then 10.0
    else if v.value < 1.0 then 7.0
    else if v.value < 2.0 then 5.0
    else 3.0
  }

  /**
   * The shape shared by the cash-safety, growth and margin scorers:
   * > hi -> 10, > lo -> 7, else 3 (strict, so a value at a threshold gets the lower tier).
   */
  function StrictTiers(v: Option<real>, lo: real, hi: real): (r: real)
    requires lo < hi
    ensures v.None? ==> r == 3.0
    ensures v.Some? ==> (r == 10.0 <==> v.value > hi)
    ensures v.Some? ==> (r == 7.0 <==> lo < v.value <= hi)
    ensures v.Some? ==> (r == 3.0 <==> v.value <= lo)
  {
    if v.None? then 3.0
    else if v.value > hi then 10.0
    else if v.value > lo then 7.0
    else 3.0
  }

  /** Cash to assets: > 0.1 -> 10, > 0.05 -> 7, else 3. */
  function ScoreCashSafety(v: Option<real>): real {
    StrictTiers(v, 0.05, 0.1)
  }

  /** Revenue growth in percent: > 10 -> 10, > 5 -> 7, else 3. */
  function ScoreRevenueGrowth(v: Option<real>): real {
    StrictTiers(v, 5.0, 10.0)
  }

  /** Gross margin: > 0.4 -> 10, > 0.2 -> 7, else 3. */
  function ScoreGrossMargin(v: Option<real>): real {
    StrictTiers(v, 0.2, 0.4)
  }

  /** Net margin: > 0.2 -> 10, > 0.1 -> 7, else 3. */
  function ScoreNetMargin(v: Option<real>): real {
    StrictTiers(v, 0.1, 0.2)
  }

  /** Net income growth in percent: > 10 -> 10, > 5 -> 7, else 3. */
  function ScoreNetIncomeGrowth(v: Option<real>): real {
    StrictTiers(v, 5.0, 10.0)
  }

  /** Free cash flow: > 0 -> 10, else 3. */
  function ScorePositiveFcf(v: Option<real>): (r: real)
    ensures v.None? ==> r == 3.0
    ensures v.Some? ==> (r == 10.0 <==> v.value > 0.0)
    ensures r == 3.0 || r == 10.0
  {
    if v.None? then 3.0
    else if v.value > 0.0 then 10.0
    else 3.0
  }

  /** Every tier scorer gives a score in {3, 7, 10}; leverage in {3, 5, 7, 10}. */
  lemma {:induction false} TierValues(v: Option<real>)
    ensures ScoreLiquidity(v) in {3.0, 7.0, 10.0}
    ensures ScoreLeverage(v) in {3.0, 5.0, 7.0, 10.0}
    ensures ScoreCashSafety(v) in {3.0, 7.0, 10.0}
    ensures ScoreRevenueGrowth(v) in {3.0, 7.0, 10.0}
    ensures ScoreGrossMargin(v) in {3.0, 7.0, 10.0}
    ensures ScoreNetMargin(v) in {3.0, 7.0, 10.0}
    ensures ScoreNetIncomeGrowth(v) in {3.0, 7.0, 10.0}
    ensures ScorePositiveFcf(v) in {3.0, 10.0}
  {
  }

  /** The tie-break at each threshold, exactly as the comparisons are written. */
  lemma {:induction false} TierBoundaries()
    ensures ScoreLiquidity(Some(2.0)) == 10.0 && ScoreLiquidity(Some(1.5)) == 7.0
    ensures ScoreLeverage(Some(0.5)) == 7.0 && ScoreLeverage(Some(1.0)) == 5.0
    ensures ScoreLeverage(Some(2.0)) == 3.0
    ensures ScoreCashSafety(Some(0.1)) == 7.0 && ScoreCashSafety(Some(0.05)) == 3.0
    ensures ScoreRevenueGrowth(Some(10.0)) == 7.0 && ScoreRevenueGrowth(Some(5.0)) == 3.0
    ensures ScoreGrossMargin(Some(0.4)) == 7.0 && ScoreNetMargin(Some(0.2)) == 7.0
    ensures ScorePositiveFcf(Some(0.0)) == 3.0
  {
  }

  /** Liquidity, cash safety, growth, margin and FCF scorers never decrease as the value grows; leverage never increases. */
  lemma {:induction false} TiersMonotone(a: real, b: real)
    requires a <= b
    ensures ScoreLiquidity(Some(a)) <= ScoreLiquidity(Some(b))
    ensures ScoreLeverage(Some(a)) >= ScoreLeverage(Some(b))
    ensures ScoreCashSafety(Some(a)) <= ScoreCashSafety(Some(b))
    ensures ScoreRevenueGrowth(Some(a)) <= ScoreRevenueGrowth(Some(b))
    ensures ScoreGrossMargin(Some(a)) <= ScoreGrossMargin(Some(b))
    ensures ScoreNetMargin(Some(a)) <= ScoreNetMargin(Some(b))
    ensures ScoreNetIncomeGrowth(Some(a)) <= ScoreNetIncomeGrowth(Some(b))
    ensures ScorePositiveFcf(Some(a)) <= ScorePositiveFcf(Some(b))
  {
  }

  // ---------------------------------------------------------------------
  // Period-over-period change and the null-tolerant mean
  // ---------------------------------------------------------------------

  /**
   * Lag-1 percentage change of a column against the absolute previous value:
   * None for fewer than two periods, for an undefined operand, or for a
   * previous value of zero.
   */
  function PctChange(series: seq<Cell>): (r: Option<real>)
    ensures |series| < 2 ==> r.None?
    ensures r.Some? <==>
      |series| >= 2 && series[|series| - 1].Some? && series[|series| - 2].Some? && series[|series| - 2].value != 0.0
    ensures r.Some? ==> (r.value > 0.0 <==> series[|series| - 1].value > series[|series| - 2].value)
    ensures r.Some? ==> r.value * AbsValue(series[|series| - 2].value)
                        == (series[|series| - 1].value - series[|series| - 2].value) * 100.0
  {
    if |series| < 2 then None
    else
      var last, prev := series[|series| - 1], series[|series| - 2];
      if last.Some? && prev.Some? && prev.value != 0.0 then
        Some((last.value - prev.value) / AbsValue(prev.value) * 100.0)
      else None
  }

  /** The scores that are not None, in order. */
  function Present(scores: seq<Option<real>>): (r: seq<real>)
    ensures |r| <= |scores|
  {
    if scores == [] then []
    else if scores[0].Some? then [scores[0].value] + Present(scores[1..])
    else Present(scores[1..])
  }

  /** Mean of the scores that are not None; 3.0 when there are none. */
  function AverageScores(scores: seq<Option<real>>): (r: real)
    ensures Present(scores) == [] ==> r == 3.0
  {
    var present := Present(scores);
    if present == [] then 3.0 else Sum(present) / (|present| as real)
  }

  /** The `score` fields of an ordered breakdown, as `average_scores` collects them. */
  function ScoresOf(entries: seq<(string, Metric)>): (r: seq<Option<real>>)
    ensures |r| == |entries|
    ensures forall i :: 0 <= i < |entries| ==> r[i] == Some(entries[i].1.score)
  {
    if entries == [] then [] else [Some(entries[0].1.score)] + ScoresOf(entries[1..])
  }

  /** A sum of values within [lo, hi] lies within [n * lo, n * hi]. */
  lemma {:induction false} SumBounds(xs: seq<real>, lo: real, hi: real)
    requires forall i :: 0 <= i < |xs| ==> lo <= xs[i] <= hi
    ensures (|xs| as real) * lo <= Sum(xs) <= (|xs| as real) * hi
  {
    if xs != [] {
      SumBounds(xs[1..], lo, hi);
    }
  }

  /** Bounds on the scores that are not None carry over to `Present(scores)`. */
  lemma {:induction false} PresentWithin(scores: seq<Option<real>>, lo: real, hi: real)
    requires forall i :: 0 <= i < |scores| && scores[i].Some? ==> lo <= scores[i].value <= hi
    ensures forall k :: 0 <= k < |Present(scores)| ==> lo <= Present(scores)[k] <= hi
  {
    if scores != [] {
      PresentWithin(scores[1..], lo, hi);
    }
  }

  /** The mean lies between any bounds of the included scores; with none included it is 3. */
  lemma {:induction false} AverageWithin(scores: seq<Option<real>>, lo: real, hi: real)
    requires forall i :: 0 <= i < |scores| && scores[i].Some? ==> lo <= scores[i].value <= hi
    requires Present(scores) != [] || lo <= 3.0 <= hi
    ensures lo <= AverageScores(scores) <= hi
  {
    var present := Present(scores);
    if present != [] {
      PresentWithin(scores, lo, hi);
      MeanWithin(present, lo, hi);
    }
  }

  lemma {:induction false} MeanWithin(xs: seq<real>, lo: real, hi: real)
    requires xs != []
    requires forall k :: 0 <= k < |xs| ==> lo <= xs[k] <= hi
    ensures lo <= Sum(xs) / (|xs| as real) <= hi
  {
    SumBounds(xs, lo, hi);
    QuotientWithin(Sum(xs), |xs| as real, lo, hi);
  }

  lemma {:induction false} QuotientWithin(s: real, n: real, lo: real, hi: real)
    requires n > 0.0 && n * lo <= s <= n * hi
    ensures lo <= s / n <= hi
  {
    assert s == (s / n) * n;
  }

  /** With every score present, the mean is the plain arithmetic mean. */
  lemma {:induction false} PresentAll(entries: seq<(string, Metric)>)
    ensures |Present(ScoresOf(entries))| == |entries|
    ensures forall i :: 0 <= i < |entries| ==> Present(ScoresOf(entries))[i] == entries[i].1.score
  {
    if entries != [] {
      PresentAll(entries[1..]);
      assert ScoresOf(entries)[1..] == ScoresOf(entries[1..]);
    }
  }

  /** A single included score of 8 averages to 8; no included score averages to 3. */
  lemma {:induction false} AverageExamples()
    ensures AverageScores([Some(8.0)]) == 8.0
    ensures AverageScores([None, None]) == 3.0
    ensures AverageScores([]) == 3.0
  {
    assert Present([Some(8.0)]) == [8.0] by {
      assert [Some(8.0)][1..] == [];
    }
    var none: Option<real> := None;
    assert Present([none, none]) == [] by {
      assert [none, none][1..] == [none];
      assert [none][1..] == [];
    }
  }

  // ---------------------------------------------------------------------
  // The sixteen metrics
  // ---------------------------------------------------------------------

  /** A metric read from the latest cell of one column, or `{None, 3}` when the table or column is absent. */
  function LatestMetric(t: Option<Table>, c: string, score: Option<real> -> real): (m: Metric)
    requires Ready(t)
    ensures LatestOf(t, c).None? ==> m == Neutral
    ensures LatestOf(t, c).Some? ==> m == Metric(t.value.Latest(c), score(t.value.Latest(c)))
  {
    if t.Some? && c in t.value.cols then
      var v := t.value.Latest(c);
      Metric(v, score(v))
    else Neutral
  }

  function Liquidity(bs: Option<Table>): Metric
    requires Ready(bs)
  {
    LatestMetric(bs, "Current_Ratio", ScoreLiquidity)
  }

  function Leverage(bs: Option<Table>): Metric
    requires Ready(bs)
  {
    LatestMetric(bs, "Debt_to_Equity", ScoreLeverage)
  }

  function CashSafety(bs: Option<Table>): Metric
    requires Ready(bs)
  {
    LatestMetric(bs, "Cash_to_Assets", ScoreCashSafety)
  }

  /** Lag-1 growth of a column, or `{None, 3}` when the table or column is absent. */
  function GrowthMetric(t: Option<Table>, c: string, score: Option<real> -> real): (m: Metric)
    requires Ready(t)
    ensures !(t.Some? && c in t.value.cols) ==> m == Neutral
    ensures t.Some? && c in t.value.cols ==>
      m.value == PctChange(t.value.cols[c].cells) && m.score == score(m.value)
  {
    if t.Some? && c in t.value.cols then
      var v := PctChange(t.value.cols[c].cells);
      Metric(v, score(v))
    else Neutral
  }

  function RevenueGrowth(inc: Option<Table>): Metric
    requires Ready(inc)
  {
    GrowthMetric(inc, "Total Revenue", ScoreRevenueGrowth)
  }

  function NetIncomeGrowth(inc: Option<Table>): Metric
    requires Ready(inc)
  {
    GrowthMetric(inc, "Net Income", ScoreNetIncomeGrowth)
  }

  /** Latest `num / Total Revenue`, or `{None, 3}` unless both columns exist. A zero revenue gives a None value. */
  function MarginMetric(inc: Option<Table>, num: string, score: Option<real> -> real): (m: Metric)
    requires Ready(inc)
    ensures !(inc.Some? && num in inc.value.cols && "Total Revenue" in inc.value.cols) ==> m == Neutral
    ensures inc.Some? && num in inc.value.cols && "Total Revenue" in inc.value.cols ==>
      m.value == Quotient(inc.value.Latest(num), inc.value.Latest("Total Revenue")) && m.score == score(m.value)
  {
    if inc.Some? && num in inc.value.cols && "Total Revenue" in inc.value.cols then
      var v := Quotient(inc.value.Latest(num), inc.value.Latest("Total Revenue"));
      Metric(v, score(v))
    else Neutral
  }

  function GrossMargin(inc: Option<Table>): Metric
    requires Ready(inc)
  {
    MarginMetric(inc, "Gross Profit", ScoreGrossMargin)
  }

  function NetMargin(inc: Option<Table>): Metric
    requires Ready(inc)
  {
    MarginMetric(inc, "Net Income", ScoreNetMargin)
  }

  function FcfPositivity(cf: Option<Table>): Metric
    requires Ready(cf)
  {
    LatestMetric(cf, "Free Cash Flow", ScorePositiveFcf)
  }

  /** The three computed balance-sheet metrics score between 3 and 10, and exactly 3 without a table. */
  lemma {:induction false} BalanceSheetMetricsWithin(bs: Option<Table>)
    requires Ready(bs)
    ensures 3.0 <= Liquidity(bs).score <= 10.0 && 3.0 <= Leverage(bs).score <= 10.0
    ensures 3.0 <= CashSafety(bs).score <= 10.0
    ensures bs.None? ==> Liquidity(bs) == Leverage(bs) == CashSafety(bs) == Neutral
  {
    if bs.Some? {
      TierValues(Flat(LatestOf(bs, "Current_Ratio")));
      TierValues(Flat(LatestOf(bs, "Debt_to_Equity")));
      TierValues(Flat(LatestOf(bs, "Cash_to_Assets")));
    }
  }

  /** The four computed income-statement metrics score between 3 and 10, and exactly 3 without a table. */
  lemma {:induction false} IncomeMetricsWithin(inc: Option<Table>)
    requires Ready(inc)
    ensures 3.0 <= RevenueGrowth(inc).score <= 10.0 && 3.0 <= NetIncomeGrowth(inc).score <= 10.0
    ensures 3.0 <= GrossMargin(inc).score <= 10.0 && 3.0 <= NetMargin(inc).score <= 10.0
    ensures inc.None? ==> RevenueGrowth(inc) == NetIncomeGrowth(inc) == GrossMargin(inc) == NetMargin(inc) == Neutral
  {
    if inc.Some? {
      if "Total Revenue" in inc.value.cols {
        TierValues(PctChange(inc.value.cols["Total Revenue"].cells));
        TierValues(Quotient(Flat(LatestOf(inc, "Gross Profit")), inc.value.Latest("Total Revenue")));
        TierValues(Quotient(Flat(LatestOf(inc, "Net Income")), inc.value.Latest("Total Revenue")));
      }
      if "Net Income" in inc.value.cols {
        TierValues(PctChange(inc.value.cols["Net Income"].cells));
      }
    }
  }

  /** The computed cash-flow metric scores between 3 and 10, and exactly 3 without a table. */
  lemma {:induction false} CashFlowMetricsWithin(cf: Option<Table>)
    requires Ready(cf)
    ensures 3.0 <= FcfPositivity(cf).score <= 10.0
    ensures cf.None? ==> FcfPositivity(cf) == Neutral
  {
    if cf.Some? {
      TierValues(Flat(LatestOf(cf, "Free Cash Flow")));
    }
  }


  // ---------------------------------------------------------------------
  // The model
  // ---------------------------------------------------------------------

  /** The breakdown: three category scores, then the three ordered metric dictionaries. */
  datatype HealthBreakdown = HealthBreakdown(
    balanceSheetScore: real,
    incomeStatementScore: real,
    cashFlowScore: real,
    balanceSheet: seq<(string, Metric)>,
    incomeStatement: seq<(string, Metric)>,
    cashFlow: seq<(string, Metric)>)

  const BalanceSheetLabels: seq<string> :=
    ["Liquidity", "Leverage", "Asset Quality", "Cash Safety", "Retained Earnings Growth", "Equity Strength"]
  const IncomeStatementLabels: seq<string> :=
    ["Revenue Growth", "Gross Margin", "Net Margin", "Net Income Growth", "Earnings Quality"]
  const CashFlowLabels: seq<string> :=
    ["FCF Positivity", "FCF Growth", "FCF to Revenue", "OpCF Positivity", "CapEx Discipline"]

  /**
   * Scores a company from its three (possibly absent) statement tables.
   * Every metric label is always present; an absent table or column only
   * turns its own metrics into `{None, 3}`.
   */
  method ScoreFullCompany(bs: Option<Table>, inc: Option<Table>, cf: Option<Table>)
    returns (overall: real, breakdown: HealthBreakdown)
    requires Ready(bs) && Ready(inc) && Ready(cf)
    ensures Labels(breakdown.balanceSheet) == BalanceSheetLabels
    ensures Labels(breakdown.incomeStatement) == IncomeStatementLabels
    ensures Labels(breakdown.cashFlow) == CashFlowLabels
    ensures breakdown.balanceSheet[0].1 == Liquidity(bs) && breakdown.balanceSheet[1].1 == Leverage(bs)
    ensures breakdown.balanceSheet[3].1 == CashSafety(bs)
    ensures breakdown.incomeStatement[0].1 == RevenueGrowth(inc) && breakdown.incomeStatement[1].1 == GrossMargin(inc)
    ensures breakdown.incomeStatement[2].1 == NetMargin(inc) && breakdown.incomeStatement[3].1 == NetIncomeGrowth(inc)
    ensures breakdown.cashFlow[0].1 == FcfPositivity(cf)
    ensures forall k :: k in {2, 4, 5} ==> breakdown.balanceSheet[k].1 == Neutral
    ensures breakdown.incomeStatement[4].1 == Neutral
    ensures forall k :: k in {1, 2, 3, 4} ==> breakdown.cashFlow[k].1 == Neutral
    ensures breakdown.balanceSheetScore == AverageScores(ScoresOf(breakdown.balanceSheet))
    ensures breakdown.incomeStatementScore == AverageScores(ScoresOf(breakdown.incomeStatement))
    ensures breakdown.cashFlowScore == AverageScores(ScoresOf(breakdown.cashFlow))
    ensures overall * 3.0 == breakdown.balanceSheetScore + breakdown.incomeStatementScore + breakdown.cashFlowScore
    ensures 3.0 <= overall <= 6.5
    ensures bs.None? && inc.None? && cf.None? ==> overall == 3.0
  {
    var balanceSheetMetrics, balanceSheetScore := ScoreBalanceSheet(bs);
    var incomeStatementMetrics, incomeStatementScore := ScoreIncomeStatement(inc);
    var cashFlowMetrics, cashFlowScore := ScoreCashFlow(cf);
    overall := (balanceSheetScore + incomeStatementScore + cashFlowScore) / 3.0;
    breakdown := HealthBreakdown(balanceSheetScore, incomeStatementScore, cashFlowScore,
                                 balanceSheetMetrics, incomeStatementMetrics, cashFlowMetrics);
  }

  /** The balance-sheet category: six metrics, three of them fixed at neutral, and their mean in [3, 6.5]. */
  method ScoreBalanceSheet(bs: Option<Table>) returns (metrics: seq<(string, Metric)>, mean: real)
    requires Ready(bs)
    ensures Labels(metrics) == BalanceSheetLabels
    ensures metrics[0].1 == Liquidity(bs) && metrics[1].1 == Leverage(bs) && metrics[3].1 == CashSafety(bs)
    ensures metrics[2].1 == metrics[4].1 == metrics[5].1 == Neutral
    ensures mean == AverageScores(ScoresOf(metrics))
    ensures 3.0 <= mean <= 6.5
    ensures bs.None? ==> mean == 3.0
  {
    metrics := [("Liquidity", Liquidity(bs)), ("Leverage", Leverage(bs)), ("Asset Quality", Neutral),
                ("Cash Safety", CashSafety(bs)), ("Retained Earnings Growth", Neutral),
                ("Equity Strength", Neutral)];
    mean := AverageScores(ScoresOf(metrics));
    BalanceSheetWithinMean(bs, metrics);
  }

  /** The balance-sheet metrics as the category lists them have a mean in [3, 6.5], and 3 without a sheet. */
  lemma {:induction false} BalanceSheetWithinMean(bs: Option<Table>, metrics: seq<(string, Metric)>)
    requires Ready(bs)
    requires metrics == [("Liquidity", Liquidity(bs)), ("Leverage", Leverage(bs)), ("Asset Quality", Neutral),
                         ("Cash Safety", CashSafety(bs)), ("Retained Earnings Growth", Neutral),
                         ("Equity Strength", Neutral)]
    ensures Labels(metrics) == BalanceSheetLabels
    ensures 3.0 <= AverageScores(ScoresOf(metrics)) <= 6.5
    ensures bs.None? ==> AverageScores(ScoresOf(metrics)) == 3.0
  {
    assert Labels(metrics) == BalanceSheetLabels;
    BalanceSheetMetricsWithin(bs);
    BalanceSheetMean(metrics);
  }

  /** The income-statement category: five metrics, one fixed at neutral, and their mean in [3, 8.6]. */
  method ScoreIncomeStatement(inc: Option<Table>) returns (metrics: seq<(string, Metric)>, mean: real)
    requires Ready(inc)
    ensures Labels(metrics) == IncomeStatementLabels
    ensures metrics[0].1 == RevenueGrowth(inc) && metrics[1].1 == GrossMargin(inc)
    ensures metrics[2].1 == NetMargin(inc) && metrics[3].1 == NetIncomeGrowth(inc)
    ensures metrics[4].1 == Neutral
    ensures mean == AverageScores(ScoresOf(metrics))
    ensures 3.0 <= mean <= 8.6
    ensures inc.None? ==> mean == 3.0
  {
    metrics := [("Revenue Growth", RevenueGrowth(inc)), ("Gross Margin", GrossMargin(inc)),
                ("Net Margin", NetMargin(inc)), ("Net Income Growth", NetIncomeGrowth(inc)),
                ("Earnings Quality", Neutral)];
    mean := AverageScores(ScoresOf(metrics));
    IncomeStatementMean(inc, metrics);
  }

  /** The income-statement mean: four computed scores in [3, 10] and one at 3 give a mean in [3, 8.6]. */
  lemma {:induction false} IncomeStatementMean(inc: Option<Table>, metrics: seq<(string, Metric)>)
    requires Ready(inc)
    requires metrics == [("Revenue Growth", RevenueGrowth(inc)), ("Gross Margin", GrossMargin(inc)),
                         ("Net Margin", NetMargin(inc)), ("Net Income Growth", NetIncomeGrowth(inc)),
                         ("Earnings Quality", Neutral)]
    ensures Labels(metrics) == IncomeStatementLabels
    ensures 3.0 <= AverageScores(ScoresOf(metrics)) <= 8.6
    ensures inc.None? ==> AverageScores(ScoresOf(metrics)) == 3.0
  {
    assert Labels(metrics) == IncomeStatementLabels;
    IncomeMetricsWithin(inc);
    FiveScoreMean(metrics, 4);
  }

  /**
   * The balance-sheet mean: with the three computed scores in [3, 10] and
   * the three placeholders at 3, it lies in [3, 6.5], and it is 3 when the
   * computed scores are 3 too.
   */
  lemma {:induction false} BalanceSheetMean(metrics: seq<(string, Metric)>)
    requires |metrics| == 6
    requires forall k :: k in {0, 1, 3} ==> 3.0 <= metrics[k].1.score <= 10.0
    requires metrics[2].1.score == metrics[4].1.score == metrics[5].1.score == 3.0
    ensures 3.0 <= AverageScores(ScoresOf(metrics)) <= 6.5
    ensures metrics[0].1.score == metrics[1].1.score == metrics[3].1.score == 3.0 ==>
      AverageScores(ScoresOf(metrics)) == 3.0
  {
    MeanOfSix(metrics);
    assert 0 in {0, 1, 3} && 1 in {0, 1, 3} && 3 in {0, 1, 3};
    BoundedMean(AverageScores(ScoresOf(metrics)), 6.0,
                metrics[0].1.score + metrics[1].1.score + metrics[3].1.score + 9.0, 3.0, 6.5);
  }

  /**
   * A five-metric category whose first `computed` scores lie in [3, 10] and
   * whose other scores are 3: the mean lies between 3 and `(10 * computed +
   * 3 * (5 - computed)) / 5`, and is 3 when every score is 3.
   */
  lemma {:induction false} FiveScoreMean(metrics: seq<(string, Metric)>, computed: nat)
    requires |metrics| == 5 && computed <= 5
    requires forall k :: 0 <= k < computed ==> 3.0 <= metrics[k].1.score <= 10.0
    requires forall k :: computed <= k < 5 ==> metrics[k].1.score == 3.0
    ensures 3.0 <= AverageScores(ScoresOf(metrics))
    ensures AverageScores(ScoresOf(metrics)) * 5.0 <= 10.0 * computed as real + 3.0 * (5 - computed) as real
    ensures (forall k :: 0 <= k < 5 ==> metrics[k].1.score == 3.0) ==> AverageScores(ScoresOf(metrics)) == 3.0
  {
    MeanOfFive(metrics);
    var mean := AverageScores(ScoresOf(metrics));
    var total := metrics[0].1.score + metrics[1].1.score + metrics[2].1.score + metrics[3].1.score + metrics[4].1.score;
    assert 15.0 <= total <= 10.0 * computed as real + 3.0 * (5 - computed) as real;
    BoundedMean(mean, 5.0, total, 3.0, (10.0 * computed as real + 3.0 * (5 - computed) as real) / 5.0);
  }

  /** The cash-flow category: five metrics, four fixed at neutral, and their mean in [3, 4.4]. */
  method ScoreCashFlow(cf: Option<Table>) returns (metrics: seq<(string, Metric)>, mean: real)
    requires Ready(cf)
    ensures Labels(metrics) == CashFlowLabels
    ensures metrics[0].1 == FcfPositivity(cf)
    ensures metrics[1].1 == metrics[2].1 == metrics[3].1 == metrics[4].1 == Neutral
    ensures mean == AverageScores(ScoresOf(metrics))
    ensures 3.0 <= mean <= 4.4
    ensures cf.None? ==> mean == 3.0
  {
    metrics := [("FCF Positivity", FcfPositivity(cf)), ("FCF Growth", Neutral), ("FCF to Revenue", Neutral),
                ("OpCF Positivity", Neutral), ("CapEx Discipline", Neutral)];
    mean := AverageScores(ScoresOf(metrics));
    CashFlowMean(cf, metrics);
  }

  /** The cash-flow mean: one computed score in [3, 10] and four at 3 give a mean in [3, 4.4]. */
  lemma {:induction false} CashFlowMean(cf: Option<Table>, metrics: seq<(string, Metric)>)
    requires Ready(cf)
    requires metrics == [("FCF Positivity", FcfPositivity(cf)), ("FCF Growth", Neutral), ("FCF to Revenue", Neutral),
                         ("OpCF Positivity", Neutral), ("CapEx Discipline", Neutral)]
    ensures Labels(metrics) == CashFlowLabels
    ensures 3.0 <= AverageScores(ScoresOf(metrics)) <= 4.4
    ensures cf.None? ==> AverageScores(ScoresOf(metrics)) == 3.0
  {
    assert Labels(metrics) == CashFlowLabels;
    CashFlowMetricsWithin(cf);
    FiveScoreMean(metrics, 1);
  }

  /** A mean whose total lies between `count * lo` and `count * hi` lies between `lo` and `hi`. */
  lemma {:induction false} BoundedMean(mean: real, count: real, total: real, lo: real, hi: real)
    requires count > 0.0 && mean * count == total && count * lo <= total <= count * hi
    ensures lo <= mean <= hi
  {
    assert (mean - lo) * count == total - count * lo && (hi - mean) * count == count * hi - total;
  }

  /** A six-metric category: the mean times six is the sum of its six scores. */
  lemma {:induction false} MeanOfSix(m: seq<(string, Metric)>)
    requires |m| == 6
    ensures AverageScores(ScoresOf(m)) * 6.0
            == m[0].1.score + m[1].1.score + m[2].1.score + m[3].1.score + m[4].1.score + m[5].1.score
  {
    var xs := Present(ScoresOf(m));
    assert |xs| == 6 && Sum(xs) == m[0].1.score + m[1].1.score + m[2].1.score + m[3].1.score + m[4].1.score + m[5].1.score by {
      PresentAll(m);
      SumOfSix(xs);
    }
    MeanTimesCount(ScoresOf(m));
  }

  /** A five-metric category: the mean times five is the sum of its five scores. */
  lemma {:induction false} MeanOfFive(m: seq<(string, Metric)>)
    requires |m| == 5
    ensures AverageScores(ScoresOf(m)) * 5.0
            == m[0].1.score + m[1].1.score + m[2].1.score + m[3].1.score + m[4].1.score
  {
    var xs := Present(ScoresOf(m));
    assert |xs| == 5 && Sum(xs) == m[0].1.score + m[1].1.score + m[2].1.score + m[3].1.score + m[4].1.score by {
      PresentAll(m);
      SumOfFive(xs);
    }
    MeanTimesCount(ScoresOf(m));
  }

  /** With some score present, mean times count is the sum. */
  lemma {:induction false} MeanTimesCount(scores: seq<Option<real>>)
    requires Present(scores) != []
    ensures AverageScores(scores) * (|Present(scores)| as real) == Sum(Present(scores))
  {
  }
}
