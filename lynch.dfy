/**
 * The Peter Lynch model: five metrics (EPS growth, PEG, debt-to-equity, a
 * dividend placeholder and net cash), each scored on a step curve and
 * summed into a running total, then averaged.
 */
module Lynch {
  import opened Wrappers
  import opened Statements

  /** A value `safe_num` may receive: `None`, a float (NaN included) or anything else, such as text. */
  datatype Input = Null | Float(c: Cell) | Text(s: string)

  /**
   * `safe_num`: `None` becomes 0, a float comes back unchanged (a NaN is
   * not replaced, whatever the docstring says), anything else goes through
   * `float(...)`, and 0 when that conversion raises. `parse` stands for
   * Python's `float` on text (`None` = it raises).
   */
  function SafeNum(v: Input, parse: string -> Option<Cell>): (r: Cell)
    ensures v.Null? ==> r == Some(0.0)
    ensures v.Float? ==> r == v.c
    ensures v.Text? && parse(v.s).None? ==> r == Some(0.0)
    ensures v.Text? && parse(v.s).Some? ==> r == parse(v.s).value
  {
    match v
    case Null => Some(0.0)
    case Float(c) => c
    case Text(s) => if parse(s).Some? then parse(s).value else Some(0.0)
  }

  /** Only a NaN input gives a NaN result unless the text itself parses to NaN: `None` and bad text give 0. */
  lemma {:induction false} SafeNumNaN(v: Input, parse: string -> Option<Cell>)
    requires SafeNum(v, parse).None?
    ensures v == Float(None) || (v.Text? && parse(v.s) == Some(None))
  {
  }

  // ---------------------------------------------------------------------
  // The five metrics
  // ---------------------------------------------------------------------

  /**
   * EPS growth in percent from the first to the last net income. `Nothing`
   * without the column, without rows (the guarded lookup raises) or when
   * the first value is exactly 0; NaN when either value is missing.
   */
  function LynchEpsGrowth(inc: Option<Table>): (g: Scalar)
    requires Shaped(inc)
    ensures !Reachable(inc, "Net Income") ==> g.Nothing?
    ensures Reachable(inc, "Net Income") ==> (g.Nothing? <==> inc.value.cols["Net Income"].cells[0] == Some(0.0))
    ensures Reachable(inc, "Net Income") ==>
      var first := inc.value.cols["Net Income"].cells[0];
      (g.Num? <==> first.Some? && At(inc, "Net Income").Some? && first.value != 0.0)
    ensures g.Num? ==>
      var first := inc.value.cols["Net Income"].cells[0];
      var last := At(inc, "Net Income");
      && first.Some? && last.Some? && first.value != 0.0
      && g.x * AbsValue(first.value) == (last.value - first.value) * 100.0
      && (g.x > 0.0 <==> last.value > first.value)
  {
    if Reachable(inc, "Net Income") then
      var first := inc.value.cols["Net Income"].cells[0];
      var last := At(inc, "Net Income");
      if first == Some(0.0) then Nothing
      else if first.Some? && last.Some? then
        PercentOf(last.value - first.value, AbsValue(first.value));
        Num((last.value - first.value) / AbsValue(first.value) * 100.0)
      else NaN
    else Nothing
  }

  /** A change relative to a positive base, in percent, keeps the sign of the change. */
  lemma {:induction false} PercentOf(d: real, base: real)
    requires base > 0.0
    ensures (d / base * 100.0) * base == d * 100.0
    ensures d / base * 100.0 > 0.0 <==> d > 0.0
  {
    assert (d / base) * base == d;
    if d > 0.0 {
      assert d / base > 0.0;
    } else {
      assert d / base <= 0.0;
    }
  }

  /** >= 20 -> 10, >= 10 -> 7, >= 5 -> 5, > 0 -> 4, otherwise (NaN too) 1; no growth figure -> 3. */
  function EpsGrowthScore(g: Scalar): (r: real)
    ensures 1.0 <= r <= 10.0
    ensures g.Nothing? ==> r == 3.0
    ensures g.NaN? ==> r == 1.0
    ensures g.Num? ==> (r == 10.0 <==> g.x >= 20.0)
    ensures g.Num? ==> (r == 7.0 <==> 10.0 <= g.x < 20.0)
    ensures g.Num? ==> (r == 5.0 <==> 5.0 <= g.x < 10.0)
    ensures g.Num? ==> (r == 4.0 <==> 0.0 < g.x < 5.0)
    ensures g.Num? ==> (r == 1.0 <==> g.x <= 0.0)
  {
    match g
    case Nothing => 3.0
    case NaN => 1.0
    case Num(x) =>
      if x >= 20.0 then 10.0
      else if x >= 10.0 then 7.0
      else if x >= 5.0 then 5.0
      else if x > 0.0 then 4.0
      else 1.0
  }

  /** The approximate EPS the PEG step uses: latest net income over latest revenue. */
  function ApproxEps(inc: Option<Table>): Cell
    requires Shaped(inc) && Reachable(inc, "Net Income") && Reachable(inc, "Total Revenue")
  {
    Quotient(At(inc, "Net Income"), At(inc, "Total Revenue"))
  }

  /**
   * PEG = (price / EPS) / EPS growth. It exists only with a price, both
   * columns and at least one row, a positive EPS and a positive growth.
   */
  function LynchPeg(inc: Option<Table>, price: Option<real>, growth: Scalar): (p: Scalar)
    requires Shaped(inc)
    ensures !p.NaN?
    ensures p.Num? <==>
      && price.Some? && Reachable(inc, "Net Income") && Reachable(inc, "Total Revenue")
      && ApproxEps(inc).Some? && ApproxEps(inc).value > 0.0 && growth.Num? && growth.x > 0.0
    ensures p.Num? ==>
      && p.x * (ApproxEps(inc).value * growth.x) == price.value
      && (p.x > 0.0 <==> price.value > 0.0)
  {
    if price.Some? && Reachable(inc, "Net Income") && Reachable(inc, "Total Revenue") then
      var eps := ApproxEps(inc);
      if eps.Some? && eps.value > 0.0 && growth.Num? && growth.x > 0.0 then
        TwoQuotients(price.value, eps.value, growth.x);
        Num(price.value / eps.value / growth.x)
      else Nothing
    else Nothing
  }

  lemma {:induction false} TwoQuotients(a: real, b: real, c: real)
    requires b > 0.0 && c > 0.0
    ensures (a / b / c) * (b * c) == a
    ensures a / b / c > 0.0 <==> a > 0.0
  {
    assert (a / b / c) * c == a / b;
    assert (a / b) * b == a;
    if a > 0.0 {
      assert a / b > 0.0;
    } else {
      assert a / b <= 0.0;
    }
  }

  /** < 1 -> 10, < 2 -> 7, otherwise 3; no PEG -> 3. */
  function PegScore(p: Scalar): (r: real)
    ensures 3.0 <= r <= 10.0
    ensures !p.Num? ==> r == 3.0
    ensures p.Num? ==> (r == 10.0 <==> p.x < 1.0)
    ensures p.Num? ==> (r == 7.0 <==> 1.0 <= p.x < 2.0)
    ensures p.Num? ==> (r == 3.0 <==> p.x >= 2.0)
  {
    match p
    case Nothing => 3.0
    case NaN => 3.0
    case Num(x) =>
      if x < 1.0 then 10.0
      else if x < 2.0 then 7.0
      else 3.0
  }

  /** The latest precomputed debt-to-equity ratio, when the column exists. */
  function LynchDebtToEquity(bs: Option<Table>): (d: Scalar)
    requires Shaped(bs)
    requires bs.Some? && "Debt_to_Equity" in bs.value.cols ==> bs.value.height > 0
    ensures d.Nothing? <==> !(bs.Some? && "Debt_to_Equity" in bs.value.cols)
    ensures !d.Nothing? ==> d == OfCell(At(bs, "Debt_to_Equity"))
  {
    if bs.Some? && "Debt_to_Equity" in bs.value.cols then OfCell(At(bs, "Debt_to_Equity")) else Nothing
  }

  /** < 0.5 -> 10, < 1 -> 7, < 2 -> 5, otherwise (NaN too) 1; no ratio -> 3. */
  function DebtScore(d: Scalar): (r: real)
    ensures 1.0 <= r <= 10.0
    ensures d.Nothing? ==> r == 3.0
    ensures d.NaN? ==> r == 1.0
    ensures d.Num? ==> (r == 10.0 <==> d.x < 0.5)
    ensures d.Num? ==> (r == 7.0 <==> 0.5 <= d.x < 1.0)
    ensures d.Num? ==> (r == 5.0 <==> 1.0 <= d.x < 2.0)
    ensures d.Num? ==> (r == 1.0 <==> d.x >= 2.0)
  {
    match d
    case Nothing => 3.0
    case NaN => 1.0
    case Num(x) =>
      if x < 0.5 then 10.0
      else if x < 1.0 then 7.0
      else if x < 2.0 then 5.0
      else 1.0
  }

  /** Latest cash minus latest "Total Liab", when both columns exist. */
  function NetCash(bs: Option<Table>): (n: Scalar)
    requires Shaped(bs)
    requires bs.Some? && "Cash" in bs.value.cols && "Total Liab" in bs.value.cols ==> bs.value.height > 0
    ensures n.Nothing? <==> !(bs.Some? && "Cash" in bs.value.cols && "Total Liab" in bs.value.cols)
    ensures n.Num? <==>
      bs.Some? && "Cash" in bs.value.cols && "Total Liab" in bs.value.cols && At(bs, "Cash").Some? && At(bs, "Total Liab").Some?
    ensures n.Num? ==>
      && At(bs, "Cash").Some? && At(bs, "Total Liab").Some?
      && n.x == At(bs, "Cash").value - At(bs, "Total Liab").value
  {
    if bs.Some? && "Cash" in bs.value.cols && "Total Liab" in bs.value.cols then
      OfCell(Minus(At(bs, "Cash"), At(bs, "Total Liab")))
    else Nothing
  }

  const NegativeBillion: real := -1000000000.0

  /** > 0 -> 10, > -1e9 -> 5, otherwise (NaN too) 1; no figure -> 3. */
  function NetCashScore(n: Scalar): (r: real)
    ensures 1.0 <= r <= 10.0
    ensures n.Nothing? ==> r == 3.0
    ensures n.NaN? ==> r == 1.0
    ensures n.Num? ==> (r == 10.0 <==> n.x > 0.0)
    ensures n.Num? ==> (r == 5.0 <==> NegativeBillion < n.x <= 0.0)
    ensures n.Num? ==> (r == 1.0 <==> n.x <= NegativeBillion)
  {
    match n
    case Nothing => 3.0
    case NaN => 1.0
    case Num(x) =>
      if x > 0.0 then 10.0
      else if x > NegativeBillion then 5.0
      else 1.0
  }

  /** A better raw figure never scores lower (lower is better for PEG and debt). */
  lemma {:induction false} LynchTiersMonotone(a: real, b: real)
    requires a <= b
    ensures EpsGrowthScore(Num(a)) <= EpsGrowthScore(Num(b))
    ensures PegScore(Num(a)) >= PegScore(Num(b))
    ensures DebtScore(Num(a)) >= DebtScore(Num(b))
    ensures NetCashScore(Num(a)) <= NetCashScore(Num(b))
  {
  }

  lemma {:induction false} DivideByCount(total: real, count: int)
    requires count == 5
    ensures total / count as real == total / 5.0
  {
  }

  /** The mean of the five Lynch scores, given each one's range. */
  lemma {:induction false} MeanOfFiveWithin(total: real, mean: real, eps: real, peg: real, debt: real, cash: real)
    requires 1.0 <= eps <= 10.0
    requires 3.0 <= peg <= 10.0
    requires 1.0 <= debt <= 10.0
    requires 1.0 <= cash <= 10.0
    requires total == eps + peg + debt + 3.0 + cash
    requires mean == total / 5.0
    ensures mean * 5.0 == total && 1.8 <= mean <= 8.6
  {
  }

  // ---------------------------------------------------------------------
  // score_lynch_company
  // ---------------------------------------------------------------------

  const LynchLabels: seq<string> :=
    ["EPS Growth %", "PEG Ratio", "Debt-to-Equity", "Dividend Yield + Growth", "Net Cash Position"]

  /** A breakdown listed under the Lynch labels: its labels and the sum of its scores, entry by entry. */
  lemma {:induction false} LynchEntries(breakdown: seq<(string, Metric)>)
    requires |breakdown| == 5
    requires breakdown[0].0 == "EPS Growth %" && breakdown[1].0 == "PEG Ratio"
    requires breakdown[2].0 == "Debt-to-Equity" && breakdown[3].0 == "Dividend Yield + Growth"
    requires breakdown[4].0 == "Net Cash Position"
    ensures Labels(breakdown) == LynchLabels
    ensures Sum(MetricScores(breakdown)) == breakdown[0].1.score + breakdown[1].1.score + breakdown[2].1.score
                                          + breakdown[3].1.score + breakdown[4].1.score
  {
    assert Labels(breakdown) == LynchLabels;
    SumOfFive(MetricScores(breakdown));
  }

  /**
   * The inputs on which `score_lynch_company` does not raise: the EPS and
   * PEG lookups are guarded, the debt and net-cash lookups are not, so a
   * balance sheet with those columns must have a row.
   */
  ghost predicate LynchScorable(bs: Option<Table>, inc: Option<Table>) {
    && Shaped(bs) && Shaped(inc)
    && (bs.Some? && ("Debt_to_Equity" in bs.value.cols || ("Cash" in bs.value.cols && "Total Liab" in bs.value.cols)) ==>
          bs.value.height > 0)
  }

  /**
   * `score_lynch_company`: each metric is scored, appended to the
   * breakdown and added to a running total; the overall score is the total
   * over the number of metrics. The cash-flow table is accepted and unused.
   */
  method ScoreLynchCompany(bs: Option<Table>, inc: Option<Table>, cf: Option<Table>, price: Option<real>)
    returns (overall: real, breakdown: seq<(string, Metric)>)
    requires LynchScorable(bs, inc)
    ensures Labels(breakdown) == LynchLabels
    ensures breakdown[0].1 == Metric(CellOf(LynchEpsGrowth(inc)), EpsGrowthScore(LynchEpsGrowth(inc)))
    ensures breakdown[1].1 == Metric(CellOf(LynchPeg(inc, price, LynchEpsGrowth(inc))),
                                     PegScore(LynchPeg(inc, price, LynchEpsGrowth(inc))))
    ensures breakdown[2].1 == Metric(CellOf(LynchDebtToEquity(bs)), DebtScore(LynchDebtToEquity(bs)))
    ensures breakdown[3].1 == Neutral
    ensures breakdown[4].1 == Metric(CellOf(NetCash(bs)), NetCashScore(NetCash(bs)))
    ensures overall * 5.0 == Sum(MetricScores(breakdown))
    ensures 1.8 <= overall <= 8.6
    ensures bs.None? && inc.None? ==> overall == 3.0
  {
    breakdown := [];
    var score := 0.0;
    var metricsCount := 0;

    var epsGrowth := LynchEpsGrowth(inc);
    var epsGrowthScore := EpsGrowthScore(epsGrowth);
    breakdown := breakdown + [("EPS Growth %", Metric(CellOf(epsGrowth), epsGrowthScore))];
    score := score + epsGrowthScore;
    metricsCount := metricsCount + 1;

    var peg := LynchPeg(inc, price, epsGrowth);
    var pegScore := PegScore(peg);
    breakdown := breakdown + [("PEG Ratio", Metric(CellOf(peg), pegScore))];
    score := score + pegScore;
    metricsCount := metricsCount + 1;

    var debtToEquity := LynchDebtToEquity(bs);
    var debtScore := DebtScore(debtToEquity);
    breakdown := breakdown + [("Debt-to-Equity", Metric(CellOf(debtToEquity), debtScore))];
    score := score + debtScore;
    metricsCount := metricsCount + 1;

    // Placeholder: no dividend data is ever read.
    breakdown := breakdown + [("Dividend Yield + Growth", Metric(None, 3.0))];
    score := score + 3.0;
    metricsCount := metricsCount + 1;

    var netCash := NetCash(bs);
    var netCashScore := NetCashScore(netCash);
    breakdown := breakdown + [("Net Cash Position", Metric(CellOf(netCash), netCashScore))];
    score := score + netCashScore;
    metricsCount := metricsCount + 1;

    assert breakdown == [("EPS Growth %", Metric(CellOf(epsGrowth), epsGrowthScore)),
                         ("PEG Ratio", Metric(CellOf(peg), pegScore)),
                         ("Debt-to-Equity", Metric(CellOf(debtToEquity), debtScore)),
                         ("Dividend Yield + Growth", Metric(None, 3.0)),
                         ("Net Cash Position", Metric(CellOf(netCash), netCashScore))];
    LynchEntries(breakdown);
    overall := if metricsCount != 0 then score / metricsCount as real else 0.0;
    DivideByCount(score, metricsCount);
    MeanOfFiveWithin(score, overall, epsGrowthScore, pegScore, debtScore, netCashScore);
  }
}
