/**
 * The dashboard's local verdict: a three-way recommendation read off the
 * Financial Health overall score.
 */
module App {
  import opened Wrappers
  import opened Statements
  import HealthScore

  datatype Recommendation = Buy | Hold | Sell

  /** Position on the scale Sell < Hold < Buy. */
  function Rank(r: Recommendation): (n: nat)
    ensures n <= 2
  {
    match r
    case Sell => 0
    case Hold => 1
    case Buy => 2
  }

  /** `simple_recommendation`: BUY from 7.5, HOLD from 5.0, SELL below; both thresholds inclusive. */
  function SimpleRecommendation(score: real): (r: Recommendation)
    ensures r == Buy <==> 7.5 <= score
    ensures r == Sell <==> score < 5.0
  {
    if score >= 7.5 then Buy
    else if score >= 5.0 then Hold
    else Sell
  }

  /** A higher score never gives a weaker recommendation. */
  lemma {:induction false} RecommendationMonotone(a: real, b: real)
    requires a <= b
    ensures Rank(SimpleRecommendation(a)) <= Rank(SimpleRecommendation(b))
  {
  }

  /** Every score in [5.0, 7.5) is a HOLD and nothing else is. */
  lemma {:induction false} HoldBand(score: real)
    ensures SimpleRecommendation(score) == Hold <==> 5.0 <= score < 7.5
  {
  }

  /**
   * `simple_recommendation` applied to the overall of `score_full_company`,
   * as the page computes its verdict (app.py:58, 81). That overall lies in
   * [3.0, 6.5], so the verdict is never BUY; it is SELL exactly when the
   * overall is below 5.0. With no statement at all the overall is 3.0 and
   * the verdict SELL, although the page itself raises before it gets there
   * (the Buffett scorer it calls in between needs all three statements).
   */
  method Recommend(bs: Option<Table>, inc: Option<Table>, cf: Option<Table>)
    returns (overall: real, rec: Recommendation)
    requires Ready(bs) && Ready(inc) && Ready(cf)
    ensures rec == SimpleRecommendation(overall)
    ensures rec != Buy
    ensures rec == Sell <==> overall < 5.0
    ensures bs.None? && inc.None? && cf.None? ==> rec == Sell
  {
    var breakdown;
    overall, breakdown := HealthScore.ScoreFullCompany(bs, inc, cf);
    rec := SimpleRecommendation(overall);
  }
}
