/** The recommended bet range for a score and a capital
    (`get_recommended_bet` in app.py), as a structured value instead of the
    formatted text the source returns. */
module Bet {

  /** The four bet tiers; the source shows them as fixed display labels. */
  datatype Tier = Aggressive | SteadyAggressive | ConservativeProbe | WaitAndSee

  /** A bet range in whole currency units, with the tier that produced it. */
  datatype BetRange = BetRange(low: int, high: int, tier: Tier)

  /** The tier chosen by score: any score not 5 or more, 4 or 3, negative
      scores included, falls into the last tier. */
  function TierOf(score: int): (t: Tier)
    ensures t == Aggressive <==> 5 <= score
    ensures t == SteadyAggressive <==> score == 4
    ensures t == ConservativeProbe <==> score == 3
    ensures t == WaitAndSee <==> score < 3
  {
    if score >= 5 then Aggressive
    else if score == 4 then SteadyAggressive
    else if score == 3 then ConservativeProbe
    else WaitAndSee
  }

  /** Lower end of a tier's range, in percent of capital. */
  function LowPercent(t: Tier): (p: nat)
    ensures 2 <= p <= 15
  {
    match t
    case Aggressive => 15
    case SteadyAggressive => 8
    case ConservativeProbe => 5
    case WaitAndSee => 2
  }

  /** Upper end of a tier's range, in percent of capital. */
  function HighPercent(t: Tier): (p: nat)
    ensures LowPercent(t) < p <= 20
  {
    match t
    case Aggressive => 20
    case SteadyAggressive => 12
    case ConservativeProbe => 7
    case WaitAndSee => 3
  }

  /** Python `int(capital * p / 100)`: the exact product, truncated toward
      zero. For non-negative capital it is the floor, for negative capital
      the ceiling. */
  function PercentOf(capital: int, p: nat): (r: int)
    ensures 0 <= capital ==> 0 <= r && r * 100 <= capital * p < (r + 1) * 100
    ensures capital < 0 ==> r <= 0 && (r - 1) * 100 < capital * p <= r * 100
  {
    if capital >= 0 then capital * p / 100 else -((-capital) * p / 100)
  }

  /** `get_recommended_bet`: the range of the score's tier, each end a
      truncated percentage of the capital. */
  function RecommendedBet(score: int, capital: int): (b: BetRange)
    ensures b.tier == TierOf(score)
    ensures 0 <= capital ==> b.low * 100 <= capital * LowPercent(b.tier) < (b.low + 1) * 100
    ensures 0 <= capital ==> b.high * 100 <= capital * HighPercent(b.tier) < (b.high + 1) * 100
    ensures capital < 0 ==> (b.low - 1) * 100 < capital * LowPercent(b.tier) <= b.low * 100
    ensures capital < 0 ==> (b.high - 1) * 100 < capital * HighPercent(b.tier) <= b.high * 100
    ensures 0 <= capital ==> 0 <= b.low <= b.high
    ensures capital <= 0 ==> b.high <= b.low <= 0
  {
    var t := TierOf(score);
    PercentOfMonotoneInPercent(capital, LowPercent(t), HighPercent(t));
    BetRange(PercentOf(capital, LowPercent(t)), PercentOf(capital, HighPercent(t)), t)
  }

  /** A larger share of the same non-negative capital is never smaller (and
      of a negative capital never larger). */
  lemma PercentOfMonotoneInPercent(capital: int, p: nat, q: nat)
    requires p <= q
    ensures 0 <= capital ==> PercentOf(capital, p) <= PercentOf(capital, q)
    ensures capital <= 0 ==> PercentOf(capital, q) <= PercentOf(capital, p)
  {
    if capital >= 0 {
      assert capital * p <= capital * q;
    } else {
      assert (-capital) * p <= (-capital) * q;
    }
  }

  /** The same share of a larger capital is never smaller. */
  lemma PercentOfMonotoneInCapital(c1: int, c2: int, p: nat)
    requires c1 <= c2
    ensures PercentOf(c1, p) <= PercentOf(c2, p)
  {
    assert c1 * p <= c2 * p;
  }

  /** Zero capital gives the degenerate range 0 to 0, with the score's tier. */
  lemma ZeroCapitalBet(score: int)
    ensures RecommendedBet(score, 0) == BetRange(0, 0, TierOf(score))
  {
  }

  /** With the same non-negative capital, a higher score never recommends a
      smaller bet at either end of the range. */
  lemma BetMonotoneInScore(s1: int, s2: int, capital: int)
    requires s1 <= s2 && 0 <= capital
    ensures RecommendedBet(s1, capital).low <= RecommendedBet(s2, capital).low
    ensures RecommendedBet(s1, capital).high <= RecommendedBet(s2, capital).high
  {
    var t1, t2 := TierOf(s1), TierOf(s2);
    PercentOfMonotoneInPercent(capital, LowPercent(t1), LowPercent(t2));
    PercentOfMonotoneInPercent(capital, HighPercent(t1), HighPercent(t2));
  }

  /** With the same score, more capital never recommends a smaller bet. */
  lemma BetMonotoneInCapital(score: int, c1: int, c2: int)
    requires c1 <= c2
    ensures RecommendedBet(score, c1).low <= RecommendedBet(score, c2).low
    ensures RecommendedBet(score, c1).high <= RecommendedBet(score, c2).high
  {
    var t := TierOf(score);
    PercentOfMonotoneInCapital(c1, c2, LowPercent(t));
    PercentOfMonotoneInCapital(c1, c2, HighPercent(t));
  }

  /** No recommended bet exceeds a fifth of a non-negative capital. */
  lemma BetAtMostFifthOfCapital(score: int, capital: int)
    requires 0 <= capital
    ensures 5 * RecommendedBet(score, capital).high <= capital
  {
    var t := TierOf(score);
    var h := PercentOf(capital, HighPercent(t));
    assert h * 100 <= capital * HighPercent(t);
    assert capital * HighPercent(t) <= capital * 20;
  }

  /** The ranges for a capital of 1000 at each tier. */
  lemma BetExamples()
    ensures RecommendedBet(5, 1000) == BetRange(150, 200, Aggressive)
    ensures RecommendedBet(4, 1000) == BetRange(80, 120, SteadyAggressive)
    ensures RecommendedBet(3, 1000) == BetRange(50, 70, ConservativeProbe)
    ensures RecommendedBet(2, 1000) == BetRange(20, 30, WaitAndSee)
    ensures RecommendedBet(-1, 1000) == BetRange(20, 30, WaitAndSee)
  {
  }
}
