/** Trend of the RTPs of a run of bonus stages (`get_rtp_trend` in app.py).
    The rule compares three positions of the list: the last element, the
    second-to-last element and the first. It holds for lists of any length;
    nothing is assumed about where the list came from. */
module Trend {

  /** The trend labels; the source shows them as fixed display labels. */
  datatype Trend = InsufficientData | Rising | Falling | Stable

  /** Whether to keep playing; the source shows these as display labels. */
  datatype Advice = Caution | Continue | Stop | SmallObserve

  datatype TrendResult = TrendResult(trend: Trend, advice: Advice)

  /** The latest value: Python `rtps[-1]`. */
  function Last(rtps: seq<real>): real
    requires |rtps| >= 1
  {
    rtps[|rtps| - 1]
  }

  /** The value before it: Python `rtps[-2]`. */
  function SecondLast(rtps: seq<real>): real
    requires |rtps| >= 2
  {
    rtps[|rtps| - 2]
  }

  /** The advice that goes with each trend. */
  function AdviceFor(t: Trend): Advice
  {
    match t
    case InsufficientData => Caution
    case Rising => Continue
    case Falling => Stop
    case Stable => SmallObserve
  }

  /** `get_rtp_trend`, as a pair of trend and advice. The chained comparisons
      `a > b > c` are strict in both links. */
  function RtpTrend(rtps: seq<real>): (r: TrendResult)
    ensures r.advice == AdviceFor(r.trend)
    ensures r.trend == InsufficientData <==> |rtps| < 2
    ensures r.trend == Rising <==> |rtps| >= 2 && rtps[0] < SecondLast(rtps) < Last(rtps)
    ensures r.trend == Falling <==> |rtps| >= 2 && Last(rtps) < SecondLast(rtps) < rtps[0]
  {
    if |rtps| < 2 then TrendResult(InsufficientData, Caution)
    else if Last(rtps) > SecondLast(rtps) > rtps[0] then TrendResult(Rising, Continue)
    else if Last(rtps) < SecondLast(rtps) < rtps[0] then TrendResult(Falling, Stop)
    else TrendResult(Stable, SmallObserve)
  }

  /** Every element strictly above the ones before it. */
  predicate StrictlyIncreasing(s: seq<real>)
  {
    forall i, j :: 0 <= i < j < |s| ==> s[i] < s[j]
  }

  /** Every element strictly below the ones before it. */
  predicate StrictlyDecreasing(s: seq<real>)
  {
    forall i, j :: 0 <= i < j < |s| ==> s[i] > s[j]
  }

  /** Over a window of exactly three values, Rising and Falling are strict
      monotonicity of the whole window. */
  lemma ThreeValueTrend(rtps: seq<real>)
    requires |rtps| == 3
    ensures RtpTrend(rtps).trend == Rising <==> StrictlyIncreasing(rtps)
    ensures RtpTrend(rtps).trend == Falling <==> StrictlyDecreasing(rtps)
  {
    if StrictlyIncreasing(rtps) {
      assert rtps[0] < rtps[1] < rtps[2];
    }
    if StrictlyDecreasing(rtps) {
      assert rtps[0] > rtps[1] > rtps[2];
    }
  }

  /** With two values the second-to-last is the first, so the chained
      comparison always fails: a two-value list is Stable even when the
      values differ. */
  lemma TwoValuesAreStable(a: real, b: real)
    ensures RtpTrend([a, b]) == TrendResult(Stable, SmallObserve)
  {
  }

  /** A tie between the last two values, or between the second-to-last and
      the first, always gives Stable. */
  lemma TiesAreStable(rtps: seq<real>)
    requires |rtps| >= 2
    requires Last(rtps) == SecondLast(rtps) || SecondLast(rtps) == rtps[0]
    ensures RtpTrend(rtps) == TrendResult(Stable, SmallObserve)
  {
  }

  /** Negating every value. */
  function Negated(s: seq<real>): (r: seq<real>)
    ensures |r| == |s|
    ensures forall i :: 0 <= i < |s| ==> r[i] == -s[i]
  {
    seq(|s|, i requires 0 <= i < |s| => -s[i])
  }

  /** Swapping Rising with Falling; the other trends stay. */
  function Mirror(t: Trend): Trend
  {
    match t
    case Rising => Falling
    case Falling => Rising
    case other => other
  }

  /** The rule is symmetric: negating every value turns Rising into Falling
      and back, and keeps every other trend. */
  lemma NegationMirrorsTrend(rtps: seq<real>)
    ensures RtpTrend(Negated(rtps)).trend == Mirror(RtpTrend(rtps).trend)
  {
  }

  /** Reading a three-value window backwards turns Rising into Falling and back. */
  lemma ReversalMirrorsTrend(a: real, b: real, c: real)
    ensures RtpTrend([c, b, a]).trend == Mirror(RtpTrend([a, b, c]).trend)
  {
  }

  /** Examples: too little data, rising, falling and flat. */
  lemma TrendExamples(x: real)
    ensures RtpTrend([]) == TrendResult(InsufficientData, Caution)
    ensures RtpTrend([x]) == TrendResult(InsufficientData, Caution)
    ensures RtpTrend([1.0, 1.1, 1.3]) == TrendResult(Rising, Continue)
    ensures RtpTrend([1.3, 1.1, 1.0]) == TrendResult(Falling, Stop)
    ensures RtpTrend([1.0, 1.0, 1.0]) == TrendResult(Stable, SmallObserve)
  {
  }
}
