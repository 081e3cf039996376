# Slot session calculator — decision rules

A model of the decision logic of a slot-machine session calculator
(`app.py`). Given a machine's observed return-to-player (RTP) ratios, bonus
spin counters and bet totals, the calculator:

- classifies today's RTP as Overperforming, Underperforming or Normal (`Status`);
- scores the session from 0 to 5 by counting five threshold conditions (`Score`);
- turns the score into a play recommendation (`Suggestion`);
- turns the score and the player's capital into a bet range with a tier (`Bet`);
- classifies the RTPs of a run of bonus stages as Rising, Falling, Stable or
  InsufficientData, each with continuation advice (`Trend`);
- derives a bonus event's RTP as win over bet, with 0 for a bet of zero or less (`BonusEvent`).

`Evaluation` puts the first four rules side by side as the session form
handler does, and states how their results agree.

Modelling choices:

- RTPs are exact `real`s. Bets, spin counts and capital are `int`, as the
  source reads them with `int(...)`.
- `calculate_score` builds its result in a local accumulator. `Score.CalculateScore`
  keeps that form and is proved equal to `Score.Score`, the number of true
  entries in the five-signal list `Score.Signals`.
- `int(capital * 0.15)` is the exact product truncated toward zero
  (`Bet.PercentOf`), negative capital included. The fractions are kept as
  whole percentages in a table per tier.
- Labels are enumerations. The source's display strings are presentation only.
- Behaviour of the code that a reader might not expect, kept as written:
  - A two-value list is always Stable, because `rtp_list[-2]` and
    `rtp_list[0]` are the same element and the chained strict comparison
    fails (app.py:87-90; `Trend.TwoValuesAreStable`).
  - `calculate_score` receives `second_last_bonus` and never reads it, so
    the score counts five conditions (app.py:52-64;
    `Score.ScoreIgnoresSecondLastBonus`).
  - Capital and bet are any integer read with `int(...)` (app.py:100, 151).
    A negative capital gives a range truncated toward zero, and a bet of
    zero or less gives RTP 0 (app.py:153).

## Model

| member | source | states |
|---|---|---|
| Status.EvaluateStatus | app.py:44-50 | the first-match rules partition the reals: Overperforming iff rtp >= 1.2, Underperforming iff rtp < 0.9, Normal iff 0.9 <= rtp < 1.2 |
| Status.StatusMonotone | app.py:44-50 | a higher RTP never yields a colder state (Underperforming < Normal < Overperforming) |
| Status.StatusBoundaries | app.py:45-47 | 0.9 is Normal and 1.2 is Overperforming; just below each falls to the next band down |
| Score.CountTrue | app.py:53-63 | the count of true conditions never exceeds the number of conditions |
| Score.Signals | app.py:54-62 | exactly five conditions are tested, in the source's order |
| Score.Score | app.py:52-64 | the score, as the number of true signals, is between 0 and 5 |
| Score.CalculateScore | app.py:52-64 | the accumulator that adds one per true condition returns exactly the number of true signals, in 0..5 |
| Score.BetSignalIsIntegerTest | app.py:60 | `today_bet < last30_bet / 30` with true division holds iff `today_bet * 30 < last30_bet` |
| Score.ScoreIgnoresSecondLastBonus | app.py:52-64 | changing the second-to-last bonus spin count never changes the score |
| Score.ScoreFiveIff | app.py:52-64 | the score is 5 iff all five conditions hold |
| Score.ScoreZeroIff | app.py:52-64 | the score is 0 iff none of the five conditions holds |
| Score.ScoreMonotone | app.py:52-64 | more spins since a bonus, a later last bonus, a lower RTP today, a higher 30-day RTP, a smaller bet today or a larger 30-day bet total never lowers the score |
| Suggestion.GetSuggestion | app.py:66-72 | Recommended iff score >= 4, Cautious iff 2 <= score < 4, NotRecommended iff score < 2, for every integer |
| Suggestion.SuggestionMonotone | app.py:66-72 | a higher score never yields a less favourable recommendation |
| Bet.TierOf | app.py:75-81 | Aggressive iff score >= 5, SteadyAggressive iff score is 4, ConservativeProbe iff score is 3, WaitAndSee for every other score, negatives included |
| Bet.LowPercent | app.py:76-82 | each tier's lower fraction is between 2% and 15% of capital |
| Bet.HighPercent | app.py:76-82 | each tier's upper fraction is above its lower one and at most 20% |
| Bet.PercentOf | app.py:76-82 | `int(capital * p/100)` truncates toward zero: the floor of the exact product for capital >= 0, the ceiling for capital < 0 |
| Bet.RecommendedBet | app.py:74-82 | the range carries the score's tier, and each end is that tier's fraction of the capital truncated toward zero (the floor of the exact product for capital >= 0, the ceiling for capital < 0); for capital >= 0 it is 0 <= low <= high, for capital <= 0 high <= low <= 0 |
| Bet.ZeroCapitalBet | app.py:74-82 | capital 0 gives the range 0 to 0 with the score's tier, not an error |
| Bet.BetMonotoneInScore | app.py:74-82 | for the same non-negative capital, a higher score never recommends less at either end |
| Bet.BetMonotoneInCapital | app.py:74-82 | for the same score, more capital never recommends less at either end |
| Bet.BetAtMostFifthOfCapital | app.py:74-82 | no recommended bet exceeds a fifth of a non-negative capital |
| Bet.BetExamples | app.py:74-82 | capital 1000 gives 150-200 at score 5, 80-120 at 4, 50-70 at 3, 20-30 at 2 and at -1 |
| Trend.RtpTrend | app.py:84-92 | InsufficientData iff fewer than 2 values; Rising iff last > second-to-last > first; Falling iff last < second-to-last < first; the advice always matches the trend |
| Trend.ThreeValueTrend | app.py:87-90 | over exactly three values, Rising iff the window is strictly increasing, Falling iff strictly decreasing |
| Trend.TwoValuesAreStable | app.py:87-92 | every two-value list is Stable with small-stake advice, whatever its values |
| Trend.TiesAreStable | app.py:87-92 | a tie between the compared neighbours always gives Stable |
| Trend.NegationMirrorsTrend | app.py:84-92 | negating all values swaps Rising and Falling and keeps the other trends |
| Trend.ReversalMirrorsTrend | app.py:87-90 | reading a three-value window backwards swaps Rising and Falling |
| Trend.TrendExamples | app.py:84-92 | [] and [x] give InsufficientData; [1.0,1.1,1.3] Rising; [1.3,1.1,1.0] Falling; [1.0,1.0,1.0] Stable |
| BonusEvent.DeriveRtp | app.py:153 | for a positive bet the RTP times the bet is the win; a bet of zero or less gives 0 without dividing |
| BonusEvent.DerivedRtpNonNegative | app.py:153 | a non-negative win never gives a negative RTP |
| BonusEvent.DerivedRtpAboveOne | app.py:153 | for a positive bet the RTP exceeds 1 iff the win exceeds the bet |
| BonusEvent.DerivedRtpScaleInvariant | app.py:153 | scaling bet and win by the same positive factor leaves the RTP unchanged |
| BonusEvent.ZeroBetGivesZeroRtp | app.py:153 | a zero bet gives RTP 0 whatever the win |
| Evaluation.Evaluate | app.py:112-115 | score in 0..5; Recommended iff the bet tier is one of the two attacking tiers; NotRecommended only with the WaitAndSee tier; an Underperforming status means a score of at least 1; the Aggressive tier only with an Underperforming status |
| Evaluation.AggressiveOnlyWhenUnderperforming | app.py:112-115 | a machine that is Normal or Overperforming scores at most 4 and never gets the Aggressive tier |

## Left out

- The web handlers `index`, `records` and `bonus_event` (app.py:94-173): form parsing, the capital remembered across requests, redirects and page rendering are web I/O. Only the rule calls of `index` (app.py:112-115) and the RTP guard of `bonus_event` (app.py:153) are modelled.
- The database (app.py:9-42, 118-128, 136-139, 156-166): table creation, inserts and selects are persistence. The trend query reads the three lowest stages (`ORDER BY stage ASC LIMIT 3`), not the latest ones. `Trend.RtpTrend` is therefore stated for any list of values.
- Timestamps from the clock (app.py:116, 154).
- BonusEvent.DeriveRtp: the two-decimal `round(win / bet, 2)` is not modelled; the RTP is the exact quotient.
- Bet.PercentOf: binary floating point is not modelled. `capital * 0.15` is taken as the exact rational product, so a product that floats just below a whole number could truncate one lower in the source.
- Score.Score and Status.EvaluateStatus: RTPs and the true division `last30_bet / 30` are exact reals, not IEEE doubles.
- The display text of labels and the formatted bet string (app.py:76-92): presentation only; enumerations and a `(low, high, tier)` value stand in for them.
- Application start-up, the secret key and module globals (app.py:5-7, 175-178).
