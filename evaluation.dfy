/** One session evaluation (app.py, `index`): the four rules run side by side
    on the same inputs. Form parsing, the remembered capital, the timestamp
    and the stored record are not part of this module. */
module Evaluation {
  import Status
  import Score
  import Suggestion
  import Bet

  /** The metrics a player enters for one machine. */
  datatype SessionMetrics = SessionMetrics(
    noBonusSpin: int,
    lastBonusSpin: int,
    secondLastBonusSpin: int,
    todayBet: int,
    last30Bet: int,
    todayRtp: real,
    last30Rtp: real)

  /** The computed fields of one evaluation record. */
  datatype EvaluationResult = EvaluationResult(
    status: Status.MachineStatus,
    score: int,
    suggestion: Suggestion.Suggestion,
    bet: Bet.BetRange)

  /** Status from today's RTP, the score from the metrics, and the suggestion
      and the bet range from that score. The contract states how the four
      parts agree with one another. */
  function Evaluate(m: SessionMetrics, capital: int): (e: EvaluationResult)
    ensures 0 <= e.score <= 5
    ensures e.suggestion == Suggestion.Recommended
        <==> e.bet.tier in {Bet.Aggressive, Bet.SteadyAggressive}
    ensures e.suggestion == Suggestion.NotRecommended ==> e.bet.tier == Bet.WaitAndSee
    ensures e.status == Status.Underperforming ==> 1 <= e.score
    ensures e.bet.tier == Bet.Aggressive ==> e.status == Status.Underperforming
    ensures 0 <= capital ==> 0 <= e.bet.low <= e.bet.high
  {
    var score := Score.Score(m.noBonusSpin, m.lastBonusSpin, m.secondLastBonusSpin,
                             m.todayRtp, m.last30Rtp, m.todayBet, m.last30Bet);
    Score.ScoreFiveIff(m.noBonusSpin, m.lastBonusSpin, m.secondLastBonusSpin,
                       m.todayRtp, m.last30Rtp, m.todayBet, m.last30Bet);
    Score.ScoreZeroIff(m.noBonusSpin, m.lastBonusSpin, m.secondLastBonusSpin,
                       m.todayRtp, m.last30Rtp, m.todayBet, m.last30Bet);
    EvaluationResult(
      Status.EvaluateStatus(m.todayRtp),
      score,
      Suggestion.GetSuggestion(score),
      Bet.RecommendedBet(score, capital))
  }

  /** Only a machine that is taking in (today's RTP below 0.9) can reach the
      top score, so an overperforming or normal machine never gets the
      aggressive bet tier. */
  lemma AggressiveOnlyWhenUnderperforming(m: SessionMetrics, capital: int)
    requires Status.EvaluateStatus(m.todayRtp) != Status.Underperforming
    ensures Evaluate(m, capital).score <= 4
    ensures Evaluate(m, capital).bet.tier != Bet.Aggressive
  {
  }
}
