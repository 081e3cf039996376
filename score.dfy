/** The favourability score (`calculate_score` in app.py): the number of
    threshold conditions, out of five, that hold for a session. */
module Score {

  /** More than this many spins without a bonus is a signal. */
  const NoBonusLimit: int := 50
  /** The last bonus having come after more than this many spins is a signal. */
  const LastBonusLimit: int := 60
  /** Today's RTP below this ratio is a signal. */
  const LowRtp: real := 0.9
  /** The 30-day bet total is averaged over this many days. */
  const WindowDays: int := 30

  /** The number of `true` entries of `bs`, counted from the end so that
      appending one condition adds at most one. */
  function CountTrue(bs: seq<bool>): (n: nat)
    ensures n <= |bs|
  {
    if bs == [] then 0
    else CountTrue(bs[..|bs| - 1]) + (if bs[|bs| - 1] then 1 else 0)
  }

  /** All entries hold exactly when every one is counted. */
  lemma {:induction false} CountTrueAll(bs: seq<bool>)
    ensures CountTrue(bs) == |bs| <==> forall i :: 0 <= i < |bs| ==> bs[i]
  {
    if bs != [] {
      var init := bs[..|bs| - 1];
      CountTrueAll(init);
      assert forall i :: 0 <= i < |init| ==> init[i] == bs[i];
    }
  }

  /** No entry holds exactly when nothing is counted. */
  lemma {:induction false} CountTrueNone(bs: seq<bool>)
    ensures CountTrue(bs) == 0 <==> forall i :: 0 <= i < |bs| ==> !bs[i]
  {
    if bs != [] {
      var init := bs[..|bs| - 1];
      CountTrueNone(init);
      assert forall i :: 0 <= i < |init| ==> init[i] == bs[i];
    }
  }

  /** Making some conditions true, and none false, never lowers the count. */
  lemma {:induction false} CountTrueMonotone(weaker: seq<bool>, stronger: seq<bool>)
    requires |weaker| == |stronger|
    requires forall i :: 0 <= i < |weaker| ==> weaker[i] ==> stronger[i]
    ensures CountTrue(weaker) <= CountTrue(stronger)
  {
    if weaker != [] {
      var n := |weaker| - 1;
      assert forall i :: 0 <= i < n ==> weaker[..n][i] == weaker[i] && stronger[..n][i] == stronger[i];
      CountTrueMonotone(weaker[..n], stronger[..n]);
    }
  }

  /** Python 3 `today_bet < last30_bet / 30`: true (non-truncating) division. */
  predicate BetBelowDailyAverage(todayBet: int, last30Bet: int)
  {
    (todayBet as real) < (last30Bet as real) / (WindowDays as real)
  }

  /** The five conditions in the order the source tests them. The spin count
      at the second-to-last bonus is not among them. */
  function Signals(noBonus: int, lastBonus: int, todayRtp: real, last30Rtp: real,
                   todayBet: int, last30Bet: int): (bs: seq<bool>)
    ensures |bs| == 5
  {
    [ noBonus > NoBonusLimit,
      lastBonus > LastBonusLimit,
      todayRtp < LowRtp,
      BetBelowDailyAverage(todayBet, last30Bet),
      last30Rtp > todayRtp ]
  }

  /** The score of a session: how many of its five signals hold. */
  function Score(noBonus: int, lastBonus: int, secondLastBonus: int, todayRtp: real,
                 last30Rtp: real, todayBet: int, last30Bet: int): (n: nat)
    ensures n <= 5
  {
    CountTrue(Signals(noBonus, lastBonus, todayRtp, last30Rtp, todayBet, last30Bet))
  }

  /** The source's accumulator: start at zero and add one per condition that
      holds. After each test, `score` counts the conditions tested so far. */
  method CalculateScore(noBonus: int, lastBonus: int, secondLastBonus: int, todayRtp: real,
                        last30Rtp: real, todayBet: int, last30Bet: int)
    returns (score: int)
    ensures score == Score(noBonus, lastBonus, secondLastBonus, todayRtp, last30Rtp, todayBet, last30Bet)
    ensures 0 <= score <= 5
  {
    ghost var signals := Signals(noBonus, lastBonus, todayRtp, last30Rtp, todayBet, last30Bet);
    score := 0;
    if noBonus > NoBonusLimit {
      score := score + 1;
    }
    assert signals[..1][..0] == [];
    assert score == CountTrue(signals[..1]);
    if lastBonus > LastBonusLimit {
      score := score + 1;
    }
    assert signals[..2][..1] == signals[..1];
    assert score == CountTrue(signals[..2]);
    if todayRtp < LowRtp {
      score := score + 1;
    }
    assert signals[..3][..2] == signals[..2];
    assert score == CountTrue(signals[..3]);
    if BetBelowDailyAverage(todayBet, last30Bet) {
      score := score + 1;
    }
    assert signals[..4][..3] == signals[..3];
    assert score == CountTrue(signals[..4]);
    if last30Rtp > todayRtp {
      score := score + 1;
    }
    assert signals[..5][..4] == signals[..4];
    assert signals[..5] == signals;
  }

  /** For whole-number bets the true-division test is the integer test
      `today_bet * 30 < last30_bet`. */
  lemma BetSignalIsIntegerTest(todayBet: int, last30Bet: int)
    ensures BetBelowDailyAverage(todayBet, last30Bet) <==> todayBet * WindowDays < last30Bet
  {
  }

  /** The second-to-last bonus spin count never changes the score. */
  lemma ScoreIgnoresSecondLastBonus(noBonus: int, lastBonus: int, s1: int, s2: int, todayRtp: real,
                                    last30Rtp: real, todayBet: int, last30Bet: int)
    ensures Score(noBonus, lastBonus, s1, todayRtp, last30Rtp, todayBet, last30Bet)
         == Score(noBonus, lastBonus, s2, todayRtp, last30Rtp, todayBet, last30Bet)
  {
  }

  /** The top score 5 is reached exactly when all five conditions hold. */
  lemma ScoreFiveIff(noBonus: int, lastBonus: int, secondLastBonus: int, todayRtp: real,
                     last30Rtp: real, todayBet: int, last30Bet: int)
    ensures Score(noBonus, lastBonus, secondLastBonus, todayRtp, last30Rtp, todayBet, last30Bet) == 5
        <==> noBonus > NoBonusLimit && lastBonus > LastBonusLimit && todayRtp < LowRtp
             && todayBet * WindowDays < last30Bet && last30Rtp > todayRtp
  {
    var bs := Signals(noBonus, lastBonus, todayRtp, last30Rtp, todayBet, last30Bet);
    CountTrueAll(bs);
    BetSignalIsIntegerTest(todayBet, last30Bet);
    assert (forall i :: 0 <= i < 5 ==> bs[i]) <==> bs[0] && bs[1] && bs[2] && bs[3] && bs[4];
  }

  /** The score is 0 exactly when none of the five conditions holds. */
  lemma ScoreZeroIff(noBonus: int, lastBonus: int, secondLastBonus: int, todayRtp: real,
                     last30Rtp: real, todayBet: int, last30Bet: int)
    ensures Score(noBonus, lastBonus, secondLastBonus, todayRtp, last30Rtp, todayBet, last30Bet) == 0
        <==> noBonus <= NoBonusLimit && lastBonus <= LastBonusLimit && todayRtp >= LowRtp
             && todayBet * WindowDays >= last30Bet && last30Rtp <= todayRtp
  {
    var bs := Signals(noBonus, lastBonus, todayRtp, last30Rtp, todayBet, last30Bet);
    CountTrueNone(bs);
    BetSignalIsIntegerTest(todayBet, last30Bet);
    assert (forall i :: 0 <= i < 5 ==> !bs[i]) <==> !bs[0] && !bs[1] && !bs[2] && !bs[3] && !bs[4];
  }

  /** A session that is "more due" in every input never scores lower: more
      spins since a bonus, a later last bonus, a lower RTP today, a higher
      30-day RTP, a smaller bet today, a larger 30-day bet total. */
  lemma ScoreMonotone(nb1: int, lb1: int, sl1: int, tr1: real, mr1: real, tb1: int, mb1: int,
                      nb2: int, lb2: int, sl2: int, tr2: real, mr2: real, tb2: int, mb2: int)
    requires nb1 <= nb2 && lb1 <= lb2 && tr2 <= tr1 && mr1 <= mr2 && tb2 <= tb1 && mb1 <= mb2
    ensures Score(nb1, lb1, sl1, tr1, mr1, tb1, mb1) <= Score(nb2, lb2, sl2, tr2, mr2, tb2, mb2)
  {
    BetSignalIsIntegerTest(tb1, mb1);
    BetSignalIsIntegerTest(tb2, mb2);
    CountTrueMonotone(Signals(nb1, lb1, tr1, mr1, tb1, mb1), Signals(nb2, lb2, tr2, mr2, tb2, mb2));
  }
}
