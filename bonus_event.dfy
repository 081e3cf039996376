/** The RTP of one bonus-stage event (app.py, `bonus_event`): the win over
    the bet, guarded so that a bet of zero or less gives 0 instead of a
    division. */
module BonusEvent {

  /** `win / bet if bet > 0 else 0`, as an exact quotient. */
  function DeriveRtp(bet: int, win: int): (rtp: real)
    ensures 0 < bet ==> rtp * (bet as real) == win as real
    ensures bet <= 0 ==> rtp == 0.0
  {
    if bet > 0 then (win as real) / (bet as real) else 0.0
  }

  /** A non-negative win never gives a negative RTP. */
  lemma DerivedRtpNonNegative(bet: int, win: int)
    requires 0 <= win
    ensures 0.0 <= DeriveRtp(bet, win)
  {
  }

  /** For a positive bet the RTP exceeds 1 exactly when the win exceeds the bet. */
  lemma DerivedRtpAboveOne(bet: int, win: int)
    requires 0 < bet
    ensures DeriveRtp(bet, win) > 1.0 <==> win > bet
  {
    var r := DeriveRtp(bet, win);
    if r > 1.0 {
      assert r * (bet as real) > 1.0 * (bet as real);
    }
    if win > bet {
      assert r * (bet as real) > 1.0 * (bet as real);
    }
  }

  /** Scaling bet and win by the same positive factor leaves the RTP unchanged. */
  lemma DerivedRtpScaleInvariant(bet: int, win: int, k: int)
    requires 0 < k
    ensures DeriveRtp(k * bet, k * win) == DeriveRtp(bet, win)
  {
    if bet > 0 {
      assert k * bet > 0;
      var r, s := DeriveRtp(bet, win), DeriveRtp(k * bet, k * win);
      assert s * ((k * bet) as real) == (k * win) as real;
      assert (k as real) * (s * (bet as real)) == (k as real) * (r * (bet as real));
    } else {
      assert k * bet <= 0;
    }
  }

  /** A zero bet is a valid event with RTP 0, not a failure. */
  lemma ZeroBetGivesZeroRtp(win: int)
    ensures DeriveRtp(0, win) == 0.0
  {
  }
}
