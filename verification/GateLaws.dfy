/**
 What the numbers of the gate mean: the score of its features, when a delay is armed, the seconds of a
 backoff, and the weights in the message-interval average.
*/
module GateLaws {
  import opened Prelude
  import opened Messages
  import opened Pacing
  import opened Backoff
  import opened Gate

  /* ---- The score ---------------------------------------------------------------------------- */

  lemma {:induction false} AggregateHead(c: Contribution, rest: seq<Contribution>)
    ensures Aggregate([c] + rest) == Absorb(c, Aggregate(rest))
  {
    assert ([c] + rest)[1..] == rest;
  }

  lemma {:induction false} HeadOfBoth(a: seq<Contribution>, b: seq<Contribution>)
    requires a != []
    ensures Aggregate(a) == Absorb(a[0], Aggregate(a[1..]))
    ensures Aggregate(a + b) == Absorb(a[0], Aggregate(a[1..] + b))
  {
    assert a + b == [a[0]] + (a[1..] + b);
    AggregateHead(a[0], a[1..] + b);
  }

  lemma {:induction false} SumsJoin(a: seq<Contribution>, b: seq<Contribution>)
    ensures Aggregate(a + b).max == MaxReal(Aggregate(a).max, Aggregate(b).max)
    ensures Aggregate(a + b).add == Aggregate(a).add + Aggregate(b).add
  {
    if a == [] {
      assert a + b == b;
      TotalsStart(b);
    } else {
      HeadOfBoth(a, b);
      SumsJoin(a[1..], b);
    }
  }

  /** The scale of a contribution. */
  function Factor(c: Contribution): real { if c.error.None? && c.op == ScaleOp then c.value else 1.0 }

  lemma {:induction false} AbsorbScales(c: Contribution, t: Totals)
    ensures Absorb(c, t).scale == Factor(c) * t.scale
  {
  }

  function Product(cs: seq<Contribution>): real {
    if cs == [] then 1.0 else Factor(cs[0]) * Product(cs[1..])
  }

  lemma {:induction false} ScaleIsProduct(cs: seq<Contribution>)
    ensures Aggregate(cs).scale == Product(cs)
  {
    if cs != [] {
      ScaleIsProduct(cs[1..]);
      AbsorbScales(cs[0], Aggregate(cs[1..]));
    }
  }

  /** Features add up: the totals of two lists are the greater maximum and the sum, and the scale is the
      product of the factors. */
  lemma {:induction false} TotalsJoin(a: seq<Contribution>, b: seq<Contribution>)
    ensures Aggregate(a + b).max == MaxReal(Aggregate(a).max, Aggregate(b).max)
    ensures Aggregate(a + b).add == Aggregate(a).add + Aggregate(b).add
    ensures Aggregate(a).scale == Product(a)
  {
    SumsJoin(a, b);
    ScaleIsProduct(a);
  }

  lemma {:induction false} TotalsStart(cs: seq<Contribution>)
    ensures Aggregate(cs).max >= 0.0
  {
    if cs != [] { TotalsStart(cs[1..]); }
  }

  /** One feature alone: a floor of zero for the maximum, nothing to add and a scale of one, each replaced
      by the value of a contribution of its kind; a failed contribution counts for nothing. */
  lemma {:induction false} TotalsOfOne(c: Contribution)
    ensures var t, counts := Aggregate([c]), c.error.None?;
            && t.max == (if counts && c.op == MaxOp && c.value > 0.0 then c.value else 0.0)
            && t.add == (if counts && c.op == AddOp then c.value else 0.0)
            && t.scale == (if counts && c.op == ScaleOp then c.value else 1.0)
  {
    assert [c][1..] == [];
    assert Aggregate([]) == Totals(0.0, 0.0, 1.0);
  }

  lemma {:induction false} NearestIsUnique(x: real, m: int, n: int)
    requires Nearest(x, m) && Nearest(x, n)
    ensures m == n
  {
    assert -1.0 <= m as real - n as real <= 1.0;
    assert -1 <= m - n <= 1;
    assert m != n + 1 && n != m + 1;
  }

  lemma {:induction false} RoundsToNearest(x: real)
    ensures Nearest(x, RoundHalfEven(x))
  {
    var f := x.Floor;
    assert f as real <= x < f as real + 1.0;
  }

  lemma {:induction false} FinalIsNearest(t: Totals, n: int)
    requires Nearest((t.max + t.add) * t.scale, n)
    ensures FinalScore(t) == Max(0, n) as real
  {
    var raw := Scaled(t.max + t.add, t.scale);
    RoundsToNearest(raw);
    NearestIsUnique(raw, n, RoundHalfEven(raw));
  }

  /** The score is the whole number nearest to maximum plus sum, times the scale, but never negative. */
  lemma {:induction false} ScoreIsNearest(cs: seq<Contribution>, n: int)
    requires Nearest((Aggregate(cs).max + Aggregate(cs).add) * Aggregate(cs).scale, n)
    ensures Score(cs) == Max(0, n) as real
  {
    FinalIsNearest(Aggregate(cs), n);
  }

  /* ---- Delays ---------------------------------------------------------------------------------- */

  lemma {:induction false} FrequencyArmsIff(s: GateSnapshot)
    requires s.mode.Frequency? && s.recentAverageInterval > 0.0 && s.pending > 0 && s.pending < s.threshold
    ensures s.recentAverageInterval * (s.threshold - s.pending) as real - s.idleSeconds > 0.0
            <==> CappedVirtual(s) < (s.threshold - s.pending) as real
  {
    VirtualReaches(s.recentAverageInterval, s.idleSeconds, s.threshold - s.pending);
  }

  lemma {:induction false} ModeArmsIff(s: GateSnapshot, score: real)
    requires !ModeTriggers(s, score)
    ensures ModeDelay(s).Some? && ModeDelay(s).value > 0.0 <==>
              && s.lastNonselfTs.Some? && s.pending > 0 && s.recentAverageInterval > 0.0
              && !Awaited(s, score)
  {
    if s.mode.Frequency? && s.recentAverageInterval > 0.0 && s.pending > 0 && s.pending < s.threshold {
      FrequencyArmsIff(s);
    }
  }

  /** An evaluation that is left to wait arms a wake exactly if the idle time is measured, something is
      pending, there is an average, and what a wait could bring is not there yet. */
  lemma {:induction false} DelayArmsIff(s: GateSnapshot, cs: seq<Contribution>)
    requires Decide(s, cs).reason == Delayed
    ensures var d := Decide(s, cs);
            d.delaySeconds.Some? && d.delaySeconds.value > 0.0 <==>
              && s.lastNonselfTs.Some? && s.pending > 0 && s.recentAverageInterval > 0.0
              && !Awaited(s, d.score)
  {
    DelayedIsModeDelay(s, cs);
    ModeArmsIff(s, Decide(s, cs).score);
  }

  /** A hold puts off a decision exactly while it lasts, the chat is not in focus and not enough is pending;
      without a hold the idle streak decides; and nothing is put off that was addressed to the bot, is
      refused anyway, or whose features failed. */
  lemma {:induction false} PutOffIff(s: GateSnapshot, cs: seq<Contribution>)
    requires WellFormed(s)
    ensures Decide(s, cs).reason == Reason.Backoff <==>
              && !s.muted && !s.hasDirectAt && !s.hasQuoteToSelf && !s.hasOtherAssistant
              && (forall i :: 0 <= i < |cs| ==> cs[i].error.None?)
              && !s.isFocused && s.pending < s.threshold
              && (if s.holdUntil.Some? then s.holdUntil.value > s.evaluatedTs
                  else s.isGroup && IsIdleEnd(s.previousEndReason) && s.idleStreak >= s.backoffStartCount
                       && s.backoffBaseS > 0.0)
  {
    AppliesIff(Controller(s.backoffBaseS, s.backoffCapS, s.backoffStartCount, s.threshold), s.idleStreak, s.isGroup,
               s.previousEndReason, s.isFocused, s.pending, HardTriggered(s));
  }

  /* ---- Backoff ---------------------------------------------------------------------------------- */

  /** Before the streak counts there is no backoff, then it is the base, and each further idle end doubles
      it, always up to the cap. */
  lemma {:induction false} BackoffDoubles(c: Controller, streak: nat)
    requires Backoff.Configured(c)
    ensures streak < c.startCount ==> Seconds(c, streak) == 0.0
    ensures Seconds(c, c.startCount) == MinReal(c.capS, c.baseS)
    ensures streak >= c.startCount ==> Seconds(c, streak + 1) == MinReal(c.capS, 2.0 * Seconds(c, streak))
  {
    var n := if streak >= c.startCount then streak - c.startCount else 0;
    ExponentialDoubles(c, n);
    SecondsAre(c, 0);
    SecondsAre(c, n);
    SecondsAre(c, n + 1);
  }

  lemma {:induction false} SecondsAre(c: Controller, n: nat)
    ensures Seconds(c, c.startCount + n) == MinReal(c.capS, Exponential(c, n))
  {
  }

  lemma {:induction false} ExponentialDoubles(c: Controller, n: nat)
    requires Backoff.Configured(c)
    ensures Exponential(c, 0) == c.baseS && Exponential(c, n + 1) == 2.0 * Exponential(c, n) && Exponential(c, n) >= 0.0
  {
    var p := Pow2(n);
    assert Pow2(n + 1) == 2.0 * p && Pow2(0) == 1.0;
    assert c.baseS * (2.0 * p) == 2.0 * (c.baseS * p) && c.baseS * p >= 0.0;
  }

  /* ---- The average ---------------------------------------------------------------------------------- */

  /** The first gap and the later ones, each with twice the weight of the one before it. */
  function Weighted(gaps: seq<real>): real {
    if gaps == [] then 0.0
    else if |gaps| == 1 then gaps[0]
    else Weighted(gaps[..|gaps| - 1]) + Pow2(|gaps| - 2) * gaps[|gaps| - 1]
  }

  /** The average over some gaps is their weighted sum: the newest counts for a half, the one before it for
      a quarter and so on, and the oldest as much as the second. */
  lemma {:induction false} AverageIsWeighted(gaps: seq<real>)
    requires gaps != []
    ensures Ewma(None, gaps).Some? && Pow2(|gaps| - 1) * Ewma(None, gaps).value == Weighted(gaps)
  {
    var n := |gaps| - 1;
    if n == 0 {
      assert Ewma(None, gaps[..0]) == None && Pow2(0) == 1.0;
    } else {
      AverageIsWeighted(gaps[..n]);
      HalfAndHalf(Pow2(n - 1), gaps[n], Ewma(None, gaps[..n]).value);
      assert Pow2(n) == 2.0 * Pow2(n - 1);
    }
  }

  lemma {:induction false} HalfAndHalf(p: real, gap: real, avg: real)
    ensures 2.0 * p * Blend(gap, avg) == p * avg + p * gap
  {
    assert 2.0 * p * (0.5 * gap + 0.5 * avg) == p * gap + p * avg;
  }
}
