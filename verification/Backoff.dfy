/** The idle backoff policy of `pretender/backoff.py`: configuration in, verdict out. */
module Backoff {
  import opened Prelude

  /** Terminal end reasons. Only the first three count as an idle cycle. */
  datatype EndReason =
    | PlannerNoToolEnd
    | PlannerWaitRest
    | ToolPauseWait
    | DryRunTrigger
    | SkipEnd
    | OtherEnd(name: string)

  datatype Bypass = NotGroup | Focus | HardTrigger | HighPending | NonIdle | ExpiredHold

  datatype Facts = Facts(applied: bool, seconds: real, bypass: Option<Bypass>)

  datatype Controller = Controller(baseS: real, capS: real, startCount: nat, threshold: int)

  ghost predicate Configured(c: Controller) { 0.0 <= c.baseS <= c.capS }

  function Pow2(n: nat): (p: real)
    ensures p >= 1.0
  {
    if n == 0 then 1.0 else 2.0 * Pow2(n - 1)
  }

  function Exponential(c: Controller, n: nat): real { c.baseS * Pow2(n) }

  function Seconds(c: Controller, streak: nat): real {
    if streak < c.startCount then 0.0
    else
      var n := streak - c.startCount;
      if c.baseS > 0.0 && Exponential(c, n) >= c.capS then c.capS
      else MinReal(c.capS, Exponential(c, n))
  }

  predicate IsIdleEnd(end: Option<EndReason>) {
    end.Some? && (end.value.PlannerNoToolEnd? || end.value.PlannerWaitRest? || end.value.ToolPauseWait?)
  }

  function ResetBypass(c: Controller, focused: bool, hard: bool, pending: int): Option<Bypass> {
    if focused then Some(Focus)
    else if hard then Some(HardTrigger)
    else if pending >= c.threshold then Some(HighPending)
    else None
  }

  function Evaluate(c: Controller, streak: nat, isGroup: bool, end: Option<EndReason>,
                    focused: bool, pending: int, hard: bool): Facts {
    if !IsIdleEnd(end) then Facts(false, 0.0, Some(NonIdle))
    else
      var bypass := if !isGroup then Some(NotGroup) else ResetBypass(c, focused, hard, pending);
      if bypass.Some? then Facts(false, 0.0, bypass)
      else
        var s := Seconds(c, streak);
        if s <= 0.0 then Facts(false, 0.0, None) else Facts(true, s, None)
  }

  function NextStreak(
    c: Controller, streak: nat, end: Option<EndReason>, focused: bool, pending: int, hard: bool): nat
  {
    if !IsIdleEnd(end) || ResetBypass(c, focused, hard, pending).Some? then 0 else streak + 1
  }

  /** Backoff applies exactly to a group that ended idle, with nothing urgent, once the streak has
      begun and the base is positive. The streak grows by an idle end with nothing urgent, in a group or not,
      and starts over otherwise. */
  lemma {:induction false} AppliesIff(
    c: Controller, streak: nat, isGroup: bool, end: Option<EndReason>, focused: bool, pending: int, hard: bool)
    requires Configured(c)
    ensures var f := Evaluate(c, streak, isGroup, end, focused, pending, hard);
            && (f.applied <==> IsIdleEnd(end) && isGroup && !focused && !hard && pending < c.threshold
                               && streak >= c.startCount && c.baseS > 0.0)
            && (f.applied ==> 0.0 < f.seconds <= c.capS)
            && f.seconds == (if f.applied then Seconds(c, streak) else 0.0)
            && NextStreak(c, streak, end, focused, pending, hard)
               == (if IsIdleEnd(end) && !focused && !hard && pending < c.threshold then streak + 1 else 0)
  {
    SecondsMonotone(c, streak, streak);
    if streak >= c.startCount {
      var p := Pow2(streak - c.startCount);
      assert c.baseS > 0.0 ==> c.baseS * p > 0.0;
      assert c.baseS == 0.0 ==> c.baseS * p == 0.0;
    }
  }

  /** Waiting longer never shortens the backoff, and it never passes the cap. */
  lemma {:induction false} SecondsMonotone(c: Controller, s: nat, t: nat)
    requires Configured(c) && s <= t
    ensures 0.0 <= Seconds(c, s) <= Seconds(c, t) <= c.capS
    decreases t - s
  {
    if c.startCount <= s { ExponentialGrows(c, s - c.startCount); }
    if s < t { SecondsMonotone(c, s + 1, t); }
  }

  lemma {:induction false} ExponentialGrows(c: Controller, n: nat)
    requires Configured(c)
    ensures 0.0 <= Exponential(c, n) <= Exponential(c, n + 1)
  {
    var p := Pow2(n);
    assert Pow2(n + 1) == p + p;
    assert c.baseS * p >= 0.0;
    assert c.baseS * (p + p) == c.baseS * p + c.baseS * p;
  }
}
