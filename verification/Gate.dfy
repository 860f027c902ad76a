/**
 The turn gate of `pretender/gate.py`: one immutable snapshot in, one decision out.

 Features are an arbitrary function of the snapshot, so every statement here holds for the
 built-in features and for any registered one. Scores are reals; `Compose` rounds half to
 even.
*/
module Gate {
  import opened Prelude
  import opened Messages
  import opened Backoff

  datatype Mode = ReplyNecessity | Frequency

  datatype GateSnapshot = GateSnapshot(
    chatKey: string,
    cycleId: CycleId,
    startMsgId: nat,
    throughMsgId: nat,
    evaluatedTs: real,
    selfId: string,
    mode: Mode,
    threshold: int,
    triggerScore: int,
    frequency: real,
    pending: int,
    pendingMessages: seq<Message>,
    recent: seq<Message>,
    windowCount: int,
    selfCount: int,
    lastNonselfTs: Option<real>,
    idleSeconds: real,
    recentAverageInterval: real,
    selfRatio: real,
    isGroup: bool,
    isFocused: bool,
    selfName: Option<string>,
    selfAliases: seq<string>,
    muted: bool,
    hasDirectAt: bool,
    hasQuoteToSelf: bool,
    hasOtherAssistant: bool,
    holdUntil: Option<real>,
    idleStreak: nat,
    previousEndReason: Option<EndReason>,
    backoffBaseS: real,
    backoffCapS: real,
    backoffStartCount: nat)

  datatype CycleId = ReplayCycle(n: nat) | DispatchCycle(id: int) | LiveCycle(name: string)

  /** The checks a snapshot makes on construction. */
  predicate WellFormed(s: GateSnapshot) {
    && |s.pendingMessages| == s.pending
    && 0 <= s.selfCount <= s.windowCount
    && |s.recent| <= s.windowCount
    && 0.0 <= s.backoffBaseS <= s.backoffCapS
  }

  datatype Op = MaxOp | AddOp | ScaleOp | InvalidOp

  datatype Contribution = Contribution(feature: string, op: Op, value: real, error: Option<string>)

  type Features = GateSnapshot -> seq<Contribution>

  datatype Action = Trigger | Skip | Delay

  datatype Reason = Muted | Triggered | ModeTrigger | Refusal | FeatureFailure | Backoff | Delayed

  datatype Decision = Decision(action: Action, score: real, delaySeconds: Option<real>, pending: int, reason: Reason)

  /* ---- Composition ------------------------------------------------------ */

  datatype Totals = Totals(max: real, add: real, scale: real)

  function Absorb(c: Contribution, t: Totals): Totals {
    if c.error.Some? then t
    else match c.op
      case MaxOp => t.(max := MaxReal(c.value, t.max))
      case AddOp => t.(add := c.value + t.add)
      case ScaleOp => t.(scale := c.value * t.scale)
      case InvalidOp => t
  }

  function Aggregate(cs: seq<Contribution>): Totals {
    if cs == [] then Totals(0.0, 0.0, 1.0) else Absorb(cs[0], Aggregate(cs[1..]))
  }

  /** `n` is a whole number nearest to `x`, the even one of two. */
  predicate Nearest(x: real, n: int) {
    && n as real - 0.5 <= x <= n as real + 0.5
    && ((x == n as real - 0.5 || x == n as real + 0.5) ==> n % 2 == 0)
  }

  function RoundHalfEven(x: real): int {
    var f := x.Floor;
    var d := x - f as real;
    if d < 0.5 || (d == 0.5 && f % 2 == 0) then f else f + 1
  }

  function Scaled(x: real, scale: real): real { x * scale }

  function FinalScore(t: Totals): real {
    MaxReal(0.0, RoundHalfEven(Scaled(t.max + t.add, t.scale)) as real)
  }

  function Score(cs: seq<Contribution>): real { FinalScore(Aggregate(cs)) }

  lemma {:induction false} AbsorbCommutes(a: Contribution, b: Contribution, t: Totals)
    ensures Absorb(a, Absorb(b, t)) == Absorb(b, Absorb(a, t))
  {
    if a.error.None? && b.error.None? && a.op == b.op == ScaleOp {
      var x, y, z := a.value, b.value, t.scale;
      assert x * (y * z) == (x * y) * z == y * (x * z);
    }
  }

  lemma {:induction false} PullToFront(cs: seq<Contribution>, i: nat)
    requires i < |cs|
    ensures Aggregate(cs) == Absorb(cs[i], Aggregate(cs[..i] + cs[i + 1..]))
  {
    if i == 0 {
      assert cs[..0] + cs[1..] == cs[1..];
    } else {
      var rest := cs[1..];
      PullToFront(rest, i - 1);
      var gone := rest[..i - 1] + rest[i..];
      assert cs[..i] + cs[i + 1..] == [cs[0]] + gone;
      AbsorbCommutes(cs[0], cs[i], Aggregate(gone));
    }
  }

  /** Registration order never changes the score. */
  lemma {:induction false} OrderNeverMatters(a: seq<Contribution>, b: seq<Contribution>)
    requires multiset(a) == multiset(b)
    ensures Aggregate(a) == Aggregate(b) && Score(a) == Score(b)
  {
    if a == [] {
      assert |multiset(b)| == 0;
    } else {
      var i, rest := RemoveHead(a, b);
      OrderNeverMatters(a[1..], rest);
      PullToFront(b, i);
    }
  }

  /** The head of `a` occurs in `b`, and removing both keeps the multisets equal. */
  lemma RemoveHead(a: seq<Contribution>, b: seq<Contribution>) returns (i: nat, rest: seq<Contribution>)
    requires a != [] && multiset(a) == multiset(b)
    ensures i < |b| && b[i] == a[0] && rest == b[..i] + b[i + 1..]
    ensures multiset(a[1..]) == multiset(rest)
  {
    assert a[0] in multiset(b);
    i :| 0 <= i < |b| && b[i] == a[0];
    rest := b[..i] + b[i + 1..];
    assert a == [a[0]] + a[1..];
    assert b == b[..i] + ([b[i]] + b[i + 1..]);
    assert multiset(a[1..]) == multiset(a) - multiset{a[0]};
    assert multiset(rest) == multiset(b) - multiset{a[0]};
  }

  /* ---- Idle compensation and delays -------------------------------------- */

  predicate IdleIsClamped(s: GateSnapshot) { s.lastNonselfTs.None? }

  function CappedVirtual(s: GateSnapshot): real {
    if s.recentAverageInterval <= 0.0 then 0.0
    else
      MinReal(MaxReal(s.idleSeconds / s.recentAverageInterval, 0.0), Max(s.threshold - 1, 0) as real)
  }

  function ReplyDelay(s: GateSnapshot): Option<real> {
    if IdleIsClamped(s) then None
    else
      var avg := s.recentAverageInterval;
      if s.pending > 0 && avg > 0.0 && s.idleSeconds < avg then Some(avg - s.idleSeconds) else None
  }

  function FrequencyDelay(s: GateSnapshot): Option<real> {
    if IdleIsClamped(s) then None
    else
      var avg := s.recentAverageInterval;
      if s.pending > 0 && avg > 0.0 && s.pending < s.threshold
      then Some(MaxReal(0.0, avg * (s.threshold - s.pending) as real - s.idleSeconds))
      else None
  }

  /** The condition under which the pressure feature adds its idle bonus. */
  predicate IdleBonusActive(s: GateSnapshot) {
    && s.pending > 0
    && s.recentAverageInterval > 0.0
    && (s.idleSeconds >= s.recentAverageInterval || IdleIsClamped(s))
  }

  /* ---- The decision ------------------------------------------------------ */

  predicate HardTriggered(s: GateSnapshot) { s.hasDirectAt || s.hasQuoteToSelf }

  function BackoffFacts(s: GateSnapshot): Facts {
    if s.holdUntil.Some? && s.holdUntil.value > s.evaluatedTs then
      if s.isFocused then Facts(false, 0.0, Some(Focus))
      else if s.pending >= s.threshold then Facts(false, 0.0, Some(HighPending))
      else Facts(true, s.holdUntil.value - s.evaluatedTs, None)
    else if s.holdUntil.Some? then Facts(false, 0.0, Some(ExpiredHold))
    else
      Evaluate(Controller(s.backoffBaseS, s.backoffCapS, s.backoffStartCount, s.threshold),
               s.idleStreak, s.isGroup, s.previousEndReason, s.isFocused, s.pending, HardTriggered(s))
  }

  predicate AnyError(cs: seq<Contribution>) { exists i :: 0 <= i < |cs| && cs[i].error.Some? }

  /** Mode selection alone: would this snapshot trigger in its mode? */
  predicate ModeTriggers(s: GateSnapshot, score: real) {
    match s.mode
    case ReplyNecessity => score >= s.triggerScore as real
    case Frequency => s.pending as real + CappedVirtual(s) >= s.threshold as real
  }

  function ModeDelay(s: GateSnapshot): Option<real> {
    if s.mode.ReplyNecessity? then ReplyDelay(s) else FrequencyDelay(s)
  }

  function Decide(s: GateSnapshot, cs: seq<Contribution>): Decision {
    var score := Score(cs);
    if s.muted then Decision(Skip, score, None, s.pending, Muted)
    else if HardTriggered(s) then Decision(Trigger, MaxReal(100.0, score), None, s.pending, Triggered)
    else if s.hasOtherAssistant then Decision(Skip, score, None, s.pending, Refusal)
    else if AnyError(cs) then Decision(Delay, score, None, s.pending, FeatureFailure)
    else if BackoffFacts(s).applied then Decision(Delay, score, Some(BackoffFacts(s).seconds), s.pending, Backoff)
    else if s.mode.ReplyNecessity? then
      if ModeTriggers(s, score) then Decision(Trigger, score, None, s.pending, Triggered)
      else Decision(Delay, score, ReplyDelay(s), s.pending, Delayed)
    else if ModeTriggers(s, score) then Decision(Trigger, score, None, s.pending, ModeTrigger)
    else Decision(Delay, score, FrequencyDelay(s), s.pending, Delayed)
  }

  function EvaluateGate(features: Features, s: GateSnapshot): Decision { Decide(s, features(s)) }

  /** The precedence, read off the outcome: what triggers, what skips, what delays and why. */
  lemma Precedence(s: GateSnapshot, cs: seq<Contribution>)
    ensures var d, open := Decide(s, cs), !AnyError(cs) && !BackoffFacts(s).applied;
            && (d.action == Trigger
               <==> !s.muted && (HardTriggered(s) || (!s.hasOtherAssistant && open && ModeTriggers(s, d.score))))
            && (d.action == Skip <==> s.muted || (s.hasOtherAssistant && !HardTriggered(s)))
            && (d.action == Delay && d.delaySeconds.Some? && d.delaySeconds.value > 0.0 && d.reason != Backoff
                ==> open && !ModeTriggers(s, d.score) && ModeDelay(s) == d.delaySeconds)
            && d.score == (if HardTriggered(s) && !s.muted && Score(cs) < 100.0 then 100.0 else Score(cs))
            && d.pending == s.pending && (d.reason == Muted <==> s.muted)
            && (d.reason == Refusal <==> d.action == Skip && !s.muted)
            && (d.reason == FeatureFailure <==> d.action == Delay && AnyError(cs))
            && (d.reason == ModeTrigger <==> d.action == Trigger && s.mode.Frequency? && !HardTriggered(s))
  {
  }

  /** Silence never speaks first: without a pending message only a hard trigger or the score
      can make the bot speak, so frequency mode stays quiet however long the chat idles. */
  lemma SilenceNeverSpeaksFirst(s: GateSnapshot, cs: seq<Contribution>)
    requires s.mode.Frequency? && s.pending <= 0 && s.threshold >= 1 && !HardTriggered(s)
    ensures Decide(s, cs).action != Trigger
    ensures Decide(s, cs).delaySeconds.Some? ==> Decide(s, cs).reason == Backoff
  {
  }

  /** A durable hold is never extended or minted: a backoff delay that stems from a hold ends
      exactly at the hold, and an expired hold yields no backoff delay at all. */
  lemma HoldsNeverExtend(s: GateSnapshot, cs: seq<Contribution>)
    requires s.holdUntil.Some?
    ensures var d := Decide(s, cs);
            d.reason == Backoff ==>
              s.holdUntil.value > s.evaluatedTs && d.delaySeconds == Some(s.holdUntil.value - s.evaluatedTs)
    ensures s.holdUntil.value <= s.evaluatedTs ==> Decide(s, cs).reason != Backoff
  {
  }

  /** A timed delay that is not a backoff needs a measured idle and a pending message. */
  lemma TimedDelaysAreEarned(s: GateSnapshot, cs: seq<Contribution>)
    ensures var d := Decide(s, cs);
            d.delaySeconds.Some? && d.reason != Backoff ==>
              && d.action == Delay
              && s.lastNonselfTs.Some? && s.pending > 0 && s.recentAverageInterval > 0.0
              && d.delaySeconds == ModeDelay(s)
              && !ModeTriggers(s, d.score)
  {
  }

  /** What is left to wait gets the delay of its mode, and its mode does not trigger. */
  lemma {:induction false} DelayedIsModeDelay(s: GateSnapshot, cs: seq<Contribution>)
    requires Decide(s, cs).reason == Delayed
    ensures Decide(s, cs).delaySeconds == ModeDelay(s) && !ModeTriggers(s, Decide(s, cs).score)
  {
  }

  /* ---- What a delay waits for --------------------------------------------- */

  /** The same batch looked at `y` seconds later, with nothing else changed. */
  function Later(s: GateSnapshot, y: real): GateSnapshot {
    s.(evaluatedTs := s.evaluatedTs + y, idleSeconds := s.idleSeconds + y)
  }

  /** What a delay waits for: in reply mode the idle bonus, in frequency mode the trigger. */
  predicate Awaited(s: GateSnapshot, score: real) {
    if s.mode.ReplyNecessity? then IdleBonusActive(s) else ModeTriggers(s, score)
  }

  /** A positive delay that is not a backoff is the shortest wait: as long as nothing is committed,
      what it waits for holds exactly from its end on. */
  lemma {:induction false} DelayIsShortestWait(s: GateSnapshot, cs: seq<Contribution>, y: real, score: real)
    requires var d := Decide(s, cs); d.delaySeconds.Some? && d.delaySeconds.value > 0.0 && d.reason != Backoff
    requires y >= 0.0
    ensures Awaited(Later(s, y), score) <==> y >= Decide(s, cs).delaySeconds.value
  {
    TimedDelaysAreEarned(s, cs);
    if s.mode.Frequency? { FrequencyWaits(s, y, score); }
  }

  lemma {:induction false} FrequencyWaits(s: GateSnapshot, y: real, score: real)
    requires s.mode.Frequency? && s.lastNonselfTs.Some? && s.recentAverageInterval > 0.0
    requires 0 < s.pending < s.threshold && FrequencyDelay(s).Some? && FrequencyDelay(s).value > 0.0 && y >= 0.0
    ensures ModeTriggers(Later(s, y), score) <==> y >= FrequencyDelay(s).value
  {
    var avg, idle, t := s.recentAverageInterval, s.idleSeconds + y, Later(s, y);
    VirtualReaches(avg, idle, s.threshold - s.pending);
    assert CappedVirtual(t) == MinReal(MaxReal(idle / avg, 0.0), Max(s.threshold - 1, 0) as real);
  }

  /** The virtual messages of an idle time are worth `k` or more exactly from `avg * k` on. */
  lemma {:induction false} VirtualReaches(avg: real, idle: real, k: int)
    requires avg > 0.0
    ensures idle / avg >= k as real <==> idle >= avg * k as real
  {
    var v := idle / avg;
    assert v * avg == idle;
    var w := k as real;
    if v >= w { assert (v - w) * avg >= 0.0; } else { assert (w - v) * avg > 0.0; }
  }
}
