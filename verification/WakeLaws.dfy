/**
 When a corpus replay evaluates: a statement of every evaluation time in terms of the commits and of the
 evaluations before it. Together with what an evaluation sees, it determines the run.
*/
module WakeLaws {
  import opened Prelude
  import opened Messages
  import opened Gate
  import opened Snapshot
  import opened Replay
  import opened ReplayRun
  import opened ReplayLaws

  /* ---- Times ------------------------------------------------------------------------------ */

  predicate Evaluated(traces: seq<Trace>, t: real) {
    exists k :: 0 <= k < |traces| && traces[k].snapshot.evaluatedTs == t
  }

  /** The wake a delay arms. */
  function WakeOf(t: Trace): Option<real> {
    if t.decision.action == Delay && t.decision.delaySeconds.Some? && t.decision.delaySeconds.value > 0.0
    then Some(t.snapshot.evaluatedTs + t.decision.delaySeconds.value)
    else None
  }

  /** The wake armed by the last evaluation before `t`. */
  function ArmedBefore(traces: seq<Trace>, t: real): Option<real> {
    if traces == [] then None
    else if traces[|traces| - 1].snapshot.evaluatedTs < t then WakeOf(traces[|traces| - 1])
    else ArmedBefore(traces[..|traces| - 1], t)
  }

  /** The i-th commit comes from somebody else, and the clock shows `t` when it is placed. */
  predicate Arrives(all: seq<Commit>, i: int, t: real) {
    0 <= i < |all| && !all[i].message.isSelf && ClockAt(all, i) == t
  }

  ghost predicate InboundAt(all: seq<Commit>, t: real) { exists i :: Arrives(all, i, t) }

  /** A message that arrives at `t` mentions the bot or answers something. */
  ghost predicate AddressedAt(env: Env, all: seq<Commit>, t: real) {
    exists i :: Arrives(all, i, t) && (env.selfId in all[i].message.mentions || all[i].message.replyTo.Some?)
  }

  function Stored(all: seq<Commit>, i: nat): Message
    requires i < |all|
  {
    all[i].message.(rowId := Some(i + 1))
  }

  /** A terminal decision before `t` took the message. */
  predicate TakenEarlier(traces: seq<Trace>, t: real, m: Message) {
    exists k :: 0 <= k < |traces| && traces[k].snapshot.evaluatedTs < t && Terminal(traces[k]) && InBatch(traces[k], m)
  }

  /** The messages of others that are committed by `t` and were not taken before. */
  function Backlog(all: seq<Commit>, traces: seq<Trace>, t: real): set<nat> {
    set i: nat | i < |all| && !all[i].message.isSelf && ClockAt(all, i) <= t && !TakenEarlier(traces, t, Stored(all, i))
  }

  /** The gate is due at `t`: the wake armed before falls on it; or somebody's message arrives then, and no
      wake is armed, or the message is for the bot, or the backlog has reached the threshold. */
  ghost predicate Expected(env: Env, all: seq<Commit>, traces: seq<Trace>, t: real) {
    || ArmedBefore(traces, t) == Some(t)
    || (InboundAt(all, t)
        && (ArmedBefore(traces, t).None? || AddressedAt(env, all, t) || |Backlog(all, traces, t)| >= env.cfg.threshold))
  }

  ghost predicate LawAt(env: Env, all: seq<Commit>, traces: seq<Trace>, t: real) {
    Evaluated(traces, t) <==> Expected(env, all, traces, t)
  }

  ghost predicate Below(traces: seq<Trace>, t: real) {
    forall k :: 0 <= k < |traces| ==> traces[k].snapshot.evaluatedTs < t
  }

  function LastWake(traces: seq<Trace>): Option<real> {
    if traces == [] then None else WakeOf(traces[|traces| - 1])
  }

  lemma {:induction false} ArmedIsLast(traces: seq<Trace>, t: real)
    requires Below(traces, t)
    ensures ArmedBefore(traces, t) == LastWake(traces)
  {
  }

  /** An evaluation at `t` or later changes nothing that is expected at `t`. */
  lemma {:induction false} ExpectedStays(env: Env, all: seq<Commit>, traces: seq<Trace>, tr: Trace, t: real)
    requires tr.snapshot.evaluatedTs >= t
    ensures Expected(env, all, traces + [tr], t) <==> Expected(env, all, traces, t)
    ensures Evaluated(traces + [tr], t) <==> Evaluated(traces, t) || tr.snapshot.evaluatedTs == t
  {
    var more := traces + [tr];
    assert more[|traces|] == tr && more[..|more| - 1] == traces;
    assert forall k :: 0 <= k < |traces| ==> more[k] == traces[k];
    assert ArmedBefore(more, t) == ArmedBefore(traces, t);
    forall m ensures TakenEarlier(more, t, m) <==> TakenEarlier(traces, t, m) { TakenStays(traces, tr, t, m); }
    assert Backlog(all, more, t) == Backlog(all, traces, t);
  }

  lemma {:induction false} TakenStays(traces: seq<Trace>, tr: Trace, t: real, m: Message)
    requires tr.snapshot.evaluatedTs >= t
    ensures TakenEarlier(traces + [tr], t, m) <==> TakenEarlier(traces, t, m)
  {
    var more := traces + [tr];
    assert more[|traces|] == tr;
    if k :| 0 <= k < |traces| && traces[k].snapshot.evaluatedTs < t && Terminal(traces[k]) && InBatch(traces[k], m) {
      assert more[k] == traces[k];
    }
  }

  lemma {:induction false} LawStays(env: Env, all: seq<Commit>, traces: seq<Trace>, tr: Trace, t: real)
    requires LawAt(env, all, traces, t) && t < tr.snapshot.evaluatedTs
    ensures LawAt(env, all, traces + [tr], t)
  {
    ExpectedStays(env, all, traces, tr, t);
  }

  /** No commit is placed at `t`. */
  ghost predicate NoneAt(all: seq<Commit>, t: real) { forall i :: 0 <= i < |all| ==> ClockAt(all, i) != t }

  lemma {:induction false} LawOfQuiet(env: Env, all: seq<Commit>, traces: seq<Trace>, t: real)
    requires Below(traces, t) && LastWake(traces) != Some(t) && NoneAt(all, t)
    ensures LawAt(env, all, traces, t)
  {
    ArmedIsLast(traces, t);
  }

  /* ---- The schedule -------------------------------------------------------------------------- */

  /** The law holds up to `front`, apart from a wake that is still to fire there; `placed` commits lie at or
      before it. */
  ghost predicate Sched(env: Env, all: seq<Commit>, placed: nat, traces: seq<Trace>, wake: Option<real>, front: real) {
    && placed <= |all| && wake == LastWake(traces)
    && (forall k :: 0 <= k < |traces| ==> traces[k].snapshot.evaluatedTs <= front)
    && (wake.Some? ==> wake.value >= front && Below(traces, wake.value))
    && (forall i :: 0 <= i < placed ==> ClockAt(all, i) <= front)
    && (forall t :: t <= front && wake != Some(t) ==> LawAt(env, all, traces, t))
  }

  /** Every commit still to be placed lies at or after `t`. */
  ghost predicate RestFrom(all: seq<Commit>, placed: nat, t: real) {
    placed <= |all| && (placed < |all| ==> ClockAt(all, placed) >= t)
  }

  lemma {:induction false} NothingBetween(all: seq<Commit>, placed: nat, front: real, end: real, t: real)
    requires RestFrom(all, placed, end) && (forall i :: 0 <= i < placed ==> ClockAt(all, i) <= front)
    requires front < t < end
    ensures NoneAt(all, t)
  {
    forall i | 0 <= i < |all| ensures ClockAt(all, i) != t {
      if i >= placed { ClockMonotone(all, placed, i); }
    }
  }

  /** Up to the next event the law holds, as nothing happens. */
  lemma {:induction false} LawUntil(
    env: Env, all: seq<Commit>, placed: nat, traces: seq<Trace>, wake: Option<real>, front: real, end: real, t: real)
    requires Sched(env, all, placed, traces, wake, front) && RestFrom(all, placed, end) && t < end
    requires wake.Some? ==> wake.value >= end
    ensures LawAt(env, all, traces, t)
  {
    if t > front {
      NothingBetween(all, placed, front, end, t);
      LawOfQuiet(env, all, traces, t);
    }
  }

  lemma {:induction false} LawAtWake(env: Env, all: seq<Commit>, traces: seq<Trace>, tr: Trace, w: real)
    requires Below(traces, w) && LastWake(traces) == Some(w) && tr.snapshot.evaluatedTs == w
    ensures LawAt(env, all, traces + [tr], w)
  {
    ArmedIsLast(traces, w);
    ExpectedStays(env, all, traces, tr, w);
  }

  /** The armed wake fires before the next commit. */
  lemma {:induction false} SchedFires(
    env: Env, all: seq<Commit>, placed: nat, traces: seq<Trace>, w: real, front: real, tr: Trace)
    requires Sched(env, all, placed, traces, Some(w), front) && RestFrom(all, placed, w) && tr.snapshot.evaluatedTs == w
    ensures Sched(env, all, placed, traces + [tr], WakeOf(tr), w)
  {
    var more := traces + [tr];
    assert more[|traces|] == tr && forall k :: 0 <= k < |traces| ==> more[k] == traces[k];
    forall t | t <= w ensures LawAt(env, all, more, t) {
      if t < w {
        LawUntil(env, all, placed, traces, Some(w), front, w, t);
        LawStays(env, all, traces, tr, t);
      } else {
        LawAtWake(env, all, traces, tr, w);
      }
    }
  }

  /** A group is placed at `ct` and the gate evaluates it, as expected. */
  lemma {:induction false} SchedEvaluates(
    env: Env, all: seq<Commit>, placed: nat, traces: seq<Trace>, ct: real, tr: Trace)
    requires (forall t :: t < ct ==> LawAt(env, all, traces, t)) && Below(traces, ct)
    requires placed <= |all| && (forall i :: 0 <= i < placed ==> ClockAt(all, i) <= ct)
    requires tr.snapshot.evaluatedTs == ct && Expected(env, all, traces, ct)
    ensures Sched(env, all, placed, traces + [tr], WakeOf(tr), ct)
  {
    var more := traces + [tr];
    assert more[|traces|] == tr && forall k :: 0 <= k < |traces| ==> more[k] == traces[k];
    forall t | t <= ct ensures LawAt(env, all, more, t) {
      if t < ct { LawStays(env, all, traces, tr, t); } else { ExpectedStays(env, all, traces, tr, ct); }
    }
  }

  /** A group is placed at `ct` and the gate is not woken: nothing is expected, or only the wake itself. */
  lemma {:induction false} SchedRests(
    env: Env, all: seq<Commit>, placed: nat, traces: seq<Trace>, wake: Option<real>, ct: real)
    requires (forall t :: t < ct ==> LawAt(env, all, traces, t)) && Below(traces, ct)
    requires placed <= |all| && (forall i :: 0 <= i < placed ==> ClockAt(all, i) <= ct)
    requires wake == LastWake(traces) && (wake.Some? ==> wake.value >= ct)
    requires Expected(env, all, traces, ct) ==> wake == Some(ct)
    ensures Sched(env, all, placed, traces, wake, ct)
  {
  }

  /* ---- The dispatcher follows it ---------------------------------------------------------------- */

  lemma {:induction false} DisposeArms(s: Sim, snap: GateSnapshot, d: Decision)
    ensures Dispose(s, snap, d).nextWake == WakeOf(Trace(snap, d))
  {
  }

  /** A wake of the simulation is one evaluation at its time that arms its delay. */
  lemma {:induction false} WakeTrace(env: Env, s: Sim, t: real) returns (tr: Trace)
    requires Core(s) && Usable(s, t)
    ensures tr.snapshot.evaluatedTs == t
    ensures var s1 := WakeUp(env, s, t);
            s1.traces == s.traces + [tr] && s1.nextWake == WakeOf(tr) && s1.messages == s.messages
  {
    EvaluationFacts(env, s, t);
    SnapshotFacts(env, s, t);
    var snap := SnapshotAt(env, s, t);
    tr := Trace(snap, EvaluateGate(env.features, snap));
    DisposeArms(s.(state := Paced(s.state, s.messages, t)), snap, EvaluateGate(env.features, snap));
  }

  ghost predicate Scheduled(env: Env, all: seq<Commit>, s: Sim, front: real) {
    Sched(env, all, |s.messages|, s.traces, s.nextWake, front)
  }

  lemma {:induction false} FireScheduled(env: Env, all: seq<Commit>, s: Sim, before: Option<real>, front: real)
    returns (front': real)
    requires Sound(env, s) && Scheduled(env, all, s, front)
    requires |s.messages| < |all| ==> before == Some(ClockAt(all, |s.messages|))
    requires before.Some? ==> front < before.value
    ensures Scheduled(env, all, Fire(env, s, before), front') && (before.Some? ==> front' < before.value)
  {
    front' := front;
    if Due(s, before) {
      var w := s.nextWake.value;
      var tr := WakeTrace(env, s, w);
      SchedFires(env, all, |s.messages|, s.traces, w, front, tr);
      front' := w;
    }
  }

  lemma {:induction false} FireDueScheduled(env: Env, all: seq<Commit>, s: Sim, before: Option<real>, front: real)
    returns (front': real)
    requires Sound(env, s) && Scheduled(env, all, s, front)
    requires |s.messages| < |all| ==> before == Some(ClockAt(all, |s.messages|))
    requires before.Some? ==> front < before.value
    ensures Scheduled(env, all, FireDue(env, s, before), front') && (before.Some? ==> front' < before.value)
  {
    var f1 := FireScheduled(env, all, s, before, front);
    FireStep(env, s, before);
    front' := FireScheduled(env, all, Fire(env, s, before), before, f1);
  }

  /* ---- What wakes the gate ---------------------------------------------------------------------- */

  /** Exactly the commits of the group are placed at its time. */
  lemma {:induction false} GroupIsAt(all: seq<Commit>, placed: nat, n: nat, ct: real, i: nat)
    requires Joins(all, placed, n, ct) && i < |all|
    requires placed > 0 ==> ClockAt(all, placed - 1) < ct
    ensures ClockAt(all, i) == ct <==> placed <= i < placed + n
    ensures ClockAt(all, i) <= ct <==> i < placed + n
  {
    if i < placed {
      ClockMonotone(all, i, placed - 1);
    } else if i < placed + n {
      GroupClock(all, placed, i - placed);
    } else {
      ClockMonotone(all, placed + n, i);
      assert ClockAt(all, placed + n) >= all[placed + n].ts;
    }
  }

  lemma {:induction false} GroupWakes(env: Env, all: seq<Commit>, placed: nat, n: nat, ct: real, group: seq<Commit>)
    requires Joins(all, placed, n, ct) && (placed > 0 ==> ClockAt(all, placed - 1) < ct)
    requires group == all[placed..placed + n]
    ensures HasInbound(group) <==> InboundAt(all, ct)
    ensures (exists k :: 0 <= k < |group| && !group[k].message.isSelf && IsPriority(group[k].message, env.selfId))
            <==> AddressedAt(env, all, ct)
  {
    forall i: nat | i < |all| ensures ClockAt(all, i) == ct <==> placed <= i < placed + n {
      GroupIsAt(all, placed, n, ct, i);
    }
    forall k | 0 <= k < |group|
      ensures group[k] == all[placed + k] && (Arrives(all, placed + k, ct) <==> !group[k].message.isSelf) {}
    if i :| Arrives(all, i, ct) { assert group[i - placed] == all[i]; }
    if i :| Arrives(all, i, ct) && (env.selfId in all[i].message.mentions || all[i].message.replyTo.Some?) {
      assert group[i - placed] == all[i];
    }
  }

  /** An inbound message was taken by an earlier terminal decision exactly when the cursor has passed it. */
  lemma {:induction false} TakenIffPassed(ms: seq<Message>, traces: seq<Trace>, i: nat)
    requires Numbered(ms) && (forall k :: 0 <= k < |traces| ==> ReplayLaws.Entry(ms, traces, k)) && Ordered(traces)
    requires i < |ms| && !ms[i].isSelf
    ensures TakenBefore(traces, |traces|, ms[i]) <==> i < Consumed(traces, |traces|)
  {
    assert Row(ms[i]) == i + 1;
    if i < Consumed(traces, |traces|) {
      var j := Eater(ms, traces, |traces|, i + 1);
      assert InBatch(traces[j], ms[i]);
    }
    if j :| 0 <= j < |traces| && Terminal(traces[j]) && InBatch(traces[j], ms[i]) {
      assert ReplayLaws.Entry(ms, traces, j);
      UnconsumedMember(ms, Consumed(traces, j), traces[j].snapshot.throughMsgId);
      CursorCovers(ms, traces, j, |traces|);
    }
  }

  function Open(ms: seq<Message>, cursor: nat): set<nat> { set i: nat | i < |ms| && !ms[i].isSelf && i >= cursor }

  lemma {:induction false} PendingIsOpen(ms: seq<Message>, cursor: nat)
    requires Numbered(ms)
    ensures PendingCount(ms, cursor) == |Open(ms, cursor)|
  {
    if ms == [] {
      forall i ensures i !in Open(ms, cursor) {}
    } else {
      var n := |ms| - 1;
      assert Numbered(ms[..n]);
      PendingIsOpen(ms[..n], cursor);
      assert Open(ms, cursor) == Open(ms[..n], cursor) + (if !ms[n].isSelf && n >= cursor then {n} else {});
    }
  }

  lemma {:induction false} TakenIsEarlier(traces: seq<Trace>, t: real, m: Message)
    requires Below(traces, t)
    ensures TakenEarlier(traces, t, m) <==> TakenBefore(traces, |traces|, m)
  {
  }

  /** The count the dispatcher compares with the threshold is that of the backlog. */
  lemma {:induction false} BacklogIsPending(all: seq<Commit>, c: Sim, placed: nat, n: nat, ct: real)
    requires Joins(all, placed, n, ct) && (placed > 0 ==> ClockAt(all, placed - 1) < ct)
    requires Numbered(c.messages) && Ledger(c) && Below(c.traces, ct) && |c.messages| == placed + n
    requires forall i :: 0 <= i < |c.messages| ==> c.messages[i] == Stored(all, i)
    ensures |Backlog(all, c.traces, ct)| == PendingCount(c.messages, c.cursor)
  {
    PendingIsOpen(c.messages, c.cursor);
    forall i: nat ensures i in Backlog(all, c.traces, ct) <==> i in Open(c.messages, c.cursor) {
      if i < |all| {
        GroupIsAt(all, placed, n, ct, i);
        if i < |c.messages| && !c.messages[i].isSelf {
          TakenIffPassed(c.messages, c.traces, i);
          TakenIsEarlier(c.traces, ct, c.messages[i]);
        }
      }
    }
    assert Backlog(all, c.traces, ct) == Open(c.messages, c.cursor);
  }

  /** What the dispatcher does with a committed group is what is expected at its time. */
  lemma {:induction false} WakesIffExpected(
    env: Env, all: seq<Commit>, c: Sim, placed: nat, n: nat, ct: real, group: seq<Commit>)
    requires Joins(all, placed, n, ct) && (placed > 0 ==> ClockAt(all, placed - 1) < ct)
    requires group == all[placed..placed + n]
    requires Numbered(c.messages) && Ledger(c) && Below(c.traces, ct) && |c.messages| == placed + n
    requires forall i :: 0 <= i < |c.messages| ==> c.messages[i] == Stored(all, i)
    requires c.nextWake == LastWake(c.traces)
    ensures Wakes(env, c, group, ct) ==> Expected(env, all, c.traces, ct)
    ensures Expected(env, all, c.traces, ct) ==> Wakes(env, c, group, ct) || c.nextWake == Some(ct)
  {
    GroupWakes(env, all, placed, n, ct, group);
    BacklogIsPending(all, c, placed, n, ct);
    ArmedIsLast(c.traces, ct);
  }

  /* ---- Over the whole run ------------------------------------------------------------------------- */

  /** The law holds before `ct`, where the next group is to be placed, and no wake is left before it. */
  ghost predicate ReadyAt(env: Env, all: seq<Commit>, traces: seq<Trace>, wake: Option<real>, ct: real) {
    && (forall t :: t < ct ==> LawAt(env, all, traces, t)) && Below(traces, ct)
    && wake == LastWake(traces) && (wake.Some? ==> wake.value >= ct)
  }

  lemma {:induction false} FiredIsReady(env: Env, all: seq<Commit>, s: Sim, ct: real, front: real, f: Sim)
    requires Sound(env, s) && Scheduled(env, all, s, front) && |s.messages| < |all|
    requires ct == ClockAt(all, |s.messages|) && front < ct && f == FireDue(env, s, Some(ct))
    ensures ReadyAt(env, all, f.traces, f.nextWake, ct) && f.messages == s.messages
  {
    var front' := FireDueScheduled(env, all, s, Some(ct), front);
    TwoWakesSuffice(env, s, Some(ct));
    forall t | t < ct ensures LawAt(env, all, f.traces, t) {
      LawUntil(env, all, |f.messages|, f.traces, f.nextWake, front', ct, t);
    }
  }

  /** The messages are the commits placed so far. */
  ghost predicate Mirrors(all: seq<Commit>, ms: seq<Message>) {
    |ms| <= |all| && forall i :: 0 <= i < |ms| ==> ms[i] == Stored(all, i)
  }

  /** The group is the next one, and everything before it is earlier. */
  ghost predicate NextGroup(all: seq<Commit>, placed: nat, group: seq<Commit>, ct: real) {
    && Joins(all, placed, |group|, ct) && (placed > 0 ==> ClockAt(all, placed - 1) < ct)
    && group == all[placed..placed + |group|]
  }

  lemma {:induction false} CommitMirrors(all: seq<Commit>, ms: seq<Message>, group: seq<Commit>, ct: real)
    requires Mirrors(all, ms) && Numbered(ms) && Stamped(all) && NextGroup(all, |ms|, group, ct)
    ensures Mirrors(all, Append(ms, group)) && |Append(ms, group)| == |ms| + |group| && Numbered(Append(ms, group))
  {
    AppendNumbers(ms, group);
    var more := Append(ms, group);
    forall i | 0 <= i < |more| ensures more[i] == Stored(all, i) {
      if i < |ms| {
        assert more[i] == ms[i];
      } else {
        assert more[|ms| + (i - |ms|)] == more[i] && group[i - |ms|] == all[i];
      }
    }
  }

  lemma {:induction false} PlacedByThen(all: seq<Commit>, placed: nat, group: seq<Commit>, ct: real)
    requires NextGroup(all, placed, group, ct)
    ensures forall i :: 0 <= i < placed + |group| ==> ClockAt(all, i) <= ct
  {
    forall i: nat | i < placed + |group| ensures ClockAt(all, i) <= ct { GroupIsAt(all, placed, |group|, ct, i); }
  }

  /** The committed group, and the gate if it wakes it. */
  lemma {:induction false} CommitScheduled(
    env: Env, all: seq<Commit>, c: Sim, placed: nat, group: seq<Commit>, ct: real, s1: Sim)
    requires NextGroup(all, placed, group, ct) && ReadyAt(env, all, c.traces, c.nextWake, ct)
    requires Numbered(c.messages) && Mirrors(all, c.messages) && |c.messages| == placed + |group| && Ledger(c)
    requires Core(c) && Usable(c, ct)
    requires s1 == if Wakes(env, c, group, ct) then WakeUp(env, c, ct) else c
    ensures Scheduled(env, all, s1, ct)
  {
    PlacedByThen(all, placed, group, ct);
    WakesIffExpected(env, all, c, placed, |group|, ct, group);
    if Wakes(env, c, group, ct) {
      var tr := WakeTrace(env, c, ct);
      SchedEvaluates(env, all, |c.messages|, c.traces, ct, tr);
    } else {
      SchedRests(env, all, |c.messages|, c.traces, c.nextWake, ct);
    }
  }

  /** What every round of the main loop starts from. */
  ghost predicate OnSchedule(env: Env, all: seq<Commit>, s: Sim, front: real) {
    && Waiting(env, s) && Ledger(s) && Tracks(all, s) && Mirrors(all, s.messages)
    && Scheduled(env, all, s, front)
    && (|s.messages| < |all| ==>
          && front < ClockAt(all, |s.messages|)
          && (s.messages != [] ==> ClockAt(all, |s.messages| - 1) < ClockAt(all, |s.messages|)))
  }

  lemma {:induction false} GroupFires(
    env: Env, all: seq<Commit>, s: Sim, front: real, group: seq<Commit>, ct: real, f: Sim, c: Sim)
    requires OnSchedule(env, all, s, front) && Stamped(all) && |s.messages| < |all|
    requires NextGroup(all, |s.messages|, group, ct) && f == FireDue(env, s, Some(ct)) && c == CommitGroup(f, group, ct)
    ensures ReadyAt(env, all, c.traces, c.nextWake, ct) && Ledger(c) && Numbered(c.messages)
    ensures Mirrors(all, c.messages) && |c.messages| == |s.messages| + |group|
  {
    FiredIsReady(env, all, s, ct, front, f);
    LedgerFire(env, s, Some(ct));
    assert Stamped(group);
    LedgerCommit(f, group, ct);
    CommitMirrors(all, s.messages, group, ct);
  }

  lemma {:induction false} EvaluationKeepsMessages(env: Env, c: Sim, group: seq<Commit>, ct: real, s1: Sim)
    requires s1 == if Wakes(env, c, group, ct) then WakeUp(env, c, ct) else c
    ensures s1.messages == c.messages
  {
  }

  lemma {:induction false} GroupIsStrict(all: seq<Commit>, placed: nat, n: nat, ct: real)
    requires Joins(all, placed, n, ct)
    ensures ClockAt(all, placed + n - 1) == ct
    ensures placed + n < |all| ==> ct < ClockAt(all, placed + n)
  {
    GroupClock(all, placed, n - 1);
  }

  lemma {:induction false} RoundKeepsRest(env: Env, all: seq<Commit>, s: Sim, rest: seq<Commit>, s1: Sim, n: nat)
    requires Waiting(env, s) && Ledger(s) && Tracks(all, s) && Stamped(all) && rest != [] && rest == all[|s.messages|..]
    requires s1 == AfterGroup(env, s, rest) && n == GroupLength(rest, CommitTime(s, rest[0].ts))
    ensures n > 0 && Waiting(env, s1) && Ledger(s1) && Tracks(all, s1) && |s1.messages| <= |all|
    ensures rest[n..] == all[|s1.messages|..]
  {
    assert Stamped(rest);
    RoundWaits(env, s, rest, s1, n);
    RoundSees(env, all, s, rest, s1, n);
    LedgerGroup(env, s, rest, s1);
  }

  lemma {:induction false} GroupScheduled(
    env: Env, all: seq<Commit>, s: Sim, front: real, group: seq<Commit>, ct: real, s1: Sim)
    requires OnSchedule(env, all, s, front) && Stamped(all) && |s.messages| < |all|
    requires NextGroup(all, |s.messages|, group, ct) && Timely(s, group, ct)
    requires var c := CommitGroup(FireDue(env, s, Some(ct)), group, ct);
             s1 == if Wakes(env, c, group, ct) then WakeUp(env, c, ct) else c
    ensures Scheduled(env, all, s1, ct) && Mirrors(all, s1.messages) && |s1.messages| == |s.messages| + |group|
  {
    var f := FireDue(env, s, Some(ct));
    var c := CommitGroup(f, group, ct);
    GroupFires(env, all, s, front, group, ct, f, c);
    CommittedIsUsable(env, s, group, ct, c);
    CommitScheduled(env, all, c, |s.messages|, group, ct, s1);
    EvaluationKeepsMessages(env, c, group, ct, s1);
  }

  lemma {:induction false} NextGroupIs(all: seq<Commit>, s: Sim, rest: seq<Commit>, ct: real, n: nat)
    requires Tracks(all, s) && Stamped(all) && rest != [] && rest == all[|s.messages|..]
    requires s.messages != [] && |s.messages| < |all| ==> ClockAt(all, |s.messages| - 1) < ClockAt(all, |s.messages|)
    requires ct == CommitTime(s, rest[0].ts) && n == GroupLength(rest, ct)
    ensures NextGroup(all, |s.messages|, rest[..n], ct) && Timely(s, rest[..n], ct) && ct == ClockAt(all, |s.messages|)
  {
    GroupJoins(all, s, rest, ct, n);
  }

  lemma {:induction false} RoundScheduled(
    env: Env, all: seq<Commit>, s: Sim, front: real, rest: seq<Commit>, s1: Sim, n: nat)
    requires OnSchedule(env, all, s, front) && Stamped(all) && rest != [] && rest == all[|s.messages|..]
    requires s1 == AfterGroup(env, s, rest) && n == GroupLength(rest, CommitTime(s, rest[0].ts))
    ensures Joins(all, |s.messages|, n, ClockAt(all, |s.messages|))
    ensures Scheduled(env, all, s1, ClockAt(all, |s.messages|))
    ensures Mirrors(all, s1.messages) && |s1.messages| == |s.messages| + n
  {
    var ct := CommitTime(s, rest[0].ts);
    NextGroupIs(all, s, rest, ct, n);
    GroupScheduled(env, all, s, front, rest[..n], ct, s1);
  }

  lemma {:induction false} RoundOnSchedule(
    env: Env, all: seq<Commit>, s: Sim, front: real, rest: seq<Commit>, s1: Sim, n: nat)
    requires OnSchedule(env, all, s, front) && Stamped(all) && rest != [] && rest == all[|s.messages|..]
    requires s1 == AfterGroup(env, s, rest) && n == GroupLength(rest, CommitTime(s, rest[0].ts))
    ensures n > 0 && |s1.messages| <= |all| && rest[n..] == all[|s1.messages|..]
    ensures OnSchedule(env, all, s1, ClockAt(all, |s.messages|))
  {
    RoundScheduled(env, all, s, front, rest, s1, n);
    RoundKeepsRest(env, all, s, rest, s1, n);
    BackOnSchedule(env, all, |s.messages|, n, s1, ClockAt(all, |s.messages|));
  }

  lemma {:induction false} BackOnSchedule(env: Env, all: seq<Commit>, placed: nat, n: nat, s1: Sim, ct: real)
    requires Joins(all, placed, n, ct) && |s1.messages| == placed + n
    requires Waiting(env, s1) && Ledger(s1) && Tracks(all, s1) && Mirrors(all, s1.messages)
    requires Scheduled(env, all, s1, ct)
    ensures OnSchedule(env, all, s1, ct)
  {
    GroupIsStrict(all, placed, n, ct);
  }

  lemma {:induction false} RunOnSchedule(
    env: Env, all: seq<Commit>, s: Sim, front: real, rest: seq<Commit>, r: Sim, t: real)
    requires OnSchedule(env, all, s, front) && Stamped(all) && rest == all[|s.messages|..] && r == Run(env, s, rest)
    ensures LawAt(env, all, r.traces, t)
    decreases |rest|
  {
    if rest == [] {
      var last := FireDueScheduled(env, all, s, None, front);
      TwoWakesSuffice(env, s, None);
      LawUntil(env, all, |r.messages|, r.traces, r.nextWake, last, if t >= last then t + 1.0 else last + 1.0, t);
    } else {
      var n := GroupLength(rest, CommitTime(s, rest[0].ts));
      var s1 := AfterGroup(env, s, rest);
      RoundOnSchedule(env, all, s, front, rest, s1, n);
      RunStep(env, s, rest, s1, n);
      RunOnSchedule(env, all, s1, ClockAt(all, |s.messages|), rest[n..], r, t);
    }
  }

  lemma {:induction false} StartsOnSchedule(env: Env, all: seq<Commit>, front: real)
    requires all != [] ==> front < ClockAt(all, 0)
    ensures OnSchedule(env, all, START, front)
  {
    forall t | t <= front ensures LawAt(env, all, START.traces, t) {
      forall i | 0 <= i < |all| ensures ClockAt(all, i) != t { ClockMonotone(all, 0, i); }
      LawOfQuiet(env, all, START.traces, t);
    }
  }

  /** When a replay evaluates, over every corpus, gate mode and feature set: at a time `t` exactly if the
      wake armed by the evaluation before falls on `t`; or a message of somebody else is placed then and
      no wake is armed, or it is for the bot, or the inbound messages nobody has taken have reached the
      threshold. */
  lemma {:induction false} EvaluationTimesIff(env: Env, events: seq<Event>, all: seq<Commit>, r: Sim, t: real)
    requires all == Placed(env, events) && r == Run(env, START, all)
    ensures Evaluated(r.traces, t) <==> Expected(env, all, r.traces, t)
  {
    var front := if all == [] then 0.0 else ClockAt(all, 0) - 1.0;
    PlacedIsStamped(env, events);
    StartsOnSchedule(env, all, front);
    assert all[0..] == all;
    RunOnSchedule(env, all, START, front, all, r, t);
  }

  /** A trace stands at `t` and sees the commit. */
  ghost predicate SeenAt(traces: seq<Trace>, t: real, i: nat) {
    exists k :: 0 <= k < |traces| && traces[k].snapshot.evaluatedTs == t && i < traces[k].snapshot.throughMsgId
  }

  lemma {:induction false} EvaluatedSees(env: Env, events: seq<Event>, all: seq<Commit>, r: Sim, i: nat)
    requires all == Placed(env, events) && r == Run(env, START, all) && i < |all|
    requires Evaluated(r.traces, ClockAt(all, i))
    ensures SeenAt(r.traces, ClockAt(all, i), i)
  {
    var k :| 0 <= k < |r.traces| && r.traces[k].snapshot.evaluatedTs == ClockAt(all, i);
    EvaluationSeesCommitted(env, events, r, k, i);
  }

  /** Whatever wake is scheduled, a message of somebody else that mentions the bot or answers something is
      evaluated at the time it is placed. */
  lemma {:induction false} AddressedIsEvaluated(env: Env, events: seq<Event>, all: seq<Commit>, r: Sim, i: nat)
    requires all == Placed(env, events) && r == Run(env, START, all) && i < |all|
    requires !all[i].message.isSelf && (env.selfId in all[i].message.mentions || all[i].message.replyTo.Some?)
    ensures SeenAt(r.traces, ClockAt(all, i), i)
  {
    assert Arrives(all, i, ClockAt(all, i));
    EvaluationTimesIff(env, events, all, r, ClockAt(all, i));
    EvaluatedSees(env, events, all, r, i);
  }

  /** And so is one at which the inbound messages nobody has taken reach the threshold. */
  lemma {:induction false} BacklogIsEvaluated(env: Env, events: seq<Event>, all: seq<Commit>, r: Sim, i: nat)
    requires all == Placed(env, events) && r == Run(env, START, all) && i < |all| && !all[i].message.isSelf
    requires |Backlog(all, r.traces, ClockAt(all, i))| >= env.cfg.threshold
    ensures SeenAt(r.traces, ClockAt(all, i), i)
  {
    assert Arrives(all, i, ClockAt(all, i));
    EvaluationTimesIff(env, events, all, r, ClockAt(all, i));
    EvaluatedSees(env, events, all, r, i);
  }

  /** Anything else waits for a wake that is armed for later. */
  lemma {:induction false} OrdinaryWaits(env: Env, events: seq<Event>, all: seq<Commit>, r: Sim, t: real)
    requires all == Placed(env, events) && r == Run(env, START, all)
    requires ArmedBefore(r.traces, t).Some? && ArmedBefore(r.traces, t).value > t
    requires !AddressedAt(env, all, t) && |Backlog(all, r.traces, t)| < env.cfg.threshold
    ensures !Evaluated(r.traces, t)
  {
    EvaluationTimesIff(env, events, all, r, t);
  }
}
