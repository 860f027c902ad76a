/**
 The corpus replay simulator of `pretender/cycle.py`: a recorded corpus is committed in file
 order on a monotone virtual clock, and a dispatcher wakes the gate.

 `ReplayCorpus` keeps the loops of the source. `Run` is what it computes; there the wakes due
 before a commit, and the wakes after the last one, fire at most twice. That the loops agree
 with it is the termination theorem: no gap between commits fires a third timed wake, and the
 cap of 1000 is never reached.
*/
module Replay {
  import opened Prelude
  import opened Messages
  import opened Pacing
  import opened Backoff
  import opened Gate
  import opened Snapshot

  datatype Event = Event(isMessage: bool, message: Message, ts: Option<real>)

  datatype Commit = Commit(ts: real, message: Message)

  datatype Trace = Trace(snapshot: GateSnapshot, decision: Decision)

  datatype Sim = Sim(
    messages: seq<Message>,
    traces: seq<Trace>,
    cursor: nat,
    state: ChatState,
    previousEnd: Option<EndReason>,
    nextWake: Option<real>,
    now: Option<real>)

  datatype ReplayResult = ReplayResult(traces: seq<Trace>, wouldHaveSpoken: nat)

  const START := Sim([], [], 0, FRESH_STATE, None, None, None)

  /* ---- One evaluation ------------------------------------------------------ */

  function LastRow(ms: seq<Message>): nat {
    if ms == [] then 0 else Row(ms[|ms| - 1])
  }

  /** The claimable messages: non-self rows beyond the cursor, up to the boundary. */
  function Unconsumed(ms: seq<Message>, cursor: nat, through: nat): seq<Message> {
    if ms == [] then []
    else
      var u := Unconsumed(ms[..|ms| - 1], cursor, through);
      var m := ms[|ms| - 1];
      if m.rowId.Some? && cursor < m.rowId.value <= through && !m.isSelf then u + [m] else u
  }

  function Paced(state: ChatState, ms: seq<Message>, now: real): ChatState {
    var avg := Evolve(ms, now).avg;
    if avg.Some? then state.(avgInterval := avg) else state
  }

  function SnapshotAt(env: Env, s: Sim, t: real): GateSnapshot {
    var through := LastRow(s.messages);
    Assemble(env, ReplayCycle(|s.traces| + 1), s.cursor, through,
             Unconsumed(s.messages, s.cursor, through), Paced(s.state, s.messages, t),
             Recent(s.messages, through, t - env.windowS, env.limit), t, s.previousEnd,
             SelfIdsBy(s.messages, t))
  }

  function Dispose(s: Sim, snap: GateSnapshot, d: Decision): Sim {
    var s' := s.(traces := s.traces + [Trace(snap, d)]);
    match d.action
    case Trigger =>
      s'.(cursor := snap.throughMsgId, state := s.state.(holdUntil := None, idleStreak := 0),
          previousEnd := Some(DryRunTrigger), nextWake := None)
    case Skip =>
      s'.(cursor := snap.throughMsgId, state := s.state.(holdUntil := None, idleStreak := 0),
          previousEnd := Some(SkipEnd), nextWake := None)
    case Delay =>
      s'.(nextWake := if d.delaySeconds.Some? && d.delaySeconds.value > 0.0
                      then Some(snap.evaluatedTs + d.delaySeconds.value) else None)
  }

  function WakeUp(env: Env, s: Sim, t: real): Sim {
    var snap := SnapshotAt(env, s, t);
    Dispose(s.(state := Paced(s.state, s.messages, t)), snap, EvaluateGate(env.features, snap))
  }

  /* ---- The dispatcher ------------------------------------------------------ */

  function CommitTime(s: Sim, ts: real): real {
    if s.now.None? then ts else MaxReal(s.now.value, ts)
  }

  /** How many leading commits share the commit time `ct`. */
  function GroupLength(commits: seq<Commit>, ct: real): (n: nat)
    ensures n <= |commits|
  {
    if commits == [] || commits[0].ts > ct then 0 else 1 + GroupLength(commits[1..], ct)
  }

  predicate Due(s: Sim, before: Option<real>) {
    s.nextWake.Some? && (before.None? || s.nextWake.value < before.value)
  }

  function Fire(env: Env, s: Sim, before: Option<real>): Sim {
    if Due(s, before) then WakeUp(env, s, s.nextWake.value) else s
  }

  function FireDue(env: Env, s: Sim, before: Option<real>): Sim {
    Fire(env, Fire(env, s, before), before)
  }

  function Append(ms: seq<Message>, group: seq<Commit>): seq<Message> {
    if group == [] then ms
    else
      var g := Append(ms, group[..|group| - 1]);
      g + [group[|group| - 1].message.(rowId := Some(|g| + 1))]
  }

  function CommitGroup(s: Sim, group: seq<Commit>, ct: real): Sim {
    s.(messages := Append(s.messages, group), now := Some(ct))
  }

  predicate HasInbound(group: seq<Commit>) { exists i :: 0 <= i < |group| && !group[i].message.isSelf }

  predicate IsPriority(m: Message, selfId: string) { selfId in m.mentions || m.replyTo.Some? }

  function PendingCount(ms: seq<Message>, cursor: nat): nat {
    if ms == [] then 0
    else
      var m := ms[|ms| - 1];
      PendingCount(ms[..|ms| - 1], cursor)
      + (if !m.isSelf && m.rowId.Some? && m.rowId.value > cursor then 1 else 0)
  }

  predicate IsPriorityBatch(env: Env, s: Sim, group: seq<Commit>) {
    || (exists i :: 0 <= i < |group| && !group[i].message.isSelf && IsPriority(group[i].message, env.selfId))
    || PendingCount(s.messages, s.cursor) >= env.cfg.threshold
  }

  /** Does the committed group wake the gate at `ct`? */
  predicate Wakes(env: Env, s: Sim, group: seq<Commit>, ct: real) {
    HasInbound(group)
    && (s.nextWake.None? || s.nextWake.value == ct || IsPriorityBatch(env, s, group))
  }

  function AfterGroup(env: Env, s: Sim, commits: seq<Commit>): Sim
    requires commits != []
  {
    var ct := CommitTime(s, commits[0].ts);
    var group := commits[..GroupLength(commits, ct)];
    var c := CommitGroup(FireDue(env, s, Some(ct)), group, ct);
    if Wakes(env, c, group, ct) then WakeUp(env, c, ct) else c
  }

  function Run(env: Env, s: Sim, commits: seq<Commit>): Sim
    decreases |commits|
  {
    if commits == [] then FireDue(env, s, None)
    else
      var n := GroupLength(commits, CommitTime(s, commits[0].ts));
      Run(env, AfterGroup(env, s, commits), commits[n..])
  }

  function Placed(env: Env, events: seq<Event>): seq<Commit> {
    if events == [] then []
    else
      var p := Placed(env, events[..|events| - 1]);
      var e := events[|events| - 1];
      var ts := if e.message.recvTs.Some? then e.message.recvTs else e.ts;
      if e.isMessage && e.message.chatKey == env.chatKey && ts.Some?
      then p + [Commit(ts.value, e.message.(recvTs := ts))] else p
  }

  function Spoken(traces: seq<Trace>): nat {
    if traces == [] then 0
    else Spoken(traces[..|traces| - 1]) + (if traces[|traces| - 1].decision.action.Trigger? then 1 else 0)
  }

  function Triggers(traces: seq<Trace>): set<nat> {
    set k | 0 <= k < |traces| && traces[k].decision.action == Trigger
  }

  /** The spoken count is the number of triggers. */
  lemma {:induction false} SpokenCounts(traces: seq<Trace>)
    ensures Spoken(traces) == |Triggers(traces)|
  {
    if traces == [] {
      forall k ensures k !in Triggers(traces) {}
    } else {
      var n := |traces| - 1;
      SpokenCounts(traces[..n]);
      assert Triggers(traces) == Triggers(traces[..n]) + (if traces[n].decision.action == Trigger then {n} else {});
    }
  }

  /* ---- What every reachable state satisfies --------------------------------- */

  ghost predicate Numbered(ms: seq<Message>) {
    forall i :: 0 <= i < |ms| ==> ms[i].rowId == Some(i + 1) && ms[i].recvTs.Some?
  }

  ghost predicate ArrivedBy(ms: seq<Message>, t: real) {
    forall i :: 0 <= i < |ms| && ms[i].recvTs.Some? ==> ms[i].recvTs.value <= t
  }

  function LastEval(s: Sim): Option<real> {
    if s.traces == [] then None else Some(s.traces[|s.traces| - 1].snapshot.evaluatedTs)
  }

  /** No idle end reason and no hold ever arises, so backoff never fires. */
  ghost predicate Unheld(s: Sim) {
    && s.state.holdUntil.None? && s.state.idleStreak == 0 && s.state.focusUntil.None?
    && (s.previousEnd.None? || s.previousEnd.value.DryRunTrigger? || s.previousEnd.value.SkipEnd?)
  }

  ghost predicate Core(s: Sim) {
    && Numbered(s.messages) && s.cursor <= |s.messages| && Unheld(s)
    && (s.now.None? ==> s.messages == [] && s.traces == [] && s.nextWake.None?)
    && (s.now.Some? ==> ArrivedBy(s.messages, s.now.value))
    && (s.nextWake.Some? ==> s.nextWake.value >= s.now.value && s.traces != [] && s.nextWake.value > LastEval(s).value)
    && (s.nextWake.Some? ==> Unconsumed(s.messages, s.cursor, |s.messages|) != [])
    && (s.traces != [] ==> s.traces[|s.traces| - 1].snapshot.throughMsgId <= |s.messages|)
  }

  /** Has anything been committed since the last evaluation? */
  predicate Dirty(s: Sim) {
    s.traces == [] || s.traces[|s.traces| - 1].snapshot.throughMsgId < |s.messages|
  }

  /** With nothing committed since, the armed wake is the last of its chain. */
  ghost predicate Resting(env: Env, s: Sim) {
    s.nextWake.Some? && !Dirty(s) ==> WakeUp(env, s, s.nextWake.value).nextWake.None?
  }

  ghost predicate Sound(env: Env, s: Sim) { Core(s) && Resting(env, s) }

  /** An evaluation time the dispatcher may use: nothing is still to arrive before it. */
  ghost predicate Usable(s: Sim, t: real) {
    && s.now.Some? && t >= s.now.value
    && (LastEval(s).Some? ==> t >= LastEval(s).value)
  }

  /** An upper bound on the timed wakes that can still fire before the next commit. */
  function Chain(s: Sim): nat { if s.nextWake.None? then 0 else if Dirty(s) then 2 else 1 }

  lemma {:induction false} LastRowIsCount(ms: seq<Message>)
    requires Numbered(ms)
    ensures LastRow(ms) == |ms|
  {
  }

  /** What an evaluation at `t` reads, in a state the replay can be in. */
  lemma {:induction false} SnapshotFacts(env: Env, s: Sim, t: real)
    requires Core(s)
    ensures var snap := SnapshotAt(env, s, t);
            && snap.throughMsgId == |s.messages| && snap.evaluatedTs == t && snap.startMsgId == s.cursor
            && snap.pendingMessages == Unconsumed(s.messages, s.cursor, |s.messages|)
            && snap.pending == |snap.pendingMessages|
            && !BackoffFacts(snap).applied
  {
    LastRowIsCount(s.messages);
  }

  /** What an evaluation at `t` leaves: either no wake, or the delay of its mode. */
  ghost predicate Arms(s: Sim, snap: GateSnapshot, s1: Sim) {
    && s1.cursor == s.cursor && s1.previousEnd == s.previousEnd
    && ModeDelay(snap).Some? && ModeDelay(snap).value > 0.0
    && s1.nextWake == Some(snap.evaluatedTs + ModeDelay(snap).value)
  }

  lemma {:induction false} DisposeFacts(s: Sim, snap: GateSnapshot, cs: seq<Contribution>)
    requires !BackoffFacts(snap).applied
    ensures var s1 := Dispose(s, snap, Decide(snap, cs));
            && (s1.nextWake.Some? ==> Arms(s, snap, s1) && Decide(snap, cs).reason == Delayed && s1.state == s.state)
            && (Decide(snap, cs).action == Delay <==>
                  && s1.cursor == s.cursor && s1.previousEnd == s.previousEnd && s1.state == s.state
                  && !Decide(snap, cs).action.Trigger? && !Decide(snap, cs).action.Skip?)
  {
    Precedence(snap, cs);
  }

  lemma {:induction false} EvaluationFacts(env: Env, s: Sim, t: real)
    requires Core(s) && Usable(s, t)
    ensures var snap, s1 := SnapshotAt(env, s, t), WakeUp(env, s, t);
            && s1.messages == s.messages && s1.now == s.now
            && s1.traces == s.traces + [Trace(snap, EvaluateGate(env.features, snap))]
            && LastEval(s1) == Some(t) && !Dirty(s1)
            && (s1.nextWake.Some? ==> Arms(s, snap, s1) && s1.state == Paced(s.state, s.messages, t))
  {
    SnapshotFacts(env, s, t);
    var snap := SnapshotAt(env, s, t);
    DisposeFacts(s.(state := Paced(s.state, s.messages, t)), snap, env.features(snap));
  }

  lemma {:induction false} WakeUpKeepsCore(env: Env, s: Sim, t: real)
    requires Core(s) && Usable(s, t)
    ensures Core(WakeUp(env, s, t))
  {
    SnapshotFacts(env, s, t);
    EvaluationFacts(env, s, t);
  }

  /** How a second evaluation of an unchanged timeline relates to the one that armed it: same
      batch, same average, and the idle time is either the clamped window or exactly the
      delay later. */
  ghost predicate Followup(a: GateSnapshot, b: GateSnapshot, windowS: real) {
    && b.pendingMessages == a.pendingMessages && |a.pendingMessages| == a.pending == b.pending
    && b.recentAverageInterval == a.recentAverageInterval
    && b.mode == a.mode && b.threshold == a.threshold
    && ModeDelay(a).Some? && ModeDelay(a).value > 0.0
    && b.idleSeconds == (if b.lastNonselfTs.Some? then a.idleSeconds + ModeDelay(a).value else windowS)
    && (b.lastNonselfTs.Some? <==> a.idleSeconds + ModeDelay(a).value <= windowS)
  }

  lemma {:induction false} SecondLook(env: Env, s: Sim, t: real, s1: Sim, w: real)
    requires Core(s) && Usable(s, t) && s1 == WakeUp(env, s, t) && s1.nextWake == Some(w)
    ensures Core(s1) && Usable(s1, w)
    ensures Followup(SnapshotAt(env, s, t), SnapshotAt(env, s1, w), env.windowS)
  {
    WakeUpKeepsCore(env, s, t);
    EvaluationFacts(env, s, t);
    SnapshotFacts(env, s, t);
    SnapshotFacts(env, s1, w);
    SameAverage(s.state, s.messages, t, w);
    WindowMoves(env, s.messages, LastRow(s.messages), t, w);
  }

  lemma {:induction false} SameAverage(state: ChatState, ms: seq<Message>, t: real, w: real)
    requires ArrivedBy(ms, t) && t <= w
    ensures Paced(Paced(state, ms, t), ms, w) == Paced(state, ms, t)
  {
    EvolveStable(ms, t, w);
  }

  lemma {:induction false} WindowMoves(env: Env, ms: seq<Message>, through: nat, t: real, w: real)
    requires t <= w
    ensures var a := Recent(ms, through, t - env.windowS, env.limit).lastNonselfTs;
            Recent(ms, through, w - env.windowS, env.limit).lastNonselfTs
            == if a.Some? && w - a.value <= env.windowS then a else None
  {
    NarrowerWindow(ms, through, t - env.windowS, w - env.windowS);
  }

  /** A delay that has been waited out arms nothing further. */
  lemma {:induction false} DelayIsSpent(a: GateSnapshot, b: GateSnapshot, windowS: real)
    requires Followup(a, b, windowS)
    ensures ModeDelay(b).None? || ModeDelay(b).value <= 0.0
  {
  }

  /** An evaluation with no commit since the previous one leaves no timed wake. */
  lemma {:induction false} WakeSettles(env: Env, s: Sim, t: real)
    requires Core(s) && Usable(s, t)
    ensures Resting(env, WakeUp(env, s, t))
  {
    var s1 := WakeUp(env, s, t);
    if s1.nextWake.Some? {
      var w := s1.nextWake.value;
      SecondLook(env, s, t, s1, w);
      DelayIsSpent(SnapshotAt(env, s, t), SnapshotAt(env, s1, w), env.windowS);
      EvaluationFacts(env, s1, w);
    }
  }

  /* ---- The loops ----------------------------------------------------------- */

  lemma {:induction false} FireStep(env: Env, s: Sim, before: Option<real>)
    requires Sound(env, s)
    ensures Sound(env, Fire(env, s, before))
    ensures Due(s, before) ==> Chain(Fire(env, s, before)) < Chain(s)
    ensures Fire(env, s, before).messages == s.messages && Fire(env, s, before).now == s.now
  {
    if Due(s, before) {
      WakeUpKeepsCore(env, s, s.nextWake.value);
      WakeSettles(env, s, s.nextWake.value);
      EvaluationFacts(env, s, s.nextWake.value);
    }
  }

  /** Two firings exhaust every chain of timed wakes: none is due afterwards. */
  lemma {:induction false} TwoWakesSuffice(env: Env, s: Sim, before: Option<real>)
    requires Sound(env, s)
    ensures Sound(env, FireDue(env, s, before)) && !Due(FireDue(env, s, before), before)
    ensures FireDue(env, s, before).messages == s.messages && FireDue(env, s, before).now == s.now
  {
    FireStep(env, s, before);
    FireStep(env, Fire(env, s, before), before);
  }

  /** A state that waits for the next group: every evaluation lies at or before the clock. */
  ghost predicate Waiting(env: Env, s: Sim) {
    && Sound(env, s)
    && (LastEval(s).Some? ==> s.now.Some? && LastEval(s).value <= s.now.value)
  }

  ghost predicate Stamped(commits: seq<Commit>) {
    forall i :: 0 <= i < |commits| ==> commits[i].message.recvTs == Some(commits[i].ts)
  }

  lemma {:induction false} PlacedIsStamped(env: Env, events: seq<Event>)
    ensures Stamped(Placed(env, events))
  {
    if events != [] { PlacedIsStamped(env, events[..|events| - 1]); }
  }

  lemma {:induction false} GroupIsTimely(commits: seq<Commit>, ct: real)
    ensures var n := GroupLength(commits, ct);
            && (forall i :: 0 <= i < n ==> commits[i].ts <= ct)
            && (n < |commits| ==> commits[n].ts > ct)
            && (commits != [] && commits[0].ts <= ct ==> n >= 1)
  {
    if commits != [] && commits[0].ts <= ct {
      GroupIsTimely(commits[1..], ct);
      var n := GroupLength(commits[1..], ct);
      assert forall i :: 1 <= i < |commits| ==> commits[i] == commits[1..][i - 1];
    }
  }

  lemma {:induction false} AppendNumbers(ms: seq<Message>, group: seq<Commit>)
    requires Numbered(ms) && Stamped(group)
    ensures var r := Append(ms, group);
            && |r| == |ms| + |group| && ms <= r && Numbered(r)
            && (forall i :: 0 <= i < |group| ==> r[|ms| + i] == group[i].message.(rowId := Some(|ms| + i + 1)))
  {
    if group != [] {
      var init := group[..|group| - 1];
      assert Stamped(init);
      AppendNumbers(ms, init);
    }
  }

  lemma {:induction false} UnconsumedMember(ms: seq<Message>, cursor: nat, through: nat)
    requires Numbered(ms)
    ensures forall m :: m in Unconsumed(ms, cursor, through) <==>
              m in ms && cursor < Row(m) <= through && !m.isSelf
  {
    if ms != [] {
      var init := ms[..|ms| - 1];
      assert Numbered(init);
      UnconsumedMember(init, cursor, through);
      assert ms == init + [ms[|ms| - 1]];
    }
  }

  /** Rows beyond the boundary never enter a batch. */
  lemma {:induction false} UnconsumedIgnoresLater(ms: seq<Message>, more: seq<Message>, cursor: nat, through: nat)
    requires Numbered(more) && ms <= more && through <= |ms|
    ensures Unconsumed(more, cursor, through) == Unconsumed(ms, cursor, through)
    decreases |more|
  {
    if |ms| < |more| {
      var init := more[..|more| - 1];
      UnconsumedIgnoresLater(ms, init, cursor, through);
      assert more[|more| - 1].rowId == Some(|more|);
    } else {
      assert more == ms;
    }
  }

  lemma {:induction false} CommitKeepsSound(env: Env, s: Sim, group: seq<Commit>, ct: real)
    requires Sound(env, s) && !Due(s, Some(ct)) && group != [] && Stamped(group)
    requires s.now.Some? ==> s.now.value <= ct
    requires forall i :: 0 <= i < |group| ==> group[i].ts <= ct
    ensures Sound(env, CommitGroup(s, group, ct)) && CommitGroup(s, group, ct).now == Some(ct)
  {
    var c := CommitGroup(s, group, ct);
    AppendNumbers(s.messages, group);
    CommitArrives(s, group, ct);
    if s.nextWake.Some? {
      UnconsumedMember(s.messages, s.cursor, |s.messages|);
      UnconsumedMember(c.messages, s.cursor, |c.messages|);
      var m := Unconsumed(s.messages, s.cursor, |s.messages|)[0];
      assert m in Unconsumed(s.messages, s.cursor, |s.messages|);
      assert m in c.messages;
      assert m in Unconsumed(c.messages, s.cursor, |c.messages|);
    }
  }

  lemma {:induction false} CommitArrives(s: Sim, group: seq<Commit>, ct: real)
    requires Core(s) && Stamped(group) && (s.now.Some? ==> s.now.value <= ct)
    requires forall i :: 0 <= i < |group| ==> group[i].ts <= ct
    ensures ArrivedBy(Append(s.messages, group), ct)
  {
    AppendNumbers(s.messages, group);
    var r := Append(s.messages, group);
    forall i | 0 <= i < |r| && r[i].recvTs.Some? ensures r[i].recvTs.value <= ct {
      if i < |s.messages| {
        assert r[i] == s.messages[i];
      } else {
        assert r[i] == r[|s.messages| + (i - |s.messages|)];
        assert r[i].recvTs == Some(group[i - |s.messages|].ts);
      }
    }
  }
}
