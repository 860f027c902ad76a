/**
 What every corpus replay guarantees: rows follow the file, evaluation times never go back,
 every batch is exactly the unconsumed inbound rows, each row is consumed at most once, and the
 promise a timed wake makes is kept exactly when it fits the presence window.
*/
module ReplayLaws {
  import opened Prelude
  import opened Messages
  import opened Pacing
  import opened Gate
  import opened Snapshot
  import opened Replay
  import opened ReplayRun

  /* ---- The ledger of consumption --------------------------------------------- */

  predicate Terminal(t: Trace) { t.decision.action != Delay }

  /** The cursor before the k-th evaluation: the boundary of the last terminal decision. */
  function Consumed(traces: seq<Trace>, k: nat): nat
    requires k <= |traces|
  {
    if k == 0 then 0
    else if Terminal(traces[k - 1]) then traces[k - 1].snapshot.throughMsgId
    else Consumed(traces, k - 1)
  }

  ghost predicate Entry(ms: seq<Message>, traces: seq<Trace>, k: nat)
    requires k < |traces|
  {
    var snap := traces[k].snapshot;
    && snap.throughMsgId <= |ms|
    && snap.startMsgId == Consumed(traces, k)
    && snap.pendingMessages == Unconsumed(ms, snap.startMsgId, snap.throughMsgId)
    && snap.pendingMessages != []
  }

  ghost predicate Ordered(traces: seq<Trace>) {
    forall k :: 0 < k < |traces| ==>
      && traces[k - 1].snapshot.evaluatedTs <= traces[k].snapshot.evaluatedTs
      && traces[k - 1].snapshot.throughMsgId <= traces[k].snapshot.throughMsgId
  }

  ghost predicate Ledger(s: Sim) {
    && (forall k :: 0 <= k < |s.traces| ==> Entry(s.messages, s.traces, k))
    && Ordered(s.traces)
    && s.cursor == Consumed(s.traces, |s.traces|)
  }

  lemma {:induction false} ConsumedPrefix(traces: seq<Trace>, t: Trace, k: nat)
    requires k <= |traces|
    ensures Consumed(traces + [t], k) == Consumed(traces, k)
  {
    if k > 0 { ConsumedPrefix(traces, t, k - 1); }
  }

  lemma {:induction false} LedgerGrows(ms: seq<Message>, traces: seq<Trace>, t: Trace)
    requires forall k :: 0 <= k < |traces| ==> Entry(ms, traces, k)
    requires Ordered(traces)
    requires traces != [] ==> traces[|traces| - 1].snapshot.evaluatedTs <= t.snapshot.evaluatedTs
                              && traces[|traces| - 1].snapshot.throughMsgId <= t.snapshot.throughMsgId
    requires t.snapshot.throughMsgId <= |ms| && t.snapshot.startMsgId == Consumed(traces, |traces|)
    requires t.snapshot.pendingMessages == Unconsumed(ms, t.snapshot.startMsgId, t.snapshot.throughMsgId) != []
    ensures forall k :: 0 <= k < |traces| + 1 ==> Entry(ms, traces + [t], k)
    ensures Ordered(traces + [t])
  {
    forall k | 0 <= k < |traces| + 1 ensures Entry(ms, traces + [t], k) {
      ConsumedPrefix(traces, t, k);
      if k < |traces| { assert Entry(ms, traces, k); }
    }
  }

  lemma {:induction false} LedgerWake(env: Env, s: Sim, t: real)
    requires Core(s) && Usable(s, t) && Ledger(s)
    requires Unconsumed(s.messages, s.cursor, |s.messages|) != []
    ensures Ledger(WakeUp(env, s, t))
  {
    var snap := SnapshotAt(env, s, t);
    var tr := Trace(snap, EvaluateGate(env.features, snap));
    SnapshotFacts(env, s, t);
    EvaluationFacts(env, s, t);
    LedgerGrows(s.messages, s.traces, tr);
    ConsumedPrefix(s.traces, tr, |s.traces|);
    CursorAfter(s.(state := Paced(s.state, s.messages, t)), snap, tr.decision);
  }

  lemma {:induction false} CursorAfter(s: Sim, snap: GateSnapshot, d: Decision)
    ensures Dispose(s, snap, d).cursor == if d.action != Delay then snap.throughMsgId else s.cursor
  {
  }

  lemma {:induction false} LedgerFire(env: Env, s: Sim, before: Option<real>)
    requires Sound(env, s) && Ledger(s)
    ensures Ledger(FireDue(env, s, before))
  {
    if Due(s, before) { LedgerWake(env, s, s.nextWake.value); }
    FireStep(env, s, before);
    var f := Fire(env, s, before);
    if Due(f, before) { LedgerWake(env, f, f.nextWake.value); }
  }

  lemma {:induction false} LedgerCommit(s: Sim, group: seq<Commit>, ct: real)
    requires Numbered(s.messages) && Stamped(group) && Ledger(s)
    ensures Ledger(CommitGroup(s, group, ct))
  {
    AppendNumbers(s.messages, group);
    var more := Append(s.messages, group);
    forall k | 0 <= k < |s.traces| ensures Entry(more, s.traces, k) {
      assert Entry(s.messages, s.traces, k);
      var snap := s.traces[k].snapshot;
      UnconsumedIgnoresLater(s.messages, more, snap.startMsgId, snap.throughMsgId);
    }
  }

  lemma {:induction false} ClaimsRow(ms: seq<Message>, cursor: nat, i: nat)
    requires Numbered(ms) && cursor <= i < |ms| && !ms[i].isSelf
    ensures Unconsumed(ms, cursor, |ms|) != []
  {
    UnconsumedMember(ms, cursor, |ms|);
    assert Row(ms[i]) == i + 1;
    assert ms[i] in Unconsumed(ms, cursor, |ms|);
  }

  /** An inbound group leaves something to claim. */
  lemma {:induction false} InboundIsClaimable(s: Sim, group: seq<Commit>)
    requires Numbered(s.messages) && s.cursor <= |s.messages| && Stamped(group) && HasInbound(group)
    ensures var ms := Append(s.messages, group); Unconsumed(ms, s.cursor, |ms|) != []
  {
    AppendNumbers(s.messages, group);
    var i :| 0 <= i < |group| && !group[i].message.isSelf;
    ClaimsRow(Append(s.messages, group), s.cursor, |s.messages| + i);
  }

  lemma {:induction false} LedgerGroup(env: Env, s: Sim, commits: seq<Commit>, s1: Sim)
    requires Waiting(env, s) && Ledger(s) && commits != [] && Stamped(commits)
    requires s1 == AfterGroup(env, s, commits)
    ensures Ledger(s1)
  {
    var ct := CommitTime(s, commits[0].ts);
    GroupIsTimely(commits, ct);
    var group := commits[..GroupLength(commits, ct)];
    var f := FireDue(env, s, Some(ct));
    LedgerFire(env, s, Some(ct));
    TwoWakesSuffice(env, s, Some(ct));
    LedgerCommit(f, group, ct);
    var c := CommitGroup(f, group, ct);
    FireAndCommit(env, s, group, ct);
    if Wakes(env, c, group, ct) {
      InboundIsClaimable(f, group);
      LedgerWake(env, c, ct);
    }
  }

  lemma {:induction false} GroupAppends(env: Env, s: Sim, commits: seq<Commit>, s1: Sim)
    requires Waiting(env, s) && commits != [] && Stamped(commits)
    requires s1 == AfterGroup(env, s, commits)
    ensures s1.messages == Append(s.messages, commits[..GroupLength(commits, CommitTime(s, commits[0].ts))])
  {
    var ct := CommitTime(s, commits[0].ts);
    TwoWakesSuffice(env, s, Some(ct));
  }

  lemma {:induction false} RunInvariants(env: Env, s: Sim, commits: seq<Commit>, r: Sim)
    requires Waiting(env, s) && Ledger(s) && Stamped(commits) && r == Run(env, s, commits)
    ensures Sound(env, r) && Ledger(r) && r.nextWake.None?
    decreases |commits|
  {
    if commits == [] {
      TwoWakesSuffice(env, s, None);
      LedgerFire(env, s, None);
    } else {
      var n := GroupLength(commits, CommitTime(s, commits[0].ts));
      var s1 := AfterGroup(env, s, commits);
      GroupNonempty(s, commits);
      StillWaiting(env, s, commits, s1);
      LedgerGroup(env, s, commits, s1);
      RunStep(env, s, commits, s1, n);
      RunInvariants(env, s1, commits[n..], r);
    }
  }

  lemma {:induction false} AppendSplit(ms: seq<Message>, a: seq<Commit>, b: seq<Commit>)
    ensures Append(Append(ms, a), b) == Append(ms, a + b)
  {
    if b == [] {
      assert a + b == a;
    } else {
      var ab := a + b;
      assert ab[..|ab| - 1] == a + b[..|b| - 1] && ab[|ab| - 1] == b[|b| - 1];
      AppendSplit(ms, a, b[..|b| - 1]);
    }
  }

  /** The timeline is the corpus, in file order. */
  lemma {:induction false} RunAppends(env: Env, s: Sim, commits: seq<Commit>, r: Sim)
    requires Waiting(env, s) && Stamped(commits) && r == Run(env, s, commits)
    ensures r.messages == Append(s.messages, commits)
    decreases |commits|
  {
    if commits == [] {
      TwoWakesSuffice(env, s, None);
    } else {
      var n := GroupLength(commits, CommitTime(s, commits[0].ts));
      var s1 := AfterGroup(env, s, commits);
      GroupNonempty(s, commits);
      StillWaiting(env, s, commits, s1);
      GroupAppends(env, s, commits, s1);
      RunStep(env, s, commits, s1, n);
      RunAppends(env, s1, commits[n..], r);
      AppendSplit(s.messages, commits[..n], commits[n..]);
      assert commits == commits[..n] + commits[n..];
    }
  }

  /* ---- Conservation ------------------------------------------------------------ */

  /** Whoever consumed row `row` before the k-th evaluation. */
  lemma {:induction false} Eater(ms: seq<Message>, traces: seq<Trace>, k: nat, row: nat) returns (j: nat)
    requires Numbered(ms) && (forall i :: 0 <= i < |traces| ==> Entry(ms, traces, i)) && k <= |traces|
    requires 1 <= row <= Consumed(traces, k) && row <= |ms| && !ms[row - 1].isSelf
    ensures j < k && Terminal(traces[j]) && ms[row - 1] in traces[j].snapshot.pendingMessages
  {
    if Terminal(traces[k - 1]) && row > Consumed(traces, k - 1) {
      j := k - 1;
      assert Entry(ms, traces, j);
      UnconsumedMember(ms, Consumed(traces, j), traces[j].snapshot.throughMsgId);
      assert Row(ms[row - 1]) == row;
    } else {
      j := Eater(ms, traces, k - 1, row);
    }
  }

  lemma {:induction false} CursorCovers(ms: seq<Message>, traces: seq<Trace>, j: nat, k: nat)
    requires (forall i :: 0 <= i < |traces| ==> Entry(ms, traces, i)) && Ordered(traces)
    requires j < k <= |traces| && Terminal(traces[j])
    ensures traces[j].snapshot.throughMsgId <= Consumed(traces, k)
  {
    if k == j + 1 {
    } else {
      CursorCovers(ms, traces, j, k - 1);
      if Terminal(traces[k - 1]) { BoundariesGrow(traces, j, k - 1); }
    }
  }

  lemma {:induction false} BoundariesGrow(traces: seq<Trace>, j: nat, k: nat)
    requires Ordered(traces) && j <= k < |traces|
    ensures traces[j].snapshot.throughMsgId <= traces[k].snapshot.throughMsgId
    ensures traces[j].snapshot.evaluatedTs <= traces[k].snapshot.evaluatedTs
    decreases k
  {
    if j < k { BoundariesGrow(traces, j, k - 1); }
  }

  predicate InBatch(t: Trace, m: Message) { m in t.snapshot.pendingMessages }

  /** Did a terminal decision before the k-th evaluation take this message? */
  predicate TakenBefore(traces: seq<Trace>, k: nat, m: Message)
    requires k <= |traces|
  {
    exists j :: 0 <= j < k && Terminal(traces[j]) && InBatch(traces[j], m)
  }

  /** A batch is exactly the inbound rows up to its boundary that no earlier terminal decision
      took. */
  lemma {:induction false} BatchIsUnconsumed(ms: seq<Message>, traces: seq<Trace>, k: nat, i: nat)
    requires Numbered(ms) && (forall i :: 0 <= i < |traces| ==> Entry(ms, traces, i)) && Ordered(traces)
    requires k < |traces| && i < |ms|
    ensures InBatch(traces[k], ms[i]) <==>
              !ms[i].isSelf && i < traces[k].snapshot.throughMsgId && !TakenBefore(traces, k, ms[i])
  {
    assert Entry(ms, traces, k);
    UnconsumedMember(ms, Consumed(traces, k), traces[k].snapshot.throughMsgId);
    assert Row(ms[i]) == i + 1;
    if !ms[i].isSelf && i < Consumed(traces, k) {
      var j := Eater(ms, traces, k, i + 1);
      assert InBatch(traces[j], ms[i]);
    }
    forall j | 0 <= j < k && Terminal(traces[j]) && InBatch(traces[j], ms[i])
      ensures i < Consumed(traces, k)
    {
      assert Entry(ms, traces, j);
      UnconsumedMember(ms, Consumed(traces, j), traces[j].snapshot.throughMsgId);
      CursorCovers(ms, traces, j, k);
    }
  }

  /** What the run of a whole corpus reaches. */
  lemma {:induction false} RunReaches(env: Env, events: seq<Event>, r: Sim)
    requires r == Run(env, START, Placed(env, events))
    ensures Numbered(r.messages) && Ledger(r) && r.nextWake.None?
  {
    var commits := Placed(env, events);
    PlacedIsStamped(env, events);
    RunInvariants(env, START, commits, r);
  }

  lemma {:induction false} TimelineIsCorpus(env: Env, events: seq<Event>, r: Sim)
    requires r == Run(env, START, Placed(env, events))
    ensures r.messages == Append([], Placed(env, events))
  {
    PlacedIsStamped(env, events);
    RunAppends(env, START, Placed(env, events), r);
  }

  ghost predicate TimesAscend(traces: seq<Trace>) {
    forall j, k :: 0 <= j <= k < |traces| ==> traces[j].snapshot.evaluatedTs <= traces[k].snapshot.evaluatedTs
  }

  lemma {:induction false} OrderedTimes(traces: seq<Trace>)
    requires Ordered(traces)
    ensures TimesAscend(traces)
  {
    forall j, k | 0 <= j <= k < |traces| ensures traces[j].snapshot.evaluatedTs <= traces[k].snapshot.evaluatedTs {
      BoundariesGrow(traces, j, k);
    }
  }

  /** The timeline is the corpus in file order, whatever the timestamps; evaluation times never
      go back, and no timed wake is left over. */
  lemma {:induction false} ReplayIsOrdered(env: Env, events: seq<Event>, commits: seq<Commit>, r: Sim)
    requires commits == Placed(env, events) && r == Run(env, START, commits)
    ensures r.nextWake.None? && |r.messages| == |commits|
    ensures forall i :: 0 <= i < |commits| ==> r.messages[i] == commits[i].message.(rowId := Some(i + 1))
    ensures TimesAscend(r.traces)
  {
    RunReaches(env, events, r);
    TimelineIsCorpus(env, events, r);
    PlacedIsStamped(env, events);
    AppendNumbers([], commits);
    OrderedTimes(r.traces);
  }

  /* ---- The boundary is what was committed by then --------------------------------- */

  /** The time the clock shows when the i-th commit is placed: the latest time of any commit up to it. */
  function ClockAt(commits: seq<Commit>, i: nat): real
    requires i < |commits|
  {
    if i == 0 then commits[0].ts else MaxReal(ClockAt(commits, i - 1), commits[i].ts)
  }

  lemma {:induction false} ClockMonotone(commits: seq<Commit>, i: nat, j: nat)
    requires i <= j < |commits|
    ensures ClockAt(commits, i) <= ClockAt(commits, j)
    decreases j
  {
    if i < j { ClockMonotone(commits, i, j - 1); }
  }

  /** An evaluation sees a commit exactly when the clock had reached it: one placed at the very time of
      the evaluation is seen, one placed later is not. */
  ghost predicate Sees(all: seq<Commit>, t: Trace) {
    forall i :: 0 <= i < |all| ==> (i < t.snapshot.throughMsgId <==> ClockAt(all, i) <= t.snapshot.evaluatedTs)
  }

  /** The state of a run that has placed the first of these commits. */
  ghost predicate Tracks(all: seq<Commit>, s: Sim) {
    && |s.messages| <= |all|
    && s.now == (if s.messages == [] then None else Some(ClockAt(all, |s.messages| - 1)))
    && forall k :: 0 <= k < |s.traces| ==> Sees(all, s.traces[k])
  }

  /** Whatever happens next lies before the next commit. */
  ghost predicate Early(all: seq<Commit>, placed: nat, t: real) {
    placed < |all| ==> t < ClockAt(all, placed)
  }

  lemma {:induction false} BoundarySees(all: seq<Commit>, t: Trace)
    requires var placed := t.snapshot.throughMsgId;
             && placed <= |all| && Early(all, placed, t.snapshot.evaluatedTs)
             && (placed > 0 ==> ClockAt(all, placed - 1) <= t.snapshot.evaluatedTs)
    ensures Sees(all, t)
  {
    var placed := t.snapshot.throughMsgId;
    forall i | 0 <= i < |all| ensures i < placed <==> ClockAt(all, i) <= t.snapshot.evaluatedTs {
      if i < placed { ClockMonotone(all, i, placed - 1); } else { ClockMonotone(all, placed, i); }
    }
  }

  lemma {:induction false} WakeSees(env: Env, all: seq<Commit>, s: Sim, t: real)
    requires Core(s) && Usable(s, t) && Tracks(all, s) && Early(all, |s.messages|, t)
    ensures Tracks(all, WakeUp(env, s, t))
  {
    SnapshotFacts(env, s, t);
    EvaluationFacts(env, s, t);
    var snap := SnapshotAt(env, s, t);
    BoundarySees(all, Trace(snap, EvaluateGate(env.features, snap)));
  }

  lemma {:induction false} FireSees(env: Env, all: seq<Commit>, s: Sim, before: Option<real>)
    requires Sound(env, s) && Tracks(all, s)
    requires |s.messages| < |all| ==> before == Some(ClockAt(all, |s.messages|))
    ensures Tracks(all, FireDue(env, s, before))
  {
    if Due(s, before) { WakeSees(env, all, s, s.nextWake.value); }
    FireStep(env, s, before);
    var f := Fire(env, s, before);
    if Due(f, before) { WakeSees(env, all, f, f.nextWake.value); }
  }

  /** Commits that are not later than the clock share its time. */
  lemma {:induction false} GroupClock(all: seq<Commit>, placed: nat, n: nat)
    requires placed + n < |all| && forall i :: placed <= i <= placed + n ==> all[i].ts <= ClockAt(all, placed)
    ensures ClockAt(all, placed + n) == ClockAt(all, placed)
  {
    if n > 0 { GroupClock(all, placed, n - 1); }
  }

  lemma {:induction false} CommitSees(all: seq<Commit>, s: Sim, n: nat)
    requires Tracks(all, s) && Numbered(s.messages) && Stamped(all)
    requires 0 < n && |s.messages| + n <= |all|
    requires forall i :: |s.messages| <= i < |s.messages| + n ==> all[i].ts <= ClockAt(all, |s.messages|)
    ensures var group := all[|s.messages|..|s.messages| + n];
            Tracks(all, CommitGroup(s, group, ClockAt(all, |s.messages|)))
  {
    AppendNumbers(s.messages, all[|s.messages|..|s.messages| + n]);
    GroupClock(all, |s.messages|, n - 1);
  }

  /** The group that joins at this time: the next commits up to the first that is later. */
  ghost predicate Joins(all: seq<Commit>, placed: nat, n: nat, ct: real) {
    && 0 < n && placed + n <= |all| && ct == ClockAt(all, placed)
    && (forall i :: placed <= i < placed + n ==> all[i].ts <= ct)
    && (placed + n < |all| ==> all[placed + n].ts > ct)
  }

  ghost predicate Timely(s: Sim, group: seq<Commit>, ct: real) {
    && group != [] && Stamped(group) && (s.now.Some? ==> s.now.value <= ct)
    && forall i :: 0 <= i < |group| ==> group[i].ts <= ct
  }

  lemma {:induction false} GroupJoins(all: seq<Commit>, s: Sim, rest: seq<Commit>, ct: real, n: nat)
    requires Tracks(all, s) && |s.messages| < |all| && rest == all[|s.messages|..]
    requires ct == CommitTime(s, rest[0].ts) && n == GroupLength(rest, ct) && Stamped(all)
    ensures Joins(all, |s.messages|, n, ct) && rest[..n] == all[|s.messages|..|s.messages| + n]
    ensures Timely(s, rest[..n], ct)
  {
    var placed := |s.messages|;
    assert rest[0] == all[placed];
    GroupIsTimely(rest, ct);
    forall i | placed <= i < placed + n ensures all[i].ts <= ct { assert all[i] == rest[i - placed]; }
    if placed + n < |all| { assert rest[n] == all[placed + n]; }
  }

  lemma {:induction false} CommitWakeSees(env: Env, all: seq<Commit>, f: Sim, group: seq<Commit>, ct: real, c: Sim)
    requires Tracks(all, f) && Numbered(f.messages) && Stamped(all) && Joins(all, |f.messages|, |group|, ct)
    requires group == all[|f.messages|..|f.messages| + |group|] && c == CommitGroup(f, group, ct)
    requires Core(c) && Usable(c, ct)
    ensures Tracks(all, c) && Tracks(all, WakeUp(env, c, ct))
  {
    CommitSees(all, f, |group|);
    AppendNumbers(f.messages, group);
    WakeSees(env, all, c, ct);
  }

  lemma {:induction false} FiredSees(env: Env, all: seq<Commit>, s: Sim, ct: real, f: Sim)
    requires Waiting(env, s) && Tracks(all, s) && |s.messages| < |all| && ct == ClockAt(all, |s.messages|)
    requires f == FireDue(env, s, Some(ct))
    ensures Tracks(all, f) && f.messages == s.messages && Numbered(f.messages)
  {
    TwoWakesSuffice(env, s, Some(ct));
    FireSees(env, all, s, Some(ct));
  }

  lemma {:induction false} CommittedIsUsable(env: Env, s: Sim, group: seq<Commit>, ct: real, c: Sim)
    requires Waiting(env, s) && Timely(s, group, ct) && c == CommitGroup(FireDue(env, s, Some(ct)), group, ct)
    ensures Core(c) && Usable(c, ct)
  {
    FireAndCommit(env, s, group, ct);
  }

  lemma {:induction false} GroupStepSees(
    env: Env, all: seq<Commit>, s: Sim, group: seq<Commit>, ct: real, f: Sim, c: Sim)
    requires Waiting(env, s) && Tracks(all, s) && Stamped(all) && Joins(all, |s.messages|, |group|, ct)
    requires group == all[|s.messages|..|s.messages| + |group|] && Timely(s, group, ct)
    requires f == FireDue(env, s, Some(ct)) && c == CommitGroup(f, group, ct)
    ensures Tracks(all, c) && Tracks(all, WakeUp(env, c, ct))
  {
    FiredSees(env, all, s, ct, f);
    CommittedIsUsable(env, s, group, ct, c);
    CommitWakeSees(env, all, f, group, ct, c);
  }

  lemma {:induction false} GroupSees(env: Env, all: seq<Commit>, s: Sim, rest: seq<Commit>, s1: Sim)
    requires Waiting(env, s) && Tracks(all, s) && Stamped(all) && |s.messages| < |all| && rest == all[|s.messages|..]
    requires s1 == AfterGroup(env, s, rest)
    ensures Tracks(all, s1)
  {
    var ct := CommitTime(s, rest[0].ts);
    var n := GroupLength(rest, ct);
    GroupJoins(all, s, rest, ct, n);
    var f := FireDue(env, s, Some(ct));
    GroupStepSees(env, all, s, rest[..n], ct, f, CommitGroup(f, rest[..n], ct));
  }

  lemma {:induction false} RoundSees(env: Env, all: seq<Commit>, s: Sim, rest: seq<Commit>, s1: Sim, n: nat)
    requires Waiting(env, s) && Tracks(all, s) && Stamped(all) && rest != [] && rest == all[|s.messages|..]
    requires s1 == AfterGroup(env, s, rest) && n == GroupLength(rest, CommitTime(s, rest[0].ts))
    ensures Tracks(all, s1) && rest[n..] == all[|s1.messages|..]
  {
    assert Stamped(rest);
    GroupSees(env, all, s, rest, s1);
    GroupAppends(env, s, rest, s1);
    AppendNumbers(s.messages, rest[..n]);
  }

  lemma {:induction false} RoundWaits(env: Env, s: Sim, rest: seq<Commit>, s1: Sim, n: nat)
    requires Waiting(env, s) && rest != [] && Stamped(rest)
    requires s1 == AfterGroup(env, s, rest) && n == GroupLength(rest, CommitTime(s, rest[0].ts))
    ensures n > 0 && Waiting(env, s1)
  {
    GroupNonempty(s, rest);
    StillWaiting(env, s, rest, s1);
  }

  lemma {:induction false} RunSees(env: Env, all: seq<Commit>, s: Sim, rest: seq<Commit>, r: Sim)
    requires Waiting(env, s) && Tracks(all, s) && Stamped(all) && rest == all[|s.messages|..]
    requires r == Run(env, s, rest)
    ensures Tracks(all, r)
    decreases |rest|
  {
    if rest == [] {
      FireSees(env, all, s, None);
    } else {
      var n := GroupLength(rest, CommitTime(s, rest[0].ts));
      var s1 := AfterGroup(env, s, rest);
      RoundWaits(env, s, rest, s1, n);
      RoundSees(env, all, s, rest, s1, n);
      RunStep(env, s, rest, s1, n);
      RunSees(env, all, s1, rest[n..], r);
    }
  }

  /** Over every corpus: an evaluation sees exactly the messages that are committed by its time. A wake
      strictly before a commit does not see it, one at the same time does. */
  lemma {:induction false} EvaluationSeesCommitted(env: Env, events: seq<Event>, r: Sim, k: nat, i: nat)
    requires r == Run(env, START, Placed(env, events)) && k < |r.traces| && i < |Placed(env, events)|
    ensures i < r.traces[k].snapshot.throughMsgId
            <==> ClockAt(Placed(env, events), i) <= r.traces[k].snapshot.evaluatedTs
  {
    var all := Placed(env, events);
    PlacedIsStamped(env, events);
    assert all[0..] == all;
    RunSees(env, all, START, all, r);
    assert Sees(all, r.traces[k]);
  }

  /** The replay conserves messages, over every corpus and every feature set: each evaluation claims a
      nonempty batch that is exactly the inbound messages committed by then which nobody has consumed. */
  lemma {:induction false} ReplayConserves(env: Env, events: seq<Event>, r: Sim, k: nat, i: nat)
    requires r == Run(env, START, Placed(env, events)) && k < |r.traces| && i < |r.messages|
    ensures |r.messages| == |Placed(env, events)|
    ensures r.traces[k].snapshot.pendingMessages != []
    ensures InBatch(r.traces[k], r.messages[i]) <==>
              && !r.messages[i].isSelf && !TakenBefore(r.traces, k, r.messages[i])
              && ClockAt(Placed(env, events), i) <= r.traces[k].snapshot.evaluatedTs
  {
    RunReaches(env, events, r);
    ReplayIsOrdered(env, events, Placed(env, events), r);
    assert Entry(r.messages, r.traces, k);
    BatchIsUnconsumed(r.messages, r.traces, k, i);
    EvaluationSeesCommitted(env, events, r, k, i);
  }

  /* ---- The promise of a timed wake ------------------------------------------------ */

  /** What arming a wake says about the snapshot that armed it. */
  lemma {:induction false} ArmedMeansOpen(env: Env, s: Sim, t: real)
    requires Core(s) && Usable(s, t) && WakeUp(env, s, t).nextWake.Some?
    ensures var a := SnapshotAt(env, s, t);
            !a.muted && !HardTriggered(a) && !a.hasOtherAssistant && !ModeTriggers(a, Score(env.features(a)))
  {
    var a := SnapshotAt(env, s, t);
    SnapshotFacts(env, s, t);
    Precedence(a, env.features(a));
    DisposeFacts(s.(state := Paced(s.state, s.messages, t)), a, env.features(a));
  }

  /** The direct-address facts of an unchanged batch do not change while the clock moves. */
  lemma {:induction false} AddressingIsStable(env: Env, s: Sim, t: real, s1: Sim, w: real)
    requires Core(s) && Usable(s, t) && s1 == WakeUp(env, s, t) && s1.nextWake == Some(w)
    ensures var a, b := SnapshotAt(env, s, t), SnapshotAt(env, s1, w);
            b.muted == a.muted && b.hasDirectAt == a.hasDirectAt && b.hasOtherAssistant == a.hasOtherAssistant
            && b.hasQuoteToSelf == a.hasQuoteToSelf
  {
    SecondLook(env, s, t, s1, w);
    EvaluationFacts(env, s, t);
    LastRowIsCount(s.messages);
    QuoteIsCorpusWide(env, s.messages, |s.messages|, t, SnapshotAt(env, s, t).pendingMessages);
    QuoteIsCorpusWide(env, s.messages, |s.messages|, w, SnapshotAt(env, s, t).pendingMessages);
  }

  predicate QuotesSomeSelf(pending: seq<Message>, ms: seq<Message>) {
    exists i, j :: 0 <= i < |pending| && 0 <= j < |ms| && pending[i].replyTo.Some? && ms[j].isSelf
        && ms[j].id == pending[i].replyTo
  }

  /** A quote resolves against the whole committed corpus; the rendered window adds nothing. */
  lemma {:induction false} QuoteIsCorpusWide(env: Env, ms: seq<Message>, through: nat, t: real, pending: seq<Message>)
    requires Numbered(ms) && ArrivedBy(ms, t)
    ensures QuotesSelf(pending, Recent(ms, through, t - env.windowS, env.limit).messages, SelfIdsBy(ms, t))
            <==> QuotesSomeSelf(pending, ms)
  {
    var recent := Recent(ms, through, t - env.windowS, env.limit).messages;
    if QuotesSelf(pending, recent, SelfIdsBy(ms, t)) {
      var i :| 0 <= i < |pending| && pending[i].replyTo.Some? &&
        (pending[i].replyTo.value in SelfIdsBy(ms, t)
         || exists j :: 0 <= j < |recent| && recent[j].id == pending[i].replyTo && recent[j].isSelf);
      if pending[i].replyTo.value in SelfIdsBy(ms, t) {
        var j :| 0 <= j < |ms| && ms[j].isSelf && ms[j].id == pending[i].replyTo;
      } else {
        var j :| 0 <= j < |recent| && recent[j].id == pending[i].replyTo && recent[j].isSelf;
        RecentFromTimeline(ms, through, t - env.windowS, env.limit, recent[j]);
      }
    }
    if QuotesSomeSelf(pending, ms) {
      var i, j :| 0 <= i < |pending| && 0 <= j < |ms| && pending[i].replyTo.Some? && ms[j].isSelf
          && ms[j].id == pending[i].replyTo;
      assert ms[j].id.value in SelfIdsBy(ms, t);
    }
  }

  /** The virtual messages of a measured idle of exactly `avg * k` are worth `k`. */
  lemma {:induction false} VirtualWorth(avg: real, k: int, idle: real)
    requires avg > 0.0 && k >= 1
    ensures idle == avg * k as real ==> idle / avg == k as real
    ensures idle < avg * k as real ==> idle / avg < k as real
  {
    var q := idle / avg;
    assert q * avg == idle;
    if q >= k as real { assert (q - k as real) * avg >= 0.0; }
    if idle == avg * k as real { assert (q - k as real) * avg == 0.0; }
  }

  lemma {:induction false} FrequencyAtWake(a: GateSnapshot, b: GateSnapshot, windowS: real, score: real)
    requires Followup(a, b, windowS) && a.mode.Frequency?
    ensures ModeTriggers(b, score) <==> a.recentAverageInterval * (a.threshold - a.pending) as real <= windowS
  {
    VirtualWorth(a.recentAverageInterval, a.threshold - a.pending, b.idleSeconds);
  }

  lemma {:induction false} WokenFacts(env: Env, s: Sim, t: real, s1: Sim, w: real, a: GateSnapshot, b: GateSnapshot)
    requires Core(s) && Usable(s, t) && s1 == WakeUp(env, s, t) && s1.nextWake == Some(w)
    requires a == SnapshotAt(env, s, t) && b == SnapshotAt(env, s1, w)
    ensures Followup(a, b, env.windowS) && a.mode == env.cfg.mode
    ensures !b.muted && !HardTriggered(b) && !b.hasOtherAssistant && !BackoffFacts(b).applied
  {
    SecondLook(env, s, t, s1, w);
    ArmedMeansOpen(env, s, t);
    AddressingIsStable(env, s, t, s1, w);
    SnapshotFacts(env, s1, w);
  }

  /** Frequency mode: a wake promises the trigger, and keeps the promise exactly when the
      silence it waits for fits into the presence window. */
  lemma {:induction false} FrequencyPromise(
    env: Env, s: Sim, t: real, s1: Sim, w: real, a: GateSnapshot, b: GateSnapshot)
    requires Core(s) && Usable(s, t) && s1 == WakeUp(env, s, t) && s1.nextWake == Some(w)
    requires a == SnapshotAt(env, s, t) && b == SnapshotAt(env, s1, w)
    requires env.cfg.mode.Frequency? && !AnyError(env.features(b))
    ensures (EvaluateGate(env.features, b).action == Trigger)
            <==> (a.recentAverageInterval * (a.threshold - a.pending) as real <= env.windowS)
  {
    WokenFacts(env, s, t, s1, w, a, b);
    FrequencyVerdict(a, b, env.windowS, env.features(b));
  }

  lemma {:induction false} FrequencyVerdict(a: GateSnapshot, b: GateSnapshot, windowS: real, cs: seq<Contribution>)
    requires Followup(a, b, windowS) && a.mode.Frequency? && !AnyError(cs)
    requires !b.muted && !HardTriggered(b) && !b.hasOtherAssistant && !BackoffFacts(b).applied
    ensures (Decide(b, cs).action == Trigger)
            <==> (a.recentAverageInterval * (a.threshold - a.pending) as real <= windowS)
  {
    FrequencyAtWake(a, b, windowS, Score(cs));
    OpenFollowsMode(b, cs);
  }

  lemma {:induction false} OpenFollowsMode(b: GateSnapshot, cs: seq<Contribution>)
    requires !b.muted && !HardTriggered(b) && !b.hasOtherAssistant && !AnyError(cs) && !BackoffFacts(b).applied
    ensures Decide(b, cs).action == Trigger <==> ModeTriggers(b, Score(cs))
  {
  }

  /** Reply mode: a wake promises that the idle bonus, inactive when it was armed, is active. */
  lemma {:induction false} ReplyPromise(env: Env, s: Sim, t: real, s1: Sim, w: real)
    requires Core(s) && Usable(s, t) && s1 == WakeUp(env, s, t) && s1.nextWake == Some(w)
    requires env.cfg.mode.ReplyNecessity?
    ensures !IdleBonusActive(SnapshotAt(env, s, t)) && IdleBonusActive(SnapshotAt(env, s1, w))
  {
    SecondLook(env, s, t, s1, w);
  }

  /* ---- A promise that is not kept ---------------------------------------------------- */

  /** A group chat in frequency mode with a threshold of 8, a window of 300 seconds and no features. */
  function QuietEnv(): Env {
    Env("chat", "bot", true, GateConfig(Frequency, 8, 60, 1.0, 0.0, 0.0, 0), None, false, 300.0, 10,
        _ => [], _ => false)
  }

  function Plain(ts: real, row: Option<nat>): Message {
    Message("chat", false, "", None, None, [], Some(ts), row)
  }

  function MessageAt(ts: real): Event { Event(true, Plain(ts, None), None) }

  /** After one message: no average yet, so nothing to wait for. */
  function AfterFirst(): Sim {
    var ms := [Plain(0.0, Some(1))];
    WakeUp(QuietEnv(), START.(messages := ms, now := Some(0.0)), 0.0)
  }

  /** After the second: the average is 100, and six more would take 600 seconds of silence. */
  function AfterSecond(): Sim {
    var ms := [Plain(0.0, Some(1)), Plain(100.0, Some(2))];
    WakeUp(QuietEnv(), AfterFirst().(messages := ms, now := Some(100.0)), 100.0)
  }

  /** A snapshot in which nothing addresses the bot, holds it back or fails. */
  ghost predicate Idle(snap: GateSnapshot, pending: nat, avg: real, last: Option<real>, idle: real) {
    && snap.mode == Frequency && snap.threshold == 8 && snap.pending == pending
    && snap.recentAverageInterval == avg && snap.lastNonselfTs == last && snap.idleSeconds == idle
    && !snap.muted && !HardTriggered(snap) && !snap.hasOtherAssistant && !BackoffFacts(snap).applied
  }

  lemma {:induction false} FirstSnapshot(s: Sim)
    requires s == START.(messages := [Plain(0.0, Some(1))], now := Some(0.0))
    ensures Paced(s.state, s.messages, 0.0) == FRESH_STATE
    ensures Idle(SnapshotAt(QuietEnv(), s, 0.0), 1, 0.0, Some(0.0), 0.0)
  {
    var ms := s.messages;
    assert ms[..0] == [];
    assert Evolve(ms, 0.0) == Step(Evolve([], 0.0), ms[0], 0.0);
    assert Window(ms, 1, 0.0 - 300.0) == [] + [ms[0]];
    assert Unconsumed(ms, 0, 1) == [] + [ms[0]];
  }

  lemma {:induction false} FirstEvaluation()
    ensures var s := AfterFirst();
            && s.messages == [Plain(0.0, Some(1))] && s.now == Some(0.0) && s.cursor == 0
            && s.state == FRESH_STATE && s.previousEnd == None && s.nextWake == None && |s.traces| == 1
  {
    var s := START.(messages := [Plain(0.0, Some(1))], now := Some(0.0));
    FirstSnapshot(s);
  }

  lemma {:induction false} TwoPaced(ms: seq<Message>, t: real)
    requires ms == [Plain(0.0, Some(1)), Plain(100.0, Some(2))] && t >= 100.0
    ensures Evolve(ms, t) == Pace(Some(100.0), Some(100.0)) && Unconsumed(ms, 0, 2) == ms && LastRow(ms) == 2
  {
    var one := ms[..1];
    assert one == [ms[0]] && one[..0] == [];
    assert Evolve(one, t) == Step(Evolve([], t), ms[0], t) == Pace(None, Some(0.0));
    assert Unconsumed(one, 0, 2) == [] + [ms[0]];
  }

  lemma {:induction false} TwoInWindow(ms: seq<Message>, since: real)
    requires ms == [Plain(0.0, Some(1)), Plain(100.0, Some(2))]
    ensures since <= 0.0 ==> LastNonself(Window(ms, 2, since)) == Some(100.0)
    ensures since > 100.0 ==> LastNonself(Window(ms, 2, since)) == None
  {
    var w := Window(ms, 2, since);
    WindowMember(ms, 2, since);
    LastNonselfMax(w);
    if since <= 0.0 { assert ms[1] in w; }
  }

  lemma {:induction false} LaterSnapshot(s: Sim, t: real)
    requires s.messages == [Plain(0.0, Some(1)), Plain(100.0, Some(2))] && s.cursor == 0 && (t == 100.0 || t == 700.0)
    requires s.state == FRESH_STATE || s.state == FRESH_STATE.(avgInterval := Some(100.0))
    requires s.previousEnd == None
    ensures Paced(s.state, s.messages, t) == FRESH_STATE.(avgInterval := Some(100.0))
    ensures Idle(SnapshotAt(QuietEnv(), s, t), 2, 100.0, if t == 100.0 then Some(100.0) else None,
                 if t == 100.0 then 0.0 else 300.0)
  {
    TwoPaced(s.messages, t);
    TwoInWindow(s.messages, t - 300.0);
  }

  /** Two messages are in, nothing is consumed, and the wake for six more is armed. */
  ghost predicate Armed(s: Sim) {
    && s.messages == [Plain(0.0, Some(1)), Plain(100.0, Some(2))] && s.cursor == 0
    && s.state == FRESH_STATE.(avgInterval := Some(100.0)) && s.previousEnd == None && s.nextWake == Some(700.0)
    && |s.traces| == 2
    && s.traces[1].decision.action == Delay && s.traces[1].decision.delaySeconds == Some(600.0)
  }

  lemma {:induction false} IdleWaits(snap: GateSnapshot)
    requires Idle(snap, 2, 100.0, Some(100.0), 0.0)
    ensures Decide(snap, []).action == Delay && Decide(snap, []).delaySeconds == Some(600.0)
  {
  }

  lemma {:induction false} WakeArms(s: Sim)
    requires s.messages == [Plain(0.0, Some(1)), Plain(100.0, Some(2))] && s.cursor == 0
    requires s.state == FRESH_STATE && s.previousEnd == None && |s.traces| == 1
    ensures Armed(WakeUp(QuietEnv(), s, 100.0))
  {
    LaterSnapshot(s, 100.0);
    IdleWaits(SnapshotAt(QuietEnv(), s, 100.0));
  }

  lemma {:induction false} SecondEvaluation()
    ensures Armed(AfterSecond())
  {
    FirstEvaluation();
    WakeArms(AfterFirst().(messages := [Plain(0.0, Some(1)), Plain(100.0, Some(2))], now := Some(100.0)));
  }

  /** What the run of the example shows. */
  ghost predicate PromiseMissed(r: Sim) {
    && |r.traces| == 3
    && r.traces[1].decision.action == Delay && r.traces[1].decision.delaySeconds == Some(600.0)
    && r.traces[2].snapshot.evaluatedTs == 700.0 && r.traces[2].decision.action == Delay
  }

  lemma {:induction false} ThirdEvaluation(s: Sim)
    requires Armed(s)
    ensures PromiseMissed(FireDue(QuietEnv(), s, None))
  {
    LaterSnapshot(s, 700.0);
  }

  lemma {:induction false} TwoCommits()
    ensures Placed(QuietEnv(), [MessageAt(0.0), MessageAt(100.0)])
            == [Commit(0.0, Plain(0.0, None)), Commit(100.0, Plain(100.0, None))]
  {
    var events := [MessageAt(0.0), MessageAt(100.0)];
    var one := events[..1];
    assert one == [MessageAt(0.0)] && one[..0] == [];
    assert Placed(QuietEnv(), one) == [] + [Commit(0.0, Plain(0.0, None))];
  }

  lemma {:induction false} AloneAppends(ms: seq<Message>, commits: seq<Commit>)
    requires commits != [] && (|commits| > 1 ==> commits[1].ts > commits[0].ts)
    ensures GroupLength(commits, commits[0].ts) == 1
    ensures Append(ms, commits[..1]) == ms + [commits[0].message.(rowId := Some(|ms| + 1))]
    ensures !commits[0].message.isSelf ==> HasInbound(commits[..1])
  {
    var rest, group := commits[1..], commits[..1];
    assert rest != [] ==> rest[0] == commits[1];
    assert GroupLength(rest, commits[0].ts) == 0;
    assert group[..0] == [] && Append(ms, group[..0]) == ms && group[0] == commits[0];
  }

  /** With no wake armed, an inbound commit that is alone in its group is evaluated at once. */
  lemma {:induction false} AloneInGroup(env: Env, s: Sim, commits: seq<Commit>, c: Sim, s1: Sim)
    requires commits != [] && !commits[0].message.isSelf && s.nextWake.None?
    requires CommitTime(s, commits[0].ts) == commits[0].ts && (|commits| > 1 ==> commits[1].ts > commits[0].ts)
    requires c == s.(messages := s.messages + [commits[0].message.(rowId := Some(|s.messages| + 1))],
                     now := Some(commits[0].ts))
    requires s1 == WakeUp(env, c, commits[0].ts)
    ensures Run(env, s, commits) == Run(env, s1, commits[1..])
  {
    AloneAppends(s.messages, commits);
    assert FireDue(env, s, Some(commits[0].ts)) == s;
    assert CommitGroup(s, commits[..1], commits[0].ts) == c;
    RunStep(env, s, commits, s1, 1);
  }

  /** Two inbound commits one after the other, the first of which arms nothing. */
  lemma {:induction false} TwoInARow(env: Env, commits: seq<Commit>, a: Sim, b: Sim, c0: Sim, c1: Sim)
    requires |commits| == 2 && !commits[0].message.isSelf && !commits[1].message.isSelf
    requires commits[0].ts < commits[1].ts
    requires c0 == START.(messages := [commits[0].message.(rowId := Some(1))], now := Some(commits[0].ts))
    requires a == WakeUp(env, c0, commits[0].ts)
    requires a.messages == c0.messages && a.now == c0.now && a.nextWake.None?
    requires c1 == a.(messages := a.messages + [commits[1].message.(rowId := Some(2))], now := Some(commits[1].ts))
    requires b == WakeUp(env, c1, commits[1].ts)
    ensures Run(env, START, commits) == Run(env, b, [])
  {
    var rest := commits[1..];
    AloneInGroup(env, START, commits, c0, a);
    assert rest[0] == commits[1] && rest[1..] == [];
    AloneInGroup(env, a, rest, c1, b);
  }

  /** Two messages 100 seconds apart: the wake that waits for six more to become due by silence comes
      at 700, but the window then shows 300 seconds at most, and it does not trigger. */
  lemma {:induction false} MissedPromiseExample()
    ensures PromiseMissed(Run(QuietEnv(), START, Placed(QuietEnv(), [MessageAt(0.0), MessageAt(100.0)])))
  {
    var c0 := START.(messages := [Plain(0.0, Some(1))], now := Some(0.0));
    var c1 := AfterFirst().(messages := [Plain(0.0, Some(1)), Plain(100.0, Some(2))], now := Some(100.0));
    TwoCommits();
    FirstEvaluation();
    assert c1.messages == c0.messages + [Plain(100.0, Some(2))];
    TwoInARow(QuietEnv(), Placed(QuietEnv(), [MessageAt(0.0), MessageAt(100.0)]), AfterFirst(), AfterSecond(), c0, c1);
    SecondEvaluation();
    ThirdEvaluation(AfterSecond());
  }
}
