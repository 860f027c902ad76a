/**
 The replay as a whole: the loops of `replay_corpus`, and what every run of them guarantees.
*/
module ReplayRun {
  import opened Prelude
  import opened Pacing
  import opened Gate
  import opened Snapshot
  import opened Replay

  /* ---- The simulation ------------------------------------------------------- */

  /** Every message event of the chat that has a time of its own or of its event is committed, and
      nothing else is: `commits` are the events at the positions `from`, in file order, each stamped
      with its own receive time or else with the time of the event. */
  ghost predicate Picks(env: Env, events: seq<Event>, commits: seq<Commit>, from: seq<nat>) {
    && |commits| == |from|
    && (forall k, l :: 0 <= k < l < |from| ==> from[k] < from[l])
    && (forall i: nat :: i in from <==>
          && i < |events| && events[i].isMessage && events[i].message.chatKey == env.chatKey
          && (events[i].message.recvTs.Some? || events[i].ts.Some?))
    && (forall k :: 0 <= k < |from| ==> from[k] in from && IsCommitOf(commits[k], events[from[k]]))
  }

  ghost predicate IsCommitOf(c: Commit, e: Event) {
    && Some(c.ts) == (if e.message.recvTs.Some? then e.message.recvTs else e.ts)
    && c.message == e.message.(recvTs := Some(c.ts))
  }

  lemma {:induction false} PicksMore(
    env: Env, events: seq<Event>, e: Event, commits: seq<Commit>, from: seq<nat>, c: Commit)
    requires Picks(env, events, commits, from)
    requires e.isMessage && e.message.chatKey == env.chatKey && IsCommitOf(c, e)
    ensures Picks(env, events + [e], commits + [c], from + [|events|])
  {
    var all, next, cs := events + [e], from + [|events|], commits + [c];
    forall k | 0 <= k < |next| ensures next[k] in next && IsCommitOf(cs[k], all[next[k]]) {
      if k < |from| { assert from[k] in from; }
    }
    forall k, l | 0 <= k < l < |next| ensures next[k] < next[l] { assert next[k] == from[k] && from[k] in from; }
  }

  lemma {:induction false} PicksNoMore(env: Env, events: seq<Event>, e: Event, commits: seq<Commit>, from: seq<nat>)
    requires Picks(env, events, commits, from)
    requires !e.isMessage || e.message.chatKey != env.chatKey || (e.message.recvTs.None? && e.ts.None?)
    ensures Picks(env, events + [e], commits, from)
  {
    forall k | 0 <= k < |from| ensures from[k] in from && IsCommitOf(commits[k], (events + [e])[from[k]]) {
      assert from[k] in from;
    }
  }

  method PlaceCommits(env: Env, events: seq<Event>) returns (commits: seq<Commit>)
    ensures commits == Placed(env, events)
    ensures exists from: seq<nat> :: Picks(env, events, commits, from)
  {
    commits := [];
    ghost var from: seq<nat> := [];
    for i := 0 to |events|
      invariant commits == Placed(env, events[..i])
      invariant Picks(env, events[..i], commits, from)
    {
      assert events[..i + 1] == events[..i] + [events[i]];
      assert events[..i + 1][..i] == events[..i];
      var e := events[i];
      var ts := if e.message.recvTs.Some? then e.message.recvTs else e.ts;
      if !e.isMessage || e.message.chatKey != env.chatKey || ts.None? {
        PicksNoMore(env, events[..i], e, commits, from);
        continue;
      }
      var c := Commit(ts.value, e.message.(recvTs := ts));
      PicksMore(env, events[..i], e, commits, from, c);
      commits, from := commits + [c], from + [i];
    }
    assert events[..|events|] == events;
  }

  /** One scheduler wake: claim, assemble, evaluate, dispose. */
  method EvaluateAt(env: Env, s: Sim, t: real) returns (s': Sim)
    ensures s' == WakeUp(env, s, t)
  {
    var avg := EvolveAvgInterval(s.messages, t);
    var state := s.state;
    if avg.Some? { state := state.(avgInterval := avg); }
    var snap := SnapshotAt(env, s, t);
    s' := Dispose(s.(state := state), snap, EvaluateGate(env.features, snap));
  }

  method CommitAll(s: Sim, group: seq<Commit>, ct: real) returns (s': Sim)
    ensures s' == CommitGroup(s, group, ct)
  {
    var messages := s.messages;
    for k := 0 to |group|
      invariant messages == Append(s.messages, group[..k])
    {
      assert group[..k + 1][..k] == group[..k];
      messages := messages + [group[k].message.(rowId := Some(|messages| + 1))];
    }
    assert group[..|group|] == group;
    s' := s.(messages := messages, now := Some(ct));
  }

  /** The corpus replay. The inner loop and the final capped loop both terminate because a
      chain of timed wakes without a commit has at most two members; the cap is never hit. */
  method ReplayCorpus(env: Env, events: seq<Event>) returns (res: ReplayResult)
    ensures res.traces == Run(env, START, Placed(env, events)).traces
    ensures res.wouldHaveSpoken == |Triggers(res.traces)|
  {
    var commits := PlaceCommits(env, events);
    PlacedIsStamped(env, events);
    var s := CommitEverything(env, commits);
    s := FireToTheEnd(env, s);
    var spoken := CountSpoken(s.traces);
    SpokenCounts(s.traces);
    res := ReplayResult(s.traces, spoken);
  }

  /** The main loop: round after round until every commit has been placed. */
  method CommitEverything(env: Env, commits: seq<Commit>) returns (s: Sim)
    requires Stamped(commits)
    ensures Waiting(env, s) && Run(env, s, []) == Run(env, START, commits)
  {
    s := START;
    var i := 0;
    assert commits[0..] == commits;
    while i < |commits|
      invariant 0 <= i <= |commits| && Waiting(env, s)
      invariant Run(env, s, commits[i..]) == Run(env, START, commits)
    {
      s, i := OneRound(env, s, commits, i);
    }
    assert commits[|commits|..] == [];
  }

  method OneRound(env: Env, s: Sim, commits: seq<Commit>, start: nat) returns (s': Sim, i: nat)
    requires Waiting(env, s) && Stamped(commits) && start < |commits|
    ensures start < i <= |commits| && Waiting(env, s') && Run(env, s', commits[i..]) == Run(env, s, commits[start..])
  {
    s', i := CommitAndWake(env, s, commits, start);
    RoundEnds(env, s, commits, start, commits[start..], s', i);
  }

  lemma {:induction false} RoundEnds(
    env: Env, s: Sim, commits: seq<Commit>, start: nat, rest: seq<Commit>, s1: Sim, i: nat)
    requires Waiting(env, s) && Stamped(commits) && start < |commits| && rest == commits[start..]
    requires s1 == AfterGroup(env, s, rest) && i <= |commits|
    requires i == start + GroupLength(rest, CommitTime(s, commits[start].ts))
    ensures start < i && Waiting(env, s1) && Run(env, s1, commits[i..]) == Run(env, s, rest)
  {
    RoundDone(env, s, rest, s1, i - start);
    assert rest[i - start..] == commits[i..];
  }

  /** One round of the main loop: advance the clock, commit one group, wake if it must. */
  method CommitAndWake(env: Env, s: Sim, commits: seq<Commit>, start: nat) returns (s': Sim, i: nat)
    requires start < |commits| && Sound(env, s)
    ensures s' == AfterGroup(env, s, commits[start..])
    ensures i == start + GroupLength(commits[start..], CommitTime(s, commits[start].ts)) && i <= |commits|
  {
    ghost var rest := commits[start..];
    assert rest[0] == commits[start];
    var ct := CommitTime(s, commits[start].ts);
    s' := FireWhileDue(env, s, Some(ct));
    i := TakeGroup(commits, start, ct);
    var group := commits[start..i];
    assert group == rest[..i - start];
    s' := CommitAll(s', group, ct);
    s' := WakeAfterGroup(env, s', group, ct);
  }

  /** Every consecutive commit whose commit time is exactly `ct` joins the group. */
  method TakeGroup(commits: seq<Commit>, start: nat, ct: real) returns (i: nat)
    requires start <= |commits|
    ensures i == start + GroupLength(commits[start..], ct) && i <= |commits|
  {
    i := start;
    while i < |commits| && commits[i].ts <= ct
      invariant start <= i <= |commits|
      invariant forall k :: start <= k < i ==> commits[k].ts <= ct
    {
      i := i + 1;
    }
    GroupCut(commits[start..], ct, i - start);
  }

  predicate Inbound(group: seq<Commit>, i: int) { 0 <= i < |group| && !group[i].message.isSelf }

  /** The message mentions the bot or answers something. */
  predicate ForBot(env: Env, group: seq<Commit>, i: int)
    requires 0 <= i < |group|
  {
    env.selfId in group[i].message.mentions || group[i].message.replyTo.Some?
  }

  /** What wakes the gate: a message of somebody else, if no wake is scheduled or one for this very time, if
      one is for the bot, or if enough is pending. */
  lemma {:induction false} WakesIff(env: Env, s: Sim, group: seq<Commit>, ct: real)
    ensures Wakes(env, s, group, ct) <==>
              && (exists i :: Inbound(group, i))
              && (s.nextWake.None? || s.nextWake == Some(ct)
                  || (exists i :: Inbound(group, i) && ForBot(env, group, i))
                  || PendingCount(s.messages, s.cursor) >= env.cfg.threshold)
  {
    if HasInbound(group) {
      var i :| 0 <= i < |group| && !group[i].message.isSelf;
      assert Inbound(group, i);
    }
    if i :| Inbound(group, i) && ForBot(env, group, i) { assert IsPriority(group[i].message, env.selfId); }
    if i :| 0 <= i < |group| && !group[i].message.isSelf && IsPriority(group[i].message, env.selfId) {
      assert Inbound(group, i) && ForBot(env, group, i);
    }
  }

  /** A self-only group never wakes; a wake due exactly now absorbs the group; a later wake
      yields only to a priority group. */
  method WakeAfterGroup(env: Env, s: Sim, group: seq<Commit>, ct: real) returns (s': Sim)
    ensures s' == if Wakes(env, s, group, ct) then WakeUp(env, s, ct) else s
  {
    s' := s;
    if !HasInbound(group) { return; }
    if s.nextWake.Some? && s.nextWake.value == ct {
      s' := EvaluateAt(env, s, ct);
      return;
    }
    if s.nextWake.Some? {
      if IsPriorityBatch(env, s, group) { s' := EvaluateAt(env, s, ct); }
      return;
    }
    s' := EvaluateAt(env, s, ct);
  }

  /** The clock advance: fire every timed wake due strictly before the next commit. */
  method FireWhileDue(env: Env, s: Sim, before: Option<real>) returns (s': Sim)
    requires Sound(env, s)
    ensures s' == FireDue(env, s, before)
  {
    s' := s;
    ghost var fired := 0;
    while Due(s', before)
      invariant Sound(env, s') && fired + Chain(s') <= 2
      invariant s' == (if fired == 0 then s else if fired == 1 then Fire(env, s, before) else FireDue(env, s, before))
      decreases Chain(s')
    {
      FireStep(env, s', before);
      s' := EvaluateAt(env, s', s'.nextWake.value);
      fired := fired + 1;
    }
  }

  /** The final loop with its defensive cap: no wake is left when it ends. */
  method FireToTheEnd(env: Env, s: Sim) returns (s': Sim)
    requires Sound(env, s)
    ensures s' == FireDue(env, s, None) && s'.nextWake.None?
  {
    s' := s;
    for k := 0 to 1000
      invariant Sound(env, s') && k + Chain(s') <= Max(k, 2)
      invariant s' == (if k == 0 then s else if k == 1 then Fire(env, s, None) else FireDue(env, s, None))
    {
      if s'.nextWake.None? { break; }
      FireStep(env, s', None);
      s' := EvaluateAt(env, s', s'.nextWake.value);
    }
    TwoWakesSuffice(env, s, None);
  }

  method CountSpoken(traces: seq<Trace>) returns (n: nat)
    ensures n == Spoken(traces)
  {
    n := 0;
    for k := 0 to |traces|
      invariant n == Spoken(traces[..k])
    {
      assert traces[..k + 1][..k] == traces[..k];
      if traces[k].decision.action.Trigger? { n := n + 1; }
    }
    assert traces[..|traces|] == traces;
  }

  lemma {:induction false} GroupCut(commits: seq<Commit>, ct: real, n: nat)
    requires n <= |commits| && (forall k :: 0 <= k < n ==> commits[k].ts <= ct)
    requires n < |commits| ==> commits[n].ts > ct
    ensures GroupLength(commits, ct) == n
  {
    if n > 0 {
      assert forall k :: 0 <= k < |commits| - 1 ==> commits[1..][k] == commits[k + 1];
      GroupCut(commits[1..], ct, n - 1);
    }
  }

  /* ---- Invariants of the run ------------------------------------------------- */

  lemma {:induction false} RunStep(env: Env, s: Sim, commits: seq<Commit>, s1: Sim, n: nat)
    requires commits != [] && n == GroupLength(commits, CommitTime(s, commits[0].ts))
    requires s1 == AfterGroup(env, s, commits)
    ensures Run(env, s, commits) == Run(env, s1, commits[n..])
  {
  }

  lemma {:induction false} StillWaiting(env: Env, s: Sim, commits: seq<Commit>, s1: Sim)
    requires Waiting(env, s) && commits != [] && Stamped(commits) && s1 == AfterGroup(env, s, commits)
    ensures Waiting(env, s1)
  {
    GroupKeepsWaiting(env, s, commits);
  }

  lemma {:induction false} RoundDone(env: Env, s: Sim, rest: seq<Commit>, s1: Sim, n: nat)
    requires Waiting(env, s) && rest != [] && Stamped(rest) && s1 == AfterGroup(env, s, rest)
    requires n == GroupLength(rest, CommitTime(s, rest[0].ts)) <= |rest|
    ensures n > 0 && Waiting(env, s1) && Run(env, s, rest) == Run(env, s1, rest[n..])
  {
    GroupNonempty(s, rest);
    StillWaiting(env, s, rest, s1);
    RunStep(env, s, rest, s1, n);
  }

  lemma {:induction false} GroupNonempty(s: Sim, commits: seq<Commit>)
    requires commits != []
    ensures GroupLength(commits, CommitTime(s, commits[0].ts)) > 0
  {
  }

  /** What one round of the main loop does to a waiting state. */
  lemma {:induction false} GroupKeepsWaiting(env: Env, s: Sim, commits: seq<Commit>)
    requires Waiting(env, s) && commits != [] && Stamped(commits)
    ensures Waiting(env, AfterGroup(env, s, commits))
  {
    var ct := CommitTime(s, commits[0].ts);
    var n := GroupLength(commits, ct);
    GroupIsTimely(commits, ct);
    FireAndCommit(env, s, commits[..n], ct);
    var c := CommitGroup(FireDue(env, s, Some(ct)), commits[..n], ct);
    if Wakes(env, c, commits[..n], ct) {
      WakeKeepsWaiting(env, c, ct);
    }
  }

  lemma {:induction false} FireAndCommit(env: Env, s: Sim, group: seq<Commit>, ct: real)
    requires Waiting(env, s) && group != [] && Stamped(group) && (s.now.Some? ==> s.now.value <= ct)
    requires forall i :: 0 <= i < |group| ==> group[i].ts <= ct
    ensures var c := CommitGroup(FireDue(env, s, Some(ct)), group, ct);
            Waiting(env, c) && c.now == Some(ct)
  {
    TwoWakesSuffice(env, s, Some(ct));
    FiredBefore(env, s, ct);
    CommitKeepsSound(env, FireDue(env, s, Some(ct)), group, ct);
  }

  lemma {:induction false} WakeKeepsWaiting(env: Env, c: Sim, ct: real)
    requires Waiting(env, c) && c.now == Some(ct)
    ensures Waiting(env, WakeUp(env, c, ct))
  {
    WakeUpKeepsCore(env, c, ct);
    WakeSettles(env, c, ct);
    EvaluationFacts(env, c, ct);
  }

  lemma {:induction false} FiredBefore(env: Env, s: Sim, ct: real)
    requires Waiting(env, s) && (s.now.Some? ==> s.now.value <= ct)
    ensures var f := FireDue(env, s, Some(ct)); LastEval(f).Some? ==> LastEval(f).value <= ct
  {
    var f1 := Fire(env, s, Some(ct));
    FireStep(env, s, Some(ct));
    if Due(s, Some(ct)) { EvaluationFacts(env, s, s.nextWake.value); }
    if Due(f1, Some(ct)) { EvaluationFacts(env, f1, f1.nextWake.value); }
  }
}
