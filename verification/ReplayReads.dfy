/**
 What each evaluation of a corpus replay reads, in terms of the commits alone, and what follows for the
 messages that address the bot.
*/
module ReplayReads {
  import opened Prelude
  import opened Messages
  import opened Backoff
  import opened Pacing
  import opened Gate
  import opened Snapshot
  import opened Replay
  import opened ReplayRun
  import opened ReplayLaws
  import opened WakeLaws

  /** The messages of the first `n` commits, as they are stored. */
  function Committed(all: seq<Commit>, n: nat): seq<Message>
    requires n <= |all|
  {
    seq(n, i requires 0 <= i < n => Stored(all, i))
  }

  /** The newest arrival of somebody else's message among `ms` that is not older than `since`. */
  ghost predicate NewestSince(ms: seq<Message>, since: real, last: Option<real>) {
    && (last.Some? ==> last.value >= since && exists i :: 0 <= i < |ms| && !ms[i].isSelf && ms[i].recvTs == last)
    && forall i :: 0 <= i < |ms| && !ms[i].isSelf && ms[i].recvTs.Some? && ms[i].recvTs.value >= since ==>
         last.Some? && ms[i].recvTs.value <= last.value
  }

  predicate Arrived(m: Message, since: real, own: bool) {
    m.recvTs.Some? && m.recvTs.value >= since && (own ==> m.isSelf)
  }

  /** How many messages from the `i`-th on arrived since then; only the bot's own if so asked. */
  function Arrivals(ms: seq<Message>, since: real, own: bool, i: nat): nat
    requires i <= |ms|
    decreases |ms| - i
  {
    if i == |ms| then 0 else (if Arrived(ms[i], since, own) then 1 else 0) + Arrivals(ms, since, own, i + 1)
  }

  /** The snapshot counts the messages that arrived since then, and shows the newest of them, newest first. */
  ghost predicate ShowsNewest(
    ms: seq<Message>, since: real, limit: nat, shown: seq<Message>, count: int, own: int)
  {
    && count == Arrivals(ms, since, false, 0) && own == Arrivals(ms, since, true, 0)
    && |shown| == Min(limit, count)
    && forall i: nat :: i < |ms| && Arrived(ms[i], since, false) && Arrivals(ms, since, false, i + 1) < limit ==>
         Arrivals(ms, since, false, i + 1) < |shown| && shown[Arrivals(ms, since, false, i + 1)] == ms[i]
  }

  /** The evaluation reads the committed messages `ms` and the configuration, and is the gate's verdict. */
  ghost predicate ReadsFrom(env: Env, ms: seq<Message>, t: Trace) {
    var s := t.snapshot;
    && t.decision == EvaluateGate(env.features, s)
    && s.chatKey == env.chatKey && s.selfId == env.selfId && s.isGroup == env.isGroup && s.muted == env.muted
    && s.mode == env.cfg.mode && s.threshold == env.cfg.threshold && s.triggerScore == env.cfg.triggerScore
    && s.pending == |s.pendingMessages|
    && (s.hasDirectAt <==> exists i :: 0 <= i < |s.pendingMessages| && env.selfId in s.pendingMessages[i].mentions)
    && (s.hasQuoteToSelf <==> QuotesSomeSelf(s.pendingMessages, ms))
    && (s.hasOtherAssistant <==> exists i :: 0 <= i < |s.pendingMessages| && env.refuses(s.pendingMessages[i].text))
    && NewestSince(ms, s.evaluatedTs - env.windowS, s.lastNonselfTs)
    && s.idleSeconds == (if s.lastNonselfTs.Some? then s.evaluatedTs - s.lastNonselfTs.value else env.windowS)
    && (Evolve(ms, s.evaluatedTs).avg.Some? ==> s.recentAverageInterval == Evolve(ms, s.evaluatedTs).avg.value)
    && !BackoffFacts(s).applied
  }

  /** The rest of what the features may look at: the newest messages and their counts, the chat's settings,
      and no hold, focus or idle streak. */
  ghost predicate Views(env: Env, ms: seq<Message>, s: GateSnapshot) {
    && ShowsNewest(ms, s.evaluatedTs - env.windowS, env.limit, s.recent, s.windowCount, s.selfCount)
    && s.selfRatio == (if s.windowCount > 0 then s.selfCount as real / s.windowCount as real else 0.0)
    && s.frequency == env.cfg.frequency && s.selfName == env.selfName && s.selfAliases == []
    && s.holdUntil.None? && !s.isFocused && s.idleStreak == 0
  }

  ghost predicate Reads(env: Env, all: seq<Commit>, t: Trace) {
    && t.snapshot.throughMsgId <= |all|
    && ReadsFrom(env, Committed(all, t.snapshot.throughMsgId), t)
    && Views(env, Committed(all, t.snapshot.throughMsgId), t.snapshot)
  }

  /** How the last batch ended that these evaluations took. */
  function LastEnd(traces: seq<Trace>): Option<EndReason> {
    if traces == [] then None
    else
      match traces[|traces| - 1].decision.action
      case Trigger => Some(DryRunTrigger)
      case Skip => Some(SkipEnd)
      case Delay => LastEnd(traces[..|traces| - 1])
  }

  ghost predicate AllRead(env: Env, all: seq<Commit>, s: Sim) {
    && (forall k :: 0 <= k < |s.traces| ==>
          Reads(env, all, s.traces[k]) && s.traces[k].snapshot.previousEndReason == LastEnd(s.traces[..k]))
    && s.previousEnd == LastEnd(s.traces)
  }

  lemma {:induction false} NewestIsLast(ms: seq<Message>, since: real)
    requires Numbered(ms)
    ensures NewestSince(ms, since, LastNonself(Window(ms, |ms|, since)))
  {
    var w := Window(ms, |ms|, since);
    WindowMember(ms, |ms|, since);
    LastNonselfMax(w);
    var last := LastNonself(w);
    if last.Some? {
      var m :| m in w && !m.isSelf && m.recvTs == Some(last.value);
      var i :| 0 <= i < |ms| && ms[i] == m;
    }
    forall i | 0 <= i < |ms| && !ms[i].isSelf && ms[i].recvTs.Some? && ms[i].recvTs.value >= since
      ensures last.Some? && ms[i].recvTs.value <= last.value
    {
      assert ms[i] in w;
    }
  }

  lemma {:induction false} ArrivalsSnoc(ms: seq<Message>, m: Message, since: real, own: bool, i: nat)
    requires i <= |ms|
    ensures Arrivals(ms + [m], since, own, i)
         == Arrivals(ms, since, own, i) + (if Arrived(m, since, own) then 1 else 0)
    decreases |ms| - i
  {
    var more := ms + [m];
    if i == |ms| {
      assert Arrivals(more, since, own, i + 1) == 0;
    } else {
      ArrivalsSnoc(ms, m, since, own, i + 1);
      assert more[i] == ms[i];
    }
  }

  lemma {:induction false} WindowCounts(ms: seq<Message>, since: real)
    requires Numbered(ms)
    ensures SelfCount(Window(ms, |ms|, since)) == Arrivals(ms, since, true, 0)
  {
    if ms != [] {
      var init, m := ms[..|ms| - 1], ms[|ms| - 1];
      var w := Window(init, |init|, since);
      WindowCounts(init, since);
      assert ms == init + [m];
      WindowSnoc(init, m, since);
      ArrivalsSnoc(init, m, since, true, 0);
      assert (w + [m])[..|w + [m]| - 1] == w;
    }
  }

  /** Rows beyond the last one admit nothing more. */
  lemma {:induction false} WindowBeyond(ms: seq<Message>, n: nat, through: nat, since: real)
    requires Numbered(ms) && |ms| <= n <= through
    ensures Window(ms, through, since) == Window(ms, n, since)
  {
    if ms != [] { WindowBeyond(ms[..|ms| - 1], n, through, since); }
  }

  /** Every message of the window, newest first, at its place. */
  ghost predicate NewestAt(ms: seq<Message>, since: real, sorted: seq<Message>) {
    && |sorted| == Arrivals(ms, since, false, 0)
    && forall i: nat :: i < |ms| && Arrived(ms[i], since, false) ==>
         Arrivals(ms, since, false, i + 1) < |sorted| && sorted[Arrivals(ms, since, false, i + 1)] == ms[i]
  }

  lemma {:induction false} NewestAtMore(ms: seq<Message>, m: Message, since: real, sorted: seq<Message>)
    requires NewestAt(ms, since, sorted)
    ensures NewestAt(ms + [m], since, if Arrived(m, since, false) then [m] + sorted else sorted)
  {
    var more, next := ms + [m], if Arrived(m, since, false) then [m] + sorted else sorted;
    ArrivalsSnoc(ms, m, since, false, 0);
    forall i: nat | i < |more| && Arrived(more[i], since, false)
      ensures Arrivals(more, since, false, i + 1) < |next| && next[Arrivals(more, since, false, i + 1)] == more[i]
    {
      if i < |ms| { ArrivalsSnoc(ms, m, since, false, i + 1); }
    }
  }

  lemma {:induction false} WindowSnoc(ms: seq<Message>, m: Message, since: real)
    requires Numbered(ms) && m.rowId == Some(|ms| + 1)
    ensures var w := Window(ms, |ms|, since);
            Window(ms + [m], |ms| + 1, since) == if Arrived(m, since, false) then w + [m] else w
  {
    var more := ms + [m];
    WindowBeyond(ms, |ms|, |ms| + 1, since);
    assert more[..|more| - 1] == ms && more[|more| - 1] == m;
  }

  lemma {:induction false} NewestSnoc(w: seq<Message>, m: Message)
    requires NewestFirst(w) != [] ==> Row(m) > Row(NewestFirst(w)[0])
    ensures NewestFirst(w + [m]) == [m] + NewestFirst(w)
  {
    var more := w + [m];
    assert more[..|more| - 1] == w && more[|more| - 1] == m;
  }

  lemma {:induction false} NewestStep(ms: seq<Message>, m: Message, since: real, w: seq<Message>)
    requires NewestAt(ms, since, NewestFirst(w)) && (NewestFirst(w) != [] ==> Row(m) > Row(NewestFirst(w)[0]))
    ensures NewestAt(ms + [m], since, NewestFirst(if Arrived(m, since, false) then w + [m] else w))
  {
    NewestAtMore(ms, m, since, NewestFirst(w));
    NewestSnoc(w, m);
  }

  lemma {:induction false} NewestComesFirst(ms: seq<Message>, since: real)
    requires Numbered(ms)
    ensures NewestAt(ms, since, NewestFirst(Window(ms, |ms|, since)))
  {
    if ms != [] {
      var init, m := ms[..|ms| - 1], ms[|ms| - 1];
      var w := Window(init, |init|, since);
      NewestComesFirst(init, since);
      assert ms == init + [m];
      WindowSnoc(init, m, since);
      if NewestFirst(w) != [] { HeadIsOlder(init, since, NewestFirst(w)[0], m); }
      NewestStep(init, m, since, w);
    }
  }

  lemma {:induction false} HeadIsOlder(ms: seq<Message>, since: real, head: Message, m: Message)
    requires Numbered(ms) && head in NewestFirst(Window(ms, |ms|, since)) && m.rowId == Some(|ms| + 1)
    ensures Row(m) > Row(head)
  {
    var w := Window(ms, |ms|, since);
    NewestFirstContents(w);
    assert head in multiset(NewestFirst(w));
    assert head in w;
    WindowMember(ms, |ms|, since);
  }

  lemma {:induction false} RecentShows(ms: seq<Message>, since: real, limit: nat, r: RecentSnapshot)
    requires Numbered(ms) && r == Recent(ms, |ms|, since, limit)
    ensures ShowsNewest(ms, since, limit, r.messages, r.windowCount, r.selfCount)
  {
    WindowCounts(ms, since);
    NewestComesFirst(ms, since);
  }

  lemma {:induction false} SnapshotViews(env: Env, s: Sim, t: real, snap: GateSnapshot)
    requires Core(s) && snap == SnapshotAt(env, s, t)
    ensures Views(env, s.messages, snap)
  {
    LastRowIsCount(s.messages);
    RecentShows(s.messages, t - env.windowS, env.limit, Recent(s.messages, |s.messages|, t - env.windowS, env.limit));
  }

  lemma {:induction false} SnapshotReads(env: Env, s: Sim, t: real)
    requires Core(s) && Usable(s, t)
    ensures var snap := SnapshotAt(env, s, t); ReadsFrom(env, s.messages, Trace(snap, EvaluateGate(env.features, snap)))
  {
    SnapshotFacts(env, s, t);
    LastRowIsCount(s.messages);
    NewestIsLast(s.messages, t - env.windowS);
    assert ArrivedBy(s.messages, t);
    QuoteIsCorpusWide(env, s.messages, |s.messages|, t, SnapshotAt(env, s, t).pendingMessages);
  }

  lemma {:induction false} MirrorsIsCommitted(all: seq<Commit>, ms: seq<Message>)
    requires Mirrors(all, ms)
    ensures ms == Committed(all, |ms|)
  {
  }

  lemma {:induction false} EndCarries(s: Sim, snap: GateSnapshot, d: Decision)
    requires s.previousEnd == LastEnd(s.traces)
    ensures var next := Dispose(s, snap, d);
            next.traces == s.traces + [Trace(snap, d)] && next.previousEnd == LastEnd(next.traces)
  {
    var more := s.traces + [Trace(snap, d)];
    assert more[..|more| - 1] == s.traces && more[|more| - 1] == Trace(snap, d);
  }

  lemma {:induction false} AllReadMore(env: Env, all: seq<Commit>, s: Sim, s1: Sim, tr: Trace)
    requires AllRead(env, all, s) && Reads(env, all, tr) && tr.snapshot.previousEndReason == s.previousEnd
    requires s1.traces == s.traces + [tr] && s1.previousEnd == LastEnd(s1.traces)
    ensures AllRead(env, all, s1)
  {
    forall k | 0 <= k < |s.traces| ensures s1.traces[..k] == s.traces[..k] {}
    assert s1.traces[..|s.traces|] == s.traces;
  }

  lemma {:induction false} ReadsNow(env: Env, all: seq<Commit>, s: Sim, t: real, snap: GateSnapshot)
    requires Core(s) && Usable(s, t) && Mirrors(all, s.messages) && snap == SnapshotAt(env, s, t)
    ensures Reads(env, all, Trace(snap, EvaluateGate(env.features, snap)))
    ensures snap.previousEndReason == s.previousEnd
  {
    SnapshotReads(env, s, t);
    SnapshotViews(env, s, t, snap);
    SnapshotFacts(env, s, t);
    MirrorsIsCommitted(all, s.messages);
  }

  lemma {:induction false} WakeReads(env: Env, all: seq<Commit>, s: Sim, t: real)
    requires Core(s) && Usable(s, t) && Mirrors(all, s.messages) && AllRead(env, all, s)
    ensures AllRead(env, all, WakeUp(env, s, t))
  {
    var snap := SnapshotAt(env, s, t);
    var d := EvaluateGate(env.features, snap);
    ReadsNow(env, all, s, t, snap);
    EndCarries(s.(state := Paced(s.state, s.messages, t)), snap, d);
    AllReadMore(env, all, s, WakeUp(env, s, t), Trace(snap, d));
  }

  lemma {:induction false} FireReads(env: Env, all: seq<Commit>, s: Sim, before: Option<real>)
    requires Sound(env, s) && Mirrors(all, s.messages) && AllRead(env, all, s)
    ensures AllRead(env, all, FireDue(env, s, before))
  {
    if Due(s, before) { WakeReads(env, all, s, s.nextWake.value); }
    FireStep(env, s, before);
    var f := Fire(env, s, before);
    if Due(f, before) { WakeReads(env, all, f, f.nextWake.value); }
  }

  lemma {:induction false} GroupReads(
    env: Env, all: seq<Commit>, s: Sim, front: real, group: seq<Commit>, ct: real, c: Sim)
    requires OnSchedule(env, all, s, front) && Stamped(all) && |s.messages| < |all| && AllRead(env, all, s)
    requires NextGroup(all, |s.messages|, group, ct) && Timely(s, group, ct)
    requires c == CommitGroup(FireDue(env, s, Some(ct)), group, ct)
    ensures AllRead(env, all, c) && AllRead(env, all, WakeUp(env, c, ct))
  {
    var f := FireDue(env, s, Some(ct));
    FireReads(env, all, s, Some(ct));
    GroupFires(env, all, s, front, group, ct, f, c);
    CommittedIsUsable(env, s, group, ct, c);
    WakeReads(env, all, c, ct);
  }

  lemma {:induction false} RoundReads(
    env: Env, all: seq<Commit>, s: Sim, front: real, rest: seq<Commit>, s1: Sim)
    requires OnSchedule(env, all, s, front) && Stamped(all) && rest != [] && rest == all[|s.messages|..]
    requires s1 == AfterGroup(env, s, rest) && AllRead(env, all, s)
    ensures AllRead(env, all, s1)
  {
    var ct := CommitTime(s, rest[0].ts);
    var n := GroupLength(rest, ct);
    NextGroupIs(all, s, rest, ct, n);
    GroupReads(env, all, s, front, rest[..n], ct, CommitGroup(FireDue(env, s, Some(ct)), rest[..n], ct));
  }

  lemma {:induction false} RunReads(env: Env, all: seq<Commit>, s: Sim, front: real, rest: seq<Commit>, r: Sim)
    requires OnSchedule(env, all, s, front) && Stamped(all) && rest == all[|s.messages|..] && r == Run(env, s, rest)
    requires AllRead(env, all, s)
    ensures AllRead(env, all, r)
    decreases |rest|
  {
    if rest == [] {
      FireReads(env, all, s, None);
    } else {
      var n := GroupLength(rest, CommitTime(s, rest[0].ts));
      var s1 := AfterGroup(env, s, rest);
      RoundOnSchedule(env, all, s, front, rest, s1, n);
      RoundReads(env, all, s, front, rest, s1);
      RunStep(env, s, rest, s1, n);
      RunReads(env, all, s1, ClockAt(all, |s.messages|), rest[n..], r);
    }
  }

  /** Every evaluation of every corpus replay reads exactly the messages committed by then and how the last
      batch ended, and decides as the gate does on what it reads. */
  lemma {:induction false} EvaluationReads(env: Env, events: seq<Event>, all: seq<Commit>, r: Sim, k: nat)
    requires all == Placed(env, events) && r == Run(env, START, all) && k < |r.traces|
    ensures Reads(env, all, r.traces[k]) && r.traces[k].snapshot.previousEndReason == LastEnd(r.traces[..k])
  {
    var front := if all == [] then 0.0 else ClockAt(all, 0) - 1.0;
    PlacedIsStamped(env, events);
    StartsOnSchedule(env, all, front);
    assert all[0..] == all;
    RunReads(env, all, START, front, all, r);
  }

  /* ---- Messages for the bot ---------------------------------------------------------------- */

  lemma {:induction false} ArrivalIsInBatch(env: Env, events: seq<Event>, all: seq<Commit>, r: Sim, i: nat, k: nat)
    requires all == Placed(env, events) && r == Run(env, START, all) && i < |all| && k < |r.traces|
    requires !all[i].message.isSelf && r.traces[k].snapshot.evaluatedTs == ClockAt(all, i)
    requires forall j :: 0 <= j < k ==> r.traces[j].snapshot.evaluatedTs < ClockAt(all, i)
    ensures InBatch(r.traces[k], Stored(all, i)) && i < |r.messages| && r.messages[i] == Stored(all, i)
  {
    ReplayIsOrdered(env, events, all, r);
    ReplayConserves(env, events, r, k, i);
    forall j | 0 <= j < k && Terminal(r.traces[j]) ensures !InBatch(r.traces[j], r.messages[i]) {
      ReplayConserves(env, events, r, j, i);
    }
  }

  /** The first trace at a time. */
  lemma {:induction false} FirstAt(traces: seq<Trace>, t: real, k: nat) returns (f: nat)
    requires TimesAscend(traces) && k < |traces| && traces[k].snapshot.evaluatedTs == t
    ensures f <= k && traces[f].snapshot.evaluatedTs == t
    ensures forall j :: 0 <= j < f ==> traces[j].snapshot.evaluatedTs < t
  {
    if k > 0 && traces[k - 1].snapshot.evaluatedTs == t {
      f := FirstAt(traces, t, k - 1);
    } else {
      f := k;
    }
  }

  predicate TriggersAt(traces: seq<Trace>, t: real) {
    exists k :: 0 <= k < |traces| && traces[k].snapshot.evaluatedTs == t && traces[k].decision.action == Trigger
  }

  /** In a chat that is not muted, a message of somebody else that mentions the bot makes it speak at the
      time it is placed, whatever wake is scheduled. */
  lemma {:induction false} MentionTriggers(env: Env, events: seq<Event>, all: seq<Commit>, r: Sim, i: nat)
    requires all == Placed(env, events) && r == Run(env, START, all) && i < |all| && !env.muted
    requires !all[i].message.isSelf && env.selfId in all[i].message.mentions
    ensures TriggersAt(r.traces, ClockAt(all, i))
  {
    AddressedIsEvaluated(env, events, all, r, i);
    var k :| 0 <= k < |r.traces| && r.traces[k].snapshot.evaluatedTs == ClockAt(all, i);
    ReplayIsOrdered(env, events, all, r);
    var f := FirstAt(r.traces, ClockAt(all, i), k);
    ArrivalIsInBatch(env, events, all, r, i, f);
    EvaluationReads(env, events, all, r, f);
    var batch := r.traces[f].snapshot.pendingMessages;
    var p :| 0 <= p < |batch| && batch[p] == Stored(all, i);
    assert env.selfId in batch[p].mentions;
    assert r.traces[f].decision.action == Trigger;
  }

  /** And so does an answer to a message of the bot that is committed by then, however old it is. */
  lemma {:induction false} QuoteTriggers(env: Env, events: seq<Event>, all: seq<Commit>, r: Sim, i: nat, j: nat)
    requires all == Placed(env, events) && r == Run(env, START, all) && i < |all| && j < |all| && !env.muted
    requires !all[i].message.isSelf && all[i].message.replyTo.Some?
    requires all[j].message.isSelf && all[j].message.id == all[i].message.replyTo
    requires ClockAt(all, j) <= ClockAt(all, i)
    ensures TriggersAt(r.traces, ClockAt(all, i))
  {
    AddressedIsEvaluated(env, events, all, r, i);
    var k :| 0 <= k < |r.traces| && r.traces[k].snapshot.evaluatedTs == ClockAt(all, i);
    ReplayIsOrdered(env, events, all, r);
    var f := FirstAt(r.traces, ClockAt(all, i), k);
    ArrivalIsInBatch(env, events, all, r, i, f);
    EvaluationReads(env, events, all, r, f);
    EvaluationSeesCommitted(env, events, r, f, j);
    QuotedInBatch(all, r.traces[f], i, j);
    assert r.traces[f].decision.action == Trigger;
  }

  lemma {:induction false} QuotedInBatch(all: seq<Commit>, t: Trace, i: nat, j: nat)
    requires i < |all| && j < t.snapshot.throughMsgId <= |all| && InBatch(t, Stored(all, i))
    requires all[i].message.replyTo.Some? && all[j].message.isSelf && all[j].message.id == all[i].message.replyTo
    ensures QuotesSomeSelf(t.snapshot.pendingMessages, Committed(all, t.snapshot.throughMsgId))
  {
    var batch, ms := t.snapshot.pendingMessages, Committed(all, t.snapshot.throughMsgId);
    var p :| 0 <= p < |batch| && batch[p] == Stored(all, i);
    assert ms[j] == Stored(all, j) && batch[p].replyTo == ms[j].id;
  }

  /** A muted chat never speaks. */
  lemma {:induction false} MutedNeverTriggers(env: Env, events: seq<Event>, all: seq<Commit>, r: Sim)
    requires all == Placed(env, events) && r == Run(env, START, all) && env.muted
    ensures Triggers(r.traces) == {}
  {
    forall k | 0 <= k < |r.traces| ensures r.traces[k].decision.action == Skip {
      EvaluationReads(env, events, all, r, k);
    }
    forall k ensures k !in Triggers(r.traces) {}
  }
}
