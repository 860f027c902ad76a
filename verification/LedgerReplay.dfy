/**
 The replay of a recorded ledger as a whole: which views are accepted, which trace each settled dispatch
 gets, and that what the live gate decided on is accepted.
*/
module LedgerReplay {
  import opened Prelude
  import opened Messages
  import opened Backoff
  import opened Pacing
  import opened Gate
  import opened Snapshot
  import opened Replay
  import opened Markers
  import opened Timelines

  /* ---- Acceptance ------------------------------------------------------------------------- */

  /** Some commit of the view with this sequence names a message of the chat. */
  ghost predicate Present(view: View, chat: string, s: nat) {
    exists i: nat :: LastOf(view, chat, view.commits, i, s)
  }

  /** The commit at `i` is attached, and its message is somebody else's and has this row. */
  ghost predicate AttachedAt(view: View, chat: string, attached: seq<nat>, row: nat, i: nat) {
    && i < |view.commits| && NamesMessage(view, chat, view.commits[i]) && view.commits[i].sequence in attached
    && LastOf(view, chat, view.commits, i, view.commits[i].sequence)
    && !Named(view, chat, view.commits[i]).isSelf && RowOf(view, chat, view.commits, i) == row
  }

  ghost predicate AttachedRow(view: View, chat: string, attached: seq<nat>, row: nat) {
    exists i: nat :: AttachedAt(view, chat, attached, row, i)
  }

  /** The frozen snapshot can be read and agrees with its marker and with the rows of its commits. */
  ghost predicate Intact(view: View, chat: string, d: Dispatch, f: Frozen) {
    && f.Readable? && WellFormed(f.snapshot)
    && f.snapshot.chatKey == chat && f.snapshot.cycleId == DispatchCycle(d.sequence)
    && (d.evaluatedTs.Some? ==> f.snapshot.evaluatedTs == d.evaluatedTs.value)
    && (d.startId.Some? ==> f.snapshot.startMsgId == d.startId.value)
    && (d.throughId.Some? ==> f.snapshot.throughMsgId == d.throughId.value)
    && (forall row: nat :: row in PendingRows(f.snapshot) <==> AttachedRow(view, chat, d.attached, row))
  }

  ghost predicate Acceptable(view: View, chat: string, composition: string, d: Dispatch) {
    && (d.state == Some(Completed) || d.state == Some(Released)) && d.settledTs.Some?
    && d.fingerprint == Some(composition)
    && (forall k :: 0 <= k < |d.attached| ==> Present(view, chat, d.attached[k]))
    && (d.snapshot.Some? ==> Intact(view, chat, d, d.snapshot.value))
  }

  /** A settled dispatch of the chat: it has a state or a settlement time. */
  predicate SettledOf(d: Dispatch, chat: string) { d.chat == chat && (d.state.Some? || d.settledTs.Some?) }

  lemma {:induction false} RowsAreAttached(view: View, chat: string, tl: Timeline, attached: seq<nat>, row: nat)
    requires IsTimeline(view, chat, view.commits, tl)
    ensures row in ExpectedRows(tl, attached) <==> AttachedRow(view, chat, attached, row)
  {
    if row in ExpectedRows(tl, attached) {
      var k :| 0 <= k < |attached| && attached[k] in tl.bySeq && !tl.bySeq[attached[k]].isSelf
               && tl.bySeq[attached[k]].rowId == Some(row);
      var i: nat :| LastOf(view, chat, view.commits, i, attached[k]);
      assert AttachedAt(view, chat, attached, row, i);
    }
    if i: nat :| AttachedAt(view, chat, attached, row, i) {
      var s := view.commits[i].sequence;
      var k :| 0 <= k < |attached| && attached[k] == s;
      assert tl.bySeq[s] == MessageAt(view, chat, view.commits, i);
    }
  }

  lemma {:induction false} PresentIff(view: View, chat: string, tl: Timeline, s: nat)
    requires IsTimeline(view, chat, view.commits, tl)
    ensures s in tl.bySeq <==> Present(view, chat, s)
  {
  }

  lemma {:induction false} RowSetsIff(view: View, chat: string, tl: Timeline, d: Dispatch, s: GateSnapshot)
    requires IsTimeline(view, chat, view.commits, tl)
    ensures PendingRows(s) == ExpectedRows(tl, d.attached) <==>
              forall row: nat :: row in PendingRows(s) <==> AttachedRow(view, chat, d.attached, row)
  {
    forall row: nat ensures row in ExpectedRows(tl, d.attached) <==> AttachedRow(view, chat, d.attached, row) {
      RowsAreAttached(view, chat, tl, d.attached, row);
    }
  }

  lemma {:induction false} IntactIff(view: View, chat: string, tl: Timeline, d: Dispatch, f: Frozen)
    requires IsTimeline(view, chat, view.commits, tl)
    ensures Rehydrate(f).Some? && Mismatch(chat, tl, d, Rehydrate(f).value).None? <==> Intact(view, chat, d, f)
  {
    if f.Readable? {
      RowSetsIff(view, chat, tl, d, f.snapshot);
      var r := f.snapshot.(muted := false, selfAliases := []);
      assert WellFormed(r) <==> WellFormed(f.snapshot);
      assert PendingRows(r) == PendingRows(f.snapshot);
    }
  }

  lemma {:induction false} AcceptableIff(view: View, chat: string, composition: string, tl: Timeline, d: Dispatch)
    requires IsTimeline(view, chat, view.commits, tl)
    ensures Refused(chat, composition, tl, d).None? <==> Acceptable(view, chat, composition, d)
  {
    forall k | 0 <= k < |d.attached|
      ensures d.attached[k] in tl.bySeq <==> Present(view, chat, d.attached[k])
    {
      PresentIff(view, chat, tl, d.attached[k]);
    }
    assert Resolved(tl, d) <==> forall k :: 0 <= k < |d.attached| ==> Present(view, chat, d.attached[k]);
    if d.snapshot.Some? { IntactIff(view, chat, tl, d, d.snapshot.value); }
  }

  /** A view is replayed exactly when no two of its commits would share a row and every settled dispatch
      of the chat is acceptable. */
  lemma {:induction false} ReplayedIff(env: Env, composition: string, view: View)
    ensures Replayed(env, composition, view).Ok? <==>
              && (forall i: nat, j: nat :: !SharesRow(view, env.chatKey, view.commits, i, j))
              && (forall k :: 0 <= k < |view.dispatches| && SettledOf(view.dispatches[k], env.chatKey) ==>
                    Acceptable(view, env.chatKey, composition, view.dispatches[k]))
  {
    TimelineIsNamed(view, env.chatKey, view.commits);
    var built := TimelineOf(view, env.chatKey, view.commits);
    if built.Ok? {
      AllOrNothing(env, composition, built.value, view.dispatches);
      forall k | 0 <= k < |view.dispatches|
        ensures Refused(env.chatKey, composition, built.value, view.dispatches[k]).None?
                <==> Acceptable(view, env.chatKey, composition, view.dispatches[k])
      {
        AcceptableIff(view, env.chatKey, composition, built.value, view.dispatches[k]);
      }
    }
  }

  /* ---- Which trace each dispatch gets -------------------------------------------------------- */

  function SettledCount(ds: seq<Dispatch>, chat: string): nat {
    if ds == [] then 0
    else SettledCount(ds[..|ds| - 1], chat) + (if SettledOf(ds[|ds| - 1], chat) then 1 else 0)
  }

  /** The attached message is somebody else's and lies beyond the cursor. */
  predicate Eligible(tl: Timeline, cursor: nat, s: nat) {
    s in tl.bySeq && !tl.bySeq[s].isSelf && tl.bySeq[s].rowId.Some? && tl.bySeq[s].rowId.value > cursor
  }

  function EligibleCount(tl: Timeline, cursor: nat, attached: seq<nat>): nat {
    if attached == [] then 0
    else
      EligibleCount(tl, cursor, attached[..|attached| - 1])
      + (if Eligible(tl, cursor, attached[|attached| - 1]) then 1 else 0)
  }

  /** The pending messages are the eligible attached ones, in the marker's order. */
  ghost predicate PendingAre(tl: Timeline, cursor: nat, attached: seq<nat>, pending: seq<Message>) {
    && |pending| == EligibleCount(tl, cursor, attached)
    && forall k :: 0 <= k < |attached| && Eligible(tl, cursor, attached[k]) ==>
         && EligibleCount(tl, cursor, attached[..k]) < |pending|
         && pending[EligibleCount(tl, cursor, attached[..k])] == tl.bySeq[attached[k]]
  }

  lemma {:induction false} AttachedAre(tl: Timeline, attached: seq<nat>, cursor: nat)
    requires forall i :: 0 <= i < |attached| ==> attached[i] in tl.bySeq
    ensures PendingAre(tl, cursor, attached, Attached(tl, attached, cursor))
  {
    if attached != [] {
      var init, s := attached[..|attached| - 1], attached[|attached| - 1];
      AttachedAre(tl, init, cursor);
      forall k | 0 <= k < |init| ensures attached[..k] == init[..k] {}
      assert attached[..|init|] == init;
    }
  }

  /** The decision took its batch: it was not a delay. */
  predicate Took(t: Trace) { t.decision.action != Delay }

  /** The trace of the last reassembled dispatch before the k-th that took its batch. */
  function TakenBefore(ds: seq<Dispatch>, chat: string, traces: seq<Trace>, k: nat): Option<Trace>
    requires k <= |ds| && SettledCount(ds[..k], chat) <= |traces|
  {
    if k == 0 then None
    else
      CountMonotone(ds, chat, k - 1, k);
      var at := SettledCount(ds[..k - 1], chat);
      if SettledOf(ds[k - 1], chat) && ds[k - 1].snapshot.None? && at < |traces| && Took(traces[at])
      then Some(traces[at])
      else TakenBefore(ds, chat, traces, k - 1)
  }

  /** Up to where it took messages, and how it ended. */
  function CursorOf(t: Option<Trace>): nat { if t.Some? then t.value.snapshot.throughMsgId else 0 }

  function EndOf(t: Option<Trace>): Option<EndReason> {
    if t.None? then None else Some(if t.value.decision.action == Trigger then DryRunTrigger else SkipEnd)
  }

  lemma {:induction false} CountMonotone(ds: seq<Dispatch>, chat: string, i: nat, j: nat)
    requires i <= j <= |ds|
    ensures SettledCount(ds[..i], chat) <= SettledCount(ds[..j], chat)
    ensures i < j && SettledOf(ds[i], chat) ==> SettledCount(ds[..i], chat) < SettledCount(ds[..j], chat)
    decreases j
  {
    if i < j {
      assert ds[..j][..j - 1] == ds[..j - 1];
      CountMonotone(ds, chat, i, j - 1);
    }
  }

  /** A rescored snapshot is the frozen one under the present configuration, without mute and aliases. */
  ghost predicate Thawed(env: Env, frozen: GateSnapshot, s: GateSnapshot) {
    s == frozen.(muted := false, selfAliases := [], mode := env.cfg.mode, threshold := env.cfg.threshold,
                 triggerScore := env.cfg.triggerScore, frequency := env.cfg.frequency,
                 backoffBaseS := env.cfg.backoffBaseS, backoffCapS := env.cfg.backoffCapS,
                 backoffStartCount := env.cfg.backoffStartCount)
  }

  function Through(tl: Timeline, d: Dispatch): nat {
    if d.throughId.Some? then d.throughId.value
    else if tl.messages != [] && tl.messages[|tl.messages| - 1].rowId.Some?
    then tl.messages[|tl.messages| - 1].rowId.value
    else 0
  }

  /** A reassembled snapshot stands at the settlement time and the marker's boundary, its batch is what is
      attached and not yet taken, and it sees the recent timeline up to the boundary and how the last batch
      ended. */
  ghost predicate Rebuilt(env: Env, tl: Timeline, d: Dispatch, last: Option<Trace>, s: GateSnapshot)
    requires d.settledTs.Some?
  {
    var now := d.settledTs.value;
    && s.chatKey == env.chatKey && s.cycleId == DispatchCycle(d.sequence)
    && s.startMsgId == (if d.startId.Some? then d.startId.value else 0)
    && s.throughMsgId == Through(tl, d) && s.evaluatedTs == now
    && PendingAre(tl, CursorOf(last), d.attached, s.pendingMessages) && s.pending == |s.pendingMessages|
    && s.previousEndReason == EndOf(last) && s.holdUntil.None? && s.idleStreak == 0
    && (Evolve(tl.messages, now).avg.Some? ==> s.recentAverageInterval == Evolve(tl.messages, now).avg.value)
    && SeesRecent(Recent(tl.messages, Through(tl, d), now - env.windowS, env.limit), env.windowS, now, s)
    && Configures(env, s) && Addresses(env, tl.messages, now, s)
  }

  ghost predicate SeesRecent(recent: RecentSnapshot, windowS: real, now: real, s: GateSnapshot) {
    && s.recent == recent.messages && s.windowCount == recent.windowCount && s.selfCount == recent.selfCount
    && s.lastNonselfTs == recent.lastNonselfTs
    && s.idleSeconds == (if recent.lastNonselfTs.Some? then now - recent.lastNonselfTs.value else windowS)
  }

  ghost predicate Configures(env: Env, s: GateSnapshot) {
    && s.mode == env.cfg.mode && s.threshold == env.cfg.threshold && s.triggerScore == env.cfg.triggerScore
    && s.frequency == env.cfg.frequency && s.selfId == env.selfId && s.isGroup == env.isGroup
    && s.selfName == env.selfName && s.muted == env.muted
  }

  /** Its batch mentions the bot, quotes a message of the bot, or is refused as another assistant's. */
  ghost predicate Addresses(env: Env, ms: seq<Message>, now: real, s: GateSnapshot) {
    var batch := s.pendingMessages;
    && (s.hasDirectAt <==> exists i :: 0 <= i < |batch| && env.selfId in batch[i].mentions)
    && (s.hasQuoteToSelf <==> QuotesSelf(batch, s.recent, SelfIdsBy(ms, now)))
    && (s.hasOtherAssistant <==> exists i :: 0 <= i < |batch| && env.refuses(batch[i].text))
  }

  /** What the trace of a settled dispatch is. */
  ghost predicate Fits(env: Env, tl: Timeline, d: Dispatch, last: Option<Trace>, t: Trace) {
    && t.decision == EvaluateGate(env.features, t.snapshot)
    && match d.snapshot
       case Some(f) => f.Readable? && Thawed(env, f.snapshot, t.snapshot)
       case None => d.settledTs.Some? && Rebuilt(env, tl, d, last, t.snapshot)
  }

  /** One trace for each settled dispatch, in order, and the one of dispatch `k` fits it. */
  ghost predicate FitsAt(env: Env, tl: Timeline, ds: seq<Dispatch>, traces: seq<Trace>, k: nat)
    requires k <= |ds|
  {
    && |traces| == SettledCount(ds, env.chatKey)
    && (k < |ds| && SettledOf(ds[k], env.chatKey) ==>
          var at := SettledCount(ds[..k], env.chatKey);
          at < |traces| && Fits(env, tl, ds[k], TakenBefore(ds, env.chatKey, traces, k), traces[at]))
  }

  /** The trace that took messages last, once this one is added. */
  function Taken(d: Dispatch, t: Trace, last: Option<Trace>): Option<Trace> {
    if d.snapshot.None? && Took(t) then Some(t) else last
  }

  ghost predicate StandsAt(p: Progress, last: Option<Trace>) {
    p.cursor == CursorOf(last) && p.previousEnd == EndOf(last)
  }

  /** What the schedule carries along. */
  ghost predicate Carried(env: Env, ds: seq<Dispatch>, p: Progress) {
    && |p.traces| == SettledCount(ds, env.chatKey)
    && ds[..|ds|] == ds && StandsAt(p, TakenBefore(ds, env.chatKey, p.traces, |ds|))
    && p.state.holdUntil.None? && p.state.idleStreak == 0
  }

  lemma {:induction false} TakenOfPrefix(
    ds: seq<Dispatch>, d: Dispatch, chat: string, traces: seq<Trace>, more: seq<Trace>, k: nat)
    requires k <= |ds| && SettledCount(ds, chat) == |traces| && traces <= more
    ensures SettledCount(ds[..k], chat) <= |traces| && (ds + [d])[..k] == ds[..k]
    ensures TakenBefore(ds + [d], chat, more, k) == TakenBefore(ds, chat, traces, k)
  {
    assert ds[..|ds|] == ds;
    CountMonotone(ds, chat, k, |ds|);
    if k > 0 {
      TakenOfPrefix(ds, d, chat, traces, more, k - 1);
      CountMonotone(ds, chat, k - 1, |ds|);
      assert (ds + [d])[k - 1] == ds[k - 1];
    }
  }

  lemma {:induction false} ReassembledIsRebuilt(
    env: Env, tl: Timeline, p: Progress, d: Dispatch, last: Option<Trace>)
    requires Resolved(tl, d) && d.settledTs.Some? && p.state.holdUntil.None? && p.state.idleStreak == 0
    requires StandsAt(p, last)
    ensures Rebuilt(env, tl, d, last, Reassembled(env, tl, p, d))
  {
    AttachedAre(tl, d.attached, p.cursor);
    assert Boundary(tl, d) == Through(tl, d);
  }

  lemma {:induction false} RedecidedMoves(
    env: Env, tl: Timeline, p: Progress, d: Dispatch, q: Progress, t: Trace)
    requires Resolved(tl, d) && d.settledTs.Some? && q == Redecided(env, tl, p, d)
    requires t == Trace(Reassembled(env, tl, p, d), EvaluateGate(env.features, Reassembled(env, tl, p, d)))
    requires p.state.holdUntil.None? && p.state.idleStreak == 0
    ensures q.traces == p.traces + [t] && t.snapshot.throughMsgId == Boundary(tl, d)
    ensures q.state.holdUntil.None? && q.state.idleStreak == 0
    ensures if Took(t) then StandsAt(q, Some(t)) else q.cursor == p.cursor && q.previousEnd == p.previousEnd
  {
  }

  lemma {:induction false} RedecidedFits(
    env: Env, tl: Timeline, p: Progress, d: Dispatch, last: Option<Trace>, q: Progress)
    requires d.snapshot.None? && Resolved(tl, d) && d.settledTs.Some? && q == Redecided(env, tl, p, d)
    requires p.state.holdUntil.None? && p.state.idleStreak == 0 && StandsAt(p, last)
    ensures |q.traces| == |p.traces| + 1 && p.traces <= q.traces
    ensures Fits(env, tl, d, last, q.traces[|p.traces|]) && StandsAt(q, Taken(d, q.traces[|p.traces|], last))
    ensures q.state.holdUntil.None? && q.state.idleStreak == 0
  {
    var s := Reassembled(env, tl, p, d);
    var t := Trace(s, EvaluateGate(env.features, s));
    RedecidedMoves(env, tl, p, d, q, t);
    ReassembledIsRebuilt(env, tl, p, d, last);
    FitsRebuilt(env, tl, d, last, t);
  }

  lemma {:induction false} FitsRebuilt(env: Env, tl: Timeline, d: Dispatch, last: Option<Trace>, t: Trace)
    requires d.snapshot.None? && d.settledTs.Some? && Rebuilt(env, tl, d, last, t.snapshot)
    requires t.decision == EvaluateGate(env.features, t.snapshot)
    ensures Fits(env, tl, d, last, t)
  {
  }

  lemma {:induction false} AdvanceFits(
    env: Env, composition: string, tl: Timeline, p: Progress, d: Dispatch, last: Option<Trace>)
    requires SettledOf(d, env.chatKey) && Refused(env.chatKey, composition, tl, d).None?
    requires p.state.holdUntil.None? && p.state.idleStreak == 0 && StandsAt(p, last)
    ensures var r := Advance(env, composition, tl, p, d);
            && r.Ok? && |r.value.traces| == |p.traces| + 1 && p.traces <= r.value.traces
            && Fits(env, tl, d, last, r.value.traces[|p.traces|])
            && StandsAt(r.value, Taken(d, r.value.traces[|p.traces|], last))
            && r.value.state.holdUntil.None? && r.value.state.idleStreak == 0
  {
    if d.snapshot.None? {
      RedecidedFits(env, tl, p, d, last, Redecided(env, tl, p, d));
    } else {
      assert Thawed(env, d.snapshot.value.snapshot, WithConfig(Rehydrate(d.snapshot.value).value, env.cfg));
    }
  }

  lemma {:induction false} SettledSnoc(ds: seq<Dispatch>, d: Dispatch, chat: string)
    ensures SettledCount(ds + [d], chat) == SettledCount(ds, chat) + (if SettledOf(d, chat) then 1 else 0)
    ensures (ds + [d])[..|ds|] == ds && (ds + [d])[..|ds| + 1] == ds + [d]
  {
    assert (ds + [d])[..|ds + [d]| - 1] == ds;
  }

  lemma {:induction false} CarriedOn(env: Env, ds: seq<Dispatch>, d: Dispatch, p: Progress, q: Progress)
    requires Carried(env, ds, p) && p.traces <= q.traces
    requires |q.traces| == |p.traces| + (if SettledOf(d, env.chatKey) then 1 else 0)
    requires var last := TakenBefore(ds, env.chatKey, p.traces, |ds|);
             StandsAt(q, if SettledOf(d, env.chatKey) then Taken(d, q.traces[|p.traces|], last) else last)
    requires q.state.holdUntil.None? && q.state.idleStreak == 0
    ensures Carried(env, ds + [d], q)
  {
    SettledSnoc(ds, d, env.chatKey);
    TakenOfPrefix(ds, d, env.chatKey, p.traces, q.traces, |ds|);
  }

  lemma {:induction false} FitsOn(
    env: Env, tl: Timeline, ds: seq<Dispatch>, d: Dispatch, p: Progress, q: Progress, k: nat)
    requires k <= |ds| && Carried(env, ds, p) && p.traces <= q.traces && FitsAt(env, tl, ds, p.traces, k)
    requires |q.traces| == |p.traces| + (if SettledOf(d, env.chatKey) then 1 else 0)
    requires SettledOf(d, env.chatKey) ==>
               Fits(env, tl, d, TakenBefore(ds, env.chatKey, p.traces, |ds|), q.traces[|p.traces|])
    ensures FitsAt(env, tl, ds + [d], q.traces, k)
  {
    SettledSnoc(ds, d, env.chatKey);
    TakenOfPrefix(ds, d, env.chatKey, p.traces, q.traces, k);
    if k < |ds| { assert (ds + [d])[k] == ds[k]; }
  }

  lemma {:induction false} ScheduleFits(env: Env, composition: string, tl: Timeline, ds: seq<Dispatch>, k: nat)
    requires Schedule(env, composition, tl, ds).Ok? && k <= |ds|
    ensures Carried(env, ds, Schedule(env, composition, tl, ds).value)
    ensures FitsAt(env, tl, ds, Schedule(env, composition, tl, ds).value.traces, k)
  {
    if ds == [] {
    } else {
      var init, d := ds[..|ds| - 1], ds[|ds| - 1];
      assert ds == init + [d];
      var p, q := Schedule(env, composition, tl, init).value, Schedule(env, composition, tl, ds).value;
      ScheduleFits(env, composition, tl, init, if k < |init| then k else |init|);
      if SettledOf(d, env.chatKey) {
        AdvanceFits(env, composition, tl, p, d, TakenBefore(init, env.chatKey, p.traces, |init|));
      }
      CarriedOn(env, init, d, p, q);
      if k <= |init| { FitsOn(env, tl, init, d, p, q, k); } else { SettledSnoc(init, d, env.chatKey); }
    }
  }

  /** A replayed view has one trace for each settled dispatch of the chat, in order: of a frozen one the
      gate's verdict on its snapshot, of any other the verdict on the snapshot reassembled from the
      timeline. The spoken count is the number of triggers. */
  lemma {:induction false} ReplayedFits(env: Env, composition: string, view: View, k: nat)
    requires Replayed(env, composition, view).Ok? && k <= |view.dispatches|
    ensures var tl, r := TimelineOf(view, env.chatKey, view.commits), Replayed(env, composition, view).value;
            && tl.Ok? && IsTimeline(view, env.chatKey, view.commits, tl.value)
            && FitsAt(env, tl.value, view.dispatches, r.traces, k)
            && r.wouldHaveSpoken == |Triggers(r.traces)|
  {
    TimelineIsNamed(view, env.chatKey, view.commits);
    var tl := TimelineOf(view, env.chatKey, view.commits).value;
    ScheduleFits(env, composition, tl, view.dispatches, k);
    SpokenCounts(Replayed(env, composition, view).value.traces);
  }

  /* ---- What was live is accepted --------------------------------------------------------------- */

  /** The ledger attached what the live batch held: every attached commit names a message under the row it
      recorded, and the rows of the batch are those of the attached messages of others. */
  ghost predicate AttachedLive(view: View, chat: string, attached: seq<nat>, pending: seq<Message>) {
    && (forall k :: 0 <= k < |attached| ==> Present(view, chat, attached[k]))
    && (forall i: nat :: i < |view.commits| && view.commits[i].sequence in attached ==> view.commits[i].rowId.Some?)
    && (forall i, j :: 0 <= i < j < |view.commits| ==> view.commits[i].sequence != view.commits[j].sequence)
    && (forall row: nat :: InBatch(pending, row) <==>
          exists i: nat :: RecordedAt(view, chat, attached, row, i))
  }

  predicate InBatch(pending: seq<Message>, row: nat) { exists p :: 0 <= p < |pending| && pending[p].rowId == Some(row) }

  /** The commit at `i` is attached and recorded this row for somebody else's message. */
  ghost predicate RecordedAt(view: View, chat: string, attached: seq<nat>, row: nat, i: nat) {
    && i < |view.commits| && view.commits[i].sequence in attached && view.commits[i].rowId == Some(row)
    && NamesMessage(view, chat, view.commits[i]) && !Named(view, chat, view.commits[i]).isSelf
  }

  lemma {:induction false} RecordedIsAttached(
    view: View, chat: string, attached: seq<nat>, pending: seq<Message>, row: nat)
    requires AttachedLive(view, chat, attached, pending)
    ensures InBatch(pending, row) <==> AttachedRow(view, chat, attached, row)
  {
    if i: nat :| RecordedAt(view, chat, attached, row, i) {
      assert LastOf(view, chat, view.commits, i, view.commits[i].sequence);
      assert AttachedAt(view, chat, attached, row, i);
    }
    if i: nat :| AttachedAt(view, chat, attached, row, i) { assert RecordedAt(view, chat, attached, row, i); }
  }

  lemma {:induction false} BatchIsAttached(
    view: View, chat: string, attached: seq<nat>, pending: seq<Message>, live: GateSnapshot)
    requires AttachedLive(view, chat, attached, pending) && live.pendingMessages == pending
    ensures forall row: nat :: row in PendingRows(live) <==> AttachedRow(view, chat, attached, row)
  {
    forall row: nat ensures row in PendingRows(live) <==> AttachedRow(view, chat, attached, row) {
      RecordedIsAttached(view, chat, attached, pending, row);
      assert row in PendingRows(live) <==> InBatch(pending, row);
    }
  }

  /** What the live dispatcher assembles and freezes is recorded as the replay expects it, once the ledger
      attached the commits of its batch: the replay accepts it, and `Recorded` holds for the timeline. */
  lemma {:induction false} LiveIsAccepted(
    env: Env, composition: string, view: View, tl: Timeline, aliases: seq<string>, d: Dispatch,
    pending: seq<Message>, state: ChatState, ms: seq<Message>, end: Option<EndReason>, ids: set<string>, now: real,
    start: nat, through: nat, live: GateSnapshot)
    requires Snapshot.Configured(env.cfg)
    requires live == LiveSnapshot(env, aliases, d.sequence, start, through, pending, state,
                                  Recent(ms, through, now - env.windowS, env.limit), now, end, ids)
    requires d.chat == env.chatKey && d.state == Some(Completed) && d.settledTs.Some? && d.evaluatedTs == Some(now)
    requires d.startId == Some(start) && d.throughId == Some(through) && d.fingerprint == Some(composition)
    requires d.snapshot == Some(Readable(live)) && AttachedLive(view, env.chatKey, d.attached, pending)
    requires TimelineOf(view, env.chatKey, view.commits) == Ok(tl)
    ensures Acceptable(view, env.chatKey, composition, d) && Recorded(env, composition, tl, d, live)
  {
    TimelineIsNamed(view, env.chatKey, view.commits);
    BatchIsAttached(view, env.chatKey, d.attached, pending, live);
    RowSetsIff(view, env.chatKey, tl, d, live);
    forall k | 0 <= k < |d.attached| ensures d.attached[k] in tl.bySeq {
      PresentIff(view, env.chatKey, tl, d.attached[k]);
    }
    LiveIsRecorded(env, composition, tl, aliases, d, pending, state, ms, end, ids, now, start, through, live);
    RecordedIsAcceptable(env, composition, view, tl, d, live);
  }

  lemma {:induction false} RecordedIsAcceptable(
    env: Env, composition: string, view: View, tl: Timeline, d: Dispatch, live: GateSnapshot)
    requires IsTimeline(view, env.chatKey, view.commits, tl) && Recorded(env, composition, tl, d, live)
    ensures Acceptable(view, env.chatKey, composition, d)
  {
    RecordedIsRescored(env, composition, tl, BEGINNING, d, live);
    AcceptableIff(view, env.chatKey, composition, tl, d);
  }
}
