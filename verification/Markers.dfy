/**
 Marker-driven replay of `pretender/cycle.py`: the recorded dispatch schedule is rescored through
 the same gate, from the frozen snapshots where there are any and by reassembly where there are
 none, and compared with what the live gate decided.
*/
module Markers {
  import opened Prelude
  import opened Messages
  import opened Backoff
  import opened Gate
  import opened Snapshot
  import opened Replay

  datatype SettledState = Completed | Released | Unknown(name: string)

  /** The text of a frozen snapshot: unreadable, or the recorded fields. */
  datatype Frozen = Unreadable | Readable(snapshot: GateSnapshot)

  datatype Dispatch = Dispatch(
    sequence: nat, chat: string, state: Option<SettledState>, settledTs: Option<real>, evaluatedTs: Option<real>,
    startId: Option<nat>, throughId: Option<nat>, attached: seq<nat>, snapshot: Option<Frozen>,
    fingerprint: Option<string>)

  datatype CommitMarker = CommitMarker(sequence: nat, chat: string, eventId: Option<string>, rowId: Option<nat>)

  /** An event is a message, or something else that commits nothing. */
  datatype View = View(events: map<string, Option<Message>>, commits: seq<CommitMarker>, dispatches: seq<Dispatch>)

  /** The chat's messages in commit order, and the message of each commit. */
  datatype Timeline = Timeline(messages: seq<Message>, bySeq: map<nat, Message>)

  datatype Progress = Progress(cursor: nat, state: ChatState, previousEnd: Option<EndReason>, traces: seq<Trace>)

  /* ---- The timeline ------------------------------------------------------------------ */

  function Resolve(view: View, chat: string, c: CommitMarker): Option<Message> {
    if c.chat != chat || c.eventId.None? || c.eventId.value !in view.events then None
    else
      match view.events[c.eventId.value]
      case Some(m) => if m.chatKey == chat then Some(m) else None
      case None => None
  }

  predicate HasRow(ms: seq<Message>, row: nat) { exists i :: 0 <= i < |ms| && ms[i].rowId == Some(row) }

  function Place(view: View, chat: string, tl: Timeline, c: CommitMarker): Result<Timeline, string> {
    match Resolve(view, chat, c)
    case None => Ok(tl)
    case Some(m) =>
      var row := if c.rowId.Some? then c.rowId.value else |tl.messages| + 1;
      if HasRow(tl.messages, row) then Err("duplicate recorded message_row_id")
      else
        var placed := m.(rowId := Some(row));
        Ok(Timeline(tl.messages + [placed], tl.bySeq[c.sequence := placed]))
  }

  function TimelineOf(view: View, chat: string, commits: seq<CommitMarker>): Result<Timeline, string> {
    if commits == [] then Ok(Timeline([], map[]))
    else
      match TimelineOf(view, chat, commits[..|commits| - 1])
      case Err(e) => Err(e)
      case Ok(tl) => Place(view, chat, tl, commits[|commits| - 1])
  }

  /* ---- One dispatch ------------------------------------------------------------------- */

  /** A dispatch of another chat, or a marker from before dispatches were settled in the ledger. */
  predicate Skipped(d: Dispatch, chat: string) { d.chat != chat || (d.state.None? && d.settledTs.None?) }

  /** The rehydrated snapshot does not carry the mute or the aliases. */
  function Rehydrate(f: Frozen): Option<GateSnapshot> {
    match f
    case Unreadable => None
    case Readable(s) =>
      var r := s.(muted := false, selfAliases := []);
      if WellFormed(r) then Some(r) else None
  }

  function WithConfig(s: GateSnapshot, cfg: GateConfig): GateSnapshot {
    s.(mode := cfg.mode, threshold := cfg.threshold, triggerScore := cfg.triggerScore, frequency := cfg.frequency,
       backoffBaseS := cfg.backoffBaseS, backoffCapS := cfg.backoffCapS, backoffStartCount := cfg.backoffStartCount)
  }

  predicate Resolved(tl: Timeline, d: Dispatch) { forall i :: 0 <= i < |d.attached| ==> d.attached[i] in tl.bySeq }

  function ExpectedRows(tl: Timeline, attached: seq<nat>): set<nat> {
    set i | 0 <= i < |attached| && attached[i] in tl.bySeq && !tl.bySeq[attached[i]].isSelf
        && tl.bySeq[attached[i]].rowId.Some?
      :: tl.bySeq[attached[i]].rowId.value
  }

  function PendingRows(s: GateSnapshot): set<nat> {
    set i | 0 <= i < |s.pendingMessages| && s.pendingMessages[i].rowId.Some? :: s.pendingMessages[i].rowId.value
  }

  /** What must agree between a marker and its frozen snapshot. */
  function Mismatch(chat: string, tl: Timeline, d: Dispatch, s: GateSnapshot): Option<string> {
    if s.chatKey != chat then Some("chat mismatch")
    else if s.cycleId != DispatchCycle(d.sequence) then Some("cycle_id mismatch")
    else if d.evaluatedTs.Some? && s.evaluatedTs != d.evaluatedTs.value then Some("evaluated_ts mismatch")
    else if d.startId.Some? && s.startMsgId != d.startId.value then Some("start boundary mismatch")
    else if d.throughId.Some? && s.throughMsgId != d.throughId.value then Some("through boundary mismatch")
    else if PendingRows(s) != ExpectedRows(tl, d.attached) then Some("attached membership mismatch")
    else None
  }

  /** The refusals that do not depend on what was replayed before. */
  function Refused(chat: string, composition: string, tl: Timeline, d: Dispatch): Option<string> {
    if d.state != Some(Completed) && d.state != Some(Released) then Some("invalid dispatch marker state")
    else if d.settledTs.None? then Some("settled state without settled_ts")
    else if d.fingerprint.None? then Some("fingerprint missing")
    else if d.fingerprint.value != composition then Some("fingerprint mismatch")
    else if !Resolved(tl, d) then Some("attached commits not found in corpus")
    else if d.snapshot.None? then None
    else
      match Rehydrate(d.snapshot.value)
      case None => Some("malformed frozen dispatch snapshot")
      case Some(s) => Mismatch(chat, tl, d, s)
  }

  /** The attached messages that are still to be decided, in the marker's order. */
  function Attached(tl: Timeline, attached: seq<nat>, cursor: nat): seq<Message>
    requires forall i :: 0 <= i < |attached| ==> attached[i] in tl.bySeq
  {
    if attached == [] then []
    else
      var init, m := Attached(tl, attached[..|attached| - 1], cursor), tl.bySeq[attached[|attached| - 1]];
      if !m.isSelf && m.rowId.Some? && m.rowId.value > cursor then init + [m] else init
  }

  function Boundary(tl: Timeline, d: Dispatch): nat {
    if d.throughId.Some? then d.throughId.value else LastRow(tl.messages)
  }

  function Reassembled(env: Env, tl: Timeline, p: Progress, d: Dispatch): GateSnapshot
    requires Resolved(tl, d) && d.settledTs.Some?
  {
    var now, through := d.settledTs.value, Boundary(tl, d);
    Assemble(env, DispatchCycle(d.sequence), if d.startId.Some? then d.startId.value else 0, through,
             Attached(tl, d.attached, p.cursor), Paced(p.state, tl.messages, now),
             Recent(tl.messages, through, now - env.windowS, env.limit), now, p.previousEnd,
             SelfIdsBy(tl.messages, now))
  }

  /** Rescoring a frozen snapshot only adds its trace; the live transitions are in the next one. */
  function Rescored(env: Env, p: Progress, f: Frozen): Progress
    requires Rehydrate(f).Some?
  {
    var s := WithConfig(Rehydrate(f).value, env.cfg);
    p.(traces := p.traces + [Trace(s, EvaluateGate(env.features, s))])
  }

  function Redecided(env: Env, tl: Timeline, p: Progress, d: Dispatch): Progress
    requires Resolved(tl, d) && d.settledTs.Some?
  {
    var s := Reassembled(env, tl, p, d);
    var decision := EvaluateGate(env.features, s);
    var q := p.(state := Paced(p.state, tl.messages, d.settledTs.value), traces := p.traces + [Trace(s, decision)]);
    match decision.action
    case Trigger =>
      q.(cursor := Boundary(tl, d), state := q.state.(holdUntil := None, idleStreak := 0),
         previousEnd := Some(DryRunTrigger))
    case Skip =>
      q.(cursor := Boundary(tl, d), state := q.state.(holdUntil := None, idleStreak := 0),
         previousEnd := Some(SkipEnd))
    case Delay => q
  }

  function Advance(env: Env, composition: string, tl: Timeline, p: Progress, d: Dispatch): Result<Progress, string> {
    if Skipped(d, env.chatKey) then Ok(p)
    else
      match Refused(env.chatKey, composition, tl, d)
      case Some(e) => Err(e)
      case None => Ok(if d.snapshot.Some? then Rescored(env, p, d.snapshot.value) else Redecided(env, tl, p, d))
  }

  const BEGINNING := Progress(0, FRESH_STATE, None, [])

  function Schedule(env: Env, composition: string, tl: Timeline, ds: seq<Dispatch>): Result<Progress, string> {
    if ds == [] then Ok(BEGINNING)
    else
      match Schedule(env, composition, tl, ds[..|ds| - 1])
      case Err(e) => Err(e)
      case Ok(p) => Advance(env, composition, tl, p, ds[|ds| - 1])
  }

  function Summary(r: Result<Progress, string>): Result<ReplayResult, string> {
    match r
    case Err(e) => Err(e)
    case Ok(p) => Ok(ReplayResult(p.traces, Spoken(p.traces)))
  }

  /** The replay of a whole view: the timeline, then the schedule over it. */
  function Replayed(env: Env, composition: string, view: View): Result<ReplayResult, string> {
    match TimelineOf(view, env.chatKey, view.commits)
    case Err(e) => Err(e)
    case Ok(tl) => Summary(Schedule(env, composition, tl, view.dispatches))
  }

  method BuildTimeline(view: View, chat: string) returns (r: Result<Timeline, string>)
    ensures r == TimelineOf(view, chat, view.commits)
  {
    var tl := Timeline([], map[]);
    for k := 0 to |view.commits|
      invariant TimelineOf(view, chat, view.commits[..k]) == Ok(tl)
    {
      assert view.commits[..k + 1][..k] == view.commits[..k];
      var next := Place(view, chat, tl, view.commits[k]);
      if next.Err? {
        TimelineFails(view, chat, view.commits, k + 1);
        return next;
      }
      tl := next.value;
    }
    assert view.commits[..|view.commits|] == view.commits;
    r := Ok(tl);
  }

  lemma {:induction false} TimelineFails(view: View, chat: string, commits: seq<CommitMarker>, k: nat)
    requires k <= |commits| && TimelineOf(view, chat, commits[..k]).Err?
    ensures TimelineOf(view, chat, commits) == TimelineOf(view, chat, commits[..k])
  {
    if k < |commits| {
      var init := commits[..|commits| - 1];
      assert init[..k] == commits[..k];
      TimelineFails(view, chat, init, k);
    } else {
      assert commits[..k] == commits;
    }
  }

  lemma {:induction false} ScheduleFails(env: Env, composition: string, tl: Timeline, ds: seq<Dispatch>, k: nat)
    requires k <= |ds| && Schedule(env, composition, tl, ds[..k]).Err?
    ensures Schedule(env, composition, tl, ds) == Schedule(env, composition, tl, ds[..k])
  {
    if k < |ds| {
      var init := ds[..|ds| - 1];
      assert init[..k] == ds[..k];
      ScheduleFails(env, composition, tl, init, k);
    } else {
      assert ds[..k] == ds;
    }
  }

  /** A trace belongs to its dispatch and holds the gate's verdict on its snapshot. */
  ghost predicate TraceOf(features: Features, t: Trace, d: Dispatch) {
    t.snapshot.cycleId == DispatchCycle(d.sequence) && t.decision == EvaluateGate(features, t.snapshot)
  }

  lemma {:induction false} AdvanceTraces(env: Env, composition: string, tl: Timeline, p: Progress, d: Dispatch)
    requires !Skipped(d, env.chatKey) && Refused(env.chatKey, composition, tl, d).None?
    ensures var r := Advance(env, composition, tl, p, d);
            r.Ok? && exists t :: r.value.traces == p.traces + [t] && TraceOf(env.features, t, d)
  {
    var q := Advance(env, composition, tl, p, d).value;
    assert q.traces == p.traces + [q.traces[|p.traces|]];
  }

  lemma {:induction false} SpokenGrows(traces: seq<Trace>, t: Trace)
    ensures Spoken(traces + [t]) == Spoken(traces) + (if t.decision.action == Trigger then 1 else 0)
  {
    var more := traces + [t];
    assert more[..|more| - 1] == traces && more[|more| - 1] == t;
  }

  method Perform(env: Env, composition: string, tl: Timeline, p: Progress, d: Dispatch, spoken: nat)
    returns (next: Result<Progress, string>, spoken': nat)
    requires spoken == Spoken(p.traces)
    ensures next == Advance(env, composition, tl, p, d) && (next.Ok? ==> spoken' == Spoken(next.value.traces))
  {
    next, spoken' := Advance(env, composition, tl, p, d), spoken;
    if next.Ok? && !Skipped(d, env.chatKey) {
      AdvanceTraces(env, composition, tl, p, d);
      ghost var t :| next.value.traces == p.traces + [t];
      SpokenGrows(p.traces, t);
      if next.value.traces[|p.traces|].decision.action == Trigger { spoken' := spoken + 1; }
    }
  }

  /** The recorded schedule, dispatch by dispatch; any refusal ends the whole replay. */
  method RunSchedule(
    env: Env, composition: string, tl: Timeline, ds: seq<Dispatch>) returns (r: Result<ReplayResult, string>)
    ensures r == Summary(Schedule(env, composition, tl, ds))
  {
    var p, spoken := BEGINNING, 0;
    for k := 0 to |ds|
      invariant Schedule(env, composition, tl, ds[..k]) == Ok(p) && spoken == Spoken(p.traces)
    {
      assert ds[..k + 1][..k] == ds[..k];
      var next;
      next, spoken := Perform(env, composition, tl, p, ds[k], spoken);
      if next.Err? {
        ScheduleFails(env, composition, tl, ds, k + 1);
        return Err(next.error);
      }
      p := next.value;
    }
    assert ds[..|ds|] == ds;
    r := Ok(ReplayResult(p.traces, spoken));
  }

  method ReplayMarkerSchedule(env: Env, composition: string, view: View) returns (r: Result<ReplayResult, string>)
    ensures r == Replayed(env, composition, view)
  {
    var built := BuildTimeline(view, env.chatKey);
    if built.Err? { return Err(built.error); }
    r := RunSchedule(env, composition, built.value, view.dispatches);
  }

  ghost predicate WellPlaced(tl: Timeline) {
    && (forall i, j :: 0 <= i < j < |tl.messages| ==> tl.messages[i].rowId != tl.messages[j].rowId)
    && (forall i :: 0 <= i < |tl.messages| ==> tl.messages[i].rowId.Some?)
    && (forall c :: c in tl.bySeq ==> tl.bySeq[c] in tl.messages)
  }

  /** Row ids come from the commit markers and are never shared; every commit in the map is one of
      the messages. */
  lemma {:induction false} TimelineRowsAreDistinct(view: View, chat: string, commits: seq<CommitMarker>)
    ensures TimelineOf(view, chat, commits).Ok? ==> WellPlaced(TimelineOf(view, chat, commits).value)
  {
    if commits != [] {
      var init, c := commits[..|commits| - 1], commits[|commits| - 1];
      TimelineRowsAreDistinct(view, chat, init);
      if TimelineOf(view, chat, init).Ok? { PlacedWell(view, chat, TimelineOf(view, chat, init).value, c); }
    }
  }

  lemma {:induction false} PlacedWell(view: View, chat: string, tl: Timeline, c: CommitMarker)
    requires WellPlaced(tl)
    ensures Place(view, chat, tl, c).Ok? ==> WellPlaced(Place(view, chat, tl, c).value)
  {
    var m, r := Resolve(view, chat, c), Place(view, chat, tl, c);
    if m.Some? && r.Ok? {
      var row := if c.rowId.Some? then c.rowId.value else |tl.messages| + 1;
      var placed := m.value.(rowId := Some(row));
      assert r.value == Timeline(tl.messages + [placed], tl.bySeq[c.sequence := placed]) && !HasRow(tl.messages, row);
      assert r.value.messages[|tl.messages|] == placed;
    }
  }

  /* ---- All or nothing ------------------------------------------------------------------ */

  /** The dispatches of the chat that were settled in the ledger, in order. */
  function Kept(ds: seq<Dispatch>, chat: string): seq<Dispatch> {
    if ds == [] then []
    else
      var init, d := Kept(ds[..|ds| - 1], chat), ds[|ds| - 1];
      if Skipped(d, chat) then init else init + [d]
  }

  ghost predicate TracesOf(features: Features, traces: seq<Trace>, kept: seq<Dispatch>) {
    |traces| == |kept| && forall i :: 0 <= i < |kept| ==> TraceOf(features, traces[i], kept[i])
  }

  ghost predicate AllAccepted(chat: string, composition: string, tl: Timeline, ds: seq<Dispatch>) {
    forall i :: 0 <= i < |ds| && !Skipped(ds[i], chat) ==> Refused(chat, composition, tl, ds[i]).None?
  }

  /** Either the replay is refused as a whole, exactly when some settled dispatch of the chat is
      refused, or it yields one trace for each of them, in order: none is ever left out. */
  lemma {:induction false} AllOrNothing(env: Env, composition: string, tl: Timeline, ds: seq<Dispatch>)
    ensures Schedule(env, composition, tl, ds).Ok? <==> AllAccepted(env.chatKey, composition, tl, ds)
    ensures Schedule(env, composition, tl, ds).Ok? ==>
              TracesOf(env.features, Schedule(env, composition, tl, ds).value.traces, Kept(ds, env.chatKey))
  {
    if ds != [] {
      var init, d := ds[..|ds| - 1], ds[|ds| - 1];
      AllOrNothing(env, composition, tl, init);
      AcceptedSplit(env.chatKey, composition, tl, ds);
      if Schedule(env, composition, tl, init).Ok? && !Skipped(d, env.chatKey)
          && Refused(env.chatKey, composition, tl, d).None? {
        var p := Schedule(env, composition, tl, init).value;
        AdvanceTraces(env, composition, tl, p, d);
        var t :| Advance(env, composition, tl, p, d).value.traces == p.traces + [t] && TraceOf(env.features, t, d);
        TracesGrow(env.features, p.traces, t, Kept(init, env.chatKey), d);
      }
    }
  }

  lemma {:induction false} AcceptedSplit(chat: string, composition: string, tl: Timeline, ds: seq<Dispatch>)
    requires ds != []
    ensures var init, d := ds[..|ds| - 1], ds[|ds| - 1];
            AllAccepted(chat, composition, tl, ds)
            <==> (AllAccepted(chat, composition, tl, init)
                  && (Skipped(d, chat) || Refused(chat, composition, tl, d).None?))
  {
    assert forall i :: 0 <= i < |ds| - 1 ==> ds[..|ds| - 1][i] == ds[i];
  }

  lemma {:induction false} TracesGrow(
    features: Features, traces: seq<Trace>, t: Trace, kept: seq<Dispatch>, d: Dispatch)
    requires TracesOf(features, traces, kept) && TraceOf(features, t, d)
    ensures TracesOf(features, traces + [t], kept + [d])
  {
  }

  /* ---- The decision a frozen snapshot reproduces ------------------------------------------ */

  /** Whether a name occurs in a normalized text, ignoring case. */
  type Naming = (string, string) -> bool

  function Names(s: GateSnapshot): seq<string> { (if s.selfName.Some? then [s.selfName.value] else []) + s.selfAliases }

  predicate NameMentioned(naming: Naming, s: GateSnapshot) {
    exists i, j :: 0 <= i < |Names(s)| && 0 <= j < |s.pendingMessages|
                   && Names(s)[i] != "" && naming(Names(s)[i], s.pendingMessages[j].text)
  }

  function Relevance(naming: Naming, s: GateSnapshot): real {
    if s.hasDirectAt || s.hasQuoteToSelf then 100.0
    else if NameMentioned(naming, s) then 80.0
    else if !s.isGroup || s.isFocused then 40.0
    else 0.0
  }

  /** The relevance feature in front of the others. */
  function WithRelevance(naming: Naming, others: Features): Features {
    s => [Contribution("relevance", MaxOp, Relevance(naming, s), None)] + others(s)
  }

  function Forgets(s: GateSnapshot): GateSnapshot { s.(muted := false, selfAliases := []) }

  /** The other features read neither the mute nor the aliases. */
  ghost predicate Indifferent(others: Features) {
    forall s: GateSnapshot :: others(Forgets(s)) == others(s)
  }

  /** A pending message names the bot by an alias only, and nothing else addresses it. */
  predicate AliasOnly(naming: Naming, s: GateSnapshot) {
    !s.hasDirectAt && !s.hasQuoteToSelf && NameMentioned(naming, s) && !NameMentioned(naming, Forgets(s))
  }

  /** The score with the relevance of a name, and with what is left without it. */
  function ScoreWith(relevance: real, others: seq<Contribution>): real {
    FinalScore(Absorb(Contribution("relevance", MaxOp, relevance, None), Aggregate(others)))
  }

  /** What a caller can check of a live snapshot: the chat was not muted, and where only an alias
      named the bot, losing the name does not move the rounded score. */
  predicate Reproducible(naming: Naming, others: Features, s: GateSnapshot) {
    && !s.muted
    && (AliasOnly(naming, s) ==>
          ScoreWith(80.0, others(s)) == ScoreWith(if !s.isGroup || s.isFocused then 40.0 else 0.0, others(s)))
  }

  lemma {:induction false} ErrorsBehindRelevance(r: real, cs: seq<Contribution>)
    ensures AnyError([Contribution("relevance", MaxOp, r, None)] + cs) <==> AnyError(cs)
    ensures Score([Contribution("relevance", MaxOp, r, None)] + cs) == ScoreWith(r, cs)
  {
    var all := [Contribution("relevance", MaxOp, r, None)] + cs;
    assert all[1..] == cs && forall i :: 0 <= i < |cs| ==> all[i + 1] == cs[i];
  }

  lemma {:induction false} ForgettingRelevance(naming: Naming, s: GateSnapshot)
    ensures AliasOnly(naming, s) ==>
              && Relevance(naming, s) == 80.0
              && Relevance(naming, Forgets(s)) == if !s.isGroup || s.isFocused then 40.0 else 0.0
    ensures !AliasOnly(naming, s) ==> Relevance(naming, Forgets(s)) == Relevance(naming, s)
  {
    var f := Forgets(s);
    if NameMentioned(naming, f) {
      var i, j :| 0 <= i < |Names(f)| && 0 <= j < |f.pendingMessages| && Names(f)[i] != ""
          && naming(Names(f)[i], f.pendingMessages[j].text);
      assert Names(s)[i] == Names(f)[i];
    }
  }

  /** Deciding on what the marker keeps gives the live decision exactly when the live chat was not
      muted and no score hinged on an alias. */
  lemma {:induction false} SameDecisionIff(naming: Naming, others: Features, s: GateSnapshot)
    requires Indifferent(others)
    ensures var features := WithRelevance(naming, others);
            EvaluateGate(features, Forgets(s)) == EvaluateGate(features, s) <==> Reproducible(naming, others, s)
  {
    var f, features := Forgets(s), WithRelevance(naming, others);
    assert others(f) == others(s);
    ErrorsBehindRelevance(Relevance(naming, s), others(s));
    ErrorsBehindRelevance(Relevance(naming, f), others(s));
    ForgettingRelevance(naming, s);
    DecideAfterForgetting(s, features(s), features(f));
  }

  /** The trigger score lies between the score with an alias and the one without it. */
  predicate ScoreCrosses(others: Features, s: GateSnapshot) {
    var named := ScoreWith(80.0, others(s));
    var unnamed := ScoreWith(if !s.isGroup || s.isFocused then 40.0 else 0.0, others(s));
    (named >= s.triggerScore as real) != (unnamed >= s.triggerScore as real)
  }

  /** When the replayed gate does something else than the live one did: the chat was muted, and nothing
      but the mute kept it silent; or the trigger score lies between the scores with the alias and
      without it, and nothing but the score decides. */
  predicate ActionFlips(naming: Naming, others: Features, s: GateSnapshot) {
    if s.muted then HardTriggered(s) || !s.hasOtherAssistant
    else
      && AliasOnly(naming, s) && s.mode.ReplyNecessity? && ScoreCrosses(others, s)
      && !s.hasOtherAssistant && !AnyError(others(s)) && !BackoffFacts(s).applied
  }

  lemma {:induction false} ActionFlipsIff(naming: Naming, others: Features, s: GateSnapshot)
    requires Indifferent(others)
    ensures var features := WithRelevance(naming, others);
            EvaluateGate(features, Forgets(s)).action != EvaluateGate(features, s).action
            <==> ActionFlips(naming, others, s)
  {
    var f, features := Forgets(s), WithRelevance(naming, others);
    assert others(f) == others(s);
    ErrorsBehindRelevance(Relevance(naming, s), others(s));
    ErrorsBehindRelevance(Relevance(naming, f), others(s));
    ForgettingRelevance(naming, s);
    ActionAfterForgetting(s, features(s), features(f));
  }

  lemma {:induction false} ActionAfterForgetting(s: GateSnapshot, a: seq<Contribution>, b: seq<Contribution>)
    requires AnyError(a) <==> AnyError(b)
    requires HardTriggered(s) ==> Score(a) == Score(b)
    ensures Decide(Forgets(s), b).action != Decide(s, a).action <==>
              if s.muted then HardTriggered(s) || !s.hasOtherAssistant
              else
                && !HardTriggered(s) && s.mode.ReplyNecessity?
                && !s.hasOtherAssistant && !AnyError(a) && !BackoffFacts(s).applied
                && (Score(a) >= s.triggerScore as real) != (Score(b) >= s.triggerScore as real)
  {
    var f := Forgets(s);
    assert BackoffFacts(f) == BackoffFacts(s);
    TimingAfterForgetting(s, f);
  }

  lemma {:induction false} FrequencyAfterForgetting(s: GateSnapshot, f: GateSnapshot)
    requires f == Forgets(s)
    ensures FrequencyDelay(f) == FrequencyDelay(s)
  {
    if FrequencyDelay(s).Some? {
      assert FrequencyDelay(f).Some?;
      var avg, gap := s.recentAverageInterval, (s.threshold - s.pending) as real;
      var x := avg * gap - s.idleSeconds;
      assert FrequencyDelay(s) == Some(MaxReal(0.0, x));
      assert FrequencyDelay(f) == Some(MaxReal(0.0, x));
    }
  }

  lemma {:induction false} TimingAfterForgetting(s: GateSnapshot, f: GateSnapshot)
    requires f == Forgets(s)
    ensures CappedVirtual(f) == CappedVirtual(s) && ReplyDelay(f) == ReplyDelay(s)
  {
  }

  lemma {:induction false} DecideAfterForgetting(s: GateSnapshot, a: seq<Contribution>, b: seq<Contribution>)
    requires AnyError(a) <==> AnyError(b)
    requires HardTriggered(s) ==> Score(a) == Score(b)
    ensures Decide(Forgets(s), b) == Decide(s, a) <==> !s.muted && Score(a) == Score(b)
  {
    var f := Forgets(s);
    assert BackoffFacts(f) == BackoffFacts(s);
    TimingAfterForgetting(s, f);
    FrequencyAfterForgetting(s, f);
  }

  /* ---- Exact replay ---------------------------------------------------------------------------- */

  /** The marker of a dispatch that was evaluated live on the snapshot `live`, under the configuration
      and composition the replay uses, with all its commits in the corpus. */
  ghost predicate Recorded(env: Env, composition: string, tl: Timeline, d: Dispatch, live: GateSnapshot) {
    && d.chat == env.chatKey && d.state.Some? && !d.state.value.Unknown? && d.settledTs.Some?
    && d.fingerprint == Some(composition) && Resolved(tl, d)
    && d.snapshot == Some(Readable(live)) && WellFormed(live) && WithConfig(live, env.cfg) == live
    && Mismatch(env.chatKey, tl, d, live).None?
  }

  lemma {:induction false} RecordedIsRescored(
    env: Env, composition: string, tl: Timeline, p: Progress, d: Dispatch, live: GateSnapshot)
    requires Recorded(env, composition, tl, d, live)
    ensures !Skipped(d, env.chatKey) && Refused(env.chatKey, composition, tl, d).None?
    ensures Advance(env, composition, tl, p, d) ==
            Ok(p.(traces := p.traces + [Trace(Forgets(live), EvaluateGate(env.features, Forgets(live)))]))
  {
    var r := Forgets(live);
    assert WellFormed(r) && WithConfig(r, env.cfg) == r;
    assert PendingRows(r) == PendingRows(live);
    assert Rehydrate(d.snapshot.value) == Some(r);
  }

  ghost predicate AllRecorded(
    env: Env, composition: string, tl: Timeline, kept: seq<Dispatch>, lives: seq<GateSnapshot>)
  {
    |lives| == |kept| && forall i :: 0 <= i < |kept| ==> Recorded(env, composition, tl, kept[i], lives[i])
  }

  lemma {:induction false} ScheduleOfRecorded(
    env: Env, composition: string, tl: Timeline, ds: seq<Dispatch>, lives: seq<GateSnapshot>)
    requires AllRecorded(env, composition, tl, Kept(ds, env.chatKey), lives)
    ensures var r := Schedule(env, composition, tl, ds);
            && r.Ok? && |r.value.traces| == |lives|
            && forall i :: 0 <= i < |lives| ==>
                 r.value.traces[i] == Trace(Forgets(lives[i]), EvaluateGate(env.features, Forgets(lives[i])))
  {
    if ds != [] {
      var init, d := ds[..|ds| - 1], ds[|ds| - 1];
      if Skipped(d, env.chatKey) {
        ScheduleOfRecorded(env, composition, tl, init, lives);
      } else {
        var n := |lives| - 1;
        var before := Kept(init, env.chatKey);
        assert Kept(ds, env.chatKey) == before + [d] && |before| == n;
        assert forall i :: 0 <= i < n ==> before[i] == Kept(ds, env.chatKey)[i];
        ScheduleOfRecorded(env, composition, tl, init, lives[..n]);
        RecordedIsRescored(env, composition, tl, Schedule(env, composition, tl, init).value, d, lives[n]);
      }
    }
  }

  /** When the replayed decision is the live one, and when it takes another action. */
  ghost predicate Compares(replayed: Decision, live: Decision, naming: Naming, others: Features, s: GateSnapshot) {
    && (replayed == live <==> Reproducible(naming, others, s))
    && (replayed.action != live.action <==> ActionFlips(naming, others, s))
  }

  /** Replaying a ledger of frozen dispatches under the configuration and composition they were
      recorded with succeeds, and the decision of dispatch `i` is the one the live gate took exactly
      when its live snapshot was reproducible. */
  lemma {:induction false} ExactMarkerReplayIff(
    env: Env, composition: string, tl: Timeline, ds: seq<Dispatch>, lives: seq<GateSnapshot>, naming: Naming,
    others: Features, i: nat)
    requires env.features == WithRelevance(naming, others) && Indifferent(others)
    requires AllRecorded(env, composition, tl, Kept(ds, env.chatKey), lives) && i < |lives|
    ensures var r := Schedule(env, composition, tl, ds);
            && r.Ok? && TracesOf(env.features, r.value.traces, Kept(ds, env.chatKey))
            && Compares(r.value.traces[i].decision, EvaluateGate(env.features, lives[i]), naming, others, lives[i])
  {
    ScheduleOfRecorded(env, composition, tl, ds, lives);
    AllOrNothing(env, composition, tl, ds);
    SameDecisionIff(naming, others, lives[i]);
    ActionFlipsIff(naming, others, lives[i]);
  }

  /** What the live dispatcher assembles: the aliases as well. */
  function LiveSnapshot(
    env: Env, aliases: seq<string>, d: nat, start: nat, through: nat, pending: seq<Message>, state: ChatState,
    recent: RecentSnapshot, now: real, end: Option<EndReason>, ids: set<string>): GateSnapshot
  {
    Assemble(env, DispatchCycle(d), start, through, pending, state, recent, now, end, ids).(selfAliases := aliases)
  }

  /** A live snapshot is recorded as the replay expects it, once its membership is that of its marker. */
  lemma {:induction false} LiveIsRecorded(
    env: Env, composition: string, tl: Timeline, aliases: seq<string>, d: Dispatch, pending: seq<Message>,
    state: ChatState, ms: seq<Message>, end: Option<EndReason>, ids: set<string>, now: real, start: nat,
    through: nat, live: GateSnapshot)
    requires Snapshot.Configured(env.cfg)
    requires live == LiveSnapshot(env, aliases, d.sequence, start, through, pending, state,
                                  Recent(ms, through, now - env.windowS, env.limit), now, end, ids)
    requires d.chat == env.chatKey && d.state == Some(Completed) && d.settledTs.Some? && d.evaluatedTs == Some(now)
    requires d.startId == Some(start) && d.throughId == Some(through) && d.fingerprint == Some(composition)
    requires d.snapshot == Some(Readable(live)) && Resolved(tl, d) && PendingRows(live) == ExpectedRows(tl, d.attached)
    ensures Recorded(env, composition, tl, d, live)
  {
    AssembledIsWellFormed(env, DispatchCycle(d.sequence), start, through, pending, state, ms, now, end, ids);
  }

  /** A group is named by an alias only, with no other feature: live the bot speaks, replayed it waits. */
  lemma {:induction false} AliasExample(naming: Naming, others: Features, s: GateSnapshot)
    requires Indifferent(others) && others(s) == [] && AliasOnly(naming, s) && s.isGroup && !s.isFocused
    requires !s.muted && !s.hasOtherAssistant && !BackoffFacts(s).applied
    requires s.mode == ReplyNecessity && s.triggerScore == 80
    ensures EvaluateGate(WithRelevance(naming, others), s).action == Trigger
    ensures EvaluateGate(WithRelevance(naming, others), Forgets(s)).action == Delay
  {
    var f := Forgets(s);
    assert others(f) == others(s);
    ErrorsBehindRelevance(Relevance(naming, s), []);
    ErrorsBehindRelevance(Relevance(naming, f), []);
    ForgettingRelevance(naming, s);
    assert Aggregate([]) == Totals(0.0, 0.0, 1.0);
    assert ScoreWith(80.0, []) == 80.0 by { assert RoundHalfEven((80.0 + 0.0) * 1.0) == 80; }
    assert ScoreWith(0.0, []) == 0.0 by { assert RoundHalfEven((0.0 + 0.0) * 1.0) == 0; }
  }
}
