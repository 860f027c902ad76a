/**
 The snapshot assembler of `pretender/cycle.py` and the claim-bounded recent read it uses:
 every input is passed in, nothing is fetched.
*/
module Snapshot {
  import opened Prelude
  import opened Messages
  import opened Backoff
  import opened Gate

  datatype GateConfig = GateConfig(
    mode: Mode, threshold: int, triggerScore: int, frequency: real,
    backoffBaseS: real, backoffCapS: real, backoffStartCount: nat)

  /** What the configuration loader guarantees. */
  ghost predicate Configured(c: GateConfig) {
    c.threshold >= 1 && c.triggerScore >= 1 && 0.0 <= c.backoffBaseS <= c.backoffCapS
  }

  /** Everything one chat's evaluation reads besides the timeline. `refuses` is the refusal
      detector over a text; `features` are the registered gate features. */
  datatype Env = Env(
    chatKey: string, selfId: string, isGroup: bool, cfg: GateConfig, selfName: Option<string>,
    muted: bool, windowS: real, limit: nat, features: Features, refuses: string -> bool)

  datatype ChatState = ChatState(
    avgInterval: Option<real>, holdUntil: Option<real>, idleStreak: nat, focusUntil: Option<real>)

  const FRESH_STATE := ChatState(None, None, 0, None)

  datatype RecentSnapshot = RecentSnapshot(
    messages: seq<Message>, windowCount: nat, selfCount: nat, lastNonselfTs: Option<real>)

  /* ---- The recent read ---------------------------------------------------- */

  predicate InWindow(m: Message, through: nat, since: real) {
    m.rowId.Some? && m.rowId.value <= through && m.recvTs.Some? && m.recvTs.value >= since
  }

  function Window(ms: seq<Message>, through: nat, since: real): seq<Message> {
    if ms == [] then []
    else
      var w := Window(ms[..|ms| - 1], through, since);
      if InWindow(ms[|ms| - 1], through, since) then w + [ms[|ms| - 1]] else w
  }

  lemma {:induction false} WindowMember(ms: seq<Message>, through: nat, since: real)
    ensures forall m :: m in Window(ms, through, since) <==> m in ms && InWindow(m, through, since)
  {
    if ms != [] {
      WindowMember(ms[..|ms| - 1], through, since);
      assert ms == ms[..|ms| - 1] + [ms[|ms| - 1]];
    }
  }

  function Row(m: Message): nat { if m.rowId.Some? then m.rowId.value else 0 }

  function InsertNewest(m: Message, sorted: seq<Message>): (r: seq<Message>)
    ensures |r| == |sorted| + 1
  {
    if sorted == [] || Row(m) > Row(sorted[0]) then [m] + sorted
    else [sorted[0]] + InsertNewest(m, sorted[1..])
  }

  /** Newest first by row id; equal ids keep their order. */
  function NewestFirst(ms: seq<Message>): (r: seq<Message>)
    ensures |r| == |ms|
  {
    if ms == [] then [] else InsertNewest(ms[|ms| - 1], NewestFirst(ms[..|ms| - 1]))
  }

  ghost predicate Descending(ms: seq<Message>) {
    forall i, j :: 0 <= i < j < |ms| ==> Row(ms[i]) >= Row(ms[j])
  }

  lemma {:induction false} InsertContents(m: Message, sorted: seq<Message>)
    ensures multiset(InsertNewest(m, sorted)) == multiset(sorted) + multiset{m}
  {
    if sorted != [] && Row(m) <= Row(sorted[0]) {
      assert sorted == [sorted[0]] + sorted[1..];
      InsertContents(m, sorted[1..]);
    }
  }

  lemma {:induction false} InsertKeepsOrder(m: Message, sorted: seq<Message>)
    requires Descending(sorted)
    ensures Descending(InsertNewest(m, sorted))
  {
    if sorted != [] && Row(m) <= Row(sorted[0]) {
      var r := InsertNewest(m, sorted[1..]);
      InsertKeepsOrder(m, sorted[1..]);
      forall j | 0 <= j < |r| ensures Row(r[j]) <= Row(sorted[0]) {
        InsertContents(m, sorted[1..]);
        assert r[j] in multiset(r);
        assert r[j] in sorted[1..] || r[j] == m;
      }
    }
  }

  lemma {:induction false} LastOut(ms: seq<Message>)
    requires ms != []
    ensures multiset(ms) == multiset(ms[..|ms| - 1]) + multiset{ms[|ms| - 1]}
  {
    assert ms == ms[..|ms| - 1] + [ms[|ms| - 1]];
  }

  lemma {:induction false} NewestFirstContents(ms: seq<Message>)
    ensures multiset(NewestFirst(ms)) == multiset(ms)
  {
    if ms != [] {
      var init, last := ms[..|ms| - 1], ms[|ms| - 1];
      NewestFirstContents(init);
      InsertContents(last, NewestFirst(init));
      LastOut(ms);
    }
  }

  /** The recent read is the window, sorted: nothing lost, nothing added, newest first. */
  lemma {:induction false} NewestFirstSorts(ms: seq<Message>)
    ensures Descending(NewestFirst(ms)) && multiset(NewestFirst(ms)) == multiset(ms)
  {
    NewestFirstContents(ms);
    if ms != [] {
      NewestFirstSorts(ms[..|ms| - 1]);
      InsertKeepsOrder(ms[|ms| - 1], NewestFirst(ms[..|ms| - 1]));
    }
  }

  function SelfCount(ms: seq<Message>): (n: nat)
    ensures n <= |ms|
  {
    if ms == [] then 0 else SelfCount(ms[..|ms| - 1]) + (if ms[|ms| - 1].isSelf then 1 else 0)
  }

  predicate HasNonself(ms: seq<Message>, ts: real) {
    exists m :: m in ms && !m.isSelf && m.recvTs == Some(ts)
  }

  ghost predicate IsLastNonself(ms: seq<Message>, last: Option<real>) {
    && (last.Some? ==> HasNonself(ms, last.value))
    && forall m :: m in ms && !m.isSelf && m.recvTs.Some? ==> last.Some? && m.recvTs.value <= last.value
  }

  function LastNonself(ms: seq<Message>): Option<real> {
    if ms == [] then None
    else
      var m, r := ms[|ms| - 1], LastNonself(ms[..|ms| - 1]);
      if m.isSelf || m.recvTs.None? || (r.Some? && m.recvTs.value <= r.value) then r else m.recvTs
  }

  lemma {:induction false} LastNonselfMax(ms: seq<Message>)
    ensures IsLastNonself(ms, LastNonself(ms))
  {
    if ms != [] {
      var init, m := ms[..|ms| - 1], ms[|ms| - 1];
      LastNonselfMax(init);
      assert ms == init + [m];
      var r, last := LastNonself(init), LastNonself(ms);
      assert last == r || last == m.recvTs;
      if r.Some? && last == r {
        var x :| x in init && !x.isSelf && x.recvTs == Some(r.value);
        assert x in ms;
      }
    }
  }

  function Recent(ms: seq<Message>, through: nat, since: real, limit: nat): (r: RecentSnapshot)
    ensures r.selfCount <= r.windowCount && |r.messages| <= r.windowCount
  {
    var w := Window(ms, through, since);
    RecentSnapshot(Take(NewestFirst(w), limit), |w|, SelfCount(w), LastNonself(w))
  }

  function Take(ms: seq<Message>, limit: nat): (r: seq<Message>)
    ensures |r| <= |ms|
  {
    if limit <= |ms| then ms[..limit] else ms
  }

  /** The rendered list shows nothing that is not in the timeline. */
  lemma RecentFromTimeline(ms: seq<Message>, through: nat, since: real, limit: nat, m: Message)
    requires m in Recent(ms, through, since, limit).messages
    ensures m in ms && InWindow(m, through, since)
  {
    var w := Window(ms, through, since);
    WindowMember(ms, through, since);
    NewestFirstSorts(w);
    assert m in NewestFirst(w);
    assert m in multiset(w);
  }

  /** Narrowing the window either loses every non-self message or keeps the newest one. */
  lemma {:induction false} NarrowerWindow(ms: seq<Message>, through: nat, since: real, later: real)
    requires since <= later
    ensures var a := LastNonself(Window(ms, through, since));
            LastNonself(Window(ms, through, later)) == if a.Some? && a.value >= later then a else None
  {
    var w, v := Window(ms, through, since), Window(ms, through, later);
    WindowMember(ms, through, since);
    WindowMember(ms, through, later);
    LastNonselfMax(w);
    LastNonselfMax(v);
    LastNonselfOfTail(w, LastNonself(w), v, LastNonself(v), later);
  }

  lemma {:induction false} LastNonselfOfTail(
    w: seq<Message>, a: Option<real>, v: seq<Message>, b: Option<real>, later: real)
    requires IsLastNonself(w, a) && IsLastNonself(v, b)
    requires forall m :: m in v <==> m in w && m.recvTs.Some? && m.recvTs.value >= later
    ensures b == if a.Some? && a.value >= later then a else None
  {
    if a.Some? {
      var m :| m in w && !m.isSelf && m.recvTs == Some(a.value);
      assert a.value >= later ==> m in v;
    }
    if b.Some? {
      var m :| m in v && !m.isSelf && m.recvTs == Some(b.value);
      assert m in w;
    }
  }

  /* ---- Assembly ----------------------------------------------------------- */

  predicate Mentions(ms: seq<Message>, who: string) {
    exists i :: 0 <= i < |ms| && who in ms[i].mentions
  }

  predicate QuotesSelf(pending: seq<Message>, recent: seq<Message>, quoteSelfIds: set<string>) {
    exists i :: 0 <= i < |pending| && pending[i].replyTo.Some? &&
      (pending[i].replyTo.value in quoteSelfIds
       || exists j :: 0 <= j < |recent| && recent[j].id == pending[i].replyTo && recent[j].isSelf)
  }

  predicate AnyRefused(env: Env, ms: seq<Message>) {
    exists i :: 0 <= i < |ms| && env.refuses(ms[i].text)
  }

  function SelfIdsBy(ms: seq<Message>, now: real): set<string> {
    set i | 0 <= i < |ms| && ms[i].isSelf && ms[i].id.Some? && ms[i].recvTs.Some? && ms[i].recvTs.value <= now
      :: ms[i].id.value
  }

  function Assemble(env: Env, cycle: CycleId, start: nat, through: nat, pending: seq<Message>, state: ChatState,
                    recent: RecentSnapshot, now: real, end: Option<EndReason>, quoteSelfIds: set<string>): GateSnapshot
  {
    GateSnapshot(
      env.chatKey, cycle, start, through, now, env.selfId,
      env.cfg.mode, env.cfg.threshold, env.cfg.triggerScore, env.cfg.frequency,
      |pending|, pending, recent.messages, recent.windowCount, recent.selfCount, recent.lastNonselfTs,
      if recent.lastNonselfTs.Some? then now - recent.lastNonselfTs.value else env.windowS,
      if state.avgInterval.Some? then state.avgInterval.value else 0.0,
      if recent.windowCount == 0 then 0.0 else recent.selfCount as real / recent.windowCount as real,
      env.isGroup,
      state.focusUntil.Some? && now < state.focusUntil.value,
      env.selfName, [], env.muted,
      Mentions(pending, env.selfId),
      QuotesSelf(pending, recent.messages, quoteSelfIds),
      AnyRefused(env, pending),
      state.holdUntil, state.idleStreak, end,
      env.cfg.backoffBaseS, env.cfg.backoffCapS, env.cfg.backoffStartCount)
  }

  /** The assembled snapshot always passes its own construction checks. */
  lemma AssembledIsWellFormed(
    env: Env, cycle: CycleId, start: nat, through: nat, pending: seq<Message>, state: ChatState, ms: seq<Message>,
    now: real, end: Option<EndReason>, ids: set<string>)
    requires Configured(env.cfg)
    ensures WellFormed(Assemble(env, cycle, start, through, pending, state,
                                Recent(ms, through, now - env.windowS, env.limit), now, end, ids))
  {
  }
}
