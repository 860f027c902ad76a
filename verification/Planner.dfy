/**
 The planner loop of `pretender/planner.py`. The provider, the dispatcher, the tool context and
 the tolerant parser are arbitrary functions of the round, so every theorem holds for every
 sequence of model responses and dispatch failures.
*/
module Planner {
  import opened Prelude
  import opened Transcript
  import opened Normalizer
  import opened Folding
  import opened Context
  import opened Wire

  const NO_ACTION: string := "no_action"

  /** One element of a response's `tool_calls`: a typed call, a bare mapping, or neither. */
  datatype Unit =
    | Structured(call: ToolCall)
    | Mapped(id: Option<string>, name: Option<string>, arguments: Option<map<string, string>>, raw: Option<Raw>)
    | Junk

  datatype Response = Response(units: seq<Unit>, content: Option<string>)

  datatype Recovered = Recovered(callId: string, name: string, data: Option<map<string, string>>)

  datatype ToolResult = ToolResult(callId: string, name: string, ok: bool, content: string, error: Option<string>)

  datatype Outcome = Raised(error: string) | Returned(result: ToolResult)

  /** What the tools of one round staged in the tool context. */
  datatype Verdict = Verdict(reply: Option<string>, wait: Option<real>, noAction: bool)

  datatype World = World(
    strip: string -> string,
    repair: (string, string, Raw) -> Option<map<string, string>>,
    recover: string -> seq<Recovered>,
    complete: (nat, seq<Entry>) -> Response,
    dispatch: (nat, seq<ToolCall>, nat) -> Outcome,
    verdict: (nat, seq<ToolCall>) -> Verdict)

  datatype End = Reply(text: string) | Wait(seconds: real) | NoAction | EmptyResponse | NoToolCall | RoundCap

  datatype Round = Round(index: nat, request: seq<Entry>, response: Response, calls: seq<ToolCall>,
                         results: seq<ToolResult>, messages: seq<Entry>)

  datatype Plan = Plan(rounds: seq<Round>, transcript: seq<Entry>, end: End, degraded: bool)

  /* ---- Call resolution ----------------------------------------------------------- */

  function OrEmpty(m: Option<map<string, string>>): map<string, string> { if m.Some? then m.value else map[] }

  /** A call with raw arguments gets one repair; a failed repair turns it into `no_action`. */
  function Mended(w: World, id: string, name: string, arguments: map<string, string>, raw: Option<Raw>): ToolCall {
    if raw.None? then ToolCall(w.strip(id), name, arguments, None)
    else
      match w.repair(id, name, raw.value)
      case Some(fixed) => ToolCall(w.strip(id), name, fixed, None)
      case None => ToolCall(w.strip(id), NO_ACTION, map[], None)
  }

  function Candidate(w: World, u: Unit): Option<ToolCall> {
    match u
    case Structured(c) => Some(Mended(w, c.id, c.name, c.arguments, c.raw))
    case Mapped(Some(id), name, arguments, raw) =>
      Some(Mended(w, id, if name.Some? then name.value else "", OrEmpty(arguments), raw))
    case _ => None
  }

  predicate NeedsRepair(u: Unit) {
    match u
    case Structured(c) => c.raw.Some?
    case Mapped(id, _, _, raw) => id.Some? && raw.Some?
    case Junk => false
  }

  /** The calls a list of units stands for, in order, before duplicates are collapsed. */
  function Candidates(w: World, units: seq<Unit>): seq<ToolCall> {
    if units == [] then []
    else
      var init, c := Candidates(w, units[..|units| - 1]), Candidate(w, units[|units| - 1]);
      if c.Some? && c.value.id != "" then init + [c.value] else init
  }

  function Revived(w: World, r: Recovered): ToolCall {
    ToolCall(w.strip(r.callId), if r.name != "" then r.name else NO_ACTION, OrEmpty(r.data), None)
  }

  function Revivals(w: World, found: seq<Recovered>): seq<ToolCall> {
    if found == [] then []
    else
      var init, c := Revivals(w, found[..|found| - 1]), Revived(w, found[|found| - 1]);
      if c.id != "" then init + [c] else init
  }

  predicate AnyRepair(units: seq<Unit>) { exists i :: 0 <= i < |units| && NeedsRepair(units[i]) }

  function Resolved(w: World, resp: Response): (seq<ToolCall>, bool) {
    var calls := Dedup(Candidates(w, resp.units));
    if calls == [] && HasText(resp.content) then
      var found := w.recover(resp.content.value);
      (Dedup(Revivals(w, found)), AnyRepair(resp.units) || found != [])
    else (calls, AnyRepair(resp.units))
  }

  ghost predicate SeenIs(seen: set<string>, calls: seq<ToolCall>) {
    forall id :: id in seen <==> HasCall(calls, id)
  }

  lemma {:induction false} SeenGrows(seen: set<string>, calls: seq<ToolCall>, c: ToolCall)
    requires SeenIs(seen, calls)
    ensures SeenIs(seen + {c.id}, calls + [c])
  {
    var more := calls + [c];
    assert more[|calls|] == c;
    forall id ensures id in seen + {c.id} <==> HasCall(more, id) {
      if HasCall(calls, id) {
        var i :| 0 <= i < |calls| && calls[i].id == id;
        assert more[i].id == id;
      }
    }
  }

  lemma {:induction false} DedupSnoc(calls: seq<ToolCall>, c: ToolCall)
    ensures Dedup(calls + [c]) == if HasCall(Dedup(calls), c.id) then Dedup(calls) else Dedup(calls) + [c]
  {
    var more := calls + [c];
    assert more[..|more| - 1] == calls && more[|more| - 1] == c;
  }

  method ResolveCalls(w: World, resp: Response) returns (calls: seq<ToolCall>, usedFallback: bool)
    ensures (calls, usedFallback) == Resolved(w, resp)
  {
    var seen := {};
    calls, usedFallback := [], false;
    for k := 0 to |resp.units|
      invariant calls == Dedup(Candidates(w, resp.units[..k]))
      invariant SeenIs(seen, calls)
      invariant usedFallback == AnyRepair(resp.units[..k])
    {
      assert resp.units[..k + 1][..k] == resp.units[..k];
      if NeedsRepair(resp.units[k]) {
        usedFallback := true;
        assert NeedsRepair(resp.units[..k + 1][k]);
      }
      RepairSoFar(resp.units, k);
      var c := Candidate(w, resp.units[k]);
      if c.Some? && c.value.id != "" {
        DedupSnoc(Candidates(w, resp.units[..k]), c.value);
        SeenGrows(seen, calls, c.value);
        if c.value.id !in seen {
          seen := seen + {c.value.id};
          calls := calls + [c.value];
        }
      }
    }
    assert resp.units[..|resp.units|] == resp.units;
    if calls == [] && HasText(resp.content) {
      var found := w.recover(resp.content.value);
      if found != [] { usedFallback := true; }
      calls := Revive(w, found);
    }
  }

  lemma {:induction false} RepairSoFar(units: seq<Unit>, k: nat)
    requires k < |units|
    ensures AnyRepair(units[..k + 1]) <==> AnyRepair(units[..k]) || NeedsRepair(units[k])
  {
    var a, b := units[..k + 1], units[..k];
    assert a[k] == units[k] && forall i :: 0 <= i < k ==> a[i] == b[i];
  }

  method Revive(w: World, found: seq<Recovered>) returns (calls: seq<ToolCall>)
    ensures calls == Dedup(Revivals(w, found))
  {
    var seen := {};
    calls := [];
    for k := 0 to |found|
      invariant calls == Dedup(Revivals(w, found[..k]))
      invariant SeenIs(seen, calls)
    {
      assert found[..k + 1][..k] == found[..k];
      var c := Revived(w, found[k]);
      if c.id != "" {
        DedupSnoc(Revivals(w, found[..k]), c);
        SeenGrows(seen, calls, c);
        if c.id !in seen {
          seen := seen + {c.id};
          calls := calls + [c];
        }
      }
    }
    assert found[..|found|] == found;
  }

  /* ---- One round ------------------------------------------------------------------- */

  /** A dispatch that raises still yields a failed result for its call. */
  function Contained(c: ToolCall, o: Outcome): ToolResult {
    match o
    case Returned(result) => result
    case Raised(error) => ToolResult(c.id, c.name, false, "", Some("dispatch failed: " + error))
  }

  function ToolMessage(c: ToolCall, r: ToolResult): Entry {
    var content :=
      if r.ok then r.content
      else if HasText(r.error) then r.error.value
      else if r.content != "" then r.content
      else "tool call failed";
    Entry(Tool, Some(content), [], Some(c.id),
          if r.name != "" then Some(r.name) else if c.name != "" then Some(c.name) else None)
  }

  function ResultsOf(w: World, k: nat, calls: seq<ToolCall>): seq<ToolResult> {
    seq(|calls|, i requires 0 <= i < |calls| => Contained(calls[i], w.dispatch(k, calls, i)))
  }

  function MessagesOf(calls: seq<ToolCall>, results: seq<ToolResult>): seq<Entry>
    requires |calls| == |results|
  {
    seq(|calls|, i requires 0 <= i < |calls| => ToolMessage(calls[i], results[i]))
  }

  predicate AnyRaised(w: World, k: nat, calls: seq<ToolCall>) {
    exists i :: 0 <= i < |calls| && w.dispatch(k, calls, i).Raised?
  }

  function RoundAt(w: World, k: nat, t: seq<Entry>): Round {
    var resp := w.complete(k, t);
    var calls := Resolved(w, resp).0;
    var results := ResultsOf(w, k, calls);
    Round(k, t, resp, calls, results, [AssistantTurn(resp.content, calls)] + MessagesOf(calls, results))
  }

  predicate Degrades(w: World, k: nat, r: Round) {
    Resolved(w, r.response).1 || AnyRaised(w, k, r.calls)
  }

  /** The terminal verdict of a round: a staged reply, then a wait, then a refusal, then a
      response without calls. */
  function EndOf(v: Verdict, r: Round): Option<End> {
    if v.reply.Some? then Some(Reply(v.reply.value))
    else if v.wait.Some? then Some(Wait(v.wait.value))
    else if v.noAction then Some(NoAction)
    else if r.calls != [] then None
    else if r.response.content.None? then Some(EmptyResponse)
    else Some(NoToolCall)
  }

  method DispatchAll(w: World, k: nat, calls: seq<ToolCall>) returns (results: seq<ToolResult>, raised: bool)
    ensures results == ResultsOf(w, k, calls) && raised == AnyRaised(w, k, calls)
  {
    results, raised := [], false;
    for i := 0 to |calls|
      invariant |results| == i
      invariant forall j :: 0 <= j < i ==> results[j] == Contained(calls[j], w.dispatch(k, calls, j))
      invariant raised <==> exists j :: 0 <= j < i && w.dispatch(k, calls, j).Raised?
    {
      var outcome := w.dispatch(k, calls, i);
      if outcome.Raised? { raised := true; }
      results := results + [Contained(calls[i], outcome)];
    }
  }

  method PlayRound(w: World, k: nat, t: seq<Entry>) returns (r: Round, degraded: bool)
    ensures r == RoundAt(w, k, t) && degraded == Degrades(w, k, r)
  {
    var resp := w.complete(k, t);
    var calls, usedFallback := ResolveCalls(w, resp);
    var results, raised := DispatchAll(w, k, calls);
    degraded := usedFallback || raised;
    var answers: seq<Entry> := [];
    for i := 0 to |calls|
      invariant answers == MessagesOf(calls, results)[..i]
    {
      answers := answers + [ToolMessage(calls[i], results[i])];
    }
    assert answers == MessagesOf(calls, results);
    r := Round(k, t, resp, calls, results, [AssistantTurn(resp.content, calls)] + answers);
  }

  /* ---- The loop ---------------------------------------------------------------------- */

  function PlanFrom(w: World, t: seq<Entry>, k: nat, cap: nat): Plan
    decreases cap - k
  {
    if k >= cap then Plan([], t, RoundCap, false)
    else
      var r := RoundAt(w, k, t);
      var end := EndOf(w.verdict(k, r.calls), r);
      if end.Some? then Plan([r], t + r.messages, end.value, Degrades(w, k, r))
      else Before(r, Degrades(w, k, r), PlanFrom(w, t + r.messages, k + 1, cap))
  }

  function Before(r: Round, degraded: bool, p: Plan): Plan {
    p.(rounds := [r] + p.rounds, degraded := degraded || p.degraded)
  }

  function Preceded(rounds: seq<Round>, degraded: bool, p: Plan): Plan {
    p.(rounds := rounds + p.rounds, degraded := degraded || p.degraded)
  }

  lemma {:induction false} PrecededStep(rounds: seq<Round>, degraded: bool, r: Round, d: bool, p: Plan)
    ensures Preceded(rounds, degraded, Before(r, d, p)) == Preceded(rounds + [r], degraded || d, p)
  {
    assert rounds + ([r] + p.rounds) == (rounds + [r]) + p.rounds;
  }

  /** The transcript a run starts from: the system prompt and the bounded chat history. */
  function Opening(prompt: string, history: seq<Entry>): seq<Entry> {
    [Entry(System, Some(prompt), [], None, None)] + history
  }

  method RunPlan(w: World, prompt: string, history: seq<Entry>, cap: int) returns (r: Result<Plan, string>)
    ensures r == if cap < 1 then Err("max_tool_rounds must be a positive integer")
                 else Ok(PlanFrom(w, Opening(prompt, history), 0, cap))
  {
    if cap < 1 { return Err("max_tool_rounds must be a positive integer"); }
    var transcript := Opening(prompt, history);
    var rounds: seq<Round> := [];
    var degraded := false;
    ghost var whole := PlanFrom(w, transcript, 0, cap);
    assert [] + whole.rounds == whole.rounds;
    for k := 0 to cap
      invariant whole == Preceded(rounds, degraded, PlanFrom(w, transcript, k, cap))
    {
      var round, d := PlayRound(w, k, transcript);
      var end := EndOf(w.verdict(k, round.calls), round);
      transcript := transcript + round.messages;
      if end.Some? {
        return Ok(Plan(rounds + [round], transcript, end.value, degraded || d));
      }
      PrecededStep(rounds, degraded, round, d, PlanFrom(w, transcript, k + 1, cap));
      rounds, degraded := rounds + [round], degraded || d;
    }
    assert rounds + [] == rounds;
    r := Ok(Plan(rounds, transcript, RoundCap, degraded));
  }

  /* ---- Laws of call resolution --------------------------------------------------------- */

  predicate FirstWith(calls: seq<ToolCall>, k: nat, c: ToolCall) {
    k < |calls| && calls[k] == c && forall j :: 0 <= j < k ==> calls[j].id != c.id
  }

  lemma {:induction false} FirstWithSnoc(init: seq<ToolCall>, last: ToolCall, c: ToolCall)
    ensures (exists k: nat :: FirstWith(init + [last], k, c))
       <==> (exists k: nat :: FirstWith(init, k, c)) || (c == last && !HasCall(init, c.id))
  {
    var calls := init + [last];
    assert calls[|init|] == last && forall j :: 0 <= j < |init| ==> calls[j] == init[j];
    if k: nat :| FirstWith(init, k, c) { assert FirstWith(calls, k, c); }
    if c == last && !HasCall(init, c.id) { assert FirstWith(calls, |init|, c); }
    if k: nat :| FirstWith(calls, k, c) { assert k < |init| ==> FirstWith(init, k, c); }
  }

  /** Collapsing keeps exactly the first call of each id. */
  lemma {:induction false} DedupKeepsFirst(calls: seq<ToolCall>, c: ToolCall)
    ensures c in Dedup(calls) <==> exists k: nat :: FirstWith(calls, k, c)
    ensures HasCall(calls, c.id) ==> HasCall(Dedup(calls), c.id)
  {
    if calls != [] {
      var init, last := calls[..|calls| - 1], calls[|calls| - 1];
      assert calls == init + [last];
      DedupKeepsFirst(init, c);
      DedupKeepsFirst(init, last);
      DedupSnoc(init, last);
      FirstWithSnoc(init, last, c);
      if HasCall(Dedup(init), last.id) { DedupIds(init, last.id); } else { HasLast(Dedup(init), last); }
      if HasCall(init, c.id) { HasMore(Dedup(init), last, c.id); }
    }
  }

  lemma {:induction false} HasLast(calls: seq<ToolCall>, c: ToolCall)
    ensures HasCall(calls + [c], c.id)
  {
    assert (calls + [c])[|calls|] == c;
  }

  lemma {:induction false} HasMore(calls: seq<ToolCall>, c: ToolCall, id: string)
    requires HasCall(calls, id)
    ensures HasCall(calls + [c], id)
  {
    var i :| 0 <= i < |calls| && calls[i].id == id;
    assert (calls + [c])[i] == calls[i];
  }

  lemma {:induction false} DedupInside(calls: seq<ToolCall>)
    ensures forall c :: c in Dedup(calls) ==> c in calls
  {
    if calls != [] { DedupInside(calls[..|calls| - 1]); }
  }

  lemma {:induction false} DedupIds(calls: seq<ToolCall>, id: string)
    requires HasCall(Dedup(calls), id)
    ensures HasCall(calls, id)
  {
    var d := Dedup(calls);
    DedupInside(calls);
    var i :| 0 <= i < |d| && d[i].id == id;
    assert d[i] in d;
    var k :| 0 <= k < |calls| && calls[k] == d[i];
  }

  predicate Clean(c: ToolCall) { c.id != "" && c.raw.None? }

  lemma {:induction false} CandidatesAreClean(w: World, units: seq<Unit>)
    ensures forall c :: c in Candidates(w, units) ==> Clean(c)
    ensures forall k :: 0 <= k < |units| && Candidate(w, units[k]).Some? && Candidate(w, units[k]).value.id != ""
              ==> Candidate(w, units[k]).value in Candidates(w, units)
  {
    if units != [] { CandidatesAreClean(w, units[..|units| - 1]); }
  }

  lemma {:induction false} RevivalsAreClean(w: World, found: seq<Recovered>)
    ensures forall c :: c in Revivals(w, found) ==> Clean(c)
  {
    if found != [] { RevivalsAreClean(w, found[..|found| - 1]); }
  }

  /** Resolution orphans no id: the calls have distinct, nonempty ids and no raw arguments left,
      and every unit that names an id is answered by a call with that id. */
  lemma {:induction false} ResolvedOrphansNothing(w: World, resp: Response, calls: seq<ToolCall>)
    requires calls == Resolved(w, resp).0
    ensures UniqueIds(calls) && forall i :: 0 <= i < |calls| ==> Clean(calls[i])
    ensures forall k :: 0 <= k < |resp.units| && Candidate(w, resp.units[k]).Some?
              ==> Candidate(w, resp.units[k]).value.id == "" || HasCall(calls, Candidate(w, resp.units[k]).value.id)
  {
    var named := Candidates(w, resp.units);
    CandidatesAreClean(w, resp.units);
    DedupUnique(named);
    DedupInside(named);
    forall k | 0 <= k < |resp.units| && Candidate(w, resp.units[k]).Some? && Candidate(w, resp.units[k]).value.id != ""
      ensures HasCall(Dedup(named), Candidate(w, resp.units[k]).value.id)
    {
      var c := Candidate(w, resp.units[k]).value;
      var i :| 0 <= i < |named| && named[i] == c;
      DedupKeepsFirst(named, c);
    }
    if calls != Dedup(named) {
      var found := w.recover(resp.content.value);
      RevivalsAreClean(w, found);
      DedupUnique(Revivals(w, found));
      DedupInside(Revivals(w, found));
    }
  }

  /* ---- Laws of the loop ------------------------------------------------------------------ */

  ghost predicate Sendable(ms: seq<Entry>) { Canonical(ms) && AllValid(ms) }

  lemma {:induction false} TurnThenRest(a: seq<Entry>, b: seq<Entry>, n: nat)
    requires 1 + n <= |a|
    ensures a + b == [a[0]] + a[1..1 + n] + (a[1 + n..] + b)
  {
  }

  lemma {:induction false} PlainThenRest(m: Entry, rest: seq<Entry>)
    requires !OpensTurn(m) && m.role != Tool && Canonical(rest)
    ensures Canonical([m] + rest)
  {
    assert ([m] + rest)[1..] == rest;
  }

  lemma {:induction false} CanonicalAppend(a: seq<Entry>, b: seq<Entry>)
    requires Canonical(a) && Canonical(b)
    ensures Canonical(a + b)
    decreases |a|
  {
    if a == [] {
      assert a + b == b;
    } else if OpensTurn(a[0]) {
      var n := ToolRun(a[1..]);
      RunIsTools(a[1..]);
      var tools, rest := a[1..1 + n], a[1 + n..];
      CanonicalAppend(rest, b);
      PrependTurn(a[0], tools, rest + b);
      TurnThenRest(a, b, n);
    } else {
      CanonicalAppend(a[1..], b);
      PlainThenRest(a[0], a[1..] + b);
      assert a + b == [a[0]] + (a[1..] + b);
    }
  }

  /** What one round appends: one assistant turn and exactly one answer per call, in call order. */
  ghost predicate Answered(r: Round) {
    && r.messages != [] && |r.calls| == |r.results| && UniqueIds(r.calls)
    && r.messages == [AssistantTurn(r.response.content, r.calls)] + r.messages[1..]
    && Answers(r.calls, r.messages[1..])
    && Sendable(r.messages)
  }

  lemma {:induction false} RoundIsAnswered(w: World, k: nat, t: seq<Entry>, r: Round)
    requires r == RoundAt(w, k, t)
    ensures Answered(r)
  {
    ResolvedOrphansNothing(w, r.response, r.calls);
    var head, answers := AssistantTurn(r.response.content, r.calls), MessagesOf(r.calls, r.results);
    assert r.messages[1..] == answers && r.messages[0] == head;
    assert Answers(r.calls, answers);
    AllValidParts([head], answers);
    if r.calls == [] {
      assert answers == [] && r.messages == [head];
    } else {
      PrependTurn(head, answers, []);
      assert [head] + answers + [] == r.messages;
    }
  }

  lemma {:induction false} AnswerSurvives(codec: JsonCodec, c: ToolCall, r: ToolResult)
    requires Lawful(codec)
    ensures FromWire(codec, ToWire(codec, ToolMessage(c, r))) == ToolMessage(c, r)
  {
    EntryRoundTripIff(codec, ToolMessage(c, r));
  }

  /** Everything the planner appends comes back from the wire as it was. */
  lemma {:induction false} RoundSurvivesWire(codec: JsonCodec, w: World, k: nat, t: seq<Entry>, r: Round, i: nat)
    requires Lawful(codec) && r == RoundAt(w, k, t) && i < |r.messages|
    ensures FromWire(codec, ToWire(codec, r.messages[i])) == r.messages[i]
  {
    if i == 0 {
      ResolvedOrphansNothing(w, r.response, r.calls);
      assert forall j :: 0 <= j < |r.calls| ==> CallSurvives(codec, r.calls[j]);
      EntryRoundTripIff(codec, AssistantTurn(r.response.content, r.calls));
    } else {
      assert r.messages[i] == ToolMessage(r.calls[i - 1], r.results[i - 1]);
      AnswerSurvives(codec, r.calls[i - 1], r.results[i - 1]);
    }
  }

  function Appended(rounds: seq<Round>): seq<Entry> {
    if rounds == [] then [] else rounds[0].messages + Appended(rounds[1..])
  }

  /** A finished run: every request and the final transcript can be sent as they are, every round
      is answered, and nothing but the rounds' own messages was added. */
  ghost predicate RunsWell(t: seq<Entry>, p: Plan) {
    && p.transcript == t + Appended(p.rounds)
    && Sendable(p.transcript)
    && forall j :: 0 <= j < |p.rounds| ==>
         && Answered(p.rounds[j])
         && Sendable(p.rounds[j].request)
         && p.rounds[j].request == t + Appended(p.rounds[..j])
  }

  lemma {:induction false} RunLaws(w: World, t: seq<Entry>, k: nat, cap: nat, p: Plan)
    requires Sendable(t) && p == PlanFrom(w, t, k, cap)
    ensures RunsWell(t, p)
    decreases cap - k
  {
    if k >= cap {
      assert t + [] == t;
    } else {
      var r := RoundAt(w, k, t);
      RoundIsAnswered(w, k, t, r);
      CanonicalAppend(t, r.messages);
      AllValidParts(t, r.messages);
      if EndOf(w.verdict(k, r.calls), r).Some? {
        RunOfOne(t, r, p);
      } else {
        var rest := PlanFrom(w, t + r.messages, k + 1, cap);
        RunLaws(w, t + r.messages, k + 1, cap, rest);
        RunOfMore(t, r, rest, p);
      }
    }
  }

  lemma {:induction false} RunOfOne(t: seq<Entry>, r: Round, p: Plan)
    requires p.rounds == [r] && p.transcript == t + r.messages && r.request == t
    requires Answered(r) && Sendable(t) && Sendable(t + r.messages)
    ensures RunsWell(t, p)
  {
    assert p.rounds[1..] == [] && r.messages + [] == r.messages;
    assert p.rounds[..0] == [] && t + [] == t;
  }

  lemma {:induction false} AppendedHead(r: Round, rest: seq<Round>, t: seq<Entry>)
    ensures t + Appended([r] + rest) == (t + r.messages) + Appended(rest)
  {
    assert ([r] + rest)[1..] == rest;
  }

  lemma {:induction false} RunOfMore(t: seq<Entry>, r: Round, rest: Plan, p: Plan)
    requires p.rounds == [r] + rest.rounds && p.transcript == rest.transcript && r.request == t
    requires Answered(r) && Sendable(t) && RunsWell(t + r.messages, rest)
    ensures RunsWell(t, p)
  {
    AppendedHead(r, rest.rounds, t);
    forall j | 0 <= j < |p.rounds|
      ensures Answered(p.rounds[j]) && Sendable(p.rounds[j].request)
              && p.rounds[j].request == t + Appended(p.rounds[..j])
    {
      if j == 0 {
        assert p.rounds[..0] == [] && t + [] == t;
      } else {
        assert p.rounds[j] == rest.rounds[j - 1];
        assert p.rounds[..j] == [r] + rest.rounds[..j - 1];
        AppendedHead(r, rest.rounds[..j - 1], t);
      }
    }
  }

  /** What ends a round: a staged reply whatever else was staged, then a wait, then a refusal; with
      nothing staged, only a response without calls. */
  lemma {:induction false} VerdictOrder(v: Verdict, r: Round)
    ensures var e := EndOf(v, r);
            && (forall text :: e == Some(Reply(text)) <==> v.reply == Some(text))
            && (forall s :: e == Some(Wait(s)) <==> v.reply.None? && v.wait == Some(s))
            && (e == Some(NoAction) <==> v.reply.None? && v.wait.None? && v.noAction)
            && (e.None? <==> v == Verdict(None, None, false) && r.calls != [])
            && (e == Some(EmptyResponse) ==> r.response.content.None?) && e != Some(RoundCap)
  {
  }

  /** A failed result still answers its call, with a text the model can read. */
  lemma {:induction false} FailureSpeaks(c: ToolCall, r: ToolResult)
    requires !r.ok
    ensures var m := ToolMessage(c, r);
            m.toolCallId == Some(c.id) && m.content.Some? && m.content.value != ""
            && (HasText(r.error) ==> m.content == r.error)
  {
  }

  /** Sending a transcript that is already canonical changes nothing. */
  lemma {:induction false} SentAsIs(codec: JsonCodec, ms: seq<Entry>)
    requires Sendable(ms)
    ensures Normalize(ms) == ms && Serialize(codec, ms) == Ok(ToWires(codec, ms))
  {
    CanonicalIsNormal(ms);
    CanonicalSerializes(codec, ms);
  }

  lemma {:induction false} OpeningIsSendable(prompt: string, history: seq<Entry>)
    requires Sendable(history)
    ensures Sendable(Opening(prompt, history))
  {
    PrependPlain(Entry(System, Some(prompt), [], None, None), history);
  }

  /** For every chat history, every sequence of responses and every dispatch failure: each
      provider request and the final transcript are canonical and go out exactly as they stand,
      and each round answers each call id once, in call order. */
  lemma {:induction false} PlannerStaysCanonical(
    w: World, codec: JsonCodec, render: Renderer, ms: seq<Entry>, maxSize: nat, images: nat, keepRecent: nat,
    prompt: string, cap: nat, p: Plan, j: nat)
    requires AllValid(ms) && maxSize >= 1
    requires p == PlanFrom(w, Opening(prompt, Build(render, ms, maxSize, images, keepRecent)), 0, cap)
    requires j < |p.rounds|
    ensures Answered(p.rounds[j])
    ensures Normalize(p.rounds[j].request) == p.rounds[j].request
    ensures Serialize(codec, p.rounds[j].request) == Ok(ToWires(codec, p.rounds[j].request))
    ensures Normalize(p.transcript) == p.transcript
    ensures [Entry(System, Some(prompt), [], None, None)] + Build(render, ms, maxSize, images, keepRecent)
            <= p.rounds[j].request <= p.transcript
  {
    var history := Build(render, ms, maxSize, images, keepRecent);
    BuildSettlesIff(render, ms, maxSize, images, keepRecent);
    OpeningIsSendable(prompt, history);
    RunLaws(w, Opening(prompt, history), 0, cap, p);
    SentAsIs(codec, p.rounds[j].request);
    SentAsIs(codec, p.transcript);
    AppendedSplit(p.rounds, j);
  }

  lemma {:induction false} AppendedSplit(rounds: seq<Round>, j: nat)
    requires j <= |rounds|
    ensures Appended(rounds[..j]) <= Appended(rounds)
  {
    if j > 0 {
      AppendedSplit(rounds[1..], j - 1);
      assert rounds[..j][1..] == rounds[1..][..j - 1];
    }
  }

  function VerdictOf(w: World, r: Round): Option<End> { EndOf(w.verdict(r.index, r.calls), r) }

  predicate NoneEnds(w: World, rounds: seq<Round>) {
    forall j :: 0 <= j < |rounds| ==> VerdictOf(w, rounds[j]).None?
  }

  lemma {:induction false} NoneEndsSplit(w: World, r: Round, rest: seq<Round>)
    ensures NoneEnds(w, [r] + rest) <==> VerdictOf(w, r).None? && NoneEnds(w, rest)
  {
    var all := [r] + rest;
    assert all[0] == r && forall j :: 0 <= j < |rest| ==> all[j + 1] == rest[j];
  }

  predicate NumberedFrom(rounds: seq<Round>, k: nat) {
    forall j :: 0 <= j < |rounds| ==> rounds[j].index == k + j
  }

  ghost predicate EndsWell(w: World, p: Plan, k: nat, left: nat) {
    && |p.rounds| <= left && NumberedFrom(p.rounds, k)
    && (p.end == RoundCap <==> |p.rounds| == left && NoneEnds(w, p.rounds))
    && (p.end != RoundCap ==> p.rounds != [] && VerdictOf(w, p.rounds[|p.rounds| - 1]) == Some(p.end))
    && (p.rounds != [] ==> NoneEnds(w, p.rounds[..|p.rounds| - 1]))
  }

  lemma {:induction false} EndsAfter(w: World, r: Round, rest: Plan, p: Plan, k: nat, left: nat)
    requires p.rounds == [r] + rest.rounds && p.end == rest.end
    requires r.index == k && VerdictOf(w, r).None? && EndsWell(w, rest, k + 1, left)
    ensures EndsWell(w, p, k, left + 1)
  {
    NoneEndsSplit(w, r, rest.rounds);
    assert forall j :: 0 < j < |p.rounds| ==> p.rounds[j] == rest.rounds[j - 1];
    if rest.rounds != [] {
      NoneEndsSplit(w, r, rest.rounds[..|rest.rounds| - 1]);
      assert p.rounds[..|p.rounds| - 1] == [r] + rest.rounds[..|rest.rounds| - 1];
    }
  }

  /** The loop ends within the cap, at the first round with a terminal verdict, and reports the
      cap exactly when every allowed round went by without one. */
  lemma {:induction false} EndsAtFirstVerdict(w: World, t: seq<Entry>, k: nat, cap: nat, p: Plan)
    requires k <= cap && p == PlanFrom(w, t, k, cap)
    ensures EndsWell(w, p, k, cap - k)
    decreases cap - k
  {
    if k < cap {
      var r := RoundAt(w, k, t);
      if VerdictOf(w, r).None? {
        var rest := PlanFrom(w, t + r.messages, k + 1, cap);
        EndsAtFirstVerdict(w, t + r.messages, k + 1, cap, rest);
        EndsAfter(w, r, rest, p, k, cap - k - 1);
      } else {
        assert p.rounds[0] == r && p.rounds[..0] == [] && VerdictOf(w, r) == Some(p.end);
      }
    }
  }

  /** The round fell back on a repair or a recovery, or one of its dispatches raised. */
  ghost predicate Fell(w: World, r: Round) {
    Resolved(w, r.response).1 || exists i: nat :: i < |r.calls| && w.dispatch(r.index, r.calls, i).Raised?
  }

  ghost predicate SomeFell(w: World, rounds: seq<Round>) { exists j :: 0 <= j < |rounds| && Fell(w, rounds[j]) }

  lemma {:induction false} FellFirst(w: World, r: Round, rest: seq<Round>)
    ensures SomeFell(w, [r] + rest) <==> Fell(w, r) || SomeFell(w, rest)
  {
    var all := [r] + rest;
    assert all[0] == r && forall j :: 0 <= j < |rest| ==> all[j + 1] == rest[j];
  }

  lemma {:induction false} DegradesIff(w: World, k: nat, t: seq<Entry>, r: Round)
    requires r == RoundAt(w, k, t)
    ensures Degrades(w, k, r) <==> Fell(w, r)
  {
  }

  /** A run is reported as degraded exactly if one of its rounds fell back or had a dispatch that raised. */
  lemma {:induction false} DegradedIff(w: World, t: seq<Entry>, k: nat, cap: nat, p: Plan)
    requires p == PlanFrom(w, t, k, cap)
    ensures p.degraded <==> SomeFell(w, p.rounds)
    decreases cap - k
  {
    if k < cap {
      var r := RoundAt(w, k, t);
      DegradesIff(w, k, t, r);
      if EndOf(w.verdict(k, r.calls), r).None? {
        var rest := PlanFrom(w, t + r.messages, k + 1, cap);
        DegradedIff(w, t + r.messages, k + 1, cap, rest);
        FellFirst(w, r, rest.rounds);
      } else {
        FellFirst(w, r, []);
        assert [r] + [] == [r];
      }
    }
  }
}
