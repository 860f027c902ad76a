/** The normalization loop, and the laws of the normal form. */
module Normalizer {
  import opened Prelude
  import opened Transcript

  /* ---- The loop ----------------------------------------------------------------- */

  ghost predicate SameAnswers(a: seq<Entry>, b: seq<Entry>) {
    forall id :: FirstAnswer(a, id) == FirstAnswer(b, id)
  }

  lemma {:induction false} FirstAnswerSnoc(tools: seq<Entry>, t: Entry, id: string)
    ensures FirstAnswer(tools + [t], id) ==
            if FirstAnswer(tools, id).Some? then FirstAnswer(tools, id)
            else if t.toolCallId == Some(id) then Some(t) else None
  {
    var x := tools + [t];
    if tools != [] {
      assert x[1..] == tools[1..] + [t] && x[0] == tools[0];
      FirstAnswerSnoc(tools[1..], t, id);
    } else {
      assert x == [t] && x[1..] == [];
    }
  }

  lemma {:induction false} OnlyAnswersMatter(calls: seq<ToolCall>, a: seq<Entry>, b: seq<Entry>)
    requires SameAnswers(a, b)
    ensures Kept(calls, a) == Kept(calls, b) && Results(calls, a) == Results(calls, b)
  {
    if calls != [] { OnlyAnswersMatter(calls[1..], a, b); }
  }

  /** What remains to be emitted when `open` is the open turn, `run` its tool messages so far. */
  ghost function Resume(open: Option<Entry>, run: seq<Entry>, rest: seq<Entry>): seq<Entry> {
    if open.None? then Normalize(rest)
    else
      var n := ToolRun(rest);
      CloseTurn(open.value, run + rest[..n]) + Normalize(rest[n..])
  }

  lemma {:induction false} ResumeTool(open: Option<Entry>, run: seq<Entry>, rest: seq<Entry>)
    requires rest != [] && rest[0].role == Tool
    ensures Resume(open, run, rest) == Resume(open, run + [rest[0]], rest[1..])
  {
    if open.Some? {
      var n := ToolRun(rest[1..]);
      assert ToolRun(rest) == 1 + n;
      assert run + rest[..1 + n] == (run + [rest[0]]) + rest[1..][..n];
      assert rest[1 + n..] == rest[1..][n..];
    }
  }

  lemma {:induction false} ResumeOther(open: Option<Entry>, run: seq<Entry>, rest: seq<Entry>)
    requires rest != [] ==> rest[0].role != Tool
    ensures Resume(open, run, rest) == (if open.Some? then CloseTurn(open.value, run) else []) + Normalize(rest)
  {
    assert ToolRun(rest) == 0;
    assert run + rest[..0] == run && rest[0..] == rest;
  }

  lemma {:induction false} ResumeNext(rest: seq<Entry>)
    requires rest != [] && rest[0].role != Tool
    ensures OpensTurn(rest[0]) ==> Normalize(rest) == Resume(Some(rest[0]), [], rest[1..])
    ensures !OpensTurn(rest[0]) ==> Normalize(rest) == [rest[0]] + Resume(None, [], rest[1..])
  {
    var n := ToolRun(rest[1..]);
    assert [] + rest[1..][..n] == rest[1..1 + n];
    assert rest[1..][n..] == rest[1 + n..];
  }

  method DedupCalls(all: seq<ToolCall>) returns (calls: seq<ToolCall>)
    ensures calls == Dedup(all)
  {
    calls := [];
    var seen: set<string> := {};
    for i := 0 to |all|
      invariant calls == Dedup(all[..i])
      invariant forall id :: id in seen <==> HasCall(calls, id)
    {
      assert all[..i + 1][..i] == all[..i];
      var c := all[i];
      if c.id in seen { continue; }
      ghost var was := calls;
      seen := seen + {c.id};
      calls := calls + [c];
      assert forall id :: HasCall(calls, id) <==> HasCall(was, id) || id == c.id by {
        assert forall k :: 0 <= k < |was| ==> calls[k] == was[k];
        assert calls[|was|] == c;
      }
    }
    assert all[..|all|] == all;
  }

  /** Close the open turn: keep the answered calls, then their answers in call order. */
  method CloseOpen(open: Entry, calls: seq<ToolCall>, pending: seq<Entry>) returns (tail: seq<Entry>)
    requires calls == Dedup(open.toolCalls)
    ensures tail == CloseTurn(open, pending)
  {
    var kept, results := [], [];
    var i := |calls|;
    assert calls[|calls|..] == [];
    while i > 0
      invariant 0 <= i <= |calls|
      invariant kept == Kept(calls[i..], pending) && results == Results(calls[i..], pending)
    {
      i := i - 1;
      assert calls[i..][1..] == calls[i + 1..];
      var a := FirstAnswer(pending, calls[i].id);
      if a.Some? {
        kept := [calls[i]] + kept;
        results := [a.value] + results;
      }
    }
    assert calls[0..] == calls;
    if kept != [] {
      tail := [AssistantTurn(open.content, kept)] + results;
    } else if HasText(open.content) {
      tail := [AssistantTurn(open.content, [])];
    } else {
      tail := [];
    }
  }

  /** The loop's bookkeeping for an open turn: `pending` answers every id exactly as all the
      tool messages seen so far do, and `answered` is the set of answered ids. */
  ghost predicate Tracks(pending: seq<Entry>, answered: set<string>, run: seq<Entry>) {
    && SameAnswers(pending, run)
    && forall id :: id in answered <==> FirstAnswer(run, id).Some?
  }

  lemma {:induction false} TrackTool(pending: seq<Entry>, answered: set<string>, run: seq<Entry>, m: Entry)
    requires Tracks(pending, answered, run)
    ensures m.toolCallId.None? || m.toolCallId.value in answered ==> Tracks(pending, answered, run + [m])
    ensures m.toolCallId.Some? && m.toolCallId.value !in answered ==>
              Tracks(pending + [m], answered + {m.toolCallId.value}, run + [m])
  {
    forall id ensures var f := FirstAnswer(run, id);
                      var g := if f.Some? then f else if m.toolCallId == Some(id) then Some(m) else None;
                      FirstAnswer(run + [m], id) == g && FirstAnswer(pending + [m], id) == g
    {
      FirstAnswerSnoc(run, m, id);
      FirstAnswerSnoc(pending, m, id);
    }
  }

  /** What the loop emits when it meets `m`. */
  ghost function Emitted(open: Option<Entry>, run: seq<Entry>, m: Entry): seq<Entry> {
    if m.role == Tool then []
    else Closed(open, run) + (if OpensTurn(m) then [] else [m])
  }

  ghost function Closed(open: Option<Entry>, run: seq<Entry>): seq<Entry> {
    if open.Some? then CloseTurn(open.value, run) else []
  }

  ghost function NextOpen(open: Option<Entry>, m: Entry): Option<Entry> {
    if m.role == Tool then open else if OpensTurn(m) then Some(m) else None
  }

  ghost function NextRun(run: seq<Entry>, m: Entry): seq<Entry> {
    if m.role == Tool then run + [m] else []
  }

  lemma {:induction false} LoopStep(out: seq<Entry>, open: Option<Entry>, run: seq<Entry>, rest: seq<Entry>)
    requires rest != []
    ensures out + Resume(open, run, rest) ==
            (out + Emitted(open, run, rest[0])) + Resume(NextOpen(open, rest[0]), NextRun(run, rest[0]), rest[1..])
  {
    var m := rest[0];
    var next := Resume(NextOpen(open, m), NextRun(run, m), rest[1..]);
    if m.role == Tool {
      ResumeTool(open, run, rest);
    } else {
      ResumeOther(open, run, rest);
      ResumeNext(rest);
      assert Resume(NextOpen(open, m), [], rest[1..]) == next;
    }
    Associate(out, Closed(open, run), if OpensTurn(m) then [] else [m], next);
  }

  lemma {:induction false} Associate(a: seq<Entry>, b: seq<Entry>, c: seq<Entry>, d: seq<Entry>)
    ensures a + (b + (c + d)) == (a + (b + c)) + d && a + d == (a + []) + d && [] + d == d
  {
  }

  /** Close the turn if one is open. */
  method CloseIfOpen(open: Option<Entry>, calls: seq<ToolCall>, pending: seq<Entry>, ghost run: seq<Entry>)
    returns (tail: seq<Entry>)
    requires open.Some? ==> calls == Dedup(open.value.toolCalls) && SameAnswers(pending, run)
    ensures tail == Closed(open, run)
  {
    tail := [];
    if open.Some? {
      tail := CloseOpen(open.value, calls, pending);
      OnlyAnswersMatter(calls, pending, run);
    }
  }

  /** The variables of the loop: what is emitted, the open turn, its calls and answers. */
  datatype Loop = Loop(
    out: seq<Entry>, open: Option<Entry>, calls: seq<ToolCall>, pending: seq<Entry>, answered: set<string>)

  ghost predicate Consistent(l: Loop, run: seq<Entry>) {
    l.open.Some? ==> l.calls == Dedup(l.open.value.toolCalls) && Tracks(l.pending, l.answered, run)
  }

  /** One iteration: a tool message joins the open turn or is dropped, anything else closes it. */
  method Consume(l: Loop, m: Entry, ghost run: seq<Entry>) returns (l': Loop)
    requires Consistent(l, run)
    ensures l'.out == l.out + Emitted(l.open, run, m) && l'.open == NextOpen(l.open, m)
    ensures Consistent(l', NextRun(run, m))
  {
    l' := l;
    if m.role == Tool {
      if l.open.Some? {
        TrackTool(l.pending, l.answered, run, m);
        if m.toolCallId.Some? && m.toolCallId.value !in l.answered {
          l' := l.(answered := l.answered + {m.toolCallId.value}, pending := l.pending + [m]);
        }
      }
      return;
    }
    var tail := CloseIfOpen(l.open, l.calls, l.pending, run);
    if OpensTurn(m) {
      var calls := DedupCalls(m.toolCalls);
      l' := Loop(l.out + (tail + []), Some(m), calls, [], {});
    } else {
      l' := Loop(l.out + (tail + [m]), None, [], [], {});
    }
  }

  method NormalizeMessages(ms: seq<Entry>) returns (out: seq<Entry>)
    ensures out == Normalize(ms)
  {
    var l := Loop([], None, [], [], {});
    ghost var run: seq<Entry> := [];
    assert ms[0..] == ms;
    for i := 0 to |ms|
      invariant Normalize(ms) == l.out + Resume(l.open, run, ms[i..])
      invariant Consistent(l, run)
    {
      LoopStep(l.out, l.open, run, ms[i..]);
      assert ms[i..][1..] == ms[i + 1..];
      var next := Consume(l, ms[i], run);
      run := NextRun(run, ms[i]);
      l := next;
    }
    assert ms[|ms|..] == [];
    ResumeOther(l.open, run, []);
    var tail := CloseIfOpen(l.open, l.calls, l.pending, run);
    out := l.out + tail;
  }

  /* ---- The normal form is canonical ------------------------------------------------ */

  lemma {:induction false} CanonicalStart(ms: seq<Entry>)
    requires Canonical(ms)
    ensures ToolRun(ms) == 0
  {
  }

  /** A whole turn in front of a canonical list keeps it canonical. */
  lemma {:induction false} PrependTurn(m: Entry, tools: seq<Entry>, rest: seq<Entry>)
    requires OpensTurn(m) && Answers(m.toolCalls, tools) && Canonical(rest)
    requires forall i :: 0 <= i < |tools| ==> tools[i].role == Tool
    ensures Canonical([m] + tools + rest)
    ensures ToolRun(tools + rest) == |tools|
  {
    var all := [m] + tools + rest;
    CanonicalStart(rest);
    assert all[1..] == tools + rest;
    if rest != [] { assert rest[0].role != Tool; }
    RunLength(tools + rest, |tools|);
    assert all[1..1 + |tools|] == tools && all[1 + |tools|..] == rest;
  }

  lemma {:induction false} FirstAnswerFound(tools: seq<Entry>, id: string)
    requires FirstAnswer(tools, id).Some?
    ensures FirstAnswer(tools, id).value in tools && FirstAnswer(tools, id).value.toolCallId == Some(id)
  {
    if tools[0].toolCallId != Some(id) { FirstAnswerFound(tools[1..], id); }
  }

  lemma {:induction false} ResultsAnswerKept(calls: seq<ToolCall>, tools: seq<Entry>)
    ensures Answers(Kept(calls, tools), Results(calls, tools))
    ensures forall i :: 0 <= i < |Results(calls, tools)| ==> Results(calls, tools)[i] in tools
  {
    if calls != [] {
      ResultsAnswerKept(calls[1..], tools);
      if FirstAnswer(tools, calls[0].id).Some? { FirstAnswerFound(tools, calls[0].id); }
    }
  }

  lemma {:induction false} KeptSubset(calls: seq<ToolCall>, tools: seq<Entry>)
    ensures forall i :: 0 <= i < |Kept(calls, tools)| ==> HasCall(calls, Kept(calls, tools)[i].id)
    ensures UniqueIds(calls) ==> UniqueIds(Kept(calls, tools))
  {
    if calls != [] {
      var k, rest := Kept(calls, tools), Kept(calls[1..], tools);
      KeptSubset(calls[1..], tools);
      assert forall id :: HasCall(calls[1..], id) ==> HasCall(calls, id) by {
        assert forall j :: 0 <= j < |calls[1..]| ==> calls[1..][j] == calls[j + 1];
      }
      if UniqueIds(calls) {
        assert UniqueIds(calls[1..]);
        assert !HasCall(calls[1..], calls[0].id);
      }
      assert HasCall(calls, calls[0].id);
      assert k == rest || k == [calls[0]] + rest;
    }
  }

  lemma {:induction false} DedupUnique(calls: seq<ToolCall>)
    ensures UniqueIds(Dedup(calls))
    ensures UniqueIds(calls) ==> Dedup(calls) == calls
  {
    if calls != [] {
      DedupUnique(calls[..|calls| - 1]);
      var d, c := Dedup(calls[..|calls| - 1]), calls[|calls| - 1];
      if UniqueIds(calls) {
        assert UniqueIds(calls[..|calls| - 1]);
        assert !HasCall(d, c.id);
      }
    }
  }

  lemma {:induction false} AllValidParts(a: seq<Entry>, b: seq<Entry>)
    ensures AllValid(a + b) <==> AllValid(a) && AllValid(b)
  {
    assert forall i :: 0 <= i < |a| ==> (a + b)[i] == a[i];
    assert forall i :: 0 <= i < |b| ==> (a + b)[|a| + i] == b[i];
  }

  /** Every normal form is accepted by the validator and keeps entries well formed. */
  lemma {:induction false} NormalFormIsCanonical(ms: seq<Entry>)
    requires AllValid(ms)
    ensures Canonical(Normalize(ms)) && AllValid(Normalize(ms))
    decreases |ms|
  {
    if ms == [] {
    } else if OpensTurn(ms[0]) {
      var n := ToolRun(ms[1..]);
      assert AllValid(ms[1 + n..]) && AllValid(ms[1..1 + n]) by {
        assert ms[1..] == ms[1..1 + n] + ms[1 + n..];
        assert AllValid(ms[1..]);
        AllValidParts(ms[1..1 + n], ms[1 + n..]);
      }
      NormalFormIsCanonical(ms[1 + n..]);
      RunIsTools(ms[1..]);
      ClosedTurnIsCanonical(ms[0], ms[1..1 + n], Normalize(ms[1 + n..]));
    } else {
      assert AllValid(ms[1..]);
      NormalFormIsCanonical(ms[1..]);
      if ms[0].role != Tool { AllValidParts([ms[0]], Normalize(ms[1..])); }
    }
  }

  lemma {:induction false} TurnIsFine(
    content: Option<string>, calls: seq<ToolCall>, results: seq<Entry>, rest: seq<Entry>)
    requires calls != [] && UniqueIds(calls) && Answers(calls, results)
    requires Canonical(rest) && AllValid(rest) && AllValid(results)
    requires forall i :: 0 <= i < |results| ==> results[i].role == Tool
    ensures Canonical([AssistantTurn(content, calls)] + results + rest)
    ensures AllValid([AssistantTurn(content, calls)] + results + rest)
  {
    var head := AssistantTurn(content, calls);
    PrependTurn(head, results, rest);
    AllValidParts([head], results);
    AllValidParts([head] + results, rest);
  }

  lemma {:induction false} ClosedTurnIsCanonical(m: Entry, tools: seq<Entry>, rest: seq<Entry>)
    requires OpensTurn(m) && AllValid(tools) && Canonical(rest) && AllValid(rest)
    requires forall i :: 0 <= i < |tools| ==> tools[i].role == Tool
    ensures Canonical(CloseTurn(m, tools) + rest) && AllValid(CloseTurn(m, tools) + rest)
  {
    var calls := Dedup(m.toolCalls);
    var kept, results := Kept(calls, tools), Results(calls, tools);
    DedupUnique(m.toolCalls);
    KeptSubset(calls, tools);
    ResultsAnswerKept(calls, tools);
    if kept != [] {
      TurnIsFine(m.content, kept, results, rest);
    } else if HasText(m.content) {
      AllValidParts([AssistantTurn(m.content, [])], rest);
    } else {
      assert CloseTurn(m, tools) + rest == rest;
    }
  }

  /* ---- Canonical transcripts are normal ------------------------------------------- */

  lemma {:induction false} AnswerAt(calls: seq<ToolCall>, tools: seq<Entry>, i: nat)
    requires Answers(calls, tools) && UniqueIds(calls) && i < |calls|
    ensures FirstAnswer(tools, calls[i].id) == Some(tools[i])
    decreases i
  {
    if i > 0 {
      assert tools[0].toolCallId != Some(calls[i].id);
      assert Answers(calls[1..], tools[1..]) && UniqueIds(calls[1..]);
      AnswerAt(calls[1..], tools[1..], i - 1);
    }
  }

  lemma {:induction false} AllKept(calls: seq<ToolCall>, tools: seq<Entry>, n: nat)
    requires Answers(calls, tools) && UniqueIds(calls) && n <= |calls|
    ensures Kept(calls[n..], tools) == calls[n..] && Results(calls[n..], tools) == tools[n..]
    decreases |calls| - n
  {
    if n < |calls| {
      AllKept(calls, tools, n + 1);
      AnswerAt(calls, tools, n);
      assert calls[n..] == [calls[n]] + calls[n + 1..] && calls[n..][1..] == calls[n + 1..];
      assert tools[n..] == [tools[n]] + tools[n + 1..];
    }
  }

  lemma {:induction false} AnsweredTurnIsKept(m: Entry, tools: seq<Entry>)
    requires ValidEntry(m) && OpensTurn(m) && Answers(m.toolCalls, tools)
    ensures CloseTurn(m, tools) == [m] + tools
  {
    DedupUnique(m.toolCalls);
    AllKept(m.toolCalls, tools, 0);
    assert m.toolCalls[0..] == m.toolCalls && tools[0..] == tools;
  }

  lemma {:induction false} TurnIsNormal(ms: seq<Entry>, n: nat)
    requires ms != [] && OpensTurn(ms[0]) && ValidEntry(ms[0]) && n == ToolRun(ms[1..])
    requires Answers(ms[0].toolCalls, ms[1..1 + n]) && Normalize(ms[1 + n..]) == ms[1 + n..]
    ensures Normalize(ms) == ms
  {
    var turn, rest := [ms[0]] + ms[1..1 + n], ms[1 + n..];
    AnsweredTurnIsKept(ms[0], ms[1..1 + n]);
    assert CloseTurn(ms[0], ms[1..1 + n]) == turn;
    assert ms == turn + rest;
  }

  lemma {:induction false} CanonicalIsNormal(ms: seq<Entry>)
    requires AllValid(ms) && Canonical(ms)
    ensures Normalize(ms) == ms
    decreases |ms|
  {
    if ms == [] {
    } else if OpensTurn(ms[0]) {
      var n := ToolRun(ms[1..]);
      CanonicalIsNormal(ms[1 + n..]);
      assert ValidEntry(ms[0]);
      TurnIsNormal(ms, n);
    } else {
      CanonicalIsNormal(ms[1..]);
      assert ms == [ms[0]] + ms[1..];
    }
  }

  /** A transcript is its own normal form exactly when the validator accepts it; hence
      normalizing twice is normalizing once. */
  lemma {:induction false} NormalIffCanonical(ms: seq<Entry>)
    requires AllValid(ms)
    ensures Normalize(ms) == ms <==> Canonical(ms)
    ensures Normalize(Normalize(ms)) == Normalize(ms)
  {
    NormalFormIsCanonical(ms);
    CanonicalIsNormal(Normalize(ms));
    if Canonical(ms) { CanonicalIsNormal(ms); }
  }

  /** Nothing is invented: every entry of the normal form other than a repaired assistant turn
      is an entry of the input. */
  lemma {:induction false} NormalizeInventsNothing(ms: seq<Entry>, m: Entry)
    requires m in Normalize(ms) && m.role != Assistant
    ensures m in ms
    decreases |ms|
  {
    if OpensTurn(ms[0]) {
      var n := ToolRun(ms[1..]);
      ResultsAnswerKept(Dedup(ms[0].toolCalls), ms[1..1 + n]);
      if m in Normalize(ms[1 + n..]) { NormalizeInventsNothing(ms[1 + n..], m); }
    } else if m in Normalize(ms[1..]) {
      NormalizeInventsNothing(ms[1..], m);
    }
  }
}
