/**
 What folding makes of a transcript, entry by entry: where each entry goes, and what the one user entry
 says that stands for a folded turn.
*/
module FoldLaws {
  import opened Prelude
  import opened Transcript
  import opened Normalizer
  import opened Folding

  /** The lines of the calls of a turn: one for each that is not reply, wait or no_action, on a line of
      its own behind what comes before it. */
  function Told(render: Renderer, calls: seq<ToolCall>, answers: seq<Entry>): string
    requires |calls| == |answers|
  {
    if calls == [] then ""
    else
      var quiet := calls[0].name == "reply" || calls[0].name == "wait" || calls[0].name == "no_action";
      (if quiet then "" else "\n" + render(calls[0], Some(answers[0]))) + Told(render, calls[1..], answers[1..])
  }

  /** The user entry that stands for the turn that opens at `i`; its answers follow it. */
  ghost predicate Retells(render: Renderer, ms: seq<Entry>, i: nat, e: Entry)
    requires i < |ms|
  {
    var calls := ms[i].toolCalls;
    && i + 1 + |calls| <= |ms|
    && e.role == User && e.toolCalls == [] && e.toolCallId.None? && e.name.None?
    && e.content == Some(FOLD_HEADER
                         + (if ms[i].content.Some? && ms[i].content.value != "" then "\n" + ms[i].content.value else "")
                         + Told(render, calls, ms[i + 1..i + 1 + |calls|]))
  }

  /** The entry is no answer of one of the first `n` turns. */
  predicate Survives(ms: seq<Entry>, n: nat, i: nat)
    requires i < |ms|
  {
    ms[i].role != Tool || TurnCount(ms[..i]) > n
  }

  /** How many of the first `i` entries are no answers of the first `n` turns. */
  function Place(ms: seq<Entry>, n: nat, i: nat): nat
    requires i <= |ms|
  {
    if i == 0 then 0 else Place(ms, n, i - 1) + (if Survives(ms, n, i - 1) then 1 else 0)
  }

  /** What stands for the entry at `i`. */
  ghost predicate StandsFor(render: Renderer, ms: seq<Entry>, n: nat, i: nat, e: Entry)
    requires i < |ms|
  {
    if OpensTurn(ms[i]) && TurnCount(ms[..i]) < n then Retells(render, ms, i, e) else e == ms[i]
  }

  /** The list holds one entry for each that is no answer of the first `n` turns, in order. */
  ghost predicate FoldedAt(render: Renderer, ms: seq<Entry>, n: nat, i: nat, f: seq<Entry>)
    requires i <= |ms|
  {
    && |f| == Place(ms, n, |ms|)
    && (i < |ms| && Survives(ms, n, i) ==>
          Place(ms, n, i) < |f| && StandsFor(render, ms, n, i, f[Place(ms, n, i)]))
  }

  /* ---- The text -------------------------------------------------------------------------- */

  function Behind(lines: seq<string>): string {
    if lines == [] then "" else "\n" + lines[0] + Behind(lines[1..])
  }

  lemma {:induction false} JoinIsBehind(lines: seq<string>)
    requires lines != []
    ensures Join(lines) == lines[0] + Behind(lines[1..])
  {
    if |lines| > 1 { JoinIsBehind(lines[1..]); }
  }

  lemma {:induction false} OwnAnswer(calls: seq<ToolCall>, answers: seq<Entry>, k: nat)
    requires Answers(calls, answers) && UniqueIds(calls) && k < |calls|
    ensures FirstAnswer(answers, calls[k].id) == Some(answers[k])
    decreases |calls|
  {
    if k > 0 {
      assert answers[0].toolCallId == Some(calls[0].id) && calls[0].id != calls[k].id;
      OwnAnswer(calls[1..], answers[1..], k - 1);
    }
  }

  lemma {:induction false} LinesAreTold(render: Renderer, calls: seq<ToolCall>, answers: seq<Entry>, k: nat)
    requires Answers(calls, answers) && UniqueIds(calls) && k <= |calls|
    ensures Behind(Lines(render, calls[k..], answers)) == Told(render, calls[k..], answers[k..])
    decreases |calls| - k
  {
    if k < |calls| {
      OwnAnswer(calls, answers, k);
      LinesAreTold(render, calls, answers, k + 1);
      LineIsTold(render, calls[k..], answers, answers[k..]);
    }
  }

  lemma {:induction false} LineIsTold(render: Renderer, calls: seq<ToolCall>, all: seq<Entry>, answers: seq<Entry>)
    requires |calls| == |answers| > 0 && FirstAnswer(all, calls[0].id) == Some(answers[0])
    requires Behind(Lines(render, calls[1..], all)) == Told(render, calls[1..], answers[1..])
    ensures Behind(Lines(render, calls, all)) == Told(render, calls, answers)
  {
    var line, rest := render(calls[0], Some(answers[0])), Lines(render, calls[1..], all);
    assert calls[0].name in DROPPED_TOOLS <==>
           calls[0].name == "reply" || calls[0].name == "wait" || calls[0].name == "no_action";
    if calls[0].name !in DROPPED_TOOLS {
      assert ([line] + rest)[1..] == rest;
      assert "\n" + line + Behind(rest) == ("\n" + line) + Behind(rest);
    }
  }

  lemma {:induction false} JoinedText(own: seq<string>, lines: seq<string>)
    requires |own| <= 1
    ensures Join([FOLD_HEADER] + own + lines)
            == FOLD_HEADER + (if own == [] then "" else "\n" + own[0]) + Behind(lines)
  {
    var all, rest := [FOLD_HEADER] + own + lines, own + lines;
    JoinIsBehind(all);
    assert all[1..] == rest;
    if own == [] {
      assert rest == lines && FOLD_HEADER + "" == FOLD_HEADER;
    } else {
      assert rest[1..] == lines && rest[0] == own[0];
      Associate(FOLD_HEADER, "\n" + own[0], Behind(lines));
    }
  }

  lemma {:induction false} Associate(a: string, b: string, c: string)
    ensures a + (b + c) == a + b + c
  {
  }

  lemma {:induction false} TurnIsRetold(render: Renderer, ms: seq<Entry>, e: Entry)
    requires ms != [] && OpensTurn(ms[0]) && Canonical(ms) && AllValid(ms)
    requires e == FoldTurn(render, ms[0], ms[1..1 + ToolRun(ms[1..])])
    ensures Retells(render, ms, 0, e)
  {
    var calls, answers := ms[0].toolCalls, ms[1..1 + ToolRun(ms[1..])];
    assert Answers(calls, answers) && UniqueIds(calls);
    LinesAreTold(render, calls, answers, 0);
    assert calls[0..] == calls && answers[0..] == answers;
    JoinedText(if HasText(ms[0].content) then [ms[0].content.value] else [], Lines(render, calls, answers));
  }

  /* ---- The places ------------------------------------------------------------------------ */

  lemma {:induction false} CountHead(ms: seq<Entry>, i: nat)
    requires 0 < i <= |ms|
    ensures TurnCount(ms[..i]) == (if OpensTurn(ms[0]) then 1 else 0) + TurnCount(ms[1..][..i - 1])
  {
    assert ms[..i][1..] == ms[1..][..i - 1];
  }

  lemma {:induction false} CountOfTools(ms: seq<Entry>, d: nat, i: nat)
    requires d <= i <= |ms| && forall k :: 0 <= k < d ==> ms[k].role == Tool
    ensures TurnCount(ms[..i]) == TurnCount(ms[d..][..i - d])
    decreases d
  {
    if d > 0 {
      CountHead(ms, i);
      CountOfTools(ms[1..], d - 1, i - 1);
      assert ms[1..][d - 1..] == ms[d..];
    } else {
      assert ms[0..] == ms;
    }
  }

  /** The list behind its first `d` entries, of which one survives, and which hold `t` turns. */
  ghost predicate Behead(ms: seq<Entry>, n: nat, d: nat, t: nat, n': nat) {
    && 0 < d <= |ms|
    && (forall i :: d <= i < |ms| ==> TurnCount(ms[..i]) == t + TurnCount(ms[d..][..i - d]))
    && n == n' + t
    && Place(ms, n, d) == 1
  }

  lemma {:induction false} PlaceMoves(ms: seq<Entry>, n: nat, d: nat, t: nat, n': nat, i: nat)
    requires Behead(ms, n, d, t, n') && d <= i <= |ms|
    ensures Place(ms, n, i) == 1 + Place(ms[d..], n', i - d)
    ensures i < |ms| ==> (Survives(ms, n, i) <==> Survives(ms[d..], n', i - d))
    decreases i
  {
    if i > d {
      PlaceMoves(ms, n, d, t, n', i - 1);
      assert ms[d..][i - d - 1] == ms[i - 1];
    }
  }

  lemma {:induction false} RetoldMoves(render: Renderer, ms: seq<Entry>, d: nat, i: nat, e: Entry)
    requires d <= i < |ms| && Retells(render, ms[d..], i - d, e)
    ensures Retells(render, ms, i, e)
  {
    var n := |ms[i].toolCalls|;
    assert ms[d..][i - d] == ms[i];
    assert ms[d..][i - d + 1..i - d + 1 + n] == ms[i + 1..i + 1 + n];
  }

  lemma {:induction false} FoldedMoves(
    render: Renderer, ms: seq<Entry>, n: nat, d: nat, t: nat, n': nat, i: nat, head: Entry, rest: seq<Entry>)
    requires Behead(ms, n, d, t, n') && d <= i <= |ms| && FoldedAt(render, ms[d..], n', i - d, rest)
    ensures FoldedAt(render, ms, n, i, [head] + rest)
  {
    PlaceMoves(ms, n, d, t, n', i);
    PlaceMoves(ms, n, d, t, n', |ms|);
    if i < |ms| && Survives(ms, n, i) {
      assert ms[d..][i - d] == ms[i];
      var e := rest[Place(ms[d..], n', i - d)];
      assert ([head] + rest)[Place(ms, n, i)] == e;
      if OpensTurn(ms[i]) && TurnCount(ms[..i]) < n { RetoldMoves(render, ms, d, i, e); }
    }
  }

  lemma {:induction false} BeheadPlain(ms: seq<Entry>, n: nat)
    requires ms != [] && ms[0].role != Tool && !OpensTurn(ms[0])
    ensures Behead(ms, n, 1, 0, n)
  {
    forall i | 1 <= i < |ms| ensures TurnCount(ms[..i]) == TurnCount(ms[1..][..i - 1]) { CountHead(ms, i); }
    assert Place(ms, n, 1) == Place(ms, n, 0) + 1;
  }

  lemma {:induction false} GoneInTurn(ms: seq<Entry>, n: nat, d: nat, i: nat)
    requires ms != [] && OpensTurn(ms[0]) && n > 0 && d == 1 + ToolRun(ms[1..]) && 0 < i < d
    ensures !Survives(ms, n, i)
  {
    RunIsTools(ms[1..]);
    CountHead(ms, i);
    assert ms[i] == ms[1..][i - 1];
    CountOfTools(ms[1..], i - 1, i - 1);
    assert ms[1..][i - 1..][..0] == [];
  }

  lemma {:induction false} CountBehind(ms: seq<Entry>, d: nat, i: nat)
    requires ms != [] && OpensTurn(ms[0]) && d == 1 + ToolRun(ms[1..]) && d <= i < |ms|
    ensures TurnCount(ms[..i]) == 1 + TurnCount(ms[d..][..i - d])
  {
    RunIsTools(ms[1..]);
    CountHead(ms, i);
    CountOfTools(ms[1..], d - 1, i - 1);
    assert ms[1..][d - 1..] == ms[d..];
  }

  lemma {:induction false} BeheadTurn(ms: seq<Entry>, n: nat, d: nat)
    requires ms != [] && OpensTurn(ms[0]) && n > 0 && d == 1 + ToolRun(ms[1..])
    ensures Behead(ms, n, d, 1, n - 1)
    ensures forall i :: 0 < i < d ==> !Survives(ms, n, i)
  {
    forall i | 0 < i < d ensures !Survives(ms, n, i) { GoneInTurn(ms, n, d, i); }
    forall i | d <= i < |ms| ensures TurnCount(ms[..i]) == 1 + TurnCount(ms[d..][..i - d]) { CountBehind(ms, d, i); }
    OnlyOpenerSurvives(ms, n, d);
  }

  lemma {:induction false} OnlyOpenerSurvives(ms: seq<Entry>, n: nat, d: nat)
    requires 0 < d <= |ms| && ms[0].role != Tool && forall i :: 0 < i < d ==> !Survives(ms, n, i)
    ensures Place(ms, n, d) == 1
    decreases d
  {
    if d > 1 { OnlyOpenerSurvives(ms, n, d - 1); } else { assert Place(ms, n, 1) == Place(ms, n, 0) + 1; }
  }

  lemma {:induction false} HeadStands(render: Renderer, ms: seq<Entry>, n: nat, head: Entry, rest: seq<Entry>)
    requires ms != [] && ms[0].role != Tool
    requires if OpensTurn(ms[0]) && n > 0 then Retells(render, ms, 0, head) else head == ms[0]
    requires |[head] + rest| == Place(ms, n, |ms|)
    ensures FoldedAt(render, ms, n, 0, [head] + rest)
  {
    assert ms[..0] == [] && Place(ms, n, 0) == 0;
  }

  /** With nothing to fold every entry stands where it stood. */
  lemma {:induction false} NothingFolded(ms: seq<Entry>, i: nat)
    requires Canonical(ms) && i <= |ms|
    ensures Place(ms, 0, i) == i
    ensures i < |ms| ==> Survives(ms, 0, i)
  {
    if i > 0 { NothingFolded(ms, i - 1); }
    if i < |ms| && ms[i].role == Tool { ToolHasTurn(ms, i); }
  }

  lemma {:induction false} ToolHasTurn(ms: seq<Entry>, i: nat)
    requires Canonical(ms) && i < |ms| && ms[i].role == Tool
    ensures TurnCount(ms[..i]) > 0
    decreases |ms|
  {
    assert i > 0;
    CountHead(ms, i);
    if !OpensTurn(ms[0]) { ToolHasTurn(ms[1..], i - 1); }
  }

  /** Folding the first `n` turns of a canonical list, entry by entry. */
  lemma {:induction false} FoldFirstAt(render: Renderer, ms: seq<Entry>, n: nat, i: nat)
    requires Canonical(ms) && AllValid(ms) && i <= |ms|
    ensures FoldedAt(render, ms, n, i, FoldFirst(render, ms, n))
    decreases |ms|
  {
    if ms == [] {
    } else if n == 0 {
      NothingFolded(ms, i);
      NothingFolded(ms, |ms|);
    } else if OpensTurn(ms[0]) {
      FoldTurnAt(render, ms, n, i, 1 + ToolRun(ms[1..]));
    } else {
      var rest := FoldFirst(render, ms[1..], n);
      BeheadPlain(ms, n);
      FoldFirstAt(render, ms[1..], n, if i > 0 then i - 1 else 0);
      if i > 0 {
        FoldedMoves(render, ms, n, 1, 0, n, i, ms[0], rest);
      } else {
        PlaceMoves(ms, n, 1, 0, n, |ms|);
        HeadStands(render, ms, n, ms[0], rest);
      }
    }
  }

  lemma {:induction false} FoldFirstTurn(render: Renderer, ms: seq<Entry>, n: nat, d: nat)
    requires ms != [] && OpensTurn(ms[0]) && n > 0 && d == 1 + ToolRun(ms[1..])
    ensures FoldFirst(render, ms, n) == [FoldTurn(render, ms[0], ms[1..d])] + FoldFirst(render, ms[d..], n - 1)
  {
  }

  lemma {:induction false} FoldTurnAt(render: Renderer, ms: seq<Entry>, n: nat, i: nat, d: nat)
    requires Canonical(ms) && AllValid(ms) && i <= |ms| && ms != [] && OpensTurn(ms[0]) && n > 0
    requires d == 1 + ToolRun(ms[1..])
    ensures FoldedAt(render, ms, n, i, FoldFirst(render, ms, n))
    decreases |ms|, 0
  {
    var tail, j := ms[d..], if i >= d then i - d else 0;
    CountPastTurn(ms);
    FoldFirstAt(render, tail, n - 1, j);
    FoldFirstTurn(render, ms, n, d);
    TurnAndRest(render, ms, n, d, i, FoldTurn(render, ms[0], ms[1..d]), FoldFirst(render, tail, n - 1), j);
  }

  lemma {:induction false} TurnAndRest(
    render: Renderer, ms: seq<Entry>, n: nat, d: nat, i: nat, head: Entry, rest: seq<Entry>, j: nat)
    requires Canonical(ms) && AllValid(ms) && ms != [] && OpensTurn(ms[0]) && n > 0 && i <= |ms|
    requires d == 1 + ToolRun(ms[1..]) && head == FoldTurn(render, ms[0], ms[1..d])
    requires j == (if i >= d then i - d else 0) && FoldedAt(render, ms[d..], n - 1, j, rest)
    ensures FoldedAt(render, ms, n, i, [head] + rest)
  {
    BeheadTurn(ms, n, d);
    if i >= d {
      FoldedMoves(render, ms, n, d, 1, n - 1, i, head, rest);
    } else {
      TurnHeads(render, ms, n, d, i, head, rest);
    }
  }

  lemma {:induction false} TurnHeads(
    render: Renderer, ms: seq<Entry>, n: nat, d: nat, i: nat, head: Entry, rest: seq<Entry>)
    requires Canonical(ms) && AllValid(ms) && ms != [] && OpensTurn(ms[0]) && n > 0 && i < d
    requires d == 1 + ToolRun(ms[1..]) && head == FoldTurn(render, ms[0], ms[1..d])
    requires Behead(ms, n, d, 1, n - 1) && (i > 0 ==> !Survives(ms, n, i))
    requires |rest| == Place(ms[d..], n - 1, |ms| - d)
    ensures FoldedAt(render, ms, n, i, [head] + rest)
  {
    TurnIsRetold(render, ms, head);
    TurnStands(render, ms, n, d, i, head, rest);
  }

  lemma {:induction false} TurnStands(
    render: Renderer, ms: seq<Entry>, n: nat, d: nat, i: nat, head: Entry, rest: seq<Entry>)
    requires ms != [] && OpensTurn(ms[0]) && n > 0 && Behead(ms, n, d, 1, n - 1) && i < d
    requires i > 0 ==> !Survives(ms, n, i)
    requires Retells(render, ms, 0, head) && |rest| == Place(ms[d..], n - 1, |ms| - d)
    ensures FoldedAt(render, ms, n, i, [head] + rest)
  {
    PlaceMoves(ms, n, d, 1, n - 1, |ms|);
    if i == 0 { HeadStands(render, ms, n, head, rest); }
  }

  /** Folding, entry by entry of the normalized transcript `m`: each of its oldest turns beyond those to
      keep becomes one user entry that says the header, the turn's own text and a line for each call that
      is not reply, wait or no_action with the answer that stands behind it; its answers go; every other
      entry stands unchanged, in order, and nothing else is there. */
  lemma {:induction false} FoldRetells(render: Renderer, ms: seq<Entry>, keepRecent: nat, m: seq<Entry>, i: nat)
    requires AllValid(ms) && m == Normalize(ms) && i <= |m|
    ensures FoldedAt(render, m, Max(0, TurnCount(m) - keepRecent), i, Fold(render, ms, keepRecent))
  {
    NormalFormIsCanonical(ms);
    FoldFirstAt(render, m, Max(0, TurnCount(m) - keepRecent), i);
  }
}
