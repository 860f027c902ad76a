/**
 Folding of completed tool turns: `fold` and `_fold_turn` of `pretender/context.py`. A folded
 turn becomes one synthetic user entry; `render` writes the listing line of one call.
*/
module Folding {
  import opened Prelude
  import opened Transcript
  import opened Normalizer

  const FOLD_HEADER: string := "[已折叠的历史工具调用]"
  const DROPPED_TOOLS: set<string> := {"reply", "wait", "no_action"}

  type Renderer = (ToolCall, Option<Entry>) -> string

  function Lines(render: Renderer, calls: seq<ToolCall>, tools: seq<Entry>): seq<string> {
    if calls == [] then []
    else
      var rest := Lines(render, calls[1..], tools);
      if calls[0].name in DROPPED_TOOLS then rest
      else [render(calls[0], FirstAnswer(tools, calls[0].id))] + rest
  }

  function Join(lines: seq<string>): string {
    if lines == [] then "" else if |lines| == 1 then lines[0] else lines[0] + "\n" + Join(lines[1..])
  }

  function FoldTurn(render: Renderer, m: Entry, tools: seq<Entry>): Entry {
    var text := if HasText(m.content) then [m.content.value] else [];
    var lines := [FOLD_HEADER] + text + Lines(render, m.toolCalls, tools);
    Entry(User, Some(Join(lines)), [], None, None)
  }

  /** How many assistant tool-call turns the transcript holds. */
  function TurnCount(ms: seq<Entry>): (n: nat)
    decreases |ms|
  {
    if ms == [] then 0 else (if OpensTurn(ms[0]) then 1 else 0) + TurnCount(ms[1..])
  }

  /** Fold the first `n` turns, all or nothing each, and keep everything else in place. */
  function FoldFirst(render: Renderer, ms: seq<Entry>, n: nat): seq<Entry>
    decreases |ms|
  {
    if ms == [] || n == 0 then ms
    else if OpensTurn(ms[0]) then
      var r := ToolRun(ms[1..]);
      [FoldTurn(render, ms[0], ms[1..1 + r])] + FoldFirst(render, ms[1 + r..], n - 1)
    else [ms[0]] + FoldFirst(render, ms[1..], n)
  }

  function Fold(render: Renderer, ms: seq<Entry>, keepRecent: nat): seq<Entry> {
    var m := Normalize(ms);
    FoldFirst(render, m, Max(0, TurnCount(m) - keepRecent))
  }

  /* ---- The loops ------------------------------------------------------------------- */

  function TurnEnd(ms: seq<Entry>, i: nat): (j: nat)
    requires i < |ms|
    ensures i < j <= |ms|
  {
    i + 1 + ToolRun(ms[i + 1..])
  }

  /** The start and end of every turn from position `i` on. */
  function Turns(ms: seq<Entry>, i: nat): seq<(nat, nat)>
    requires i <= |ms|
    decreases |ms| - i
  {
    if i == |ms| then []
    else if OpensTurn(ms[i]) then [(i, TurnEnd(ms, i))] + Turns(ms, TurnEnd(ms, i))
    else Turns(ms, i + 1)
  }

  lemma {:induction false} TurnsAscend(ms: seq<Entry>, i: nat)
    requires i <= |ms|
    ensures forall k :: 0 <= k < |Turns(ms, i)| ==>
              var (a, e) := Turns(ms, i)[k]; i <= a < |ms| && OpensTurn(ms[a]) && e == TurnEnd(ms, a)
    ensures forall k, l :: 0 <= k < l < |Turns(ms, i)| ==> Turns(ms, i)[k].0 < Turns(ms, i)[l].0
    decreases |ms| - i
  {
    if i < |ms| {
      TurnsAscend(ms, if OpensTurn(ms[i]) then TurnEnd(ms, i) else i + 1);
    }
  }

  lemma {:induction false} TurnsSkipTools(ms: seq<Entry>, i: nat, n: nat)
    requires i + n <= |ms| && (forall k :: i <= k < i + n ==> ms[k].role == Tool)
    ensures Turns(ms, i) == Turns(ms, i + n)
    decreases n
  {
    if n > 0 { TurnsSkipTools(ms, i + 1, n - 1); }
  }

  lemma {:induction false} TurnsCount(ms: seq<Entry>, i: nat)
    requires i <= |ms|
    ensures |Turns(ms, i)| == TurnCount(ms[i..])
    decreases |ms| - i
  {
    if i < |ms| {
      assert ms[i..][1..] == ms[i + 1..];
      TurnsCount(ms, i + 1);
      if OpensTurn(ms[i]) {
        RunIsTools(ms[i + 1..]);
        TurnsSkipTools(ms, i + 1, ToolRun(ms[i + 1..]));
      }
    }
  }

  method CollectTurns(ms: seq<Entry>) returns (turns: seq<(nat, nat)>)
    ensures turns == Turns(ms, 0)
  {
    turns := [];
    var i := 0;
    while i < |ms|
      invariant 0 <= i <= |ms| && turns + Turns(ms, i) == Turns(ms, 0)
    {
      if OpensTurn(ms[i]) {
        var j := i + 1;
        while j < |ms| && ms[j].role == Tool
          invariant i + 1 <= j <= |ms|
          invariant forall k :: i + 1 <= k < j ==> ms[k].role == Tool
        {
          j := j + 1;
        }
        RunLength(ms[i + 1..], j - i - 1);
        assert Turns(ms, i) == [(i, j)] + Turns(ms, j);
        assert turns + ([(i, j)] + Turns(ms, j)) == (turns + [(i, j)]) + Turns(ms, j);
        turns := turns + [(i, j)];
        i := j;
      } else {
        i := i + 1;
      }
    }
    assert turns + [] == turns;
  }

  /** `fold`: a negative `keep_recent` is refused. */
  method FoldMessages(render: Renderer, ms: seq<Entry>, keepRecent: int) returns (r: Result<seq<Entry>, string>)
    ensures r == if keepRecent < 0 then Err("keep_recent must be >= 0") else Ok(Fold(render, ms, keepRecent))
  {
    if keepRecent < 0 { return Err("keep_recent must be >= 0"); }
    var m := NormalizeMessages(ms);
    var turns := CollectTurns(m);
    TurnsCount(m, 0);
    assert m[0..] == m;
    var n: nat := Max(0, |turns| - keepRecent);
    var out := FoldAt(render, m, turns, n);
    r := Ok(out);
  }

  method FoldAt(render: Renderer, m: seq<Entry>, turns: seq<(nat, nat)>, n: nat) returns (out: seq<Entry>)
    requires turns == Turns(m, 0) && n <= |turns|
    ensures out == FoldFirst(render, m, n)
  {
    var foldStarts := set k | 0 <= k < n :: turns[k].0;
    FoldBegins(m, turns, n, foldStarts);
    out := [];
    var i := 0;
    ghost var done := 0;
    assert m[0..] == m;
    while i < |m|
      invariant FoldsFrom(m, turns, n, done, i, foldStarts)
      invariant FoldFirst(render, m, n) == out + FoldFirst(render, m[i..], n - done)
    {
      out, i, done := FoldNext(render, m, turns, n, done, i, foldStarts, out);
    }
    assert m[|m|..] == [];
  }

  /** One step of the rebuild: fold the turn that starts here, or copy the entry. */
  method FoldNext(render: Renderer, m: seq<Entry>, ghost turns: seq<(nat, nat)>, ghost n: nat, ghost done: nat,
                  i: nat, foldStarts: set<nat>, out: seq<Entry>)
    returns (out': seq<Entry>, next: nat, ghost done': nat)
    requires FoldsFrom(m, turns, n, done, i, foldStarts) && i < |m|
    ensures FoldsFrom(m, turns, n, done', next, foldStarts) && i < next
    ensures out' + FoldFirst(render, m[next..], n - done') == out + FoldFirst(render, m[i..], n - done)
  {
    FoldMoves(m, turns, n, done, i, foldStarts);
    if i in foldStarts {
      FoldStepTurn(render, m, i, n - done, out);
      next := TurnEnd(m, i);
      out' := out + [FoldTurn(render, m[i], m[i + 1..next])];
      done' := done + 1;
    } else {
      FoldStepPlain(render, m, i, n - done, out);
      next := i + 1;
      out' := out + [m[i]];
      done' := done;
    }
  }

  lemma {:induction false} FoldBegins(m: seq<Entry>, turns: seq<(nat, nat)>, n: nat, foldStarts: set<nat>)
    requires turns == Turns(m, 0) && n <= |turns| && foldStarts == set k | 0 <= k < n :: turns[k].0
    ensures FoldsFrom(m, turns, n, 0, 0, foldStarts)
  {
    assert turns[0..] == turns;
  }

  /** `done` turns are folded and the walk stands at `i`. */
  ghost predicate FoldsFrom(m: seq<Entry>, turns: seq<(nat, nat)>, n: nat, done: nat, i: nat, foldStarts: set<nat>) {
    && i <= |m| && done <= n <= |turns|
    && foldStarts == (set k | 0 <= k < n :: turns[k].0)
    && turns == Turns(m, 0)
    && (done < n ==> turns[done..] == Turns(m, i))
    && (done == n ==> forall k :: k in foldStarts ==> k < i)
  }

  lemma {:induction false} FoldMoves(
    m: seq<Entry>, turns: seq<(nat, nat)>, n: nat, done: nat, i: nat, foldStarts: set<nat>)
    requires FoldsFrom(m, turns, n, done, i, foldStarts) && i < |m|
    ensures i in foldStarts <==> done < n && OpensTurn(m[i])
    ensures i in foldStarts ==> FoldsFrom(m, turns, n, done + 1, TurnEnd(m, i), foldStarts)
    ensures i !in foldStarts ==> FoldsFrom(m, turns, n, done, i + 1, foldStarts)
  {
    if done < n {
      FoldStartIff(m, turns, n, done, i, foldStarts);
      if OpensTurn(m[i]) { assert turns[done + 1..] == turns[done..][1..]; }
    }
  }

  lemma {:induction false} FoldStepTurn(render: Renderer, m: seq<Entry>, i: nat, left: nat, out: seq<Entry>)
    requires i < |m| && left > 0 && OpensTurn(m[i])
    ensures var j := TurnEnd(m, i);
            out + FoldFirst(render, m[i..], left)
            == (out + [FoldTurn(render, m[i], m[i + 1..j])]) + FoldFirst(render, m[j..], left - 1)
  {
    var rest, j := m[i..], TurnEnd(m, i);
    assert rest[0] == m[i] && rest[1..] == m[i + 1..];
    assert rest[1..j - i] == m[i + 1..j] && rest[j - i..] == m[j..];
    Regroup(out, FoldTurn(render, m[i], m[i + 1..j]), FoldFirst(render, m[j..], left - 1));
  }

  lemma {:induction false} FoldStepPlain(render: Renderer, m: seq<Entry>, i: nat, left: nat, out: seq<Entry>)
    requires i < |m| && (left == 0 || !OpensTurn(m[i]))
    ensures out + FoldFirst(render, m[i..], left) == (out + [m[i]]) + FoldFirst(render, m[i + 1..], left)
  {
    var rest := m[i..];
    assert rest[0] == m[i] && rest[1..] == m[i + 1..];
    assert left == 0 ==> rest == [m[i]] + m[i + 1..];
    Regroup(out, m[i], FoldFirst(render, m[i + 1..], left));
  }

  lemma {:induction false} Regroup(out: seq<Entry>, m: Entry, rest: seq<Entry>)
    ensures out + ([m] + rest) == (out + [m]) + rest
  {
  }

  /** While turns are still to be folded, a position is a fold start iff a turn opens there. */
  lemma {:induction false} FoldStartIff(
    m: seq<Entry>, turns: seq<(nat, nat)>, n: nat, done: nat, i: nat, foldStarts: set<nat>)
    requires i < |m| && done < n <= |turns| && turns == Turns(m, 0) && turns[done..] == Turns(m, i)
    requires foldStarts == set k | 0 <= k < n :: turns[k].0
    ensures i in foldStarts <==> OpensTurn(m[i])
    ensures OpensTurn(m[i]) ==> turns[done] == (i, TurnEnd(m, i))
    ensures !OpensTurn(m[i]) ==> Turns(m, i) == Turns(m, i + 1)
    ensures done + 1 == n && OpensTurn(m[i]) ==> forall k :: TurnEnd(m, i) <= k ==> k !in foldStarts
  {
    TurnsAscend(m, 0);
    if OpensTurn(m[i]) {
      assert turns[done] == turns[done..][0] == (i, TurnEnd(m, i));
      assert i in foldStarts;
    }
  }

  /* ---- Laws ------------------------------------------------------------------------ */

  lemma {:induction false} FoldedIsPlain(render: Renderer, m: Entry, tools: seq<Entry>)
    ensures ValidEntry(FoldTurn(render, m, tools)) && !OpensTurn(FoldTurn(render, m, tools))
    ensures FoldTurn(render, m, tools).role == User
  {
  }

  lemma {:induction false} TurnCountAfterTools(ms: seq<Entry>, n: nat)
    requires n <= |ms| && (forall k :: 0 <= k < n ==> ms[k].role == Tool)
    ensures TurnCount(ms) == TurnCount(ms[n..])
  {
    if n > 0 {
      TurnCountAfterTools(ms[1..], n - 1);
      assert ms[1..][n - 1..] == ms[n..];
    } else {
      assert ms[0..] == ms;
    }
  }

  lemma {:induction false} CountPastTurn(ms: seq<Entry>)
    requires ms != [] && OpensTurn(ms[0]) && Canonical(ms) && AllValid(ms)
    ensures var tail := ms[1 + ToolRun(ms[1..])..];
            Canonical(tail) && AllValid(tail) && TurnCount(ms) == 1 + TurnCount(tail)
  {
    var r := ToolRun(ms[1..]);
    RunIsTools(ms[1..]);
    TurnCountAfterTools(ms[1..], r);
    assert ms[1..][r..] == ms[1 + r..];
  }

  /** A canonical, well-formed list with `count` turns. */
  ghost predicate Fine(ms: seq<Entry>, count: nat) {
    Canonical(ms) && AllValid(ms) && TurnCount(ms) == count
  }

  /** Folding the first `n` turns keeps the transcript canonical and removes exactly those. */
  lemma {:induction false} FoldFirstLaws(render: Renderer, ms: seq<Entry>, n: nat)
    requires Canonical(ms) && AllValid(ms)
    ensures Fine(FoldFirst(render, ms, n), Max(0, TurnCount(ms) - n))
    decreases |ms|
  {
    if ms != [] && n > 0 {
      if OpensTurn(ms[0]) {
        var r := ToolRun(ms[1..]);
        CountPastTurn(ms);
        FoldFirstLaws(render, ms[1 + r..], n - 1);
        FoldHead(render, ms, n, FoldFirst(render, ms[1 + r..], n - 1), Max(0, TurnCount(ms) - n));
      } else {
        assert AllValid(ms[1..]) && ValidEntry(ms[0]);
        FoldFirstLaws(render, ms[1..], n);
        PrependPlain(ms[0], FoldFirst(render, ms[1..], n));
      }
    }
  }

  lemma {:induction false} FoldHead(render: Renderer, ms: seq<Entry>, n: nat, rest: seq<Entry>, count: nat)
    requires ms != [] && n > 0 && OpensTurn(ms[0]) && Fine(rest, count)
    requires rest == FoldFirst(render, ms[1 + ToolRun(ms[1..])..], n - 1)
    ensures Fine(FoldFirst(render, ms, n), count)
  {
    var tools := ms[1..1 + ToolRun(ms[1..])];
    FoldedIsPlain(render, ms[0], tools);
    PrependPlain(FoldTurn(render, ms[0], tools), rest);
  }

  lemma {:induction false} PrependPlain(m: Entry, rest: seq<Entry>)
    requires Canonical(rest) && AllValid(rest) && ValidEntry(m) && m.role != Tool && !OpensTurn(m)
    ensures Canonical([m] + rest) && AllValid([m] + rest) && TurnCount([m] + rest) == TurnCount(rest)
  {
    assert ([m] + rest)[1..] == rest;
  }

  /** Folding leaves at most `keepRecent` turns, stays canonical, and has nothing left to do
      the second time. */
  lemma {:induction false} FoldSettles(render: Renderer, ms: seq<Entry>, keepRecent: nat)
    requires AllValid(ms)
    ensures var f := Fold(render, ms, keepRecent);
            && Canonical(f) && AllValid(f)
            && TurnCount(f) == Min(TurnCount(Normalize(ms)), keepRecent)
            && Fold(render, f, keepRecent) == f
  {
    NormalFormIsCanonical(ms);
    var m := Normalize(ms);
    FoldFirstLaws(render, m, Max(0, TurnCount(m) - keepRecent));
    CanonicalIsNormal(Fold(render, ms, keepRecent));
  }

  /** Few turns: folding changes nothing beyond normalizing. */
  lemma {:induction false} FoldKeepsRecent(render: Renderer, ms: seq<Entry>, keepRecent: nat)
    requires AllValid(ms) && Canonical(ms) && TurnCount(ms) <= keepRecent
    ensures Fold(render, ms, keepRecent) == ms
  {
    CanonicalIsNormal(ms);
  }

  predicate Shown(c: ToolCall) { c.name !in DROPPED_TOOLS }

  function ShownCount(calls: seq<ToolCall>): nat {
    if calls == [] then 0 else (if Shown(calls[0]) then 1 else 0) + ShownCount(calls[1..])
  }

  /** The listing of a turn holds one line for each call that is not reply, wait or no_action, in call
      order: the line of a call stands behind those of the shown calls before it, and renders the call
      with the answer of its own id. */
  lemma {:induction false} ListingIsExact(render: Renderer, calls: seq<ToolCall>, tools: seq<Entry>, i: nat)
    requires i <= |calls|
    ensures var lines, at := Lines(render, calls, tools), ShownCount(calls[..i]);
            && |lines| == ShownCount(calls)
            && (i < |calls| && Shown(calls[i]) ==>
                  at < |lines| && lines[at] == render(calls[i], FirstAnswer(tools, calls[i].id)))
  {
    if calls == [] {
    } else if i == 0 {
      ListingIsExact(render, calls[1..], tools, 0);
    } else {
      ListingIsExact(render, calls[1..], tools, i - 1);
      assert calls[..i][1..] == calls[1..][..i - 1];
    }
  }
}
