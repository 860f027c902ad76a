/**
 The history trim of `pretender/context.py`: oldest entries go first, the first system entry
 is pinned, and a tool turn is dropped or kept whole.
*/
module Trimming {
  import opened Prelude
  import opened Transcript
  import opened Normalizer
  import opened Folding

  /** The position of the first system entry. */
  function FirstSystem(ms: seq<Entry>): Option<nat> {
    if ms == [] then None
    else if ms[0].role == System then Some(0)
    else
      var p := FirstSystem(ms[1..]);
      if p.Some? then Some(p.value + 1) else None
  }

  /** Where the walk over the oldest entries stops, and how much of its budget is left. */
  function Walk(ms: seq<Entry>, pinned: Option<nat>, i: nat, budget: nat): (r: (nat, nat))
    requires i <= |ms|
    ensures i <= r.0 <= |ms| && r.1 <= budget
    decreases |ms| - i
  {
    if budget == 0 || i == |ms| then (i, budget)
    else if pinned == Some(i) then Walk(ms, pinned, i + 1, budget)
    else if OpensTurn(ms[i]) then
      var j := TurnEnd(ms, i);
      if j - i <= budget then Walk(ms, pinned, j, budget - (j - i)) else (i, budget)
    else Walk(ms, pinned, i + 1, budget - 1)
  }

  function DropLeadingTools(ms: seq<Entry>): seq<Entry> { ms[ToolRun(ms)..] }

  /** The trim of an already normalized transcript. */
  function TrimNormal(ms: seq<Entry>, maxSize: nat): seq<Entry> {
    if |ms| <= 2 * maxSize then ms
    else
      var pinned := FirstSystem(ms);
      var i := Walk(ms, pinned, 0, |ms| - maxSize).0;
      var kept := if pinned.Some? && pinned.value < i then [ms[pinned.value]] + ms[i..] else ms[i..];
      DropLeadingTools(kept)
  }

  function Trim(ms: seq<Entry>, maxSize: nat): seq<Entry> { TrimNormal(Normalize(ms), maxSize) }

  /** `trim`: a size below one is refused. */
  method TrimMessages(ms: seq<Entry>, maxSize: int) returns (r: Result<seq<Entry>, string>)
    ensures r == if maxSize < 1 then Err("max_context_size must be >= 1") else Ok(Trim(ms, maxSize))
  {
    if maxSize < 1 { return Err("max_context_size must be >= 1"); }
    var m := NormalizeMessages(ms);
    if |m| <= 2 * maxSize { return Ok(m); }
    var pinned := FirstSystem(m);
    FirstSystemInRange(m);
    var i := WalkOldest(m, pinned, |m| - maxSize);
    var kept := m[i..];
    if pinned.Some? && pinned.value < i { kept := [m[pinned.value]] + kept; }
    kept := StripTools(kept);
    r := Ok(kept);
  }

  method SkipTurn(m: seq<Entry>, i: nat) returns (j: nat)
    requires i < |m|
    ensures j == TurnEnd(m, i)
  {
    j := i + 1;
    while j < |m| && m[j].role == Tool
      invariant i + 1 <= j <= |m|
      invariant forall k :: i + 1 <= k < j ==> m[k].role == Tool
    {
      j := j + 1;
    }
    RunLength(m[i + 1..], j - i - 1);
  }

  method WalkOldest(m: seq<Entry>, pinned: Option<nat>, toDrop: nat) returns (i: nat)
    ensures i == Walk(m, pinned, 0, toDrop).0
  {
    i := 0;
    var dropped := 0;
    while dropped < toDrop && i < |m|
      invariant i <= |m| && 0 <= dropped <= toDrop
      invariant Walk(m, pinned, i, toDrop - dropped).0 == Walk(m, pinned, 0, toDrop).0
    {
      if pinned == Some(i) { i := i + 1; continue; }
      if OpensTurn(m[i]) {
        var j := SkipTurn(m, i);
        if j - i <= toDrop - dropped {
          dropped := dropped + (j - i);
          i := j;
        } else {
          break;
        }
      } else {
        dropped := dropped + 1;
        i := i + 1;
      }
    }
  }

  method StripTools(ms: seq<Entry>) returns (kept: seq<Entry>)
    ensures kept == DropLeadingTools(ms)
  {
    kept := ms;
    assert ms[0..] == ms;
    ghost var n := 0;
    while kept != [] && kept[0].role == Tool
      invariant 0 <= n <= |ms| && kept == ms[n..]
      invariant forall k :: 0 <= k < n ==> ms[k].role == Tool
      decreases |kept|
    {
      kept := kept[1..];
      n := n + 1;
    }
    RunLength(ms, n);
  }

  /* ---- Shape --------------------------------------------------------------------- */

  lemma {:induction false} FirstSystemInRange(ms: seq<Entry>)
    ensures FirstSystem(ms).Some? ==> FirstSystem(ms).value < |ms| && ms[FirstSystem(ms).value].role == System
    ensures forall k :: 0 <= k < |ms| && ms[k].role == System ==> FirstSystem(ms).Some? && FirstSystem(ms).value <= k
  {
    if ms != [] && ms[0].role != System {
      FirstSystemInRange(ms[1..]);
      assert forall k :: 1 <= k < |ms| ==> ms[k] == ms[1..][k - 1];
    }
  }

  lemma {:induction false} NextBoundary(ms: seq<Entry>, i: nat)
    requires i < |ms| && Canonical(ms[i..])
    ensures Canonical(ms[(if OpensTurn(ms[i]) then TurnEnd(ms, i) else i + 1)..])
    ensures ms[i].role != Tool
  {
    var rest := ms[i..];
    assert rest[0] == ms[i] && rest[1..] == ms[i + 1..];
    if OpensTurn(ms[i]) { assert rest[1 + ToolRun(rest[1..])..] == ms[TurnEnd(ms, i)..]; }
  }

  ghost predicate WalkResult(ms: seq<Entry>, pinned: Option<nat>, i: nat, budget: nat, k: nat, left: nat) {
    && i <= k <= |ms| && left <= budget
    && Canonical(ms[k..])
    && k - i == (budget - left) + (if pinned.Some? && i <= pinned.value < k then 1 else 0)
    && (left > 0 && k < |ms| ==> OpensTurn(ms[k]) && TurnEnd(ms, k) - k > left)
  }

  /** What the walk drops in front of the rest it counts. */
  lemma {:induction false} WalkPast(
    ms: seq<Entry>, pinned: Option<nat>, i: nat, j: nat, budget: nat, k: nat, left: nat)
    requires i < j <= |ms| && j - i <= budget && WalkResult(ms, pinned, j, budget - (j - i), k, left)
    requires pinned.Some? ==> pinned.value < i || pinned.value >= j
    ensures WalkResult(ms, pinned, i, budget, k, left)
  {
  }

  /** The walk stops at a turn boundary; either its budget is spent, or it faces a turn too
      large for what is left. What it dropped is the budget it used, the pinned entry apart. */
  lemma {:induction false} WalkShape(ms: seq<Entry>, pinned: Option<nat>, i: nat, budget: nat, w: (nat, nat))
    requires i <= |ms| && Canonical(ms[i..]) && w == Walk(ms, pinned, i, budget)
    requires pinned.Some? ==> pinned.value < |ms| && ms[pinned.value].role == System
    ensures WalkResult(ms, pinned, i, budget, w.0, w.1)
    decreases |ms| - i
  {
    if budget > 0 && i < |ms| {
      NextBoundary(ms, i);
      if pinned == Some(i) {
        WalkShape(ms, pinned, i + 1, budget, w);
      } else if OpensTurn(ms[i]) && TurnEnd(ms, i) - i > budget {
        assert w == (i, budget);
      } else {
        var j := if OpensTurn(ms[i]) then TurnEnd(ms, i) else i + 1;
        if OpensTurn(ms[i]) { NotInsideTurn(ms, i, pinned); }
        WalkShape(ms, pinned, j, budget - (j - i), w);
        WalkPast(ms, pinned, i, j, budget, w.0, w.1);
      }
    }
  }

  /** The pinned system entry never sits inside a tool turn. */
  lemma {:induction false} NotInsideTurn(ms: seq<Entry>, i: nat, pinned: Option<nat>)
    requires i < |ms| && OpensTurn(ms[i])
    requires pinned.Some? ==> pinned.value < |ms| && ms[pinned.value].role == System
    ensures pinned.Some? ==> pinned.value < i || pinned.value >= TurnEnd(ms, i)
  {
    RunIsTools(ms[i + 1..]);
    assert forall k :: i + 1 <= k < TurnEnd(ms, i) ==> ms[k] == ms[i + 1..][k - i - 1];
  }

  /** What trimming an overlong canonical transcript yields. */
  ghost predicate Shape(ms: seq<Entry>, maxSize: nat, r: seq<Entry>, k: nat, left: nat, head: bool) {
    && k <= |ms|
    && Canonical(ms[k..])
    && (head ==> FirstSystem(ms).Some? && FirstSystem(ms).value < k)
    && (FirstSystem(ms).Some? && FirstSystem(ms).value < k ==> head)
    && r == (if head then [ms[FirstSystem(ms).value]] else []) + ms[k..]
    && |r| == maxSize + left
    && (left > 0 ==> k < |ms| && OpensTurn(ms[k]) && TurnEnd(ms, k) - k > left)
  }

  /** The trimmed transcript is the pinned system entry followed by a suffix that starts on a
      turn boundary. Its length is the requested size, or exceeds it by less than the size of
      its oldest kept turn. The defensive loop that strips leading tool entries never fires. */
  lemma {:induction false} TrimShape(ms: seq<Entry>, maxSize: nat) returns (k: nat, left: nat, head: bool)
    requires Canonical(ms) && maxSize >= 1 && |ms| > 2 * maxSize
    ensures Shape(ms, maxSize, TrimNormal(ms, maxSize), k, left, head)
    ensures (k, left) == Walk(ms, FirstSystem(ms), 0, |ms| - maxSize)
  {
    var pinned := FirstSystem(ms);
    FirstSystemInRange(ms);
    var w := Walk(ms, pinned, 0, |ms| - maxSize);
    k, left := w.0, w.1;
    assert ms[0..] == ms;
    WalkShape(ms, pinned, 0, |ms| - maxSize, w);
    head := pinned.Some? && pinned.value < k;
    CanonicalStart(ms[k..]);
    var kept := (if head then [ms[pinned.value]] else []) + ms[k..];
    assert !head ==> kept == ms[k..];
    assert ToolRun(kept) == 0;
    assert kept[0..] == kept;
  }

  ghost predicate FirstSystemIs(ms: seq<Entry>, j: nat) {
    j < |ms| && ms[j].role == System && forall i :: 0 <= i < j ==> ms[i].role != System
  }

  lemma {:induction false} FirstSystemFound(ms: seq<Entry>)
    ensures FirstSystem(ms).Some? ==> FirstSystemIs(ms, FirstSystem(ms).value)
    ensures forall j: nat :: FirstSystemIs(ms, j) ==> FirstSystem(ms) == Some(j)
  {
    FirstSystemInRange(ms);
  }

  /** What is pinned in front of the kept suffix is the first system entry, exactly when it stands before
      the suffix. */
  lemma {:induction false} TrimPins(ms: seq<Entry>, maxSize: nat, r: seq<Entry>, k: nat, left: nat, head: bool)
    requires Shape(ms, maxSize, r, k, left, head)
    ensures head <==> exists j: nat :: FirstSystemIs(ms, j) && j < k
    ensures forall j: nat :: FirstSystemIs(ms, j) && j < k ==> r == [ms[j]] + ms[k..]
    ensures !head ==> r == ms[k..]
  {
    FirstSystemFound(ms);
  }

  /* ---- Laws ---------------------------------------------------------------------- */

  lemma {:induction false} SuffixTurns(ms: seq<Entry>, k: nat)
    requires k <= |ms|
    ensures TurnCount(ms[k..]) <= TurnCount(ms)
    decreases k
  {
    if k > 0 {
      SuffixTurns(ms[1..], k - 1);
      assert ms[1..][k - 1..] == ms[k..];
    } else {
      assert ms[0..] == ms;
    }
  }

  lemma {:induction false} TrimKeepsForm(ms: seq<Entry>, maxSize: nat)
    requires Canonical(ms) && AllValid(ms) && maxSize >= 1
    ensures var t := TrimNormal(ms, maxSize);
            Canonical(t) && AllValid(t) && TurnCount(t) <= TurnCount(ms)
  {
    if |ms| > 2 * maxSize {
      var k, left, head := TrimShape(ms, maxSize);
      FormOfShape(ms, maxSize, TrimNormal(ms, maxSize), k, left, head);
    }
  }

  lemma {:induction false} FormOfShape(ms: seq<Entry>, maxSize: nat, t: seq<Entry>, k: nat, left: nat, head: bool)
    requires Shape(ms, maxSize, t, k, left, head) && AllValid(ms)
    ensures Canonical(t) && AllValid(t) && TurnCount(t) <= TurnCount(ms)
  {
    SuffixTurns(ms, k);
    assert AllValid(ms[k..]);
    if head {
      FirstSystemInRange(ms);
      PrependPlain(ms[FirstSystem(ms).value], ms[k..]);
    } else {
      assert t == ms[k..];
    }
  }

  /** A second trim finds the same oversized turn at the same place and stops. */
  lemma {:induction false} TrimTwice(ms: seq<Entry>, maxSize: nat)
    requires Canonical(ms) && AllValid(ms) && maxSize >= 1
    ensures TrimNormal(TrimNormal(ms, maxSize), maxSize) == TrimNormal(ms, maxSize)
  {
    if |ms| > 2 * maxSize {
      var k, left, head := TrimShape(ms, maxSize);
      var t := TrimNormal(ms, maxSize);
      if |t| > 2 * maxSize { TrimStops(ms, t, k, left, head, maxSize); }
    }
  }

  lemma {:induction false} WalkIsStuck(t: seq<Entry>, pinned: Option<nat>, i: nat, left: nat)
    requires i < |t| && left > 0 && pinned != Some(i) && OpensTurn(t[i]) && TurnEnd(t, i) - i > left
    ensures Walk(t, pinned, i, left) == (i, left)
  {
  }

  lemma {:induction false} TrimStops(ms: seq<Entry>, t: seq<Entry>, k: nat, left: nat, head: bool, maxSize: nat)
    requires Shape(ms, maxSize, t, k, left, head) && maxSize >= 1 && |t| > 2 * maxSize
    ensures TrimNormal(t, maxSize) == t
  {
    var off := if head then 1 else 0;
    FirstSystemInRange(ms);
    FirstSystemInRange(t);
    assert t[off] == ms[k] && t[off + 1..] == ms[k + 1..];
    assert TurnEnd(t, off) - off == TurnEnd(ms, k) - k;
    WalkIsStuck(t, FirstSystem(t), off, left);
    NothingTrimmed(t, maxSize, off);
  }

  lemma {:induction false} NothingTrimmed(t: seq<Entry>, maxSize: nat, off: nat)
    requires off <= 1 && |t| > 2 * maxSize && off < |t| && t[0].role != Tool
    requires off == 1 ==> t[0].role == System
    requires Walk(t, FirstSystem(t), off, |t| - maxSize).0 == off
    ensures TrimNormal(t, maxSize) == t
  {
    FirstSystemInRange(t);
    assert [t[0]] + t[1..] == t && t[0..] == t && ToolRun(t) == 0;
  }

  /** Trimming is canonical and idempotent on every transcript. */
  lemma {:induction false} TrimSettles(ms: seq<Entry>, maxSize: nat)
    requires AllValid(ms) && maxSize >= 1
    ensures var t := Trim(ms, maxSize);
            Canonical(t) && AllValid(t) && TurnCount(t) <= TurnCount(Normalize(ms)) && Trim(t, maxSize) == t
  {
    NormalFormIsCanonical(ms);
    TrimKeepsForm(Normalize(ms), maxSize);
    TrimTwice(Normalize(ms), maxSize);
    CanonicalIsNormal(Trim(ms, maxSize));
  }

  lemma {:induction false} BoundOfNormal(m: seq<Entry>, maxSize: nat)
    requires Canonical(m) && maxSize >= 1
    ensures |m| <= 2 * maxSize ==> TrimNormal(m, maxSize) == m
    ensures |m| > 2 * maxSize ==>
              |TrimNormal(m, maxSize)| == maxSize + Walk(m, FirstSystem(m), 0, |m| - maxSize).1
  {
    if |m| > 2 * maxSize {
      var k, left, head := TrimShape(m, maxSize);
    }
  }

  /** How many entries from `i` up to `k` could be dropped: all but the pinned one. */
  function Droppable(pinned: Option<nat>, i: nat, k: nat): int {
    k - i - (if pinned.Some? && i <= pinned.value < k then 1 else 0)
  }

  /** A cut before entry `k` splits no tool turn. */
  predicate Cuttable(m: seq<Entry>, k: nat) { k == |m| || (k < |m| && m[k].role != Tool) }

  lemma {:induction false} CutPastTurn(ms: seq<Entry>, pinned: Option<nat>, i: nat, k: nat, j: nat)
    requires i < k <= |ms| && OpensTurn(ms[i]) && j == TurnEnd(ms, i) && Cuttable(ms, k)
    requires pinned.Some? ==> pinned.value < |ms| && ms[pinned.value].role == System
    ensures j <= k && Droppable(pinned, j, k) == Droppable(pinned, i, k) - (j - i)
  {
    NotInsideTurn(ms, i, pinned);
    RunIsTools(ms[i + 1..]);
    assert forall n :: i + 1 <= n < j ==> ms[n] == ms[i + 1..][n - i - 1];
  }

  /** Where one step of the walk goes while it still has something to drop. */
  function StepFrom(ms: seq<Entry>, pinned: Option<nat>, i: nat): nat
    requires i < |ms|
  {
    if pinned != Some(i) && OpensTurn(ms[i]) then TurnEnd(ms, i) else i + 1
  }

  lemma {:induction false} WalkStep(ms: seq<Entry>, pinned: Option<nat>, i: nat, budget: nat, n: nat, left: int)
    requires i < |ms| && budget > 0 && n == StepFrom(ms, pinned, i) <= |ms|
    requires left == budget - (if pinned == Some(i) then 0 else n - i)
    ensures left >= 0 ==> Walk(ms, pinned, i, budget) == Walk(ms, pinned, n, left)
  {
  }

  lemma {:induction false} CutStep(ms: seq<Entry>, pinned: Option<nat>, i: nat, k: nat, n: nat)
    requires i < k <= |ms| && Canonical(ms[i..]) && Cuttable(ms, k) && n == StepFrom(ms, pinned, i)
    requires pinned.Some? ==> pinned.value < |ms| && ms[pinned.value].role == System
    ensures i < n <= k && Canonical(ms[n..])
    ensures Droppable(pinned, n, k) == Droppable(pinned, i, k) - (if pinned == Some(i) then 0 else n - i)
  {
    NextBoundary(ms, i);
    if pinned != Some(i) && OpensTurn(ms[i]) { CutPastTurn(ms, pinned, i, k, n); }
  }

  /** A cut that splits no turn and drops exactly what the walk may drop is where the walk ends. */
  lemma {:induction false} WalkReachesCut(ms: seq<Entry>, pinned: Option<nat>, i: nat, budget: nat, k: nat)
    requires i <= k <= |ms| && Canonical(ms[i..]) && Cuttable(ms, k) && Droppable(pinned, i, k) == budget
    requires pinned.Some? ==> pinned.value < |ms| && ms[pinned.value].role == System
    ensures Walk(ms, pinned, i, budget).1 == 0
    decreases |ms| - i
  {
    if budget > 0 {
      var n := StepFrom(ms, pinned, i);
      CutStep(ms, pinned, i, k, n);
      var left := Droppable(pinned, n, k);
      WalkStep(ms, pinned, i, budget, n, left);
      WalkReachesCut(ms, pinned, n, left, k);
    }
  }

  /** Some cut of the transcript splits no turn and drops exactly this many entries. */
  ghost predicate CutsTo(m: seq<Entry>, drop: nat) {
    exists k: nat :: Cuttable(m, k) && Droppable(FirstSystem(m), 0, k) == drop
  }

  lemma {:induction false} WalkSpendsIff(m: seq<Entry>, drop: nat)
    requires Canonical(m)
    ensures Walk(m, FirstSystem(m), 0, drop).1 == 0 <==> CutsTo(m, drop)
  {
    var pinned, w := FirstSystem(m), Walk(m, FirstSystem(m), 0, drop);
    assert m[0..] == m;
    FirstSystemInRange(m);
    WalkShape(m, pinned, 0, drop, w);
    if w.0 < |m| { NextBoundary(m, w.0); }
    assert Cuttable(m, w.0);
    if CutsTo(m, drop) {
      var k: nat :| Cuttable(m, k) && Droppable(pinned, 0, k) == drop;
      WalkReachesCut(m, pinned, 0, drop, k);
    }
  }

  /** When the promised bound holds: a transcript of between one and two times the size is returned
      whole; a longer one meets the bound exactly when it can be cut, between turns, so that precisely
      the surplus goes. */
  lemma {:induction false} TrimBoundIff(ms: seq<Entry>, maxSize: nat, m: seq<Entry>)
    requires AllValid(ms) && maxSize >= 1 && m == Normalize(ms)
    ensures |Trim(ms, maxSize)| <= maxSize
            <==> |m| <= maxSize || (|m| > 2 * maxSize && CutsTo(m, |m| - maxSize))
  {
    NormalFormIsCanonical(ms);
    BoundOfNormal(m, maxSize);
    if |m| > 2 * maxSize { WalkSpendsIff(m, |m| - maxSize); }
  }

  /** Two plain entries already exceed a bound of one. */
  lemma {:induction false} TrimBoundExample()
    ensures exists ms :: AllValid(ms) && |Trim(ms, 1)| == 2
  {
    var u := Entry(User, Some("hi"), [], None, None);
    var ms := [u, u];
    assert ms[1..] == [u] && [u][1..] == [];
    assert Canonical([u]) && Canonical(ms);
    CanonicalIsNormal(ms);
    assert Trim(ms, 1) == ms && AllValid(ms);
  }
}
