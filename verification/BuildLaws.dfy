/**
 What building a request from a transcript comes to, stage by stage, each stated on what it yields.
*/
module BuildLaws {
  import opened Prelude
  import opened Transcript
  import opened Normalizer
  import opened NormalLaws
  import opened Folding
  import opened FoldLaws
  import opened Trimming
  import opened Images
  import opened Context
  import opened ImageLaws

  /** The first `count` turns are folded, and every other entry stands. */
  ghost predicate FoldedFrom(render: Renderer, n: seq<Entry>, count: nat, f: seq<Entry>) {
    forall i: nat :: i <= |n| ==> FoldedAt(render, n, count, i, f)
  }

  /** Up to twice the size everything is kept, and beyond it a suffix behind the first system entry. */
  ghost predicate TrimmedFrom(f: seq<Entry>, maxSize: nat, t: seq<Entry>) {
    if |f| <= 2 * maxSize then t == f
    else exists k: nat, left: nat, head: bool :: Shape(f, maxSize, t, k, left, head)
  }

  /** The oldest images beyond the budget are replaced. */
  ghost predicate BudgetedFrom(t: seq<Entry>, images: nat, b: seq<Entry>) {
    && |b| == |t|
    && forall i: nat :: i < |t| ==>
         b[i] == if t[i].content.None? then t[i]
                 else Rewritten(t[i], Max(0, ImageTotal(t) - images - ImageTotal(t[..i])))
  }

  /** Building completes the tool turns of the transcript, folds the old ones, then trims, and last replaces
      the images that are too many. */
  lemma {:induction false} BuildInStages(
    render: Renderer, ms: seq<Entry>, maxSize: nat, images: nat, keepRecent: nat, b: seq<Entry>)
    returns (pieces: seq<seq<Entry>>, n: seq<Entry>, f: seq<Entry>, t: seq<Entry>)
    requires AllValid(ms) && maxSize >= 1 && b == Build(render, ms, maxSize, images, keepRecent)
    ensures Built(ms, pieces) && n == Flat(pieces)
    ensures FoldedFrom(render, n, Max(0, TurnCount(n) - keepRecent), f)
    ensures TrimmedFrom(f, maxSize, t)
    ensures BudgetedFrom(t, images, b)
  {
    pieces := NormalFormIs(ms);
    n := Normalize(ms);
    f := Fold(render, n, keepRecent);
    t := Trim(f, maxSize);
    FoldStage(render, ms, n, keepRecent, f);
    TrimStage(f, maxSize, t);
    BudgetStage(t, images, b);
  }

  lemma {:induction false} FoldStage(
    render: Renderer, ms: seq<Entry>, n: seq<Entry>, keepRecent: nat, f: seq<Entry>)
    requires AllValid(ms) && n == Normalize(ms) && f == Fold(render, n, keepRecent)
    ensures FoldedFrom(render, n, Max(0, TurnCount(n) - keepRecent), f) && Canonical(f) && Normalize(f) == f
  {
    NormalIffCanonical(ms);
    NormalFormIsCanonical(ms);
    FoldSettles(render, n, keepRecent);
    CanonicalIsNormal(f);
    FoldsFrom(render, n, keepRecent, Max(0, TurnCount(n) - keepRecent), f);
  }

  lemma {:induction false} FoldsFrom(render: Renderer, n: seq<Entry>, keepRecent: nat, count: nat, f: seq<Entry>)
    requires AllValid(n) && n == Normalize(n) && f == Fold(render, n, keepRecent)
    requires count == Max(0, TurnCount(n) - keepRecent)
    ensures FoldedFrom(render, n, count, f)
  {
    forall i: nat | i <= |n| ensures FoldedAt(render, n, count, i, f) { FoldRetells(render, n, keepRecent, n, i); }
  }

  lemma {:induction false} TrimStage(f: seq<Entry>, maxSize: nat, t: seq<Entry>)
    requires Canonical(f) && Normalize(f) == f && maxSize >= 1 && t == Trim(f, maxSize)
    ensures TrimmedFrom(f, maxSize, t)
  {
    if |f| > 2 * maxSize { var k, left, head := TrimShape(f, maxSize); }
  }

  lemma {:induction false} BudgetStage(t: seq<Entry>, images: nat, b: seq<Entry>)
    requires b == ImageBudget(t, images)
    ensures BudgetedFrom(t, images, b)
  {
    if t != [] { BudgetReplacesOldest(t, images, 0, b); }
    forall i: nat | i < |t|
      ensures b[i] == if t[i].content.None? then t[i]
                      else Rewritten(t[i], Max(0, ImageTotal(t) - images - ImageTotal(t[..i])))
    {
      BudgetReplacesOldest(t, images, i, b);
    }
  }
}
