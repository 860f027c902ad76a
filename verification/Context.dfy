/** The image budget over a transcript, and the whole pipeline of `build_context`. */
module Context {
  import opened Prelude
  import opened Transcript
  import opened Normalizer
  import opened Folding
  import opened Trimming
  import opened Images

  function ContentOf(m: Entry): string { if m.content.Some? then m.content.value else "" }

  function ImageTotal(ms: seq<Entry>): nat {
    if ms == [] then 0 else CountImages(ContentOf(ms[0])) + ImageTotal(ms[1..])
  }

  function BudgetEntry(m: Entry, k: nat): Entry {
    if m.content.Some? then m.(content := Some(Sub(m.content.value, k))) else m
  }

  /** What is left to replace after an entry with `n` images. */
  function Left(k: nat, n: nat): nat { if n <= k then k - n else 0 }

  /** Replace the oldest `k` images of the transcript. */
  function Budgeted(ms: seq<Entry>, k: nat): seq<Entry> {
    if ms == [] then []
    else [BudgetEntry(ms[0], k)] + Budgeted(ms[1..], Left(k, CountImages(ContentOf(ms[0]))))
  }

  function ImageBudget(ms: seq<Entry>, budget: nat): seq<Entry> {
    if ImageTotal(ms) <= budget then ms else Budgeted(ms, ImageTotal(ms) - budget)
  }

  function Build(render: Renderer, ms: seq<Entry>, maxSize: nat, images: nat, keepRecent: nat): seq<Entry> {
    ImageBudget(Trim(Fold(render, Normalize(ms), keepRecent), maxSize), images)
  }

  /* ---- The loops ------------------------------------------------------------------- */

  method ApplyImageBudget(ms: seq<Entry>, maxImages: int) returns (r: Result<seq<Entry>, string>)
    ensures r == if maxImages < 0 then Err("max_image_num must be >= 0") else Ok(ImageBudget(ms, maxImages))
  {
    if maxImages < 0 { return Err("max_image_num must be >= 0"); }
    var total := 0;
    assert ms[0..] == ms;
    for i := 0 to |ms|
      invariant total + ImageTotal(ms[i..]) == ImageTotal(ms)
    {
      assert ms[i..][1..] == ms[i + 1..];
      total := total + CountImages(ContentOf(ms[i]));
    }
    assert ms[|ms|..] == [];
    if total <= maxImages { return Ok(ms); }
    var out := ReplaceOldest(ms, total - maxImages);
    r := Ok(out);
  }

  method ReplaceOldest(ms: seq<Entry>, k: nat) returns (out: seq<Entry>)
    ensures out == Budgeted(ms, k)
  {
    out := [];
    var toReplace := k;
    assert ms[0..] == ms;
    for i := 0 to |ms|
      invariant out + Budgeted(ms[i..], toReplace) == Budgeted(ms, k)
    {
      assert ms[i..][1..] == ms[i + 1..];
      var n := CountImages(ContentOf(ms[i]));
      Regroup(out, BudgetEntry(ms[i], toReplace), Budgeted(ms[i + 1..], Left(toReplace, n)));
      if n == 0 {
        WithoutImages(ms[i], toReplace);
        out := out + [ms[i]];
      } else {
        out := out + [BudgetEntry(ms[i], toReplace)];
        toReplace := Left(toReplace, n);
      }
    }
    assert ms[|ms|..] == [];
  }

  lemma {:induction false} WithoutImages(m: Entry, k: nat)
    requires CountImages(ContentOf(m)) == 0
    ensures BudgetEntry(m, k) == m
  {
    ScanRoundTrip(ContentOf(m));
    NothingToReplace(Tokens(ContentOf(m)), k);
  }

  lemma {:induction false} NothingToReplace(ts: seq<Token>, k: nat)
    requires Spans(ts) == [] || k == 0
    ensures ReplaceFirst(ts, k) == ts
  {
    if ts != [] && k > 0 { NothingToReplace(ts[1..], k); }
  }

  /** `build_context`: normalize, fold, trim, image budget; the first refused parameter wins. */
  method BuildContext(render: Renderer, ms: seq<Entry>, maxSize: int, maxImages: int, keepRecent: int)
    returns (r: Result<seq<Entry>, string>)
    ensures keepRecent >= 0 && maxSize >= 1 && maxImages >= 0
            ==> r == Ok(Build(render, ms, maxSize, maxImages, keepRecent))
    ensures keepRecent < 0 || maxSize < 1 || maxImages < 0 ==> r.Err?
  {
    var m := NormalizeMessages(ms);
    r := FoldMessages(render, m, keepRecent);
    if r.Err? { return; }
    r := TrimMessages(r.value, maxSize);
    if r.Err? { return; }
    r := ApplyImageBudget(r.value, maxImages);
  }

  /* ---- Replacing images changes contents only ------------------------------------------- */

  /** Same entries up to their contents. */
  ghost predicate SameSkeleton(a: seq<Entry>, b: seq<Entry>) {
    |a| == |b| && forall i :: 0 <= i < |a| ==> a[i].(content := None) == b[i].(content := None)
  }

  lemma {:induction false} BudgetKeepsSkeleton(ms: seq<Entry>, k: nat)
    ensures SameSkeleton(ms, Budgeted(ms, k))
  {
    if ms != [] {
      BudgetKeepsSkeleton(ms[1..], Left(k, CountImages(ContentOf(ms[0]))));
      assert BudgetEntry(ms[0], k).(content := None) == ms[0].(content := None);
    }
  }

  lemma {:induction false} SkeletonFacts(a: seq<Entry>, b: seq<Entry>)
    requires SameSkeleton(a, b)
    ensures forall i :: 0 <= i < |a| ==>
              a[i].role == b[i].role && a[i].toolCalls == b[i].toolCalls && a[i].toolCallId == b[i].toolCallId
                  && a[i].name == b[i].name
    ensures AllValid(a) <==> AllValid(b)
  {
    forall i | 0 <= i < |a|
      ensures a[i].role == b[i].role && a[i].toolCalls == b[i].toolCalls && a[i].toolCallId == b[i].toolCallId
              && a[i].name == b[i].name
    {
      assert a[i].(content := None) == b[i].(content := None);
    }
  }

  lemma {:induction false} SkeletonTail(a: seq<Entry>, b: seq<Entry>, k: nat)
    requires SameSkeleton(a, b) && k <= |a|
    ensures SameSkeleton(a[k..], b[k..])
  {
  }

  lemma {:induction false} SkeletonRun(a: seq<Entry>, b: seq<Entry>)
    requires SameSkeleton(a, b)
    ensures ToolRun(a) == ToolRun(b)
  {
    if a != [] {
      SkeletonFacts(a, b);
      SkeletonTail(a, b, 1);
      SkeletonRun(a[1..], b[1..]);
    }
  }

  lemma {:induction false} SkeletonCanonical(a: seq<Entry>, b: seq<Entry>)
    requires SameSkeleton(a, b) && Canonical(a)
    ensures Canonical(b)
    decreases |a|
  {
    if a != [] {
      SkeletonFacts(a, b);
      SkeletonTail(a, b, 1);
      if OpensTurn(a[0]) {
        var n := ToolRun(a[1..]);
        SkeletonRun(a[1..], b[1..]);
        SkeletonTail(a, b, 1 + n);
        SkeletonCanonical(a[1 + n..], b[1 + n..]);
        SkeletonAnswers(a, b, n);
      } else {
        SkeletonCanonical(a[1..], b[1..]);
      }
    }
  }

  lemma {:induction false} SkeletonAnswers(a: seq<Entry>, b: seq<Entry>, n: nat)
    requires SameSkeleton(a, b) && a != [] && 1 + n <= |a| && Answers(a[0].toolCalls, a[1..1 + n])
    ensures Answers(b[0].toolCalls, b[1..1 + n])
  {
    SkeletonFacts(a, b);
    forall i | 0 <= i < n ensures b[1..1 + n][i].toolCallId == Some(b[0].toolCalls[i].id) {
      assert a[1..1 + n][i] == a[1 + i] && b[1..1 + n][i] == b[1 + i];
    }
  }

  lemma {:induction false} SkeletonTurns(a: seq<Entry>, b: seq<Entry>)
    requires SameSkeleton(a, b)
    ensures TurnCount(a) == TurnCount(b) && FirstSystem(a) == FirstSystem(b)
  {
    if a != [] {
      SkeletonFacts(a, b);
      SkeletonTail(a, b, 1);
      SkeletonTurns(a[1..], b[1..]);
    }
  }

  lemma {:induction false} SkeletonAt(a: seq<Entry>, b: seq<Entry>, i: nat)
    requires SameSkeleton(a, b) && i < |a|
    ensures OpensTurn(a[i]) == OpensTurn(b[i]) && TurnEnd(a, i) == TurnEnd(b, i)
  {
    SkeletonFacts(a, b);
    SkeletonTail(a, b, i + 1);
    SkeletonRun(a[i + 1..], b[i + 1..]);
  }

  lemma {:induction false} SkeletonWalk(a: seq<Entry>, b: seq<Entry>, pinned: Option<nat>, i: nat, budget: nat)
    requires SameSkeleton(a, b) && i <= |a|
    ensures Walk(a, pinned, i, budget) == Walk(b, pinned, i, budget)
    decreases |a| - i
  {
    if budget > 0 && i < |a| {
      SkeletonAt(a, b, i);
      if pinned == Some(i) {
        SkeletonWalk(a, b, pinned, i + 1, budget);
      } else if OpensTurn(a[i]) {
        var j := TurnEnd(a, i);
        if j - i <= budget { SkeletonWalk(a, b, pinned, j, budget - (j - i)); }
      } else {
        SkeletonWalk(a, b, pinned, i + 1, budget - 1);
      }
    }
  }

  /** What trimming leaves alone it leaves alone whatever the contents are. */
  lemma {:induction false} TrimSeesSkeleton(a: seq<Entry>, b: seq<Entry>, maxSize: nat)
    requires SameSkeleton(a, b) && Canonical(a) && TrimNormal(a, maxSize) == a && maxSize >= 1
    ensures TrimNormal(b, maxSize) == b
  {
    if |a| > 2 * maxSize {
      FixedWalk(a, maxSize);
      LongSkeleton(a, b, maxSize);
    }
  }

  lemma {:induction false} LongSkeleton(a: seq<Entry>, b: seq<Entry>, maxSize: nat)
    requires SameSkeleton(a, b) && Canonical(a) && |a| > 2 * maxSize && maxSize >= 1
    requires StopsAtOnce(a, maxSize)
    ensures TrimNormal(b, maxSize) == b
  {
    SkeletonTrim(a, b, |a| - maxSize);
    var w := Walk(b, FirstSystem(b), 0, |b| - maxSize);
    TrimFromStart(b, maxSize, w.0, w.1);
  }

  /** The walk drops nothing but, at most, steps over a leading system entry. */
  ghost predicate StopsAtOnce(a: seq<Entry>, maxSize: nat)
    requires |a| > maxSize
  {
    var k := Walk(a, FirstSystem(a), 0, |a| - maxSize).0;
    k <= 1 && (k == 1 ==> FirstSystem(a) == Some(0))
  }

  lemma {:induction false} FixedWalk(a: seq<Entry>, maxSize: nat)
    requires Canonical(a) && maxSize >= 1 && |a| > 2 * maxSize && TrimNormal(a, maxSize) == a
    ensures StopsAtOnce(a, maxSize)
  {
    var k, left, head := TrimShape(a, maxSize);
    FixedShape(a, maxSize, k, left, head);
  }

  lemma {:induction false} SkeletonTrim(a: seq<Entry>, b: seq<Entry>, budget: nat)
    requires SameSkeleton(a, b) && Canonical(a)
    ensures Canonical(b) && FirstSystem(a) == FirstSystem(b) && |a| == |b|
    ensures Walk(a, FirstSystem(a), 0, budget) == Walk(b, FirstSystem(b), 0, budget)
  {
    SkeletonTurns(a, b);
    SkeletonWalk(a, b, FirstSystem(a), 0, budget);
    SkeletonCanonical(a, b);
  }

  lemma {:induction false} TrimFromStart(b: seq<Entry>, maxSize: nat, k: nat, left: nat)
    requires Canonical(b) && maxSize >= 1 && |b| > 2 * maxSize && k <= 1
    requires Walk(b, FirstSystem(b), 0, |b| - maxSize) == (k, left)
    requires k == 1 ==> FirstSystem(b) == Some(0)
    ensures TrimNormal(b, maxSize) == b
  {
    var k', left', head' := TrimShape(b, maxSize);
    ShapeAtStart(b, maxSize, TrimNormal(b, maxSize), k', left', head');
  }

  lemma {:induction false} FixedShape(a: seq<Entry>, maxSize: nat, k: nat, left: nat, head: bool)
    requires Shape(a, maxSize, a, k, left, head)
    ensures k <= 1 && (k == 1 <==> head) && (head ==> FirstSystem(a) == Some(0))
  {
  }

  lemma {:induction false} ShapeAtStart(b: seq<Entry>, maxSize: nat, r: seq<Entry>, k: nat, left: nat, head: bool)
    requires Shape(b, maxSize, r, k, left, head) && b != []
    requires k == 1 ==> FirstSystem(b) == Some(0)
    requires k <= 1
    ensures r == b
  {
    if k == 1 { assert [b[0]] + b[1..] == b; } else { assert [] + b[0..] == b; }
  }

  /* ---- Laws of the budget ----------------------------------------------------------------- */

  function AllSpans(ms: seq<Entry>): seq<string> {
    if ms == [] then [] else Spans(Tokens(ContentOf(ms[0]))) + AllSpans(ms[1..])
  }

  lemma {:induction false} TotalIsSpans(ms: seq<Entry>)
    ensures ImageTotal(ms) == |AllSpans(ms)|
  {
    if ms != [] { TotalIsSpans(ms[1..]); }
  }

  /** No replacement in any entry completes a new span. */
  predicate AllSpliceFree(ms: seq<Entry>, k: nat) {
    ms == []
    || (SpliceFree(Tokens(ContentOf(ms[0])), k) && AllSpliceFree(ms[1..], Left(k, CountImages(ContentOf(ms[0])))))
  }

  /** The budget keeps exactly the newest images, in order. */
  lemma {:induction false} BudgetKeepsNewest(ms: seq<Entry>, k: nat)
    requires AllSpliceFree(ms, k) && k <= |AllSpans(ms)|
    ensures AllSpans(Budgeted(ms, k)) == AllSpans(ms)[k..]
  {
    if ms != [] {
      var s, n := ContentOf(ms[0]), CountImages(ContentOf(ms[0]));
      TotalIsSpans(ms[1..]);
      EntryKeepsNewest(ms[0], k);
      BudgetKeepsNewest(ms[1..], Left(k, n));
      DropSplit(Spans(Tokens(s)), AllSpans(ms[1..]), k);
    }
  }

  lemma {:induction false} EntryKeepsNewest(m: Entry, k: nat)
    requires SpliceFree(Tokens(ContentOf(m)), k)
    ensures var all := Spans(Tokens(ContentOf(m)));
            Spans(Tokens(ContentOf(BudgetEntry(m, k)))) == all[Min(k, |all|)..]
  {
    if m.content.Some? { SubKeepsNewest(m.content.value, k); }
  }

  lemma {:induction false} DropSplit(a: seq<string>, b: seq<string>, k: nat)
    requires k <= |a| + |b|
    ensures (a + b)[k..] == a[Min(k, |a|)..] + b[Left(k, |a|)..]
  {
  }

  function TextSize(ms: seq<Entry>): nat {
    if ms == [] then 0 else |ContentOf(ms[0])| + TextSize(ms[1..])
  }

  lemma {:induction false} BudgetShrinks(ms: seq<Entry>, k: nat)
    ensures TextSize(Budgeted(ms, k)) + Min(k, ImageTotal(ms)) <= TextSize(ms)
  {
    if ms != [] {
      var s, n := ContentOf(ms[0]), CountImages(ContentOf(ms[0]));
      BudgetShrinks(ms[1..], Left(k, n));
      ScanRoundTrip(s);
      ReplacementShortens(Tokens(s), k);
      assert |ContentOf(BudgetEntry(ms[0], k))| + Min(k, n) <= |s|;
    }
  }

  /** The budget is idempotent exactly when its output is within the budget. */
  lemma {:induction false} BudgetIdempotentIff(ms: seq<Entry>, budget: nat)
    ensures var out := ImageBudget(ms, budget);
            ImageBudget(out, budget) == out <==> ImageTotal(out) <= budget
  {
    var out := ImageBudget(ms, budget);
    if ImageTotal(out) > budget { BudgetShrinks(out, ImageTotal(out) - budget); }
  }

  /** And its output is within the budget whenever no replacement completes a new span. */
  lemma {:induction false} BudgetMet(ms: seq<Entry>, budget: nat)
    requires ImageTotal(ms) > budget ==> AllSpliceFree(ms, ImageTotal(ms) - budget)
    ensures ImageTotal(ImageBudget(ms, budget)) == Min(ImageTotal(ms), budget)
  {
    if ImageTotal(ms) > budget {
      TotalIsSpans(ms);
      BudgetKeepsNewest(ms, ImageTotal(ms) - budget);
      TotalIsSpans(ImageBudget(ms, budget));
    }
  }

  lemma {:induction false} ReplacingEverythingIff(ms: seq<Entry>, k: nat)
    requires k >= ImageTotal(ms)
    ensures ImageTotal(Budgeted(ms, k)) == 0 <==> AllSpliceFree(ms, k)
  {
    if ms != [] {
      var s, n := ContentOf(ms[0]), CountImages(ContentOf(ms[0]));
      ReplacingEverythingIff(ms[1..], Left(k, n));
      ScanRoundTrip(s);
      ReplacingAllIff(Tokens(s), k);
      var b := Budgeted(ms, k);
      assert b[0] == BudgetEntry(ms[0], k) && b[1..] == Budgeted(ms[1..], Left(k, n));
      assert ContentOf(b[0]) == Render(ReplaceFirst(Tokens(s), k)) by {
        if ms[0].content.None? { assert Tokens("") == []; }
      }
    }
  }

  /** With no image allowed, the budget is met, and so idempotent, exactly when no replacement
      completes a new span. */
  lemma {:induction false} ZeroBudgetIff(ms: seq<Entry>)
    ensures var out := ImageBudget(ms, 0);
            ImageBudget(out, 0) == out <==> AllSpliceFree(ms, ImageTotal(ms))
  {
    ReplacingEverythingIff(ms, ImageTotal(ms));
    BudgetIdempotentIff(ms, 0);
    if ImageTotal(ms) == 0 {
      NothingIsSpliceFree(ms);
    }
  }

  lemma {:induction false} NothingIsSpliceFree(ms: seq<Entry>)
    ensures AllSpliceFree(ms, 0)
  {
    if ms != [] { NothingIsSpliceFree(ms[1..]); }
  }

  /** A transcript of one entry that is over budget again after the budget was applied. */
  lemma {:induction false} BudgetExample(ts: seq<Token>, m: Entry)
    requires ts == [Char('!'), Image(['!', '[', 'a', ']', '(', 'b', ')']), Char('('), Char('c'), Char(')')]
    requires m == Entry(User, Some(Render(ts)), [], None, None)
    ensures ImageBudget(ImageBudget([m], 0), 0) != ImageBudget([m], 0)
  {
    SpliceExample(ts);
    TotalOfOne(m);
    var n := BudgetEntry(m, 1);
    assert ImageBudget([m], 0) == [n] + Budgeted([m][1..], Left(1, 1)) == [n];
    TotalOfOne(n);
    BudgetIdempotentIff([m], 0);
  }

  lemma {:induction false} TotalOfOne(m: Entry)
    ensures ImageTotal([m]) == CountImages(ContentOf(m)) && [m][1..] == []
  {
  }

  /* ---- The pipeline ------------------------------------------------------------------------ */

  /** What the pipeline reaches before the image budget: canonical, folded, trimmed. */
  ghost predicate Prepared(t: seq<Entry>, maxSize: nat, keepRecent: nat) {
    Canonical(t) && AllValid(t) && TurnCount(t) <= keepRecent && TrimNormal(t, maxSize) == t
  }

  lemma {:induction false} PipelinePrepares(render: Renderer, ms: seq<Entry>, maxSize: nat, keepRecent: nat)
    requires AllValid(ms) && maxSize >= 1
    ensures Prepared(Trim(Fold(render, Normalize(ms), keepRecent), maxSize), maxSize, keepRecent)
  {
    NormalFormIsCanonical(ms);
    FoldSettles(render, Normalize(ms), keepRecent);
    var f := Fold(render, Normalize(ms), keepRecent);
    TrimSettles(f, maxSize);
    CanonicalIsNormal(f);
    CanonicalIsNormal(Trim(f, maxSize));
  }

  lemma {:induction false} PreparedIsFixed(render: Renderer, t: seq<Entry>, maxSize: nat, keepRecent: nat)
    requires Prepared(t, maxSize, keepRecent)
    ensures Trim(Fold(render, Normalize(t), keepRecent), maxSize) == t
  {
    CanonicalIsNormal(t);
    FoldKeepsRecent(render, t, keepRecent);
  }

  lemma {:induction false} BudgetKeepsPrepared(t: seq<Entry>, maxSize: nat, keepRecent: nat, images: nat)
    requires Prepared(t, maxSize, keepRecent) && maxSize >= 1
    ensures Prepared(ImageBudget(t, images), maxSize, keepRecent)
  {
    if ImageTotal(t) > images {
      var b := Budgeted(t, ImageTotal(t) - images);
      BudgetKeepsSkeleton(t, ImageTotal(t) - images);
      SkeletonFacts(t, b);
      SkeletonCanonical(t, b);
      SkeletonTurns(t, b);
      TrimSeesSkeleton(t, b, maxSize);
    }
  }

  /** The facts about building, in terms of what the stages before the image budget yield. */
  ghost predicate Settles(b: seq<Entry>, again: seq<Entry>, t: seq<Entry>, images: nat, keepRecent: nat) {
    && Canonical(b) && AllValid(b) && TurnCount(b) <= keepRecent
    && (again == b <==> ImageTotal(b) <= images)
    && ((ImageTotal(t) > images ==> AllSpliceFree(t, ImageTotal(t) - images)) ==> again == b)
    && (images == 0 ==> (again == b <==> AllSpliceFree(t, ImageTotal(t))))
  }

  lemma {:induction false} PreparedSettles(t: seq<Entry>, maxSize: nat, images: nat, keepRecent: nat)
    requires Prepared(t, maxSize, keepRecent) && maxSize >= 1
    ensures Settles(ImageBudget(t, images), ImageBudget(ImageBudget(t, images), images), t, images, keepRecent)
  {
    BudgetKeepsPrepared(t, maxSize, keepRecent, images);
    BudgetIdempotentIff(t, images);
    if ImageTotal(t) > images ==> AllSpliceFree(t, ImageTotal(t) - images) { BudgetMet(t, images); }
    if images == 0 { ZeroBudgetIff(t); }
  }

  /** The pipeline yields a canonical transcript with at most `keepRecent` tool turns, for every input.
      Running it again changes nothing exactly when the image budget is met: it is met whenever no
      replacement in `t`, what the stages before the budget make of the input, completes a new span,
      and with no image allowed only then. */
  lemma {:induction false} BuildSettlesIff(
    render: Renderer, ms: seq<Entry>, maxSize: nat, images: nat, keepRecent: nat)
    requires AllValid(ms) && maxSize >= 1
    ensures var t := Trim(Fold(render, Normalize(ms), keepRecent), maxSize);
            var b := Build(render, ms, maxSize, images, keepRecent);
            Settles(b, Build(render, b, maxSize, images, keepRecent), t, images, keepRecent)
  {
    var t := Trim(Fold(render, Normalize(ms), keepRecent), maxSize);
    PipelinePrepares(render, ms, maxSize, keepRecent);
    PreparedSettles(t, maxSize, images, keepRecent);
    BudgetKeepsPrepared(t, maxSize, keepRecent, images);
    PreparedIsFixed(render, ImageBudget(t, images), maxSize, keepRecent);
  }
}
