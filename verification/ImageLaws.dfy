/**
 What the image scanner takes for an image, and what a replacement leaves of a text, stated on the text.
*/
module ImageLaws {
  import opened Prelude
  import opened Transcript
  import opened Images
  import opened Context

  /** The span of an alternative text and a url, `![alt](url)`. */
  function SpanFor(alt: string, url: string): string { "![" + alt + "](" + url + ")" }

  /** The text starts with the span of this alternative text and url: the one ends at its first `]`, the
      other at its first `)`. */
  ghost predicate Starts(s: string, alt: string, url: string) {
    ']' !in alt && ')' !in url && SpanFor(alt, url) <= s
  }

  lemma {:induction false} UrlLenIs(u: string, url: string)
    requires ')' !in url && url + ")" <= u
    ensures UrlLen(u) == |url| + 1
  {
    if url != "" {
      assert u[0] == url[0] && url == [url[0]] + url[1..];
      assert u[1..][..|url|] == u[1..|url| + 1] == url[1..] + ")";
      UrlLenIs(u[1..], url[1..]);
    }
  }

  lemma {:induction false} AltLenIs(u: string, alt: string, url: string)
    requires ']' !in alt && ')' !in url && alt + ("](" + (url + ")")) <= u
    ensures AltLen(u) == |alt| + |url| + 3
  {
    var rest := "](" + (url + ")");
    if alt == "" {
      assert alt + rest == rest && u[0] == rest[0] && u[1] == rest[1];
      assert u[2..][..|url| + 1] == u[..|rest|][2..] == url + ")";
      UrlLenIs(u[2..], url);
    } else {
      assert u[0] == alt[0] && alt == [alt[0]] + alt[1..];
      assert u[1..][..|alt| - 1 + |rest|] == u[..|alt| + |rest|][1..] == alt[1..] + rest;
      AltLenIs(u[1..], alt[1..], url);
    }
  }

  lemma {:induction false} UrlThere(u: string) returns (url: string)
    requires UrlLen(u) > 0
    ensures ')' !in url && url + ")" <= u
  {
    if u[0] == ')' {
      url := "";
    } else {
      var rest := UrlThere(u[1..]);
      url := [u[0]] + rest;
      assert url + ")" == [u[0]] + (rest + ")");
      assert u == [u[0]] + u[1..];
    }
  }

  lemma {:induction false} AltThere(u: string) returns (alt: string, url: string)
    requires AltLen(u) > 0
    ensures ']' !in alt && ')' !in url && alt + ("](" + (url + ")")) <= u
  {
    if u[0] == ']' {
      url := UrlThere(u[2..]);
      alt := "";
      assert alt + ("](" + (url + ")")) == "](" + (url + ")");
      assert u == "](" + u[2..];
    } else {
      var l, r := AltThere(u[1..]);
      alt, url := [u[0]] + l, r;
      assert alt + ("](" + (url + ")")) == [u[0]] + (l + ("](" + (url + ")")));
      assert u == [u[0]] + u[1..];
    }
  }

  lemma {:induction false} SpanSplits(alt: string, url: string)
    ensures SpanFor(alt, url) == "![" + (alt + ("](" + (url + ")")))
  {
  }

  /** The scanner finds a span exactly where the text starts with one, and takes the whole of it. */
  lemma {:induction false} SpanIff(s: string)
    ensures SpanLen(s) > 0 <==> exists alt, url :: Starts(s, alt, url)
    ensures forall alt, url :: Starts(s, alt, url) ==> SpanLen(s) == |SpanFor(alt, url)|
  {
    if SpanLen(s) > 0 {
      var alt, url := AltThere(s[2..]);
      SpanSplits(alt, url);
      assert s == "![" + s[2..];
      assert Starts(s, alt, url);
    }
    forall alt, url | Starts(s, alt, url) ensures SpanLen(s) == |SpanFor(alt, url)| {
      SpanSplits(alt, url);
      var rest := alt + ("](" + (url + ")"));
      assert s[..2] == "![" by { assert SpanFor(alt, url)[..2] == "!["; }
      assert s[2..][..|rest|] == s[..2 + |rest|][2..] == rest;
      AltLenIs(s[2..], alt, url);
    }
  }

  /** The text around the images: one piece before each, and one behind the last. */
  function Gaps(ts: seq<Token>): (g: seq<string>)
    ensures g != []
  {
    if ts == [] then [""]
    else
      var rest := Gaps(ts[1..]);
      if ts[0].Image? then [""] + rest else [[ts[0].c] + rest[0]] + rest[1..]
  }

  /** Pieces of text with a filling between each two. */
  function Weave(gaps: seq<string>, fillings: seq<string>): string
    requires |gaps| == |fillings| + 1
  {
    if fillings == [] then gaps[0] else gaps[0] + fillings[0] + Weave(gaps[1..], fillings[1..])
  }

  /** The oldest `k` spans give way to the placeholder, the others stay. */
  function Placed(spans: seq<string>, k: nat): seq<string> {
    seq(|spans|, i requires 0 <= i < |spans| => if i < k then IMAGE_PLACEHOLDER else spans[i])
  }

  lemma {:induction false} GapsFit(ts: seq<Token>)
    ensures |Gaps(ts)| == |Spans(ts)| + 1
  {
    if ts != [] { GapsFit(ts[1..]); }
  }

  lemma {:induction false} WeaveChar(c: char, gaps: seq<string>, fillings: seq<string>, more: seq<string>)
    requires |gaps| == |fillings| + 1 && more == [[c] + gaps[0]] + gaps[1..]
    ensures Weave(more, fillings) == [c] + Weave(gaps, fillings)
  {
    assert more[1..] == gaps[1..];
    if fillings != [] {
      assert ([c] + gaps[0]) + fillings[0] + Weave(gaps[1..], fillings[1..])
          == [c] + (gaps[0] + fillings[0] + Weave(gaps[1..], fillings[1..]));
    }
  }

  lemma {:induction false} WeaveImage(
    f: string, gaps: seq<string>, fillings: seq<string>, more: seq<string>, all: seq<string>)
    requires |gaps| == |fillings| + 1 && more == [""] + gaps && all == [f] + fillings
    ensures Weave(more, all) == f + Weave(gaps, fillings)
  {
    assert more[1..] == gaps && all[1..] == fillings && more[0] + all[0] == f;
  }

  lemma {:induction false} PlacedHead(span: string, spans: seq<string>, k: nat)
    ensures Placed([span] + spans, k)
         == [if k > 0 then IMAGE_PLACEHOLDER else span] + Placed(spans, if k > 0 then k - 1 else 0)
  {
  }

  lemma {:induction false} ReplacedWeaves(ts: seq<Token>, k: nat)
    ensures |Gaps(ts)| == |Placed(Spans(ts), k)| + 1
    ensures Render(ReplaceFirst(ts, k)) == Weave(Gaps(ts), Placed(Spans(ts), k))
  {
    GapsFit(ts);
    if ts != [] {
      GapsFit(ts[1..]);
      if ts[0].Image? {
        var less := if k > 0 then k - 1 else 0;
        ReplacedWeaves(ts[1..], less);
        PlacedHead(ts[0].span, Spans(ts[1..]), k);
        WeaveImage(if k > 0 then IMAGE_PLACEHOLDER else ts[0].span, Gaps(ts[1..]), Placed(Spans(ts[1..]), less),
                   Gaps(ts), Placed(Spans(ts), k));
      } else {
        ReplacedWeaves(ts[1..], k);
        assert Spans(ts) == Spans(ts[1..]);
        WeaveChar(ts[0].c, Gaps(ts[1..]), Placed(Spans(ts), k), Gaps(ts));
      }
      if k > 0 { RenderReplaced(ts, k); } else { assert ReplaceFirst(ts[1..], 0) == ts[1..]; }
    }
  }

  /** A replacement keeps the text around the images and the newest images as they stand, and writes the
      placeholder for each of the oldest `k`. */
  lemma {:induction false} SubWeaves(s: string, k: nat)
    ensures var ts := Tokens(s);
            && |Gaps(ts)| == |Spans(ts)| + 1
            && s == Weave(Gaps(ts), Spans(ts))
            && Sub(s, k) == Weave(Gaps(ts), Placed(Spans(ts), k))
  {
    var ts := Tokens(s);
    ScanRoundTrip(s);
    ReplacedWeaves(ts, k);
    ReplacedWeaves(ts, 0);
    assert Placed(Spans(ts), 0) == Spans(ts);
    assert ReplaceFirst(ts, 0) == ts;
  }

  /* ---- Over a transcript ------------------------------------------------------------- */

  lemma {:induction false} TotalSplit(ms: seq<Entry>, i: nat)
    requires 0 < i <= |ms|
    ensures ImageTotal(ms[..i]) == CountImages(ContentOf(ms[0])) + ImageTotal(ms[1..][..i - 1])
  {
    assert ms[..i][1..] == ms[1..][..i - 1];
  }

  lemma {:induction false} BudgetedAt(ms: seq<Entry>, k: nat, i: nat)
    requires i < |ms|
    ensures |Budgeted(ms, k)| == |ms|
    ensures Budgeted(ms, k)[i] == BudgetEntry(ms[i], Left(k, ImageTotal(ms[..i])))
  {
    var rest := Budgeted(ms[1..], Left(k, CountImages(ContentOf(ms[0]))));
    if i > 0 {
      TotalSplit(ms, i);
      BudgetedAt(ms[1..], Left(k, CountImages(ContentOf(ms[0]))), i - 1);
      assert ([BudgetEntry(ms[0], k)] + rest)[i] == rest[i - 1];
    } else {
      assert ms[..0] == [];
      if |ms| > 1 { BudgetedAt(ms[1..], Left(k, CountImages(ContentOf(ms[0]))), 0); }
    }
  }

  /** The entry with the oldest `k` images of its text replaced. */
  ghost function Rewritten(m: Entry, k: nat): Entry
    requires m.content.Some?
  {
    var ts := Tokens(m.content.value);
    SubWeaves(m.content.value, k);
    m.(content := Some(Weave(Gaps(ts), Placed(Spans(ts), k))))
  }

  /** The budget replaces the oldest images of the whole transcript and nothing else: entry `i` loses those of
      its images, oldest first, that are still too many once the entries before it have lost theirs. */
  lemma {:induction false} BudgetReplacesOldest(ms: seq<Entry>, budget: nat, i: nat, out: seq<Entry>)
    requires out == ImageBudget(ms, budget) && i < |ms|
    ensures |out| == |ms|
    ensures ms[i].content.None? ==> out[i] == ms[i]
    ensures var k := Max(0, ImageTotal(ms) - budget - ImageTotal(ms[..i]));
            ms[i].content.Some? ==> out[i] == Rewritten(ms[i], k)
  {
    var over := ImageTotal(ms) - budget;
    if over > 0 { BudgetedAt(ms, over, i); }
    if ms[i].content.Some? {
      SubWeaves(ms[i].content.value, Max(0, over - ImageTotal(ms[..i])));
      if over <= 0 {
        ReplaceNone(ms[i].content.value);
        assert ms[i].(content := ms[i].content) == ms[i];
      }
    }
  }

  lemma {:induction false} ReplaceNone(s: string)
    ensures Sub(s, 0) == s
  {
    ScanRoundTrip(s);
    assert ReplaceFirst(Tokens(s), 0) == Tokens(s);
  }
}
