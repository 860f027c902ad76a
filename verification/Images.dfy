/**
 The image budget of `pretender/context.py`. An image is a span `![alt](url)` inside a text; the
 scanner below is the regular expression of the source, leftmost match first. A text is read as
 a list of tokens, so that the effect of a replacement on the scan of the whole text can be
 stated.
*/
module Images {
  import opened Prelude

  const IMAGE_PLACEHOLDER: string := "[图片]"

  /** Length of a url and its closing parenthesis at the head of `u`; 0 when none closes. */
  function UrlLen(u: string): (n: nat)
    ensures n <= |u|
  {
    if u == "" then 0
    else if u[0] == ')' then 1
    else
      var n := UrlLen(u[1..]);
      if n > 0 then n + 1 else 0
  }

  /** Length of `alt](url)` at the head of `u`; 0 when it does not match. */
  function AltLen(u: string): (n: nat)
    ensures n <= |u| && (n > 0 ==> n >= 3)
  {
    if u == "" then 0
    else if u[0] == ']' then
      if |u| >= 2 && u[1] == '(' && UrlLen(u[2..]) > 0 then 2 + UrlLen(u[2..]) else 0
    else
      var n := AltLen(u[1..]);
      if n > 0 then n + 1 else 0
  }

  /** Length of the image span at the head of `s`; 0 when there is none. */
  function SpanLen(s: string): (n: nat)
    ensures n <= |s| && (n > 0 ==> n >= 5)
  {
    if |s| >= 2 && s[0] == '!' && s[1] == '[' && AltLen(s[2..]) > 0 then 2 + AltLen(s[2..]) else 0
  }

  datatype Token = Char(c: char) | Image(span: string)

  function Tokens(s: string): seq<Token>
    decreases |s|
  {
    if s == "" then []
    else if SpanLen(s) > 0 then [Image(s[..SpanLen(s)])] + Tokens(s[SpanLen(s)..])
    else [Char(s[0])] + Tokens(s[1..])
  }

  function Text(t: Token): string { if t.Char? then [t.c] else t.span }

  function Render(ts: seq<Token>): string {
    if ts == [] then "" else Text(ts[0]) + Render(ts[1..])
  }

  function Spans(ts: seq<Token>): seq<string> {
    if ts == [] then [] else (if ts[0].Image? then [ts[0].span] else []) + Spans(ts[1..])
  }

  const PLACEHOLDER_TOKENS: seq<Token> := [Char('['), Char('图'), Char('片'), Char(']')]

  /** Replace the first `k` images. */
  function ReplaceFirst(ts: seq<Token>, k: nat): seq<Token> {
    if ts == [] || k == 0 then ts
    else if ts[0].Image? then PLACEHOLDER_TOKENS + ReplaceFirst(ts[1..], k - 1)
    else [ts[0]] + ReplaceFirst(ts[1..], k)
  }

  function Sub(s: string, k: nat): string { Render(ReplaceFirst(Tokens(s), k)) }

  function CountImages(s: string): nat { |Spans(Tokens(s))| }

  /* ---- Scanning facts --------------------------------------------------------------- */

  lemma {:induction false} UrlLenStable(u: string, x: string)
    requires UrlLen(u) > 0
    ensures UrlLen(u + x) == UrlLen(u)
  {
    if u[0] != ')' {
      assert (u + x)[1..] == u[1..] + x;
      UrlLenStable(u[1..], x);
    }
  }

  lemma {:induction false} UrlCloses(u: string)
    ensures UrlLen(u) > 0 <==> ')' in u
  {
    if u != "" {
      assert u == [u[0]] + u[1..];
      UrlCloses(u[1..]);
    }
  }

  lemma {:induction false} AltLenStable(u: string, x: string)
    requires AltLen(u) > 0
    ensures AltLen(u + x) == AltLen(u)
  {
    assert (u + x)[1..] == u[1..] + x;
    if u[0] == ']' {
      assert (u + x)[2..] == u[2..] + x;
      UrlLenStable(u[2..], x);
    } else {
      AltLenStable(u[1..], x);
    }
  }

  lemma {:induction false} UrlLenPrefix(u: string)
    requires UrlLen(u) > 0
    ensures UrlLen(u[..UrlLen(u)]) == UrlLen(u)
  {
    if u[0] != ')' {
      UrlLenPrefix(u[1..]);
      assert u[..UrlLen(u)][1..] == u[1..][..UrlLen(u[1..])];
    }
  }

  lemma {:induction false} AltLenPrefix(u: string)
    requires AltLen(u) > 0
    ensures AltLen(u[..AltLen(u)]) == AltLen(u)
  {
    var p := u[..AltLen(u)];
    if u[0] == ']' {
      UrlLenPrefix(u[2..]);
      assert p[2..] == u[2..][..UrlLen(u[2..])];
    } else {
      AltLenPrefix(u[1..]);
      assert p[1..] == u[1..][..AltLen(u[1..])];
    }
  }

  lemma {:induction false} SpanLenPrefix(s: string)
    requires SpanLen(s) > 0
    ensures SpanLen(s[..SpanLen(s)]) == SpanLen(s)
  {
    AltLenPrefix(s[2..]);
    assert s[..SpanLen(s)][2..] == s[2..][..AltLen(s[2..])];
  }

  lemma {:induction false} SpanLenStable(s: string, x: string)
    requires SpanLen(s) > 0
    ensures SpanLen(s + x) == SpanLen(s) && AltLen(s + x) > 0 && ')' in s
  {
    assert (s + x)[2..] == s[2..] + x && (s + x)[1..][1..] == s[2..] + x;
    AltLenStable(s[2..], x);
    AltCloses(s[2..]);
    var c :| 0 <= c < |s[2..]| && s[2..][c] == ')';
    assert s[c + 2] == ')';
  }

  lemma {:induction false} AltCloses(u: string)
    requires AltLen(u) > 0
    ensures ')' in u
  {
    if u[0] == ']' {
      UrlCloses(u[2..]);
      var c :| 0 <= c < |u[2..]| && u[2..][c] == ')';
      assert u[c + 2] == ')';
    } else {
      AltCloses(u[1..]);
      var c :| 0 <= c < |u[1..]| && u[1..][c] == ')';
      assert u[c + 1] == ')';
    }
  }

  /** The tokens are what scanning their own rendering yields. */
  predicate Scanned(ts: seq<Token>) {
    ts == []
    || ((if ts[0].Image? then SpanLen(ts[0].span) == |ts[0].span| > 0 else SpanLen(Render(ts)) == 0)
       && Scanned(ts[1..]))
  }

  lemma {:induction false} ScanRoundTrip(s: string)
    ensures Render(Tokens(s)) == s && Scanned(Tokens(s))
    decreases |s|
  {
    if s != "" {
      var n := SpanLen(s);
      if n > 0 {
        ScanRoundTrip(s[n..]);
        SpanLenPrefix(s);
        assert s == s[..n] + s[n..];
      } else {
        ScanRoundTrip(s[1..]);
        assert s == [s[0]] + s[1..];
      }
    }
  }

  lemma {:induction false} ScanOfRender(ts: seq<Token>)
    requires Scanned(ts)
    ensures Tokens(Render(ts)) == ts
  {
    if ts != [] {
      ScanOfRender(ts[1..]);
      var s, rest := Render(ts), Render(ts[1..]);
      if ts[0].Image? {
        SpanLenStable(ts[0].span, rest);
        assert s[|ts[0].span|..] == rest && s[..|ts[0].span|] == ts[0].span;
      } else {
        assert s[1..] == rest;
      }
    }
  }

  /* ---- Replacement ------------------------------------------------------------------- */

  /** The text after a placeholder would complete it to a span: `(`, and a `)` somewhere. */
  predicate Completes(u: string) { u != "" && u[0] == '(' && ')' in u }

  /** No replaced image turns an exclamation mark right before it into a new span. */
  predicate SpliceFree(ts: seq<Token>, k: nat) {
    ts == [] || k == 0
    || (if ts[0].Image? then SpliceFree(ts[1..], k - 1)
        else
          && !(ts[0] == Char('!') && |ts| > 1 && ts[1].Image? && Completes(Render(ReplaceFirst(ts[2..], k - 1))))
          && SpliceFree(ts[1..], k))
  }

  lemma {:induction false} RenderConcat(a: seq<Token>, b: seq<Token>)
    ensures Render(a + b) == Render(a) + Render(b)
  {
    var x := a + b;
    if a == [] {
      assert x == b;
    } else {
      assert x[0] == a[0] && x[1..] == a[1..] + b;
      RenderConcat(a[1..], b);
      assert Text(a[0]) + (Render(a[1..]) + Render(b)) == (Text(a[0]) + Render(a[1..])) + Render(b);
    }
  }

  lemma {:induction false} PlaceholderText()
    ensures Render(PLACEHOLDER_TOKENS) == IMAGE_PLACEHOLDER
  {
    var p := PLACEHOLDER_TOKENS;
    assert p[1..] == [Char('图'), Char('片'), Char(']')] && p[1..][1..] == [Char('片'), Char(']')];
    assert [Char('片'), Char(']')][1..] == [Char(']')] && [Char(']')][1..] == [];
    assert Render([Char(']')]) == "]";
    assert Render([Char('片'), Char(']')]) == "片]";
    assert Render([Char('图'), Char('片'), Char(']')]) == "图片]";
  }

  lemma {:induction false} RenderReplaced(ts: seq<Token>, k: nat)
    requires ts != [] && k > 0
    ensures ts[0].Image? ==> Render(ReplaceFirst(ts, k)) == IMAGE_PLACEHOLDER + Render(ReplaceFirst(ts[1..], k - 1))
    ensures ts[0].Char? ==> Render(ReplaceFirst(ts, k)) == [ts[0].c] + Render(ReplaceFirst(ts[1..], k))
  {
    if ts[0].Image? {
      RenderConcat(PLACEHOLDER_TOKENS, ReplaceFirst(ts[1..], k - 1));
      PlaceholderText();
    } else {
      var r := [ts[0]] + ReplaceFirst(ts[1..], k);
      assert r[0] == ts[0] && r[1..] == ReplaceFirst(ts[1..], k);
    }
  }

  /** Text without a closing parenthesis holds no image. */
  lemma {:induction false} NoCloseNoImage(ts: seq<Token>, k: nat)
    requires Scanned(ts) && ')' !in Render(ts)
    ensures ReplaceFirst(ts, k) == ts
  {
    if ts != [] {
      if ts[0].Image? {
        SpanLenStable(ts[0].span, "");
      } else {
        assert forall c :: c in Render(ts[1..]) ==> c in Render(ts);
        NoCloseNoImage(ts[1..], k);
      }
    }
  }

  /** An unmatched bracket stays unmatched when images after it are replaced. */
  lemma {:induction false} UnmatchedStays(ts: seq<Token>, k: nat)
    requires Scanned(ts) && AltLen(Render(ts)) == 0
    ensures AltLen(Render(ReplaceFirst(ts, k))) == 0
  {
    if ts != [] && k > 0 {
      var u, rest := Render(ts), Render(ts[1..]);
      if ts[0].Image? {
        SpanLenStable(ts[0].span, rest);
      } else {
        assert u[0] == ts[0].c && u[1..] == rest;
        RenderReplaced(ts, k);
        var v := Render(ReplaceFirst(ts, k));
        assert v[1..] == Render(ReplaceFirst(ts[1..], k));
        if ts[0].c == ']' {
          AltAfterClose(u);
          AltAfterClose(v);
          NotOpened(ts[1..], k);
        } else {
          UnmatchedStays(ts[1..], k);
        }
      }
    }
  }

  /** After an unmatched `]`, replacement opens no url. */
  lemma {:induction false} NotOpened(ts: seq<Token>, k: nat)
    requires Scanned(ts) && !Completes(Render(ts))
    requires k > 0
    ensures !Completes(Render(ReplaceFirst(ts, k)))
  {
    if ts != [] {
      RenderReplaced(ts, k);
      var u := Render(ts);
      if ts[0] == Char('(') {
        assert u[0] == '(';
        NoCloseNoImage(ts, k);
      }
    }
  }

  lemma {:induction false} OpensIffCompletes(u: string)
    ensures |u| >= 1 && u[0] == '(' && UrlLen(u[1..]) > 0 <==> Completes(u)
  {
    if u != "" {
      UrlCloses(u[1..]);
      assert u == [u[0]] + u[1..];
    }
  }

  lemma {:induction false} AltAfterClose(u: string)
    requires u != "" && u[0] == ']'
    ensures AltLen(u) > 0 <==> Completes(u[1..])
  {
    OpensIffCompletes(u[1..]);
    if |u| >= 2 { assert u[1..][1..] == u[2..] && u[1..][0] == u[1]; }
  }

  /** Replacing images leaves a text whose scan is what was written exactly when no replacement
      completes a new span. */
  lemma {:induction false} ReplacedScansIff(ts: seq<Token>, k: nat)
    requires Scanned(ts)
    ensures Scanned(ReplaceFirst(ts, k)) <==> SpliceFree(ts, k)
  {
    if ts != [] && k > 0 {
      var r := ReplaceFirst(ts, k);
      if ts[0].Image? {
        ReplacedScansIff(ts[1..], k - 1);
        PlaceholderScans(ReplaceFirst(ts[1..], k - 1));
      } else {
        ReplacedScansIff(ts[1..], k);
        assert r[0] == ts[0] && r[1..] == ReplaceFirst(ts[1..], k);
        CharStaysIff(ts, k);
      }
    }
  }

  lemma {:induction false} PlainCharScans(c: char, rest: seq<Token>)
    requires c != '!'
    ensures Scanned([Char(c)] + rest) <==> Scanned(rest)
  {
    var x := [Char(c)] + rest;
    assert x[1..] == rest && Render(x)[0] == c;
  }

  lemma {:induction false} PlaceholderScans(rest: seq<Token>)
    ensures Scanned(PLACEHOLDER_TOKENS + rest) <==> Scanned(rest)
  {
    PlainCharScans(']', rest);
    PlainCharScans('片', [Char(']')] + rest);
    PlainCharScans('图', [Char('片')] + ([Char(']')] + rest));
    PlainCharScans('[', [Char('图')] + ([Char('片')] + ([Char(']')] + rest)));
    assert PLACEHOLDER_TOKENS + rest == [Char('[')] + ([Char('图')] + ([Char('片')] + ([Char(']')] + rest)));
  }

  /** Whether a plain character still starts no span after the replacement. */
  lemma {:induction false} CharStaysIff(ts: seq<Token>, k: nat)
    requires Scanned(ts) && ts != [] && ts[0].Char? && k > 0
    ensures (SpanLen(Render(ReplaceFirst(ts, k))) > 0) <==>
              (ts[0] == Char('!') && |ts| > 1 && ts[1].Image? && Completes(Render(ReplaceFirst(ts[2..], k - 1))))
  {
    RenderReplaced(ts, k);
    var v := Render(ReplaceFirst(ts, k));
    if ts[0].c == '!' && |ts| > 1 {
      RenderReplaced(ts[1..], k);
      assert ts[1..][1..] == ts[2..] && ts[1..][0] == ts[1];
      if ts[1].Image? {
        BangPlaceholder(v, Render(ReplaceFirst(ts[2..], k - 1)));
      } else {
        BangCharStays(ts, k, v);
      }
    } else if |ts| == 1 {
      assert ReplaceFirst(ts[1..], k) == [];
      assert |v| == 1;
    }
  }

  lemma {:induction false} BangCharStays(ts: seq<Token>, k: nat, v: string)
    requires Scanned(ts) && |ts| > 1 && ts[0] == Char('!') && ts[1].Char? && k > 0
    requires v == "!" + ([ts[1].c] + Render(ReplaceFirst(ts[2..], k)))
    ensures SpanLen(v) == 0
  {
    var u := Render(ts);
    assert ts[1..][1..] == ts[2..] && ts[1..][0] == ts[1];
    assert Render(ts[1..]) == [ts[1].c] + Render(ts[2..]);
    assert u == "!" + ([ts[1].c] + Render(ts[2..]));
    assert u[2..] == Render(ts[2..]) && v[2..] == Render(ReplaceFirst(ts[2..], k));
    if ts[1].c == '[' { UnmatchedStays(ts[2..], k); }
  }

  lemma {:induction false} BangPlaceholder(v: string, rest: string)
    requires v == ['!'] + (IMAGE_PLACEHOLDER + rest)
    ensures SpanLen(v) > 0 <==> Completes(rest)
  {
    var c := [']'] + rest;
    var b := ['片'] + c;
    var w := ['图'] + b;
    PlaceholderTail(w, b, c, rest);
    assert v[2..] == w && v[0] == '!' && v[1] == '[';
  }

  lemma {:induction false} PlaceholderTail(w: string, b: string, c: string, rest: string)
    requires c == [']'] + rest && b == ['片'] + c && w == ['图'] + b
    ensures AltLen(w) > 0 <==> Completes(rest)
  {
    assert c[0] == ']' && c[1..] == rest;
    AltAfterClose(c);
    SkipChar('片', c);
    SkipChar('图', b);
  }

  lemma {:induction false} SkipChar(c: char, u: string)
    requires c != ']'
    ensures AltLen([c] + u) > 0 <==> AltLen(u) > 0
  {
    assert ([c] + u)[1..] == u;
  }

  /** The kept images are the newest ones, untouched and in order. */
  lemma {:induction false} NewestKept(ts: seq<Token>, k: nat)
    ensures Spans(ReplaceFirst(ts, k)) == Spans(ts)[Min(k, |Spans(ts)|)..]
  {
    if ts != [] && k > 0 {
      if ts[0].Image? {
        NewestKept(ts[1..], k - 1);
        SpansConcat(PLACEHOLDER_TOKENS, ReplaceFirst(ts[1..], k - 1));
        PlaceholderHasNone();
      } else {
        NewestKept(ts[1..], k);
        var r := [ts[0]] + ReplaceFirst(ts[1..], k);
        assert r[1..] == ReplaceFirst(ts[1..], k);
      }
    }
  }

  lemma {:induction false} PlaceholderHasNone()
    ensures Spans(PLACEHOLDER_TOKENS) == []
  {
    var p := PLACEHOLDER_TOKENS;
    assert p[1..] == [Char('图'), Char('片'), Char(']')] && p[1..][1..] == [Char('片'), Char(']')];
    assert [Char('片'), Char(']')][1..] == [Char(']')] && [Char(']')][1..] == [];
  }

  lemma {:induction false} SpansConcat(a: seq<Token>, b: seq<Token>)
    ensures Spans(a + b) == Spans(a) + Spans(b)
  {
    var x := a + b;
    if a == [] {
      assert x == b;
    } else {
      assert x[0] == a[0] && x[1..] == a[1..] + b;
      SpansConcat(a[1..], b);
    }
  }

  /** Every replacement shortens the text. */
  lemma {:induction false} ReplacementShortens(ts: seq<Token>, k: nat)
    requires Scanned(ts)
    ensures |Render(ReplaceFirst(ts, k))| + Min(k, |Spans(ts)|) <= |Render(ts)|
  {
    if ts != [] && k > 0 {
      RenderReplaced(ts, k);
      if ts[0].Image? {
        ReplacementShortens(ts[1..], k - 1);
      } else {
        ReplacementShortens(ts[1..], k);
      }
    }
  }

  /** On a text: images after a splice-free replacement are exactly the newest ones. */
  lemma {:induction false} SubKeepsNewest(s: string, k: nat)
    requires SpliceFree(Tokens(s), k)
    ensures Spans(Tokens(Sub(s, k))) == Spans(Tokens(s))[Min(k, CountImages(s))..]
  {
    ScanRoundTrip(s);
    ReplacedScansIff(Tokens(s), k);
    ScanOfRender(ReplaceFirst(Tokens(s), k));
    NewestKept(Tokens(s), k);
  }

  lemma {:induction false} CharsAreUnique(a: seq<Token>, b: seq<Token>)
    requires Spans(a) == [] && Spans(b) == [] && Render(a) == Render(b)
    ensures a == b
  {
    if a != [] && b != [] {
      assert Render(a)[0] == a[0].c && Render(a)[1..] == Render(a[1..]);
      assert Render(b)[0] == b[0].c && Render(b)[1..] == Render(b[1..]);
      CharsAreUnique(a[1..], b[1..]);
      assert a == [a[0]] + a[1..] && b == [b[0]] + b[1..];
    } else {
      assert a != [] ==> Render(a) != "";
      assert b != [] ==> Render(b) != "";
    }
  }

  lemma {:induction false} NoneLeft(ts: seq<Token>, k: nat)
    requires k >= |Spans(ts)|
    ensures Spans(ReplaceFirst(ts, k)) == []
  {
    if ts != [] && k > 0 {
      var rest := ReplaceFirst(ts[1..], if ts[0].Image? then k - 1 else k);
      NoneLeft(ts[1..], if ts[0].Image? then k - 1 else k);
      if ts[0].Image? {
        PlaceholderHasNone();
        SpansConcat(PLACEHOLDER_TOKENS, rest);
      } else {
        assert ReplaceFirst(ts, k)[1..] == rest;
      }
    }
  }

  /** Replacing every image leaves no image exactly when no replacement completes a new span. */
  lemma {:induction false} ReplacingAllIff(ts: seq<Token>, k: nat)
    requires Scanned(ts) && k >= |Spans(ts)|
    ensures CountImages(Render(ReplaceFirst(ts, k))) == 0 <==> SpliceFree(ts, k)
  {
    var r := ReplaceFirst(ts, k);
    NoneLeft(ts, k);
    ReplacedScansIff(ts, k);
    if Scanned(r) { ScanOfRender(r); }
    if CountImages(Render(r)) == 0 {
      ScanRoundTrip(Render(r));
      CharsAreUnique(Tokens(Render(r)), r);
    }
  }

  lemma {:induction false} SpanOf(alt: char, url: char)
    requires alt != ']' && url != ')'
    ensures SpanLen(['!', '[', alt, ']', '(', url, ')']) == 7
  {
    var s := ['!', '[', alt, ']', '(', url, ')'];
    assert s[2..] == [alt, ']', '(', url, ')'] && s[2..][1..] == [']', '(', url, ')'];
    assert [']', '(', url, ')'][2..] == [url, ')'] && [url, ')'][1..] == [')'];
    assert UrlLen([')']) == 1 && UrlLen([url, ')']) == 2;
    assert AltLen([']', '(', url, ')']) == 4;
  }

  /** An exclamation mark right before a replaced image and a parenthesis right after it write a
      new image span. */
  lemma {:induction false} SpliceWritesSpan(ts: seq<Token>, k: nat)
    requires Scanned(ts) && |ts| > 1 && ts[0] == Char('!') && ts[1].Image? && k > 0
    requires Completes(Render(ReplaceFirst(ts[2..], k - 1)))
    ensures CountImages(Sub(Render(ts), k)) > 0
  {
    ScanOfRender(ts);
    CharStaysIff(ts, k);
  }

  /** The smallest case: `!![a](b)(c)`. */
  lemma {:induction false} SpliceExample(ts: seq<Token>)
    requires ts == [Char('!'), Image(['!', '[', 'a', ']', '(', 'b', ')']), Char('('), Char('c'), Char(')')]
    ensures CountImages(Render(ts)) == 1 && CountImages(Sub(Render(ts), 1)) > 0
  {
    ExampleScans(ts);
    ExampleHasOne(ts);
    ScanOfRender(ts);
    TailScans(ts[2..]);
    SpliceWritesSpan(ts, 1);
  }

  lemma {:induction false} ExampleHasOne(ts: seq<Token>)
    requires ts == [Char('!'), Image(['!', '[', 'a', ']', '(', 'b', ')']), Char('('), Char('c'), Char(')')]
    ensures |Spans(ts)| == 1
  {
    var a, b, c, d := ts[1..], ts[2..], ts[3..], ts[4..];
    assert a[1..] == b && b[1..] == c && c[1..] == d && d[1..] == [];
    assert Spans(d) == [];
    assert Spans(c) == [];
    assert Spans(b) == [];
    assert |Spans(a)| == 1;
  }

  lemma {:induction false} ExampleScans(ts: seq<Token>)
    requires ts == [Char('!'), Image(['!', '[', 'a', ']', '(', 'b', ')']), Char('('), Char('c'), Char(')')]
    ensures Scanned(ts)
  {
    SpanOf('a', 'b');
    TailScans(ts[2..]);
    assert ts[1..][1..] == ts[2..];
    assert Render(ts[1..])[0] == '!';
    assert Render(ts)[1] == '!';
  }

  lemma {:induction false} TailScans(tail: seq<Token>)
    requires tail == [Char('('), Char('c'), Char(')')]
    ensures Scanned(tail) && Render(tail) == "(c)" && Completes("(c)")
  {
    assert tail[1..] == [Char('c'), Char(')')] && tail[1..][1..] == [Char(')')] && [Char(')')][1..] == [];
    assert Render([Char(')')]) == ")" && Render(tail[1..]) == "c)";
    assert Scanned([Char(')')]) && Scanned(tail[1..]);
    assert "(c)"[2] == ')';
  }

  lemma {:induction false} UrlOfSeven(u: string)
    requires u == ['!', '[', 'x', ']', '(', 'y', ')']
    ensures UrlLen(u) == 7
  {
    var a, b, c := u[1..], u[2..], u[3..];
    var d, e, f := u[4..], u[5..], u[6..];
    assert a[1..] == b && b[1..] == c && c[1..] == d && d[1..] == e && e[1..] == f && f == [')'];
    assert UrlLen(f) == 1 && UrlLen(e) == 2 && UrlLen(d) == 3 && UrlLen(c) == 4;
    assert UrlLen(b) == 5 && UrlLen(a) == 6;
  }

  lemma {:induction false} SwallowScans(s: string, rest: string)
    requires rest == ['('] + ['!', '[', 'x', ']', '(', 'y', ')'] && s == ['!'] + (IMAGE_PLACEHOLDER + rest)
    ensures CountImages(s) == 1 && Tokens(s) == [Image(s)]
  {
    var c := [']'] + rest;
    var b := ['片'] + c;
    var w := ['图'] + b;
    assert c[2..] == ['!', '[', 'x', ']', '(', 'y', ')'];
    UrlOfSeven(c[2..]);
    assert AltLen(c) == 9;
    assert b[1..] == c && AltLen(b) == 10;
    assert w[1..] == b && AltLen(w) == 11;
    assert s[2..] == w && s[0] == '!' && s[1] == '[';
    assert SpanLen(s) == 13 == |s|;
    assert s[..13] == s && s[13..] == "";
    assert Tokens(s) == [Image(s)] + Tokens(s[13..]) == [Image(s)];
    var ts := [Image(s)];
    assert ts[1..] == [];
    assert Spans(ts) == [s] + Spans(ts[1..]) == [s];
  }

  lemma {:induction false} SwallowTokens(ts: seq<Token>, x: string)
    requires x == ['!', '[', 'x', ']', '(', 'y', ')']
    requires ts == [Char('!'), Image(['!', '[', 'a', ']', '(', 'b', ')']), Char('('), Image(x)]
    ensures Scanned(ts) && |Spans(ts)| == 2 && Render(ts[2..]) == ['('] + x
  {
    SpanOf('a', 'b');
    SpanOf('x', 'y');
    var a, b, c := ts[1..], ts[2..], ts[3..];
    assert a[1..] == b && b[1..] == c && c[1..] == [];
    assert Render(c) == x + Render([]) == x;
    assert Scanned([]) && Spans([]) == [];
    assert Scanned(c) && Spans(c) == [x] + Spans(c[1..]);
    assert Render(b) == ['('] + x && Render(b)[0] == '(';
    assert Scanned(b) && Spans(b) == [] + Spans(c);
    assert Scanned(a) && |Spans(a)| == 1 + |Spans(b)|;
    assert Render(a)[0] == '!' && Render(ts)[1] == '!';
  }

  /** A new span can swallow a kept image, so that a text that is not splice-free may still meet its
      budget: with one of the two images of `!![a](b)(![x](y)` to replace, one span is left. */
  lemma {:induction false} SwallowExample(ts: seq<Token>)
    requires ts == [Char('!'), Image(['!', '[', 'a', ']', '(', 'b', ')']), Char('('),
                    Image(['!', '[', 'x', ']', '(', 'y', ')'])]
    ensures Scanned(ts) && !SpliceFree(ts, 1)
    ensures CountImages(Render(ts)) == 2 && CountImages(Sub(Render(ts), 1)) == 1
  {
    var rest := ['('] + ['!', '[', 'x', ']', '(', 'y', ')'];
    SwallowTokens(ts, ['!', '[', 'x', ']', '(', 'y', ')']);
    ScanOfRender(ts);
    assert rest[7] == ')' && Completes(rest);
    assert ReplaceFirst(ts[1..], 1) == PLACEHOLDER_TOKENS + ReplaceFirst(ts[1..][1..], 0) && ts[1..][1..] == ts[2..];
    RenderConcat(PLACEHOLDER_TOKENS, ts[2..]);
    PlaceholderText();
    var r := ReplaceFirst(ts, 1);
    assert r[1..] == PLACEHOLDER_TOKENS + ts[2..];
    assert Render(r) == ['!'] + (IMAGE_PLACEHOLDER + rest);
    SwallowScans(Render(r), rest);
    assert Spans([Image(Render(r))]) == [Render(r)] + Spans([Image(Render(r))][1..]);
  }
}
