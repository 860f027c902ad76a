/**
 The wire form of one entry in terms of the entry, and what of the wire survives being read.
*/
module WireLaws {
  import opened Prelude
  import opened Transcript
  import opened Images
  import opened ImageLaws
  import opened Wire

  /* ---- A text with images ------------------------------------------------------------ */

  /** Pieces of text and images by turns; an empty piece is left out. */
  function ByTurns(gaps: seq<string>, urls: seq<string>): seq<Part>
    requires |gaps| == |urls| + 1
  {
    (if gaps[0] == "" then [] else [TextPart(gaps[0])])
    + (if urls == [] then [] else [ImagePart(urls[0])] + ByTurns(gaps[1..], urls[1..]))
  }

  lemma {:induction false} UrlsFit(spans: seq<string>)
    ensures |SpanUrls(spans)| == |spans|
  {
    if spans != [] { UrlsFit(spans[1..]); }
  }

  /** The text still to be written joins the first piece. */
  function Joined(text: string, gaps: seq<string>): seq<string>
    requires gaps != []
  {
    [text + gaps[0]] + gaps[1..]
  }

  lemma {:induction false} PartsByTurns(ts: seq<Token>, text: string)
    ensures |Gaps(ts)| == |SpanUrls(Spans(ts))| + 1
    ensures Parts(ts, text) == ByTurns(Joined(text, Gaps(ts)), SpanUrls(Spans(ts)))
  {
    GapsFit(ts);
    UrlsFit(Spans(ts));
    var gaps := Gaps(ts);
    if ts == [] {
      assert text + "" == text;
    } else if ts[0].Image? {
      PartsByTurns(ts[1..], "");
      SpanUrlsHead(ts);
      PiecesAtImage(text, UrlOf(ts[0].span), Gaps(ts[1..]), SpanUrls(Spans(ts[1..])), gaps, SpanUrls(Spans(ts)));
    } else {
      PartsByTurns(ts[1..], text + [ts[0].c]);
      assert Spans(ts) == Spans(ts[1..]);
      assert (text + [ts[0].c]) + Gaps(ts[1..])[0] == text + gaps[0];
      assert Joined(text + [ts[0].c], Gaps(ts[1..])) == Joined(text, gaps);
    }
  }

  lemma {:induction false} PiecesAtImage(
    text: string, url: string, rest: seq<string>, urls: seq<string>, gaps: seq<string>, all: seq<string>)
    requires |rest| == |urls| + 1 && gaps == [""] + rest && all == [url] + urls
    ensures ByTurns(Joined(text, gaps), all) == Flush(text) + [ImagePart(url)] + ByTurns(Joined("", rest), urls)
  {
    assert Joined(text, gaps)[1..] == rest && text + "" == text && all[1..] == urls;
    assert Joined("", rest) == rest by { assert "" + rest[0] == rest[0]; }
  }

  lemma {:induction false} UrlBehind(alt: string, url: string)
    requires ']' !in alt
    ensures UrlOf(alt + ("](" + (url + ")"))) == url
  {
    var s := alt + ("](" + (url + ")"));
    if alt == "" {
      assert s == "](" + (url + ")") && s[2..|s| - 1] == url;
    } else {
      UrlBehind(alt[1..], url);
      assert s[1..] == alt[1..] + ("](" + (url + ")")) && s[0] == alt[0];
    }
  }

  /** The url of a span is the one it was written with. */
  lemma {:induction false} UrlIs(alt: string, url: string)
    requires ']' !in alt
    ensures UrlOf(SpanFor(alt, url)) == url
  {
    var s := SpanFor(alt, url);
    SpanSplits(alt, url);
    var rest := alt + ("](" + (url + ")"));
    assert s[1..][1..] == rest && s[0] == '!' && s[1..][0] == '[';
    UrlBehind(alt, url);
  }

  /** A user text without an image goes out as it stands; one with images goes out as its pieces of text
      and its images by turns. */
  lemma {:induction false} UserOnWire(codec: JsonCodec, m: Entry, text: string)
    requires m.role == User && text == TextOr(m.content)
    ensures var ts, w := Tokens(text), ToWire(codec, m);
            && |Gaps(ts)| == |SpanUrls(Spans(ts))| + 1
            && w.content == Some(if Spans(ts) == [] then Plain(text)
                                 else Multimodal(ByTurns(Gaps(ts), SpanUrls(Spans(ts)))))
            && w.role == User && w.calls == [] && w.toolCallId.None? && w.name.None?
  {
    var ts := Tokens(text);
    PartsByTurns(ts, "");
    assert "" + Gaps(ts)[0] == Gaps(ts)[0];
    assert Joined("", Gaps(ts)) == Gaps(ts);
  }

  /* ---- A call ------------------------------------------------------------------------- */

  /** A call goes out under its id and name; its arguments read back as they are, and a raw text goes out
      as it stands. */
  lemma {:induction false} CallOnWire(codec: JsonCodec, c: ToolCall)
    requires Lawful(codec)
    ensures var w := ToCall(codec, c);
            && w.id == c.id && w.name == c.name && w.arguments.Some?
            && (c.raw.None? ==> codec.loads(w.arguments.value) == Some(Object(c.arguments)))
            && (c.raw.Some? && c.raw.value.RawText? ==> w.arguments.value == c.raw.value.text)
            && (c.raw.Some? && c.raw.value.RawValue? ==> codec.loads(w.arguments.value) == Some(c.raw.value.value))
  {
    assert codec.loads(codec.dumps(Object(c.arguments))) == Some(Object(c.arguments));
    if c.raw.Some? && c.raw.value.RawValue? {
      assert codec.loads(codec.dumps(c.raw.value.value)) == Some(c.raw.value.value);
    }
  }

  /** The arguments are a text that is no JSON object, or an object as it is printed. */
  predicate Printed(codec: JsonCodec, w: WireCall) {
    && w.arguments.Some?
    && var j := codec.loads(w.arguments.value);
       j.Some? && j.value.Object? ==> codec.dumps(j.value) == w.arguments.value
  }

  /** A call that is read and sent again is the same exactly if its arguments are there, and printed as
      they would be if they are an object; absent arguments read as an empty object does. */
  lemma {:induction false} WireCallStaysIff(codec: JsonCodec, w: WireCall)
    ensures ToCall(codec, FromCall(codec, w)) == w <==> Printed(codec, w)
    ensures Lawful(codec) && w.arguments.None? ==>
              FromCall(codec, w) == FromCall(codec, w.(arguments := Some(codec.dumps(Object(map[])))))
  {
    if Lawful(codec) { assert codec.loads(codec.dumps(Object(map[]))) == Some(Object(map[])); }
  }

  lemma {:induction false} WireCallsStayIff(codec: JsonCodec, ws: seq<WireCall>)
    ensures ToCalls(codec, FromCalls(codec, ws)) == ws <==> forall i :: 0 <= i < |ws| ==> Printed(codec, ws[i])
  {
    var back := ToCalls(codec, FromCalls(codec, ws));
    forall i | 0 <= i < |ws| ensures back[i] == ws[i] <==> Printed(codec, ws[i]) {
      WireCallStaysIff(codec, ws[i]);
    }
    assert back == ws <==> forall i :: 0 <= i < |ws| ==> back[i] == ws[i];
  }

  /** Only an assistant entry has calls, and only a tool entry an id and a name. */
  predicate Shaped(w: WireEntry) {
    && (w.role != Assistant ==> w.calls == [])
    && (w.role != Tool ==> w.toolCallId.None? && w.name.None?)
  }

  /** Which entries stay the same on the wire when they are read and sent again. */
  predicate Stays(codec: JsonCodec, w: WireEntry) {
    match w.role
    case User => w.content.Some? && w.content.value.Plain? && Spans(Tokens(w.content.value.text)) == []
    case Assistant =>
      && (w.content.Some? ==> w.content.value.Plain?)
      && forall i :: 0 <= i < |w.calls| ==> Printed(codec, w.calls[i])
    case _ => w.content.Some? && w.content.value.Plain?
  }

  lemma {:induction false} UserStaysIff(codec: JsonCodec, w: WireEntry)
    requires w.role == User && Shaped(w)
    ensures ToWire(codec, FromWire(codec, w)) == w <==> Stays(codec, w)
  {
    var text := TextOr(WireText(w.content));
    if w.content.Some? && w.content.value.Multimodal? {
      var parts := w.content.value.parts;
      assert text == JoinTexts(parts);
      if CountImages(text) > 0 {
        ScanRoundTrip(text);
        PartsKeepText(Tokens(text), "");
        ImagesCostText(Tokens(text));
        assert "" + PlainText(Tokens(text)) == PlainText(Tokens(text));
        assert |JoinTexts(Parts(Tokens(text), ""))| < |text|;
      }
    }
  }

  /** An entry that is read and sent again is the same on the wire exactly if its content is plain text,
      free of images if it is a user's, and its calls stay the same. */
  lemma {:induction false} WireStaysIff(codec: JsonCodec, w: WireEntry)
    requires Shaped(w)
    ensures ToWire(codec, FromWire(codec, w)) == w <==> Stays(codec, w)
  {
    match w.role
    case User => UserStaysIff(codec, w);
    case Assistant => WireCallsStayIff(codec, w.calls);
    case _ =>
  }
}
