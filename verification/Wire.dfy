/**
 The provider wire form of `pretender/context.py`: `serialize`, `deserialize` and the multimodal
 split of a text. JSON printing and parsing are a parameter; all that is used of it is that
 printing is undone by parsing.
*/
module Wire {
  import opened Prelude
  import opened Transcript
  import opened Normalizer
  import opened Images

  datatype JsonCodec = JsonCodec(dumps: Json -> string, loads: string -> Option<Json>)

  ghost predicate Lawful(c: JsonCodec) { forall j :: c.loads(c.dumps(j)) == Some(j) }

  datatype Part = TextPart(text: string) | ImagePart(url: string)

  datatype WireContent = Plain(text: string) | Multimodal(parts: seq<Part>)

  datatype WireCall = WireCall(id: string, name: string, arguments: Option<string>)

  datatype WireEntry = WireEntry(
    role: Role, content: Option<WireContent>, calls: seq<WireCall>, toolCallId: Option<string>, name: Option<string>)

  /* ---- Multimodal parts ------------------------------------------------------------ */

  /** The url of a span: what stands between the first `](` and the closing parenthesis. */
  function UrlOf(span: string): string {
    if |span| < 3 then ""
    else if span[0] == ']' then span[2..|span| - 1]
    else UrlOf(span[1..])
  }

  function Flush(text: string): seq<Part> { if text == "" then [] else [TextPart(text)] }

  function Parts(ts: seq<Token>, text: string): seq<Part> {
    if ts == [] then Flush(text)
    else if ts[0].Image? then Flush(text) + [ImagePart(UrlOf(ts[0].span))] + Parts(ts[1..], "")
    else Parts(ts[1..], text + [ts[0].c])
  }

  function JoinTexts(parts: seq<Part>): string {
    if parts == [] then ""
    else (if parts[0].TextPart? then parts[0].text else "") + JoinTexts(parts[1..])
  }

  /** The ordinary text of a token list: everything outside the image spans. */
  function PlainText(ts: seq<Token>): string {
    if ts == [] then "" else (if ts[0].Char? then [ts[0].c] else "") + PlainText(ts[1..])
  }

  function Urls(parts: seq<Part>): seq<string> {
    if parts == [] then [] else (if parts[0].ImagePart? then [parts[0].url] else []) + Urls(parts[1..])
  }

  function SpanUrls(spans: seq<string>): seq<string> {
    if spans == [] then [] else [UrlOf(spans[0])] + SpanUrls(spans[1..])
  }

  lemma {:induction false} JoinTextsOfFlush(text: string, rest: seq<Part>)
    ensures JoinTexts(Flush(text) + rest) == text + JoinTexts(rest)
  {
    var x := Flush(text) + rest;
    if text == "" {
      assert x == rest;
    } else {
      assert x[0] == TextPart(text) && x[1..] == rest;
    }
  }

  lemma {:induction false} UrlsOfFlush(text: string, rest: seq<Part>)
    ensures Urls(Flush(text) + rest) == Urls(rest)
  {
    var x := Flush(text) + rest;
    if text == "" {
      assert x == rest;
    } else {
      assert x[0] == TextPart(text) && x[1..] == rest;
    }
  }

  /** At an image, the pending text is flushed in front of it. */
  lemma {:induction false} PartsAtImage(ts: seq<Token>, text: string, tail: seq<Part>) returns (rest: seq<Part>)
    requires ts != [] && ts[0].Image? && tail == Parts(ts[1..], "")
    ensures Parts(ts, text) == Flush(text) + rest
    ensures rest != [] && rest[0] == ImagePart(UrlOf(ts[0].span)) && rest[1..] == tail
  {
    rest := [ImagePart(UrlOf(ts[0].span))] + tail;
    assert Flush(text) + [ImagePart(UrlOf(ts[0].span))] + tail == Flush(text) + rest;
  }

  lemma {:induction false} Regroup<T>(a: seq<T>, b: seq<T>, c: seq<T>)
    ensures (a + b) + c == a + (b + c)
  {
  }

  lemma {:induction false} PlainHead(ts: seq<Token>)
    requires ts != []
    ensures ts[0].Char? ==> PlainText(ts) == [ts[0].c] + PlainText(ts[1..])
    ensures ts[0].Image? ==> PlainText(ts) == PlainText(ts[1..])
  {
    assert ts[0].Image? ==> PlainText(ts) == "" + PlainText(ts[1..]);
  }

  /** The split keeps the ordinary text verbatim. */
  lemma {:induction false} PartsKeepText(ts: seq<Token>, text: string)
    ensures JoinTexts(Parts(ts, text)) == text + PlainText(ts)
  {
    if ts == [] {
      JoinTextsOfFlush(text, []);
      assert Flush(text) + [] == Flush(text);
    } else if ts[0].Image? {
      PartsKeepText(ts[1..], "");
      var rest := PartsAtImage(ts, text, Parts(ts[1..], ""));
      JoinTextsOfFlush(text, rest);
      PlainHead(ts);
      Regroup("", "", PlainText(ts[1..]));
      assert JoinTexts(rest) == "" + JoinTexts(rest[1..]);
    } else {
      PartsKeepText(ts[1..], text + [ts[0].c]);
      PlainHead(ts);
      Regroup(text, [ts[0].c], PlainText(ts[1..]));
    }
  }

  lemma {:induction false} SpanUrlsHead(ts: seq<Token>)
    requires ts != [] && ts[0].Image?
    ensures SpanUrls(Spans(ts)) == [UrlOf(ts[0].span)] + SpanUrls(Spans(ts[1..]))
  {
    var s := Spans(ts);
    assert s == [ts[0].span] + Spans(ts[1..]);
    assert s[0] == ts[0].span && s[1..] == Spans(ts[1..]);
  }

  /** The split keeps the images, in order. */
  lemma {:induction false} PartsKeepImages(ts: seq<Token>, text: string)
    ensures Urls(Parts(ts, text)) == SpanUrls(Spans(ts))
  {
    if ts == [] {
      UrlsOfFlush(text, []);
      assert Flush(text) + [] == Flush(text);
    } else if ts[0].Image? {
      PartsKeepImages(ts[1..], "");
      var rest := PartsAtImage(ts, text, Parts(ts[1..], ""));
      UrlsOfFlush(text, rest);
      SpanUrlsHead(ts);
      assert Urls(rest) == [rest[0].url] + Urls(rest[1..]);
    } else {
      PartsKeepImages(ts[1..], text + [ts[0].c]);
      assert Spans(ts) == Spans(ts[1..]);
    }
  }

  lemma {:induction false} ImagesCostText(ts: seq<Token>)
    requires Scanned(ts)
    ensures |PlainText(ts)| + |Spans(ts)| <= |Render(ts)|
  {
    if ts != [] { ImagesCostText(ts[1..]); }
  }

  /* ---- To the wire ------------------------------------------------------------------- */

  function WireArguments(codec: JsonCodec, c: ToolCall): string {
    match c.raw
    case Some(RawText(s)) => s
    case Some(RawValue(j)) => codec.dumps(j)
    case None => codec.dumps(Object(c.arguments))
  }

  function ToCall(codec: JsonCodec, c: ToolCall): WireCall {
    WireCall(c.id, c.name, Some(WireArguments(codec, c)))
  }

  function ToCalls(codec: JsonCodec, calls: seq<ToolCall>): seq<WireCall> {
    seq(|calls|, i requires 0 <= i < |calls| => ToCall(codec, calls[i]))
  }

  function TextOr(content: Option<string>): string { if content.Some? then content.value else "" }

  function ToWire(codec: JsonCodec, m: Entry): WireEntry {
    match m.role
    case System => WireEntry(System, Some(Plain(TextOr(m.content))), [], None, None)
    case User =>
      var text := TextOr(m.content);
      var body := if CountImages(text) > 0 then Multimodal(Parts(Tokens(text), "")) else Plain(text);
      WireEntry(User, Some(body), [], None, None)
    case Assistant =>
      WireEntry(Assistant, if m.content.Some? then Some(Plain(m.content.value)) else None,
                ToCalls(codec, m.toolCalls), None, None)
    case Tool => WireEntry(Tool, Some(Plain(TextOr(m.content))), [], m.toolCallId, m.name)
  }

  function ToWires(codec: JsonCodec, ms: seq<Entry>): seq<WireEntry> {
    seq(|ms|, i requires 0 <= i < |ms| => ToWire(codec, ms[i]))
  }

  function Serialize(codec: JsonCodec, ms: seq<Entry>): Result<seq<WireEntry>, string> {
    var m := Normalize(ms);
    if Canonical(m) then Ok(ToWires(codec, m)) else Err("malformed tool turn")
  }

  /* ---- From the wire ----------------------------------------------------------------- */

  function FromCall(codec: JsonCodec, c: WireCall): ToolCall {
    if c.arguments.None? then ToolCall(c.id, c.name, map[], None)
    else
      match codec.loads(c.arguments.value)
      case Some(Object(members)) => ToolCall(c.id, c.name, members, None)
      case _ => ToolCall(c.id, c.name, map[], Some(RawText(c.arguments.value)))
  }

  function FromCalls(codec: JsonCodec, calls: seq<WireCall>): seq<ToolCall> {
    seq(|calls|, i requires 0 <= i < |calls| => FromCall(codec, calls[i]))
  }

  function WireText(content: Option<WireContent>): Option<string> {
    match content
    case None => None
    case Some(Plain(text)) => Some(text)
    case Some(Multimodal(parts)) =>
      var text := JoinTexts(parts);
      if text == "" then None else Some(text)
  }

  function FromWire(codec: JsonCodec, w: WireEntry): Entry {
    match w.role
    case System => Entry(System, WireText(w.content), [], None, None)
    case User => Entry(User, WireText(w.content), [], None, None)
    case Assistant => Entry(Assistant, WireText(w.content), FromCalls(codec, w.calls), None, None)
    case Tool => Entry(Tool, WireText(w.content), [], w.toolCallId, w.name)
  }

  function FromWires(codec: JsonCodec, ws: seq<WireEntry>): seq<Entry> {
    seq(|ws|, i requires 0 <= i < |ws| => FromWire(codec, ws[i]))
  }

  /** Every entry is checked on construction, then the sequence is validated. */
  function Deserialize(codec: JsonCodec, ws: seq<WireEntry>): Result<seq<Entry>, string> {
    var ms := FromWires(codec, ws);
    if !AllValid(ms) then Err("invalid entry")
    else if !Canonical(ms) then Err("malformed tool turn")
    else Ok(ms)
  }

  /* ---- The round trip ---------------------------------------------------------------- */

  /** A call survives the wire: clean arguments, or a raw text that is no JSON object. */
  predicate CallSurvives(codec: JsonCodec, c: ToolCall) {
    match c.raw
    case None => true
    case Some(RawText(s)) =>
      var j := codec.loads(s);
      c.arguments == map[] && !(j.Some? && j.value.Object?)
    case Some(RawValue(_)) => false
  }

  predicate Survives(codec: JsonCodec, m: Entry) {
    match m.role
    case System => m.content.Some?
    case User => m.content.Some? && CountImages(m.content.value) == 0
    case Assistant => forall i :: 0 <= i < |m.toolCalls| ==> CallSurvives(codec, m.toolCalls[i])
    case Tool => m.content.Some?
  }

  lemma {:induction false} CallRoundTripIff(codec: JsonCodec, c: ToolCall)
    requires Lawful(codec)
    ensures FromCall(codec, ToCall(codec, c)) == c <==> CallSurvives(codec, c)
  {
    assert codec.loads(codec.dumps(Object(c.arguments))) == Some(Object(c.arguments));
    if c.raw.Some? && c.raw.value.RawValue? {
      assert codec.loads(codec.dumps(c.raw.value.value)) == Some(c.raw.value.value);
    }
  }

  lemma {:induction false} CallsRoundTripIff(codec: JsonCodec, calls: seq<ToolCall>)
    requires Lawful(codec)
    ensures FromCalls(codec, ToCalls(codec, calls)) == calls
            <==> forall i :: 0 <= i < |calls| ==> CallSurvives(codec, calls[i])
  {
    var back := FromCalls(codec, ToCalls(codec, calls));
    forall i | 0 <= i < |calls| ensures back[i] == calls[i] <==> CallSurvives(codec, calls[i]) {
      CallRoundTripIff(codec, calls[i]);
    }
    assert back == calls <==> forall i :: 0 <= i < |calls| ==> back[i] == calls[i];
  }

  lemma {:induction false} EntryRoundTripIff(codec: JsonCodec, m: Entry)
    requires Lawful(codec) && ValidEntry(m)
    ensures FromWire(codec, ToWire(codec, m)) == m <==> Survives(codec, m)
  {
    match m.role
    case System =>
    case User => UserRoundTripIff(codec, m);
    case Assistant => CallsRoundTripIff(codec, m.toolCalls);
    case Tool =>
  }

  lemma {:induction false} UserRoundTripIff(codec: JsonCodec, m: Entry)
    requires ValidEntry(m) && m.role == User
    ensures FromWire(codec, ToWire(codec, m)) == m <==> Survives(codec, m)
  {
    var text := TextOr(m.content);
    if CountImages(text) > 0 {
      ScanRoundTrip(text);
      PartsKeepText(Tokens(text), "");
      ImagesCostText(Tokens(text));
      assert "" + PlainText(Tokens(text)) == PlainText(Tokens(text));
      var back := JoinTexts(Parts(Tokens(text), ""));
      assert |back| < |text|;
      assert WireText(ToWire(codec, m).content) == if back == "" then None else Some(back);
    }
  }

  /** A transcript survives the wire exactly when every entry of its normal form does: user
      texts hold no image, system, user and tool contents are present, and each raw argument
      is absent or a text that is no JSON object. */
  lemma {:induction false} WireRoundTripIff(codec: JsonCodec, ms: seq<Entry>)
    requires Lawful(codec) && AllValid(ms)
    ensures var n := Normalize(ms);
            && Serialize(codec, ms) == Ok(ToWires(codec, n))
            && (Deserialize(codec, ToWires(codec, n)) == Ok(n) <==> forall i :: 0 <= i < |n| ==> Survives(codec, n[i]))
  {
    var n := Normalize(ms);
    NormalFormIsCanonical(ms);
    var back := FromWires(codec, ToWires(codec, n));
    forall i | 0 <= i < |n| ensures back[i] == n[i] <==> Survives(codec, n[i]) {
      assert ValidEntry(n[i]);
      EntryRoundTripIff(codec, n[i]);
    }
    assert back == n <==> forall i :: 0 <= i < |n| ==> back[i] == n[i];
  }

  /** An already canonical transcript goes to the wire unchanged and is never refused. */
  lemma {:induction false} CanonicalSerializes(codec: JsonCodec, ms: seq<Entry>)
    requires AllValid(ms) && Canonical(ms)
    ensures Serialize(codec, ms) == Ok(ToWires(codec, ms))
  {
    CanonicalIsNormal(ms);
  }
}
