/**
 The terminal tools of `pretender/tools/core.py` and `pretender/tools/media.py`: what the calls of one
 round stage in the tool context, and the verdict the planner reads from it.
*/
module Staging {
  import opened Prelude
  import opened Planner

  const MEDIA_REPLY_MARKER: string := ['\U{0}'] + "media"

  /** A call of a terminal tool with its arguments as given: a value of the wrong type is absent. A
      media send names an asset that is approved and of the right kind, or it is refused. */
  datatype Call =
    | ToReply(text: Option<string>)
    | ToWait(seconds: Option<real>)
    | ToRefuse(reasonOk: bool)
    | ToSendMedia(approved: bool)

  datatype Staged = Staged(reply: Option<string>, wait: Option<real>, noAction: bool, media: bool)

  function Nothing(): Staged { Staged(None, None, false, false) }

  function VerdictOf(s: Staged): Verdict { Verdict(s.reply, s.wait, s.noAction) }

  /** The context of one round. Every handler stages its intent, or raises and stages nothing. */
  class ToolContext {
    const maxWait: real
    const blank: string -> bool
    var staged: Staged

    constructor (maxWait: real, blank: string -> bool)
      ensures this.maxWait == maxWait && this.blank == blank && staged == Nothing()
    {
      this.maxWait, this.blank, staged := maxWait, blank, Nothing();
    }

    method Reply(text: Option<string>) returns (ok: bool)
      modifies this
      ensures ok == Accepts(maxWait, blank, old(staged), ToReply(text))
      ensures staged == Stage(maxWait, blank, old(staged), ToReply(text))
    {
      if text.None? || blank(text.value) || staged.media { return false; }
      staged := staged.(reply := text);
      staged := staged.(wait := None, noAction := false);
      ok := true;
    }

    method Wait(seconds: Option<real>) returns (ok: bool)
      modifies this
      ensures ok == Accepts(maxWait, blank, old(staged), ToWait(seconds))
      ensures staged == Stage(maxWait, blank, old(staged), ToWait(seconds))
    {
      if seconds.None? || seconds.value <= 0.0 || seconds.value > maxWait { return false; }
      if staged.media { return false; }
      staged := staged.(wait := seconds);
      staged := staged.(reply := None, noAction := false);
      ok := true;
    }

    method Refuse(reasonOk: bool) returns (ok: bool)
      modifies this
      ensures ok == Accepts(maxWait, blank, old(staged), ToRefuse(reasonOk))
      ensures staged == Stage(maxWait, blank, old(staged), ToRefuse(reasonOk))
    {
      if !reasonOk || staged.media { return false; }
      staged := staged.(noAction := true);
      staged := staged.(reply := None, wait := None);
      ok := true;
    }

    method SendMedia(approved: bool) returns (ok: bool)
      modifies this
      ensures ok == Accepts(maxWait, blank, old(staged), ToSendMedia(approved))
      ensures staged == Stage(maxWait, blank, old(staged), ToSendMedia(approved))
    {
      if staged.reply.Some? || staged.wait.Some? || staged.noAction { return false; }
      if staged.media || !approved { return false; }
      staged := staged.(media := true);
      staged := staged.(reply := Some(MEDIA_REPLY_MARKER));
      ok := true;
    }

    /** The calls of one round, in dispatch order; a refused call changes nothing. */
    method StageRound(calls: seq<Call>)
      modifies this
      ensures staged == StageAll(maxWait, blank, old(staged), calls)
    {
      for k := 0 to |calls|
        invariant staged == StageAll(maxWait, blank, old(staged), calls[..k])
      {
        assert calls[..k + 1][..k] == calls[..k];
        match calls[k] {
          case ToReply(text) => var ok := Reply(text);
          case ToWait(seconds) => var ok := Wait(seconds);
          case ToRefuse(reasonOk) => var ok := Refuse(reasonOk);
          case ToSendMedia(approved) => var ok := SendMedia(approved);
        }
      }
      assert calls[..|calls|] == calls;
    }
  }

  /** The arguments alone: would the call be staged in an empty context? */
  predicate Valid(maxWait: real, blank: string -> bool, c: Call) {
    match c
    case ToReply(text) => text.Some? && !blank(text.value)
    case ToWait(seconds) => seconds.Some? && 0.0 < seconds.value <= maxWait
    case ToRefuse(reasonOk) => reasonOk
    case ToSendMedia(approved) => approved
  }

  predicate Accepts(maxWait: real, blank: string -> bool, s: Staged, c: Call) {
    && Valid(maxWait, blank, c)
    && !s.media
    && (c.ToSendMedia? ==> s.reply.None? && s.wait.None? && !s.noAction)
  }

  function Stage(maxWait: real, blank: string -> bool, s: Staged, c: Call): Staged {
    if !Accepts(maxWait, blank, s, c) then s
    else
      match c
      case ToReply(text) => Staged(text, None, false, false)
      case ToWait(seconds) => Staged(None, seconds, false, false)
      case ToRefuse(_) => Staged(None, None, true, false)
      case ToSendMedia(_) => Staged(Some(MEDIA_REPLY_MARKER), None, false, true)
  }

  function StageAll(maxWait: real, blank: string -> bool, s: Staged, calls: seq<Call>): Staged {
    if calls == [] then s
    else Stage(maxWait, blank, StageAll(maxWait, blank, s, calls[..|calls| - 1]), calls[|calls| - 1])
  }

  /* ---- Which call decides ------------------------------------------------------------ */

  function FirstValid(maxWait: real, blank: string -> bool, calls: seq<Call>): Option<Call> {
    if calls == [] then None
    else
      var first := FirstValid(maxWait, blank, calls[..|calls| - 1]);
      var c := calls[|calls| - 1];
      if first.Some? then first else if Valid(maxWait, blank, c) then Some(c) else None
  }

  function LastValidText(maxWait: real, blank: string -> bool, calls: seq<Call>): Option<Call> {
    if calls == [] then None
    else
      var c := calls[|calls| - 1];
      if Valid(maxWait, blank, c) && !c.ToSendMedia? then Some(c)
      else LastValidText(maxWait, blank, calls[..|calls| - 1])
  }

  function Decide(first: Option<Call>, last: Option<Call>): Option<Call> {
    if first.Some? && first.value.ToSendMedia? then first else last
  }

  /** The call that decides a round: a media send if it is the first valid call, and otherwise the last
      valid call that is not one. */
  function Deciding(maxWait: real, blank: string -> bool, calls: seq<Call>): Option<Call> {
    Decide(FirstValid(maxWait, blank, calls), LastValidText(maxWait, blank, calls))
  }

  function EndFor(c: Call): End {
    match c
    case ToReply(text) => Reply(if text.Some? then text.value else "")
    case ToWait(seconds) => Wait(if seconds.Some? then seconds.value else 0.0)
    case ToRefuse(_) => NoAction
    case ToSendMedia(_) => Reply(MEDIA_REPLY_MARKER)
  }

  function Alone(c: Call): Staged {
    match c
    case ToReply(text) => Staged(text, None, false, false)
    case ToWait(seconds) => Staged(None, seconds, false, false)
    case ToRefuse(_) => Staged(None, None, true, false)
    case ToSendMedia(_) => Staged(Some(MEDIA_REPLY_MARKER), None, false, true)
  }

  /** What the context holds after a round: the intent of the deciding call and no other. */
  ghost predicate Holds(maxWait: real, blank: string -> bool, s: Staged, first: Option<Call>, last: Option<Call>) {
    var d := Decide(first, last);
    && (first.Some? <==> d.Some?) && (last.Some? ==> first.Some? && !last.value.ToSendMedia?)
    && (d.None? ==> s == Nothing())
    && (d.Some? ==> s == Alone(d.value) && Valid(maxWait, blank, d.value))
  }

  lemma {:induction false} HoldsStep(
    maxWait: real, blank: string -> bool, s: Staged, first: Option<Call>, last: Option<Call>, c: Call)
    requires Holds(maxWait, blank, s, first, last)
    ensures
      var valid := Valid(maxWait, blank, c);
      Holds(maxWait, blank, Stage(maxWait, blank, s, c),
            if first.Some? then first else if valid then Some(c) else None,
            if valid && !c.ToSendMedia? then Some(c) else last)
  {
    var d := Decide(first, last);
    if d.Some? { match d.value { case _ => } }
  }

  lemma {:induction false} ContextHoldsDeciding(maxWait: real, blank: string -> bool, calls: seq<Call>)
    ensures Holds(maxWait, blank, StageAll(maxWait, blank, Nothing(), calls),
                  FirstValid(maxWait, blank, calls), LastValidText(maxWait, blank, calls))
  {
    if calls != [] {
      var front, c := calls[..|calls| - 1], calls[|calls| - 1];
      ContextHoldsDeciding(maxWait, blank, front);
      var first, last := FirstValid(maxWait, blank, front), LastValidText(maxWait, blank, front);
      HoldsStep(maxWait, blank, StageAll(maxWait, blank, Nothing(), front), first, last, c);
    }
  }

  /** The verdict of a round: a media send that comes first ends it as a reply; otherwise the last
      valid reply, wait or refusal ends it, whatever was staged before. With none the context is still
      empty, and only a response without calls ends the round. */
  lemma {:induction false} LastIntentDecides(maxWait: real, blank: string -> bool, calls: seq<Call>, r: Round)
    ensures
      var staged := StageAll(maxWait, blank, Nothing(), calls);
      var end := EndOf(VerdictOf(staged), r);
      var d := Deciding(maxWait, blank, calls);
      && (d.Some? ==> end == Some(EndFor(d.value)))
      && (d.None? ==> staged == Nothing() && (end.Some? <==> r.calls == []))
  {
    ContextHoldsDeciding(maxWait, blank, calls);
    VerdictOrder(VerdictOf(StageAll(maxWait, blank, Nothing(), calls)), r);
  }

  /** A reply that is not blank, a wait within the bounds, a refusal with its reason and a media send that is
      approved end a round as asked; nothing else ends one that has calls. */
  predicate EndsAsAsked(maxWait: real, blank: string -> bool, c: Call, end: Option<End>) {
    match c
    case ToReply(text) =>
      end == if text.Some? && !blank(text.value) then Some(Reply(text.value)) else None
    case ToWait(s) =>
      end == if s.Some? && 0.0 < s.value && s.value <= maxWait then Some(Wait(s.value)) else None
    case ToRefuse(ok) => end == if ok then Some(NoAction) else None
    case ToSendMedia(approved) => end == if approved then Some(Reply(MEDIA_REPLY_MARKER)) else None
  }

  /** A round of one call. */
  lemma {:induction false} LoneCallDecides(maxWait: real, blank: string -> bool, c: Call, r: Round)
    requires r.calls != []
    ensures EndsAsAsked(maxWait, blank, c, EndOf(VerdictOf(StageAll(maxWait, blank, Nothing(), [c])), r))
  {
    var calls := [c];
    assert calls[..|calls| - 1] == [] && calls[|calls| - 1] == c;
    assert StageAll(maxWait, blank, Nothing(), calls) == Stage(maxWait, blank, Nothing(), c);
  }
}
