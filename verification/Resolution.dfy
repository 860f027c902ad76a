/**
 What the planner makes of a response: which of its units become calls, with which names and arguments,
 and what the round answers to each of them.
*/
module Resolution {
  import opened Prelude
  import opened Transcript
  import opened Normalizer
  import opened Planner

  /* ---- From units to calls ---------------------------------------------------------------- */

  /** The id a unit names, stripped; a mapping without id and anything else name none. */
  function Key(w: World, u: Unit): Option<string> {
    match u
    case Structured(c) => Some(w.strip(c.id))
    case Mapped(id, _, _, _) => if id.Some? then Some(w.strip(id.value)) else None
    case Junk => None
  }

  predicate Names(w: World, u: Unit, id: string) { Key(w, u) == Some(id) }

  /** The unit is the first with its id, which is not empty. */
  predicate First(w: World, units: seq<Unit>, k: nat)
    requires k < |units|
  {
    && Key(w, units[k]).Some? && Key(w, units[k]).value != ""
    && forall j :: 0 <= j < k ==> !Names(w, units[j], Key(w, units[k]).value)
  }

  function FirstCount(w: World, units: seq<Unit>): nat {
    if units == [] then 0
    else
      FirstCount(w, units[..|units| - 1]) + (if First(w, units, |units| - 1) then 1 else 0)
  }

  /** The call has the unit's name and arguments. Raw arguments give way to the repaired ones; if the
      repair fails the call is `no_action` without arguments. */
  predicate Carries(w: World, u: Unit, c: ToolCall) {
    && Key(w, u) == Some(c.id) && c.raw.None?
    && match u
       case Structured(s) => Conveys(w, s.id, s.name, s.arguments, s.raw, c)
       case Mapped(id, name, arguments, raw) =>
         && id.Some?
         && Conveys(w, id.value, if name.Some? then name.value else "",
                    if arguments.Some? then arguments.value else map[], raw, c)
       case Junk => false
  }

  predicate Conveys(
    w: World, id: string, name: string, arguments: map<string, string>, raw: Option<Raw>, c: ToolCall)
  {
    if raw.None? then c.name == name && c.arguments == arguments
    else if w.repair(id, name, raw.value).Some? then
      c.name == name && c.arguments == w.repair(id, name, raw.value).value
    else c.name == "no_action" && c.arguments == map[]
  }

  /** There is one call for each unit that is the first with its id, in the order of those units, and the
      call of the unit at `k` carries what it says. */
  ghost predicate CarriesAt(w: World, units: seq<Unit>, k: nat, calls: seq<ToolCall>)
    requires k <= |units|
  {
    && |calls| == FirstCount(w, units)
    && (k < |units| && First(w, units, k) ==>
          FirstCount(w, units[..k]) < |calls| && Carries(w, units[k], calls[FirstCount(w, units[..k])]))
  }

  lemma {:induction false} CandidateCarries(w: World, u: Unit)
    ensures Candidate(w, u).Some? <==> Key(w, u).Some?
    ensures Candidate(w, u).Some? ==> Carries(w, u, Candidate(w, u).value)
  {
  }

  /** An id has a call exactly when some unit names it. */
  lemma {:induction false} IdsAreNamed(w: World, units: seq<Unit>, id: string)
    requires id != ""
    ensures HasCall(Dedup(Candidates(w, units)), id) <==> exists j :: 0 <= j < |units| && Names(w, units[j], id)
  {
    if units != [] {
      var init, u := units[..|units| - 1], units[|units| - 1];
      var before, c := Candidates(w, init), Candidate(w, u);
      IdsAreNamed(w, init, id);
      CandidateCarries(w, u);
      assert (exists j :: 0 <= j < |units| && Names(w, units[j], id)) <==>
             (exists j :: 0 <= j < |init| && Names(w, init[j], id)) || Names(w, u, id) by { SomeSnoc(w, init, u, id); }
      if c.Some? && c.value.id != "" { DedupGrows(before, c.value, id); }
    }
  }

  lemma {:induction false} SomeSnoc(w: World, init: seq<Unit>, u: Unit, id: string)
    ensures (exists j :: 0 <= j < |init + [u]| && Names(w, (init + [u])[j], id)) <==>
            (exists j :: 0 <= j < |init| && Names(w, init[j], id)) || Names(w, u, id)
  {
    var all := init + [u];
    assert all[|init|] == u;
    if j :| 0 <= j < |init| && Names(w, init[j], id) { assert all[j] == init[j]; }
    if j :| 0 <= j < |all| && Names(w, all[j], id) { assert j < |init| ==> all[j] == init[j]; }
  }

  lemma {:induction false} DedupGrows(before: seq<ToolCall>, c: ToolCall, id: string)
    ensures HasCall(Dedup(before + [c]), id) <==> HasCall(Dedup(before), id) || c.id == id
  {
    var d := Dedup(before);
    DedupSnoc(before, c);
    assert (d + [c])[|d|] == c;
    if i :| 0 <= i < |d| && d[i].id == id { assert (d + [c])[i].id == id; }
  }

  lemma {:induction false} FirstIff(w: World, units: seq<Unit>, u: Unit, c: Option<ToolCall>)
    requires c == Candidate(w, u)
    ensures First(w, units + [u], |units|) <==>
              c.Some? && c.value.id != "" && !HasCall(Dedup(Candidates(w, units)), c.value.id)
  {
    var all := units + [u];
    assert all[|units|] == u && forall j :: 0 <= j < |units| ==> all[j] == units[j];
    CandidateCarries(w, u);
    if c.Some? && c.value.id != "" { IdsAreNamed(w, units, c.value.id); }
  }

  lemma {:induction false} FirstInPrefix(w: World, units: seq<Unit>, u: Unit, k: nat)
    requires k < |units|
    ensures First(w, units + [u], k) <==> First(w, units, k)
    ensures (units + [u])[..k] == units[..k]
  {
    assert forall j :: 0 <= j <= k ==> (units + [u])[j] == units[j];
  }

  lemma {:induction false} UnitsAreCarried(w: World, units: seq<Unit>, k: nat)
    requires k <= |units|
    ensures CarriesAt(w, units, k, Dedup(Candidates(w, units)))
  {
    if units != [] {
      var init, u := units[..|units| - 1], units[|units| - 1];
      assert units == init + [u];
      UnitsAreCarried(w, init, if k < |init| then k else |init|);
      CarriedSnoc(w, init, u, k);
    }
  }

  lemma {:induction false} CarriedSnoc(w: World, init: seq<Unit>, u: Unit, k: nat)
    requires k <= |init| + 1 && CarriesAt(w, init, if k < |init| then k else |init|, Dedup(Candidates(w, init)))
    ensures CarriesAt(w, init + [u], k, Dedup(Candidates(w, init + [u])))
  {
    var units, c, d := init + [u], Candidate(w, u), Dedup(Candidates(w, init));
    assert units[..|units| - 1] == init && units[|init|] == u;
    FirstIff(w, init, u, c);
    CandidateCarries(w, u);
    if c.Some? && c.value.id != "" { DedupSnoc(Candidates(w, init), c.value); }
    if k < |init| {
      FirstInPrefix(w, init, u, k);
    } else if k == |init| {
      assert units[..k] == init;
    }
  }

  /* ---- Recovery ---------------------------------------------------------------------------- */

  /** A recovered call, as the unit it would have been: its own name, or `no_action`, and its data. */
  function AsUnit(r: Recovered): Unit {
    Structured(ToolCall(r.callId, if r.name != "" then r.name else "no_action",
                        if r.data.Some? then r.data.value else map[], None))
  }

  function AsUnits(found: seq<Recovered>): seq<Unit> {
    seq(|found|, i requires 0 <= i < |found| => AsUnit(found[i]))
  }

  lemma {:induction false} RevivalsAreCandidates(w: World, found: seq<Recovered>)
    ensures Revivals(w, found) == Candidates(w, AsUnits(found))
  {
    if found != [] {
      var n := |found| - 1;
      RevivalsAreCandidates(w, found[..n]);
      assert AsUnits(found)[..n] == AsUnits(found[..n]);
    }
  }

  /** The unit gives an id to raw arguments. */
  predicate HasRaw(u: Unit) {
    match u
    case Structured(c) => c.raw.Some?
    case Mapped(id, _, _, raw) => id.Some? && raw.Some?
    case Junk => false
  }

  ghost predicate NoneNamed(w: World, units: seq<Unit>) {
    forall k :: 0 <= k < |units| ==> !First(w, units, k)
  }

  lemma {:induction false} NoneNamedIff(w: World, units: seq<Unit>)
    ensures FirstCount(w, units) == 0 <==> NoneNamed(w, units)
  {
    if units != [] {
      var init, u := units[..|units| - 1], units[|units| - 1];
      assert units == init + [u];
      NoneNamedIff(w, init);
      forall k: nat | k < |init| ensures First(w, units, k) <==> First(w, init, k) { FirstInPrefix(w, init, u, k); }
    }
  }

  /** Resolution, unit by unit: each unit that is the first with its nonempty id gives exactly one call,
      in the order of the units, that carries its name and arguments or their repair. With no such unit
      the calls recovered from the text take their place in the same way, and without them there is no
      call. The fallback flag is set exactly on a repair or a recovery. */
  lemma {:induction false} ResolvedCarries(w: World, resp: Response, calls: seq<ToolCall>, fallback: bool, k: nat)
    requires (calls, fallback) == Resolved(w, resp)
    ensures var recovers := NoneNamed(w, resp.units) && resp.content.Some? && resp.content.value != "";
            var units := if recovers then AsUnits(w.recover(resp.content.value)) else resp.units;
            && (k <= |units| ==> CarriesAt(w, units, k, calls))
            && (fallback <==> (exists i :: 0 <= i < |resp.units| && HasRaw(resp.units[i]))
                              || (recovers && w.recover(resp.content.value) != []))
  {
    NoneNamedIff(w, resp.units);
    UnitsAreCarried(w, resp.units, if k <= |resp.units| then k else 0);
    RawIsRepair(resp.units);
    if NoneNamed(w, resp.units) && HasText(resp.content) {
      var units := AsUnits(w.recover(resp.content.value));
      RevivalsAreCandidates(w, w.recover(resp.content.value));
      UnitsAreCarried(w, units, if k <= |units| then k else 0);
    }
  }

  lemma {:induction false} RawIsRepair(units: seq<Unit>)
    ensures AnyRepair(units) <==> exists i :: 0 <= i < |units| && HasRaw(units[i])
  {
    assert forall i :: 0 <= i < |units| ==> (NeedsRepair(units[i]) <==> HasRaw(units[i]));
  }

  /* ---- The answers of a round ---------------------------------------------------------------- */

  /** What a dispatch says: the content of a success; the error of a failure, or else its content, or else
      a fixed text; and of a dispatch that raises, that it failed. */
  predicate Reports(o: Outcome, text: string) {
    match o
    case Raised(error) => text == "dispatch failed: " + error
    case Returned(r) =>
      if r.ok then text == r.content
      else if r.error.Some? && r.error.value != "" then text == r.error.value
      else text == if r.content != "" then r.content else "tool call failed"
  }

  /** The tool named by the result, or else by the call. */
  function Speaker(name: string, o: Outcome): Option<string> {
    var said := if o.Returned? && o.result.name != "" then o.result.name else name;
    if said != "" then Some(said) else None
  }

  /** A round says what the model said and answers each call with the report of its own dispatch. */
  lemma {:induction false} RoundReports(w: World, k: nat, t: seq<Entry>, r: Round, i: nat)
    requires r == RoundAt(w, k, t)
    ensures r.request == t && r.response == w.complete(k, t) && |r.messages| == 1 + |r.calls|
    ensures r.messages[0].role == Assistant && r.messages[0].content == r.response.content
    ensures r.messages[0].toolCalls == r.calls
    ensures i < |r.calls| ==>
              && r.messages[i + 1].role == Tool && r.messages[i + 1].toolCallId == Some(r.calls[i].id)
              && r.messages[i + 1].content.Some?
              && Reports(w.dispatch(k, r.calls, i), r.messages[i + 1].content.value)
              && r.messages[i + 1].name == Speaker(r.calls[i].name, w.dispatch(k, r.calls, i))
  {
  }
}
