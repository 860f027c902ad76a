/**
 The typed provider transcript and its pair normalization: `normalize` and
 `_validate_canonical` of `pretender/context.py`, with the shape checks of `TranscriptMessage`.

 `Canonical` is the validator's own condition. `NormalIffCanonical` in `Normalizer` ties the two: the
 normal form of a transcript is canonical, and a transcript is its own normal form exactly
 when the validator accepts it.
*/
module Transcript {
  import opened Prelude

  datatype Role = System | User | Assistant | Tool

  datatype Json = Object(members: map<string, string>) | NonObject(text: string)

  datatype Raw = RawText(text: string) | RawValue(value: Json)

  datatype ToolCall = ToolCall(id: string, name: string, arguments: map<string, string>, raw: Option<Raw>)

  datatype Entry = Entry(
    role: Role, content: Option<string>, toolCalls: seq<ToolCall>, toolCallId: Option<string>, name: Option<string>)

  function AssistantTurn(content: Option<string>, calls: seq<ToolCall>): Entry {
    Entry(Assistant, content, calls, None, None)
  }

  predicate UniqueIds(calls: seq<ToolCall>) {
    forall i, j :: 0 <= i < j < |calls| ==> calls[i].id != calls[j].id
  }

  /** The checks an entry makes on construction. */
  predicate ValidEntry(m: Entry) {
    && (m.role == Tool ==> m.toolCallId.Some? && m.toolCalls == [])
    && (m.role != Tool ==> m.toolCallId.None? && m.name.None?)
    && (m.role != Assistant ==> m.toolCalls == [])
    && UniqueIds(m.toolCalls)
  }

  predicate AllValid(ms: seq<Entry>) { forall i :: 0 <= i < |ms| ==> ValidEntry(ms[i]) }

  predicate OpensTurn(m: Entry) { m.role == Assistant && m.toolCalls != [] }

  /** How many tool messages lead the list. */
  function ToolRun(ms: seq<Entry>): (n: nat)
    ensures n <= |ms|
  {
    if ms == [] || ms[0].role != Tool then 0 else 1 + ToolRun(ms[1..])
  }

  predicate Answers(calls: seq<ToolCall>, tools: seq<Entry>) {
    |calls| == |tools| && forall i :: 0 <= i < |calls| ==> tools[i].toolCallId == Some(calls[i].id)
  }

  /** Every assistant tool-call turn is followed at once by exactly one answer per call, in call
      order, and no tool message stands anywhere else. */
  predicate Canonical(ms: seq<Entry>)
    decreases |ms|
  {
    if ms == [] then true
    else if OpensTurn(ms[0]) then
      var n := ToolRun(ms[1..]);
      Answers(ms[0].toolCalls, ms[1..1 + n]) && Canonical(ms[1 + n..])
    else ms[0].role != Tool && Canonical(ms[1..])
  }

  /** The end of the tool messages from `start` on. */
  method SkipTools(ms: seq<Entry>, start: nat) returns (j: nat)
    requires start <= |ms|
    ensures start <= j <= |ms| && j == start + ToolRun(ms[start..])
  {
    j := start;
    while j < |ms| && ms[j].role == Tool
      invariant start <= j <= |ms|
      invariant forall k :: start <= k < j ==> ms[k].role == Tool
    {
      j := j + 1;
    }
    RunLength(ms[start..], j - start);
  }

  method ValidateCanonical(ms: seq<Entry>) returns (ok: bool)
    ensures ok == Canonical(ms)
  {
    var i := 0;
    while i < |ms|
      invariant 0 <= i <= |ms| && Canonical(ms[i..]) == Canonical(ms)
    {
      ghost var here := ms[i..];
      assert here[0] == ms[i] && here[1..] == ms[i + 1..];
      if OpensTurn(ms[i]) {
        var j := SkipTools(ms, i + 1);
        assert here[1..1 + (j - i - 1)] == ms[i + 1..j] && here[1 + (j - i - 1)..] == ms[j..];
        if !Answers(ms[i].toolCalls, ms[i + 1..j]) { return false; }
        i := j;
      } else {
        if ms[i].role == Tool { return false; }
        i := i + 1;
      }
    }
    ok := true;
  }

  lemma {:induction false} RunLength(ms: seq<Entry>, n: nat)
    requires n <= |ms| && (forall k :: 0 <= k < n ==> ms[k].role == Tool)
    requires n < |ms| ==> ms[n].role != Tool
    ensures ToolRun(ms) == n
  {
    if n > 0 { RunLength(ms[1..], n - 1); }
  }

  lemma {:induction false} RunIsTools(ms: seq<Entry>)
    ensures forall k :: 0 <= k < ToolRun(ms) ==> ms[k].role == Tool
    ensures ToolRun(ms) < |ms| ==> ms[ToolRun(ms)].role != Tool
  {
    if ms != [] && ms[0].role == Tool { RunIsTools(ms[1..]); }
  }

  /* ---- Normalization --------------------------------------------------------- */

  /** Collapse duplicate call ids to the first occurrence. */
  function Dedup(calls: seq<ToolCall>): seq<ToolCall> {
    if calls == [] then []
    else
      var d, c := Dedup(calls[..|calls| - 1]), calls[|calls| - 1];
      if HasCall(d, c.id) then d else d + [c]
  }

  predicate HasCall(calls: seq<ToolCall>, id: string) { exists i :: 0 <= i < |calls| && calls[i].id == id }

  /** The first tool message that answers the id. */
  function FirstAnswer(tools: seq<Entry>, id: string): Option<Entry> {
    if tools == [] then None
    else if tools[0].toolCallId == Some(id) then Some(tools[0])
    else FirstAnswer(tools[1..], id)
  }

  function Kept(calls: seq<ToolCall>, tools: seq<Entry>): seq<ToolCall> {
    if calls == [] then []
    else if FirstAnswer(tools, calls[0].id).Some? then [calls[0]] + Kept(calls[1..], tools)
    else Kept(calls[1..], tools)
  }

  function Results(calls: seq<ToolCall>, tools: seq<Entry>): seq<Entry> {
    if calls == [] then []
    else
      var a, rest := FirstAnswer(tools, calls[0].id), Results(calls[1..], tools);
      if a.Some? then [a.value] + rest else rest
  }

  predicate HasText(content: Option<string>) { content.Some? && content.value != "" }

  /** What is left of one assistant turn, given the tool messages that follow it. */
  function CloseTurn(m: Entry, tools: seq<Entry>): seq<Entry> {
    var calls := Dedup(m.toolCalls);
    var kept := Kept(calls, tools);
    if kept != [] then [AssistantTurn(m.content, kept)] + Results(calls, tools)
    else if HasText(m.content) then [AssistantTurn(m.content, [])]
    else []
  }

  function Normalize(ms: seq<Entry>): seq<Entry>
    decreases |ms|
  {
    if ms == [] then []
    else if OpensTurn(ms[0]) then
      var n := ToolRun(ms[1..]);
      CloseTurn(ms[0], ms[1..1 + n]) + Normalize(ms[1 + n..])
    else if ms[0].role == Tool then Normalize(ms[1..])
    else [ms[0]] + Normalize(ms[1..])
  }
}
