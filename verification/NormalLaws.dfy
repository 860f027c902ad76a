/**
 The normal form of a transcript, entry by entry: what each entry of the input becomes.
*/
module NormalLaws {
  import opened Prelude
  import opened Transcript

  /** The tool message `e` is the first of `tools` that answers the id. */
  ghost predicate FirstFor(tools: seq<Entry>, id: string, e: Entry) {
    exists p ::
      && 0 <= p < |tools| && tools[p] == e && e.toolCallId == Some(id)
      && forall q :: 0 <= q < p ==> tools[q].toolCallId != Some(id)
  }

  predicate Answered(tools: seq<Entry>, id: string) {
    exists p :: 0 <= p < |tools| && tools[p].toolCallId == Some(id)
  }

  /** Call `k` stays: no call before it has its id, and some tool message answers it. */
  predicate Stays(calls: seq<ToolCall>, tools: seq<Entry>, k: nat)
    requires k < |calls|
  {
    (forall j :: 0 <= j < k ==> calls[j].id != calls[k].id) && Answered(tools, calls[k].id)
  }

  /** How many of the first `k` calls stay. */
  function Staying(calls: seq<ToolCall>, tools: seq<Entry>, k: nat): (n: nat)
    requires k <= |calls|
    ensures n <= k
  {
    if k == 0 then 0 else Staying(calls, tools, k - 1) + (if Stays(calls, tools, k - 1) then 1 else 0)
  }

  /** The calls that stay stand in `kept`, and the first answer of each in `results`, in call order. */
  ghost predicate Pairs(calls: seq<ToolCall>, tools: seq<Entry>, kept: seq<ToolCall>, results: seq<Entry>) {
    && |kept| == |results| == Staying(calls, tools, |calls|)
    && forall k: nat :: k < |calls| && Stays(calls, tools, k) ==>
         && Staying(calls, tools, k) < |kept|
         && kept[Staying(calls, tools, k)] == calls[k]
         && FirstFor(tools, calls[k].id, results[Staying(calls, tools, k)])
  }

  /** What becomes of an assistant turn with calls, given the tool messages right behind it: with answers,
      the turn with the calls that stay and then those answers; without, its text if it has any. */
  ghost predicate TurnBecomes(m: Entry, tools: seq<Entry>, piece: seq<Entry>) {
    if Staying(m.toolCalls, tools, |m.toolCalls|) == 0 then
      piece == if m.content.Some? && m.content.value != "" then [AssistantTurn(m.content, [])] else []
    else
      && piece != [] && piece[0] == AssistantTurn(m.content, piece[0].toolCalls)
      && Pairs(m.toolCalls, tools, piece[0].toolCalls, piece[1..])
  }

  /** `ms[i + 1..j]` are the tool messages right behind entry `i`. */
  ghost predicate RunBehind(ms: seq<Entry>, i: nat, j: nat) {
    && i < j <= |ms| && (forall k :: i < k < j ==> ms[k].role == Tool)
    && (j < |ms| ==> ms[j].role != Tool)
  }

  /** What entry `i` becomes: a tool message moves to its turn or is dropped, an assistant turn with calls
      is completed, and everything else stands. */
  ghost predicate Becomes(ms: seq<Entry>, i: nat, piece: seq<Entry>)
    requires i < |ms|
  {
    if ms[i].role == Tool then piece == []
    else if ms[i].role == Assistant && ms[i].toolCalls != [] then
      exists j: nat :: RunBehind(ms, i, j) && TurnBecomes(ms[i], ms[i + 1..j], piece)
    else piece == [ms[i]]
  }

  function Flat(pieces: seq<seq<Entry>>): seq<Entry> {
    if pieces == [] then [] else pieces[0] + Flat(pieces[1..])
  }

  ghost predicate Built(ms: seq<Entry>, pieces: seq<seq<Entry>>) {
    |pieces| == |ms| && forall i: nat :: i < |ms| ==> Becomes(ms, i, pieces[i])
  }

  /* ---- One turn -------------------------------------------------------------------- */

  lemma {:induction false} FirstAnswerIs(tools: seq<Entry>, id: string)
    ensures FirstAnswer(tools, id).Some? <==> Answered(tools, id)
    ensures FirstAnswer(tools, id).Some? ==> FirstFor(tools, id, FirstAnswer(tools, id).value)
  {
    if tools != [] && tools[0].toolCallId != Some(id) {
      FirstAnswerIs(tools[1..], id);
      assert forall p :: 1 <= p < |tools| ==> tools[p] == tools[1..][p - 1];
      if FirstAnswer(tools, id).Some? {
        var e := FirstAnswer(tools, id).value;
        var p :| && 0 <= p < |tools[1..]| && tools[1..][p] == e && e.toolCallId == Some(id)
                 && forall q :: 0 <= q < p ==> tools[1..][q].toolCallId != Some(id);
        assert tools[p + 1] == e;
      }
    }
  }

  lemma {:induction false} DedupHas(calls: seq<ToolCall>, id: string)
    ensures HasCall(Dedup(calls), id) <==> HasCall(calls, id)
  {
    if calls != [] {
      var init, last := calls[..|calls| - 1], calls[|calls| - 1];
      DedupHas(init, id);
      DedupHas(init, last.id);
      assert forall i :: 0 <= i < |init| ==> calls[i] == init[i];
      var d := Dedup(init) + [last];
      assert d[|d| - 1] == last && forall i :: 0 <= i < |d| - 1 ==> d[i] == Dedup(init)[i];
    }
  }

  lemma {:induction false} KeptSnoc(calls: seq<ToolCall>, c: ToolCall, tools: seq<Entry>)
    ensures var a, more := FirstAnswer(tools, c.id), calls + [c];
            && Kept(more, tools) == (if a.Some? then Kept(calls, tools) + [c] else Kept(calls, tools))
            && Results(more, tools) == (if a.Some? then Results(calls, tools) + [a.value] else Results(calls, tools))
  {
    var more := calls + [c];
    if calls == [] {
      assert more == [c] && more[1..] == [];
    } else {
      assert more[0] == calls[0] && more[1..] == calls[1..] + [c];
      KeptSnoc(calls[1..], c, tools);
    }
  }

  lemma {:induction false} StayingPrefix(a: seq<ToolCall>, b: seq<ToolCall>, tools: seq<Entry>, k: nat)
    requires k <= |a| && a <= b
    ensures Staying(b, tools, k) == Staying(a, tools, k)
    ensures forall j: nat :: j < k ==> (Stays(b, tools, j) <==> Stays(a, tools, j))
  {
    if k > 0 {
      StayingPrefix(a, b, tools, k - 1);
      assert forall j :: 0 <= j < |a| ==> a[j] == b[j];
    }
  }

  lemma {:induction false} LastStaysIff(calls: seq<ToolCall>, tools: seq<Entry>)
    requires calls != []
    ensures var init, last := calls[..|calls| - 1], calls[|calls| - 1];
            Stays(calls, tools, |init|) <==> !HasCall(Dedup(init), last.id) && FirstAnswer(tools, last.id).Some?
  {
    var init, last := calls[..|calls| - 1], calls[|calls| - 1];
    DedupHas(init, last.id);
    FirstAnswerIs(tools, last.id);
    assert forall j :: 0 <= j < |init| ==> calls[j] == init[j];
  }

  lemma {:induction false} PairsUp(calls: seq<ToolCall>, tools: seq<Entry>, kept: seq<ToolCall>, results: seq<Entry>)
    requires kept == Kept(Dedup(calls), tools) && results == Results(Dedup(calls), tools)
    ensures Pairs(calls, tools, kept, results)
  {
    if calls != [] {
      var init, last := calls[..|calls| - 1], calls[|calls| - 1];
      var k0, r0 := Kept(Dedup(init), tools), Results(Dedup(init), tools);
      PairsUp(init, tools, k0, r0);
      StayingPrefix(init, calls, tools, |init|);
      LastStaysIff(calls, tools);
      KeptSnoc(Dedup(init), last, tools);
      PairsMore(calls, tools, k0, r0, kept, results);
    }
  }

  lemma {:induction false} PairsMore(
    calls: seq<ToolCall>, tools: seq<Entry>, k0: seq<ToolCall>, r0: seq<Entry>, kept: seq<ToolCall>,
    results: seq<Entry>)
    requires calls != [] && Pairs(calls[..|calls| - 1], tools, k0, r0)
    requires var last, a := calls[|calls| - 1], FirstAnswer(tools, calls[|calls| - 1].id);
             var stays := Stays(calls, tools, |calls| - 1);
             && (stays ==> a.Some? && kept == k0 + [last] && results == r0 + [a.value])
             && (!stays ==> kept == k0 && results == r0)
    ensures Pairs(calls, tools, kept, results)
  {
    var init, n := calls[..|calls| - 1], |calls| - 1;
    StayingPrefix(init, calls, tools, n);
    FirstAnswerIs(tools, calls[n].id);
    forall k: nat | k < |calls| && Stays(calls, tools, k)
      ensures Staying(calls, tools, k) < |kept| && kept[Staying(calls, tools, k)] == calls[k]
      ensures FirstFor(tools, calls[k].id, results[Staying(calls, tools, k)])
    {
      if k < n { StayingPrefix(init, calls, tools, k); }
    }
  }

  lemma {:induction false} ClosedBecomes(m: Entry, tools: seq<Entry>)
    ensures TurnBecomes(m, tools, CloseTurn(m, tools))
  {
    var kept, results := Kept(Dedup(m.toolCalls), tools), Results(Dedup(m.toolCalls), tools);
    PairsUp(m.toolCalls, tools, kept, results);
    if kept != [] { assert CloseTurn(m, tools)[1..] == results; }
  }

  /* ---- The whole transcript ----------------------------------------------------------- */

  lemma {:induction false} RunShifts(ms: seq<Entry>, s: nat, i: nat, j: nat)
    requires s <= |ms| && RunBehind(ms[s..], i, j)
    ensures RunBehind(ms, s + i, s + j) && ms[s + i + 1..s + j] == ms[s..][i + 1..j]
  {
    var rest := ms[s..];
    forall k | s + i < k < s + j ensures ms[k].role == Tool { assert rest[k - s].role == Tool; }
    if s + j < |ms| { assert rest[j] == ms[s + j]; }
    assert ms[s + i + 1..s + j] == rest[i + 1..j];
  }

  lemma {:induction false} BecomesLater(ms: seq<Entry>, s: nat, i: nat, piece: seq<Entry>)
    requires s + i < |ms| && Becomes(ms[s..], i, piece)
    ensures Becomes(ms, s + i, piece)
  {
    if ms[s + i].role == Assistant && ms[s + i].toolCalls != [] {
      var j: nat :| RunBehind(ms[s..], i, j) && TurnBecomes(ms[s..][i], ms[s..][i + 1..j], piece);
      RunShifts(ms, s, i, j);
    }
  }

  lemma {:induction false} LeadingRun(ms: seq<Entry>)
    requires ms != []
    ensures RunBehind(ms, 0, 1 + ToolRun(ms[1..]))
  {
    RunIsTools(ms[1..]);
    assert forall k :: 1 <= k < |ms| ==> ms[k] == ms[1..][k - 1];
  }

  function Empties(n: nat): seq<seq<Entry>> { if n == 0 then [] else [[]] + Empties(n - 1) }

  lemma {:induction false} EmptiesAre(n: nat, rest: seq<seq<Entry>>)
    ensures |Empties(n)| == n && forall i :: 0 <= i < n ==> Empties(n)[i] == []
    ensures Flat(Empties(n) + rest) == Flat(rest)
  {
    if n == 0 {
      assert Empties(0) + rest == rest;
    } else {
      EmptiesAre(n - 1, rest);
      assert (Empties(n) + rest)[1..] == Empties(n - 1) + rest;
    }
  }

  lemma {:induction false} FlatCons(piece: seq<Entry>, rest: seq<seq<Entry>>)
    ensures Flat([piece] + rest) == piece + Flat(rest)
  {
    assert ([piece] + rest)[1..] == rest;
  }

  lemma {:induction false} BuiltMore(
    ms: seq<Entry>, s: nat, head: seq<seq<Entry>>, later: seq<seq<Entry>>, pieces: seq<seq<Entry>>)
    requires s <= |ms| && |head| == s && pieces == head + later && Built(ms[s..], later)
    requires forall i: nat :: i < s ==> Becomes(ms, i, head[i])
    ensures Built(ms, pieces)
  {
    forall i: nat | i < |ms| ensures Becomes(ms, i, pieces[i]) {
      if i >= s { BecomesLater(ms, s, i - s, later[i - s]); }
    }
  }

  lemma {:induction false} FlatTurn(turn: seq<Entry>, n: nat, later: seq<seq<Entry>>)
    ensures Flat([turn] + Empties(n) + later) == turn + Flat(later)
  {
    EmptiesAre(n, later);
    FlatCons(turn, Empties(n) + later);
    assert [turn] + Empties(n) + later == [turn] + (Empties(n) + later);
  }

  lemma {:induction false} TurnHead(ms: seq<Entry>, n: nat, turn: seq<Entry>, head: seq<seq<Entry>>)
    requires ms != [] && OpensTurn(ms[0]) && n == ToolRun(ms[1..]) && turn == CloseTurn(ms[0], ms[1..1 + n])
    requires head == [turn] + Empties(n)
    ensures |head| == 1 + n && forall i: nat :: i < |head| ==> Becomes(ms, i, head[i])
  {
    ClosedBecomes(ms[0], ms[1..1 + n]);
    LeadingRun(ms);
    EmptiesAre(n, []);
  }

  /** The normal form is what its entries become, one after the other. */
  lemma {:induction false} NormalFormIs(ms: seq<Entry>) returns (pieces: seq<seq<Entry>>)
    ensures Built(ms, pieces) && Normalize(ms) == Flat(pieces)
    decreases |ms|
  {
    if ms == [] {
      pieces := [];
    } else if OpensTurn(ms[0]) {
      var n := ToolRun(ms[1..]);
      var turn := CloseTurn(ms[0], ms[1..1 + n]);
      var later := NormalFormIs(ms[1 + n..]);
      var head := [turn] + Empties(n);
      pieces := head + later;
      TurnHead(ms, n, turn, head);
      BuiltMore(ms, 1 + n, head, later, pieces);
      FlatTurn(turn, n, later);
    } else {
      var later := NormalFormIs(ms[1..]);
      var head := [if ms[0].role == Tool then [] else [ms[0]]];
      pieces := head + later;
      BuiltMore(ms, 1, head, later, pieces);
      FlatCons(head[0], later);
    }
  }
}
