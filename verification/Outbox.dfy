/**
 The outbox driver of `pretender/outbox.py` for one chat with nobody beside it: the batch built
 from an outgoing message, one pump round, and draining. Times are absolute seconds; what the
 adapter does at its n-th turn is an arbitrary function.
*/
module Outbox {
  import opened Prelude

  /* ---- From an outgoing message to rows ---------------------------------------------- */

  datatype Outgoing = Outgoing(text: string, parts: seq<string>, segments: seq<string>, idemKey: Option<string>)

  datatype Item = Item(text: string, key: string, order: Option<nat>, segments: seq<string>)

  function Digit(n: nat): char
    requires n < 10
  {
    (n as char + '0')
  }

  function Decimal(n: nat): (s: string)
    ensures s != []
  {
    if n < 10 then [Digit(n)] else Decimal(n / 10) + [Digit(n % 10)]
  }

  function PartsOf(out: Outgoing): seq<string> {
    if out.segments != [] then [out.text]
    else if out.parts != [] then out.parts
    else if out.text != "" then [out.text]
    else []
  }

  /** The delivery key of part `i` of `n`. */
  function KeyOf(cycle: string, idemKey: Option<string>, i: nat, n: nat): string {
    match idemKey
    case None => cycle + ":" + Decimal(i)
    case Some(k) => if n > 1 then cycle + ":" + k + ":" + Decimal(i) else cycle + ":" + k
  }

  function ItemAt(out: Outgoing, cycle: string, parts: seq<string>, i: nat): Item
    requires i < |parts|
  {
    Item(parts[i], KeyOf(cycle, out.idemKey, i, |parts|), if |parts| > 1 then Some(i) else None, out.segments)
  }

  /** What stands for an outgoing message: a segmented message goes out whole, a list of parts part by part,
      and a text by itself; every item repeats the segments, and parts of several carry their position. */
  ghost predicate StandFor(out: Outgoing, cycle: string, items: seq<Item>) {
    && |items| == (if out.segments == [] && out.parts != [] then |out.parts| else 1)
    && forall i: nat :: i < |items| ==>
         && items[i].text == (if out.segments == [] && out.parts != [] then out.parts[i] else out.text)
         && items[i].segments == out.segments
         && items[i].order == (if |items| == 1 then None else Some(i))
         && items[i].key == cycle + (if out.idemKey.Some? then ":" + out.idemKey.value else "")
                            + (if out.idemKey.Some? && |items| == 1 then "" else ":" + Decimal(i))
  }

  lemma {:induction false} KeyIs(cycle: string, idemKey: Option<string>, i: nat, n: nat)
    ensures KeyOf(cycle, idemKey, i, n) ==
            cycle + (if idemKey.Some? then ":" + idemKey.value else "")
            + (if idemKey.Some? && n <= 1 then "" else ":" + Decimal(i))
  {
    if idemKey.Some? {
      assert (cycle + ":") + idemKey.value == cycle + (":" + idemKey.value);
      assert cycle + (":" + idemKey.value) + "" == cycle + ":" + idemKey.value;
      assert cycle + ":" + idemKey.value + ":" + Decimal(i) == cycle + (":" + idemKey.value) + (":" + Decimal(i));
    } else {
      assert cycle + ":" + Decimal(i) == cycle + "" + (":" + Decimal(i));
    }
  }

  method ToItems(out: Outgoing, cycle: string) returns (r: Result<seq<Item>, string>)
    ensures r.Err? <==> out.segments == [] && out.parts == [] && out.text == ""
    ensures r.Ok? ==> StandFor(out, cycle, r.value)
  {
    var parts := PartsOf(out);
    if parts == [] { return Err("cannot build an outbox batch from an empty Outgoing"); }
    var items: seq<Item> := [];
    for i := 0 to |parts|
      invariant |items| == i && forall j :: 0 <= j < i ==> items[j] == ItemAt(out, cycle, parts, j)
    {
      items := items + [ItemAt(out, cycle, parts, i)];
    }
    forall i: nat | i < |items| ensures items[i].key == KeyOf(cycle, out.idemKey, i, |items|) {
      KeyIs(cycle, out.idemKey, i, |items|);
    }
    r := Ok(items);
  }

  predicate Digits(s: string) { forall i :: 0 <= i < |s| ==> '0' <= s[i] <= '9' }

  lemma {:induction false} DecimalDigits(n: nat)
    ensures Digits(Decimal(n))
  {
    if n >= 10 { DecimalDigits(n / 10); }
  }

  /** The number a decimal text stands for. */
  function Value(s: string): int {
    if s == "" then 0 else 10 * Value(s[..|s| - 1]) + (s[|s| - 1] as int - '0' as int)
  }

  /** Decimal texts read back, so no two numbers share one. */
  lemma {:induction false} DecimalReadsBack(n: nat)
    ensures Value(Decimal(n)) == n
  {
    var s := Decimal(n);
    if n < 10 {
      assert s[..|s| - 1] == "";
    } else {
      DecimalReadsBack(n / 10);
      assert s[..|s| - 1] == Decimal(n / 10);
    }
  }

  lemma {:induction false} NoLaterColon(t: string, a: string, d: string)
    requires Digits(d) && t == a + ":" + d
    ensures t[|a|] == ':' && forall k :: |a| < k < |t| ==> t[k] != ':'
  {
    assert forall k :: |a| < k < |t| ==> t[k] == d[k - |a| - 1];
  }

  /** A text followed by a colon and digits splits in one way. */
  lemma {:induction false} ColonSplits(a: string, m: nat, b: string, n: nat)
    requires a + ":" + Decimal(m) == b + ":" + Decimal(n)
    ensures a == b && m == n
  {
    DecimalDigits(m);
    DecimalDigits(n);
    var x, y := a + ":" + Decimal(m), b + ":" + Decimal(n);
    NoLaterColon(x, a, Decimal(m));
    NoLaterColon(y, b, Decimal(n));
    assert |a| == |b|;
    assert x[..|a|] == a && y[..|b|] == b && x[|a| + 1..] == Decimal(m) && y[|b| + 1..] == Decimal(n);
    DecimalReadsBack(m);
    DecimalReadsBack(n);
  }

  /** Within a batch the keys are distinct, so no part hides another. */
  lemma {:induction false} KeysAreDistinct(cycle: string, idemKey: Option<string>, n: nat, i: nat, j: nat)
    requires i < j < n
    ensures KeyOf(cycle, idemKey, i, n) != KeyOf(cycle, idemKey, j, n)
  {
    if KeyOf(cycle, idemKey, i, n) == KeyOf(cycle, idemKey, j, n) {
      match idemKey
      case None => ColonSplits(cycle, i, cycle, j);
      case Some(k) => ColonSplits(cycle + ":" + k, i, cycle + ":" + k, j);
    }
  }

  /** Without a caller's key, two keys agree exactly for the same part of the same cycle. */
  lemma {:induction false} DefaultKeysIff(a: string, i: nat, m: nat, b: string, j: nat, n: nat)
    ensures KeyOf(a, None, i, m) == KeyOf(b, None, j, n) <==> a == b && i == j
  {
    if KeyOf(a, None, i, m) == KeyOf(b, None, j, n) { ColonSplits(a, i, b, j); }
  }

  lemma {:induction false} PrefixCancels(p: string, a: string, b: string)
    ensures p + a == p + b <==> a == b
  {
    if p + a == p + b { assert (p + a)[|p|..] == a && (p + b)[|p|..] == b; }
  }

  /** A caller's key takes the place of a default one exactly when it stands for a single part and reads
      as the number of one. */
  lemma {:induction false} CallerKeyIff(cycle: string, k: string, i: nat, n: nat, j: nat, m: nat)
    ensures KeyOf(cycle, Some(k), i, n) == KeyOf(cycle, None, j, m) <==> n <= 1 && k == Decimal(j)
  {
    if n > 1 {
      if KeyOf(cycle, Some(k), i, n) == KeyOf(cycle, None, j, m) {
        assert |cycle + ":" + k| > |cycle|;
        ColonSplits(cycle + ":" + k, i, cycle, j);
      }
    } else {
      PrefixCancels(cycle + ":", k, Decimal(j));
    }
  }

  /** Two callers' keys of one cycle: those of two batches with several parts, or of two single parts,
      agree only when the keys and the parts do; a single part takes the place of one of several exactly
      when its key spells out the other key and the part number. */
  lemma {:induction false} CallerKeysIff(cycle: string, k: string, i: nat, n: nat, l: string, j: nat, m: nat)
    ensures KeyOf(cycle, Some(k), i, n) == KeyOf(cycle, Some(l), j, m) <==>
              if n > 1 && m > 1 then k == l && i == j
              else if n > 1 then l == k + ":" + Decimal(i)
              else if m > 1 then k == l + ":" + Decimal(j)
              else k == l
  {
    var p := cycle + ":";
    if n > 1 && m > 1 {
      if KeyOf(cycle, Some(k), i, n) == KeyOf(cycle, Some(l), j, m) {
        ColonSplits(p + k, i, p + l, j);
        PrefixCancels(p, k, l);
      }
    } else {
      assert p + (k + ":" + Decimal(i)) == p + k + ":" + Decimal(i);
      assert p + (l + ":" + Decimal(j)) == p + l + ":" + Decimal(j);
      PrefixCancels(p, if n > 1 then k + ":" + Decimal(i) else k, if m > 1 then l + ":" + Decimal(j) else l);
    }
  }

  function KeyTail(k: Option<string>, i: nat, n: nat): string {
    if k.None? then Decimal(i) else if n > 1 then k.value + ":" + Decimal(i) else k.value
  }

  lemma {:induction false} KeyHasTail(a: nat, k: Option<string>, i: nat, n: nat)
    ensures KeyOf("dispatch:" + Decimal(a), k, i, n) == "dispatch:" + (Decimal(a) + ":" + KeyTail(k, i, n))
    ensures Digits(Decimal(a))
  {
    DecimalDigits(a);
    var key := KeyOf("dispatch:" + Decimal(a), k, i, n);
    assert key == "dispatch:" + Decimal(a) + ":" + KeyTail(k, i, n);
  }

  lemma {:induction false} NoEarlierColon(t: string, d: string, x: string)
    requires Digits(d) && t == d + ":" + x
    ensures t[|d|] == ':' && t[..|d|] == d && forall k :: 0 <= k < |d| ==> t[k] != ':'
  {
    assert forall k :: 0 <= k < |d| ==> t[k] == d[k];
  }

  /** Whatever the caller's keys, rows of two dispatches never share a key: the number of the dispatch
      ends at the first colon behind it. */
  lemma {:induction false} DispatchKeysApart(
    a: nat, k: Option<string>, i: nat, n: nat, b: nat, l: Option<string>, j: nat, m: nat)
    requires KeyOf("dispatch:" + Decimal(a), k, i, n) == KeyOf("dispatch:" + Decimal(b), l, j, m)
    ensures a == b
  {
    var x, y := KeyTail(k, i, n), KeyTail(l, j, m);
    KeyHasTail(a, k, i, n);
    KeyHasTail(b, l, j, m);
    PrefixCancels("dispatch:", Decimal(a) + ":" + x, Decimal(b) + ":" + y);
    NoEarlierColon(Decimal(a) + ":" + x, Decimal(a), x);
    NoEarlierColon(Decimal(a) + ":" + x, Decimal(b), y);
    assert |Decimal(a)| == |Decimal(b)|;
    DecimalReadsBack(a);
    DecimalReadsBack(b);
  }

  /* ---- The pump ------------------------------------------------------------------------ */

  datatype State = Waiting | InFlight | Sent

  datatype Row = Row(state: State, sendAfter: Option<real>)

  /** The adapter at one turn: not connected, or what its send does. */
  datatype Turn = Offline | Refuses | Fails | Delivers

  type Adapter = nat -> Turn

  predicate Due(r: Row, now: real) { r.state == Waiting && (r.sendAfter.Some? ==> r.sendAfter.value <= now) }

  /** The due rows from `i` on, in id order. */
  function DueFrom(rows: seq<Row>, now: real, i: nat): seq<nat>
    decreases |rows| - i
  {
    if i >= |rows| then [] else (if Due(rows[i], now) then [i] else []) + DueFrom(rows, now, i + 1)
  }

  function DueIds(rows: seq<Row>, now: real): seq<nat> { DueFrom(rows, now, 0) }

  function FirstOf(ids: seq<nat>, limit: nat): seq<nat> { ids[..Min(limit, |ids|)] }

  datatype Pumped = Pumped(rows: seq<Row>, sent: nat, turn: nat)

  predicate InRange(ids: seq<nat>, n: nat) { forall i :: 0 <= i < |ids| ==> ids[i] < n }

  /** Work through the listed rows, one adapter turn each, until the adapter is not there. */
  function PumpItems(rows: seq<Row>, ids: seq<nat>, adapter: Adapter, turn: nat): (p: Pumped)
    requires InRange(ids, |rows|)
    ensures |p.rows| == |rows|
    decreases |ids|
  {
    if ids == [] then Pumped(rows, 0, turn)
    else
      var id := ids[0];
      if adapter(turn).Offline? then Pumped(rows, 0, turn + 1)
      else if rows[id].state != Waiting then PumpItems(rows, ids[1..], adapter, turn + 1)
      else if adapter(turn).Fails? then PumpItems(rows[id := rows[id].(state := InFlight)], ids[1..], adapter, turn + 1)
      else if adapter(turn).Delivers? then
        var rest := PumpItems(rows[id := rows[id].(state := Sent)], ids[1..], adapter, turn + 1);
        rest.(sent := rest.sent + 1)
      else Pumped(rows, 0, turn + 1)
  }

  lemma {:induction false} DueFromFacts(rows: seq<Row>, now: real, i: nat)
    ensures forall k :: 0 <= k < |DueFrom(rows, now, i)| ==>
              i <= DueFrom(rows, now, i)[k] < |rows| && Due(rows[DueFrom(rows, now, i)[k]], now)
    ensures forall r :: i <= r < |rows| && Due(rows[r], now) ==> r in DueFrom(rows, now, i)
    decreases |rows| - i
  {
    if i < |rows| { DueFromFacts(rows, now, i + 1); }
  }

  function Ready(rows: seq<Row>, now: real, limit: nat): (ids: seq<nat>)
    ensures InRange(ids, |rows|)
  {
    DueFromFacts(rows, now, 0);
    FirstOf(DueIds(rows, now), limit)
  }

  function Pump(rows: seq<Row>, now: real, limit: nat, adapter: Adapter, turn: nat): Pumped {
    PumpItems(rows, Ready(rows, now, limit), adapter, turn)
  }

  function WaitingCount(rows: seq<Row>): nat {
    if rows == [] then 0 else (if rows[0].state == Waiting then 1 else 0) + WaitingCount(rows[1..])
  }

  lemma {:induction false} CountDrops(rows: seq<Row>, id: nat, r: Row)
    requires id < |rows| && rows[id].state == Waiting && r.state != Waiting
    ensures WaitingCount(rows[id := r]) == WaitingCount(rows) - 1
  {
    var next := rows[id := r];
    if id == 0 {
      assert next[1..] == rows[1..];
    } else {
      assert next[1..] == rows[1..][id - 1 := r];
      CountDrops(rows[1..], id - 1, r);
    }
  }

  /** Every send takes a row out of the waiting ones for good. */
  lemma {:induction false} PumpConsumes(rows: seq<Row>, ids: seq<nat>, adapter: Adapter, turn: nat)
    requires InRange(ids, |rows|)
    ensures var p := PumpItems(rows, ids, adapter, turn); p.sent + WaitingCount(p.rows) <= WaitingCount(rows)
    decreases |ids|
  {
    if ids != [] && !adapter(turn).Offline? {
      var id := ids[0];
      if rows[id].state != Waiting {
        PumpConsumes(rows, ids[1..], adapter, turn + 1);
      } else if adapter(turn).Fails? {
        CountDrops(rows, id, rows[id].(state := InFlight));
        PumpConsumes(rows[id := rows[id].(state := InFlight)], ids[1..], adapter, turn + 1);
      } else if adapter(turn).Delivers? {
        CountDrops(rows, id, rows[id].(state := Sent));
        PumpConsumes(rows[id := rows[id].(state := Sent)], ids[1..], adapter, turn + 1);
      }
    }
  }

  /** Rounds until one sends nothing. */
  function Drain(rows: seq<Row>, now: real, limit: nat, adapter: Adapter, turn: nat): Pumped
    decreases WaitingCount(rows)
  {
    var p := Pump(rows, now, limit, adapter, turn);
    PumpConsumes(rows, Ready(rows, now, limit), adapter, turn);
    if p.sent == 0 then p
    else
      var rest := Drain(p.rows, now, limit, adapter, p.turn);
      rest.(sent := p.sent + rest.sent)
  }

  /* ---- Nothing before its time --------------------------------------------------------- */

  /** The ids ascend, at most `limit` of them; each is a waiting row without a send time or with one that
      has come; and each such row is there, unless `limit` rows before it are. */
  ghost predicate FirstInTime(rows: seq<Row>, now: real, limit: nat, ids: seq<nat>) {
    && |ids| <= limit
    && (forall j, k :: 0 <= j < k < |ids| ==> ids[j] < ids[k])
    && (forall k :: 0 <= k < |ids| ==>
          && ids[k] < |rows| && rows[ids[k]].state == Waiting
          && (rows[ids[k]].sendAfter.None? || rows[ids[k]].sendAfter.value <= now))
    && (forall i: nat ::
          i < |rows| && rows[i].state == Waiting && (rows[i].sendAfter.None? || rows[i].sendAfter.value <= now) ==>
            i in ids || (|ids| == limit && forall k :: 0 <= k < |ids| ==> ids[k] < i))
  }

  /** Every row that is not waiting, or whose send time has not come, is as it was; no row gets another
      send time. */
  ghost predicate HoldsBack(rows: seq<Row>, now: real, after: seq<Row>) {
    && |after| == |rows|
    && (forall i :: 0 <= i < |rows| ==> after[i].sendAfter == rows[i].sendAfter)
    && (forall i :: 0 <= i < |rows| && rows[i].state != Waiting ==> after[i] == rows[i])
    && (forall i :: 0 <= i < |rows| && rows[i].sendAfter.Some? && rows[i].sendAfter.value > now ==> after[i] == rows[i])
  }

  predicate Ascending(ids: seq<nat>) { forall i, j :: 0 <= i < j < |ids| ==> ids[i] < ids[j] }

  lemma {:induction false} DueAscending(rows: seq<Row>, now: real, i: nat)
    ensures Ascending(DueFrom(rows, now, i))
    decreases |rows| - i
  {
    if i < |rows| {
      DueAscending(rows, now, i + 1);
      DueFromFacts(rows, now, i + 1);
    }
  }

  lemma {:induction false} DueIsReady(rows: seq<Row>, now: real, limit: nat, i: nat)
    requires i < |rows| && Due(rows[i], now)
    ensures var ids := Ready(rows, now, limit);
            i in ids || (|ids| == limit && forall k :: 0 <= k < |ids| ==> ids[k] < i)
  {
    var d, ids := DueIds(rows, now), Ready(rows, now, limit);
    DueFromFacts(rows, now, 0);
    DueAscending(rows, now, 0);
    var k :| 0 <= k < |d| && d[k] == i;
    if k < |ids| { assert ids[k] == i; }
  }

  lemma {:induction false} ReadyIsFirstInTime(rows: seq<Row>, now: real, limit: nat)
    ensures FirstInTime(rows, now, limit, Ready(rows, now, limit))
  {
    var ids := Ready(rows, now, limit);
    DueFromFacts(rows, now, 0);
    DueAscending(rows, now, 0);
    forall k | 0 <= k < |ids| ensures ids[k] < |rows| && Due(rows[ids[k]], now) {
      assert ids[k] == DueIds(rows, now)[k];
    }
    forall i: nat | i < |rows| && Due(rows[i], now)
      ensures i in ids || (|ids| == limit && forall k :: 0 <= k < |ids| ==> ids[k] < i)
    {
      DueIsReady(rows, now, limit, i);
    }
  }

  lemma {:induction false} ItemsHoldBack(rows: seq<Row>, ids: seq<nat>, adapter: Adapter, turn: nat, i: nat)
    requires InRange(ids, |rows|) && i < |rows|
    ensures var after := PumpItems(rows, ids, adapter, turn).rows;
            && after[i].sendAfter == rows[i].sendAfter
            && (rows[i].state != Waiting || i !in ids ==> after[i] == rows[i])
    decreases |ids|
  {
    if ids != [] && !adapter(turn).Offline? {
      var id := ids[0];
      assert i in ids <==> i == id || i in ids[1..];
      if rows[id].state != Waiting {
        ItemsHoldBack(rows, ids[1..], adapter, turn + 1, i);
      } else if adapter(turn).Fails? {
        ItemsHoldBack(rows[id := rows[id].(state := InFlight)], ids[1..], adapter, turn + 1, i);
      } else if adapter(turn).Delivers? {
        ItemsHoldBack(rows[id := rows[id].(state := Sent)], ids[1..], adapter, turn + 1, i);
      }
    }
  }

  /** For every adapter, a round touches no row before its time. */
  lemma {:induction false} PumpHoldsBack(rows: seq<Row>, now: real, limit: nat, adapter: Adapter, turn: nat)
    ensures HoldsBack(rows, now, Pump(rows, now, limit, adapter, turn).rows)
  {
    var ids := Ready(rows, now, limit);
    ReadyIsFirstInTime(rows, now, limit);
    forall i | 0 <= i < |rows|
      ensures var after := Pump(rows, now, limit, adapter, turn).rows;
              && after[i].sendAfter == rows[i].sendAfter
              && (rows[i].state != Waiting || i !in ids ==> after[i] == rows[i])
    {
      ItemsHoldBack(rows, ids, adapter, turn, i);
    }
  }

  /** And neither does draining, however many rounds it takes. */
  lemma {:induction false} DrainHoldsBack(rows: seq<Row>, now: real, limit: nat, adapter: Adapter, turn: nat)
    ensures HoldsBack(rows, now, Drain(rows, now, limit, adapter, turn).rows)
    decreases WaitingCount(rows)
  {
    var p := Pump(rows, now, limit, adapter, turn);
    PumpHoldsBack(rows, now, limit, adapter, turn);
    if p.sent > 0 {
      PumpConsumes(rows, Ready(rows, now, limit), adapter, turn);
      DrainHoldsBack(p.rows, now, limit, adapter, p.turn);
    }
  }

  class Driver {
    const adapter: Adapter
    var rows: seq<Row>
    var turn: nat

    constructor (adapter: Adapter, rows: seq<Row>)
      ensures this.adapter == adapter && this.rows == rows && turn == 0
    {
      this.adapter, this.rows, turn := adapter, rows, 0;
    }

    method ListReady(now: real, limit: nat) returns (ids: seq<nat>)
      ensures ids == Ready(rows, now, limit) && FirstInTime(rows, now, limit, ids)
    {
      ids := [];
      var i := 0;
      while i < |rows| && |ids| < limit
        invariant 0 <= i <= |rows| && |ids| <= limit
        invariant DueIds(rows, now) == ids + DueFrom(rows, now, i)
      {
        if Due(rows[i], now) { ids := ids + [i]; }
        i := i + 1;
      }
      assert ids == Ready(rows, now, limit);
      ReadyIsFirstInTime(rows, now, limit);
    }

    /** One adapter turn for one listed row: whether the round goes on, and whether it was sent. A
        row is claimed before the adapter is called, and put back only when the adapter refuses. */
    method Offer(id: nat) returns (more: bool, ok: bool)
      requires id < |rows|
      modifies this
      ensures turn == old(turn) + 1
      ensures var act, waiting := adapter(old(turn)), old(rows)[id].state == Waiting;
              && more == (!act.Offline? && !(waiting && act.Refuses?))
              && ok == (waiting && act.Delivers?)
              && rows == if waiting && act.Delivers? then old(rows)[id := old(rows)[id].(state := Sent)]
                         else if waiting && act.Fails? then old(rows)[id := old(rows)[id].(state := InFlight)]
                         else old(rows)
    {
      var act := adapter(turn);
      turn := turn + 1;
      if act.Offline? { return false, false; }
      if rows[id].state != Waiting { return true, false; }
      rows := rows[id := rows[id].(state := InFlight)];
      if act.Fails? { return true, false; }
      if act.Delivers? {
        rows := rows[id := rows[id].(state := Sent)];
        return true, true;
      }
      rows := rows[id := rows[id].(state := Waiting)];
      assert rows == old(rows);
      return false, false;
    }

    /** One round. A muted chat sends nothing and keeps its rows. */
    method PumpRound(now: real, limit: nat, muted: bool) returns (sent: nat)
      modifies this
      ensures muted ==> sent == 0 && rows == old(rows) && turn == old(turn)
      ensures !muted ==> Pumped(rows, sent, turn) == Pump(old(rows), now, limit, adapter, old(turn))
      ensures HoldsBack(old(rows), now, rows)
    {
      if muted { return 0; }
      PumpHoldsBack(rows, now, limit, adapter, turn);
      var ids := ListReady(now, limit);
      sent := 0;
      ghost var whole := Pump(rows, now, limit, adapter, turn);
      for k := 0 to |ids|
        invariant |rows| == |old(rows)|
        invariant whole == AddSent(sent, PumpItems(rows, ids[k..], adapter, turn))
      {
        assert ids[k..][0] == ids[k] && ids[k..][1..] == ids[k + 1..];
        var more, ok := Offer(ids[k]);
        if !more { return; }
        if ok { sent := sent + 1; }
      }
      assert ids[|ids|..] == [];
    }

    method DrainAll(now: real, limit: nat) returns (total: nat)
      modifies this
      ensures Pumped(rows, total, turn) == Drain(old(rows), now, limit, adapter, old(turn))
      ensures HoldsBack(old(rows), now, rows)
    {
      DrainHoldsBack(rows, now, limit, adapter, turn);
      total := 0;
      while true
        invariant Drain(old(rows), now, limit, adapter, old(turn))
                == AddSent(total, Drain(rows, now, limit, adapter, turn))
        decreases WaitingCount(rows)
      {
        PumpConsumes(rows, Ready(rows, now, limit), adapter, turn);
        var sent := PumpRound(now, limit, false);
        total := total + sent;
        if sent == 0 { return; }
      }
    }
  }

  function AddSent(n: nat, p: Pumped): Pumped { p.(sent := n + p.sent) }

  /* ---- What draining leaves behind --------------------------------------------------------- */

  /** The adapter takes the row it is offered. */
  predicate Takes(t: Turn) { t.Fails? || t.Delivers? }

  /** The turns of one round over `c` due rows that take a row: up to the first that does not. */
  function RoundTurns(adapter: Adapter, turn: nat, c: nat): (o: seq<Turn>)
    ensures |o| <= c
    decreases c
  {
    if c == 0 || !Takes(adapter(turn)) then [] else [adapter(turn)] + RoundTurns(adapter, turn + 1, c - 1)
  }

  /** Where the adapter stands after that round: a turn that takes nothing is spent as well. */
  function TurnAfter(turn: nat, c: nat, o: seq<Turn>): nat { turn + |o| + (if |o| < c then 1 else 0) }

  /** The turns with which draining `n` due rows takes one after the other, round after round up to the
      first that delivers nothing. */
  function DrainTurns(adapter: Adapter, turn: nat, n: nat, limit: nat): (o: seq<Turn>)
    ensures |o| <= n
    decreases n
  {
    var c := Min(limit, n);
    var o := RoundTurns(adapter, turn, c);
    if Delivers !in o then o else o + DrainTurns(adapter, TurnAfter(turn, c, o), n - |o|, limit)
  }

  function Outcome(t: Turn): State { if t.Delivers? then Sent else InFlight }

  /** Each listed row was taken by its own turn; no other row changed. */
  ghost predicate Attempts(rows: seq<Row>, ids: seq<nat>, o: seq<Turn>, after: seq<Row>) {
    && |after| == |rows| && InRange(ids, |rows|) && |ids| == |o|
    && (forall k :: 0 <= k < |ids| ==> after[ids[k]] == rows[ids[k]].(state := Outcome(o[k])))
    && (forall r :: 0 <= r < |rows| && r !in ids ==> after[r] == rows[r])
  }

  ghost predicate AllWaiting(rows: seq<Row>, ids: seq<nat>) {
    InRange(ids, |rows|) && Ascending(ids) && forall k :: 0 <= k < |ids| ==> rows[ids[k]].state == Waiting
  }

  lemma {:induction false} WaitingTail(rows: seq<Row>, ids: seq<nat>, r: Row)
    requires AllWaiting(rows, ids) && ids != []
    ensures AllWaiting(rows[ids[0] := r], ids[1..])
  {
    var next := rows[ids[0] := r];
    forall k | 0 <= k < |ids[1..]| ensures next[ids[1..][k]].state == Waiting {
      assert ids[1..][k] == ids[k + 1];
    }
  }

  lemma {:induction false} PumpHead(
    rows: seq<Row>, ids: seq<nat>, adapter: Adapter, turn: nat, next: seq<Row>, rest: Pumped)
    requires InRange(ids, |rows|) && ids != [] && rows[ids[0]].state == Waiting && Takes(adapter(turn))
    requires next == rows[ids[0] := rows[ids[0]].(state := Outcome(adapter(turn)))]
    requires rest == PumpItems(next, ids[1..], adapter, turn + 1)
    ensures PumpItems(rows, ids, adapter, turn)
            == rest.(sent := rest.sent + (if adapter(turn).Delivers? then 1 else 0))
  {
  }

  ghost predicate PumpedWell(rows: seq<Row>, ids: seq<nat>, turn: nat, o: seq<Turn>, p: Pumped) {
    && |o| <= |ids| && p.turn == TurnAfter(turn, |ids|, o) && (p.sent > 0 <==> Delivers in o)
    && Attempts(rows, ids[..|o|], o, p.rows)
  }

  lemma {:induction false} PumpTakes(rows: seq<Row>, ids: seq<nat>, adapter: Adapter, turn: nat)
    requires AllWaiting(rows, ids)
    ensures PumpedWell(rows, ids, turn, RoundTurns(adapter, turn, |ids|), PumpItems(rows, ids, adapter, turn))
    decreases |ids|
  {
    if ids == [] {
    } else if Takes(adapter(turn)) {
      var r := rows[ids[0]].(state := Outcome(adapter(turn)));
      var next := rows[ids[0] := r];
      WaitingTail(rows, ids, r);
      PumpTakes(next, ids[1..], adapter, turn + 1);
      var rest, o := PumpItems(next, ids[1..], adapter, turn + 1), RoundTurns(adapter, turn + 1, |ids| - 1);
      PumpHead(rows, ids, adapter, turn, next, rest);
      PumpedMore(rows, ids, turn, adapter(turn), o, next, rest, PumpItems(rows, ids, adapter, turn));
    } else {
      assert ids[..0] == [];
    }
  }

  lemma {:induction false} PumpedMore(
    rows: seq<Row>, ids: seq<nat>, turn: nat, t: Turn, o: seq<Turn>, next: seq<Row>, rest: Pumped, p: Pumped)
    requires ids != [] && InRange(ids, |rows|) && Ascending(ids)
    requires next == rows[ids[0] := rows[ids[0]].(state := Outcome(t))]
    requires PumpedWell(next, ids[1..], turn + 1, o, rest)
    requires p == rest.(sent := rest.sent + (if t.Delivers? then 1 else 0))
    ensures PumpedWell(rows, ids, turn, [t] + o, p)
  {
    var all, taken := [t] + o, ids[..|o| + 1];
    assert taken[0] == ids[0] && taken[1..] == ids[1..][..|o|];
    assert ids[0] !in taken[1..];
    forall k | 0 <= k < |all| ensures p.rows[taken[k]] == rows[taken[k]].(state := Outcome(all[k])) {
      if k > 0 { assert taken[1..][k - 1] == taken[k] && all[k] == o[k - 1]; }
    }
    assert Delivers in all <==> t == Delivers || Delivers in o;
  }

  /** Attempting the first `c` due rows leaves exactly the others due. */
  ghost predicate Took(rows: seq<Row>, ids: seq<nat>, i: nat, after: seq<Row>) {
    && |after| == |rows|
    && forall r :: i <= r < |rows| ==> if r in ids then after[r].state != Waiting else after[r] == rows[r]
  }

  lemma {:induction false} DueRemain(rows: seq<Row>, now: real, i: nat, c: nat, after: seq<Row>)
    requires c <= |DueFrom(rows, now, i)| && Took(rows, DueFrom(rows, now, i)[..c], i, after)
    ensures DueFrom(after, now, i) == DueFrom(rows, now, i)[c..]
    decreases |rows| - i
  {
    if i < |rows| {
      var rest := DueFrom(rows, now, i + 1);
      DueFromFacts(rows, now, i + 1);
      if Due(rows[i], now) {
        DueRemainHead(rows, now, i, c, after, [i] + rest, rest);
      } else {
        assert DueFrom(rows, now, i) == rest && i !in rest[..c];
        DueRemain(rows, now, i + 1, c, after);
      }
    }
  }

  lemma {:induction false} DueRemainHead(
    rows: seq<Row>, now: real, i: nat, c: nat, after: seq<Row>, ids: seq<nat>, rest: seq<nat>)
    requires i < |rows| && Due(rows[i], now) && rest == DueFrom(rows, now, i + 1)
    requires ids == [i] + rest && c <= |ids| && Took(rows, ids[..c], i, after)
    ensures DueFrom(after, now, i) == ids[c..]
    decreases |rows| - i, 0
  {
    if c > 0 {
      assert ids[..c] == [i] + rest[..c - 1] && ids[c..] == rest[c - 1..];
      assert i in ids[..c];
      forall r | i + 1 <= r < |rows| ensures r in ids[..c] <==> r in rest[..c - 1] {}
      DueRemain(rows, now, i + 1, c - 1, after);
    } else {
      assert ids[..0] == [] && rest[..0] == [] && rest[0..] == rest && ids[0..] == ids;
      DueRemain(rows, now, i + 1, 0, after);
    }
  }

  /** The first due rows, in id order, were taken by these turns, one each; nothing else changed, and the
      other due rows are what is still due. */
  ghost predicate Prefix(rows: seq<Row>, now: real, o: seq<Turn>, after: seq<Row>) {
    var d := DueIds(rows, now);
    |o| <= |d| && Attempts(rows, d[..|o|], o, after) && DueIds(after, now) == d[|o|..]
  }

  lemma {:induction false} AttemptsTake(rows: seq<Row>, taken: seq<nat>, o: seq<Turn>, after: seq<Row>)
    requires Attempts(rows, taken, o, after)
    ensures Took(rows, taken, 0, after)
  {
    forall r | 0 <= r < |rows| ensures if r in taken then after[r].state != Waiting else after[r] == rows[r] {
      if r in taken { var k :| 0 <= k < |o| && taken[k] == r; }
    }
  }

  lemma {:induction false} RoundTakes(
    rows: seq<Row>, now: real, limit: nat, adapter: Adapter, turn: nat, c: nat, o: seq<Turn>, p: Pumped)
    requires p == Pump(rows, now, limit, adapter, turn) && c == Min(limit, |DueIds(rows, now)|)
    requires o == RoundTurns(adapter, turn, c)
    ensures p.turn == TurnAfter(turn, c, o) && (p.sent > 0 <==> Delivers in o) && Prefix(rows, now, o, p.rows)
  {
    var d := DueIds(rows, now);
    DueFromFacts(rows, now, 0);
    DueAscending(rows, now, 0);
    PumpTakes(rows, d[..c], adapter, turn);
    assert d[..c][..|o|] == d[..|o|];
    AttemptsTake(rows, d[..|o|], o, p.rows);
    DueRemain(rows, now, 0, |o|, p.rows);
  }

  lemma {:induction false} DrainSecond(
    rows: seq<Row>, now: real, limit: nat, adapter: Adapter, turn: nat, p: Pumped, rest: seq<Row>)
    requires p == Pump(rows, now, limit, adapter, turn) && p.sent > 0
    requires rest == Drain(p.rows, now, limit, adapter, p.turn).rows
    ensures Drain(rows, now, limit, adapter, turn).rows == rest
  {
  }

  lemma {:induction false} AttemptsJoin(
    rows: seq<Row>, d: seq<nat>, o: seq<Turn>, q: seq<Turn>, mid: seq<Row>, after: seq<Row>)
    requires |o| + |q| <= |d| && Ascending(d)
    requires Attempts(rows, d[..|o|], o, mid) && Attempts(mid, d[|o|..][..|q|], q, after)
    ensures Attempts(rows, d[..|o| + |q|], o + q, after)
  {
    var a, b, ab, oq := d[..|o|], d[|o|..][..|q|], d[..|o| + |q|], o + q;
    assert ab == a + b;
    forall k | 0 <= k < |oq| ensures ab[k] < |rows| && after[ab[k]] == rows[ab[k]].(state := Outcome(oq[k])) {
      if k < |o| { assert ab[k] == a[k] && ab[k] !in b; } else { assert ab[k] == b[k - |o|] && ab[k] !in a; }
    }
  }

  lemma {:induction false} PrefixJoin(
    rows: seq<Row>, now: real, o: seq<Turn>, q: seq<Turn>, mid: seq<Row>, after: seq<Row>)
    requires Prefix(rows, now, o, mid) && Prefix(mid, now, q, after)
    ensures Prefix(rows, now, o + q, after)
  {
    var d := DueIds(rows, now);
    DueAscending(rows, now, 0);
    AttemptsJoin(rows, d, o, q, mid, after);
    assert d[|o|..][|q|..] == d[|o + q|..];
  }

  lemma {:induction false} TurnsMore(
    adapter: Adapter, turn: nat, n: nat, limit: nat, first: seq<Turn>, later: nat, left: nat, q: seq<Turn>)
    requires first == RoundTurns(adapter, turn, Min(limit, n)) && Delivers in first
    requires later == TurnAfter(turn, Min(limit, n), first) && left == n - |first|
    requires q == DrainTurns(adapter, later, left, limit)
    ensures DrainTurns(adapter, turn, n, limit) == first + q
  {
  }

  /** Whatever the adapter does, draining takes a prefix of the due rows, in id order and each with one
      turn of its own, leaves the rest due and touches nothing else. */
  lemma {:induction false} DrainAttemptsPrefix(
    rows: seq<Row>, now: real, limit: nat, adapter: Adapter, turn: nat, o: seq<Turn>, after: seq<Row>)
    requires o == DrainTurns(adapter, turn, |DueIds(rows, now)|, limit)
    requires after == Drain(rows, now, limit, adapter, turn).rows
    ensures Prefix(rows, now, o, after)
    decreases WaitingCount(rows)
  {
    var n, p := |DueIds(rows, now)|, Pump(rows, now, limit, adapter, turn);
    var c := Min(limit, n);
    var first := RoundTurns(adapter, turn, c);
    RoundTakes(rows, now, limit, adapter, turn, c, first, p);
    if p.sent == 0 {
      assert o == first && after == p.rows;
    } else {
      PumpConsumes(rows, Ready(rows, now, limit), adapter, turn);
      var rest, left := Drain(p.rows, now, limit, adapter, p.turn).rows, |DueIds(p.rows, now)|;
      var q := DrainTurns(adapter, p.turn, left, limit);
      DrainAttemptsPrefix(p.rows, now, limit, adapter, p.turn, q, rest);
      DrainSecond(rows, now, limit, adapter, turn, p, rest);
      TurnsMore(adapter, turn, n, limit, first, p.turn, left, q);
      PrefixJoin(rows, now, first, q, p.rows, rest);
    }
  }

  /** Round `r` delivers nothing, every round before it does, and it leaves some of the `n` due rows: the
      adapter was offline or refused at some turn of it, or it was full and more rows were due. */
  predicate StopsShort(adapter: Adapter, turn: nat, n: nat, limit: nat, r: nat)
    decreases r
  {
    var c := Min(limit, n);
    var o := RoundTurns(adapter, turn, c);
    if r > 0 then Delivers in o && StopsShort(adapter, TurnAfter(turn, c, o), n - |o|, limit, r - 1)
    else Delivers !in o && ((|o| < c && !Takes(adapter(turn + |o|))) || |o| == limit < n)
  }

  lemma {:induction false} RoundStops(adapter: Adapter, turn: nat, c: nat)
    ensures var o := RoundTurns(adapter, turn, c); |o| < c ==> !Takes(adapter(turn + |o|))
    decreases c
  {
    if c > 0 && Takes(adapter(turn)) { RoundStops(adapter, turn + 1, c - 1); }
  }

  lemma {:induction false} StopsLater(
    adapter: Adapter, turn: nat, n: nat, limit: nat, o: seq<Turn>, later: nat, left: nat, r: nat)
    requires o == RoundTurns(adapter, turn, Min(limit, n)) && Delivers in o
    requires later == TurnAfter(turn, Min(limit, n), o) && left == n - |o|
    ensures StopsShort(adapter, turn, n, limit, r) <==> r > 0 && StopsShort(adapter, later, left, limit, r - 1)
  {
  }

  lemma {:induction false} TurnsLeaveIff(adapter: Adapter, turn: nat, n: nat, limit: nat)
    ensures |DrainTurns(adapter, turn, n, limit)| < n <==> exists r: nat :: StopsShort(adapter, turn, n, limit, r)
    decreases n
  {
    var c := Min(limit, n);
    var o := RoundTurns(adapter, turn, c);
    if Delivers !in o {
      RoundStops(adapter, turn, c);
      assert DrainTurns(adapter, turn, n, limit) == o;
      assert StopsShort(adapter, turn, n, limit, 0) <==> |o| < n;
      if r: nat :| StopsShort(adapter, turn, n, limit, r) {
        assert r == 0 && |o| < n;
        assert |DrainTurns(adapter, turn, n, limit)| < n;
      } else {
        assert !StopsShort(adapter, turn, n, limit, 0);
        assert |DrainTurns(adapter, turn, n, limit)| == n;
      }
    } else {
      var later, left := TurnAfter(turn, c, o), n - |o|;
      var q := DrainTurns(adapter, later, left, limit);
      TurnsMore(adapter, turn, n, limit, o, later, left, q);
      TurnsLeaveIff(adapter, later, left, limit);
      if r: nat :| StopsShort(adapter, later, left, limit, r) {
        StopsLater(adapter, turn, n, limit, o, later, left, r + 1);
      }
      if r: nat :| StopsShort(adapter, turn, n, limit, r) {
        StopsLater(adapter, turn, n, limit, o, later, left, r);
        assert StopsShort(adapter, later, left, limit, r - 1);
      }
    }
  }

  /** For every adapter: draining leaves a due row unattempted exactly when one of its rounds stops short
      without a delivery. */
  lemma {:induction false} DrainLeavesIff(rows: seq<Row>, now: real, limit: nat, adapter: Adapter, turn: nat)
    ensures DueIds(Drain(rows, now, limit, adapter, turn).rows, now) != []
            <==> exists r: nat :: StopsShort(adapter, turn, |DueIds(rows, now)|, limit, r)
  {
    var n := |DueIds(rows, now)|;
    DrainAttemptsPrefix(rows, now, limit, adapter, turn, DrainTurns(adapter, turn, n, limit),
                        Drain(rows, now, limit, adapter, turn).rows);
    TurnsLeaveIff(adapter, turn, n, limit);
  }

  /** Two due rows, rounds of one: the first fails, the second is never attempted. */
  lemma {:induction false} DrainLeavesExample(adapter: Adapter)
    requires adapter(0) == Fails
    ensures DueIds(Drain([Row(Waiting, None), Row(Waiting, None)], 0.0, 1, adapter, 0).rows, 0.0) == [1]
  {
    var rows := [Row(Waiting, None), Row(Waiting, None)];
    assert DueFrom(rows, 0.0, 2) == [] && DueFrom(rows, 0.0, 1) == [1] && DueIds(rows, 0.0) == [0, 1];
    assert RoundTurns(adapter, 0, 1) == [Fails] + RoundTurns(adapter, 1, 0);
    DrainAttemptsPrefix(rows, 0.0, 1, adapter, 0, DrainTurns(adapter, 0, 2, 1), Drain(rows, 0.0, 1, adapter, 0).rows);
    assert [0, 1][1..] == [1];
  }

  /* ---- An adapter that never refuses ------------------------------------------------------- */

  /** From this turn on the adapter is connected and never refuses. */
  ghost predicate Steady(adapter: Adapter, turn: nat) { forall n :: n >= turn ==> Takes(adapter(n)) }

  /** None of the `n` turns delivers. */
  predicate Fruitless(adapter: Adapter, turn: nat, n: nat) {
    forall k :: turn <= k < turn + n ==> !adapter(k).Delivers?
  }

  lemma {:induction false} SteadyRound(adapter: Adapter, turn: nat, c: nat)
    requires Steady(adapter, turn)
    ensures |RoundTurns(adapter, turn, c)| == c
    ensures Delivers in RoundTurns(adapter, turn, c) <==> !Fruitless(adapter, turn, c)
    decreases c
  {
    if c > 0 {
      SteadyRound(adapter, turn + 1, c - 1);
      var rest := RoundTurns(adapter, turn + 1, c - 1);
      assert Delivers in [adapter(turn)] + rest <==> adapter(turn) == Delivers || Delivers in rest;
    }
  }

  /** The first full round that delivers nothing has rows due behind it. */
  predicate DeadRound(adapter: Adapter, turn: nat, n: nat, limit: nat, k: nat) {
    k * limit + limit < n && Fruitless(adapter, turn + k * limit, limit)
  }

  lemma {:induction false} LaterRound(adapter: Adapter, turn: nat, n: nat, limit: nat, k: nat)
    requires limit <= n
    ensures DeadRound(adapter, turn + limit, n - limit, limit, k) <==> DeadRound(adapter, turn, n, limit, k + 1)
  {
    assert (k + 1) * limit == k * limit + limit;
    assert turn + limit + k * limit == turn + (k + 1) * limit;
  }

  lemma {:induction false} NoDeadRound(adapter: Adapter, turn: nat, n: nat, limit: nat)
    requires n <= limit
    ensures forall k: nat :: !DeadRound(adapter, turn, n, limit, k)
  {
    forall k: nat ensures !DeadRound(adapter, turn, n, limit, k) { assert k * limit >= 0; }
  }

  lemma {:induction false} SteadyTurnsIff(adapter: Adapter, turn: nat, n: nat, limit: nat)
    requires Steady(adapter, turn)
    ensures |DrainTurns(adapter, turn, n, limit)| < n <==> exists k: nat :: DeadRound(adapter, turn, n, limit, k)
    decreases n
  {
    var c := Min(limit, n);
    SteadyRound(adapter, turn, c);
    if n <= limit {
      NoDeadRound(adapter, turn, n, limit);
    } else if Fruitless(adapter, turn, limit) {
      assert DeadRound(adapter, turn, n, limit, 0);
    } else {
      var later, left := turn + limit, n - limit;
      SteadyTurnsIff(adapter, later, left, limit);
      if k: nat :| DeadRound(adapter, later, left, limit, k) { LaterRound(adapter, turn, n, limit, k); }
      if k: nat :| DeadRound(adapter, turn, n, limit, k) {
        assert k != 0;
        LaterRound(adapter, turn, n, limit, k - 1);
      }
    }
  }

  /** Without refusals the rounds are whole blocks of `limit` turns: a due row is left exactly when one of
      them, with rows due behind it, delivers nothing. */
  lemma {:induction false} SteadyDrainLeavesIff(rows: seq<Row>, now: real, limit: nat, adapter: Adapter, turn: nat)
    requires Steady(adapter, turn)
    ensures DueIds(Drain(rows, now, limit, adapter, turn).rows, now) != []
            <==> exists k: nat :: DeadRound(adapter, turn, |DueIds(rows, now)|, limit, k)
  {
    var n := |DueIds(rows, now)|;
    DrainAttemptsPrefix(rows, now, limit, adapter, turn, DrainTurns(adapter, turn, n, limit),
                        Drain(rows, now, limit, adapter, turn).rows);
    SteadyTurnsIff(adapter, turn, n, limit);
  }
}
