/**
 `VirtualClock` of `pretender/clock.py`. The heap of sleepers is kept as the ascending list of its
 entries, so its first entry is the heap's top. Each method is one stretch between two awaits.
*/
module Clock {
  import opened Prelude

  datatype Sleeper = Sleeper(deadline: real, id: nat)

  datatype Future = Pending | Woken(at: real) | Cancelled

  /** A resolved future, with the deadline it slept for. */
  datatype Wake = Wake(id: nat, deadline: real, at: real)

  predicate Before(d: real, i: nat, e: real, j: nat) { d < e || (d == e && i < j) }

  predicate Ascending(q: seq<Sleeper>) {
    forall i, j :: 0 <= i < j < |q| ==> Before(q[i].deadline, q[i].id, q[j].deadline, q[j].id)
  }

  function Push(q: seq<Sleeper>, s: Sleeper): seq<Sleeper> {
    if q == [] then [s]
    else if Before(s.deadline, s.id, q[0].deadline, q[0].id) then [s] + q
    else [q[0]] + Push(q[1..], s)
  }

  lemma {:induction false} PushFacts(q: seq<Sleeper>, s: Sleeper)
    ensures forall x :: x in Push(q, s) <==> x in q || x == s
    ensures Ascending(q) && (forall x :: x in q ==> x.id != s.id) ==> Ascending(Push(q, s))
  {
    if q != [] && !Before(s.deadline, s.id, q[0].deadline, q[0].id) {
      PushFacts(q[1..], s);
      assert q == [q[0]] + q[1..];
      assert q[0] in q;
      if Ascending(q) && (forall x :: x in q ==> x.id != s.id) {
        assert forall x :: x in q[1..] ==> Before(q[0].deadline, q[0].id, x.deadline, x.id);
        assert Before(q[0].deadline, q[0].id, s.deadline, s.id);
        AscendingHead(q[0], Push(q[1..], s));
      }
    } else if q != [] && Ascending(q) {
      assert forall x :: x in q ==> x == q[0] || Before(q[0].deadline, q[0].id, x.deadline, x.id);
      AscendingHead(s, q);
    }
  }

  lemma {:induction false} AscendingHead(s: Sleeper, q: seq<Sleeper>)
    requires Ascending(q) && forall x :: x in q ==> Before(s.deadline, s.id, x.deadline, x.id)
    ensures Ascending([s] + q)
  {
    assert forall i :: 0 <= i < |q| ==> ([s] + q)[i + 1] == q[i] && q[i] in q;
  }

  /* ---- What every schedule keeps --------------------------------------------------------- */

  predicate DistinctIds(q: seq<Sleeper>) { forall i, j :: 0 <= i < j < |q| ==> q[i].id != q[j].id }

  predicate Sleeps(q: seq<Sleeper>, id: nat) { exists i :: 0 <= i < |q| && q[i].id == id }

  /** The queue is in order, holds no woken future and every pending one. */
  ghost predicate Core(q: seq<Sleeper>, last: nat, futures: map<nat, Future>) {
    && Ascending(q) && DistinctIds(q)
    && (forall i :: 0 <= i < |q| ==> q[i].id in futures && !futures[q[i].id].Woken?)
    && (forall id :: id in futures ==> id <= last && (futures[id].Pending? ==> Sleeps(q, id)))
  }

  ghost predicate AllAfter(q: seq<Sleeper>, t: real) { forall i :: 0 <= i < |q| ==> q[i].deadline > t }

  /** Futures resolved in order of deadline, and among equal deadlines in order of registration,
      none before its deadline, none after the clock. */
  ghost predicate Ordered(log: seq<Wake>, mono: real) {
    && (forall i, j :: 0 <= i < j < |log| ==>
          Before(log[i].deadline, log[i].id, log[j].deadline, log[j].id) && log[i].at <= log[j].at)
    && (forall i :: 0 <= i < |log| ==> log[i].deadline <= log[i].at <= mono)
  }

  /** Whatever resolved comes before whatever still sleeps. */
  ghost predicate Ahead(log: seq<Wake>, q: seq<Sleeper>) {
    forall i, j :: 0 <= i < |log| && 0 <= j < |q| ==> Before(log[i].deadline, log[i].id, q[j].deadline, q[j].id)
  }

  ghost predicate Exact(log: seq<Wake>) { forall i :: 0 <= i < |log| ==> log[i].at == log[i].deadline }

  predicate InLog(log: seq<Wake>, id: nat) { exists i :: 0 <= i < |log| && log[i].id == id }

  ghost predicate Logged(log: seq<Wake>, futures: map<nat, Future>) {
    && (forall i :: 0 <= i < |log| ==> log[i].id in futures && futures[log[i].id] == Woken(log[i].at))
    && (forall id :: id in futures && futures[id].Woken? ==> InLog(log, id))
  }

  /** The sleeper of this future is due at time `t`. */
  predicate DueAt(q: seq<Sleeper>, id: nat, t: real) { exists i :: 0 <= i < |q| && q[i].id == id && q[i].deadline <= t }

  ghost predicate Keeping(q: seq<Sleeper>, last: nat, futures: map<nat, Future>, log: seq<Wake>, mono: real) {
    Core(q, last, futures) && AllAfter(q, mono) && Ordered(log, mono) && Logged(log, futures)
  }

  /** In the middle of waking everything due at `t`. */
  ghost predicate Waking(q: seq<Sleeper>, last: nat, futures: map<nat, Future>, log: seq<Wake>, t: real) {
    Core(q, last, futures) && Ahead(log, q) && Ordered(log, t) && Logged(log, futures)
  }

  lemma {:induction false} StartWaking(
    q: seq<Sleeper>, last: nat, futures: map<nat, Future>, log: seq<Wake>, mono: real, t: real)
    requires Keeping(q, last, futures, log, mono) && mono < t
    ensures Waking(q, last, futures, log, t)
  {
  }

  function Wakes(q: seq<Sleeper>, futures: map<nat, Future>, t: real): map<nat, Future>
    requires q != [] && q[0].id in futures
  {
    if futures[q[0].id].Pending? then futures[q[0].id := Woken(t)] else futures
  }

  function Logs(q: seq<Sleeper>, futures: map<nat, Future>, log: seq<Wake>, t: real): seq<Wake>
    requires q != [] && q[0].id in futures
  {
    if futures[q[0].id].Pending? then log + [Wake(q[0].id, q[0].deadline, t)] else log
  }

  lemma {:induction false} WakeKeepsCore(q: seq<Sleeper>, last: nat, futures: map<nat, Future>, t: real)
    requires Core(q, last, futures) && q != []
    ensures Core(q[1..], last, Wakes(q, futures, t))
  {
    var f := Wakes(q, futures, t);
    forall id | id in f && f[id].Pending? ensures Sleeps(q[1..], id) {
      assert Sleeps(q, id) && id != q[0].id;
      var i :| 0 <= i < |q| && q[i].id == id;
      assert q[1..][i - 1].id == id;
    }
  }

  lemma {:induction false} WakeKeepsLog(q: seq<Sleeper>, last: nat, futures: map<nat, Future>, log: seq<Wake>, t: real)
    requires Waking(q, last, futures, log, t) && q != [] && q[0].deadline <= t
    ensures var f, l := Wakes(q, futures, t), Logs(q, futures, log, t);
            Ahead(l, q[1..]) && Ordered(l, t) && Logged(l, f)
  {
    var f, l := Wakes(q, futures, t), Logs(q, futures, log, t);
    if futures[q[0].id].Pending? {
      assert l[|log|] == Wake(q[0].id, q[0].deadline, t) && forall i :: 0 <= i < |log| ==> l[i] == log[i];
      forall id | id in f && f[id].Woken? ensures InLog(l, id) {
        if id != q[0].id {
          assert InLog(log, id);
          var i :| 0 <= i < |log| && log[i].id == id;
          assert l[i].id == id;
        }
      }
    }
  }

  class VirtualClock {
    const epoch: real
    const autoAdvance: bool
    var mono: real
    var last: nat
    var sleepers: seq<Sleeper>
    var futures: map<nat, Future>
    ghost var log: seq<Wake>
    ghost var manual: bool

    /** All queued deadlines lie strictly ahead of the clock, futures resolve in order, and without
        a manual advance an automatic clock resolves each at exactly its own deadline. */
    ghost predicate Valid()
      reads this
    {
      Keeping(sleepers, last, futures, log, mono) && (autoAdvance && !manual ==> Exact(log))
    }

    constructor (epoch: real, autoAdvance: bool)
      ensures Valid() && this.autoAdvance == autoAdvance && mono == 0.0 && sleepers == [] && log == [] && !manual
    {
      this.epoch, this.autoAdvance := epoch, autoAdvance;
      mono, last, sleepers, futures := 0.0, 0, [], map[];
      log, manual := [], false;
    }

    /** `sleep` up to its first await: register the deadline, unless there is nothing to sleep. */
    method Sleep(seconds: real) returns (id: Option<nat>)
      requires Valid()
      modifies this`last, this`sleepers, this`futures
      ensures Valid() && (id.None? <==> seconds <= 0.0)
      ensures id.None? ==> sleepers == old(sleepers) && futures == old(futures)
      ensures id.Some? ==> id.value == old(last) + 1 == last && futures == old(futures)[id.value := Pending]
                           && sleepers == Push(old(sleepers), Sleeper(mono + seconds, id.value))
    {
      if seconds <= 0.0 { return None; }
      last := last + 1;
      var s := Sleeper(mono + seconds, last);
      PushKeepsCore(sleepers, last, futures, s, mono);
      sleepers, futures := Push(sleepers, s), futures[last := Pending];
      id := Some(last);
    }

    method WakeFirst(ghost q: seq<Sleeper>, ghost f: map<nat, Future>, ghost k: nat)
      requires Waking(sleepers, last, futures, log, mono) && sleepers != [] && sleepers[0].deadline <= mono
      requires DistinctIds(q) && k < |q| && sleepers == q[k..] && Progress(q, f, futures, k, mono)
      modifies this`sleepers, this`futures, this`log
      ensures Waking(sleepers, last, futures, log, mono)
      ensures sleepers == q[k + 1..] && Progress(q, f, futures, k + 1, mono)
      ensures Exact(old(log)) && old(sleepers)[0].deadline == mono ==> Exact(log)
    {
      WakeKeepsCore(sleepers, last, futures, mono);
      WakeKeepsLog(sleepers, last, futures, log, mono);
      ProgressStep(q, f, futures, k, mono);
      log := Logs(sleepers, futures, log, mono);
      futures := Wakes(sleepers, futures, mono);
      sleepers := sleepers[1..];
    }

    /** Move the clock and wake every sleeper whose deadline has passed, in queue order; a cancelled
        one is only removed. */
    method AdvanceTo(target: real)
      requires Valid()
      requires autoAdvance && !manual ==>
                 forall i :: 0 <= i < |sleepers| && sleepers[i].deadline <= target ==> sleepers[i].deadline == target
      modifies this`mono, this`sleepers, this`futures, this`log
      ensures Valid() && mono == if target <= old(mono) then old(mono) else target
      ensures target <= old(mono) ==> sleepers == old(sleepers) && futures == old(futures)
      ensures target > old(mono) ==> futures.Keys == old(futures).Keys && forall id :: id in futures ==>
                futures[id] == if old(futures)[id].Pending? && DueAt(old(sleepers), id, target) then Woken(target)
                               else old(futures)[id]
    {
      if target <= mono { return; }
      ghost var q, f := sleepers, futures;
      StartWaking(sleepers, last, futures, log, mono, target);
      mono := target;
      ghost var k := 0;
      while sleepers != [] && sleepers[0].deadline <= mono
        invariant Waking(sleepers, last, futures, log, target) && mono == target
        invariant autoAdvance && !manual ==> Exact(log)
        invariant k <= |q| && sleepers == q[k..] && Progress(q, f, futures, k, target)
        decreases |sleepers|
      {
        WakeFirst(q, f, k);
        k := k + 1;
      }
      ProgressEnds(q, f, futures, k, target);
    }

    method Advance(seconds: real) returns (ok: bool)
      requires Valid()
      modifies this
      ensures Valid() && ok == (seconds >= 0.0) && mono == if ok then old(mono) + seconds else old(mono)
      ensures !ok ==> sleepers == old(sleepers) && futures == old(futures)
    {
      ok := seconds >= 0.0;
      if ok {
        manual := true;
        AdvanceTo(mono + seconds);
      }
    }

    /** One turn of a waiting sleep on an automatic clock: the earliest sleeper moves the clock to its
        own deadline; any other only looks whether it has been woken. */
    method Poll(id: nat) returns (awake: bool)
      requires Valid() && autoAdvance && id in futures && !futures[id].Cancelled?
      modifies this
      ensures Valid() && manual == old(manual) && id in futures && (awake <==> futures[id].Woken?)
      ensures old(sleepers) != [] && old(sleepers)[0].id == id
              ==> awake && mono == old(sleepers)[0].deadline && futures[id] == Woken(mono)
      ensures old(sleepers) == [] || old(sleepers)[0].id != id
              ==> mono == old(mono) && sleepers == old(sleepers) && futures == old(futures)
    {
      if sleepers != [] && sleepers[0].id == id {
        assert DueAt(sleepers, id, sleepers[0].deadline);
        AdvanceTo(sleepers[0].deadline);
        return true;
      }
      awake := futures[id].Woken?;
    }

    method DropSleeper(id: nat)
      modifies this`sleepers
      ensures sleepers == Without(old(sleepers), id)
    {
      for i := 0 to |sleepers|
        invariant Without(sleepers, id) == sleepers[..i] + Without(sleepers[i..], id)
      {
        assert sleepers[i..][0] == sleepers[i] && sleepers[i..][1..] == sleepers[i + 1..];
        if sleepers[i].id == id {
          sleepers := sleepers[..i] + sleepers[i + 1..];
          return;
        }
        assert sleepers[..i] + ([sleepers[i]] + Without(sleepers[i + 1..], id))
            == sleepers[..i + 1] + Without(sleepers[i + 1..], id);
      }
      assert sleepers[|sleepers|..] == [];
    }

    /** A sleeping task is cancelled: on an automatic clock its entry, and no other, leaves the queue;
        otherwise the entry stays and is skipped when its time comes. */
    method Cancel(id: nat)
      requires Valid() && id in futures
      modifies this`sleepers, this`futures
      ensures Valid() && futures == if old(futures)[id].Pending? then old(futures)[id := Cancelled] else old(futures)
      ensures sleepers == if autoAdvance && old(futures)[id].Pending? then Without(old(sleepers), id) else old(sleepers)
    {
      if futures[id].Pending? {
        CancelKeeps(sleepers, last, futures, log, id, mono);
        futures := futures[id := Cancelled];
        if autoAdvance { DropSleeper(id); }
      }
    }

    /** Any schedule of sleeps, turns, cancellations and advances. */
    method Drive(schedule: seq<Command>)
      requires Valid()
      modifies this
      ensures Valid() && AllAfter(sleepers, mono) && Ordered(log, mono)
      ensures autoAdvance && !manual ==> Exact(log)
    {
      for k := 0 to |schedule|
        invariant Valid()
      {
        match schedule[k] {
          case Begin(seconds) => var id := Sleep(seconds);
          case Turn(id) => if autoAdvance && id in futures && !futures[id].Cancelled? { var awake := Poll(id); }
          case Abandon(id) => if id in futures { Cancel(id); }
          case Move(seconds) => var ok := Advance(seconds);
        }
      }
    }
  }

  datatype Command = Begin(seconds: real) | Turn(id: nat) | Abandon(id: nat) | Move(seconds: real)

  /** The queue without the entry of one sleep. */
  function Without(q: seq<Sleeper>, id: nat): seq<Sleeper> {
    if q == [] then [] else if q[0].id == id then q[1..] else [q[0]] + Without(q[1..], id)
  }

  lemma {:induction false} WithoutMembers(q: seq<Sleeper>, id: nat)
    requires DistinctIds(q)
    ensures forall s :: s in Without(q, id) <==> s in q && s.id != id
  {
    if q != [] {
      assert q == [q[0]] + q[1..];
      assert forall s :: s in q[1..] ==> s.id != q[0].id;
      WithoutMembers(q[1..], id);
    }
  }

  lemma {:induction false} WithoutDistinct(q: seq<Sleeper>, id: nat)
    requires DistinctIds(q)
    ensures DistinctIds(Without(q, id))
  {
    if q != [] && q[0].id != id {
      var rest := Without(q[1..], id);
      WithoutDistinct(q[1..], id);
      WithoutMembers(q[1..], id);
      forall i | 0 <= i < |rest| ensures rest[i].id != q[0].id { assert rest[i] in q[1..]; }
    }
  }

  lemma {:induction false} WithoutAscends(q: seq<Sleeper>, id: nat)
    requires DistinctIds(q) && Ascending(q)
    ensures Ascending(Without(q, id))
  {
    if q != [] && q[0].id != id {
      var rest := Without(q[1..], id);
      WithoutAscends(q[1..], id);
      WithoutMembers(q[1..], id);
      forall s | s in rest ensures Before(q[0].deadline, q[0].id, s.deadline, s.id) { assert s in q[1..]; }
      AscendingHead(q[0], rest);
    }
  }

  lemma {:induction false} CancelKeeps(
    q: seq<Sleeper>, last: nat, futures: map<nat, Future>, log: seq<Wake>, id: nat, mono: real)
    requires Keeping(q, last, futures, log, mono) && id in futures && futures[id].Pending?
    ensures Keeping(q, last, futures[id := Cancelled], log, mono)
    ensures Keeping(Without(q, id), last, futures[id := Cancelled], log, mono)
  {
    var f, w := futures[id := Cancelled], Without(q, id);
    WithoutMembers(q, id);
    WithoutDistinct(q, id);
    WithoutAscends(q, id);
    assert forall i :: 0 <= i < |w| ==> w[i] in w && w[i] in q;
    forall j | j in f && f[j].Pending? ensures Sleeps(w, j) {
      assert Sleeps(q, j);
      var i :| 0 <= i < |q| && q[i].id == j;
      assert q[i] in w;
    }
  }

  lemma {:induction false} PushKeepsCore(q: seq<Sleeper>, last: nat, futures: map<nat, Future>, s: Sleeper, mono: real)
    requires last > 0 && Core(q, last - 1, futures) && AllAfter(q, mono) && s.id == last && s.deadline > mono
    ensures Core(Push(q, s), last, futures[last := Pending]) && AllAfter(Push(q, s), mono)
  {
    var p, f := Push(q, s), futures[last := Pending];
    assert forall i :: 0 <= i < |q| ==> q[i] in q && q[i].id != s.id;
    PushFacts(q, s);
    PushDistinct(q, s);
    assert forall i :: 0 <= i < |p| ==> p[i] in p;
    forall id | id in f && f[id].Pending? ensures Sleeps(p, id) {
      if id == last {
        assert s in p;
      } else {
        assert Sleeps(q, id);
        var i :| 0 <= i < |q| && q[i].id == id;
        assert q[i] in p;
      }
    }
  }

  lemma {:induction false} PushDistinct(q: seq<Sleeper>, s: Sleeper)
    requires DistinctIds(q) && forall i :: 0 <= i < |q| ==> q[i].id != s.id
    ensures DistinctIds(Push(q, s))
  {
    if q != [] && !Before(s.deadline, s.id, q[0].deadline, q[0].id) {
      var rest := Push(q[1..], s);
      PushDistinct(q[1..], s);
      PushFacts(q[1..], s);
      assert forall i :: 0 <= i < |rest| ==> rest[i] in rest;
      assert forall x :: x in q[1..] ==> x.id != q[0].id;
    }
  }

  /** The first `k` entries have been taken, the pending ones among them woken. */
  ghost predicate Progress(q: seq<Sleeper>, f: map<nat, Future>, g: map<nat, Future>, k: nat, t: real) {
    && k <= |q| && g.Keys == f.Keys && (forall i :: 0 <= i < |q| ==> q[i].id in f)
    && (forall i :: 0 <= i < k ==> q[i].deadline <= t)
    && (forall i :: 0 <= i < |q| ==> g[q[i].id] == if i < k && f[q[i].id].Pending? then Woken(t) else f[q[i].id])
    && (forall id :: id in f && !Sleeps(q, id) ==> g[id] == f[id])
  }

  lemma {:induction false} ProgressStep(q: seq<Sleeper>, f: map<nat, Future>, g: map<nat, Future>, k: nat, t: real)
    requires Progress(q, f, g, k, t) && k < |q| && q[k].deadline <= t && DistinctIds(q)
    ensures Progress(q, f, Wakes(q[k..], g, t), k + 1, t)
  {
    assert q[k..][0] == q[k] && Sleeps(q, q[k].id);
  }

  lemma {:induction false} ProgressEnds(q: seq<Sleeper>, f: map<nat, Future>, g: map<nat, Future>, k: nat, t: real)
    requires Progress(q, f, g, k, t) && Ascending(q) && DistinctIds(q) && (k < |q| ==> q[k].deadline > t)
    ensures AllAfter(q[k..], t)
    ensures forall id :: id in f ==> g[id] == if f[id].Pending? && DueAt(q, id, t) then Woken(t) else f[id]
  {
    forall id | id in f ensures g[id] == if f[id].Pending? && DueAt(q, id, t) then Woken(t) else f[id] {
      if Sleeps(q, id) {
        var i :| 0 <= i < |q| && q[i].id == id;
        assert DueAt(q, id, t) <==> q[i].deadline <= t;
        assert i < k <==> q[i].deadline <= t;
      }
    }
  }
}
