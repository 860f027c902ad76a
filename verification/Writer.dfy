/**
 The group-commit writer of `pretender/db.py`. A database value and an operation are arbitrary;
 BEGIN, SAVEPOINT, ROLLBACK TO, COMMIT and ROLLBACK save and restore states as in SQLite.

 `Database` is the writer with its queue, the batch in the writer's hand and the futures handed
 to callers. Any interleaving of calls to its methods is a run; `Valid` is what every run keeps.
*/
module Writer {
  import opened Prelude

  const CLOSED: string := "database closed"
  const NESTED: string := "cannot start a transaction within a transaction"

  type Db = map<string, string>

  type Op = nat

  datatype Effect = Done(db: Db, value: string) | Raised(dirty: Db, error: string)

  /** What each operation does to a database: any function. */
  type Meaning = (Db, Op) -> Effect

  datatype Future = Pending | Cancelled | Value(value: string) | Error(error: string)

  datatype Item = Item(op: Op, ticket: nat)

  datatype Slot = Job(item: Item) | Sentinel

  /** What the engine refuses during one batch; `aborted` says that the failed COMMIT already
      ended the transaction. */
  datatype Fault = Fault(begin: Option<string>, commit: Option<string>, aborted: bool, rollback: bool)

  /* ---- One operation as its own transaction --------------------------------------- */

  function Step(m: Meaning, db: Db, op: Op): Db {
    match m(db, op)
    case Done(d, _) => d
    case Raised(_, _) => db
  }

  function Answer(m: Meaning, db: Db, op: Op): Future {
    match m(db, op)
    case Done(_, v) => Value(v)
    case Raised(_, e) => Error(e)
  }

  /** The database after the first `k` operations, one transaction each. */
  function After(m: Meaning, db: Db, ops: seq<Op>, k: nat): Db
    requires k <= |ops|
  {
    if k == 0 then db else Step(m, After(m, db, ops, k - 1), ops[k - 1])
  }

  function Answers(m: Meaning, db: Db, ops: seq<Op>): seq<Future> {
    seq(|ops|, i requires 0 <= i < |ops| => Answer(m, After(m, db, ops, i), ops[i]))
  }

  function OpsOf(items: seq<Item>): seq<Op> {
    seq(|items|, i requires 0 <= i < |items| => items[i].op)
  }

  /* ---- Resolving futures ------------------------------------------------------------ */

  function SetOnce(fs: seq<Future>, t: nat, r: Future): seq<Future> {
    if t < |fs| && fs[t].Pending? then fs[t := r] else fs
  }

  /** Every pending future of the range gets its answer; every other future stays. */
  function Settled(fs: seq<Future>, start: nat, answers: seq<Future>): seq<Future> {
    seq(|fs|, t requires 0 <= t < |fs| =>
      if start <= t < start + |answers| && fs[t].Pending? then answers[t - start] else fs[t])
  }

  function Raising(answers: seq<Future>): seq<Future> {
    seq(|answers|, i requires 0 <= i < |answers| => if answers[i].Error? then answers[i] else Pending)
  }

  /** The answers of a batch whose COMMIT failed: an operation's own error, else the engine's. */
  function Doomed(answers: seq<Future>, e: string): seq<Future> {
    seq(|answers|, i requires 0 <= i < |answers| => if answers[i].Error? then answers[i] else Error(e))
  }

  function AllFail(n: nat, e: string): seq<Future> { seq(n, _ => Error(e)) }

  /* ---- The connection ------------------------------------------------------------------ */

  class Connection {
    var committed: Db
    var current: Db
    var saved: Option<Db>
    var open: bool

    ghost predicate Steady()
      reads this
    {
      saved.None? && (!open ==> current == committed)
    }

    constructor (db: Db)
      ensures committed == db && !open && Steady()
    {
      committed, current, saved, open := db, db, None, false;
    }

    method Begin()
      requires !open && Steady()
      modifies this
      ensures open && current == committed == old(committed) && saved.None?
    {
      open := true;
    }

    method Savepoint()
      requires open
      modifies this`saved
      ensures saved == Some(current)
    {
      saved := Some(current);
    }

    method RollbackTo()
      requires saved.Some?
      modifies this`current
      ensures current == saved.value
    {
      current := saved.value;
    }

    method Release()
      modifies this`saved
      ensures saved.None?
    {
      saved := None;
    }

    method Write(db: Db)
      requires open
      modifies this`current
      ensures current == db
    {
      current := db;
    }

    /** COMMIT makes the current state durable, or fails and leaves the durable state alone. */
    method Commit(fault: Fault) returns (ok: bool)
      requires open && saved.None?
      modifies this
      ensures ok == fault.commit.None?
      ensures saved.None? && open == (!ok && !fault.aborted)
      ensures committed == if ok then old(current) else old(committed)
      ensures current == if open then old(current) else committed
    {
      ok := fault.commit.None?;
      if ok {
        committed, open := current, false;
      } else if fault.aborted {
        current, open := committed, false;
      }
    }

    /** ROLLBACK fails without a transaction, and may fail with one. */
    method Rollback(fault: Fault) returns (ok: bool)
      requires Steady()
      modifies this
      ensures ok == (old(open) && !fault.rollback)
      ensures committed == old(committed) && Steady()
      ensures open == (old(open) && fault.rollback)
    {
      ok := open && !fault.rollback;
      if ok { current, open := committed, false; }
    }
  }

  /* ---- The writer's history -------------------------------------------------------------- */

  /** Whether the batch of an operation reached its COMMIT, and if not, what its caller got. */
  datatype Fate = Kept | Lost(error: string)

  /** The database after the first `k` accepted operations, the lost ones left out. */
  ghost function StateAt(m: Meaning, db: Db, ops: seq<Op>, fates: seq<Fate>, k: nat): Db
    requires k <= |ops| && k <= |fates|
  {
    if k == 0 then db
    else
      var before := StateAt(m, db, ops, fates, k - 1);
      if fates[k - 1].Kept? then Step(m, before, ops[k - 1]) else before
  }

  ghost function Due(m: Meaning, db: Db, ops: seq<Op>, fates: seq<Fate>, i: nat): Future
    requires i < |ops| && i < |fates|
  {
    if fates[i].Kept? then Answer(m, StateAt(m, db, ops, fates, i), ops[i]) else Error(fates[i].error)
  }

  ghost predicate Resolved(m: Meaning, db: Db, ops: seq<Op>, fates: seq<Fate>, fs: seq<Future>) {
    && |fs| == |ops| && |fates| <= |ops|
    && (forall i :: 0 <= i < |fates| ==> fs[i].Cancelled? || fs[i] == Due(m, db, ops, fates, i))
    && (forall i :: |fates| <= i < |ops| ==> fs[i].Cancelled? || fs[i].Pending?)
  }

  ghost function Items(ops: seq<Op>, from: nat, to: nat): seq<Item>
    requires from <= to <= |ops|
  {
    seq(to - from, i requires 0 <= i < to - from => Item(ops[from + i], from + i))
  }

  ghost function Jobs(ops: seq<Op>, from: nat): seq<Slot>
    requires from <= |ops|
  {
    seq(|ops| - from, i requires 0 <= i < |ops| - from => Job(Item(ops[from + i], from + i)))
  }

  lemma {:induction false} ItemsOps(ops: seq<Op>, from: nat, to: nat)
    requires from <= to <= |ops|
    ensures Run(ops, from, OpsOf(Items(ops, from, to)))
  {
    assert ops[from..to] == OpsOf(Items(ops, from, to));
  }

  lemma {:induction false} StateOfPrefix(m: Meaning, db: Db, a: seq<Op>, f: seq<Fate>, b: seq<Op>, g: seq<Fate>, k: nat)
    requires k <= |f| <= |a| && a <= b && f <= g && |g| <= |b|
    ensures StateAt(m, db, a, f, k) == StateAt(m, db, b, g, k)
  {
    if k > 0 { StateOfPrefix(m, db, a, f, b, g, k - 1); }
  }

  lemma {:induction false} DueOfPrefix(m: Meaning, db: Db, a: seq<Op>, f: seq<Fate>, b: seq<Op>, g: seq<Fate>, i: nat)
    requires i < |f| <= |a| && a <= b && f <= g && |g| <= |b|
    ensures Due(m, db, a, f, i) == Due(m, db, b, g, i)
  {
    StateOfPrefix(m, db, a, f, b, g, i);
  }

  ghost predicate Run<T>(all: seq<T>, from: nat, part: seq<T>) {
    from + |part| <= |all| && all[from..from + |part|] == part
  }

  /** A batch that is kept continues the serial run where the history stands. */
  lemma {:induction false} KeptContinues(
    m: Meaning, db: Db, ops: seq<Op>, fates: seq<Fate>, s: nat, mine: seq<Op>, k: nat)
    requires Run(ops, s, mine) && s + |mine| == |fates| && k <= |mine|
    requires forall i :: s <= i < |fates| ==> fates[i] == Kept
    ensures StateAt(m, db, ops, fates, s + k) == After(m, StateAt(m, db, ops, fates, s), mine, k)
  {
    if k > 0 {
      KeptContinues(m, db, ops, fates, s, mine, k - 1);
      assert ops[s..s + |mine|][k - 1] == mine[k - 1];
    }
  }

  lemma {:induction false} LostSkips(m: Meaning, db: Db, ops: seq<Op>, fates: seq<Fate>, s: nat, k: nat)
    requires s + k <= |fates| <= |ops|
    requires forall i :: s <= i < s + k ==> fates[i].Lost?
    ensures StateAt(m, db, ops, fates, s + k) == StateAt(m, db, ops, fates, s)
  {
    if k > 0 { LostSkips(m, db, ops, fates, s, k - 1); }
  }

  /** Held results of a batch, in order: the operations that went through, with their tickets. */
  function HeldOf(start: nat, answers: seq<Future>): seq<(nat, string)> {
    if answers == [] then []
    else
      var init, last := HeldOf(start, answers[..|answers| - 1]), answers[|answers| - 1];
      if last.Value? then init + [(start + |answers| - 1, last.value)] else init
  }

  function Fulfil(fs: seq<Future>, held: seq<(nat, string)>): (r: seq<Future>)
    ensures |r| == |fs|
  {
    if held == [] then fs
    else SetOnce(Fulfil(fs, held[..|held| - 1]), held[|held| - 1].0, Value(held[|held| - 1].1))
  }

  function FailHeld(fs: seq<Future>, held: seq<(nat, string)>, e: string): (r: seq<Future>)
    ensures |r| == |fs|
  {
    if held == [] then fs
    else SetOnce(FailHeld(fs, held[..|held| - 1], e), held[|held| - 1].0, Error(e))
  }

  predicate Answered(answers: seq<Future>) {
    forall i :: 0 <= i < |answers| ==> answers[i].Value? || answers[i].Error?
  }

  lemma {:induction false} FulfilAt(fs: seq<Future>, start: nat, answers: seq<Future>, t: nat)
    requires t < |fs|
    ensures Fulfil(fs, HeldOf(start, answers))[t] ==
            if start <= t < start + |answers| && answers[t - start].Value? && fs[t].Pending? then answers[t - start]
            else fs[t]
  {
    if answers != [] {
      var n := |answers| - 1;
      var init, held := HeldOf(start, answers[..n]), HeldOf(start, answers);
      FulfilAt(fs, start, answers[..n], t);
      if answers[n].Value? {
        assert held[..|held| - 1] == init && held[|held| - 1] == (start + n, answers[n].value);
      }
    }
  }

  lemma {:induction false} FailHeldAt(fs: seq<Future>, start: nat, answers: seq<Future>, e: string, t: nat)
    requires t < |fs|
    ensures FailHeld(fs, HeldOf(start, answers), e)[t] ==
            if start <= t < start + |answers| && answers[t - start].Value? && fs[t].Pending? then Error(e) else fs[t]
  {
    if answers != [] {
      var n := |answers| - 1;
      var init, held := HeldOf(start, answers[..n]), HeldOf(start, answers);
      FailHeldAt(fs, start, answers[..n], e, t);
      if answers[n].Value? {
        assert held[..|held| - 1] == init && held[|held| - 1] == (start + n, answers[n].value);
      }
    }
  }

  /** Publishing the held results after the raised ones gives every pending future its answer. */
  lemma {:induction false} FulfilSettles(fs: seq<Future>, start: nat, answers: seq<Future>)
    requires Answered(answers)
    ensures Fulfil(Settled(fs, start, Raising(answers)), HeldOf(start, answers)) == Settled(fs, start, answers)
  {
    forall t | 0 <= t < |fs|
      ensures Fulfil(Settled(fs, start, Raising(answers)), HeldOf(start, answers))[t] == Settled(fs, start, answers)[t]
    {
      FulfilAt(Settled(fs, start, Raising(answers)), start, answers, t);
    }
  }

  /** Failing the held results instead gives every pending future an error. */
  lemma {:induction false} FailHeldSettles(fs: seq<Future>, start: nat, answers: seq<Future>, e: string)
    requires Answered(answers)
    ensures FailHeld(Settled(fs, start, Raising(answers)), HeldOf(start, answers), e)
            == Settled(fs, start, Doomed(answers, e))
  {
    forall t | 0 <= t < |fs|
      ensures FailHeld(Settled(fs, start, Raising(answers)), HeldOf(start, answers), e)[t]
              == Settled(fs, start, Doomed(answers, e))[t]
    {
      FailHeldAt(Settled(fs, start, Raising(answers)), start, answers, e, t);
    }
  }

  lemma {:induction false} RaisingStep(fs: seq<Future>, start: nat, answers: seq<Future>, i: nat)
    requires i < |answers| && start + i < |fs|
    ensures Settled(fs, start, Raising(answers[..i + 1])) ==
            if answers[i].Error? then SetOnce(Settled(fs, start, Raising(answers[..i])), start + i, answers[i])
            else Settled(fs, start, Raising(answers[..i]))
  {
  }

  lemma {:induction false} HeldStep(start: nat, answers: seq<Future>, i: nat)
    requires i < |answers|
    ensures HeldOf(start, answers[..i + 1]) ==
            if answers[i].Value? then HeldOf(start, answers[..i]) + [(start + i, answers[i].value)]
            else HeldOf(start, answers[..i])
  {
    assert answers[..i + 1][..i] == answers[..i];
  }

  /* ---- Predicates on the values in a batch's way ------------------------------------------- */

  /** The batch in hand and the queue hold the operations from `from` on, in order of submission;
      the sentinel stands behind all of them. */
  ghost predicate Lined(ops: seq<Op>, from: nat, batch: seq<Item>, queue: seq<Slot>, sentinel: bool) {
    && from + |batch| <= |ops|
    && batch == Items(ops, from, from + |batch|)
    && queue == Jobs(ops, from + |batch|) + (if sentinel then [Sentinel] else [])
  }

  /** `i` operations of a batch have run on `db`: the raised ones failed, the results are held. */
  ghost predicate Ran(
    m: Meaning, db: Db, ops: seq<Op>, s: nat, fs: seq<Future>, i: nat, cur: Db, f: seq<Future>,
    held: seq<(nat, string)>)
  {
    && i <= |ops| && s + |ops| <= |fs|
    && cur == After(m, db, ops, i)
    && f == Settled(fs, s, Raising(Answers(m, db, ops)[..i]))
    && held == HeldOf(s, Answers(m, db, ops)[..i])
  }

  ghost predicate OneRan(
    m: Meaning, op: Op, t: nat, cur: Db, f: seq<Future>, r: Option<string>, cur': Db, f': seq<Future>)
  {
    && cur' == Step(m, cur, op)
    && match Answer(m, cur, op)
       case Value(v) => r == Some(v) && f' == f
       case other => r == None && f' == SetOnce(f, t, other)
  }

  lemma {:induction false} RanNothing(m: Meaning, db: Db, ops: seq<Op>, s: nat, fs: seq<Future>)
    requires s + |ops| <= |fs|
    ensures Ran(m, db, ops, s, fs, 0, db, fs, [])
  {
    assert Settled(fs, s, Raising(Answers(m, db, ops)[..0])) == fs;
  }

  lemma {:induction false} RanStep(
    m: Meaning, db: Db, ops: seq<Op>, s: nat, fs: seq<Future>, i: nat, cur: Db, f: seq<Future>,
    held: seq<(nat, string)>, r: Option<string>, cur': Db, f': seq<Future>, held': seq<(nat, string)>)
    requires i < |ops| && Ran(m, db, ops, s, fs, i, cur, f, held) && OneRan(m, ops[i], s + i, cur, f, r, cur', f')
    requires held' == if r.Some? then held + [(s + i, r.value)] else held
    ensures Ran(m, db, ops, s, fs, i + 1, cur', f', held') && |f'| == |fs|
  {
    var answers := Answers(m, db, ops);
    RaisingStep(fs, s, answers, i);
    HeldStep(s, answers, i);
  }

  /** What one batch does to the durable database, the connection and the futures. */
  ghost predicate BatchDone(m: Meaning, fault: Fault, ops: seq<Op>, s: nat,
                            open: bool, db: Db, fs: seq<Future>, open': bool, db': Db, fs': seq<Future>, counted: nat) {
    if open || fault.begin.Some? then
      && db' == db && open' == open && counted == 0
      && fs' == Settled(fs, s, AllFail(|ops|, if open then NESTED else fault.begin.value))
    else if fault.commit.None? then
      && db' == After(m, db, ops, |ops|) && !open' && counted == 1
      && fs' == Settled(fs, s, Answers(m, db, ops))
    else
      && db' == db && open' == (!fault.aborted && fault.rollback) && counted == 0
      && fs' == Settled(fs, s, Doomed(Answers(m, db, ops), fault.commit.value))
  }

  /* ---- The database ------------------------------------------------------------------------ */

  class Database {
    const conn: Connection
    const batchCap: int
    const m: Meaning
    var queue: seq<Slot>
    var batch: seq<Item>
    var futures: seq<Future>
    var transactions: nat
    var closed: bool
    var stopped: bool
    ghost const start: Db
    ghost var accepted: seq<Op>
    ghost var fates: seq<Fate>

    /** The queue and the batch in hand hold the accepted operations that have no fate yet, and
        the durable database and every future are what the kept operations give one by one. */
    ghost predicate Valid()
      reads this, conn
    {
      && Lined(accepted, |fates|, batch, queue, closed && !stopped)
      && (stopped ==> closed && queue == [] && batch == [])
      && conn.Steady()
      && |fates| <= |accepted|
      && conn.committed == StateAt(m, start, accepted, fates, |fates|)
      && Resolved(m, start, accepted, fates, futures)
    }

    constructor (m: Meaning, db: Db, batchCap: int)
      ensures Valid() && fresh(conn) && !closed && !stopped && start == db && this.m == m && this.batchCap == batchCap
      ensures accepted == [] && transactions == 0 && !conn.open
    {
      conn := new Connection(db);
      this.m, this.batchCap := m, batchCap;
      queue, batch, futures, transactions, closed, stopped := [], [], [], 0, false, false;
      start, accepted, fates := db, [], [];
    }

    /** Submit an operation: it gets the next ticket, or is refused after `Close`. */
    method Write(op: Op) returns (r: Result<nat, string>)
      requires Valid()
      modifies this
      ensures Valid() && fates == old(fates) && batch == old(batch) && transactions == old(transactions)
      ensures closed == old(closed) && stopped == old(stopped)
      ensures old(closed)
              ==> r == Err(CLOSED) && queue == old(queue) && futures == old(futures) && accepted == old(accepted)
      ensures !old(closed)
              ==> r == Ok(|old(futures)|) && accepted == old(accepted) + [op] && futures == old(futures) + [Pending]
    {
      if closed { return Err(CLOSED); }
      r := Ok(|futures|);
      ghost var was := accepted;
      accepted := accepted + [op];
      queue := queue + [Job(Item(op, |futures|))];
      futures := futures + [Pending];
      JobsGrow(was, op, |fates| + |batch|);
      ItemsGrow(was, op, |fates|, |fates| + |batch|);
      StateOfPrefix(m, start, was, fates, accepted, fates, |fates|);
      ResolvedGrows(m, start, was, fates, old(futures), op);
    }

    /** A caller gives up waiting; a future that is done stays as it is. */
    method Cancel(t: nat)
      requires Valid() && t < |futures|
      modifies this`futures
      ensures Valid() && futures == SetOnce(old(futures), t, Cancelled)
    {
      if futures[t].Pending? { futures := futures[t := Cancelled]; }
    }

    method Close()
      requires Valid()
      modifies this`closed, this`queue
      ensures Valid() && closed
    {
      if closed { return; }
      closed := true;
      queue := queue + [Sentinel];
    }

    /** One operation in its savepoint: it goes through, or it raises, is rolled back and fails its
        future at once. */
    method RunOne(item: Item) returns (r: Option<string>)
      requires conn.open && conn.saved.None? && item.ticket < |futures|
      modifies this`futures, conn
      ensures conn.open && conn.saved.None? && conn.committed == old(conn.committed)
      ensures OneRan(m, item.op, item.ticket, old(conn.current), old(futures), r, conn.current, futures)
    {
      conn.Savepoint();
      match m(conn.current, item.op) {
        case Raised(dirty, e) =>
          conn.Write(dirty);
          conn.RollbackTo();
          conn.Release();
          if futures[item.ticket].Pending? { futures := futures[item.ticket := Error(e)]; }
          r := None;
        case Done(after, v) =>
          conn.Write(after);
          conn.Release();
          r := Some(v);
      }
    }

    method RunNext(
      item: Item, held: seq<(nat, string)>, ghost i: nat, ghost s: nat, ghost ops: seq<Op>, ghost db: Db,
      ghost fs: seq<Future>)
      returns (held': seq<(nat, string)>)
      requires conn.open && conn.saved.None? && i < |ops| && item == Item(ops[i], s + i) && s + i < |futures|
      requires Ran(m, db, ops, s, fs, i, conn.current, futures, held)
      modifies this`futures, conn
      ensures conn.open && conn.saved.None? && conn.committed == old(conn.committed) && |futures| == |fs|
      ensures Ran(m, db, ops, s, fs, i + 1, conn.current, futures, held')
    {
      ghost var cur, f := conn.current, futures;
      var r := RunOne(item);
      held' := if r.Some? then held + [(item.ticket, r.value)] else held;
      RanStep(m, db, ops, s, fs, i, cur, f, held, r, conn.current, futures, held');
    }

    /** The operations of the batch, in order. The raised ones have failed; no future gets a value
        here: the results of the others are held. */
    method RunOps(ghost s: nat, ghost ops: seq<Op>) returns (held: seq<(nat, string)>)
      requires conn.open && conn.saved.None? && s + |batch| <= |futures|
      requires ops == OpsOf(batch) && forall i :: 0 <= i < |batch| ==> batch[i].ticket == s + i
      modifies this`futures, conn
      ensures conn.open && conn.saved.None? && conn.committed == old(conn.committed)
      ensures Ran(m, old(conn.current), ops, s, old(futures), |ops|, conn.current, futures, held)
    {
      ghost var db, fs := conn.current, futures;
      var items := batch;
      held := [];
      RanNothing(m, db, ops, s, fs);
      for i := 0 to |items|
        invariant conn.open && conn.saved.None? && conn.committed == old(conn.committed)
        invariant |futures| == |fs|
        invariant Ran(m, db, ops, s, fs, i, conn.current, futures, held)
      {
        assert items[i] == Item(ops[i], s + i);
        held := RunNext(items[i], held, i, s, ops, db, fs);
      }
    }

    method Publish(held: seq<(nat, string)>)
      requires forall j :: 0 <= j < |held| ==> held[j].0 < |futures|
      modifies this`futures
      ensures futures == Fulfil(old(futures), held)
    {
      for j := 0 to |held|
        invariant futures == Fulfil(old(futures), held[..j])
      {
        assert held[..j + 1][..j] == held[..j];
        var (t, v) := held[j];
        if futures[t].Pending? { futures := futures[t := Value(v)]; }
      }
      assert held[..|held|] == held;
    }

    method FailAllHeld(held: seq<(nat, string)>, e: string)
      requires forall j :: 0 <= j < |held| ==> held[j].0 < |futures|
      modifies this`futures
      ensures futures == FailHeld(old(futures), held, e)
    {
      for j := 0 to |held|
        invariant futures == FailHeld(old(futures), held[..j], e)
      {
        assert held[..j + 1][..j] == held[..j];
        var (t, _) := held[j];
        if futures[t].Pending? { futures := futures[t := Error(e)]; }
      }
      assert held[..|held|] == held;
    }

    method FailBatch(e: string, ghost s: nat)
      requires s + |batch| <= |futures| && forall i :: 0 <= i < |batch| ==> batch[i].ticket == s + i
      modifies this`futures
      ensures futures == Settled(old(futures), s, AllFail(|batch|, e))
    {
      for i := 0 to |batch|
        invariant futures == Settled(old(futures), s, AllFail(i, e))
      {
        if futures[batch[i].ticket].Pending? { futures := futures[batch[i].ticket := Error(e)]; }
      }
    }

    /** The transaction of one batch: BEGIN, the operations, COMMIT or ROLLBACK, and the futures. */
    method Transact(fault: Fault, ghost s: nat, ghost ops: seq<Op>)
      requires conn.Steady() && s + |batch| <= |futures|
      requires ops == OpsOf(batch) && forall i :: 0 <= i < |batch| ==> batch[i].ticket == s + i
      modifies this`futures, this`transactions, conn
      ensures conn.Steady() && transactions >= old(transactions)
      ensures BatchDone(m, fault, ops, s, old(conn.open), old(conn.committed), old(futures),
                        conn.open, conn.committed, futures, transactions - old(transactions))
    {
      if conn.open || fault.begin.Some? {
        FailBatch(if conn.open then NESTED else fault.begin.value, s);
        return;
      }
      ghost var db, fs := conn.committed, futures;
      conn.Begin();
      var held := RunOps(s, ops);
      HeldReady(m, db, ops, s, fs, conn.current, futures, held);
      var ok := conn.Commit(fault);
      if ok {
        transactions := transactions + 1;
        Publish(held);
      } else {
        var rolledBack := conn.Rollback(fault);
        FailAllHeld(held, fault.commit.value);
        FailHeldSettles(fs, s, Answers(m, db, ops), fault.commit.value);
      }
    }

    /** The batch has its fate; the writer's hand is empty again. */
    method LetGo(
      fault: Fault, ghost ops: seq<Op>, ghost open: bool, ghost db: Db, ghost fs: seq<Future>, ghost counted: nat)
      requires Lined(accepted, |fates|, batch, queue, closed && !stopped) && !stopped && conn.Steady()
      requires ops == OpsOf(batch) && db == StateAt(m, start, accepted, fates, |fates|)
              && Resolved(m, start, accepted, fates, fs)
      requires BatchDone(m, fault, ops, |fates|, open, db, fs, conn.open, conn.committed, futures, counted)
      modifies this`fates, this`batch
      ensures Valid() && batch == [] && old(fates) <= fates && |fates| == |old(fates)| + |ops|
      ensures counted > 0 ==> fates == old(fates) + seq(|ops|, _ => Kept)
    {
      ItemsOps(accepted, |fates|, |fates| + |batch|);
      BatchLeaves(accepted, |fates|, batch, queue, closed && !stopped);
      fates := BatchFate(m, start, accepted, fates, fault, ops, open, db, fs, conn.open, conn.committed, futures,
                         counted);
      batch := [];
    }

    /** One batch in one transaction. It is kept whole, or it leaves the durable database as it
        was and fails every operation in it. */
    method ExecuteBatch(fault: Fault)
      requires Valid() && !stopped
      modifies this, conn
      ensures Valid() && batch == []
      ensures accepted == old(accepted) && queue == old(queue) && closed == old(closed) && !stopped
      ensures |fates| == |old(fates)| + |old(batch)| && old(fates) <= fates
      ensures transactions >= old(transactions)
      ensures BatchDone(m, fault, OpsOf(old(batch)), |old(fates)|, old(conn.open), old(conn.committed), old(futures),
                        conn.open, conn.committed, futures, transactions - old(transactions))
      ensures transactions > old(transactions) ==> fates == old(fates) + seq(|old(batch)|, _ => Kept)
    {
      ghost var ops, db, fs, open, before := OpsOf(batch), conn.committed, futures, conn.open, transactions;
      Transact(fault, |fates|, ops);
      LetGo(fault, ops, open, db, fs, transactions - before);
    }

    /** Operations move from the head of the queue into the batch until it is full or none is left. */
    method TakeQueued()
      requires Valid() && !stopped
      modifies this`queue, this`batch
      ensures Valid() && Moved(old(queue), old(batch), queue, batch) && |batch| <= Most(batchCap, old(batch))
      ensures queue == [] || queue[0].Sentinel? || (batch != [] && |batch| >= batchCap)
    {
      while queue != [] && queue[0].Job? && (batch == [] || |batch| < batchCap)
        invariant Valid() && |batch| <= Most(batchCap, old(batch))
        invariant Moved(old(queue), old(batch), queue, batch)
        decreases |queue|
      {
        TakeHead(accepted, |fates|, batch, queue, closed);
        MovedOne(old(queue), old(batch), queue, batch);
        batch, queue := batch + [queue[0].item], queue[1..];
      }
    }

    /** The writer takes what is queued, up to the cap. The sentinel ends it: what is in hand is
        still executed, then whatever is left in the queue would fail, but nothing is left. */
    method Gather(fault: Fault)
      requires Valid()
      modifies this, conn
      ensures Valid() && accepted == old(accepted) && closed == old(closed) && Keeps(old(futures), futures)
      ensures old(stopped) ==> stopped
      ensures stopped && !old(stopped) ==> |fates| == |accepted| && batch == [] && queue == []
      ensures stopped && !old(stopped) ==> |old(batch)| + |old(queue)| - 1 <= Most(batchCap, old(batch))
      ensures transactions <= old(transactions) + (if stopped && !old(stopped) then 1 else 0)
      ensures !stopped ==> futures == old(futures) && fates == old(fates)
      ensures !stopped ==> Moved(old(queue), old(batch), queue, batch) && |batch| <= Most(batchCap, old(batch))
      ensures !stopped && queue != [] ==> batch != [] && |batch| >= batchCap
      ensures !old(stopped) && old(batch) == [] && old(queue) != [] ==> |queue| < |old(queue)|
    {
      if stopped { return; }
      TakeQueued();
      if queue != [] && queue[0].Sentinel? && (batch == [] || |batch| < batchCap) {
        SentinelIsLast(accepted, |fates|, batch, queue);
        Finish(fault);
      }
    }

    method Finish(fault: Fault)
      requires Valid() && !stopped && closed && queue == [Sentinel] && |fates| + |batch| == |accepted|
      modifies this, conn
      ensures Valid() && stopped && closed && accepted == old(accepted) && Keeps(old(futures), futures)
      ensures |fates| == |accepted| && batch == [] && queue == [] && transactions <= old(transactions) + 1
    {
      if batch != [] { ExecuteBatch(fault); }
      stopped, queue := true, queue[1..];
      FailQueued();
    }

    /** Whatever is still queued is refused: exactly its pending futures get the error. */
    method FailQueued()
      requires forall i :: 0 <= i < |queue| && queue[i].Job? ==> queue[i].item.ticket < |futures|
      modifies this`queue, this`futures
      ensures queue == [] && |futures| == |old(futures)|
      ensures forall t :: 0 <= t < |futures| ==>
                futures[t] == if old(futures)[t].Pending? && Queued(old(queue), |old(queue)|, t) then Error(CLOSED)
                              else old(futures)[t]
    {
      ghost var k := 0;
      while queue != []
        invariant 0 <= k <= |old(queue)| && queue == old(queue)[k..] && |futures| == |old(futures)|
        invariant forall t :: 0 <= t < |futures| ==>
                    futures[t] == if old(futures)[t].Pending? && Queued(old(queue), k, t) then Error(CLOSED)
                                  else old(futures)[t]
        decreases |queue|
      {
        var head := queue[0];
        queue := queue[1..];
        if head.Job? && futures[head.item.ticket].Pending? {
          futures := futures[head.item.ticket := Error(CLOSED)];
        }
        QueuedStep(old(queue), k);
        k := k + 1;
      }
    }

    /** The window is over: what is in hand goes into one transaction. */
    method Expire(fault: Fault)
      requires Valid()
      modifies this, conn
      ensures Valid() && accepted == old(accepted) && closed == old(closed) && Keeps(old(futures), futures)
      ensures stopped == old(stopped) && batch == [] && queue == old(queue)
      ensures old(batch) == [] ==> futures == old(futures) && conn.committed == old(conn.committed)
      ensures old(batch) != [] ==>
                && transactions >= old(transactions)
                && BatchDone(m, fault, OpsOf(old(batch)), |old(fates)|, old(conn.open), old(conn.committed),
                             old(futures), conn.open, conn.committed, futures, transactions - old(transactions))
    {
      if batch != [] { ExecuteBatch(fault); }
    }

    /** After `Close` the writer comes to an end: with a window that expires before each gathering it
        stops within as many rounds as the queue has entries, whatever the engine refuses, and then
        every accepted operation has its fate and no caller waits. */
    method WindDown(faults: nat -> Fault) returns (rounds: nat)
      requires Valid() && closed
      modifies this, conn
      ensures Valid() && stopped && accepted == old(accepted) && Keeps(old(futures), futures)
      ensures rounds <= |old(queue)| && |fates| == |accepted|
      ensures forall t :: 0 <= t < |futures| ==> !futures[t].Pending?
    {
      rounds := 0;
      while !stopped
        invariant Valid() && closed && accepted == old(accepted) && Keeps(old(futures), futures)
        invariant rounds + |queue| <= |old(queue)|
        decreases |queue|, !stopped
      {
        ghost var before := futures;
        Expire(faults(2 * rounds));
        assert queue[|queue| - 1] == Sentinel;
        Gather(faults(2 * rounds + 1));
        assert Keeps(before, futures);
        rounds := rounds + 1;
      }
      NoneLeftWaiting();
    }

    /** Any run: callers submit, give up and close, the writer gathers and executes, in any order
        and with any faults. */
    method Drive(schedule: seq<Command>)
      requires Valid()
      modifies this, conn
      ensures Valid() && old(accepted) <= accepted && Keeps(old(futures), futures)
    {
      for k := 0 to |schedule|
        invariant Valid() && old(accepted) <= accepted && Keeps(old(futures), futures)
      {
        ghost var before := futures;
        match schedule[k] {
          case Submit(op) => var r := Write(op);
          case GiveUp(t) => if t < |futures| { Cancel(t); }
          case Shut => Close();
          case Collect(fault) => Gather(fault);
          case Elapse(fault) => Expire(fault);
        }
        assert Keeps(before, futures);
      }
    }

    /** Batching is invisible: while no batch is lost, the durable database is what the operations
        give as one transaction each, in order of submission, and every caller that waits gets the
        answer of its own transaction. */
    lemma BatchingIsInvisible()
      requires Valid() && forall i :: 0 <= i < |fates| ==> fates[i] == Kept
      ensures conn.committed == After(m, start, accepted, |fates|)
      ensures forall i :: 0 <= i < |fates| ==>
                futures[i].Cancelled? || futures[i] == Answer(m, After(m, start, accepted, i), accepted[i])
    {
      AllKept(m, start, accepted, fates, |fates|);
      forall i | 0 <= i < |fates|
        ensures futures[i].Cancelled? || futures[i] == Answer(m, After(m, start, accepted, i), accepted[i])
      {
        AllKept(m, start, accepted, fates, i);
      }
    }

    /** A stopped writer has given every accepted operation its fate, and no caller waits. In
        particular the operations queued before `Close` were executed, not refused. */
    lemma NoneLeftWaiting()
      requires Valid() && stopped
      ensures |fates| == |accepted| == |futures|
      ensures forall i :: 0 <= i < |futures| ==> !futures[i].Pending?
    {
      assert |Jobs(accepted, |fates|)| == 0;
      forall i | 0 <= i < |futures| ensures !futures[i].Pending? {
        assert Due(m, start, accepted, fates, i) != Pending;
      }
    }
  }

  datatype Command = Submit(op: Op) | GiveUp(t: nat) | Shut | Collect(fault: Fault) | Elapse(fault: Fault)

  /** The head of the queue has moved behind the batch, in order. */
  ghost predicate Moved(queue: seq<Slot>, batch: seq<Item>, left: seq<Slot>, taken: seq<Item>) {
    && |left| <= |queue| && left == queue[|queue| - |left|..]
    && |taken| == |batch| + (|queue| - |left|) && taken[..|batch|] == batch
    && forall i :: |batch| <= i < |taken| ==> queue[i - |batch|] == Job(taken[i])
  }

  lemma {:induction false} MovedOne(queue: seq<Slot>, batch: seq<Item>, left: seq<Slot>, taken: seq<Item>)
    requires Moved(queue, batch, left, taken) && left != [] && left[0].Job?
    ensures Moved(queue, batch, left[1..], taken + [left[0].item])
  {
  }

  /** How large a batch may be that has come to hold `batch`: one operation always goes in. */
  function Most(batchCap: int, batch: seq<Item>): int { Max(|batch|, Max(1, batchCap)) }

  /** A future that is done never changes again. */
  predicate Keeps(before: seq<Future>, now: seq<Future>) {
    |before| <= |now| && forall t :: 0 <= t < |before| && !before[t].Pending? ==> now[t] == before[t]
  }

  /** One of the first `k` entries of the queue holds this ticket. */
  predicate Queued(queue: seq<Slot>, k: nat, t: nat)
    requires k <= |queue|
  {
    exists i :: 0 <= i < k && queue[i].Job? && queue[i].item.ticket == t
  }

  lemma {:induction false} QueuedStep(queue: seq<Slot>, k: nat)
    requires k < |queue|
    ensures forall t: nat :: Queued(queue, k + 1, t) <==>
              Queued(queue, k, t) || (queue[k].Job? && queue[k].item.ticket == t)
  {
    forall t: nat | Queued(queue, k, t) || (queue[k].Job? && queue[k].item.ticket == t)
      ensures Queued(queue, k + 1, t)
    {
      if Queued(queue, k, t) {
        var i :| 0 <= i < k && queue[i].Job? && queue[i].item.ticket == t;
        assert queue[i].item.ticket == t;
      } else {
        assert queue[k].item.ticket == t;
      }
    }
  }

  lemma {:induction false} TakeHead(ops: seq<Op>, from: nat, batch: seq<Item>, queue: seq<Slot>, sentinel: bool)
    requires Lined(ops, from, batch, queue, sentinel) && queue != [] && queue[0].Job?
    ensures Lined(ops, from, batch + [queue[0].item], queue[1..], sentinel)
  {
    var n := from + |batch|;
    assert n < |ops|;
    assert Jobs(ops, n) == [Job(Item(ops[n], n))] + Jobs(ops, n + 1);
    assert Items(ops, from, n + 1) == Items(ops, from, n) + [Item(ops[n], n)];
  }

  lemma {:induction false} SentinelIsLast(ops: seq<Op>, from: nat, batch: seq<Item>, queue: seq<Slot>)
    requires exists s :: Lined(ops, from, batch, queue, s)
    requires queue != [] && queue[0].Sentinel?
    ensures queue == [Sentinel] && from + |batch| == |ops|
  {
  }

  lemma {:induction false} AllKept(m: Meaning, db: Db, ops: seq<Op>, fates: seq<Fate>, k: nat)
    requires k <= |fates| <= |ops| && forall i :: 0 <= i < |fates| ==> fates[i] == Kept
    ensures StateAt(m, db, ops, fates, k) == After(m, db, ops, k)
  {
    if k > 0 { AllKept(m, db, ops, fates, k - 1); }
  }

  /* ---- Every split into batches --------------------------------------------------------------- */

  function Flatten(batches: seq<seq<Op>>): seq<Op>
    decreases |batches|
  {
    if batches == [] then [] else batches[0] + Flatten(batches[1..])
  }

  /** Batch after batch, all kept. */
  function Batched(m: Meaning, db: Db, batches: seq<seq<Op>>): (Db, seq<Future>)
    decreases |batches|
  {
    if batches == [] then (db, [])
    else
      var b := batches[0];
      var (last, answers) := Batched(m, After(m, db, b, |b|), batches[1..]);
      (last, Answers(m, db, b) + answers)
  }

  lemma {:induction false} AfterJoins(m: Meaning, db: Db, a: seq<Op>, b: seq<Op>, k: nat)
    requires k <= |b|
    ensures After(m, db, a + b, |a| + k) == After(m, After(m, db, a, |a|), b, k)
  {
    if k == 0 {
      AfterPrefix(m, db, a, b, |a|);
    } else {
      AfterJoins(m, db, a, b, k - 1);
      assert (a + b)[|a| + (k - 1)] == b[k - 1];
    }
  }

  lemma {:induction false} AfterPrefix(m: Meaning, db: Db, a: seq<Op>, b: seq<Op>, k: nat)
    requires k <= |a|
    ensures After(m, db, a + b, k) == After(m, db, a, k)
  {
    if k > 0 {
      AfterPrefix(m, db, a, b, k - 1);
      assert (a + b)[k - 1] == a[k - 1];
    }
  }

  lemma {:induction false} AnswerJoins(m: Meaning, db: Db, a: seq<Op>, b: seq<Op>, i: nat)
    requires i < |a| + |b|
    ensures Answers(m, db, a + b)[i] ==
            if i < |a| then Answers(m, db, a)[i] else Answers(m, After(m, db, a, |a|), b)[i - |a|]
  {
    if i < |a| { AfterPrefix(m, db, a, b, i); } else { AfterJoins(m, db, a, b, i - |a|); }
  }

  lemma {:induction false} AnswersJoin(m: Meaning, db: Db, a: seq<Op>, b: seq<Op>)
    ensures Answers(m, db, a + b) == Answers(m, db, a) + Answers(m, After(m, db, a, |a|), b)
  {
    var whole, left, right := Answers(m, db, a + b), Answers(m, db, a), Answers(m, After(m, db, a, |a|), b);
    forall i | 0 <= i < |a| + |b| ensures whole[i] == (left + right)[i] {
      AnswerJoins(m, db, a, b, i);
    }
  }

  /** However the operations are cut into batches, the database and every answer are those of the
      uncut serial run. */
  lemma {:induction false} SplitsAgree(m: Meaning, db: Db, batches: seq<seq<Op>>)
    ensures var ops := Flatten(batches);
            Batched(m, db, batches) == (After(m, db, ops, |ops|), Answers(m, db, ops))
    decreases |batches|
  {
    if batches == [] {
      assert Answers(m, db, []) == [];
    } else {
      var b, rest := batches[0], Flatten(batches[1..]);
      SplitsAgree(m, After(m, db, b, |b|), batches[1..]);
      AfterJoins(m, db, b, rest, |rest|);
      AnswersJoin(m, db, b, rest);
    }
  }

  lemma {:induction false} BatchLeaves(ops: seq<Op>, s: nat, batch: seq<Item>, queue: seq<Slot>, sentinel: bool)
    requires Lined(ops, s, batch, queue, sentinel)
    ensures Lined(ops, s + |batch|, [], queue, sentinel)
  {
  }

  lemma {:induction false} HeldReady(
    m: Meaning, db: Db, ops: seq<Op>, s: nat, fs: seq<Future>, cur: Db, f: seq<Future>, held: seq<(nat, string)>)
    requires Ran(m, db, ops, s, fs, |ops|, cur, f, held)
    ensures cur == After(m, db, ops, |ops|) && |f| == |fs|
    ensures forall j :: 0 <= j < |held| ==> held[j].0 < |fs|
    ensures held == HeldOf(s, Answers(m, db, ops)) && f == Settled(fs, s, Raising(Answers(m, db, ops)))
    ensures Answered(Answers(m, db, ops))
    ensures Fulfil(f, held) == Settled(fs, s, Answers(m, db, ops))
  {
    var a := Answers(m, db, ops);
    assert a[..|ops|] == a;
    HeldInRange(s, a, s + |a|);
    FulfilSettles(fs, s, a);
  }

  /** The fates a batch gives its operations. */
  lemma {:induction false} BatchFate(
    m: Meaning, start: Db, all: seq<Op>, fates: seq<Fate>, fault: Fault, ops: seq<Op>, open: bool, db: Db,
    fs: seq<Future>, open': bool, db': Db, fs': seq<Future>, counted: nat)
    returns (more: seq<Fate>)
    requires Resolved(m, start, all, fates, fs) && Run(all, |fates|, ops)
            && db == StateAt(m, start, all, fates, |fates|)
    requires BatchDone(m, fault, ops, |fates|, open, db, fs, open', db', fs', counted)
    ensures fates <= more && |more| == |fates| + |ops| <= |all|
    ensures db' == StateAt(m, start, all, more, |more|) && Resolved(m, start, all, more, fs')
    ensures counted > 0 ==> more == fates + seq(|ops|, _ => Kept)
  {
    if open || fault.begin.Some? {
      var lost := AllFail(|ops|, if open then NESTED else fault.begin.value);
      LoseBatch(m, start, all, fates, fs, lost);
      more := fates + LostFates(lost);
    } else if fault.commit.None? {
      KeepBatch(m, start, all, fates, fs, ops, Answers(m, db, ops));
      more := fates + seq(|ops|, _ => Kept);
    } else {
      var lost := Doomed(Answers(m, db, ops), fault.commit.value);
      LoseBatch(m, start, all, fates, fs, lost);
      more := fates + LostFates(lost);
    }
  }

  lemma {:induction false} HeldInRange(start: nat, answers: seq<Future>, t: nat)
    requires t >= start + |answers|
    ensures forall j :: 0 <= j < |HeldOf(start, answers)| ==> HeldOf(start, answers)[j].0 < t
  {
    if answers != [] { HeldInRange(start, answers[..|answers| - 1], t); }
  }

  function LostFates(answers: seq<Future>): seq<Fate> {
    seq(|answers|, i requires 0 <= i < |answers| => Lost(if answers[i].Error? then answers[i].error else ""))
  }

  lemma {:induction false} DueWhenKept(m: Meaning, db: Db, ops: seq<Op>, more: seq<Fate>, s: nat, mine: seq<Op>, i: nat)
    requires Run(ops, s, mine) && |more| == s + |mine| && s <= i < |more|
    requires forall j :: s <= j < |more| ==> more[j] == Kept
    ensures Due(m, db, ops, more, i) == Answer(m, After(m, StateAt(m, db, ops, more, s), mine, i - s), mine[i - s])
  {
    KeptContinues(m, db, ops, more, s, mine, i - s);
    assert ops[s..s + |mine|][i - s] == mine[i - s];
  }

  lemma {:induction false} AnswerWhenKept(
    m: Meaning, db: Db, ops: seq<Op>, more: seq<Fate>, s: nat, mine: seq<Op>, a: seq<Future>, i: nat)
    requires Run(ops, s, mine) && |more| == s + |mine| && s <= i < |more|
    requires forall j :: s <= j < |more| ==> more[j] == Kept
    requires a == Answers(m, StateAt(m, db, ops, more, s), mine)
    ensures a[i - s] == Due(m, db, ops, more, i)
  {
    DueWhenKept(m, db, ops, more, s, mine, i);
  }

  lemma {:induction false} KeepBatch(m: Meaning, db: Db, ops: seq<Op>, fates: seq<Fate>, fs: seq<Future>,
                                           mine: seq<Op>, a: seq<Future>)
    requires Resolved(m, db, ops, fates, fs) && Run(ops, |fates|, mine)
    requires a == Answers(m, StateAt(m, db, ops, fates, |fates|), mine)
    ensures var more := fates + seq(|mine|, _ => Kept);
            && StateAt(m, db, ops, more, |more|) == After(m, StateAt(m, db, ops, fates, |fates|), mine, |mine|)
            && Resolved(m, db, ops, more, Settled(fs, |fates|, a))
  {
    var s, more := |fates|, fates + seq(|mine|, _ => Kept);
    StateOfPrefix(m, db, ops, fates, ops, more, s);
    KeptContinues(m, db, ops, more, s, mine, |mine|);
    KeptFutures(m, db, ops, fates, fs, mine, a, more);
  }

  lemma {:induction false} KeptFutures(m: Meaning, db: Db, ops: seq<Op>, fates: seq<Fate>, fs: seq<Future>,
                                             mine: seq<Op>, a: seq<Future>, more: seq<Fate>)
    requires Resolved(m, db, ops, fates, fs) && Run(ops, |fates|, mine) && fates <= more && |more| == |fates| + |mine|
    requires forall j :: |fates| <= j < |more| ==> more[j] == Kept
    requires a == Answers(m, StateAt(m, db, ops, more, |fates|), mine)
    ensures Resolved(m, db, ops, more, Settled(fs, |fates|, a))
  {
    var s, done := |fates|, Settled(fs, |fates|, a);
    forall i | 0 <= i < |more| ensures done[i].Cancelled? || done[i] == Due(m, db, ops, more, i) {
      if i < s {
        DueOfPrefix(m, db, ops, fates, ops, more, i);
        assert done[i] == fs[i];
      } else {
        AnswerWhenKept(m, db, ops, more, s, mine, a, i);
        assert done[i] == if fs[i].Pending? then a[i - s] else fs[i];
      }
    }
  }

  lemma {:induction false} LoseBatch(
    m: Meaning, db: Db, ops: seq<Op>, fates: seq<Fate>, fs: seq<Future>, a: seq<Future>)
    requires Resolved(m, db, ops, fates, fs) && |fates| + |a| <= |ops|
    requires forall i :: 0 <= i < |a| ==> a[i].Error?
    ensures var more := fates + LostFates(a);
            && StateAt(m, db, ops, more, |more|) == StateAt(m, db, ops, fates, |fates|)
            && Resolved(m, db, ops, more, Settled(fs, |fates|, a))
  {
    var s, more := |fates|, fates + LostFates(a);
    StateOfPrefix(m, db, ops, fates, ops, more, s);
    LostSkips(m, db, ops, more, s, |a|);
    forall i | 0 <= i < |more|
      ensures Settled(fs, s, a)[i].Cancelled? || Settled(fs, s, a)[i] == Due(m, db, ops, more, i)
    {
      if i < s { DueOfPrefix(m, db, ops, fates, ops, more, i); }
    }
  }

  lemma {:induction false} JobsGrow(ops: seq<Op>, op: Op, from: nat)
    requires from <= |ops|
    ensures Jobs(ops + [op], from) == Jobs(ops, from) + [Job(Item(op, |ops|))]
  {
  }

  lemma {:induction false} ItemsGrow(ops: seq<Op>, op: Op, from: nat, to: nat)
    requires from <= to <= |ops|
    ensures Items(ops + [op], from, to) == Items(ops, from, to)
  {
  }

  lemma {:induction false} ResolvedGrows(m: Meaning, db: Db, ops: seq<Op>, fates: seq<Fate>, fs: seq<Future>, op: Op)
    requires Resolved(m, db, ops, fates, fs)
    ensures Resolved(m, db, ops + [op], fates, fs + [Pending])
  {
    forall i | 0 <= i < |fates| ensures Due(m, db, ops, fates, i) == Due(m, db, ops + [op], fates, i) {
      DueOfPrefix(m, db, ops, fates, ops + [op], fates, i);
    }
  }
}
