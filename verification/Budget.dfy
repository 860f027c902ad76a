/**
 The daily call ledger of `pretender/budget.py` on the atomic key/row store: decisions against the
 policy rungs, batch admission, and the reservations and records of any number of managers.
 The stored text is modelled by what it parses to; shares of the cap are exact.
*/
module Budget {
  import opened Prelude

  datatype Action = Warn | Degrade | Stop

  datatype Rung = Rung(at: real, action: Action)

  datatype Config = Config(dailyCap: int, rungs: seq<Rung>)

  ghost predicate Configured(c: Config) { c.dailyCap >= 1 }

  datatype Usage = Usage(day: string, calls: int, tokens: int, cost: real)

  datatype Kind = Allowed | Degraded | Blocked

  datatype Decision = Decision(kind: Kind, usage: Usage, remaining: int, rung: Option<Rung>, semanticOnly: bool)

  /** A stored value: text that does not parse, or its four fields; a cost that is not a finite
      number is absent. */
  datatype Stored = Malformed | Blob(day: string, calls: int, tokens: int, cost: Option<real>)

  /* ---- Decisions ------------------------------------------------------------------- */

  predicate Engaged(r: Rung, calls: int, cap: int) { r.at * (cap as real) <= calls as real }

  /** The last rung of the list that is engaged. */
  function Top(rungs: seq<Rung>, calls: int, cap: int): Option<Rung> {
    if rungs == [] then None
    else if Engaged(rungs[|rungs| - 1], calls, cap) then Some(rungs[|rungs| - 1])
    else Top(rungs[..|rungs| - 1], calls, cap)
  }

  function Decide(c: Config, u: Usage): Decision {
    if u.calls >= c.dailyCap then Decision(Blocked, u, 0, Top(c.rungs, c.dailyCap, c.dailyCap), true)
    else
      var remaining, top := Max(0, c.dailyCap - u.calls), Top(c.rungs, u.calls, c.dailyCap);
      if top.None? then Decision(Allowed, u, remaining, None, false)
      else
        match top.value.action
        case Stop => Decision(Blocked, u, remaining, top, true)
        case Degrade => Decision(Degraded, u, remaining, top, false)
        case Warn => Decision(Allowed, u, remaining, top, false)
  }

  /** The calls `i`, `i + 1`, .. `n` of a batch, each decided from the usage before it. */
  function Steps(c: Config, u: Usage, n: int, limit: Option<int>, d0: Decision, i: int): Decision
    decreases n + 1 - i
  {
    if i > n then d0
    else if limit.Some? && u.calls + i > limit.value then Decision(Blocked, u, 0, None, true)
    else
      var d := Decide(c, u.(calls := Min(c.dailyCap, u.calls + i - 1)));
      match d.kind
      case Blocked => Decision(Blocked, u, 0, d.rung, true)
      case Degraded => Decision(Degraded, u, d0.remaining, d.rung, true)
      case Allowed => Steps(c, u, n, limit, d0, i + 1)
  }

  function BatchDecision(c: Config, u: Usage, n: int, limit: Option<int>): Decision {
    if limit.Some? && u.calls >= limit.value then Decision(Blocked, u, 0, None, true)
    else
      var d0 := Decide(c, u);
      if n <= 1 || d0.kind == Blocked then d0 else Steps(c, u, n, limit, d0, 1)
  }

  method DecideBatch(c: Config, u: Usage, n: int, limit: Option<int>) returns (d: Decision)
    ensures d == BatchDecision(c, u, n, limit)
  {
    if limit.Some? && u.calls >= limit.value { return Decision(Blocked, u, 0, None, true); }
    var d0 := Decide(c, u);
    if n <= 1 || d0.kind == Blocked { return d0; }
    for i := 1 to n + 1
      invariant BatchDecision(c, u, n, limit) == Steps(c, u, n, limit, d0, i)
    {
      if limit.Some? && u.calls + i > limit.value { return Decision(Blocked, u, 0, None, true); }
      var step := Decide(c, u.(calls := Min(c.dailyCap, u.calls + i - 1)));
      if step.kind == Blocked { return Decision(Blocked, u, 0, step.rung, true); }
      if step.kind == Degraded { return Decision(Degraded, u, d0.remaining, step.rung, true); }
    }
    d := d0;
  }

  /* ---- The store ---------------------------------------------------------------------- */

  function Fresh(day: string): Usage { Usage(day, 0, 0, 0.0) }

  /** A missing, malformed or stale value is a fresh day; what survives is sanitized. */
  function Read(c: Config, s: Option<Stored>, day: string): Usage {
    match s
    case Some(Blob(stored, calls, tokens, cost)) =>
      if stored != day then Fresh(day)
      else
        var spent := if cost.Some? && cost.value >= 0.0 then cost.value else 0.0;
        Usage(day, Max(0, Min(calls, c.dailyCap)), Max(0, tokens), spent)
    case _ => Fresh(day)
  }

  function Serialize(u: Usage): Stored { Blob(u.day, u.calls, u.tokens, Some(u.cost)) }

  function Capacity(c: Config, limit: Option<int>): int {
    if limit.None? then c.dailyCap else Max(0, Min(c.dailyCap, limit.value))
  }

  /** One atomic reservation: the decision, and what is written, if anything. */
  function ReserveOn(
    c: Config, s: Option<Stored>, day: string, calls: int, limit: Option<int>): (Decision, Option<Stored>)
  {
    var u, n, cap := Read(c, s, day), Max(0, calls), Capacity(c, limit);
    var d := BatchDecision(c, u, n, limit);
    if d.semanticOnly then (d, None)
    else if u.calls + n > cap then (Decision(Blocked, u, Max(0, cap - u.calls), None, true), None)
    else (d, Some(Serialize(u.(calls := Min(cap, u.calls + n)))))
  }

  /** One atomic record: the new usage, which is also what is written. */
  function RecordOn(c: Config, s: Option<Stored>, day: string, calls: int, tokens: int, cost: real): Usage {
    var u := Read(c, s, day);
    Usage(day, Min(c.dailyCap, u.calls + Max(0, calls)), u.tokens + Max(0, tokens), u.cost + MaxReal(0.0, cost))
  }

  datatype Key = Key(chat: string, day: string)

  type Rows = map<Key, Stored>

  function Row(rows: Rows, k: Key): Option<Stored> { if k in rows then Some(rows[k]) else None }

  function UsageOf(c: Config, rows: Rows, k: Key): Usage { Read(c, Row(rows, k), k.day) }

  datatype Request =
    | Reserve(key: Key, calls: int, limit: Option<int>)
    | Record(key: Key, calls: int, tokens: int, cost: real)

  function Serve(c: Config, rows: Rows, r: Request): Rows {
    match r
    case Reserve(k, n, limit) =>
      var w := ReserveOn(c, Row(rows, k), k.day, n, limit).1;
      if w.Some? then rows[k := w.value] else rows
    case Record(k, n, tokens, cost) => rows[k := Serialize(RecordOn(c, Row(rows, k), k.day, n, tokens, cost))]
  }

  /** The store behind every manager; each call is one writer transaction. */
  class Store {
    var rows: Rows

    constructor ()
      ensures rows == map[]
    {
      rows := map[];
    }

    method ReserveCalls(c: Config, k: Key, calls: int, limit: Option<int>) returns (d: Decision)
      modifies this
      ensures d == ReserveOn(c, Row(old(rows), k), k.day, calls, limit).0
      ensures rows == Serve(c, old(rows), Reserve(k, calls, limit))
    {
      var u, n := UsageOf(c, rows, k), Max(0, calls);
      d := DecideBatch(c, u, n, limit);
      if d.semanticOnly { return; }
      var cap := Capacity(c, limit);
      if u.calls + n > cap { return Decision(Blocked, u, Max(0, cap - u.calls), None, true); }
      rows := rows[k := Serialize(u.(calls := Min(cap, u.calls + n)))];
    }

    /** The caller gets the usage that is stored: what every later read of the day returns, the old one
        with the amounts added (a negative amount counts as zero, the calls stop at the cap); no other
        chat's or day's row changes. */
    method RecordCalls(c: Config, k: Key, calls: int, tokens: int, cost: real) returns (u: Usage)
      modifies this
      ensures rows == Serve(c, old(rows), Record(k, calls, tokens, cost))
      ensures Configured(c) ==> UsageOf(c, rows, k) == u
      ensures forall q :: q != k ==> Row(rows, q) == Row(old(rows), q)
      ensures var before := UsageOf(c, old(rows), k);
              && u.day == k.day && u.calls == Min(c.dailyCap, before.calls + Max(0, calls))
              && u.tokens - before.tokens == Max(0, tokens) && u.cost - before.cost == MaxReal(0.0, cost)
    {
      var before := UsageOf(c, rows, k);
      var newCalls := Min(c.dailyCap, before.calls + Max(0, calls));
      u := Usage(k.day, newCalls, before.tokens + Max(0, tokens), before.cost + MaxReal(0.0, cost));
      rows := rows[k := Serialize(u)];
      if Configured(c) { ReadsBack(c, u); }
    }
  }

  /* ---- The ladder ------------------------------------------------------------------------- */

  predicate Ascending(rungs: seq<Rung>) { forall i, j :: 0 <= i < j < |rungs| ==> rungs[i].at <= rungs[j].at }

  /** On a sorted ladder the deciding rung is an engaged rung with the highest share. */
  lemma {:induction false} TopIsHighest(rungs: seq<Rung>, calls: int, cap: int)
    requires Ascending(rungs)
    ensures Top(rungs, calls, cap).None? <==> forall r :: r in rungs ==> !Engaged(r, calls, cap)
    ensures var top := Top(rungs, calls, cap);
            top.Some? ==> top.value in rungs && Engaged(top.value, calls, cap)
                          && forall r :: r in rungs && Engaged(r, calls, cap) ==> r.at <= top.value.at
  {
    if rungs != [] {
      var init, last := rungs[..|rungs| - 1], rungs[|rungs| - 1];
      TopIsHighest(init, calls, cap);
      assert forall r :: r in rungs <==> r in init || r == last;
    }
  }

  /** More calls never lead down the ladder. */
  lemma {:induction false} LadderClimbs(rungs: seq<Rung>, calls: int, more: int, cap: int)
    requires Ascending(rungs) && calls <= more && Top(rungs, calls, cap).Some?
    ensures Top(rungs, more, cap).Some? && Top(rungs, calls, cap).value.at <= Top(rungs, more, cap).value.at
  {
    TopIsHighest(rungs, calls, cap);
    TopIsHighest(rungs, more, cap);
    assert Engaged(Top(rungs, calls, cap).value, more, cap);
  }

  /** The rung at `i` is engaged, and every other engaged rung asks for a smaller share, or for the same
      share from further up the list. */
  ghost predicate Highest(rungs: seq<Rung>, i: int, calls: int, cap: int) {
    && 0 <= i < |rungs| && Engaged(rungs[i], calls, cap)
    && forall j :: 0 <= j < |rungs| && Engaged(rungs[j], calls, cap) ==>
         rungs[j].at < rungs[i].at || (rungs[j].at == rungs[i].at && j <= i)
  }

  lemma {:induction false} TopIffHighest(rungs: seq<Rung>, calls: int, cap: int)
    requires Ascending(rungs)
    ensures var top := Top(rungs, calls, cap);
            if top.None? then forall i :: !Highest(rungs, i, calls, cap)
            else exists i :: Highest(rungs, i, calls, cap) && rungs[i] == top.value
  {
    if rungs != [] && !Engaged(rungs[|rungs| - 1], calls, cap) {
      var init := rungs[..|rungs| - 1];
      TopIffHighest(init, calls, cap);
      assert forall i :: Highest(rungs, i, calls, cap) <==> Highest(init, i, calls, cap);
    } else if rungs != [] {
      assert Highest(rungs, |rungs| - 1, calls, cap);
    }
  }

  /** The rung that decides asks for the action. */
  ghost predicate Asks(c: Config, calls: int, a: Action) {
    exists i :: Highest(c.rungs, i, calls, c.dailyCap) && c.rungs[i].action == a
  }

  /** The verdict on a single call, read off any ladder the configuration accepts: the hard cap and a
      highest rung that stops block it, a highest rung that degrades degrades it, anything else allows
      it. Of two rungs with the same share the later one counts. */
  lemma {:induction false} LadderDecides(c: Config, u: Usage)
    requires Ascending(c.rungs)
    ensures var d, full := Decide(c, u), u.calls >= c.dailyCap;
            && (d.kind == Blocked <==> full || Asks(c, u.calls, Stop))
            && (d.kind == Degraded <==> !full && Asks(c, u.calls, Degrade))
            && (d.semanticOnly <==> d.kind == Blocked)
            && d.remaining == (if full then 0 else c.dailyCap - u.calls)
  {
    TopIffHighest(c.rungs, u.calls, c.dailyCap);
    var rungs, n, cap := c.rungs, u.calls, c.dailyCap;
    assert forall i, j :: Highest(rungs, i, n, cap) && Highest(rungs, j, n, cap) ==> i == j;
  }

  /** A rung listed later at the same share overrides one that stops. */
  lemma {:induction false} TieExample(day: string)
    ensures var c := Config(10, [Rung(0.9, Stop), Rung(0.9, Warn)]);
            Ascending(c.rungs) && Decide(c, Usage(day, 9, 0, 0.0)).kind == Allowed
  {
    var rungs := [Rung(0.9, Stop), Rung(0.9, Warn)];
    assert Engaged(rungs[1], 9, 10);
  }

  /* ---- Batch admission is one-at-a-time admission ---------------------------------------- */

  /** Whether a single call passes at this count under the limit. */
  predicate Passes(c: Config, calls: int, limit: Option<int>) {
    (limit.Some? ==> calls < limit.value) && Decide(c, Fresh("").(calls := calls)).kind == Allowed
  }

  predicate AllPass(c: Config, calls: int, n: int, limit: Option<int>) {
    forall k :: calls <= k < calls + n ==> Passes(c, k, limit)
  }

  lemma {:induction false} KindSeesCalls(c: Config, u: Usage, v: Usage)
    requires u.calls == v.calls || (u.calls >= c.dailyCap && v.calls >= c.dailyCap)
    ensures Decide(c, u).kind == Decide(c, v).kind
  {
  }

  lemma {:induction false} StepsIff(c: Config, u: Usage, n: int, limit: Option<int>, d0: Decision, i: int)
    requires 1 <= i <= n + 1
    ensures AllPass(c, u.calls + i - 1, n + 1 - i, limit) ==> Steps(c, u, n, limit, d0, i) == d0
    ensures !AllPass(c, u.calls + i - 1, n + 1 - i, limit) ==> Steps(c, u, n, limit, d0, i).semanticOnly
    decreases n + 1 - i
  {
    if i <= n {
      StepsIff(c, u, n, limit, d0, i + 1);
      var k := u.calls + i - 1;
      KindSeesCalls(c, u.(calls := Min(c.dailyCap, k)), Fresh("").(calls := k));
      assert AllPass(c, k, n + 1 - i, limit) <==> Passes(c, k, limit) && AllPass(c, k + 1, n - i, limit);
    }
  }

  /** A batch of two or more is written exactly when every one of its calls passes by itself. */
  lemma {:induction false} BatchIff(c: Config, s: Option<Stored>, day: string, n: int, limit: Option<int>)
    requires n >= 2
    ensures ReserveOn(c, s, day, n, limit).1.Some? <==> AllPass(c, Read(c, s, day).calls, n, limit)
    ensures ReserveOn(c, s, day, n, limit).1.Some? ==>
              ReserveOn(c, s, day, n, limit).1 == Some(Serialize(Read(c, s, day).(calls := Read(c, s, day).calls + n)))
              && ReserveOn(c, s, day, n, limit).0.kind == Allowed
  {
    var u := Read(c, s, day);
    var d0 := Decide(c, u);
    StepsIff(c, u, n, limit, d0, 1);
    KindSeesCalls(c, u, Fresh("").(calls := u.calls));
    if AllPass(c, u.calls, n, limit) {
      assert Passes(c, u.calls, limit) && Passes(c, u.calls + n - 1, limit);
    }
  }

  lemma {:induction false} SingleIff(c: Config, s: Option<Stored>, day: string, limit: Option<int>)
    ensures ReserveOn(c, s, day, 1, limit).0.kind == Allowed <==> Passes(c, Read(c, s, day).calls, limit)
    ensures ReserveOn(c, s, day, 1, limit).0.kind == Allowed ==>
              ReserveOn(c, s, day, 1, limit).1 == Some(Serialize(Read(c, s, day).(calls := Read(c, s, day).calls + 1)))
  {
    KindSeesCalls(c, Read(c, s, day), Fresh("").(calls := Read(c, s, day).calls));
  }

  /** The stored value after `n` successive single reservations, if each of them is allowed. */
  function Singles(c: Config, s: Option<Stored>, day: string, n: nat, limit: Option<int>): Option<Option<Stored>>
    decreases n
  {
    if n == 0 then Some(s)
    else
      var one := ReserveOn(c, s, day, 1, limit);
      if one.0.kind == Allowed && one.1.Some? then Singles(c, one.1, day, n - 1, limit) else None
  }

  /** What is written can be read back. */
  lemma {:induction false} ReadsBack(c: Config, u: Usage)
    requires 0 <= u.calls <= c.dailyCap && u.tokens >= 0 && u.cost >= 0.0
    ensures Read(c, Some(Serialize(u)), u.day) == u
  {
  }

  /** Recording in two steps is recording the sum at once: no update is lost. */
  lemma {:induction false} RecordsAdd(
    c: Config, rows: Rows, k: Key, calls: nat, tokens: nat, cost: real, more: nat, extra: nat, fee: real)
    requires Configured(c) && cost >= 0.0 && fee >= 0.0
    ensures Serve(c, Serve(c, rows, Record(k, calls, tokens, cost)), Record(k, more, extra, fee))
            == Serve(c, rows, Record(k, calls + more, tokens + extra, cost + fee))
  {
    var u := RecordOn(c, Row(rows, k), k.day, calls, tokens, cost);
    ReadsBack(c, u);
    assert rows[k := Serialize(u)][k := Serialize(RecordOn(c, Some(Serialize(u)), k.day, more, extra, fee))]
        == rows[k := Serialize(RecordOn(c, Some(Serialize(u)), k.day, more, extra, fee))];
  }

  lemma {:induction false} SinglesIff(c: Config, s: Option<Stored>, day: string, n: nat, limit: Option<int>)
    requires Configured(c)
    ensures Singles(c, s, day, n, limit).Some? <==> AllPass(c, Read(c, s, day).calls, n, limit)
    ensures Singles(c, s, day, n, limit).Some? && n > 0 ==>
              Singles(c, s, day, n, limit).value
                  == Some(Serialize(Read(c, s, day).(calls := Read(c, s, day).calls + n)))
    decreases n
  {
    if n > 0 {
      var u := Read(c, s, day);
      SingleIff(c, s, day, limit);
      assert AllPass(c, u.calls, n, limit) ==> Passes(c, u.calls, limit);
      if Passes(c, u.calls, limit) {
        var next := u.(calls := u.calls + 1);
        ReadsBack(c, next);
        SinglesIff(c, Some(Serialize(next)), day, n - 1, limit);
        assert AllPass(c, u.calls, n, limit) <==> AllPass(c, u.calls + 1, n - 1, limit);
      }
    }
  }

  /** A batch of two or more is admitted exactly when that many single reservations in a row would
      all be allowed, and then leaves the same stored value; otherwise nothing is written. */
  lemma {:induction false} BatchIsSingles(c: Config, s: Option<Stored>, day: string, n: nat, limit: Option<int>)
    requires Configured(c) && n >= 2
    ensures ReserveOn(c, s, day, n, limit).1.Some? <==> Singles(c, s, day, n, limit).Some?
    ensures Singles(c, s, day, n, limit).Some?
            ==> ReserveOn(c, s, day, n, limit).1 == Singles(c, s, day, n, limit).value
  {
    BatchIff(c, s, day, n, limit);
    SinglesIff(c, s, day, n, limit);
  }

  /* ---- Runs --------------------------------------------------------------------------------- */

  function ServeAll(c: Config, rows: Rows, rs: seq<Request>): Rows {
    if rs == [] then rows else Serve(c, ServeAll(c, rows, rs[..|rs| - 1]), rs[|rs| - 1])
  }

  /** Stored values that read back as they are. */
  ghost predicate Clean(c: Config, rows: Rows) {
    forall k :: k in rows ==> rows[k] == Serialize(UsageOf(c, rows, k)) && 0 <= UsageOf(c, rows, k).calls <= c.dailyCap
  }

  /** The calls a request adds to the count of a key. */
  function Added(c: Config, rows: Rows, r: Request, k: Key): int {
    if r.key != k then 0
    else
      match r
      case Reserve(_, n, limit) => if ReserveOn(c, Row(rows, k), k.day, n, limit).1.Some? then Max(0, n) else 0
      case Record(_, n, _, _) => Min(c.dailyCap - UsageOf(c, rows, k).calls, Max(0, n))
  }

  function Total(c: Config, rows: Rows, rs: seq<Request>, k: Key): int {
    if rs == [] then 0
    else
      var init := rs[..|rs| - 1];
      Total(c, rows, init, k) + Added(c, ServeAll(c, rows, init), rs[|rs| - 1], k)
  }

  lemma {:induction false} ReadBounds(c: Config, s: Option<Stored>, day: string)
    requires Configured(c)
    ensures var u := Read(c, s, day); 0 <= u.calls <= c.dailyCap && u.tokens >= 0 && u.cost >= 0.0 && u.day == day
  {
  }

  /** A value that is missing, malformed or of another day counts for nothing, and a value of today for what
      it says as far as that is admissible: calls between zero and the cap, the rest not below zero. */
  lemma {:induction false} ReadTolerates(c: Config, s: Option<Stored>, day: string, u: Usage)
    requires Configured(c) && u == Read(c, s, day)
    ensures u.day == day && 0 <= u.calls <= c.dailyCap && u.tokens >= 0 && u.cost >= 0.0
    ensures s.None? || s.value.Malformed? || s.value.day != day ==> u.calls == 0 && u.tokens == 0 && u.cost == 0.0
    ensures s.Some? && s.value.Blob? && s.value.day == day ==>
              && (0 <= s.value.calls <= c.dailyCap ==> u.calls == s.value.calls)
              && (s.value.calls < 0 ==> u.calls == 0) && (s.value.calls > c.dailyCap ==> u.calls == c.dailyCap)
              && (s.value.tokens >= 0 ==> u.tokens == s.value.tokens) && (s.value.tokens < 0 ==> u.tokens == 0)
              && (s.value.cost == Some(u.cost) || (u.cost == 0.0 && (s.value.cost.None? || s.value.cost.value < 0.0)))
  {
  }

  /** One request: counts move by what it adds, never down and never over the cap; other keys stay. */
  lemma {:induction false} ServeFacts(c: Config, rows: Rows, r: Request, k: Key)
    requires Configured(c)
    ensures var u, v := UsageOf(c, rows, k), UsageOf(c, Serve(c, rows, r), k);
            && v.calls == u.calls + Added(c, rows, r, k) && Added(c, rows, r, k) >= 0
            && v.calls <= c.dailyCap && v.tokens >= u.tokens && v.cost >= u.cost
            && (r.key != k ==> v == u)
  {
    ReadBounds(c, Row(rows, k), k.day);
    if r.key == k {
      var u := UsageOf(c, rows, k);
      match r {
        case Reserve(_, n, limit) =>
          if u.calls + Max(0, n) <= Capacity(c, limit) { ReadsBack(c, u.(calls := u.calls + Max(0, n))); }
        case Record(_, n, tokens, cost) => ReadsBack(c, RecordOn(c, Row(rows, k), k.day, n, tokens, cost));
      }
    }
  }

  lemma {:induction false} ServeKeepsClean(c: Config, rows: Rows, r: Request)
    requires Configured(c) && Clean(c, rows)
    ensures Clean(c, Serve(c, rows, r))
  {
    var next := Serve(c, rows, r);
    forall k | k in next
      ensures next[k] == Serialize(UsageOf(c, next, k)) && 0 <= UsageOf(c, next, k).calls <= c.dailyCap
    {
      ServeFacts(c, rows, r, k);
      ReadBounds(c, Row(rows, k), k.day);
      ReadBounds(c, Row(next, k), k.day);
      if r.key == k {
        match r {
          case Reserve(_, n, limit) =>
            var u := UsageOf(c, rows, k);
            if u.calls + Max(0, n) <= Capacity(c, limit) { ReadsBack(c, u.(calls := u.calls + Max(0, n))); }
          case Record(_, n, tokens, cost) => ReadsBack(c, RecordOn(c, Row(rows, k), k.day, n, tokens, cost));
        }
      }
    }
  }

  /** Over every interleaving of reservations and records, by any number of managers: the stored
      count is the starting count plus everything granted and recorded, no update is lost, it never
      exceeds the cap and never goes down within the day. */
  lemma {:induction false} LedgerConserves(c: Config, rows: Rows, rs: seq<Request>, k: Key)
    requires Configured(c)
    ensures var u, v := UsageOf(c, rows, k), UsageOf(c, ServeAll(c, rows, rs), k);
            && v.calls == u.calls + Total(c, rows, rs, k)
            && u.calls <= v.calls <= c.dailyCap && u.tokens <= v.tokens && u.cost <= v.cost
    ensures Clean(c, rows) ==> Clean(c, ServeAll(c, rows, rs))
  {
    ReadBounds(c, Row(rows, k), k.day);
    if rs != [] {
      var init := rs[..|rs| - 1];
      LedgerConserves(c, rows, init, k);
      ServeFacts(c, ServeAll(c, rows, init), rs[|rs| - 1], k);
      if Clean(c, rows) { ServeKeepsClean(c, ServeAll(c, rows, init), rs[|rs| - 1]); }
    }
  }

  /** A background request: a reservation under the limit, or a record that counts no call. */
  predicate Background(r: Request, limit: int) {
    match r
    case Reserve(_, _, l) => l == Some(limit)
    case Record(_, n, _, _) => n <= 0
  }

  predicate AllBackground(rs: seq<Request>, limit: int) { forall i :: 0 <= i < |rs| ==> Background(rs[i], limit) }

  /** Background work alone never takes the count above its limit. */
  lemma {:induction false} BackgroundStaysBelow(c: Config, rows: Rows, rs: seq<Request>, limit: int, k: Key)
    requires Configured(c) && AllBackground(rs, limit)
    ensures UsageOf(c, ServeAll(c, rows, rs), k).calls <= Max(UsageOf(c, rows, k).calls, limit)
  {
    if rs != [] {
      var init, r := rs[..|rs| - 1], rs[|rs| - 1];
      assert AllBackground(init, limit);
      BackgroundStaysBelow(c, rows, init, limit, k);
      BackgroundStep(c, ServeAll(c, rows, init), r, limit, k);
    }
  }

  /** Whatever runs beside it, a background request that finds the count at the limit adds
      nothing, and one that adds calls leaves the count within the limit. */
  lemma {:induction false} BackgroundStep(c: Config, rows: Rows, r: Request, limit: int, k: Key)
    requires Configured(c) && Background(r, limit)
    ensures Added(c, rows, r, k) > 0 ==> UsageOf(c, Serve(c, rows, r), k).calls <= limit
    ensures UsageOf(c, Serve(c, rows, r), k).calls <= Max(UsageOf(c, rows, k).calls, limit)
  {
    ServeFacts(c, rows, r, k);
    ReadBounds(c, Row(rows, k), k.day);
  }
}
