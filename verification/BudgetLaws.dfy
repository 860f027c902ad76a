/**
 What a reservation answers, to whom and why: the rung it names, the room it reports, and which call of a
 batch it stops at.
*/
module BudgetLaws {
  import opened Prelude
  import opened Budget

  /** The rung named in a decision is the highest engaged one, and past the cap the highest of all that are
      engaged at the cap. */
  lemma {:induction false} DecisionNamesRung(c: Config, u: Usage)
    requires Ascending(c.rungs)
    ensures var d, calls := Decide(c, u), Min(u.calls, c.dailyCap);
            && d.usage == u
            && (d.rung.None? ==> forall i :: !Highest(c.rungs, i, calls, c.dailyCap))
            && (d.rung.Some? ==> exists i :: Highest(c.rungs, i, calls, c.dailyCap) && c.rungs[i] == d.rung.value)
  {
    TopIffHighest(c.rungs, Min(u.calls, c.dailyCap), c.dailyCap);
  }

  /** The limit leaves no room for one more call. */
  predicate Closed(calls: int, limit: Option<int>) { limit.Some? && calls >= limit.value }

  /** The call of a batch that finds `k` calls used does not pass, and every call before it does. */
  ghost predicate StopsAt(c: Config, u: Usage, n: int, limit: Option<int>, k: int) {
    u.calls <= k < u.calls + n && !Passes(c, k, limit) && forall j :: u.calls <= j < k ==> Passes(c, j, limit)
  }

  /** What is answered when the batch stops at a call that finds `k` calls used. */
  ghost predicate StopAnswer(c: Config, u: Usage, limit: Option<int>, k: int, d: Decision) {
    var at := Decide(c, u.(calls := Min(c.dailyCap, k)));
    if Closed(k, limit) then d == Decision(Blocked, u, 0, None, true)
    else if at.kind == Blocked then d == Decision(Blocked, u, 0, at.rung, true)
    else d == Decision(Degraded, u, Decide(c, u).remaining, at.rung, true)
  }

  lemma {:induction false} StepsStop(c: Config, u: Usage, n: int, limit: Option<int>, k: int, from: int)
    requires StopsAt(c, u, n, limit, k) && u.calls <= from <= k
    ensures StopAnswer(c, u, limit, k, Steps(c, u, n, limit, Decide(c, u), from - u.calls + 1))
    decreases k - from
  {
    KindSeesCalls(c, u.(calls := Min(c.dailyCap, from)), Fresh("").(calls := from));
    if from < k {
      StepsStop(c, u, n, limit, k, from + 1);
      var i := from - u.calls + 1;
      assert Passes(c, from, limit);
      assert Steps(c, u, n, limit, Decide(c, u), i) == Steps(c, u, n, limit, Decide(c, u), i + 1);
    }
  }

  lemma {:induction false} FirstStop(c: Config, u: Usage, n: int, limit: Option<int>) returns (k: int)
    requires !AllPass(c, u.calls, n, limit)
    ensures StopsAt(c, u, n, limit, k)
  {
    k := u.calls;
    while k < u.calls + n && Passes(c, k, limit)
      invariant u.calls <= k && forall j :: u.calls <= j < k ==> Passes(c, j, limit)
    {
      k := k + 1;
    }
  }

  /** The answer to a batch: none when the limit is closed; the verdict on the current count for a single
      call, or if that blocks, or if every call passes; and otherwise what the first call that does not
      pass runs into. */
  lemma {:induction false} BatchAnswers(c: Config, u: Usage, n: int, limit: Option<int>, d: Decision)
    requires d == BatchDecision(c, u, n, limit)
    ensures Closed(u.calls, limit) ==> d == Decision(Blocked, u, 0, None, true)
    ensures !Closed(u.calls, limit) && (n <= 1 || Decide(c, u).kind == Blocked || AllPass(c, u.calls, n, limit)) ==>
              d == Decide(c, u)
    ensures !Closed(u.calls, limit) && n >= 2 && Decide(c, u).kind != Blocked && !AllPass(c, u.calls, n, limit) ==>
              exists k :: StopsAt(c, u, n, limit, k) && StopAnswer(c, u, limit, k, d)
  {
    if n >= 2 {
      StepsIff(c, u, n, limit, Decide(c, u), 1);
      if !AllPass(c, u.calls, n, limit) {
        var k := FirstStop(c, u, n, limit);
        StepsStop(c, u, n, limit, k, u.calls);
      }
    }
  }

  /** The room under the cap and the limit. */
  function Room(c: Config, limit: Option<int>): int {
    if limit.None? || limit.value > c.dailyCap then c.dailyCap else if limit.value < 0 then 0 else limit.value
  }

  /** A reservation reports the usage it found and is written exactly if it is not answered "semantic only";
      then the next reader finds the calls added and nothing else changed, within the cap and the limit. A
      batch that is let through and still does not fit is told how much would have. */
  lemma {:induction false} ReserveAnswers(
    c: Config, s: Option<Stored>, day: string, calls: int, limit: Option<int>, d: Decision, w: Option<Stored>)
    requires Configured(c) && (d, w) == ReserveOn(c, s, day, calls, limit)
    ensures var u, n := Read(c, s, day), Max(0, calls);
            && d.usage == u && (w.Some? <==> !d.semanticOnly)
            && (w.Some? ==> Read(c, w, day) == u.(calls := u.calls + n) && u.calls + n <= Room(c, limit))
            && var b := BatchDecision(c, u, n, limit);
               (d == b || (!b.semanticOnly && d == Decision(Blocked, u, Max(0, Room(c, limit) - u.calls), None, true)
                           && u.calls + n > Room(c, limit)))
  {
    var u, n := Read(c, s, day), Max(0, calls);
    ReadBounds(c, s, day);
    BatchAnswers(c, u, n, limit, BatchDecision(c, u, n, limit));
    if w.Some? { ReadsBack(c, u.(calls := u.calls + n)); }
  }
}
