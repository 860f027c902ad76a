/**
 The message-interval average: `pretender/pacing.py` and the loop of
 `pretender/cycle.py` that evolves it over a message timeline.

 `Evolve` follows the loop as written. `Meant` is the reading its documentation
 gives: a non-positive gap carries no pacing information, so the average is the
 EWMA over the gaps between successive running maxima. `AgreesIff` says exactly
 when the two coincide.
*/
module Pacing {
  import opened Prelude
  import opened Messages

  /** One smoothing step with the fixed factor 0.5. */
  function Blend(gap: real, avg: real): real { 0.5 * gap + 0.5 * avg }

  function EwmaInterval(prevAvg: Option<real>, prevTs: Option<real>, now: real): Option<real>
  {
    if prevTs.None? then None
    else
      var gap := now - prevTs.value;
      if gap <= 0.0 then None
      else if prevAvg.None? then Some(gap)
      else Some(Blend(gap, prevAvg.value))
  }

  /** A message takes part in pacing when it is non-self and has arrived by `now`. */
  predicate Paces(m: Message, now: real) {
    !m.isSelf && m.recvTs.Some? && m.recvTs.value <= now
  }

  datatype Pace = Pace(avg: Option<real>, last: Option<real>)

  function Step(p: Pace, m: Message, now: real): Pace {
    if !Paces(m, now) then p
    else
      var ts := m.recvTs.value;
      Pace(EwmaInterval(p.avg, p.last, ts),
           if p.last.None? || ts > p.last.value then Some(ts) else p.last)
  }

  function Evolve(ms: seq<Message>, now: real): Pace {
    if ms == [] then Pace(None, None)
    else Step(Evolve(ms[..|ms| - 1], now), ms[|ms| - 1], now)
  }

  method EvolveAvgInterval(ms: seq<Message>, now: real) returns (avg: Option<real>)
    ensures avg == Evolve(ms, now).avg
  {
    avg := None;
    var prevTs: Option<real> := None;
    for i := 0 to |ms|
      invariant Pace(avg, prevTs) == Evolve(ms[..i], now)
    {
      var m := ms[i];
      assert ms[..i + 1][..i] == ms[..i];
      if m.isSelf || m.recvTs.None? || m.recvTs.value > now {
        continue;
      }
      var ts := m.recvTs.value;
      avg := EwmaInterval(avg, prevTs, ts);
      if prevTs.None? || ts > prevTs.value {
        prevTs := Some(ts);
      }
    }
    assert ms[..|ms|] == ms;
  }

  /* ---- The meant average ---------------------------------------------- */

  function RunningMax(ms: seq<Message>, now: real): Option<real> {
    if ms == [] then None
    else
      var m := ms[|ms| - 1];
      var r := RunningMax(ms[..|ms| - 1], now);
      if Paces(m, now) && (r.None? || m.recvTs.value > r.value) then m.recvTs else r
  }

  /** The gaps between successive running maxima; all of them are positive. */
  function Gaps(ms: seq<Message>, now: real): seq<real> {
    if ms == [] then []
    else
      var m := ms[|ms| - 1];
      var r := RunningMax(ms[..|ms| - 1], now);
      var g := Gaps(ms[..|ms| - 1], now);
      if Paces(m, now) && r.Some? && m.recvTs.value > r.value
      then g + [m.recvTs.value - r.value] else g
  }

  function Ewma(start: Option<real>, gaps: seq<real>): Option<real> {
    if gaps == [] then start
    else
      var a := Ewma(start, gaps[..|gaps| - 1]);
      var g := gaps[|gaps| - 1];
      if a.None? then Some(g) else Some(Blend(g, a.value))
  }

  function Meant(ms: seq<Message>, now: real): Option<real> {
    Ewma(None, Gaps(ms, now))
  }

  /** How many of the gaps precede the last non-positive one. */
  function Forgotten(ms: seq<Message>, now: real): (n: nat)
    ensures n <= |Gaps(ms, now)|
  {
    if ms == [] then 0
    else
      var m := ms[|ms| - 1];
      var r := RunningMax(ms[..|ms| - 1], now);
      if Paces(m, now) && r.Some? && m.recvTs.value <= r.value
      then |Gaps(ms[..|ms| - 1], now)|
      else Forgotten(ms[..|ms| - 1], now)
  }

  lemma {:induction false} LastIsRunningMax(ms: seq<Message>, now: real)
    ensures Evolve(ms, now).last == RunningMax(ms, now)
  {
    if ms != [] { LastIsRunningMax(ms[..|ms| - 1], now); }
  }

  lemma {:induction false} EwmaSnoc(start: Option<real>, gaps: seq<real>, g: real)
    ensures var a := Ewma(start, gaps);
            Ewma(start, gaps + [g]) == if a.None? then Some(g) else Some(Blend(g, a.value))
  {
    var x := gaps + [g];
    assert x[..|x| - 1] == gaps && x[|x| - 1] == g;
  }

  /** The loop as written forgets every gap before the last non-positive one. */
  lemma {:induction false} EvolveForgets(ms: seq<Message>, now: real)
    ensures Evolve(ms, now).avg == Ewma(None, Gaps(ms, now)[Forgotten(ms, now)..])
  {
    if ms != [] {
      EvolveForgets(ms[..|ms| - 1], now);
      LastIsRunningMax(ms[..|ms| - 1], now);
      assert ms == ms[..|ms| - 1] + [ms[|ms| - 1]];
      EvolveForgetsStep(ms[..|ms| - 1], ms[|ms| - 1], now);
    }
  }

  lemma {:induction false} GapsNeedTwo(ms: seq<Message>, now: real)
    requires RunningMax(ms, now).None?
    ensures Gaps(ms, now) == []
  {
    if ms != [] { GapsNeedTwo(ms[..|ms| - 1], now); }
  }

  lemma {:induction false} GapsSnoc(ms: seq<Message>, m: Message, now: real)
    ensures var r := RunningMax(ms, now);
            && RunningMax(ms + [m], now)
               == (if Paces(m, now) && (r.None? || m.recvTs.value > r.value) then m.recvTs else r)
            && Gaps(ms + [m], now) == (if Paces(m, now) && r.Some? && m.recvTs.value > r.value
                                       then Gaps(ms, now) + [m.recvTs.value - r.value] else Gaps(ms, now))
  {
    var x := ms + [m];
    assert x[..|x| - 1] == ms && x[|x| - 1] == m;
  }

  lemma {:induction false} EvolveSnoc(ms: seq<Message>, m: Message, now: real)
    ensures Evolve(ms + [m], now) == Step(Evolve(ms, now), m, now)
    ensures var r := RunningMax(ms, now);
            Forgotten(ms + [m], now) == (if Paces(m, now) && r.Some? && m.recvTs.value <= r.value
                                         then |Gaps(ms, now)| else Forgotten(ms, now))
  {
    var x := ms + [m];
    assert x[..|x| - 1] == ms && x[|x| - 1] == m;
  }

  lemma {:induction false} EvolveForgetsStep(init: seq<Message>, m: Message, now: real)
    requires Evolve(init, now).avg == Ewma(None, Gaps(init, now)[Forgotten(init, now)..])
    requires Evolve(init, now).last == RunningMax(init, now)
    ensures Evolve(init + [m], now).avg == Ewma(None, Gaps(init + [m], now)[Forgotten(init + [m], now)..])
  {
    EvolveSnoc(init, m, now);
    GapsSnoc(init, m, now);
    var g, f := Gaps(init, now), Forgotten(init, now);
    if RunningMax(init, now).None? {
      GapsNeedTwo(init, now);
    } else if Paces(m, now) {
      var d := m.recvTs.value - RunningMax(init, now).value;
      if d > 0.0 {
        GrowSuffix(g, f, d);
      } else {
        assert g[|g|..] == [];
      }
    }
  }

  lemma {:induction false} GrowSuffix(g: seq<real>, f: nat, d: real)
    requires f <= |g|
    ensures var a := Ewma(None, g[f..]);
            Ewma(None, (g + [d])[f..]) == if a.None? then Some(d) else Some(Blend(d, a.value))
  {
    assert (g + [d])[f..] == g[f..] + [d];
    EwmaSnoc(None, g[f..], d);
  }

  lemma {:induction false} EwmaSplit(start: Option<real>, a: seq<real>, b: seq<real>)
    ensures Ewma(start, a + b) == Ewma(Ewma(start, a), b)
  {
    if b == [] {
      assert a + b == a;
    } else {
      var b' := b[..|b| - 1];
      assert (a + b)[..|a + b| - 1] == a + b';
      EwmaSplit(start, a, b');
    }
  }

  /** Folding the same gaps keeps different averages apart. */
  lemma {:induction false} EwmaInjective(x: real, y: real, gaps: seq<real>)
    ensures Ewma(Some(x), gaps).Some? && Ewma(Some(y), gaps).Some?
    ensures Ewma(Some(x), gaps) == Ewma(Some(y), gaps) <==> x == y
  {
    if gaps != [] { EwmaInjective(x, y, gaps[..|gaps| - 1]); }
  }

  lemma {:induction false} EwmaSeeded(gaps: seq<real>)
    ensures Ewma(None, gaps).Some? <==> gaps != []
  {
    if gaps != [] { EwmaSeeded(gaps[..|gaps| - 1]); }
  }

  /** The loop as written equals the meant average exactly when it forgot no gap, or the
      first gap after the last non-positive one equals the average it forgot. */
  lemma {:induction false} AgreesIff(ms: seq<Message>, now: real)
    ensures var f, g := Forgotten(ms, now), Gaps(ms, now);
            (Evolve(ms, now).avg == Meant(ms, now))
            <==> (f == 0 || (f < |g| && Ewma(None, g[..f]) == Some(g[f])))
  {
    EvolveForgets(ms, now);
    var f, g := Forgotten(ms, now), Gaps(ms, now);
    if f == 0 {
      assert g[0..] == g;
    } else {
      var before, since := g[..f], g[f..];
      assert g == before + since;
      EwmaSeeded(before);
      SuffixAverage(before, since);
      assert since != [] <==> f < |g|;
      assert since != [] ==> since[0] == g[f];
    }
  }

  lemma {:induction false} SuffixAverage(before: seq<real>, since: seq<real>)
    requires before != [] && Ewma(None, before).Some?
    ensures (Ewma(None, since) == Ewma(None, before + since))
            <==> (since != [] && Ewma(None, before) == Some(since[0]))
  {
    EwmaSplit(None, before, since);
    if since == [] {
      assert before + since == before;
    } else {
      var A, head, rest := Ewma(None, before).value, since[0], since[1..];
      assert since == [head] + rest;
      EwmaSplit(None, [head], rest);
      EwmaSplit(Some(A), [head], rest);
      EwmaSnoc(None, [], head);
      EwmaSnoc(Some(A), [], head);
      assert [] + [head] == [head];
      EwmaInjective(head, Blend(head, A), rest);
    }
  }

  /** One late message is enough to lose a seeded average. */
  lemma {:induction false} ResetExample()
    ensures exists ms: seq<Message>, now: real ::
              Evolve(ms, now).avg == None && Meant(ms, now) == Some(10.0)
  {
    var a := Message("c", false, "", None, None, [], Some(0.0), None);
    var b := a.(recvTs := Some(10.0));
    var late := a.(recvTs := Some(5.0));
    var ms, now := [a, b, late], 20.0;
    assert [] + [a] == [a] && [a] + [b] == [a, b] && [a, b] + [late] == ms;
    GapsSnoc([], a, now);
    GapsSnoc([a], b, now);
    GapsSnoc([a, b], late, now);
    EvolveSnoc([], a, now);
    EvolveSnoc([a], b, now);
    EvolveSnoc([a, b], late, now);
    EwmaSnoc(None, [], 10.0);
    assert Gaps(ms, now) == [] + [10.0];
    assert Evolve(ms, now).avg == None && Meant(ms, now) == Some(10.0);
  }

  lemma {:induction false} GapsPositive(ms: seq<Message>, now: real)
    ensures forall i :: 0 <= i < |Gaps(ms, now)| ==> Gaps(ms, now)[i] > 0.0
  {
    if ms != [] { GapsPositive(ms[..|ms| - 1], now); }
  }

  /** Every average lies between the smallest and the largest gap it folds. */
  lemma {:induction false} EwmaWithin(gaps: seq<real>, lo: real, hi: real)
    requires gaps != []
    requires forall i :: 0 <= i < |gaps| ==> lo <= gaps[i] <= hi
    ensures Ewma(None, gaps).Some? && lo <= Ewma(None, gaps).value <= hi
  {
    var init := gaps[..|gaps| - 1];
    if init == [] {
      assert Ewma(None, init) == None;
    } else {
      assert forall i :: 0 <= i < |init| ==> init[i] == gaps[i];
      EwmaWithin(init, lo, hi);
    }
  }

  /** The durable average is positive once it exists, and inside the range of the gaps. */
  lemma {:induction false} AverageWithinGaps(ms: seq<Message>, now: real, lo: real, hi: real)
    requires forall i :: 0 <= i < |Gaps(ms, now)| ==> lo <= Gaps(ms, now)[i] <= hi
    ensures Meant(ms, now).Some? ==> MaxReal(lo, 0.0) <= Meant(ms, now).value <= hi && Meant(ms, now).value > 0.0
    ensures Evolve(ms, now).avg.Some? ==>
              MaxReal(lo, 0.0) <= Evolve(ms, now).avg.value <= hi && Evolve(ms, now).avg.value > 0.0
  {
    GapsPositive(ms, now);
    EvolveForgets(ms, now);
    var g := Gaps(ms, now);
    EwmaSeeded(g);
    var s := g[Forgotten(ms, now)..];
    EwmaSeeded(s);
    if g != [] { EwmaWithin(g, lo, hi); EwmaPositive(g); }
    if s != [] { EwmaWithin(s, lo, hi); EwmaPositive(s); }
  }

  lemma {:induction false} EwmaPositive(gaps: seq<real>)
    requires gaps != []
    requires forall i :: 0 <= i < |gaps| ==> gaps[i] > 0.0
    ensures Ewma(None, gaps).Some? && Ewma(None, gaps).value > 0.0
  {
    var init := gaps[..|gaps| - 1];
    if init == [] {
      assert Ewma(None, init) == None;
    } else {
      assert forall i :: 0 <= i < |init| ==> init[i] == gaps[i];
      EwmaPositive(init);
    }
  }

  /** A message that does not raise the running maximum never changes the meant average,
      wherever it is inserted. */
  lemma {:induction false} MeantIgnoresLateOrSelf(a: seq<Message>, m: Message, b: seq<Message>, now: real)
    requires Paces(m, now) ==> RunningMax(a, now).Some? && m.recvTs.value <= RunningMax(a, now).value
    ensures RunningMax(a + [m] + b, now) == RunningMax(a + b, now)
    ensures Gaps(a + [m] + b, now) == Gaps(a + b, now)
    ensures Meant(a + [m] + b, now) == Meant(a + b, now)
  {
    if b == [] {
      assert a + [m] + b == a + [m] && a + b == a;
      assert (a + [m])[..|a|] == a;
    } else {
      var b', x := b[..|b| - 1], b[|b| - 1];
      MeantIgnoresLateOrSelf(a, m, b', now);
      assert a + [m] + b == (a + [m] + b') + [x] && a + b == (a + b') + [x];
      GapsSnoc(a + [m] + b', x, now);
      GapsSnoc(a + b', x, now);
    }
  }

  /** Once every message has arrived, the average no longer depends on the clock. */
  lemma {:induction false} EvolveStable(ms: seq<Message>, t: real, u: real)
    requires forall i :: 0 <= i < |ms| && ms[i].recvTs.Some? ==> ms[i].recvTs.value <= t
    requires t <= u
    ensures Evolve(ms, t) == Evolve(ms, u)
  {
    if ms != [] {
      var init := ms[..|ms| - 1];
      assert forall i :: 0 <= i < |init| ==> init[i] == ms[i];
      EvolveStable(init, t, u);
    }
  }
}
