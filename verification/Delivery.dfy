/**
 The at-most-once delivery protocol of `pretender/outbox.py` and the outbox transitions of
 `pretender/repo.py`, as a state machine. Any number of pumps run beside each other; the adapter
 may write, fail before or after the write, or refuse; echoes arrive; rows are dropped; the
 process crashes between any two steps.
*/
module Delivery {
  import opened Prelude

  datatype State = Waiting | InFlight | Sent | Dropped

  /** Where a pump stands with the row it claimed: about to call the adapter, told that nothing was
      written, or told that the message went out. */
  datatype Phase = Claimed(row: nat) | Refused(row: nat) | Confirmed(row: nat)

  /** `wire[r]` counts the writes of row `r` that reached the platform. */
  datatype World = World(rows: map<nat, State>, pumps: map<nat, Phase>, wire: map<nat, nat>)

  const START := World(map[], map[], map[])

  datatype Step =
    | Insert(r: nat)
    | Attempt(p: nat, r: nat)
    | Deliver(p: nat)
    | Fail(p: nat, written: bool)
    | NotReady(p: nat)
    | Requeue(p: nat)
    | MarkSent(p: nat)
    | Echo(r: nat)
    | Drop(r: nat)
    | Crash

  function StateOf(w: World, r: nat): Option<State> { if r in w.rows then Some(w.rows[r]) else None }

  function Writes(w: World, r: nat): nat { if r in w.wire then w.wire[r] else 0 }

  function Forget(w: World, p: nat): World { w.(pumps := w.pumps - {p}) }

  /** The compare-and-set every row transition goes through. */
  function Cas(w: World, r: nat, from: State, to: State): World {
    if StateOf(w, r) == Some(from) then w.(rows := w.rows[r := to]) else w
  }

  function Wrote(w: World, r: nat): World { w.(wire := w.wire[r := Writes(w, r) + 1]) }

  /** One step; a step that is not possible changes nothing. */
  function Next(w: World, s: Step): World {
    match s
    case Insert(r) => if r in w.rows then w else w.(rows := w.rows[r := Waiting])
    case Attempt(p, r) =>
      if p in w.pumps || StateOf(w, r) != Some(Waiting) then w
      else Cas(w, r, Waiting, InFlight).(pumps := w.pumps[p := Claimed(r)])
    case Deliver(p) =>
      if p in w.pumps && w.pumps[p].Claimed? then
        Wrote(w, w.pumps[p].row).(pumps := w.pumps[p := Confirmed(w.pumps[p].row)])
      else w
    case Fail(p, written) =>
      if p in w.pumps && w.pumps[p].Claimed? then
        Forget(if written then Wrote(w, w.pumps[p].row) else w, p)
      else w
    case NotReady(p) =>
      if p in w.pumps && w.pumps[p].Claimed? then w.(pumps := w.pumps[p := Refused(w.pumps[p].row)]) else w
    case Requeue(p) =>
      if p in w.pumps && w.pumps[p].Refused? then Forget(Cas(w, w.pumps[p].row, InFlight, Waiting), p) else w
    case MarkSent(p) =>
      if p in w.pumps && w.pumps[p].Confirmed? then Forget(Cas(w, w.pumps[p].row, InFlight, Sent), p) else w
    case Echo(r) => Cas(w, r, InFlight, Sent)
    case Drop(r) => Cas(w, r, Waiting, Dropped)
    case Crash => w.(pumps := map[])
  }

  function Run(w: World, steps: seq<Step>): World {
    if steps == [] then w else Next(Run(w, steps[..|steps| - 1]), steps[|steps| - 1])
  }

  /** The row has been handed to the adapter, or may have been. */
  predicate Live(w: World, r: nat) { r in w.rows && (w.rows[r] == InFlight || w.rows[r] == Sent) }

  /** The pump may still write the row it claimed, or put it back. */
  predicate Unwritten(w: World, p: nat) { p in w.pumps && !w.pumps[p].Confirmed? }

  ghost predicate OneEach(w: World) {
    forall p, q :: p in w.pumps && q in w.pumps && p != q ==> w.pumps[p].row != w.pumps[q].row
  }

  /** A row has at most one pump and at most one write; a row that some pump may still write or
      put back has none; and only live rows have pumps or writes. */
  ghost predicate Safe(w: World) {
    && OneEach(w)
    && (forall r :: Writes(w, r) <= 1 && (Writes(w, r) == 1 ==> Live(w, r)))
    && (forall p :: p in w.pumps ==> Live(w, w.pumps[p].row))
    && (forall p :: Unwritten(w, p) ==> Writes(w, w.pumps[p].row) == 0)
  }

  lemma {:induction false} WriteIsSafe(w: World, p: nat)
    requires Safe(w) && p in w.pumps && w.pumps[p].Claimed?
    ensures Safe(Forget(Wrote(w, w.pumps[p].row), p))
    ensures Safe(Wrote(w, w.pumps[p].row).(pumps := w.pumps[p := Confirmed(w.pumps[p].row)]))
  {
    var r := w.pumps[p].row;
    assert Unwritten(w, p);
    var a, b := Forget(Wrote(w, r), p), Wrote(w, r).(pumps := w.pumps[p := Confirmed(r)]);
    forall q | q != r ensures Writes(a, q) == Writes(w, q) == Writes(b, q) {}
    assert Writes(a, r) == 1 == Writes(b, r);
    forall q | Unwritten(a, q) ensures Writes(a, a.pumps[q].row) == 0 { assert Unwritten(w, q) && q != p; }
    forall q | Unwritten(b, q) ensures Writes(b, b.pumps[q].row) == 0 { assert Unwritten(w, q) && q != p; }
  }

  lemma {:induction false} ForgetIsSafe(w: World, p: nat)
    requires Safe(w)
    ensures Safe(Forget(w, p))
  {
    var a := Forget(w, p);
    forall r ensures Writes(a, r) == Writes(w, r) && (Live(w, r) ==> Live(a, r)) {}
    forall q | Unwritten(a, q) ensures Writes(a, a.pumps[q].row) == 0 { assert Unwritten(w, q); }
  }

  lemma {:induction false} SentIsSafe(w: World, r: nat)
    requires Safe(w)
    ensures Safe(Cas(w, r, InFlight, Sent))
  {
    var a := Cas(w, r, InFlight, Sent);
    forall q ensures Writes(a, q) == Writes(w, q) && (Live(w, q) ==> Live(a, q)) {}
    forall q | Unwritten(a, q) ensures Writes(a, a.pumps[q].row) == 0 { assert Unwritten(w, q); }
  }

  lemma {:induction false} ClaimIsSafe(w: World, p: nat, r: nat)
    requires Safe(w) && p !in w.pumps && StateOf(w, r) == Some(Waiting)
    ensures Safe(Next(w, Attempt(p, r)))
  {
    var a := Next(w, Attempt(p, r));
    assert !Live(w, r);
    forall q ensures Writes(a, q) == Writes(w, q) && (Live(w, q) ==> Live(a, q)) {}
    forall q | Unwritten(a, q) ensures Writes(a, a.pumps[q].row) == 0 { assert q != p ==> Unwritten(w, q); }
  }

  predicate Held(w: World, r: nat) { exists p :: p in w.pumps && w.pumps[p].row == r }

  /** A refused claim goes back: its row waits again (unless an echo has marked it sent), it was never
      written and nobody holds it; no other row changes. */
  lemma {:induction false} RequeueIsSafe(w: World, p: nat)
    requires Safe(w) && p in w.pumps && w.pumps[p].Refused?
    ensures Safe(Next(w, Requeue(p)))
    ensures var v, r := Next(w, Requeue(p)), w.pumps[p].row;
            && StateOf(v, r) == (if StateOf(w, r) == Some(InFlight) then Some(Waiting) else Some(Sent))
            && Writes(v, r) == 0 && !Held(v, r)
            && forall q :: q != r ==> StateOf(v, q) == StateOf(w, q) && Writes(v, q) == Writes(w, q)
  {
    var r, a := w.pumps[p].row, Next(w, Requeue(p));
    assert Unwritten(w, p);
    forall q ensures Writes(a, q) == Writes(w, q) && (q != r && Live(w, q) ==> Live(a, q)) {}
    forall q | Unwritten(a, q) ensures Writes(a, a.pumps[q].row) == 0 { assert Unwritten(w, q); }
  }

  lemma {:induction false} RefusalIsSafe(w: World, p: nat)
    requires Safe(w)
    ensures Safe(Next(w, NotReady(p)))
  {
    var a := Next(w, NotReady(p));
    forall q ensures Writes(a, q) == Writes(w, q) && (Live(w, q) <==> Live(a, q)) {}
    forall q | Unwritten(a, q) ensures Writes(a, a.pumps[q].row) == 0 { assert Unwritten(w, q); }
  }

  /** Steps that touch neither a live row nor a pump that stays. */
  lemma {:induction false} QuietStepIsSafe(w: World, s: Step)
    requires Safe(w) && (s.Insert? || s.Drop? || s.Crash?)
    ensures Safe(Next(w, s))
  {
    var a := Next(w, s);
    forall q ensures Writes(a, q) == Writes(w, q) && (Live(w, q) <==> Live(a, q)) {}
    forall q | Unwritten(a, q) ensures Writes(a, a.pumps[q].row) == 0 { assert Unwritten(w, q); }
  }

  lemma {:induction false} StepIsSafe(w: World, s: Step)
    requires Safe(w)
    ensures Safe(Next(w, s))
  {
    match s
    case Insert(_) => QuietStepIsSafe(w, s);
    case Drop(_) => QuietStepIsSafe(w, s);
    case Crash => QuietStepIsSafe(w, s);
    case Attempt(p, r) => if p !in w.pumps && StateOf(w, r) == Some(Waiting) { ClaimIsSafe(w, p, r); }
    case Deliver(p) => if p in w.pumps && w.pumps[p].Claimed? { WriteIsSafe(w, p); }
    case Fail(p, _) => if p in w.pumps && w.pumps[p].Claimed? { WriteIsSafe(w, p); ForgetIsSafe(w, p); }
    case NotReady(p) => RefusalIsSafe(w, p);
    case Requeue(p) => if p in w.pumps && w.pumps[p].Refused? { RequeueIsSafe(w, p); }
    case MarkSent(p) =>
      if p in w.pumps && w.pumps[p].Confirmed? {
        SentIsSafe(w, w.pumps[p].row);
        ForgetIsSafe(Cas(w, w.pumps[p].row, InFlight, Sent), p);
      }
    case Echo(r) => SentIsSafe(w, r);
  }

  /** Over every run of concurrent pumps, adapter failures, refusals, echoes, drops and crashes:
      no row is ever written to the wire twice. */
  lemma {:induction false} AtMostOnce(steps: seq<Step>, r: nat)
    ensures Safe(Run(START, steps)) && Writes(Run(START, steps), r) <= 1
  {
    if steps != [] {
      AtMostOnce(steps[..|steps| - 1], r);
      StepIsSafe(Run(START, steps[..|steps| - 1]), steps[|steps| - 1]);
    }
  }

  /** Pump `p` stands before the row in this phase. */
  predicate Stands(w: World, p: nat, phase: Phase) { p in w.pumps && w.pumps[p] == phase }

  /** When a row changes, and how: it appears waiting, or waits again when the pump that was refused puts it
      back; it is in flight from the attempt of a free pump on; it is sent by an echo or by the pump whose
      send was confirmed; and it is dropped only while it waits. It is written by the pump that claimed it. */
  lemma {:induction false} RowMovesIff(w: World, s: Step, r: nat)
    ensures var a, b := StateOf(w, r), StateOf(Next(w, s), r);
            && (a != b && b == Some(Waiting) <==>
                  (s == Insert(r) && a.None?)
                  || (s.Requeue? && Stands(w, s.p, Refused(r)) && a == Some(InFlight)))
            && (a != b && b == Some(InFlight) <==> s.Attempt? && s.r == r && s.p !in w.pumps && a == Some(Waiting))
            && (a != b && b == Some(Sent) <==>
                  a == Some(InFlight) && (s == Echo(r) || (s.MarkSent? && Stands(w, s.p, Confirmed(r)))))
            && (a != b && b == Some(Dropped) <==> a == Some(Waiting) && s == Drop(r))
            && (b.None? ==> a.None?)
    ensures Writes(Next(w, s), r) == Writes(w, r) +
              (if (s.Deliver? || (s.Fail? && s.written)) && Stands(w, s.p, Claimed(r)) then 1 else 0)
  {
  }

  lemma {:induction false} ClaimIs(w: World, p: nat, r: nat, a: World)
    requires Safe(w) && StateOf(w, r) == Some(Waiting) && p !in w.pumps && a == Next(w, Attempt(p, r))
    ensures a == World(w.rows[r := InFlight], w.pumps[p := Claimed(r)], w.wire) && Writes(w, r) == 0
  {
    assert !Live(w, r);
  }

  lemma {:induction false} PumpLeaves(pumps: map<nat, Phase>, p: nat, x: Phase)
    requires p !in pumps
    ensures pumps[p := x] - {p} == pumps
  {
  }

  /** A free pump takes a waiting row. Delivered and confirmed, the row is sent with one write and the pump is
      free again; no other row and no other pump takes part. */
  lemma {:induction false} DeliveredIsSent(w: World, p: nat, r: nat, a: World, b: World, c: World)
    requires Safe(w) && StateOf(w, r) == Some(Waiting) && p !in w.pumps
    requires a == Next(w, Attempt(p, r)) && b == Next(a, Deliver(p)) && c == Next(b, MarkSent(p))
    ensures c.rows == w.rows[r := Sent] && c.pumps == w.pumps && c.wire == w.wire[r := 1]
  {
    ClaimIs(w, p, r, a);
    assert b == World(a.rows, w.pumps[p := Confirmed(r)], w.wire[r := 1]);
    PumpLeaves(w.pumps, p, Confirmed(r));
  }

  /** Refused and put back, the row waits as if nothing had happened. */
  lemma {:induction false} RefusedIsBack(w: World, p: nat, r: nat, a: World, b: World)
    requires Safe(w) && StateOf(w, r) == Some(Waiting) && p !in w.pumps
    requires a == Next(w, Attempt(p, r)) && b == Next(a, NotReady(p))
    ensures Next(b, Requeue(p)) == w
  {
    ClaimIs(w, p, r, a);
    assert b == World(a.rows, w.pumps[p := Refused(r)], w.wire);
    PumpLeaves(w.pumps, p, Refused(r));
    assert w.rows[r := InFlight][r := Waiting] == w.rows;
  }

  /** After a failure the row stays in flight, whether or not it was written, and the pump is free. */
  lemma {:induction false} FailedStaysInFlight(w: World, p: nat, r: nat, a: World, written: bool)
    requires Safe(w) && StateOf(w, r) == Some(Waiting) && p !in w.pumps && a == Next(w, Attempt(p, r))
    ensures Next(a, Fail(p, written))
         == World(w.rows[r := InFlight], w.pumps, if written then w.wire[r := 1] else w.wire)
  {
    ClaimIs(w, p, r, a);
    PumpLeaves(w.pumps, p, Claimed(r));
  }

  /** A sent row never changes state again. */
  lemma {:induction false} SentIsFinal(w: World, steps: seq<Step>, r: nat)
    requires StateOf(w, r) == Some(Sent)
    ensures StateOf(Run(w, steps), r) == Some(Sent)
  {
    if steps != [] {
      SentIsFinal(w, steps[..|steps| - 1], r);
      SentStays(Run(w, steps[..|steps| - 1]), steps[|steps| - 1], r);
    }
  }

  lemma {:induction false} SentStays(w: World, s: Step, r: nat)
    requires StateOf(w, r) == Some(Sent)
    ensures StateOf(Next(w, s), r) == Some(Sent)
  {
  }

  /** An ambiguous row, in flight with no pump on it, for instance after a crash, is never retried:
      whatever happens, nothing claims it and its count of writes stays. */
  lemma {:induction false} AmbiguousIsNeverRetried(w: World, steps: seq<Step>, r: nat)
    requires Live(w, r) && !Held(w, r)
    ensures var v := Run(w, steps); Live(v, r) && !Held(v, r) && Writes(v, r) == Writes(w, r)
  {
    if steps != [] {
      AmbiguousIsNeverRetried(w, steps[..|steps| - 1], r);
      StaysAmbiguous(Run(w, steps[..|steps| - 1]), steps[|steps| - 1], r);
    }
  }

  lemma {:induction false} StaysAmbiguous(w: World, s: Step, r: nat)
    requires Live(w, r) && !Held(w, r)
    ensures var v := Next(w, s); Live(v, r) && !Held(v, r) && Writes(v, r) == Writes(w, r)
  {
    var v := Next(w, s);
    forall p | p in v.pumps ensures v.pumps[p].row != r { assert p in w.pumps ==> w.pumps[p].row != r; }
  }

  /** A dropped row nobody holds stays so. */
  lemma {:induction false} DroppedIsFinal(w: World, steps: seq<Step>, r: nat)
    requires StateOf(w, r) == Some(Dropped) && !Held(w, r)
    ensures var v := Run(w, steps); StateOf(v, r) == Some(Dropped) && !Held(v, r) && Writes(v, r) == Writes(w, r)
  {
    if steps != [] {
      DroppedIsFinal(w, steps[..|steps| - 1], r);
      StaysDropped(Run(w, steps[..|steps| - 1]), steps[|steps| - 1], r);
    }
  }

  lemma {:induction false} StaysDropped(w: World, s: Step, r: nat)
    requires StateOf(w, r) == Some(Dropped) && !Held(w, r)
    ensures var v := Next(w, s); StateOf(v, r) == Some(Dropped) && !Held(v, r) && Writes(v, r) == Writes(w, r)
  {
    var v := Next(w, s);
    forall p | p in v.pumps ensures v.pumps[p].row != r { assert p in w.pumps ==> w.pumps[p].row != r; }
  }

  /** A restart never repeats a send: whatever follows the crash, only rows that were still waiting, or
      did not exist yet, are ever written again, and a row that was in flight or sent stays so. */
  lemma {:induction false} CrashNeverRetries(w: World, steps: seq<Step>, r: nat)
    ensures var v := Run(Next(w, Crash), steps);
            && (Writes(v, r) != Writes(w, r) ==> StateOf(w, r).None? || StateOf(w, r) == Some(Waiting))
            && (Live(w, r) ==> Live(v, r) && !Held(v, r))
  {
    var a := Next(w, Crash);
    if Live(w, r) {
      AmbiguousIsNeverRetried(a, steps, r);
    } else if StateOf(w, r) == Some(Dropped) {
      DroppedIsFinal(a, steps, r);
    }
  }

  /** Every echo of the run proves a write that really happened. */
  ghost predicate Honest(w: World, steps: seq<Step>) {
    forall i :: 0 <= i < |steps| && steps[i].Echo? ==> Writes(Run(w, steps[..i]), steps[i].r) >= 1
  }

  ghost predicate SentWasWritten(w: World) {
    && (forall r :: StateOf(w, r) == Some(Sent) ==> Writes(w, r) >= 1)
    && (forall p :: p in w.pumps && w.pumps[p].Confirmed? ==> Writes(w, w.pumps[p].row) >= 1)
  }

  /** With honest echoes, a row is marked sent only after exactly one write. */
  lemma {:induction false} SentMeansWrittenOnce(steps: seq<Step>, r: nat)
    requires Honest(START, steps)
    ensures SentWasWritten(Run(START, steps))
    ensures StateOf(Run(START, steps), r) == Some(Sent) ==> Writes(Run(START, steps), r) == 1
  {
    AtMostOnce(steps, r);
    if steps != [] {
      var n := |steps| - 1;
      assert Honest(START, steps[..n]) by {
        forall i | 0 <= i < n && steps[..n][i].Echo?
          ensures Writes(Run(START, steps[..n][..i]), steps[..n][i].r) >= 1
        {
          assert steps[..n][..i] == steps[..i];
        }
      }
      SentMeansWrittenOnce(steps[..n], r);
      StepKeepsWritten(Run(START, steps[..n]), steps[n]);
    }
  }

  lemma {:induction false} StepKeepsWritten(w: World, s: Step)
    requires SentWasWritten(w) && (s.Echo? ==> Writes(w, s.r) >= 1)
    ensures SentWasWritten(Next(w, s))
  {
    var v := Next(w, s);
    forall r ensures Writes(v, r) >= Writes(w, r) {}
    forall r | StateOf(v, r) == Some(Sent) ensures Writes(v, r) >= 1 { NewlySent(w, s, r); }
    forall p | p in v.pumps && v.pumps[p].Confirmed? ensures Writes(v, v.pumps[p].row) >= 1 {
      NewlyConfirmed(w, s, p);
    }
  }

  lemma {:induction false} NewlySent(w: World, s: Step, r: nat)
    requires StateOf(Next(w, s), r) == Some(Sent)
    ensures || StateOf(w, r) == Some(Sent)
            || (s.Echo? && s.r == r)
            || (s.MarkSent? && s.p in w.pumps && w.pumps[s.p] == Confirmed(r))
  {
  }

  lemma {:induction false} NewlyConfirmed(w: World, s: Step, p: nat)
    requires p in Next(w, s).pumps && Next(w, s).pumps[p].Confirmed?
    ensures var v := Next(w, s);
            || (p in w.pumps && w.pumps[p] == v.pumps[p])
            || (s == Deliver(p) && Writes(v, v.pumps[p].row) >= 1)
  {
  }
}
