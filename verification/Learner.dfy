/**
 `LearnerBudget` of `pretender/budget.py`: a semaphore whose permits are owned by tasks. Each method
 is one stretch between two awaits, so a run is any interleaving of calls by any tasks; a task is
 inside at most one reserve or record at a time.
*/
module Learner {
  import opened Prelude
  import opened Budget

  type Task = nat

  datatype Lease = Lease(chat: string, manager: nat)

  function Slots(concurrency: int, foregroundReserve: int): int { Max(1, concurrency - foregroundReserve) }

  function CapacityLimit(c: Config, dailyReserve: int): int { Max(0, c.dailyCap - dailyReserve) }

  predicate IsLast(leases: seq<Lease>, chat: string, i: nat) {
    i < |leases| && leases[i].chat == chat && forall j :: i < j < |leases| ==> leases[j].chat != chat
  }

  method FindLast(leases: seq<Lease>, chat: string) returns (found: Option<nat>)
    ensures match found
            case Some(i) => IsLast(leases, chat, i)
            case None => forall j :: 0 <= j < |leases| ==> leases[j].chat != chat
  {
    var i := |leases|;
    while i > 0
      invariant 0 <= i <= |leases| && forall j :: i <= j < |leases| ==> leases[j].chat != chat
    {
      i := i - 1;
      if leases[i].chat == chat { return Some(i); }
    }
    found := None;
  }

  class LearnerBudget {
    const slots: nat
    var free: nat
    var reservations: map<Task, seq<Lease>>
    ghost var held: multiset<Task>
    ghost var reserving: set<Task>
    ghost var recording: set<Task>

    ghost function LeasesOf(t: Task): seq<Lease>
      reads this
    {
      if t in reservations then reservations[t] else []
    }

    /** Permits are conserved: free ones, owned leases, acquisitions still being decided and leases
        being settled add up to the slots. */
    ghost predicate Valid()
      reads this
    {
      && free + |held| + |reserving| + |recording| == slots
      && (forall t :: t in reservations ==> reservations[t] != [])
      && (forall t :: held[t] == |LeasesOf(t)|)
    }

    constructor (concurrency: int, foregroundReserve: int)
      ensures Valid() && free == slots >= 1
      ensures concurrency - foregroundReserve >= 1 ==> slots == concurrency - foregroundReserve
      ensures concurrency - foregroundReserve < 1 ==> slots == 1
      ensures reservations == map[] && reserving == {} && recording == {}
    {
      slots, free := Slots(concurrency, foregroundReserve), Slots(concurrency, foregroundReserve);
      reservations, held, reserving, recording := map[], multiset{}, {}, {};
    }

    /** `reserve` up to the first await: take a permit, or wait. */
    method Acquire(t: Task) returns (taken: bool)
      requires Valid() && t !in reserving && t !in recording
      modifies this`free, this`reserving
      ensures Valid() && taken == (old(free) > 0)
      ensures free == if taken then old(free) - 1 else old(free)
      ensures reserving == if taken then old(reserving) + {t} else old(reserving)
    {
      taken := free > 0;
      if taken { free, reserving := free - 1, reserving + {t}; }
    }

    /** `reserve` after the decision: an allowed reservation becomes a lease of its task, any other
        gives the permit back. */
    method Decided(t: Task, lease: Lease, kind: Kind)
      requires Valid() && t in reserving
      modifies this
      ensures Valid() && reserving == old(reserving) - {t} && recording == old(recording)
      ensures free == if kind == Allowed then old(free) else old(free) + 1
      ensures LeasesOf(t) == if kind == Allowed then old(LeasesOf(t)) + [lease] else old(LeasesOf(t))
      ensures forall u :: u != t ==> LeasesOf(u) == old(LeasesOf(u))
    {
      reserving := reserving - {t};
      if kind != Allowed {
        free := free + 1;
      } else {
        var mine := if t in reservations then reservations[t] else [];
        reservations := reservations[t := mine + [lease]];
        held := held + multiset{t};
      }
    }

    /** `reserve` when the manager raises or the task is cancelled: the permit comes back. */
    method Abort(t: Task)
      requires Valid() && t in reserving
      modifies this`free, this`reserving
      ensures Valid() && reserving == old(reserving) - {t} && free == old(free) + 1
    {
      free, reserving := free + 1, reserving - {t};
    }

    /** Remove lease `i` of a task, and the task itself with its last lease. */
    method Remove(t: Task, i: nat)
      requires t in reservations && i < |reservations[t]|
      requires forall u :: u in reservations ==> reservations[u] != []
      requires forall u :: held[u] == |LeasesOf(u)|
      modifies this`reservations, this`held
      ensures LeasesOf(t) == old(LeasesOf(t))[..i] + old(LeasesOf(t))[i + 1..]
      ensures forall u :: u != t ==> LeasesOf(u) == old(LeasesOf(u))
      ensures forall u :: u in reservations ==> reservations[u] != []
      ensures forall u :: held[u] == |LeasesOf(u)|
      ensures |held| == |old(held)| - 1
    {
      assert held[t] > 0;
      var rest := reservations[t][..i] + reservations[t][i + 1..];
      reservations := if rest == [] then reservations - {t} else reservations[t := rest];
      held := held - multiset{t};
    }

    /** `record` up to its await: take the owner's newest lease for the chat, if there is one. */
    method Take(t: Task, chat: string) returns (lease: Option<Lease>, ghost i: nat)
      requires Valid() && t !in reserving && t !in recording
      modifies this`reservations, this`held, this`recording
      ensures Valid() && recording == if lease.Some? then old(recording) + {t} else old(recording)
      ensures forall u :: u != t ==> LeasesOf(u) == old(LeasesOf(u))
      ensures lease.None? ==>
                && LeasesOf(t) == old(LeasesOf(t))
                && forall j :: 0 <= j < |LeasesOf(t)| ==> LeasesOf(t)[j].chat != chat
      ensures lease.Some? ==> IsLast(old(LeasesOf(t)), chat, i) && lease.value == old(LeasesOf(t))[i]
                              && LeasesOf(t) == old(LeasesOf(t))[..i] + old(LeasesOf(t))[i + 1..]
    {
      lease, i := None, 0;
      if t !in reservations { return; }
      var found := FindLast(reservations[t], chat);
      if found.None? { return; }
      i := found.value;
      lease := Some(reservations[t][found.value]);
      Remove(t, found.value);
      recording := recording + {t};
    }

    /** `record` after its await, whether it succeeded, raised or was cancelled. */
    method Settle(t: Task, lease: Option<Lease>)
      requires Valid() && lease.Some? == (t in recording)
      modifies this`free, this`recording
      ensures Valid() && recording == old(recording) - {t}
      ensures free == if lease.Some? then old(free) + 1 else old(free)
    {
      if lease.Some? { free, recording := free + 1, recording - {t}; }
    }

    /** `release`: the caller's newest lease, or nothing. */
    method Release(t: Task)
      requires Valid()
      modifies this`free, this`reservations, this`held
      ensures Valid()
      ensures free == if old(LeasesOf(t)) != [] then old(free) + 1 else old(free)
      ensures LeasesOf(t) == if old(LeasesOf(t)) != [] then old(LeasesOf(t))[..|old(LeasesOf(t))| - 1] else []
      ensures forall u :: u != t ==> LeasesOf(u) == old(LeasesOf(u))
    {
      if t in reservations {
        Remove(t, |reservations[t]| - 1);
        free := free + 1;
      }
    }

    /** Which tasks are inside `reserve`, and which inside `record`, with the lease they took. */
    ghost predicate Inside(inReserve: set<Task>, inRecord: map<Task, Option<Lease>>)
      reads this
    {
      && Valid() && reserving == inReserve && inRecord.Keys !! inReserve
      && forall t :: t in recording <==> t in inRecord && inRecord[t].Some?
    }

    method BeginOrEndReserve(
      step: Stretch, inReserve: set<Task>, inRecord: map<Task, Option<Lease>>) returns (now: set<Task>)
      requires Inside(inReserve, inRecord)
      modifies this
      ensures Inside(now, inRecord)
    {
      now := inReserve;
      match step {
        case ToAcquire(t) =>
          if t !in inReserve && t !in inRecord {
            var taken := Acquire(t);
            if taken { now := inReserve + {t}; }
          }
        case ToDecide(t, lease, kind) =>
          if t in inReserve {
            Decided(t, lease, kind);
            now := inReserve - {t};
          }
        case ToAbort(t) =>
          if t in inReserve {
            Abort(t);
            now := inReserve - {t};
          }
        case _ =>
      }
    }

    method BeginRecord(t: Task, chat: string, ghost inReserve: set<Task>, inRecord: map<Task, Option<Lease>>)
      returns (now: map<Task, Option<Lease>>)
      requires Inside(inReserve, inRecord) && t !in inReserve && t !in inRecord
      modifies this
      ensures Inside(inReserve, now)
    {
      var lease, _ := Take(t, chat);
      now := inRecord[t := lease];
    }

    method BeginOrEndRecord(step: Stretch, inReserve: set<Task>, inRecord: map<Task, Option<Lease>>)
      returns (now: map<Task, Option<Lease>>)
      requires Inside(inReserve, inRecord)
      modifies this
      ensures Inside(inReserve, now)
    {
      now := inRecord;
      match step {
        case ToTake(t, chat) =>
          if t !in inReserve && t !in inRecord { now := BeginRecord(t, chat, inReserve, inRecord); }
        case ToSettle(t) =>
          if t in inRecord {
            Settle(t, inRecord[t]);
            now := inRecord - {t};
          }
        case ToRelease(t) => Release(t);
        case _ =>
      }
    }

    /** Any schedule of stretches in which a task is inside one call at a time keeps the permits,
        whatever is decided, raised or cancelled. */
    method Drive(schedule: seq<Stretch>)
      requires Valid() && reserving == {} && recording == {}
      modifies this
      ensures Valid() && free + |held| + |reserving| + |recording| == slots
      ensures forall t :: held[t] == |LeasesOf(t)|
    {
      var inReserve: set<Task> := {};
      var inRecord: map<Task, Option<Lease>> := map[];
      for k := 0 to |schedule|
        invariant Inside(inReserve, inRecord)
      {
        inReserve := BeginOrEndReserve(schedule[k], inReserve, inRecord);
        inRecord := BeginOrEndRecord(schedule[k], inReserve, inRecord);
      }
    }

    /** When no call is under way and no task owns a lease, every permit is free; and there are
        never more free permits than slots. */
    lemma PermitsComeHome()
      requires Valid()
      ensures free <= slots
      ensures reservations == map[] && reserving == {} && recording == {} ==> free == slots
    {
      if reservations == map[] {
        assert forall t :: held[t] == |LeasesOf(t)| == 0;
        assert held == multiset{};
      }
    }
  }

  datatype Stretch =
    | ToAcquire(t: Task)
    | ToDecide(t: Task, lease: Lease, kind: Kind)
    | ToAbort(t: Task)
    | ToTake(t: Task, chat: string)
    | ToSettle(t: Task)
    | ToRelease(t: Task)

  /** The learner drops a reservation it has been charged for, in the one case that the ledger
      writes and still does not say "allowed": a single call on a degrade rung below the limit. */
  lemma {:induction false} ChargedButDroppedIff(
    c: Config, s: Option<Stored>, day: string, calls: int, dailyReserve: int)
    requires Configured(c)
    ensures var limit := CapacityLimit(c, dailyReserve);
            var u, r := Read(c, s, day), ReserveOn(c, s, day, calls, Some(limit));
            (r.0.kind != Allowed && r.1.Some? && Read(c, r.1, day).calls > u.calls)
            <==> calls == 1 && u.calls < limit && Decide(c, u).kind == Degraded
  {
    var limit, u := CapacityLimit(c, dailyReserve), Read(c, s, day);
    if calls >= 2 { BatchIff(c, s, day, calls, Some(limit)); }
    if calls == 1 && u.calls < limit && u.calls < c.dailyCap { ReadsBack(c, u.(calls := u.calls + 1)); }
    if calls <= 0 { ReadsBack(c, u); }
  }

  /** What learners do in the background leaves the foreground its daily reserve: they never take the count
      above the cap less the reserve, whatever they ask for. */
  lemma {:induction false} ForegroundKeepsReserve(
    c: Config, rows: Rows, rs: seq<Request>, dailyReserve: int, k: Key)
    requires Configured(c) && dailyReserve >= 0 && AllBackground(rs, CapacityLimit(c, dailyReserve))
    ensures var before, after := UsageOf(c, rows, k).calls, UsageOf(c, ServeAll(c, rows, rs), k).calls;
            after <= before || after <= Max(0, c.dailyCap - dailyReserve)
  {
    BackgroundStaysBelow(c, rows, rs, CapacityLimit(c, dailyReserve), k);
  }

  /** Such a case: a cap of four, a degrade rung at one half, two calls used. */
  lemma {:induction false} DroppedExample(c: Config)
    requires c == Config(4, [Rung(0.5, Degrade)])
    ensures var r := ReserveOn(c, Some(Blob("d", 2, 0, Some(0.0))), "d", 1, Some(CapacityLimit(c, 0)));
            r.0.kind == Degraded && r.1 == Some(Blob("d", 3, 0, Some(0.0)))
  {
    assert Engaged(c.rungs[0], 2, 4);
  }
}
