/**
 Candidate admission of `MediaHarvester` in `pretender/media.py`, seen from one chat. Harvest tasks
 reserve a slot under the one lock of all chats, which is held across the awaited count, submit
 through the database writer, and give the reservation back under the lock. Tasks in the same phase
 are interchangeable; each method is one stretch between two awaits, so a run is any sequence of
 calls.

 A submit is queued at the writer before it runs, and a task cancelled in between leaves its submit
 behind: the writer still runs it.
*/
module Media {
  import opened Prelude

  /** The lock: free, held for another chat, held while the count is read, or held with the count. */
  datatype Holder = Free | Elsewhere | Reading | Counted(count: nat)

  /** The harvest tasks of the chat: with a reservation and nothing submitted, with a submit queued at
      the writer, past their submit; queued submits whose task is gone; and all there ever were. */
  datatype Tasks = Tasks(reserved: nat, queued: nat, releasing: nat, orphans: nat, lost: nat)

  /** Candidates that are pending, or will be without another admission. */
  function Claims(pending: nat, t: Tasks): nat { pending + t.reserved + t.queued + t.orphans }

  class Harvester {
    const cap: nat
    var lock: Holder
    /** The chat's entry in the table of reservations; absent when there is none. */
    var entry: Option<nat>
    /** How many rows of the catalogue are pending. */
    var pending: nat
    var tasks: Tasks

    function Held(): nat
      reads this
    {
      if entry.Some? then entry.value else 0
    }

    /** Every reservation has its task; claims stay within the cap, up to the submits that cancelled
        tasks left behind; and while the lock is held, the count in hand covers the claims. */
    ghost predicate Valid()
      reads this
    {
      && (entry.Some? ==> entry.value > 0)
      && Held() == tasks.reserved + tasks.queued + tasks.releasing
      && tasks.orphans <= tasks.lost
      && Claims(pending, tasks) <= cap + tasks.lost
      && (lock.Counted? && lock.count < cap ==> Claims(pending, tasks) <= lock.count + Held() + tasks.lost)
    }

    constructor (cap: nat)
      ensures Valid() && this.cap == cap && lock == Free && entry == None && pending == 0
              && tasks == Tasks(0, 0, 0, 0, 0)
    {
      this.cap := cap;
      lock, entry, pending, tasks := Free, None, 0, Tasks(0, 0, 0, 0, 0);
    }

    /** A task, of this chat or another, takes the lock. */
    method Enter(mine: bool) returns (ok: bool)
      requires Valid()
      modifies this`lock
      ensures Valid() && ok == old(lock).Free?
      ensures lock == if !ok then old(lock) else if mine then Reading else Elsewhere
    {
      ok := lock.Free?;
      if ok { lock := if mine then Reading else Elsewhere; }
    }

    /** The database is read; the answer travels back while others go on. */
    method Count()
      requires Valid() && lock.Reading?
      modifies this`lock
      ensures Valid() && lock == Counted(Min(pending, cap))
    {
      lock := Counted(Min(pending, cap));
    }

    /** The count arrives: reserve if it leaves room, and let go of the lock. */
    method Admit() returns (ok: bool)
      requires Valid() && lock.Counted?
      modifies this`lock, this`entry, this`tasks
      ensures Valid() && lock == Free && ok == (old(lock).count + old(Held()) < cap)
      ensures ok ==> entry == Some(old(Held()) + 1) && tasks == old(tasks).(reserved := old(tasks).reserved + 1)
      ensures !ok ==> entry == old(entry) && tasks == old(tasks)
    {
      var mine := Held();
      ok := lock.count + mine < cap;
      if ok { entry, tasks := Some(mine + 1), tasks.(reserved := tasks.reserved + 1); }
      lock := Free;
    }

    /** The holder is done elsewhere, is cancelled, or its count fails: nothing was reserved. */
    method LetGo()
      requires Valid() && !lock.Free?
      modifies this`lock
      ensures Valid() && lock == Free
    {
      lock := Free;
    }

    /** A task hands its submit to the writer. */
    method Queue()
      requires Valid() && tasks.reserved > 0
      modifies this`tasks
      ensures Valid() && tasks == old(tasks).(reserved := old(tasks).reserved - 1, queued := old(tasks).queued + 1)
    {
      tasks := tasks.(reserved := tasks.reserved - 1, queued := tasks.queued + 1);
    }

    /** A task ends before it submits: no source, a failure, a timeout, a cancellation. */
    method Abort()
      requires Valid() && tasks.reserved > 0
      modifies this`tasks
      ensures Valid()
              && tasks == old(tasks).(reserved := old(tasks).reserved - 1, releasing := old(tasks).releasing + 1)
    {
      tasks := tasks.(reserved := tasks.reserved - 1, releasing := tasks.releasing + 1);
    }

    /** A task is cancelled while its submit is queued. */
    method CancelQueued()
      requires Valid() && tasks.queued > 0
      modifies this`tasks
      ensures Valid()
      ensures var t := old(tasks); tasks == Tasks(t.reserved, t.queued - 1, t.releasing + 1, t.orphans + 1, t.lost + 1)
    {
      tasks := Tasks(tasks.reserved, tasks.queued - 1, tasks.releasing + 1, tasks.orphans + 1, tasks.lost + 1);
    }

    /** The writer runs a submit, of a task or of one that is gone: a new row, or none for a duplicate
        or a refusal. */
    method Submit(novel: bool, orphan: bool)
      requires Valid() && (if orphan then tasks.orphans > 0 else tasks.queued > 0)
      modifies this`pending, this`tasks
      ensures Valid() && pending == if novel then old(pending) + 1 else old(pending)
      ensures var t := old(tasks);
              tasks == if orphan then t.(orphans := t.orphans - 1)
                       else t.(queued := t.queued - 1, releasing := t.releasing + 1)
    {
      if novel { pending := pending + 1; }
      tasks := if orphan then tasks.(orphans := tasks.orphans - 1)
               else tasks.(queued := tasks.queued - 1, releasing := tasks.releasing + 1);
    }

    /** A pending row is approved, rejected or revoked. */
    method Settle()
      requires Valid() && pending > 0
      modifies this`pending
      ensures Valid() && pending == old(pending) - 1
    {
      pending := pending - 1;
    }

    /** The shielded clean-up of a task: it needs the lock, and gives back exactly one reservation. */
    method Release()
      requires Valid() && lock.Free? && tasks.releasing > 0
      modifies this`entry, this`tasks
      ensures Valid() && Held() == old(Held()) - 1 && (entry.None? <==> old(Held()) == 1)
      ensures tasks == old(tasks).(releasing := old(tasks).releasing - 1)
    {
      var mine := Held();
      entry := if mine <= 1 then None else Some(mine - 1);
      tasks := tasks.(releasing := tasks.releasing - 1);
    }

    /** Stale reads cannot overfill the catalogue: over every interleaving of harvest tasks, whatever
        fails, times out or is cancelled, pending candidates plus reservations not yet submitted
        exceed the cap by at most the number of tasks cancelled with a queued submit; without such a
        cancellation they never exceed it. No reservation is left exactly when no task holds one. */
    method Drive(schedule: seq<Stretch>)
      requires Valid()
      modifies this
      ensures Valid()
      ensures pending + tasks.reserved + tasks.queued + tasks.orphans <= cap + tasks.lost
      ensures tasks.lost == 0 ==> pending + tasks.reserved + tasks.queued <= cap
      ensures entry.None? <==> tasks.reserved + tasks.queued + tasks.releasing == 0
    {
      for k := 0 to |schedule|
        invariant Valid()
      {
        match schedule[k] {
          case ToEnter(mine) => var ok := Enter(mine);
          case ToCount => if lock.Reading? { Count(); }
          case ToAdmit => if lock.Counted? { var ok := Admit(); }
          case ToLetGo => if !lock.Free? { LetGo(); }
          case ToQueue => if tasks.reserved > 0 { Queue(); }
          case ToAbort => if tasks.reserved > 0 { Abort(); }
          case ToCancel => if tasks.queued > 0 { CancelQueued(); }
          case ToSubmit(novel, orphan) =>
            if (if orphan then tasks.orphans > 0 else tasks.queued > 0) { Submit(novel, orphan); }
          case ToSettle => if pending > 0 { Settle(); }
          case ToRelease => if lock.Free? && tasks.releasing > 0 { Release(); }
        }
      }
    }

    /** One task reserves from the free lock, with nobody in between. */
    method ReserveOnce() returns (ok: bool)
      requires Valid() && lock.Free?
      modifies this`lock, this`entry, this`tasks
      ensures Valid() && lock.Free? && ok == (Min(pending, cap) + old(Held()) < cap)
      ensures ok ==> tasks == old(tasks).(reserved := old(tasks).reserved + 1)
    {
      var entered := Enter(true);
      Count();
      ok := Admit();
    }
  }

  datatype Stretch =
    | ToEnter(mine: bool) | ToCount | ToAdmit | ToLetGo
    | ToQueue | ToAbort | ToCancel | ToSubmit(novel: bool, orphan: bool)
    | ToSettle | ToRelease

  /** The excess is real and its bound is met: for every cap and every number `d` of cancellations
      there is a run that leaves `cap + d` pending candidates. */
  method Overfill(cap: nat, d: nat) returns (h: Harvester)
    requires cap > 0
    ensures fresh(h) && h.Valid() && h.cap == cap && h.tasks.lost == d && h.pending == cap + d
  {
    h := new Harvester(cap);
    for k := 0 to d
      invariant fresh(h) && h.Valid() && h.cap == cap && h.lock.Free? && h.pending == 0
              && h.tasks == Tasks(0, 0, 0, k, k)
    {
      var ok := h.ReserveOnce();
      h.Queue();
      h.CancelQueued();
      h.Release();
    }
    for k := 0 to cap
      invariant fresh(h) && h.Valid() && h.cap == cap && h.lock.Free? && h.pending == k
              && h.tasks == Tasks(0, 0, 0, d, d)
    {
      var ok := h.ReserveOnce();
      h.Queue();
      h.Submit(true, false);
      h.Release();
    }
    for k := 0 to d
      invariant fresh(h) && h.Valid() && h.cap == cap && h.pending == cap + k && h.tasks == Tasks(0, 0, 0, d - k, d)
    {
      h.Submit(true, true);
    }
  }
}
