/**
 Nothing recorded is lost: over every history of atomic appends, what a reader sees after a startup export
 holds every commit, every settlement and every newest event of the history, as it was recorded.
*/
module ExportRuns {
  import opened Prelude
  import opened Corpus
  import opened Export
  import opened ExportLaws
  import opened CorpusLaws

  lemma {:induction false} RunSnoc(w: World, a: seq<Step>, s: Step)
    ensures Run(w, a + [s]) == Next(Run(w, a), s)
  {
    var all := a + [s];
    assert all[..|all| - 1] == a && all[|all| - 1] == s;
  }

  lemma {:induction false} RunJoins(w: World, a: seq<Step>, b: seq<Step>)
    ensures Run(w, a + b) == Run(Run(w, a), b)
  {
    if b == [] {
      assert a + b == a;
    } else {
      var init, last := b[..|b| - 1], b[|b| - 1];
      RunJoins(w, a, init);
      RunSnoc(w, a + init, last);
      assert a + b == (a + init) + [last];
    }
  }

  lemma {:induction false} RunOne(w: World, s: Step)
    ensures Run(w, [s]) == Next(w, s)
  {
    assert [s][..0] == [];
  }

  /* ---- The ledger -------------------------------------------------------------------- */

  /** The row is settled and says this. */
  ghost predicate Says(rows: seq<Row>, i: nat, m: Marker) { i < |rows| && rows[i].settled && rows[i].marker == m }

  lemma {:induction false} StillSays(w: World, s: Step, kind: Kind, i: nat, m: Marker)
    requires Says(Rows(w, kind), i, m)
    ensures Says(Rows(Next(w, s), kind), i, m)
  {
  }

  lemma {:induction false} AlwaysSays(w: World, steps: seq<Step>, kind: Kind, i: nat, m: Marker)
    requires Says(Rows(w, kind), i, m)
    ensures Says(Rows(Run(w, steps), kind), i, m)
  {
    if steps != [] {
      AlwaysSays(w, steps[..|steps| - 1], kind, i, m);
      StillSays(Run(w, steps[..|steps| - 1]), steps[|steps| - 1], kind, i, m);
    }
  }

  /** What a reader sees of one kind. */
  function Seen(v: View, kind: Kind): seq<Marker> { if kind == CommitMark then v.commits else v.dispatches }

  lemma {:induction false} SaidIsSeen(steps: seq<Step>, kind: Kind, i: nat, m: Marker)
    requires Says(Rows(Run(START, steps), kind), i, m) && m.sequence == i
    ensures var r := ViewOf(Text(Exported(Run(START, steps)).file)); r.Ok? && m in Seen(r.value, kind)
  {
    var w := Run(START, steps);
    ExportIsExactlyOnce(steps);
    AllMarkedSays(Rows(w, kind), i, m);
    SettledFacts(Rows(Exported(w), kind), kind);
  }

  lemma {:induction false} AllMarkedSays(rows: seq<Row>, i: nat, m: Marker)
    requires Says(rows, i, m)
    ensures Says(AllMarked(rows), i, m)
  {
  }

  /** Every commit is read back, with its chat and payload, whatever happens before and after. */
  lemma {:induction false} CommitIsRead(
    before: seq<Step>, chat: string, payload: string, after: seq<Step>, steps: seq<Step>)
    requires steps == before + [NewCommit(chat, payload)] + after
    ensures var r := ViewOf(Text(Exported(Run(START, steps)).file));
            r.Ok? && Marker(CommitMark, |Run(START, before).commits|, chat, false, payload) in r.value.commits
  {
    var w, s := Run(START, before), NewCommit(chat, payload);
    var i := |w.commits|;
    RunJoins(START, before + [s], after);
    RunJoins(START, before, [s]);
    RunOne(w, s);
    AlwaysSays(Next(w, s), after, CommitMark, i, Marker(CommitMark, i, chat, false, payload));
    SaidIsSeen(steps, CommitMark, i, Marker(CommitMark, i, chat, false, payload));
  }

  /** The first settlement of a dispatch is read back as a replayable dispatch of its chat; later ones change
      nothing. */
  lemma {:induction false} SettlementIsRead(
    before: seq<Step>, i: nat, payload: string, after: seq<Step>, steps: seq<Step>)
    requires i < |Run(START, before).dispatches| && !Run(START, before).dispatches[i].settled
    requires steps == before + [Settle(i, payload)] + after
    ensures var r := ViewOf(Text(Exported(Run(START, steps)).file));
            r.Ok? && Marker(DispatchMark, i, Run(START, before).dispatches[i].marker.chat, true, payload)
                     in r.value.dispatches
  {
    var w, s := Run(START, before), Settle(i, payload);
    var m := Marker(DispatchMark, i, w.dispatches[i].marker.chat, true, payload);
    RunIsSound(before);
    RunJoins(START, before + [s], after);
    RunJoins(START, before, [s]);
    RunOne(w, s);
    assert Says(Rows(Next(w, s), DispatchMark), i, m);
    AlwaysSays(Next(w, s), after, DispatchMark, i, m);
    SaidIsSeen(steps, DispatchMark, i, m);
  }

  /** A dispatch keeps its chat. */
  lemma {:induction false} DispatchKeepsChat(before: seq<Step>, chat: string, after: seq<Step>, steps: seq<Step>)
    requires steps == before + [NewDispatch(chat)] + after
    ensures var i, w := |Run(START, before).dispatches|, Run(START, steps);
            i < |w.dispatches| && w.dispatches[i].marker.chat == chat
  {
    var w, s := Run(START, before), NewDispatch(chat);
    RunJoins(START, before + [s], after);
    RunJoins(START, before, [s]);
    RunOne(w, s);
    ChatStays(Next(w, s), after, |w.dispatches|);
  }

  lemma {:induction false} ChatStays(w: World, steps: seq<Step>, i: nat)
    requires i < |w.dispatches|
    ensures i < |Run(w, steps).dispatches|
            && Run(w, steps).dispatches[i].marker.chat == w.dispatches[i].marker.chat
  {
    if steps != [] {
      ChatStays(w, steps[..|steps| - 1], i);
      OneChatStays(Run(w, steps[..|steps| - 1]), steps[|steps| - 1], i);
    }
  }

  lemma {:induction false} OneChatStays(w: World, s: Step, i: nat)
    requires i < |w.dispatches|
    ensures i < |Next(w, s).dispatches| && Next(w, s).dispatches[i].marker.chat == w.dispatches[i].marker.chat
  {
  }

  /* ---- The events -------------------------------------------------------------------- */

  /** The newest event of this id is this one. */
  ghost predicate Holds(f: File, id: string, event: string) {
    f.tail.None? && exists i: nat :: NewestAt(f.lines, i, id) && f.lines[i].event == event
  }

  lemma {:induction false} HoldsOn(f: File, l: Line, id: string, event: string)
    requires Holds(f, id, event) && !EventOf(l, id)
    ensures Holds(Put(f, l), id, event)
  {
    var i: nat :| NewestAt(f.lines, i, id) && f.lines[i].event == event;
    EventsSnoc(f.lines, l, i, id);
  }

  lemma {:induction false} HoldsNow(f: File, id: string, event: string)
    requires f.tail.None?
    ensures Holds(Put(f, EventLine(Some(id), event)), id, event)
  {
    EventsSnoc(f.lines, EventLine(Some(id), event), |f.lines|, id);
  }

  lemma {:induction false} HoldsAll(f: File, ms: seq<Marker>, id: string, event: string)
    requires Holds(f, id, event)
    ensures Holds(PutAll(f, ms), id, event)
  {
    if ms != [] {
      HoldsAll(f, ms[..|ms| - 1], id, event);
      HoldsOn(PutAll(f, ms[..|ms| - 1]), MarkerLine(ms[|ms| - 1]), id, event);
    }
  }

  ghost predicate Records(s: Step, id: string) { s.RecordEvent? && s.id == Some(id) }

  lemma {:induction false} HoldsNext(w: World, s: Step, id: string, event: string)
    requires Holds(w.file, id, event) && !Records(s, id)
    ensures Holds(Next(w, s).file, id, event)
  {
    match s
    case RecordEvent(other, e) => HoldsOn(w.file, EventLine(other, e), id, event);
    case Append(kind, i) =>
      if i < |Rows(w, kind)| { HoldsOn(w.file, MarkerLine(Rows(w, kind)[i].marker), id, event); }
    case ExportAll => HoldsAll(w.file, ToExport(w), id, event);
    case CleanClose => HoldsOn(w.file, ManifestLine(ManifestOf(Markers(Text(w.file)))), id, event);
    case _ =>
  }

  lemma {:induction false} HoldsThrough(w: World, steps: seq<Step>, id: string, event: string)
    requires Holds(w.file, id, event) && forall k :: 0 <= k < |steps| ==> !Records(steps[k], id)
    ensures Holds(Run(w, steps).file, id, event)
  {
    if steps != [] {
      HoldsThrough(w, steps[..|steps| - 1], id, event);
      HoldsNext(Run(w, steps[..|steps| - 1]), steps[|steps| - 1], id, event);
    }
  }

  /** Every event that a live process records is read back, unless a later one has its id. */
  lemma {:induction false} EventIsRead(
    before: seq<Step>, id: string, event: string, after: seq<Step>, steps: seq<Step>)
    requires Run(START, before).up && steps == before + [RecordEvent(Some(id), event)] + after
    requires forall k :: 0 <= k < |after| ==> !Records(after[k], id)
    ensures var r := ViewOf(Text(Exported(Run(START, steps)).file));
            r.Ok? && id in r.value.events && r.value.events[id] == event
  {
    var w, s := Run(START, before), RecordEvent(Some(id), event);
    RunIsSound(before);
    RunJoins(START, before + [s], after);
    RunJoins(START, before, [s]);
    RunOne(w, s);
    HoldsNow(w.file, id, event);
    HoldsThrough(Next(w, s), after, id, event);
    HoldsAll(Run(START, steps).file, ToExport(Run(START, steps)), id, event);
    ExportIsExactlyOnce(steps);
    ShownEvent(Exported(Run(START, steps)).file, id, event);
  }

  lemma {:induction false} ShownEvent(f: File, id: string, event: string)
    requires Holds(f, id, event) && ViewOf(Text(f)).Ok?
    ensures id in ViewOf(Text(f)).value.events && ViewOf(Text(f)).value.events[id] == event
  {
    EventsShow(f.lines);
  }
}
