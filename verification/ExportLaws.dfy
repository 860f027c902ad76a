/**
 Export is exactly-once in effect: what a reader sees after a startup export is the durable ledger,
 and when a torn last line spoils that.
*/
module ExportLaws {
  import opened Prelude
  import opened Corpus
  import opened Export

  /** The durable ledger, the file, and what the live process has appended and not yet marked. */
  datatype World = World(file: File, commits: seq<Row>, dispatches: seq<Row>, appended: set<(Kind, nat)>, up: bool)

  const START := World(File([], None), [], [], {}, true)

  datatype Step =
    | NewCommit(chat: string, payload: string)
    | NewDispatch(chat: string)
    | Settle(i: nat, payload: string)
    | RecordEvent(id: Option<string>, event: string)
    | Append(kind: Kind, i: nat)
    | MarkExported(kind: Kind, i: nat)
    | ExportAll
    | CleanClose
    | Crash
    | Restart

  function Rows(w: World, kind: Kind): seq<Row> { if kind == CommitMark then w.commits else w.dispatches }

  function WithRows(w: World, kind: Kind, rows: seq<Row>): World {
    if kind == CommitMark then w.(commits := rows) else w.(dispatches := rows)
  }

  function ToExport(w: World): seq<Marker> { Unexported(w.commits) + Unexported(w.dispatches) }

  function Exported(w: World): World {
    w.(file := PutAll(w.file, ToExport(w)), commits := AllMarked(w.commits), dispatches := AllMarked(w.dispatches))
  }

  function Next(w: World, s: Step): World {
    match s
    case NewCommit(chat, payload) =>
      w.(commits := w.commits + [Row(Marker(CommitMark, |w.commits|, chat, false, payload), true, false)])
    case NewDispatch(chat) =>
      w.(dispatches := w.dispatches + [Row(Marker(DispatchMark, |w.dispatches|, chat, false, ""), false, false)])
    case Settle(i, payload) =>
      if i < |w.dispatches| && !w.dispatches[i].settled then
        var m := w.dispatches[i].marker;
        w.(dispatches := w.dispatches[i := Row(m.(replayable := true, payload := payload), true, false)])
      else w
    case RecordEvent(id, event) => if w.up then w.(file := Put(w.file, EventLine(id, event))) else w
    case Append(kind, i) =>
      if w.up && i < |Rows(w, kind)| && Rows(w, kind)[i].settled then
        w.(file := Put(w.file, MarkerLine(Rows(w, kind)[i].marker)), appended := w.appended + {(kind, i)})
      else w
    case MarkExported(kind, i) =>
      if w.up && (kind, i) in w.appended then WithRows(w, kind, MarkRow(Rows(w, kind), i)) else w
    case ExportAll => if w.up then Exported(w) else w
    case CleanClose => if w.up then w.(file := Closed(w.file), up := false, appended := {}) else w
    case Crash => w.(up := false, appended := {})
    case Restart => w.(up := true, appended := {})
  }

  function Run(w: World, steps: seq<Step>): World {
    if steps == [] then w else Next(Run(w, steps[..|steps| - 1]), steps[|steps| - 1])
  }

  /* ---- Sorted markers ------------------------------------------------------------------- */

  ghost predicate Ascending(ms: seq<Marker>) {
    forall i, j :: 0 <= i < j < |ms| ==> ms[i].sequence < ms[j].sequence
  }

  ghost predicate DistinctIn(ms: seq<Marker>, m: Marker) {
    forall i :: 0 <= i < |ms| ==> ms[i].sequence != m.sequence
  }

  lemma {:induction false} InsertFacts(ms: seq<Marker>, m: Marker)
    ensures forall x :: x in Insert(ms, m) <==> x in ms || x == m
    ensures Ascending(ms) && DistinctIn(ms, m) ==> Ascending(Insert(ms, m))
  {
    if ms != [] && ms[|ms| - 1].sequence > m.sequence {
      var init, last := ms[..|ms| - 1], ms[|ms| - 1];
      InsertFacts(init, m);
      assert ms == init + [last];
      if Ascending(ms) && DistinctIn(ms, m) {
        assert forall x :: x in Insert(init, m) ==> x.sequence < last.sequence;
      }
    }
  }

  ghost predicate Distinct(ms: seq<Marker>) {
    forall i, j :: 0 <= i < j < |ms| ==> ms[i].sequence != ms[j].sequence
  }

  lemma {:induction false} SortedFacts(ms: seq<Marker>)
    ensures forall x :: x in Sorted(ms) <==> x in ms
    ensures Distinct(ms) ==> Ascending(Sorted(ms))
  {
    if ms != [] {
      var init, last := ms[..|ms| - 1], ms[|ms| - 1];
      SortedFacts(init);
      InsertFacts(Sorted(init), last);
      assert ms == init + [last];
      if Distinct(ms) {
        assert Distinct(init);
        forall i | 0 <= i < |Sorted(init)| ensures Sorted(init)[i].sequence != last.sequence {
          assert Sorted(init)[i] in init;
        }
      }
    }
  }

  ghost predicate SameMembers(a: seq<Marker>, b: seq<Marker>) { forall m :: m in a <==> m in b }

  lemma {:induction false} SameLast(a: seq<Marker>, b: seq<Marker>)
    requires Ascending(a) && Ascending(b) && SameMembers(a, b) && a != [] && b != []
    ensures a[|a| - 1] == b[|b| - 1]
    ensures SameMembers(a[..|a| - 1], b[..|b| - 1])
  {
    LastDrops(a);
    LastDrops(b);
    assert a[|a| - 1] in b && b[|b| - 1] in a;
  }

  /** Two ascending lists with the same members are the same list. */
  lemma {:induction false} AscendingUnique(a: seq<Marker>, b: seq<Marker>)
    requires Ascending(a) && Ascending(b) && SameMembers(a, b)
    ensures a == b
  {
    if a != [] { assert a[0] in b; }
    if b != [] { assert b[0] in a; }
    if a != [] && b != [] {
      SameLast(a, b);
      LastDrops(a);
      LastDrops(b);
      AscendingUnique(a[..|a| - 1], b[..|b| - 1]);
      assert a == a[..|a| - 1] + [a[|a| - 1]] && b == b[..|b| - 1] + [b[|b| - 1]];
    }
  }

  lemma {:induction false} LastDrops(a: seq<Marker>)
    requires Ascending(a) && a != []
    ensures Ascending(a[..|a| - 1])
    ensures forall m :: m in a[..|a| - 1] <==> m in a && m.sequence != a[|a| - 1].sequence
    ensures forall m :: m in a ==> m.sequence < a[|a| - 1].sequence || m == a[|a| - 1]
  {
    assert a == a[..|a| - 1] + [a[|a| - 1]];
  }

  lemma {:induction false} SettledMembers(rows: seq<Row>, kind: Kind)
    requires Numbered(rows, kind)
    ensures forall m :: m in Settled(rows) <==>
              m.sequence < |rows| && rows[m.sequence].settled && rows[m.sequence].marker == m
  {
    if rows != [] {
      var init, last := rows[..|rows| - 1], rows[|rows| - 1];
      SettledMembers(init, kind);
      assert forall i :: 0 <= i < |init| ==> init[i] == rows[i];
      assert forall m :: m in Settled(rows) <==> m in Settled(init) || (last.settled && m == last.marker);
    }
  }

  lemma {:induction false} SettledFacts(rows: seq<Row>, kind: Kind)
    requires Numbered(rows, kind)
    ensures Ascending(Settled(rows))
    ensures forall m :: m in Settled(rows) <==>
              m.sequence < |rows| && rows[m.sequence].settled && rows[m.sequence].marker == m
  {
    SettledMembers(rows, kind);
    if rows != [] {
      var init := rows[..|rows| - 1];
      SettledFacts(init, kind);
      assert forall i :: 0 <= i < |Settled(init)| ==> Settled(init)[i] in Settled(init);
    }
  }

  /* ---- What the reader finds --------------------------------------------------------------- */

  lemma {:induction false} MarkersFacts(lines: seq<Line>)
    ensures forall m :: m in Markers(lines) ==> MarkerLine(m) in lines
    ensures forall m :: MarkerLine(m) in lines ==> HasKey(Markers(lines), m)
    ensures forall i, j :: 0 <= i < j < |Markers(lines)| ==>
              !(Markers(lines)[i].kind == Markers(lines)[j].kind
                  && Markers(lines)[i].sequence == Markers(lines)[j].sequence)
  {
    if lines != [] {
      var init, l, ms := lines[..|lines| - 1], lines[|lines| - 1], Markers(lines);
      MarkersFacts(init);
      assert lines == init + [l];
      forall m | MarkerLine(m) in lines ensures HasKey(ms, m) {
        if MarkerLine(m) in init {
          var i :| 0 <= i < |Markers(init)| && Markers(init)[i].kind == m.kind
              && Markers(init)[i].sequence == m.sequence;
          assert ms[i] == Markers(init)[i];
        } else if !HasKey(Markers(init), m) {
          assert ms[|ms| - 1] == m;
        }
      }
    }
  }

  lemma {:induction false} OfFacts(ms: seq<Marker>, kind: Kind)
    requires forall i, j :: 0 <= i < j < |ms| ==> !(ms[i].kind == ms[j].kind && ms[i].sequence == ms[j].sequence)
    ensures forall m :: m in Of(ms, kind) <==> m in ms && m.kind == kind
    ensures Distinct(Of(ms, kind))
  {
    if ms != [] {
      var init, last := ms[..|ms| - 1], ms[|ms| - 1];
      OfFacts(init, kind);
      assert ms == init + [last];
      forall i | 0 <= i < |Of(init, kind)| && last.kind == kind ensures Of(init, kind)[i].sequence != last.sequence {
        assert Of(init, kind)[i] in init;
      }
    }
  }

  predicate Known(w: World, m: Marker) {
    m.sequence < |Rows(w, m.kind)| && Rows(w, m.kind)[m.sequence].settled && Rows(w, m.kind)[m.sequence].marker == m
  }

  predicate AnyMalformed(lines: seq<Line>) { exists i :: 0 <= i < |lines| && Malformed(lines[i]) }

  lemma {:induction false} DamageIs(lines: seq<Line>)
    ensures AnyDamaged(lines) <==> AnyMalformed(lines) || Undecodable in lines
  {
    if Undecodable in lines {
      var i :| 0 <= i < |lines| && lines[i] == Undecodable;
      assert Damaged(lines[i]);
    }
    if AnyMalformed(lines) {
      var i :| 0 <= i < |lines| && Malformed(lines[i]);
      assert Damaged(lines[i]);
    }
  }

  lemma {:induction false} MalformedMore(lines: seq<Line>, l: Line)
    ensures AnyMalformed(lines + [l]) <==> AnyMalformed(lines) || Malformed(l)
  {
    var more := lines + [l];
    assert more[|lines|] == l && forall i :: 0 <= i < |lines| ==> more[i] == lines[i];
  }

  /** The file holds no malformed record, and only markers of settled rows, as the ledger has them. */
  ghost predicate Honest(w: World) {
    && Numbered(w.commits, CommitMark) && Numbered(w.dispatches, DispatchMark)
    && !AnyMalformed(Text(w.file))
    && forall m :: MarkerLine(m) in Text(w.file) ==> Known(w, m)
  }

  /** The reader's commits and dispatches are precisely the durable settled ones, in order. */
  ghost predicate Complete(w: World) {
    var r := ViewOf(Text(w.file));
    r.Ok? && r.value.commits == Settled(w.commits) && r.value.dispatches == Settled(w.dispatches)
  }

  ghost predicate AllWritten(w: World, kind: Kind) {
    forall m :: m in Settled(Rows(w, kind)) ==> MarkerLine(m) in Text(w.file)
  }

  lemma {:induction false} KindCompleteIff(w: World, kind: Kind)
    requires Honest(w)
    ensures Sorted(Of(Markers(Text(w.file)), kind)) == Settled(Rows(w, kind)) <==> AllWritten(w, kind)
  {
    var ms := Markers(Text(w.file));
    var mine, all := Of(ms, kind), Settled(Rows(w, kind));
    MarkersFacts(Text(w.file));
    OfFacts(ms, kind);
    SortedFacts(mine);
    SettledFacts(Rows(w, kind), kind);
    forall m | m in mine ensures m in all { assert Known(w, m); }
    if AllWritten(w, kind) {
      forall m | m in all ensures m in mine {
        assert HasKey(ms, m);
        var i :| 0 <= i < |ms| && ms[i].kind == m.kind && ms[i].sequence == m.sequence;
        assert ms[i] in ms && Known(w, ms[i]);
      }
      AscendingUnique(Sorted(mine), all);
    }
    if Sorted(mine) == all {
      forall m | m in all ensures MarkerLine(m) in Text(w.file) { assert m in mine; }
    }
  }

  lemma {:induction false} CompleteIff(w: World)
    requires Honest(w)
    ensures Complete(w) <==>
              Undecodable !in Text(w.file) && AllWritten(w, CommitMark) && AllWritten(w, DispatchMark)
  {
    DamageIs(Text(w.file));
    KindCompleteIff(w, CommitMark);
    KindCompleteIff(w, DispatchMark);
  }

  /* ---- The startup export ------------------------------------------------------------------- */

  ghost predicate OnLine(r: Row, lines: seq<Line>) { r.settled && MarkerLine(r.marker) in lines }

  ghost predicate ExportedOnLines(rows: seq<Row>, lines: seq<Line>) {
    forall i :: 0 <= i < |rows| && rows[i].exported ==> OnLine(rows[i], lines)
  }

  ghost predicate AppendedOnLines(rows: seq<Row>, kind: Kind, appended: set<(Kind, nat)>, lines: seq<Line>) {
    forall i: nat :: (kind, i) in appended ==> i < |rows| && OnLine(rows[i], lines)
  }

  /** Everything marked exported, or about to be, stands on a terminated line. */
  ghost predicate Backed(w: World, kind: Kind) {
    ExportedOnLines(Rows(w, kind), w.file.lines) && AppendedOnLines(Rows(w, kind), kind, w.appended, w.file.lines)
  }

  ghost predicate Faithful(w: World) { Honest(w) && Backed(w, CommitMark) && Backed(w, DispatchMark) }

  function LinesOf(ms: seq<Marker>): seq<Line> {
    seq(|ms|, i requires 0 <= i < |ms| => MarkerLine(ms[i]))
  }

  lemma {:induction false} PutAllLines(f: File, ms: seq<Marker>)
    ensures f.tail.None? || ms == [] ==> PutAll(f, ms) == File(f.lines + LinesOf(ms), f.tail)
    ensures f.tail.Some? && ms != [] ==>
              PutAll(f, ms) == File(f.lines + [Merged(f.tail.value)] + LinesOf(ms[1..]), None)
  {
    if ms == [] {
      assert f.lines + LinesOf(ms) == f.lines;
    } else {
      var init, last := ms[..|ms| - 1], ms[|ms| - 1];
      PutAllLines(f, init);
      assert LinesOf(ms) == LinesOf(init) + [MarkerLine(last)];
      if init != [] {
        assert init[1..] == ms[1..][..|ms| - 2] && LinesOf(ms[1..]) == LinesOf(init[1..]) + [MarkerLine(last)];
      } else {
        assert LinesOf(ms[1..]) == [] && LinesOf(init) == [];
        if f.tail.Some? { assert f.lines + [Merged(f.tail.value)] + [] == f.lines + [Merged(f.tail.value)]; }
      }
    }
  }

  lemma {:induction false} UnexportedAscends(rows: seq<Row>, kind: Kind)
    requires Numbered(rows, kind)
    ensures Ascending(Unexported(rows))
  {
    if rows != [] {
      var init := rows[..|rows| - 1];
      UnexportedAscends(init, kind);
      UnexportedMembers(init, kind);
      assert forall i :: 0 <= i < |Unexported(init)| ==> Unexported(init)[i] in Unexported(init);
    }
  }

  lemma {:induction false} ToExportFacts(w: World)
    requires Numbered(w.commits, CommitMark) && Numbered(w.dispatches, DispatchMark)
    ensures forall m :: m in ToExport(w) <==> Known(w, m) && !Rows(w, m.kind)[m.sequence].exported
    ensures ToExport(w) != [] ==> ToExport(w)[0] !in ToExport(w)[1..]
  {
    var a, b, u := Unexported(w.commits), Unexported(w.dispatches), ToExport(w);
    UnexportedMembers(w.commits, CommitMark);
    UnexportedMembers(w.dispatches, DispatchMark);
    UnexportedAscends(w.commits, CommitMark);
    UnexportedAscends(w.dispatches, DispatchMark);
    forall m ensures m in u <==> Known(w, m) && !Rows(w, m.kind)[m.sequence].exported {
      assert m in u <==> m in a || m in b;
    }
    if u != [] {
      forall i | 1 <= i < |u| ensures u[i] != u[0] {
        assert u[0] in u && u[i] in u;
        if i < |a| { assert a[0].sequence < a[i].sequence; }
        else if a == [] { assert b[0].sequence < b[i].sequence; }
        else { assert a[0] in a && b[i - |a|] in b; }
      }
    }
  }

  lemma {:induction false} MarkedRows(w: World, kind: Kind)
    requires Honest(w)
    ensures Numbered(AllMarked(Rows(w, kind)), kind)
    ensures forall m :: m in Settled(AllMarked(Rows(w, kind))) <==> m.kind == kind && Known(w, m)
  {
    var rows := Rows(w, kind);
    SettledFacts(AllMarked(rows), kind);
  }

  /** The text after the export: what was there, and the unexported markers, except that a torn
      last line swallows the first of them. */
  lemma {:induction false} ExportedText(w: World, m: Marker)
    requires Honest(w)
    ensures var u := ToExport(w);
            MarkerLine(m) in Text(Exported(w).file) <==>
              MarkerLine(m) in w.file.lines
              || (if u == [] then w.file.tail == Some(MarkerLine(m)) else m in u && (w.file.tail.None? || m != u[0]))
  {
    var u := ToExport(w);
    PutAllLines(w.file, u);
    ToExportFacts(w);
    assert MarkerLine(m) in LinesOf(u) <==> m in u by {
      if m in u { var i :| 0 <= i < |u| && u[i] == m; assert LinesOf(u)[i] == MarkerLine(m); }
    }
    if u != [] {
      assert u == [u[0]] + u[1..];
      assert MarkerLine(m) in LinesOf(u[1..]) <==> m in u[1..] by {
        if m in u[1..] { var i :| 0 <= i < |u[1..]| && u[1..][i] == m; assert LinesOf(u[1..])[i] == MarkerLine(m); }
      }
    }
  }

  lemma {:induction false} ExportIsHonest(w: World)
    requires Honest(w)
    ensures Honest(Exported(w))
  {
    var x, u := Exported(w), ToExport(w);
    MarkedRows(w, CommitMark);
    MarkedRows(w, DispatchMark);
    PutAllLines(w.file, u);
    ToExportFacts(w);
    forall m | MarkerLine(m) in Text(x.file) ensures Known(x, m) {
      ExportedText(w, m);
      assert Known(w, m);
    }
    forall i | 0 <= i < |Text(x.file)| ensures !Malformed(Text(x.file)[i]) {
      if i < |w.file.lines| { assert Text(x.file)[i] == Text(w.file)[i]; }
      else if u == [] { assert Text(x.file)[i] == Text(w.file)[i]; }
    }
  }

  lemma {:induction false} UndecodableStays(w: World)
    requires Honest(w)
    ensures Undecodable in Text(Exported(w).file) <==> Undecodable in Text(w.file)
  {
    PutAllLines(w.file, ToExport(w));
  }

  /** After a startup export the reader's dispatches and commits are precisely the durable settled
      ones, without duplicates and sorted, exactly when the file decodes and no unterminated line
      swallowed a marker: the file ended cleanly, or nothing was left to export, or the first marker to
      export is already on a line of its own. */
  lemma {:induction false} ExportCompletesIff(w: World)
    requires Faithful(w)
    ensures Complete(Exported(w)) <==>
              && Undecodable !in Text(w.file)
              && (w.file.tail.None? || ToExport(w) == [] || MarkerLine(ToExport(w)[0]) in w.file.lines)
  {
    var x, u := Exported(w), ToExport(w);
    ExportIsHonest(w);
    CompleteIff(x);
    UndecodableStays(w);
    ToExportFacts(w);
    if w.file.tail.None? || u == [] || MarkerLine(u[0]) in w.file.lines {
      ExportWrites(w, CommitMark);
      ExportWrites(w, DispatchMark);
    } else {
      assert u[0] in u;
      MarkedRows(w, u[0].kind);
      ExportedText(w, u[0]);
      assert !AllWritten(x, u[0].kind);
    }
  }

  lemma {:induction false} ExportWrites(w: World, kind: Kind)
    requires Faithful(w)
    requires w.file.tail.None? || ToExport(w) == [] || MarkerLine(ToExport(w)[0]) in w.file.lines
    ensures AllWritten(Exported(w), kind)
  {
    MarkedRows(w, kind);
    ToExportFacts(w);
    forall m | m in Settled(Rows(Exported(w), kind)) ensures MarkerLine(m) in Text(Exported(w).file) {
      ExportedText(w, m);
      assert Known(w, m);
      if Rows(w, kind)[m.sequence].exported { assert OnLine(Rows(w, kind)[m.sequence], w.file.lines); }
    }
  }

  /** A torn write: the process dies while it appends. What it left on the last line reads as nothing, as
      the whole record when only the line end is missing, or does not decode. */
  lemma {:induction false} TearKeepsFaithful(w: World, left: Line)
    requires Faithful(w) && !Malformed(left) && (left.MarkerLine? ==> Known(w, left.marker))
    ensures Faithful(w.(file := Tear(w.file, left), appended := {}))
  {
    var x := w.(file := Tear(w.file, left), appended := {});
    var tail, lines := x.file.tail.value, w.file.lines;
    MalformedMore(lines, tail);
    assert !AnyMalformed(lines) by {
      forall i | 0 <= i < |lines| ensures !Malformed(lines[i]) { assert Text(w.file)[i] == lines[i]; }
    }
    forall m | MarkerLine(m) in Text(x.file) ensures Known(x, m) {
      if MarkerLine(m) in lines { assert MarkerLine(m) in Text(w.file); }
      assert Known(w, m);
    }
    assert Rows(x, CommitMark) == Rows(w, CommitMark) && Rows(x, DispatchMark) == Rows(w, DispatchMark);
  }

  lemma {:induction false} TornIsFaithful(w: World, tail: Line)
    requires w == START.(file := File([], Some(tail))) && (tail == Torn || tail == Undecodable)
    ensures Faithful(w)
  {
    assert Text(w.file) == [tail];
  }

  /** One commit, and a file that holds nothing but the torn start of a line: the export writes its
      marker into that line. */
  lemma {:induction false} SwallowedMarker(chat: string, payload: string, w: World)
    requires w == Next(START.(file := File([], Some(Torn))), NewCommit(chat, payload))
    ensures Faithful(w) && !Complete(Exported(w))
  {
    assert Text(w.file) == [Torn];
    assert w.commits[..0] == [] && Unexported(w.commits[..0]) == [];
    assert ToExport(w) == [w.commits[0].marker];
    ExportCompletesIff(w);
  }

  /** Nothing to export, and a tear inside a character: no reader gets past it. */
  lemma {:induction false} UndecodableExample(w: World)
    requires w == START.(file := File([], Some(Undecodable)))
    ensures Faithful(w) && ToExport(w) == [] && !Complete(Exported(w))
  {
    TornIsFaithful(w, Undecodable);
    ExportCompletesIff(w);
  }

  /* ---- Every history of atomic appends ---------------------------------------------------------- */

  ghost predicate Sound(w: World) { Faithful(w) && w.file.tail.None? && Undecodable !in w.file.lines }

  lemma {:induction false} LinesGrow(
    rows: seq<Row>, kind: Kind, appended: set<(Kind, nat)>, lines: seq<Line>, l: Line, more: set<(Kind, nat)>)
    requires ExportedOnLines(rows, lines) && AppendedOnLines(rows, kind, appended, lines)
    requires forall i: nat :: (kind, i) in more ==>
               (kind, i) in appended || (i < |rows| && rows[i].settled && l == MarkerLine(rows[i].marker))
    ensures ExportedOnLines(rows, lines + [l]) && AppendedOnLines(rows, kind, more, lines + [l])
  {
    forall i | 0 <= i < |rows| && OnLine(rows[i], lines) ensures OnLine(rows[i], lines + [l]) {}
    forall i: nat | (kind, i) in more ensures i < |rows| && OnLine(rows[i], lines + [l]) {}
  }

  lemma {:induction false} PutIsSound(w: World, l: Line, x: World)
    requires Sound(w) && !Damaged(l) && (l.MarkerLine? ==> Known(w, l.marker))
    requires x.file == Put(w.file, l) && x.commits == w.commits && x.dispatches == w.dispatches
    requires forall kind: Kind, i: nat :: (kind, i) in x.appended ==>
               (kind, i) in w.appended
                   || (i < |Rows(w, kind)| && Rows(w, kind)[i].settled && l == MarkerLine(Rows(w, kind)[i].marker))
    ensures Sound(x)
  {
    assert Text(x.file) == Text(w.file) + [l];
    MalformedMore(Text(w.file), l);
    forall m | MarkerLine(m) in Text(x.file) ensures Known(x, m) { assert Known(w, m); }
    LinesGrow(Rows(w, CommitMark), CommitMark, w.appended, w.file.lines, l, x.appended);
    LinesGrow(Rows(w, DispatchMark), DispatchMark, w.appended, w.file.lines, l, x.appended);
  }

  lemma {:induction false} RowsGrow(
    rows: seq<Row>, kind: Kind, appended: set<(Kind, nat)>, lines: seq<Line>, more: seq<Row>)
    requires ExportedOnLines(rows, lines) && AppendedOnLines(rows, kind, appended, lines) && |rows| <= |more|
    requires forall i :: 0 <= i < |rows| ==> more[i] == rows[i] || (!rows[i].settled && !more[i].exported)
    requires forall i :: |rows| <= i < |more| ==> !more[i].exported
    ensures ExportedOnLines(more, lines) && AppendedOnLines(more, kind, appended, lines)
  {
    forall i | 0 <= i < |more| && more[i].exported ensures OnLine(more[i], lines) { assert more[i] == rows[i]; }
    forall i: nat | (kind, i) in appended
      ensures i < |more| && OnLine(more[i], lines)
    {
      assert OnLine(rows[i], lines);
    }
  }

  /** A row that is added, or settled before anything was exported of it, changes no known marker. */
  lemma {:induction false} RowsGrowSound(w: World, kind: Kind, rows: seq<Row>)
    requires Sound(w) && Numbered(rows, kind) && |Rows(w, kind)| <= |rows|
    requires forall i :: 0 <= i < |Rows(w, kind)| ==>
               rows[i] == Rows(w, kind)[i] || (!Rows(w, kind)[i].settled && !rows[i].exported)
    requires forall i :: |Rows(w, kind)| <= i < |rows| ==> !rows[i].exported
    ensures Sound(WithRows(w, kind, rows))
  {
    var x := WithRows(w, kind, rows);
    forall m | MarkerLine(m) in Text(x.file) ensures Known(x, m) { assert Known(w, m); }
    RowsGrow(Rows(w, kind), kind, w.appended, w.file.lines, rows);
  }

  lemma {:induction false} MarkIsSound(w: World, kind: Kind, i: nat)
    requires Sound(w) && (kind, i) in w.appended
    ensures Sound(WithRows(w, kind, MarkRow(Rows(w, kind), i)))
  {
    var rows, lines := Rows(w, kind), w.file.lines;
    var more, x := MarkRow(rows, i), WithRows(w, kind, MarkRow(rows, i));
    assert OnLine(rows[i], lines);
    forall m | MarkerLine(m) in Text(x.file) ensures Known(x, m) { assert Known(w, m); }
    forall j | 0 <= j < |more| && more[j].exported ensures OnLine(more[j], lines) { assert OnLine(rows[j], lines); }
    forall j: nat | (kind, j) in w.appended
      ensures j < |more| && OnLine(more[j], lines)
    {
      assert OnLine(rows[j], lines);
    }
  }

  lemma {:induction false} ExportBacks(w: World, kind: Kind)
    requires Sound(w) && Complete(Exported(w))
    ensures Backed(Exported(w), kind)
  {
    var x := Exported(w);
    var rows, lines := Rows(x, kind), x.file.lines;
    PutAllLines(w.file, ToExport(w));
    ExportIsHonest(w);
    CompleteIff(x);
    SettledFacts(rows, kind);
    assert AllWritten(x, kind) && Text(x.file) == lines;
    forall i | 0 <= i < |rows| && rows[i].settled ensures OnLine(rows[i], lines) {
      assert rows[i].marker in Settled(rows);
    }
    ExportMarksSettled(w, kind);
  }

  lemma {:induction false} ExportMarksSettled(w: World, kind: Kind)
    requires Sound(w)
    ensures var rows := Rows(Exported(w), kind);
            && (forall i :: 0 <= i < |rows| && rows[i].exported ==> rows[i].settled)
            && (forall i: nat :: (kind, i) in w.appended ==> i < |rows| && rows[i].settled)
  {
    var was, rows := Rows(w, kind), Rows(Exported(w), kind);
    assert Backed(w, kind) && rows == AllMarked(was);
    forall i | 0 <= i < |rows| && rows[i].exported ensures rows[i].settled {
      assert was[i].exported ==> OnLine(was[i], w.file.lines);
    }
    forall i: nat | (kind, i) in w.appended
      ensures i < |rows| && rows[i].settled
    {
      assert OnLine(was[i], w.file.lines);
    }
  }

  lemma {:induction false} ExportIsSound(w: World)
    requires Sound(w)
    ensures Sound(Exported(w)) && Complete(Exported(w))
  {
    ExportIsHonest(w);
    ExportCompletesIff(w);
    PutAllLines(w.file, ToExport(w));
    ExportBacks(w, CommitMark);
    ExportBacks(w, DispatchMark);
    UndecodableStays(w);
  }

  lemma {:induction false} StepIsSound(w: World, s: Step)
    requires Sound(w)
    ensures Sound(Next(w, s))
  {
    match s
    case NewCommit(_, _) => RowsGrowSound(w, CommitMark, Next(w, s).commits);
    case NewDispatch(_) => RowsGrowSound(w, DispatchMark, Next(w, s).dispatches);
    case Settle(_, _) => RowsGrowSound(w, DispatchMark, Next(w, s).dispatches);
    case RecordEvent(id, event) => if w.up { PutIsSound(w, EventLine(id, event), Next(w, s)); }
    case Append(kind, i) =>
      if Next(w, s) != w { PutIsSound(w, MarkerLine(Rows(w, kind)[i].marker), Next(w, s)); }
    case MarkExported(kind, i) => if w.up && (kind, i) in w.appended { MarkIsSound(w, kind, i); }
    case ExportAll => if w.up { ExportIsSound(w); }
    case CleanClose => if w.up { PutIsSound(w, ManifestLine(ManifestOf(Markers(Text(w.file)))), Next(w, s)); }
    case Crash =>
    case Restart =>
  }

  /** Over every history of commits, settlements, appends, marks, closes, crashes and restarts whose
      appends are atomic: after a startup export completes, the reader finds precisely the durable
      settled dispatches and the durable commits, whatever the order of the lines. */
  lemma {:induction false} ExportIsExactlyOnce(steps: seq<Step>)
    ensures Sound(Run(START, steps)) && Complete(Exported(Run(START, steps)))
  {
    RunIsSound(steps);
    ExportIsSound(Run(START, steps));
  }

  lemma {:induction false} RunIsSound(steps: seq<Step>)
    ensures Sound(Run(START, steps))
  {
    if steps != [] {
      RunIsSound(steps[..|steps| - 1]);
      StepIsSound(Run(START, steps[..|steps| - 1]), steps[|steps| - 1]);
    }
  }

  /* ---- The manifest --------------------------------------------------------------------------------- */

  /** The reader reports a manifest exactly when it is the last line that is not blank. */
  lemma {:induction false} ManifestIsLast(lines: seq<Line>, d: Manifest)
    ensures LastManifest(lines) == Some(d) <==>
              exists k ::
                && 0 <= k < |lines| && lines[k] == ManifestLine(d)
                && forall j :: k < j < |lines| ==> lines[j].Blank?
  {
    if lines != [] {
      var n := |lines| - 1;
      if lines[n].Blank? {
        var init := lines[..n];
        ManifestIsLast(init, d);
        assert forall k :: 0 <= k < n ==> init[k] == lines[k];
      }
    }
  }

  lemma {:induction false} ManifestMembers(ms: seq<Marker>, chat: string, id: nat)
    ensures chat in ManifestOf(ms) && id in ManifestOf(ms)[chat] <==>
              exists m :: m in ms && m.kind == DispatchMark && m.replayable && m.chat == chat && m.sequence == id
  {
    if ms != [] {
      ManifestMembers(ms[..|ms| - 1], chat, id);
      assert forall m :: m in ms <==> m in ms[..|ms| - 1] || m == ms[|ms| - 1];
    }
  }

  /** The view reports a manifest with precisely the replayable dispatches it holds. */
  ghost predicate Attests(v: View, chat: string, id: nat) {
    && v.manifest.Some?
    && (chat in v.manifest.value && id in v.manifest.value[chat] <==>
          exists m :: m in v.dispatches && m.replayable && m.chat == chat && m.sequence == id)
  }

  lemma {:induction false} CleanCloseAttests(lines: seq<Line>, chat: string, id: nat, r: Result<View, string>)
    requires r == ViewOf(lines + [ManifestLine(ManifestOf(Markers(lines)))])
    ensures r.Ok? <==> !AnyDamaged(lines)
    ensures r.Ok? ==> Attests(r.value, chat, id)
  {
    var ms := Markers(lines);
    Extends(lines, ManifestLine(ManifestOf(ms)));
    ManifestMembers(ms, chat, id);
    MarkersFacts(lines);
    OfFacts(ms, DispatchMark);
    SortedFacts(Of(ms, DispatchMark));
  }

  lemma {:induction false} TornCloseIsSilent(lines: seq<Line>, r: Result<View, string>)
    requires r == ViewOf(lines + [Torn])
    ensures r.Ok? <==> !AnyDamaged(lines)
    ensures r.Ok? ==> r.value.manifest.None?
  {
    Extends(lines, Torn);
  }

  /** A clean close is attested exactly on a file without damage that ends cleanly: the next reader
      reports a manifest that lists precisely the replayable dispatches it reads. Behind an unterminated
      line no manifest is reported; a file that does not decode is left as it was, and stays unreadable. */
  lemma {:induction false} CloseAttestsIff(f: File, chat: string, id: nat)
    ensures var r := ViewOf(Text(Closed(f)));
            && (Undecodable in Text(f) ==> Closed(f) == f)
            && (r.Ok? <==> !AnyDamaged(f.lines) && f.tail != Some(Undecodable))
            && (r.Ok? ==> (r.value.manifest.Some? <==> f.tail.None?))
            && (r.Ok? && f.tail.None? ==> Attests(r.value, chat, id))
  {
    DamageIs(f.lines);
    if Undecodable in Text(f) {
      DamageIs(Text(f));
    } else if f.tail.None? {
      CleanCloseAttests(f.lines, chat, id, ViewOf(Text(Closed(f))));
    } else {
      TornCloseIsSilent(f.lines, ViewOf(Text(Closed(f))));
    }
  }
}
