/**
 At-least-once export from the durable ledger to the corpus (`pretender/record.py`, with the
 unexported lists of `pretender/repo.py`), over every history of commits, settlements, appends,
 marks, crashes and restarts.
*/
module Export {
  import opened Prelude
  import opened Corpus

  /** A ledger row; its position is its id. A dispatch is exported only once it is settled. */
  datatype Row = Row(marker: Marker, settled: bool, exported: bool)

  function Unexported(rows: seq<Row>): seq<Marker> {
    if rows == [] then []
    else
      var init, r := Unexported(rows[..|rows| - 1]), rows[|rows| - 1];
      if r.settled && !r.exported then init + [r.marker] else init
  }

  function Settled(rows: seq<Row>): seq<Marker> {
    if rows == [] then []
    else
      var init, r := Settled(rows[..|rows| - 1]), rows[|rows| - 1];
      if r.settled then init + [r.marker] else init
  }

  function MarkRow(rows: seq<Row>, i: nat): seq<Row> {
    if i < |rows| then rows[i := rows[i].(exported := true)] else rows
  }

  function AllMarked(rows: seq<Row>): seq<Row> {
    seq(|rows|, i requires 0 <= i < |rows| => if rows[i].settled then rows[i].(exported := true) else rows[i])
  }

  function PutAll(f: File, ms: seq<Marker>): File {
    if ms == [] then f else Put(PutAll(f, ms[..|ms| - 1]), MarkerLine(ms[|ms| - 1]))
  }

  ghost predicate Numbered(rows: seq<Row>, kind: Kind) {
    forall i :: 0 <= i < |rows| ==> rows[i].marker.kind == kind && rows[i].marker.sequence == i
  }

  /** Which dispatches a clean close attests, chat by chat. */
  function ManifestOf(ms: seq<Marker>): Manifest {
    if ms == [] then map[]
    else
      var init, m := ManifestOf(ms[..|ms| - 1]), ms[|ms| - 1];
      if m.kind == DispatchMark && m.replayable then
        init[m.chat := (if m.chat in init then init[m.chat] else {}) + {m.sequence}]
      else init
  }

  /** The file after a clean close: the manifest is appended, unless reading the markers fails. */
  function Closed(f: File): File {
    if Undecodable in Text(f) then f else Put(f, ManifestLine(ManifestOf(Markers(Text(f)))))
  }

  /* ---- The startup export ---------------------------------------------------------- */

  class Recorder {
    var file: File

    constructor (file: File)
      ensures this.file == file
    {
      this.file := file;
    }

    method AppendMarker(m: Marker)
      modifies this
      ensures file == Put(old(file), MarkerLine(m))
    {
      file := Put(file, MarkerLine(m));
    }

    /** A clean close reads its own file back and appends the manifest of what it finds. */
    method Close() returns (r: Result<Manifest, string>)
      modifies this
      ensures file == Closed(old(file)) && (r.Err? <==> Undecodable in Text(old(file)))
      ensures r.Ok? ==> r.value == ManifestOf(Markers(Text(old(file))))
    {
      var read := ReadMarkers(Text(file));
      if read.Err? { return Err(read.error); }
      var ms := read.value;
      var manifest: Manifest := map[];
      for k := 0 to |ms|
        invariant file == old(file) && manifest == ManifestOf(ms[..k])
      {
        assert ms[..k + 1][..k] == ms[..k];
        if ms[k].kind == DispatchMark && ms[k].replayable {
          var ids := if ms[k].chat in manifest then manifest[ms[k].chat] else {};
          manifest := manifest[ms[k].chat := ids + {ms[k].sequence}];
        }
      }
      assert ms[..|ms|] == ms;
      file := Put(file, ManifestLine(manifest));
      r := Ok(manifest);
    }
  }

  class Ledger {
    var commits: seq<Row>
    var dispatches: seq<Row>

    constructor (commits: seq<Row>, dispatches: seq<Row>)
      ensures this.commits == commits && this.dispatches == dispatches
    {
      this.commits, this.dispatches := commits, dispatches;
    }
  }

  predicate Lists(ms: seq<Marker>, i: nat) { exists j :: 0 <= j < |ms| && ms[j].sequence == i }

  /** The rows of `ms` marked, the others as they were. */
  ghost predicate MarkedSome(rows: seq<Row>, ms: seq<Marker>, after: seq<Row>) {
    |after| == |rows| && forall i :: 0 <= i < |rows| ==>
      after[i] == if Lists(ms, i) then rows[i].(exported := true) else rows[i]
  }

  lemma {:induction false} MarkNext(rows: seq<Row>, ms: seq<Marker>, m: Marker, after: seq<Row>)
    requires MarkedSome(rows, ms, after)
    ensures MarkedSome(rows, ms + [m], MarkRow(after, m.sequence))
  {
    var more := ms + [m];
    assert more[|ms|] == m && forall j :: 0 <= j < |ms| ==> more[j] == ms[j];
    forall i: nat | i < |rows| ensures Lists(more, i) <==> Lists(ms, i) || m.sequence == i {
      if Lists(ms, i) {
        var j :| 0 <= j < |ms| && ms[j].sequence == i;
        assert more[j].sequence == i;
      }
    }
  }

  lemma {:induction false} UnexportedMembers(rows: seq<Row>, kind: Kind)
    requires Numbered(rows, kind)
    ensures forall m :: m in Unexported(rows) <==>
              && m.sequence < |rows| && rows[m.sequence].marker == m
              && rows[m.sequence].settled && !rows[m.sequence].exported
  {
    if rows != [] {
      var init := rows[..|rows| - 1];
      UnexportedMembers(init, kind);
      assert forall i :: 0 <= i < |init| ==> init[i] == rows[i];
    }
  }

  lemma {:induction false} AllOfThem(rows: seq<Row>, kind: Kind, after: seq<Row>)
    requires Numbered(rows, kind) && MarkedSome(rows, Unexported(rows), after)
    ensures after == AllMarked(rows)
  {
    var ms := Unexported(rows);
    UnexportedMembers(rows, kind);
    forall j | 0 <= j < |ms|
      ensures ms[j].sequence < |rows| && rows[ms[j].sequence].settled && !rows[ms[j].sequence].exported
    {
      assert ms[j] in ms;
    }
    forall i | 0 <= i < |rows| ensures after[i] == AllMarked(rows)[i] {
      if rows[i].settled && !rows[i].exported {
        assert rows[i].marker in ms;
        var j :| 0 <= j < |ms| && ms[j] == rows[i].marker;
      }
    }
  }

  method ExportRows(recorder: Recorder, rows: seq<Row>, ghost kind: Kind) returns (after: seq<Row>)
    requires Numbered(rows, kind)
    modifies recorder
    ensures after == AllMarked(rows) && recorder.file == PutAll(old(recorder.file), Unexported(rows))
  {
    var ms := Unexported(rows);
    after := rows;
    for k := 0 to |ms|
      invariant MarkedSome(rows, ms[..k], after) && recorder.file == PutAll(old(recorder.file), ms[..k])
    {
      assert ms[..k + 1] == ms[..k] + [ms[k]] && ms[..k + 1][..k] == ms[..k];
      recorder.AppendMarker(ms[k]);
      MarkNext(rows, ms[..k], ms[k], after);
      after := MarkRow(after, ms[k].sequence);
    }
    assert ms[..|ms|] == ms;
    AllOfThem(rows, kind, after);
  }

  /** Append every unexported marker, commits first, and mark each after its append. */
  method ExportUnexported(recorder: Recorder, ledger: Ledger)
    requires Numbered(ledger.commits, CommitMark) && Numbered(ledger.dispatches, DispatchMark)
    modifies recorder, ledger
    ensures ledger.commits == AllMarked(old(ledger.commits)) && ledger.dispatches == AllMarked(old(ledger.dispatches))
    ensures var first := PutAll(old(recorder.file), Unexported(old(ledger.commits)));
            recorder.file == PutAll(first, Unexported(old(ledger.dispatches)))
  {
    ledger.commits := ExportRows(recorder, ledger.commits, CommitMark);
    ledger.dispatches := ExportRows(recorder, ledger.dispatches, DispatchMark);
  }
}
