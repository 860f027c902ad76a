/**
 The recorded corpus of `pretender/record.py`: append-only lines, the deduplicating readers, the
 manifest of a clean close, and at-least-once export from the durable ledger. A line is what its
 text parses to. A file may end in an unterminated line, left by a torn write. The readers decode
 strictly: a line that a tear inside a character has left undecodable stops every one of them.
*/
module Corpus {
  import opened Prelude

  datatype Kind = CommitMark | DispatchMark

  /** `replayable`: a dispatch marker that carries a settled state and a settlement time. */
  datatype Marker = Marker(kind: Kind, sequence: nat, chat: string, replayable: bool, payload: string)

  type Manifest = map<string, set<nat>>

  datatype Line =
    | Blank
    | Torn
    | EventLine(id: Option<string>, event: string)
    | MarkerLine(marker: Marker)
    | BadMarker
    | ManifestLine(dispatches: Manifest)
    | BadManifest
    | Undecodable

  datatype File = File(lines: seq<Line>, tail: Option<Line>)

  datatype View = View(
    events: map<string, string>, commits: seq<Marker>, dispatches: seq<Marker>, manifest: Option<Manifest>)

  const UNREADABLE: string := "undecodable text, malformed marker record or manifest"

  /** What a reader sees, the unterminated line included. */
  function Text(f: File): seq<Line> { if f.tail.Some? then f.lines + [f.tail.value] else f.lines }

  /** What becomes of an unterminated line when more text follows it: it does not parse, and bytes that
      do not decode still do not. */
  function Merged(tail: Line): Line { if tail.Undecodable? then Undecodable else Torn }

  function Put(f: File, l: Line): File { File(f.lines + [if f.tail.None? then l else Merged(f.tail.value)], None) }

  /** A write that the end of the process cuts short; `left` is what its part reads as by itself. */
  function Tear(f: File, left: Line): File {
    var tail := if f.tail.None? then left else if left.Undecodable? then Undecodable else Merged(f.tail.value);
    File(f.lines, Some(tail))
  }

  /* ---- Readers ------------------------------------------------------------------------- */

  predicate HasKey(ms: seq<Marker>, m: Marker) {
    exists i :: 0 <= i < |ms| && ms[i].kind == m.kind && ms[i].sequence == m.sequence
  }

  /** The markers of the lines in file order, the first of each key. */
  function Markers(lines: seq<Line>): seq<Marker> {
    if lines == [] then []
    else
      var init, l := Markers(lines[..|lines| - 1]), lines[|lines| - 1];
      if l.MarkerLine? && !HasKey(init, l.marker) then init + [l.marker] else init
  }

  function Of(ms: seq<Marker>, kind: Kind): seq<Marker> {
    if ms == [] then []
    else
      var init, m := Of(ms[..|ms| - 1], kind), ms[|ms| - 1];
      if m.kind == kind then init + [m] else init
  }

  function Events(lines: seq<Line>): map<string, string> {
    if lines == [] then map[]
    else
      var init, l := Events(lines[..|lines| - 1]), lines[|lines| - 1];
      if l.EventLine? && l.id.Some? then init[l.id.value := l.event] else init
  }

  /** Stable insertion by sequence. */
  function Insert(ms: seq<Marker>, m: Marker): seq<Marker> {
    if ms == [] then [m]
    else if ms[|ms| - 1].sequence <= m.sequence then ms + [m]
    else Insert(ms[..|ms| - 1], m) + [ms[|ms| - 1]]
  }

  function Sorted(ms: seq<Marker>): seq<Marker> {
    if ms == [] then [] else Insert(Sorted(ms[..|ms| - 1]), ms[|ms| - 1])
  }

  predicate Malformed(l: Line) { l.BadMarker? || l.BadManifest? }

  predicate Damaged(l: Line) { Malformed(l) || l.Undecodable? }

  predicate AnyDamaged(lines: seq<Line>) { exists i :: 0 <= i < |lines| && Damaged(lines[i]) }

  /** The manifest stands only on the last line that is not blank. */
  function LastManifest(lines: seq<Line>): Option<Manifest> {
    if lines == [] then None
    else
      var l := lines[|lines| - 1];
      if l.Blank? then LastManifest(lines[..|lines| - 1])
      else if l.ManifestLine? then Some(l.dispatches)
      else None
  }

  function ViewOf(lines: seq<Line>): Result<View, string> {
    if AnyDamaged(lines) then Err(UNREADABLE)
    else
      var ms := Markers(lines);
      Ok(View(Events(lines), Sorted(Of(ms, CommitMark)), Sorted(Of(ms, DispatchMark)), LastManifest(lines)))
  }

  ghost predicate SeenIs(seen: set<(Kind, nat)>, ms: seq<Marker>) {
    forall m: Marker :: (m.kind, m.sequence) in seen <==> HasKey(ms, m)
  }

  lemma {:induction false} SeenGrows(seen: set<(Kind, nat)>, ms: seq<Marker>, m: Marker)
    requires SeenIs(seen, ms)
    ensures SeenIs(seen + {(m.kind, m.sequence)}, ms + [m])
  {
    var more := ms + [m];
    assert more[|ms|] == m;
    forall x: Marker ensures (x.kind, x.sequence) in seen + {(m.kind, m.sequence)} <==> HasKey(more, x) {
      if HasKey(ms, x) {
        var i :| 0 <= i < |ms| && ms[i].kind == x.kind && ms[i].sequence == x.sequence;
        assert more[i] == ms[i];
      }
    }
  }

  lemma {:induction false} OfSnoc(ms: seq<Marker>, m: Marker, kind: Kind)
    ensures Of(ms + [m], kind) == if m.kind == kind then Of(ms, kind) + [m] else Of(ms, kind)
  {
    var more := ms + [m];
    assert more[..|more| - 1] == ms && more[|more| - 1] == m;
  }

  lemma {:induction false} MarkersSnoc(lines: seq<Line>, l: Line)
    ensures Markers(lines + [l]) ==
            if l.MarkerLine? && !HasKey(Markers(lines), l.marker) then Markers(lines) + [l.marker] else Markers(lines)
  {
    var more := lines + [l];
    assert more[..|more| - 1] == lines && more[|more| - 1] == l;
  }

  /** The lenient reader skips whatever does not parse, and still fails on text that does not decode. */
  method ReadMarkers(lines: seq<Line>) returns (r: Result<seq<Marker>, string>)
    ensures r == if Undecodable in lines then Err(UNREADABLE) else Ok(Markers(lines))
  {
    var markers: seq<Marker> := [];
    var seen: set<(Kind, nat)> := {};
    for k := 0 to |lines|
      invariant markers == Markers(lines[..k]) && SeenIs(seen, markers) && Undecodable !in lines[..k]
    {
      if lines[k].Undecodable? { return Err(UNREADABLE); }
      assert lines[..k + 1] == lines[..k] + [lines[k]];
      MarkersSnoc(lines[..k], lines[k]);
      if lines[k].MarkerLine? {
        var m := lines[k].marker;
        if (m.kind, m.sequence) !in seen {
          SeenGrows(seen, markers, m);
          seen := seen + {(m.kind, m.sequence)};
          markers := markers + [m];
        } else {
          assert HasKey(markers, m);
        }
      }
    }
    assert lines[..|lines|] == lines;
    r := Ok(markers);
  }

  /** What the strict reader carries from line to line; lines are numbered from one. */
  datatype Scan = Scan(
    events: map<string, string>, commits: seq<Marker>, dispatches: seq<Marker>, seen: set<(Kind, nat)>,
    manifest: Option<Manifest>, manifestLine: nat, lastText: nat)

  ghost predicate Reads(s: Scan, lines: seq<Line>) {
    && SeenIs(s.seen, Markers(lines)) && !AnyDamaged(lines) && s.events == Events(lines)
    && s.commits == Of(Markers(lines), CommitMark) && s.dispatches == Of(Markers(lines), DispatchMark)
    && s.manifestLine <= s.lastText <= |lines| && (s.manifest.None? <==> s.manifestLine == 0)
    && LastManifest(lines) == (if s.manifest.Some? && s.manifestLine == s.lastText then s.manifest else None)
  }

  method Absorb(s: Scan, l: Line, number: nat, ghost lines: seq<Line>) returns (s': Scan)
    requires Reads(s, lines) && !Damaged(l) && number == |lines| + 1
    ensures Reads(s', lines + [l])
  {
    Extends(lines, l);
    if l.Blank? { return s; }
    s' := s.(lastText := number);
    if l.ManifestLine? {
      s' := s'.(manifest := Some(l.dispatches), manifestLine := number);
    } else if l.EventLine? && l.id.Some? {
      s' := s'.(events := s.events[l.id.value := l.event]);
    } else if l.MarkerLine? {
      s' := AbsorbMarker(s', l.marker, Markers(lines));
    }
  }

  method AbsorbMarker(s: Scan, m: Marker, ghost ms: seq<Marker>) returns (s': Scan)
    requires SeenIs(s.seen, ms) && s.commits == Of(ms, CommitMark) && s.dispatches == Of(ms, DispatchMark)
    ensures s'.events == s.events && s'.manifest == s.manifest
    ensures s'.manifestLine == s.manifestLine && s'.lastText == s.lastText
    ensures var more := if HasKey(ms, m) then ms else ms + [m];
            SeenIs(s'.seen, more) && s'.commits == Of(more, CommitMark) && s'.dispatches == Of(more, DispatchMark)
  {
    if (m.kind, m.sequence) in s.seen {
      assert HasKey(ms, m);
      return s;
    }
    SeenGrows(s.seen, ms, m);
    OfSnoc(ms, m, CommitMark);
    OfSnoc(ms, m, DispatchMark);
    s' := s.(seen := s.seen + {(m.kind, m.sequence)});
    s' := if m.kind == CommitMark then s'.(commits := s.commits + [m]) else s'.(dispatches := s.dispatches + [m]);
  }

  /** The strict reader: it keeps events, first markers and the last manifest, notes where the
      manifest and the last text stand, and fails on a damaged record. */
  method ReadView(lines: seq<Line>) returns (r: Result<View, string>)
    ensures r == ViewOf(lines)
  {
    var s := Scan(map[], [], [], {}, None, 0, 0);
    for k := 0 to |lines|
      invariant Reads(s, lines[..k])
    {
      assert lines[..k + 1] == lines[..k] + [lines[k]];
      if Damaged(lines[k]) { return Err(UNREADABLE); }
      s := Absorb(s, lines[k], k + 1, lines[..k]);
    }
    assert lines[..|lines|] == lines;
    var manifest := if s.manifestLine == s.lastText then s.manifest else None;
    r := Ok(View(s.events, Sorted(s.commits), Sorted(s.dispatches), manifest));
  }

  lemma {:induction false} Extends(lines: seq<Line>, l: Line)
    ensures var more, ms := lines + [l], Markers(lines);
            && (AnyDamaged(more) <==> AnyDamaged(lines) || Damaged(l))
            && Events(more)
               == (if l.EventLine? && l.id.Some? then Events(lines)[l.id.value := l.event] else Events(lines))
            && LastManifest(more) == (if l.Blank? then LastManifest(lines)
                                      else if l.ManifestLine? then Some(l.dispatches)
                                      else None)
            && Markers(more) == (if l.MarkerLine? && !HasKey(ms, l.marker) then ms + [l.marker] else ms)
  {
    var more := lines + [l];
    assert more[..|more| - 1] == lines && more[|more| - 1] == l;
    assert forall i :: 0 <= i < |lines| ==> more[i] == lines[i];
  }
}
