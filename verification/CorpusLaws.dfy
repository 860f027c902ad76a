/**
 What the strict reader shows of a file, stated on its lines alone.
*/
module CorpusLaws {
  import opened Prelude
  import opened Corpus
  import opened ExportLaws

  ghost predicate KeyOn(l: Line, m: Marker) {
    l.MarkerLine? && l.marker.kind == m.kind && l.marker.sequence == m.sequence
  }

  /** Line `i` holds this marker, and no line before it holds one of the same kind and number. */
  ghost predicate FirstAt(lines: seq<Line>, i: nat, m: Marker) {
    i < |lines| && lines[i] == MarkerLine(m) && forall j :: 0 <= j < i ==> !KeyOn(lines[j], m)
  }

  ghost predicate Stands(lines: seq<Line>, m: Marker) { exists i: nat :: FirstAt(lines, i, m) }

  ghost predicate EventOf(l: Line, id: string) { l.EventLine? && l.id == Some(id) }

  /** Line `i` holds an event of this id, and no later line does. */
  ghost predicate NewestAt(lines: seq<Line>, i: nat, id: string) {
    i < |lines| && EventOf(lines[i], id) && forall j :: i < j < |lines| ==> !EventOf(lines[j], id)
  }

  /** The markers of one kind, each as its first line has it, by number. */
  ghost predicate ShowsMarkers(lines: seq<Line>, kind: Kind, ms: seq<Marker>) {
    Ascending(ms) && forall m :: m in ms <==> m.kind == kind && Stands(lines, m)
  }

  /** The events by id, each as its newest line has it. */
  ghost predicate ShowsEvents(lines: seq<Line>, events: map<string, string>) {
    && (forall id :: id in events ==> exists i: nat :: NewestAt(lines, i, id))
    && forall i: nat, id :: NewestAt(lines, i, id) ==> id in events && events[id] == lines[i].event
  }

  lemma {:induction false} NoKeyNoMarker(lines: seq<Line>, m: Marker)
    ensures HasKey(Markers(lines), m) <==> exists j :: 0 <= j < |lines| && KeyOn(lines[j], m)
  {
    MarkersFacts(lines);
    var ms := Markers(lines);
    if HasKey(ms, m) {
      var i :| 0 <= i < |ms| && ms[i].kind == m.kind && ms[i].sequence == m.sequence;
      assert ms[i] in ms;
      var j :| 0 <= j < |lines| && lines[j] == MarkerLine(ms[i]);
      assert KeyOn(lines[j], m);
    }
    if j :| 0 <= j < |lines| && KeyOn(lines[j], m) {
      assert MarkerLine(lines[j].marker) in lines;
      assert HasKey(ms, lines[j].marker);
    }
  }

  lemma {:induction false} StandsSnoc(lines: seq<Line>, l: Line, m: Marker)
    ensures Stands(lines + [l], m) <==> Stands(lines, m) || (l == MarkerLine(m) && !HasKey(Markers(lines), m))
  {
    var more := lines + [l];
    NoKeyNoMarker(lines, m);
    assert more[|lines|] == l && forall i :: 0 <= i < |lines| ==> more[i] == lines[i];
    if i: nat :| FirstAt(lines, i, m) { assert FirstAt(more, i, m); }
    if l == MarkerLine(m) && !HasKey(Markers(lines), m) { assert FirstAt(more, |lines|, m); }
    if i: nat :| FirstAt(more, i, m) {
      if i < |lines| { assert FirstAt(lines, i, m); }
    }
  }

  lemma {:induction false} MarkersStand(lines: seq<Line>, m: Marker)
    ensures m in Markers(lines) <==> Stands(lines, m)
  {
    if lines != [] {
      var init, l := lines[..|lines| - 1], lines[|lines| - 1];
      assert lines == init + [l];
      MarkersStand(init, m);
      StandsSnoc(init, l, m);
      MarkersSnoc(init, l);
    }
  }

  lemma {:induction false} EventsSnoc(lines: seq<Line>, l: Line, i: nat, id: string)
    ensures NewestAt(lines + [l], i, id) <==>
              (i == |lines| && EventOf(l, id)) || (NewestAt(lines, i, id) && !EventOf(l, id))
  {
    var more := lines + [l];
    assert more[|lines|] == l && forall j :: 0 <= j < |lines| ==> more[j] == lines[j];
    if NewestAt(more, i, id) && i < |lines| { assert !EventOf(more[|lines|], id); }
  }

  lemma {:induction false} EventsShow(lines: seq<Line>)
    ensures ShowsEvents(lines, Events(lines))
  {
    if lines != [] {
      var init, l := lines[..|lines| - 1], lines[|lines| - 1];
      assert lines == init + [l];
      EventsShow(init);
      forall i: nat, id | NewestAt(lines, i, id) ensures id in Events(lines) && Events(lines)[id] == lines[i].event {
        EventsSnoc(init, l, i, id);
      }
      forall id | id in Events(lines) ensures exists i: nat :: NewestAt(lines, i, id) {
        if EventOf(l, id) {
          EventsSnoc(init, l, |init|, id);
        } else {
          var i: nat :| NewestAt(init, i, id);
          EventsSnoc(init, l, i, id);
        }
      }
    }
  }

  lemma {:induction false} SortedShows(lines: seq<Line>, kind: Kind)
    ensures ShowsMarkers(lines, kind, Sorted(Of(Markers(lines), kind)))
  {
    MarkersFacts(lines);
    OfFacts(Markers(lines), kind);
    SortedFacts(Of(Markers(lines), kind));
    forall m ensures m in Sorted(Of(Markers(lines), kind)) <==> m.kind == kind && Stands(lines, m) {
      MarkersStand(lines, m);
    }
  }

  /** The strict reader fails exactly on a line that is damaged, and otherwise shows the first marker of each
      kind and number, by number, and the newest event of each id. */
  lemma {:induction false} ViewShows(lines: seq<Line>, r: Result<View, string>)
    requires r == ViewOf(lines)
    ensures r.Err? <==>
              exists i :: 0 <= i < |lines| && (lines[i].BadMarker? || lines[i].BadManifest? || lines[i].Undecodable?)
    ensures r.Ok? ==>
              && ShowsMarkers(lines, CommitMark, r.value.commits)
              && ShowsMarkers(lines, DispatchMark, r.value.dispatches)
              && ShowsEvents(lines, r.value.events)
  {
    EventsShow(lines);
    SortedShows(lines, CommitMark);
    SortedShows(lines, DispatchMark);
    if AnyDamaged(lines) { var i :| 0 <= i < |lines| && Damaged(lines[i]); }
    if i :| 0 <= i < |lines| && (lines[i].BadMarker? || lines[i].BadManifest? || lines[i].Undecodable?) {
      assert Damaged(lines[i]);
    }
  }
}
