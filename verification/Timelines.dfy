/**
 What a recorded ledger replays on: the timeline that its commit markers name, and what that means for a
 dispatch that was evaluated live.
*/
module Timelines {
  import opened Prelude
  import opened Messages
  import opened Gate
  import opened Snapshot
  import opened Replay
  import opened Markers

  /** The commit is of the chat and names a message event of the chat. */
  predicate NamesMessage(view: View, chat: string, c: CommitMarker) {
    && c.chat == chat && c.eventId.Some? && c.eventId.value in view.events
    && view.events[c.eventId.value].Some? && view.events[c.eventId.value].value.chatKey == chat
  }

  function Named(view: View, chat: string, c: CommitMarker): Message
    requires NamesMessage(view, chat, c)
  {
    view.events[c.eventId.value].value
  }

  function NamedCount(view: View, chat: string, commits: seq<CommitMarker>): nat {
    if commits == [] then 0
    else
      NamedCount(view, chat, commits[..|commits| - 1])
      + (if NamesMessage(view, chat, commits[|commits| - 1]) then 1 else 0)
  }

  /** The row a commit's message gets: the recorded one, or else its position in the timeline. */
  function RowOf(view: View, chat: string, commits: seq<CommitMarker>, i: nat): nat
    requires i < |commits|
  {
    if commits[i].rowId.Some? then commits[i].rowId.value else NamedCount(view, chat, commits[..i]) + 1
  }

  ghost predicate SharesRow(view: View, chat: string, commits: seq<CommitMarker>, i: nat, j: nat) {
    && i < j < |commits| && NamesMessage(view, chat, commits[i]) && NamesMessage(view, chat, commits[j])
    && RowOf(view, chat, commits, i) == RowOf(view, chat, commits, j)
  }

  /** The message of the commit at `i`, under its row. */
  function MessageAt(view: View, chat: string, commits: seq<CommitMarker>, i: nat): Message
    requires i < |commits| && NamesMessage(view, chat, commits[i])
  {
    Named(view, chat, commits[i]).(rowId := Some(RowOf(view, chat, commits, i)))
  }

  /** The messages are those of the commits that name one, in commit order. */
  ghost predicate InCommitOrder(view: View, chat: string, commits: seq<CommitMarker>, ms: seq<Message>) {
    && |ms| == NamedCount(view, chat, commits)
    && forall i :: 0 <= i < |commits| && NamesMessage(view, chat, commits[i]) ==>
         && NamedCount(view, chat, commits[..i]) < |ms|
         && ms[NamedCount(view, chat, commits[..i])] == MessageAt(view, chat, commits, i)
  }

  /** No later commit that names a message has the same sequence. */
  ghost predicate LastOf(view: View, chat: string, commits: seq<CommitMarker>, i: nat, s: nat) {
    && i < |commits| && commits[i].sequence == s && NamesMessage(view, chat, commits[i])
    && forall j :: i < j < |commits| && NamesMessage(view, chat, commits[j]) ==> commits[j].sequence != s
  }

  /** The map leads from each sequence to the message of its commit, and holds no other. */
  ghost predicate BySequence(view: View, chat: string, commits: seq<CommitMarker>, bySeq: map<nat, Message>) {
    && (forall s :: s in bySeq ==> exists i: nat :: LastOf(view, chat, commits, i, s))
    && (forall i: nat, s :: LastOf(view, chat, commits, i, s) ==>
          s in bySeq && bySeq[s] == MessageAt(view, chat, commits, i))
  }

  ghost predicate IsTimeline(view: View, chat: string, commits: seq<CommitMarker>, tl: Timeline) {
    InCommitOrder(view, chat, commits, tl.messages) && BySequence(view, chat, commits, tl.bySeq)
  }

  lemma {:induction false} ResolveNames(view: View, chat: string, c: CommitMarker)
    ensures Resolve(view, chat, c) == if NamesMessage(view, chat, c) then Some(Named(view, chat, c)) else None
  {
  }

  lemma {:induction false} RowsOfPrefix(view: View, chat: string, init: seq<CommitMarker>, c: CommitMarker, i: nat)
    requires i < |init|
    ensures RowOf(view, chat, init + [c], i) == RowOf(view, chat, init, i)
    ensures (init + [c])[..i] == init[..i]
  {
  }

  lemma {:induction false} RowOfLast(view: View, chat: string, init: seq<CommitMarker>, c: CommitMarker)
    ensures RowOf(view, chat, init + [c], |init|)
            == if c.rowId.Some? then c.rowId.value else NamedCount(view, chat, init) + 1
    ensures (init + [c])[..|init|] == init
    ensures NamedCount(view, chat, init + [c])
            == NamedCount(view, chat, init) + (if NamesMessage(view, chat, c) then 1 else 0)
  {
    assert (init + [c])[..|init + [c]| - 1] == init;
  }

  lemma {:induction false} OrderGrows(
    view: View, chat: string, init: seq<CommitMarker>, c: CommitMarker, ms: seq<Message>)
    requires InCommitOrder(view, chat, init, ms)
    ensures !NamesMessage(view, chat, c) ==> InCommitOrder(view, chat, init + [c], ms)
    ensures NamesMessage(view, chat, c) ==>
              InCommitOrder(view, chat, init + [c], ms + [MessageAt(view, chat, init + [c], |init|)])
  {
    RowOfLast(view, chat, init, c);
    forall i | 0 <= i < |init| ensures RowOf(view, chat, init + [c], i) == RowOf(view, chat, init, i)
                                       && (init + [c])[..i] == init[..i] {
      RowsOfPrefix(view, chat, init, c, i);
    }
  }

  lemma {:induction false} LastOfSnoc(
    view: View, chat: string, init: seq<CommitMarker>, c: CommitMarker, i: nat, s: nat)
    ensures LastOf(view, chat, init + [c], i, s) <==>
              if NamesMessage(view, chat, c) && c.sequence == s then i == |init|
              else LastOf(view, chat, init, i, s)
  {
    var all := init + [c];
    assert all[|init|] == c && forall j :: 0 <= j < |init| ==> all[j] == init[j];
  }

  lemma {:induction false} SequencesGrow(
    view: View, chat: string, init: seq<CommitMarker>, c: CommitMarker, bySeq: map<nat, Message>,
    more: map<nat, Message>)
    requires BySequence(view, chat, init, bySeq)
    requires more == if NamesMessage(view, chat, c) then bySeq[c.sequence := MessageAt(view, chat, init + [c], |init|)]
                     else bySeq
    ensures BySequence(view, chat, init + [c], more)
  {
    forall s | s in more ensures exists i: nat :: LastOf(view, chat, init + [c], i, s) {
      if NamesMessage(view, chat, c) && c.sequence == s {
        LastOfSnoc(view, chat, init, c, |init|, s);
      } else {
        var i: nat :| LastOf(view, chat, init, i, s);
        LastOfSnoc(view, chat, init, c, i, s);
      }
    }
    forall i: nat, s | LastOf(view, chat, init + [c], i, s)
      ensures s in more && more[s] == MessageAt(view, chat, init + [c], i)
    {
      LastOfSnoc(view, chat, init, c, i, s);
      if i < |init| { RowsOfPrefix(view, chat, init, c, i); }
    }
  }

  /** A row is taken exactly when some earlier commit got it. */
  lemma {:induction false} RowTaken(view: View, chat: string, commits: seq<CommitMarker>, ms: seq<Message>, row: nat)
    requires InCommitOrder(view, chat, commits, ms)
    ensures HasRow(ms, row) <==>
              exists i ::
                0 <= i < |commits| && NamesMessage(view, chat, commits[i]) && RowOf(view, chat, commits, i) == row
  {
    if k :| 0 <= k < |ms| && ms[k].rowId == Some(row) {
      var i := CommitAt(view, chat, commits, k);
      assert ms[k] == MessageAt(view, chat, commits, i);
    }
    if i :| 0 <= i < |commits| && NamesMessage(view, chat, commits[i]) && RowOf(view, chat, commits, i) == row {
      assert ms[NamedCount(view, chat, commits[..i])].rowId == Some(row);
    }
  }

  /** The commit that stands at position `k` of the timeline. */
  lemma {:induction false} CommitAt(view: View, chat: string, commits: seq<CommitMarker>, k: nat) returns (i: nat)
    requires k < NamedCount(view, chat, commits)
    ensures i < |commits| && NamesMessage(view, chat, commits[i]) && NamedCount(view, chat, commits[..i]) == k
  {
    var init, c := commits[..|commits| - 1], commits[|commits| - 1];
    if k < NamedCount(view, chat, init) {
      i := CommitAt(view, chat, init, k);
      assert init[..i] == commits[..i];
    } else {
      i := |init|;
    }
  }

  lemma {:induction false} SharesSnoc(
    view: View, chat: string, init: seq<CommitMarker>, c: CommitMarker, i: nat, j: nat)
    ensures SharesRow(view, chat, init + [c], i, j) <==>
              || SharesRow(view, chat, init, i, j)
              || (j == |init| && i < |init| && NamesMessage(view, chat, init[i]) && NamesMessage(view, chat, c)
                  && RowOf(view, chat, init, i) == RowOf(view, chat, init + [c], |init|))
  {
    if i < |init| { RowsOfPrefix(view, chat, init, c, i); }
    if j < |init| { RowsOfPrefix(view, chat, init, c, j); }
  }

  /** The timeline of a view holds exactly the chat's messages that its commit markers name, in commit
      order, each under its recorded row or else its position, and leads from each commit to its message.
      It is refused exactly when two of them would share a row. */
  lemma {:induction false} TimelineIsNamed(view: View, chat: string, commits: seq<CommitMarker>)
    ensures var r := TimelineOf(view, chat, commits);
            && (r.Err? <==> exists i: nat, j: nat :: SharesRow(view, chat, commits, i, j))
            && (r.Ok? ==> IsTimeline(view, chat, commits, r.value))
  {
    if commits == [] {
      assert IsTimeline(view, chat, commits, Timeline([], map[]));
    } else {
      var init, c := commits[..|commits| - 1], commits[|commits| - 1];
      assert commits == init + [c];
      TimelineIsNamed(view, chat, init);
      if i: nat, j: nat :| SharesRow(view, chat, init, i, j) {
        SharesSnoc(view, chat, init, c, i, j);
      } else {
        PlacedIsNamed(view, chat, init, c, TimelineOf(view, chat, init).value);
      }
    }
  }

  lemma {:induction false} PlacedIsNamed(
    view: View, chat: string, init: seq<CommitMarker>, c: CommitMarker, tl: Timeline)
    requires IsTimeline(view, chat, init, tl) && forall i: nat, j: nat :: !SharesRow(view, chat, init, i, j)
    ensures var r := Place(view, chat, tl, c);
            && (r.Err? <==> exists i: nat, j: nat :: SharesRow(view, chat, init + [c], i, j))
            && (r.Ok? ==> IsTimeline(view, chat, init + [c], r.value))
  {
    ResolveNames(view, chat, c);
    RowOfLast(view, chat, init, c);
    forall i: nat, j: nat
      ensures SharesRow(view, chat, init + [c], i, j) <==>
                j == |init| && i < |init| && NamesMessage(view, chat, init[i]) && NamesMessage(view, chat, c)
                && RowOf(view, chat, init, i) == RowOf(view, chat, init + [c], |init|)
    {
      SharesSnoc(view, chat, init, c, i, j);
    }
    if NamesMessage(view, chat, c) {
      RowTaken(view, chat, init, tl.messages, RowOf(view, chat, init + [c], |init|));
      if i :| 0 <= i < |init| && NamesMessage(view, chat, init[i])
              && RowOf(view, chat, init, i) == RowOf(view, chat, init + [c], |init|) {
        assert SharesRow(view, chat, init + [c], i, |init|);
      }
    }
    OrderGrows(view, chat, init, c, tl.messages);
    SequencesGrow(view, chat, init, c, tl.bySeq,
                  if NamesMessage(view, chat, c) then tl.bySeq[c.sequence := MessageAt(view, chat, init + [c], |init|)]
                  else tl.bySeq);
  }
}
