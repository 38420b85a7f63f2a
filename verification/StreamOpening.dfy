/**
 Who is resumed: the first read of the bounds decides between a replay from the id a client names and a reset, and
 a replay then sends every note since that id as it was written.
 */
module StreamOpening {
  import opened Common
  import Outbox
  import opened Follow
  import opened EventStream
  import opened EventProgress

  /** Note `id` is in the table, and no older than a day. */
  predicate Young(table: Outbox.Table, clock: int, id: nat) {
    exists i :: 0 <= i < |table.rows| && table.rows[i].id == id &&
      table.rows[i].createdAt >= clock - 24 * 60 * 60 * 1000
  }

  /** Every note committed after `id` can still be read and is not past its age. */
  ghost predicate Resumable(outbox: Outbox.State, id: int) {
    && 0 <= id <= |outbox.history|
    && forall n: nat :: id < n <= |outbox.history| ==> Young(outbox.table, outbox.clock, n)
  }

  // ----- the bounds ------------------------------------------------------------------------------------------------

  lemma {:induction false} MaxGoneIs(rows: seq<Outbox.Row>, cutTime: int, bound: nat)
    ensures Outbox.MaxGone(rows, -1, cutTime) <= bound <==>
            forall i :: 0 <= i < |rows| && rows[i].createdAt < cutTime ==> rows[i].id <= bound
  {
    if rows != [] {
      MaxGoneIs(rows[1..], cutTime, bound);
      assert forall i :: 0 <= i < |rows| - 1 ==> rows[1..][i] == rows[i + 1];
      assert rows == [rows[0]] + rows[1..];
    }
  }

  lemma YoungIs(outbox: Outbox.State, n: nat)
    requires Outbox.Inv(outbox) && 0 < n <= |outbox.history|
    ensures var floor, rows := Outbox.Floor(outbox.table), outbox.table.rows;
            Young(outbox.table, outbox.clock, n) <==>
              floor < n && rows[n - floor - 1].createdAt >= outbox.clock - 24 * 60 * 60 * 1000
  {
    hide Outbox.TxnFits;
    var floor, rows := Outbox.Floor(outbox.table), outbox.table.rows;
    if floor < n {
      assert rows[n - floor - 1].id == n;
    }
  }

  predicate NoneOld(rows: seq<Outbox.Row>, cut: int, id: nat) {
    forall i :: 0 <= i < |rows| && rows[i].createdAt < cut ==> rows[i].id <= id
  }

  predicate IsYoung(rows: seq<Outbox.Row>, floor: nat, cut: int, n: nat) {
    floor < n <= floor + |rows| && rows[n - floor - 1].createdAt >= cut
  }

  lemma AllAboveYoung(rows: seq<Outbox.Row>, floor: nat, cut: int, id: nat)
    requires Outbox.Consecutive(rows, floor) && id <= floor + |rows|
    ensures floor <= id && NoneOld(rows, cut, id) <==>
            forall n: nat :: id < n <= floor + |rows| ==> IsYoung(rows, floor, cut, n)
  {
    if floor <= id && NoneOld(rows, cut, id) {
      forall n: nat | id < n <= floor + |rows| ensures IsYoung(rows, floor, cut, n) {
        assert rows[n - floor - 1].id == n;
      }
    }
    assert IsYoung(rows, floor, cut, id + 1) ==> floor <= id;
    forall i | 0 <= i < |rows| ensures IsYoung(rows, floor, cut, rows[i].id) <==> rows[i].createdAt >= cut {
    }
  }

  /** The second bound is at most `id` exactly when all above it is still there and young. */
  lemma BoundIs(outbox: Outbox.State, id: nat)
    requires Outbox.Inv(outbox) && id <= |outbox.history|
    ensures Outbox.Bounds(outbox.table, outbox.clock).0 == |outbox.history|
    ensures Outbox.Bounds(outbox.table, outbox.clock).1 <= id <==> Resumable(outbox, id)
  {
    var table, cut := outbox.table, outbox.clock - 24 * 60 * 60 * 1000;
    var floor, rows := Outbox.Floor(table), table.rows;
    MaxGoneIs(rows, cut, id);
    AllAboveYoung(rows, floor, cut, id);
    forall n: nat | 0 < n <= |outbox.history|
      ensures Young(table, outbox.clock, n) <==> IsYoung(rows, floor, cut, n)
    {
      YoungIs(outbox, n);
    }
    hide Outbox.MaxGone, Outbox.TxnFits, Young, IsYoung, Outbox.Consecutive, Outbox.Aging, Outbox.AsWritten;
  }

  /** The stream a client is resumed on: at its id, with nothing queued, and its replay begun. */
  function ResumedAt(st: Stream, id: nat): Stream {
    st.(phase := Following, at := Value(id, [], true, true), base := id)
  }

  /** The stream that is told to begin again: at the head, with that one block queued. */
  function ToldToReset(st: Stream, head: nat): Stream {
    st.(phase := Following, at := Value(head, [Reset(head)], false, false), out := [Reset(head)],
        mark := 1, base := head, pages := [])
  }

  /**
   In every reachable state: an opening stream that reads its bounds is resumed at the id it was asked for exactly
   when every note committed after that id is still there and younger than a day; otherwise it is told to reset.
   */
  lemma WhoIsResumed(steps: seq<Step>, k: nat)
    requires k < |ExecAll(INITIAL, steps).streams| && ExecAll(INITIAL, steps).streams[k].phase.Opening?
    ensures var s, t := ExecAll(INITIAL, steps), Exec(ExecAll(INITIAL, steps), ReadBounds(k));
            var st := s.streams[k];
            && |t.streams| == |s.streams| && t.outbox == s.outbox
            && t.streams[k] == if st.asked.Some? && Resumable(s.outbox, st.asked.value)
                               then ResumedAt(st, st.asked.value)
                               else ToldToReset(st, |s.outbox.history|)
  {
    hide ExecAll, Resumable;
    ReachableInv(steps);
    OpeningIs(ExecAll(INITIAL, steps), k);
  }

  lemma OpeningIs(s: System, k: nat)
    requires Inv(s) && k < |s.streams| && s.streams[k].phase.Opening?
    ensures var st, t := s.streams[k], Exec(s, ReadBounds(k));
            && |t.streams| == |s.streams| && t.outbox == s.outbox
            && t.streams[k] == if st.asked.Some? && Resumable(s.outbox, st.asked.value)
                               then ResumedAt(st, st.asked.value)
                               else ToldToReset(st, |s.outbox.history|)
  {
    OkOf(s, k);
    var st := s.streams[k];
    hide Inv, StreamOk, Outbox.Inv, Outbox.Bounds;
    NothingSaidYet(s, st);
    BoundIs(s.outbox, 0);
    if st.asked.Some? && 0 <= st.asked.value <= |s.outbox.history| {
      BoundIs(s.outbox, st.asked.value);
    }
    assert ([Reset(|s.outbox.history|)] + []) == [Reset(|s.outbox.history|)];
  }

  lemma NothingSaidYet(s: System, st: Stream)
    requires Inv(s) && StreamOk(s, st) && st.phase.Opening?
    ensures Outbox.Inv(s.outbox) && st.out == [] && st.mark == 0 && st.pages == []
  {
  }

  // ----- when a stream that follows is reset -----------------------------------------------------------------------

  /**
   In every reachable state: a stream that lost wakes is to be reset exactly when more notes were committed since its
   cursor than its room holds wakes, and otherwise reads on, knowing whether there are any.
   */
  lemma WhoIsReset(steps: seq<Step>, k: nat, room: nat)
    requires k < |ExecAll(INITIAL, steps).streams| && ExecAll(INITIAL, steps).streams[k].phase.Missed?
    ensures var s, t := ExecAll(INITIAL, steps), Exec(ExecAll(INITIAL, steps), CheckHead(k, room));
            var st, head := s.streams[k], |s.outbox.history|;
            && |t.streams| == |s.streams|
            && t.streams[k] == if head > st.at.cursor + room then st.(phase := Resetting)
                               else st.(phase := Following, at := st.at.(dirty := st.at.dirty || head > st.at.cursor))
  {
    hide ExecAll;
    ReachableInv(steps);
    HeadIsAll(ExecAll(INITIAL, steps));
    hide Inv;
  }

  /** A reset sends the one block that says so, behind what is queued, and follows from the last note committed. */
  lemma WhatAResetDoes(steps: seq<Step>, k: nat)
    requires k < |ExecAll(INITIAL, steps).streams| && ExecAll(INITIAL, steps).streams[k].phase.Resetting?
    ensures var s, t := ExecAll(INITIAL, steps), Exec(ExecAll(INITIAL, steps), DoReset(k));
            var st, head := s.streams[k], |s.outbox.history|;
            && |t.streams| == |s.streams|
            && t.streams[k] == st.(phase := Following, at := Value(head, st.at.ready + [Reset(head)], false, false),
                                   out := st.out + [Reset(head)], mark := |st.out| + 1, base := head, pages := [])
  {
    hide ExecAll;
    ReachableInv(steps);
    HeadIsAll(ExecAll(INITIAL, steps));
    hide Inv;
  }

  /**
   A stream that lost wakes of its room goes to ask for the head; any wake it takes makes it read exactly when that
   says more than the stream has.
   */
  lemma WhatAWakeDoes(steps: seq<Step>, k: nat, lagged: nat)
    requires k < |ExecAll(INITIAL, steps).streams| && ExecAll(INITIAL, steps).streams[k].phase.Following?
    ensures var s, t := ExecAll(INITIAL, steps), Exec(ExecAll(INITIAL, steps), Hear(k, lagged));
            var st := s.streams[k];
            && st.room < |s.rooms| && st.pos <= |s.rooms[st.room]| && |t.streams| == |s.streams|
            && if st.pos == |s.rooms[st.room]| then t.streams[k] == st
               else if st.pos < lagged <= |s.rooms[st.room]| then t.streams[k] == st.(phase := Missed, pos := lagged)
               else
                 var wake := s.rooms[st.room][st.pos];
                 t.streams[k] == st.(pos := st.pos + 1, at := st.at.(dirty :=
                   st.at.dirty || wake == Resync || (wake.Moved? && wake.id > st.at.cursor)))
  {
    hide ExecAll;
    ReachableInv(steps);
    OkOf(ExecAll(INITIAL, steps), k);
    hide Inv, Exact, NotLost;
  }

  // ----- what the client is sent -----------------------------------------------------------------------------------

  /** How many blocks the client has been sent. */
  function Sent(st: Stream): int {
    |st.out| - |st.at.ready|
  }

  /**
   Nothing queued is lost, skipped or sent twice: over any step a following stream's client is sent one more block by
   a `Pop` of it with something to send, the next one queued, and none by anything else.
   */
  lemma SentOneByOne(s: System, k: nat, step: Step)
    requires k < |s.streams| && IsFollowing(s.streams[k])
    ensures var t := Exec(s, step);
            && k < |t.streams| && s.streams[k].out <= t.streams[k].out
            && Sent(t.streams[k]) == Sent(s.streams[k]) +
               if step == Pop(k) && s.streams[k].phase.Following? && s.streams[k].at.ready != [] then 1 else 0
  {
    if OfStream(step) {
      OneStreamMoves(s, step, k);
      if step.stream == k {
        StreamSends(s, s.streams[k], step);
      }
    } else {
      OthersKeepStreams(s, step);
    }
    hide Exec, StepStream, OfStream;
  }

  lemma OneStreamMoves(s: System, step: Step, k: nat)
    requires OfStream(step) && k < |s.streams| && IsFollowing(s.streams[k])
    ensures var t, st := Exec(s, step), s.streams[k];
            && |t.streams| == |s.streams|
            && t.streams[k] == if step.stream != k then st
                               else if step.Leave? then st.(phase := Leaving)
                               else StepStream(s, st, step)
  {
    hide Receivers;
    if step.Leave? {
      hide StepStream;
    } else {
      hide LeaveRoom, StepStream;
    }
  }

  lemma OthersKeepStreams(s: System, step: Step)
    requires !OfStream(step)
    ensures s.streams <= Exec(s, step).streams
  {
    hide Receivers, Outbox.Exec;
  }

  lemma StreamSends(s: System, st: Stream, step: Step)
    requires OfStream(step) && IsFollowing(st)
    ensures var after := if step.Leave? then st else StepStream(s, st, step);
            && st.out <= after.out
            && Sent(after) == Sent(st) + if step.Pop? && st.phase.Following? && st.at.ready != [] then 1 else 0
  {
    hide Outbox.Page, Outbox.Bounds, Rendered;
  }

  // ----- the replay ------------------------------------------------------------------------------------------------

  /** A stream still in its replay, with nothing it has yet to read pruned away. */
  ghost predicate Replays(s: System, k: nat) {
    && k < |s.streams| && s.streams[k].phase.Following? && s.streams[k].at.dirty && s.streams[k].at.replaying
    && Outbox.Floor(s.outbox.table) <= s.streams[k].at.cursor
  }

  /** A page right after the cursor: at most 500 notes, and fewer only when they are the last. */
  lemma PageIsNext(s: System, k: nat)
    requires Inv(s) && Replays(s, k)
    ensures var st, history := s.streams[k], s.outbox.history;
            var rows := Outbox.Page(s.outbox.table, st.at.cursor, PAGE);
            && Exact(st, history) && !Gap(st.at, rows) && Covers(rows, history, st.at.cursor)
            && |rows| <= 500 && (|rows| < 500 ==> st.at.cursor + |rows| == |history|)
  {
    OkOf(s, k);
    hide Queued, Suffix, Based, NotLost, Outbox.Page;
    var st := s.streams[k];
    Outbox.PageMeaning(s.outbox.table, s.outbox.history, s.outbox.clock, st.at.cursor, PAGE);
  }

  /** One page of the replay, on the stream itself: the replay goes on exactly while pages come back full. */
  lemma ReplayOn(st: Stream, rows: seq<Outbox.Row>, history: seq<Outbox.Note>)
    requires st.phase.Following? && st.at.dirty && st.at.replaying && Exact(st, history)
    requires !Gap(st.at, rows) && Covers(rows, history, st.at.cursor)
    ensures var read := OnPage(st, rows);
            && read.phase.Following? && read.base == st.base && Verbatim(read, history)
            && read.at.cursor == st.at.cursor + |rows|
            && read.at.dirty == read.at.replaying == (|rows| == 500)
  {
    hide Reads, Queued, Based, Suffix, Rendered, Covers, Verbatim, AllVerbatim;
    PageCovers(st, rows, history);
    PagesStayVerbatim(st, rows);
    VerbatimOf(OnPage(st, rows), history);
  }

  lemma ReadPageIs(s: System, k: nat)
    requires k < |s.streams|
    ensures var st, rows := s.streams[k], Outbox.Page(s.outbox.table, s.streams[k].at.cursor, PAGE);
            Exec(s, ReadPage(k)) == s.(streams := s.streams[k := OnPage(st, rows)])
  {
    hide OnPage, Outbox.Page;
  }

  lemma ReplaysWhole(s: System, k: nat)
    requires Inv(s) && Replays(s, k)
    ensures var t := Exec(s, ReadPage(k));
            && t.outbox == s.outbox && |t.streams| == |s.streams|
            && t.streams[k].base == s.streams[k].base
            && Verbatim(t.streams[k], s.outbox.history)
            && (Replays(t, k) ==> t.streams[k].at.cursor > s.streams[k].at.cursor)
            && (!Replays(t, k) ==> CaughtUp(t, k))
  {
    var st, history := s.streams[k], s.outbox.history;
    var rows := Outbox.Page(s.outbox.table, st.at.cursor, PAGE);
    PageIsNext(s, k);
    HeadIsAll(s);
    ReadPageIs(s, k);
    ReplayOn(st, rows, history);
    hide Inv, Exact, Outbox.Page, Covers, Verbatim, OnPage, Exec, Gap;
  }

  lemma PagesStayVerbatim(st: Stream, rows: seq<Outbox.Row>)
    requires st.phase.Following? && st.at.dirty && st.at.replaying && AllVerbatim(st.pages) && !Gap(st.at, rows)
    ensures AllVerbatim(OnPage(st, rows).pages) && OnPage(st, rows).mark == st.mark
  {
    hide Rendered;
  }

  /** Pages all sent verbatim from the beginning are the notes themselves. */
  lemma VerbatimOf(st: Stream, history: seq<Outbox.Note>)
    requires Exact(st, history) && st.mark == 0 && AllVerbatim(st.pages)
    ensures Verbatim(st, history)
  {
    hide RowsOf, RenderAll, Suffix;
    assert st.out[0..] == st.out;
    VerbatimPages(st.pages);
  }

  predicate OnlyReads(steps: seq<Step>, k: nat) {
    forall i :: 0 <= i < |steps| ==> steps[i] == ReadPage(k)
  }

  lemma {:induction false} ReplayReaches(s: System, k: nat) returns (steps: seq<Step>)
    requires Inv(s) && Replays(s, k)
    ensures OnlyReads(steps, k)
    ensures var t := ExecAll(s, steps);
            && t.outbox == s.outbox && |t.streams| == |s.streams| && CaughtUp(t, k)
            && t.streams[k].base == s.streams[k].base && Verbatim(t.streams[k], s.outbox.history)
    decreases Outbox.Head(s.outbox.table) - s.streams[k].at.cursor
  {
    hide Inv, Verbatim, Exec, Replays;
    var u := Exec(s, ReadPage(k));
    ReplaysWhole(s, k);
    ExecKeepsInv(s, ReadPage(k));
    if Replays(u, k) {
      ReplaysFollow(u, k);
      var rest := ReplayReaches(u, k);
      steps := [ReadPage(k)] + rest;
      assert steps[1..] == rest;
    } else {
      steps := [ReadPage(k)];
      assert steps[1..] == [];
      assert ExecAll(u, []) == u;
    }
  }

  lemma ReplaysFollow(s: System, k: nat)
    requires Inv(s) && Replays(s, k)
    ensures k < |s.streams| && s.streams[k].at.cursor <= Outbox.Head(s.outbox.table)
  {
    NeverAhead(s, k);
  }

  /** From any state in which it is resumed, the stream's own reads send every note since `id`, as it was written. */
  lemma AResumedClientHearsAll(steps: seq<Step>, k: nat, id: nat) returns (pages: seq<Step>)
    requires k < |ExecAll(INITIAL, steps).streams| && ExecAll(INITIAL, steps).streams[k].phase.Opening?
    requires ExecAll(INITIAL, steps).streams[k].asked == Some(id) && Resumable(ExecAll(INITIAL, steps).outbox, id)
    ensures OnlyReads(pages, k)
    ensures var s, t := ExecAll(INITIAL, steps), ExecAll(INITIAL, steps + [ReadBounds(k)] + pages);
            && t.outbox == s.outbox && k < |t.streams| && CaughtUp(t, k)
            && t.streams[k].base == id && |t.streams[k].out| == |s.outbox.history| - id
            && forall i :: 0 <= i < |t.streams[k].out| ==>
                 t.streams[k].out[i] == NoteBlock(id + 1 + i, s.outbox.history[id + i])
  {
    hide ExecAll, Inv, Resumable, Exec;
    var s := ExecAll(INITIAL, steps);
    ReachableInv(steps);
    WhoIsResumed(steps, k);
    var t := Exec(s, ReadBounds(k));
    ExecKeepsInv(s, ReadBounds(k));
    FloorIsBelow(s.outbox, id, s);
    pages := ReplayReaches(t, k);
    ExecAllConcat(INITIAL, steps, [ReadBounds(k)]);
    ExecAllOne(s, ReadBounds(k));
    ExecAllConcat(INITIAL, steps + [ReadBounds(k)], pages);
    HeadIsAll(s);
  }

  lemma HeadIsAll(s: System)
    requires Inv(s)
    ensures Outbox.Head(s.outbox.table) == |s.outbox.history|
  {
  }

  lemma ExecAllOne(s: System, step: Step)
    ensures ExecAll(s, [step]) == Exec(s, step)
  {
    hide Exec;
    assert [step][1..] == [];
    assert ExecAll(Exec(s, step), []) == Exec(s, step);
  }

  lemma FloorIsBelow(outbox: Outbox.State, id: nat, s: System)
    requires Inv(s) && outbox == s.outbox && Resumable(outbox, id)
    ensures Outbox.Floor(outbox.table) <= id
  {
    BoundIs(outbox, id);
  }
}
