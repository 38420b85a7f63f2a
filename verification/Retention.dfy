/**
 How much the outbox keeps, in numbers: the newest ten thousand notes, while they are younger than a day. An emit
 removes what is past either, and nothing else ever goes.
 */
module Retention {
  import opened Common
  import opened Outbox

  const DAY := 86_400_000

  /** The row of `id` is younger, at `start`, than a day, and among the newest 10,000 below `head`. */
  predicate IsKept(id: nat, stamp: int, head: nat, start: int) {
    id > head - 10_000 && stamp >= start - DAY
  }

  // ----- one emit --------------------------------------------------------------------------------------------------

  lemma {:induction false} KeptRows(rows: seq<Row>, cutId: int, cutTime: int, row: Row)
    ensures row in Kept(rows, cutId, cutTime) <==> row in rows && row.id > cutId && row.createdAt >= cutTime
  {
    if rows != [] {
      assert rows == [rows[0]] + rows[1..];
      KeptRows(rows[1..], cutId, cutTime, row);
    }
  }

  predicate IsWritten(base: nat, notes: seq<Note>, stamps: seq<int>, row: Row)
    requires |notes| == |stamps|
  {
    && base < row.id <= base + |notes|
    && row.note == notes[row.id - base - 1] && row.createdAt == stamps[row.id - base - 1]
  }

  lemma WrittenRows(base: nat, notes: seq<Note>, stamps: seq<int>, row: Row)
    requires |notes| == |stamps|
    ensures row in Written(base, notes, stamps) <==> IsWritten(base, notes, stamps, row)
  {
    var rows := Written(base, notes, stamps);
    if IsWritten(base, notes, stamps, row) {
      assert rows[row.id - base - 1] == row;
    }
  }

  /**
   After an emit, a row is there exactly when it was before or has just been written, is among the newest 10,000, and
   is no older than a day at the transaction's start.
   */
  lemma EmitRetains(table: Table, history: seq<Note>, clock: int, seenMax: nat, start: int, notes: seq<Note>,
      stamps: seq<int>, row: Row)
    requires Holds(table, history, clock) && seenMax <= |history| && |notes| == |stamps| && notes != []
    ensures row in Emitted(table, seenMax, start, notes, stamps).rows <==>
            && (row in table.rows || IsWritten(|history|, notes, stamps, row))
            && row.id > |history| + |notes| - 10_000 && row.createdAt >= start - 24 * 60 * 60 * 1000
  {
    hide RowsHold, Kept, Written, MaxGone;
    var head := Taken(table.headRow, seenMax, |notes|);
    HeadIs(table, history, clock, seenMax, |notes|);
    var more := Written(|history|, notes, stamps);
    WrittenRows(|history|, notes, stamps, row);
    KeptRows(table.rows + more, head.head - RETAIN_MAX, start - RETAIN_MS, row);
  }

  lemma HeadIs(table: Table, history: seq<Note>, clock: int, seenMax: nat, count: nat)
    requires Holds(table, history, clock) && seenMax <= |history|
    ensures Taken(table.headRow, seenMax, count).head == |history| + count
  {
  }

  // ----- transactions that interleave ------------------------------------------------------------------------------

  /** Each row carries the stamp of its note. */
  predicate Stamped(rows: seq<Row>, stamps: seq<int>) {
    forall i :: 0 <= i < |rows| ==> 0 < rows[i].id <= |stamps| && rows[i].createdAt == stamps[rows[i].id - 1]
  }

  /** Note `id` is no longer among the newest 10,000, or is older than a day. */
  predicate MayGo(stamps: seq<int>, clock: int, id: nat)
    requires 0 < id <= |stamps|
  {
    id <= |stamps| - 10_000 || stamps[id - 1] < clock - DAY
  }

  /** Whatever is gone might go, and there are never more than 10,000 rows. */
  predicate KeptWell(table: Table, stamps: seq<int>, clock: int) {
    && |table.rows| <= 10_000 && Floor(table) <= |stamps| && Stamped(table.rows, stamps)
    && forall id: nat :: 0 < id <= Floor(table) ==> MayGo(stamps, clock, id)
  }

  /** What an emit left, beside what it found. */
  ghost predicate EmitLeft(before: seq<Row>, after: seq<Row>, stamps: seq<int>, written: nat, start: int)
    requires written <= |stamps|
  {
    forall id: nat :: Retains(after, id) <==>
      && (Retains(before, id) || |stamps| - written < id <= |stamps|)
      && id <= |stamps| && id > 0 && IsKept(id, stamps[id - 1], |stamps|, start)
  }

  predicate TxnKeeps(s: State, t: nat)
    requires t in s.txns
  {
    match s.txns[t]
    case Holding(start, work, notes, stamps) =>
      |stamps| == |notes| && start <= s.clock && KeptWell(work, s.stamps + stamps, s.clock)
    case _ => true
  }

  ghost predicate TxnLeft(s: State, t: nat)
    requires t in s.txns
  {
    match s.txns[t]
    case Holding(start, work, notes, stamps) =>
      EmitLeft(s.table.rows, work.rows, s.stamps + stamps, |stamps|, start)
    case _ => true
  }

  ghost predicate RetentionInv(s: State) {
    && |s.stamps| == |s.history| && KeptWell(s.table, s.stamps, s.clock)
    && forall t :: t in s.txns ==> TxnKeeps(s, t) && TxnLeft(s, t)
  }

  lemma RetainsRow(rows: seq<Row>, id: nat) returns (row: Row)
    requires Retains(rows, id)
    ensures row in rows && row.id == id
  {
    var i :| 0 <= i < |rows| && rows[i].id == id;
    row := rows[i];
  }

  lemma RowRetains(rows: seq<Row>, row: Row)
    requires row in rows
    ensures Retains(rows, row.id)
  {
    var i :| 0 <= i < |rows| && rows[i] == row;
  }

  lemma StampOf(rows: seq<Row>, stamps: seq<int>, row: Row)
    requires Stamped(rows, stamps) && row in rows
    ensures 0 < row.id <= |stamps| && row.createdAt == stamps[row.id - 1]
  {
    var i :| 0 <= i < |rows| && rows[i] == row;
  }

  lemma EmitLeaves(s: State, seenMax: nat, start: int, notes: seq<Note>, stamps: seq<int>)
    requires Holds(s.table, s.history, s.clock) && |s.stamps| == |s.history| && Stamped(s.table.rows, s.stamps)
    requires seenMax <= |s.history| && |notes| == |stamps| && notes != []
    ensures var work := Emitted(s.table, seenMax, start, notes, stamps);
            && EmitLeft(s.table.rows, work.rows, s.stamps + stamps, |stamps|, start)
            && Stamped(work.rows, s.stamps + stamps)
  {
    hide Holds, Emitted, Retains;
    var work, all := Emitted(s.table, seenMax, start, notes, stamps), s.stamps + stamps;
    forall row: Row | row in work.rows ensures 0 < row.id <= |all| && row.createdAt == all[row.id - 1] {
      EmitRetains(s.table, s.history, s.clock, seenMax, start, notes, stamps, row);
      if row in s.table.rows {
        StampOf(s.table.rows, s.stamps, row);
      }
    }
    forall id: nat
      ensures Retains(work.rows, id) <==>
              && (Retains(s.table.rows, id) || |s.stamps| < id <= |all|)
              && 0 < id <= |all| && IsKept(id, all[id - 1], |all|, start)
    {
      EmitLeavesId(s, seenMax, start, notes, stamps, id);
    }
  }

  lemma EmitLeavesId(s: State, seenMax: nat, start: int, notes: seq<Note>, stamps: seq<int>, id: nat)
    requires Holds(s.table, s.history, s.clock) && |s.stamps| == |s.history| && Stamped(s.table.rows, s.stamps)
    requires seenMax <= |s.history| && |notes| == |stamps| && notes != []
    ensures var work, all := Emitted(s.table, seenMax, start, notes, stamps), s.stamps + stamps;
            Retains(work.rows, id) <==>
              && (Retains(s.table.rows, id) || |s.stamps| < id <= |all|)
              && 0 < id <= |all| && IsKept(id, all[id - 1], |all|, start)
  {
    hide Holds, Emitted, Retains, Stamped;
    var work, all, n := Emitted(s.table, seenMax, start, notes, stamps), s.stamps + stamps, |s.history|;
    if Retains(work.rows, id) {
      var row := RetainsRow(work.rows, id);
      EmitRetains(s.table, s.history, s.clock, seenMax, start, notes, stamps, row);
      if row in s.table.rows {
        StampOf(s.table.rows, s.stamps, row);
        RowRetains(s.table.rows, row);
      }
    }
    if |s.stamps| < id <= |all| && IsKept(id, all[id - 1], |all|, start) {
      var row := Row(id, stamps[id - n - 1], notes[id - n - 1]);
      EmitRetains(s.table, s.history, s.clock, seenMax, start, notes, stamps, row);
      RowRetains(work.rows, row);
    } else if Retains(s.table.rows, id) {
      var row := RetainsRow(s.table.rows, id);
      StampOf(s.table.rows, s.stamps, row);
      if IsKept(id, all[id - 1], |all|, start) {
        EmitRetains(s.table, s.history, s.clock, seenMax, start, notes, stamps, row);
        RowRetains(work.rows, row);
      }
    }
  }

  lemma FloorRetains(table: Table, history: seq<Note>, clock: int, id: nat)
    requires Holds(table, history, clock)
    ensures Retains(table.rows, id) <==> Floor(table) < id <= |history|
  {
    if Floor(table) < id <= |history| {
      assert table.rows[id - Floor(table) - 1].id == id;
    }
  }

  lemma EmitKeepsWell(s: State, seenMax: nat, start: int, notes: seq<Note>, stamps: seq<int>)
    requires Holds(s.table, s.history, s.clock) && |s.stamps| == |s.history| && KeptWell(s.table, s.stamps, s.clock)
    requires seenMax <= |s.history| && |notes| == |stamps| && notes != [] && Sorted(stamps)
    requires start <= s.clock <= stamps[0]
    ensures var work := Emitted(s.table, seenMax, start, notes, stamps);
            && KeptWell(work, s.stamps + stamps, stamps[|stamps| - 1])
            && EmitLeft(s.table.rows, work.rows, s.stamps + stamps, |stamps|, start)
  {
    var work, all, later := Emitted(s.table, seenMax, start, notes, stamps), s.stamps + stamps, stamps[|stamps| - 1];
    EmitKeepsHolding(s.table, s.history, s.clock, seenMax, start, notes, stamps);
    EmitLeaves(s, seenMax, start, notes, stamps);
    assert s.clock <= later;
    hide Emitted, Sorted, Stamped;
    forall id: nat ensures Retains(work.rows, id) <==> Floor(work) < id <= |all| {
      FloorRetains(work, s.history + notes, later, id);
    }
    forall id: nat | 0 < id <= Floor(work) ensures MayGo(all, later, id) {
      FloorRetains(s.table, s.history, s.clock, id);
      assert id <= Floor(s.table) ==> MayGo(s.stamps, s.clock, id);
    }
    FewRows(work, s.history + notes, later, all, start, s.table.rows, |stamps|);
  }

  lemma FewRows(work: Table, history: seq<Note>, clock: int, stamps: seq<int>, start: int, before: seq<Row>,
      written: nat)
    requires Holds(work, history, clock) && |stamps| == |history| && written <= |stamps|
    requires EmitLeft(before, work.rows, stamps, written, start)
    ensures |work.rows| <= 10_000
  {
    if work.rows != [] {
      assert Retains(work.rows, work.rows[0].id);
    }
  }

  lemma KeptLater(table: Table, stamps: seq<int>, clock: int, later: int)
    requires KeptWell(table, stamps, clock) && clock <= later
    ensures KeptWell(table, stamps, later)
  {
    hide Stamped;
    forall id: nat | 0 < id <= Floor(table) ensures MayGo(stamps, later, id) {
      assert MayGo(stamps, clock, id);
    }
  }

  lemma ClockKeeps(s: State, later: int)
    requires RetentionInv(s) && s.clock <= later
    ensures RetentionInv(s.(clock := later))
  {
    hide KeptWell, EmitLeft;
    var u := s.(clock := later);
    KeptLater(s.table, s.stamps, s.clock, later);
    forall t | t in u.txns ensures TxnKeeps(u, t) && TxnLeft(u, t) {
      assert TxnKeeps(s, t) && TxnLeft(s, t);
      if s.txns[t].Holding? {
        KeptLater(s.txns[t].work, s.stamps + s.txns[t].stamps, s.clock, later);
      }
    }
  }

  lemma TakeLockKeeps(s: State, t: nat, stamps: seq<int>)
    requires Inv(s) && RetentionInv(s)
    ensures RetentionInv(Exec(s, TakeLock(t, stamps)))
  {
    hide KeptWell, EmitLeft, Emitted, Holds;
    var u := Exec(s, TakeLock(t, stamps));
    if u != s {
      var Waiting(start, seenMax, notes) := s.txns[t];
      assert TxnFits(s, t);
      EmitKeepsWell(s, seenMax, start, notes, stamps);
      assert stamps[0] <= stamps[|stamps| - 1];
      ClockKeeps(s, u.clock);
      forall w | w in u.txns ensures TxnKeeps(u, w) && TxnLeft(u, w) {
        if w != t {
          assert TxnKeeps(s.(clock := u.clock), w) && TxnLeft(s.(clock := u.clock), w);
        }
      }
    }
  }

  lemma CommitKeeps(s: State, t: nat)
    requires Inv(s) && RetentionInv(s)
    ensures RetentionInv(Exec(s, Commit(t)))
  {
    hide KeptWell, EmitLeft, Holds;
    var u := Exec(s, Commit(t));
    if u != s {
      assert TxnFits(s, t) && TxnKeeps(s, t);
      forall w | w in u.txns ensures TxnKeeps(u, w) && TxnLeft(u, w) {
        assert TxnFits(s, w) && TxnKeeps(s, w);
      }
    }
  }

  lemma ExecKeeps(s: State, step: Step)
    requires Inv(s) && RetentionInv(s)
    ensures RetentionInv(Exec(s, step))
  {
    hide KeptWell, EmitLeft, Holds, Emitted, MaxId;
    match step
    case Tick(d) => ClockKeeps(s, s.clock + d);
    case TakeLock(t, stamps) => TakeLockKeeps(s, t, stamps);
    case Commit(t) => CommitKeeps(s, t);
    case _ =>
      var u := Exec(s, step);
      forall w | w in u.txns ensures TxnKeeps(u, w) && TxnLeft(u, w) {
        assert w in s.txns ==> TxnKeeps(s, w) && TxnLeft(s, w);
      }
  }

  lemma {:induction false} ExecAllKeeps(s: State, steps: seq<Step>)
    requires Inv(s) && RetentionInv(s)
    ensures RetentionInv(ExecAll(s, steps)) && Inv(ExecAll(s, steps))
    decreases |steps|
  {
    hide Inv, RetentionInv, Exec;
    if steps != [] {
      ExecKeeps(s, steps[0]);
      ExecKeepsInv(s, steps[0]);
      ExecAllKeeps(Exec(s, steps[0]), steps[1..]);
    }
  }

  lemma Reachable(steps: seq<Step>)
    ensures RetentionInv(ExecAll(START, steps)) && Inv(ExecAll(START, steps))
  {
    assert Inv(START) && RetentionInv(START);
    ExecAllKeeps(START, steps);
  }

  /**
   Under any interleaving of writers: there are never more than 10,000 rows, and a committed note is missing only if
   10,000 later ones were committed or it is older than a day.
   */
  lemma NothingYoungGoes(steps: seq<Step>, id: nat)
    ensures var s := ExecAll(START, steps);
            && |s.table.rows| <= 10_000 && |s.stamps| == |s.history|
            && (0 < id <= |s.history| && !Retains(s.table.rows, id) ==>
                  id <= |s.history| - 10_000 || s.stamps[id - 1] < s.clock - 24 * 60 * 60 * 1000)
  {
    hide ExecAll, Stamped;
    Reachable(steps);
    var s := ExecAll(START, steps);
    if 0 < id <= |s.history| {
      FloorRetains(s.table, s.history, s.clock, id);
      assert id <= Floor(s.table) ==> MayGo(s.stamps, s.clock, id);
    }
  }

  /**
   And a commit leaves exactly the ids that were there or that it wrote, among the newest 10,000, and no older than a
   day when its transaction began.
   */
  lemma CommitRetains(steps: seq<Step>, t: nat, id: nat)
    requires t in ExecAll(START, steps).txns && ExecAll(START, steps).txns[t].Holding?
    ensures var s, u := ExecAll(START, steps), Exec(ExecAll(START, steps), Commit(t));
            var Holding(start, work, notes, stamps) := s.txns[t];
            && u.history == s.history + notes && u.stamps == s.stamps + stamps && |u.stamps| == |u.history|
            && (Retains(u.table.rows, id) <==>
                && (Retains(s.table.rows, id) || |s.history| < id <= |u.history|)
                && 0 < id <= |u.history| && id > |u.history| - 10_000
                && u.stamps[id - 1] >= start - 24 * 60 * 60 * 1000)
  {
    hide ExecAll, KeptWell, Retains;
    Reachable(steps);
    var s := ExecAll(START, steps);
    assert TxnKeeps(s, t) && TxnLeft(s, t);
  }

  // ----- a transaction's whole life --------------------------------------------------------------------------------

  lemma {:induction false} InOrder(times: seq<int>)
    requires forall i :: 0 < i < |times| ==> times[i - 1] <= times[i]
    ensures Sorted(times)
    decreases |times|
  {
    if times != [] {
      var before, last := times[..|times| - 1], times[|times| - 1];
      assert forall i :: 0 < i < |before| ==> before[i - 1] <= before[i];
      InOrder(before);
      assert forall i :: 0 <= i < |before| ==> before[i] == times[i] && before[i] <= before[|before| - 1];
      assert before != [] ==> before[|before| - 1] <= last;
    }
  }

  /** Begun, asked, locked and committed with nobody between: its notes are the next of the history, in order. */
  lemma AnEmitCommits(steps: seq<Step>, t: nat, notes: seq<Note>, stamps: seq<int>)
    requires var s := ExecAll(START, steps);
             && t !in s.txns && s.lock == None && notes != [] && |stamps| == |notes|
             && s.clock <= stamps[0] && forall i :: 0 < i < |stamps| ==> stamps[i - 1] <= stamps[i]
    ensures var s := ExecAll(START, steps);
            var u := Exec(Exec(Exec(Exec(s, Begin(t)), AskHead(t, notes)), TakeLock(t, stamps)), Commit(t));
            && u.history == s.history + notes && u.stamps == s.stamps + stamps && Head(u.table) == |u.history|
            && u.lock == None && t !in u.txns && u.clock == stamps[|stamps| - 1]
  {
    hide ExecAll;
    Reachable(steps);
    InOrder(stamps);
    var s := ExecAll(START, steps);
    hide RetentionInv;
    MaxIdBounded(s.table.rows, |s.history|);
    HeadIs(s.table, s.history, s.clock, MaxId(s.table.rows), |notes|);
    hide Inv, Kept, MaxGone, Written, MaxId, Sorted;
  }

  /** A transaction that rolls back leaves the table and the history as they were, and the lock free. */
  lemma RollbackLeavesNothing(s: State, t: nat)
    ensures var u := Exec(s, Rollback(t));
            && u.table == s.table && u.history == s.history && u.stamps == s.stamps && u.clock == s.clock
            && t !in u.txns && u.lock != Some(t)
  {
  }
}
