/**
 One account's outbox table: what emits append, what retention removes, and what a page reads back.

 `AccountOutbox` runs the statements of an emit in order; `Emitted` is what they come
 to. The second half interleaves any number of transactions that commit or roll back.
 */
module Outbox {
  import opened Common

  /** A note, by what a reader does with it. A thread's note names the run that changed it, or nobody. */
  datatype Note =
    | ThreadChanged(thread: string, coworker: string, run: Option<string>, data: string)
    | OtherNote(kind: string, data: string)

  datatype Row = Row(id: nat, createdAt: int, note: Note)

  datatype HeadRow = HeadRow(head: nat, floor: nat)

  datatype Table = Table(headRow: Option<HeadRow>, rows: seq<Row>)

  const RETAIN_MS := 24 * 60 * 60 * 1000
  const RETAIN_MAX := 10_000

  const EMPTY_TABLE := Table(None, [])

  function Max(a: nat, b: nat): nat {
    if a < b then b else a
  }

  function MaxId(rows: seq<Row>): nat {
    if rows == [] then 0 else Max(MaxId(rows[..|rows| - 1]), rows[|rows| - 1].id)
  }

  /** TAKE: the next `count` ids. `seenMax` is the highest id the statement's snapshot saw. */
  function Taken(headRow: Option<HeadRow>, seenMax: nat, count: nat): (taken: HeadRow)
    ensures taken.head >= count
  {
    match headRow
    case None => HeadRow(seenMax + count, 0)
    case Some(row) => row.(head := Max(row.head, seenMax + count - count) + count)
  }

  /** WRITE: the notes under the ids just taken, each stamped with the clock at its insert. */
  function Written(base: nat, notes: seq<Note>, stamps: seq<int>): (rows: seq<Row>)
    requires |notes| == |stamps|
    ensures |rows| == |notes|
    ensures forall i :: 0 <= i < |rows| ==> rows[i] == Row(base + 1 + i, stamps[i], notes[i])
  {
    if notes == [] then []
    else
      var n := |notes| - 1;
      Written(base, notes[..n], stamps[..n]) + [Row(base + 1 + n, stamps[n], notes[n])]
  }

  /** What PRUNE deletes: by count, or by age at the transaction's start. */
  predicate Gone(row: Row, cutId: int, cutTime: int) {
    row.id <= cutId || row.createdAt < cutTime
  }

  function Kept(rows: seq<Row>, cutId: int, cutTime: int): seq<Row> {
    if rows == [] then []
    else if Gone(rows[0], cutId, cutTime) then Kept(rows[1..], cutId, cutTime)
    else [rows[0]] + Kept(rows[1..], cutId, cutTime)
  }

  function MaxGone(rows: seq<Row>, cutId: int, cutTime: int): nat {
    if rows == [] then 0
    else Max(if Gone(rows[0], cutId, cutTime) then rows[0].id else 0, MaxGone(rows[1..], cutId, cutTime))
  }

  function Pruned(head: HeadRow, rows: seq<Row>, cutId: int, cutTime: int): Table {
    Table(Some(head.(floor := Max(head.floor, MaxGone(rows, cutId, cutTime)))), Kept(rows, cutId, cutTime))
  }

  /** An emit's statements, in a transaction begun at `start` whose TAKE saw `seenMax`. */
  function Emitted(table: Table, seenMax: nat, start: int, notes: seq<Note>, stamps: seq<int>): Table
    requires |notes| == |stamps|
  {
    if notes == [] then table
    else
      var head := Taken(table.headRow, seenMax, |notes|);
      Pruned(head, table.rows + Written(head.head - |notes|, notes, stamps), head.head - RETAIN_MAX, start - RETAIN_MS)
  }

  function Head(table: Table): nat {
    if table.headRow.Some? then table.headRow.value.head else 0
  }

  function Floor(table: Table): nat {
    if table.headRow.Some? then table.headRow.value.floor else 0
  }

  /** BOUNDS: `Opened` resumes an id exactly when it lies between the second and the first. */
  function Bounds(table: Table, now: int): (nat, nat) {
    (Head(table), Max(Floor(table), MaxGone(table.rows, -1, now - RETAIN_MS)))
  }

  function Above(rows: seq<Row>, after: int): seq<Row> {
    if rows == [] then []
    else (if rows[0].id > after then [rows[0]] else []) + Above(rows[1..], after)
  }

  /** PAGE: the first `limit` rows whose id is over `after`. */
  function Page(table: Table, after: int, limit: nat): seq<Row> {
    var above := Above(table.rows, after);
    if |above| <= limit then above else above[..limit]
  }

  class AccountOutbox {
    var headRow: Option<HeadRow>
    var rows: seq<Row>

    ghost function Value(): Table
      reads this
    {
      Table(headRow, rows)
    }

    constructor ()
      ensures Value() == EMPTY_TABLE
    {
      headRow, rows := None, [];
    }

    /** Write `notes`, statement by statement. Nothing is written for no notes. */
    method Emit(seenMax: nat, start: int, notes: seq<Note>, stamps: seq<int>)
      requires |notes| == |stamps|
      modifies this
      ensures Value() == Emitted(old(Value()), seenMax, start, notes, stamps)
    {
      hide MaxGone, Kept, Gone, Written;
      if notes == [] {
        return;
      }
      var head := Taken(headRow, seenMax, |notes|);
      headRow := Some(head);
      rows := rows + Written(head.head - |notes|, notes, stamps);
      var gone, kept := Prune(rows, head.head - RETAIN_MAX, start - RETAIN_MS);
      rows := kept;
      headRow := Some(head.(floor := Max(head.floor, gone)));
    }
  }

  /** PRUNE, row by row: the highest id gone, and what is kept. */
  method Prune(rows: seq<Row>, cutId: int, cutTime: int) returns (gone: nat, kept: seq<Row>)
    ensures gone == MaxGone(rows, cutId, cutTime) && kept == Kept(rows, cutId, cutTime)
  {
    hide Gone;
    gone, kept := 0, [];
    var i := |rows|;
    while i > 0
      invariant 0 <= i <= |rows|
      invariant gone == MaxGone(rows[i..], cutId, cutTime) && kept == Kept(rows[i..], cutId, cutTime)
    {
      i := i - 1;
      assert rows[i..][1..] == rows[i + 1..];
      if Gone(rows[i], cutId, cutTime) {
        gone := Max(rows[i].id, gone);
      } else {
        kept := [rows[i]] + kept;
      }
    }
  }

  /** A head behind its notes is mended: the ids taken are above every note the statement saw. */
  lemma TakeIsAboveWhatItSaw(headRow: Option<HeadRow>, seenMax: nat, count: nat)
    requires count > 0
    ensures var taken := Taken(headRow, seenMax, count);
            taken.head - count >= seenMax && (headRow.Some? ==> taken.head - count >= headRow.value.head)
  {
  }

  // ----- what is kept ------------------------------------------------------------------------------

  predicate Sorted(times: seq<int>) {
    forall i, j :: 0 <= i <= j < |times| ==> times[i] <= times[j]
  }

  predicate Consecutive(rows: seq<Row>, floor: nat) {
    forall i :: 0 <= i < |rows| ==> rows[i].id == floor + 1 + i
  }

  predicate Aging(rows: seq<Row>) {
    forall i, j :: 0 <= i <= j < |rows| ==> rows[i].createdAt <= rows[j].createdAt
  }

  /** The rows are the last of `history`, verbatim, from just above the floor to its end. */
  predicate RowsHold(rows: seq<Row>, floor: nat, history: seq<Note>, clock: int) {
    && floor <= |history| && |rows| == |history| - floor
    && Consecutive(rows, floor) && Aging(rows) && Before(rows, clock) && AsWritten(rows, floor, history)
    && (history != [] ==> rows != [])
  }

  predicate Before(rows: seq<Row>, clock: int) {
    forall i :: 0 <= i < |rows| ==> rows[i].createdAt <= clock
  }

  /** Each row's note is the one the history has in its place. */
  predicate AsWritten(rows: seq<Row>, floor: nat, history: seq<Note>)
    requires floor + |rows| <= |history|
  {
    forall i :: 0 <= i < |rows| ==> rows[i].note == history[floor + i]
  }

  predicate Holds(table: Table, history: seq<Note>, clock: int) {
    Head(table) == |history| && RowsHold(table.rows, Floor(table), history, clock)
  }

  predicate Retains(rows: seq<Row>, id: nat) {
    exists i :: 0 <= i < |rows| && rows[i].id == id
  }

  /** Retention removes a prefix: what is gone is the oldest ids, never a hole. */
  lemma {:induction false} PruneIsPrefix(rows: seq<Row>, floor: nat, cutId: int, cutTime: int) returns (k: nat)
    requires Consecutive(rows, floor) && Aging(rows)
    ensures k <= |rows| && Kept(rows, cutId, cutTime) == rows[k..]
    ensures MaxGone(rows, cutId, cutTime) == if k == 0 then 0 else floor + k
    ensures forall i :: 0 <= i < k ==> Gone(rows[i], cutId, cutTime)
    ensures k < |rows| ==> !Gone(rows[k], cutId, cutTime)
    decreases |rows|
  {
    if rows == [] {
      k := 0;
    } else if Gone(rows[0], cutId, cutTime) {
      var rest := PruneIsPrefix(rows[1..], floor + 1, cutId, cutTime);
      k := rest + 1;
      assert rows[1..][rest..] == rows[k..];
      assert forall i :: 1 <= i < k ==> rows[i] == rows[1..][i - 1];
    } else {
      k := 0;
      NothingGone(rows, cutId, cutTime);
    }
  }

  lemma {:induction false} NothingGone(rows: seq<Row>, cutId: int, cutTime: int)
    requires forall i :: 0 <= i < |rows| ==> !Gone(rows[i], cutId, cutTime)
    ensures Kept(rows, cutId, cutTime) == rows && MaxGone(rows, cutId, cutTime) == 0
  {
    if rows != [] {
      NothingGone(rows[1..], cutId, cutTime);
    }
  }

  lemma ConsecutiveConcat(a: seq<Row>, b: seq<Row>, floor: nat)
    requires Consecutive(a, floor) && Consecutive(b, floor + |a|)
    ensures Consecutive(a + b, floor)
  {
    forall i | 0 <= i < |a + b| ensures (a + b)[i].id == floor + 1 + i {
      assert i >= |a| ==> (a + b)[i] == b[i - |a|];
    }
  }

  lemma AgingConcat(a: seq<Row>, b: seq<Row>, clock: int)
    requires Aging(a) && Aging(b) && Before(a, clock) && forall i :: 0 <= i < |b| ==> clock <= b[i].createdAt
    ensures Aging(a + b)
  {
    forall i, j | 0 <= i <= j < |a + b| ensures (a + b)[i].createdAt <= (a + b)[j].createdAt {
      assert j >= |a| ==> (a + b)[j] == b[j - |a|];
      assert i >= |a| ==> (a + b)[i] == b[i - |a|];
    }
  }

  lemma AsWrittenConcat(a: seq<Row>, b: seq<Row>, floor: nat, history: seq<Note>, notes: seq<Note>)
    requires floor + |a| == |history| && AsWritten(a, floor, history) && |b| == |notes|
    requires forall i :: 0 <= i < |b| ==> b[i].note == notes[i]
    ensures AsWritten(a + b, floor, history + notes)
  {
    forall i | 0 <= i < |a + b| ensures (a + b)[i].note == (history + notes)[floor + i] {
      assert i >= |a| ==> (a + b)[i] == b[i - |a|];
    }
  }

  lemma WrittenHolds(base: nat, notes: seq<Note>, stamps: seq<int>)
    requires |notes| == |stamps| && notes != [] && Sorted(stamps)
    ensures var rows := Written(base, notes, stamps);
            && Consecutive(rows, base) && Aging(rows) && Before(rows, stamps[|stamps| - 1])
            && (forall i :: 0 <= i < |rows| ==> rows[i].note == notes[i] && stamps[0] <= rows[i].createdAt)
  {
  }

  lemma BeforeConcat(a: seq<Row>, b: seq<Row>, clock: int, later: int)
    requires Before(a, clock) && Before(b, later) && clock <= later
    ensures Before(a + b, later)
  {
  }

  /** Rows that go on where these end hold the longer history. */
  lemma MoreRowsHold(rows: seq<Row>, more: seq<Row>, floor: nat, history: seq<Note>, notes: seq<Note>,
                     clock: int, later: int)
    requires RowsHold(rows, floor, history, clock) && |more| == |notes| > 0 && clock <= later
    requires Consecutive(more, |history|) && Aging(more) && Before(more, later)
    requires forall i :: 0 <= i < |more| ==> more[i].note == notes[i] && clock <= more[i].createdAt
    ensures RowsHold(rows + more, floor, history + notes, later)
  {
    hide Consecutive, Aging, Before, AsWritten;
    ConsecutiveConcat(rows, more, floor);
    AgingConcat(rows, more, clock);
    AsWrittenConcat(rows, more, floor, history, notes);
    BeforeConcat(rows, more, clock, later);
  }

  lemma WriteExtends(table: Table, history: seq<Note>, clock: int, notes: seq<Note>, stamps: seq<int>)
    requires Holds(table, history, clock)
    requires |notes| == |stamps| && notes != [] && Sorted(stamps) && clock <= stamps[0]
    ensures var rows := table.rows + Written(|history|, notes, stamps);
            RowsHold(rows, Floor(table), history + notes, stamps[|stamps| - 1])
  {
    assert stamps[0] <= stamps[|stamps| - 1];
    hide Consecutive, Aging, Before, RowsHold, Sorted;
    WrittenHolds(|history|, notes, stamps);
    var more := Written(|history|, notes, stamps);
    MoreRowsHold(table.rows, more, Floor(table), history, notes, clock, stamps[|stamps| - 1]);
  }

  /** Any suffix of what holds the last of the history holds the last of it too, from a higher floor. */
  lemma SuffixHolds(rows: seq<Row>, floor: nat, history: seq<Note>, clock: int, k: nat)
    requires RowsHold(rows, floor, history, clock) && k < |rows|
    ensures RowsHold(rows[k..], floor + k, history, clock)
  {
    var kept := rows[k..];
    forall i | 0 <= i < |kept| ensures kept[i].id == floor + k + 1 + i && kept[i].note == history[floor + k + i] {
      assert kept[i] == rows[k + i];
    }
    forall i, j | 0 <= i <= j < |kept| ensures kept[i].createdAt <= kept[j].createdAt {
      assert kept[i] == rows[k + i] && kept[j] == rows[k + j];
    }
  }

  lemma PruneHolds(head: HeadRow, rows: seq<Row>, history: seq<Note>, clock: int, cutId: int, cutTime: int)
    requires head.head == |history| && rows != [] && RowsHold(rows, head.floor, history, clock)
    requires !Gone(rows[|rows| - 1], cutId, cutTime)
    ensures Holds(Pruned(head, rows, cutId, cutTime), history, clock)
    ensures head.floor <= Floor(Pruned(head, rows, cutId, cutTime))
  {
    hide Consecutive, Aging, Before, AsWritten, Kept, MaxGone, Gone;
    var k := PruneIsPrefix(rows, head.floor, cutId, cutTime);
    assert k < |rows|;
    SuffixHolds(rows, head.floor, history, clock, k);
  }

  /**
   An emit under the head lock keeps the outbox exact: its notes take the next ids in order, what retention
   leaves is the consecutive run above the floor up to the head, and the newest note is always among it.
   */
  lemma EmitKeepsHolding(table: Table, history: seq<Note>, clock: int, seenMax: nat, start: int, notes: seq<Note>,
      stamps: seq<int>)
    requires Holds(table, history, clock) && seenMax <= |history| && start <= clock
    requires |notes| == |stamps| && notes != [] && Sorted(stamps) && clock <= stamps[0]
    ensures Holds(Emitted(table, seenMax, start, notes, stamps), history + notes, stamps[|stamps| - 1])
    ensures Floor(table) <= Floor(Emitted(table, seenMax, start, notes, stamps))
  {
    var head := Taken(table.headRow, seenMax, |notes|);
    assert table.headRow.None? ==> history == [];
    assert head.head == |history| + |notes| && head.floor == Floor(table);
    var rows := table.rows + Written(|history|, notes, stamps);
    WriteExtends(table, history, clock, notes, stamps);
    var cutId, cutTime := head.head - RETAIN_MAX, start - RETAIN_MS;
    assert rows[|rows| - 1] == Row(head.head, stamps[|stamps| - 1], notes[|notes| - 1]);
    assert stamps[0] <= stamps[|stamps| - 1];
    PruneHolds(head, rows, history + notes, stamps[|stamps| - 1], cutId, cutTime);
  }

  // ----- transactions that interleave -----------------------------------------------------------------

  /**
   A writer's transaction: begun at `start`, its TAKE's snapshot taken and waiting for the head row's lock,
   or holding the lock with its uncommitted work.
   */
  datatype Txn =
    | Begun(start: int)
    | Waiting(start: int, seenMax: nat, notes: seq<Note>)
    | Holding(start: int, work: Table, notes: seq<Note>, stamps: seq<int>)

  /** `history` is every note committed, in order, and `stamps` when each was written. */
  datatype State = State(
    table: Table,
    history: seq<Note>,
    stamps: seq<int>,
    clock: int,
    txns: map<nat, Txn>,
    lock: Option<nat>)

  datatype Step =
    | Tick(elapsed: nat)
    | Begin(txn: nat)
    | AskHead(txn: nat, notes: seq<Note>)
    | TakeLock(txn: nat, stamps: seq<int>)
    | Commit(txn: nat)
    | Rollback(txn: nat)

  const START := State(EMPTY_TABLE, [], [], 0, map[], None)

  function Exec(s: State, step: Step): State {
    match step
    case Tick(d) => s.(clock := s.clock + d)
    case Begin(t) => if t in s.txns then s else s.(txns := s.txns[t := Begun(s.clock)])
    case AskHead(t, notes) =>
      if t in s.txns && s.txns[t].Begun? && notes != []
      then s.(txns := s.txns[t := Waiting(s.txns[t].start, MaxId(s.table.rows), notes)]) else s
    case TakeLock(t, stamps) =>
      if t in s.txns && s.txns[t].Waiting? && s.lock.None?
         && |stamps| == |s.txns[t].notes| && Sorted(stamps) && stamps != [] && s.clock <= stamps[0]
      then
        var Waiting(start, seenMax, notes) := s.txns[t];
        var work := Emitted(s.table, seenMax, start, notes, stamps);
        s.(txns := s.txns[t := Holding(start, work, notes, stamps)],
           clock := stamps[|stamps| - 1], lock := Some(t))
      else s
    case Commit(t) =>
      if t in s.txns && s.txns[t].Holding?
      then
        var done := s.txns[t];
        s.(table := done.work, history := s.history + done.notes, stamps := s.stamps + done.stamps,
           txns := s.txns - {t}, lock := None)
      else s
    case Rollback(t) =>
      s.(txns := s.txns - {t}, lock := if s.lock == Some(t) then None else s.lock)
  }

  function ExecAll(s: State, steps: seq<Step>): State
    decreases |steps|
  {
    if steps == [] then s else ExecAll(Exec(s, steps[0]), steps[1..])
  }

  predicate TxnFits(s: State, t: nat)
    requires t in s.txns
  {
    match s.txns[t]
    case Begun(start) => start <= s.clock
    case Waiting(start, seenMax, notes) => start <= s.clock && seenMax <= |s.history| && notes != []
    case Holding(_, work, notes, _) =>
      s.lock == Some(t) && Holds(work, s.history + notes, s.clock) && notes != [] && Floor(s.table) <= Floor(work)
  }

  ghost predicate Inv(s: State) {
    && Holds(s.table, s.history, s.clock)
    && (forall t :: t in s.txns ==> TxnFits(s, t))
    && (s.lock.Some? ==> s.lock.value in s.txns && s.txns[s.lock.value].Holding?)
  }

  lemma {:induction false} MaxIdBounded(rows: seq<Row>, bound: nat)
    requires forall i :: 0 <= i < |rows| ==> rows[i].id <= bound
    ensures MaxId(rows) <= bound
  {
    if rows != [] {
      MaxIdBounded(rows[..|rows| - 1], bound);
    }
  }

  lemma HoldsLater(table: Table, history: seq<Note>, clock: int, later: int)
    requires Holds(table, history, clock) && clock <= later
    ensures Holds(table, history, later)
  {
  }

  lemma ClockMoves(s: State, later: int)
    requires Inv(s) && s.clock <= later
    ensures Inv(s.(clock := later))
  {
    HoldsLater(s.table, s.history, s.clock, later);
    forall t | t in s.txns ensures TxnFits(s.(clock := later), t) {
      assert TxnFits(s, t);
      if s.txns[t].Holding? {
        HoldsLater(s.txns[t].work, s.history + s.txns[t].notes, s.clock, later);
      }
    }
  }

  /** No step loses a committed note, renumbers one, or moves the floor or the head back. */
  ghost predicate Onward(s: State, t: State) {
    s.history <= t.history && Head(s.table) <= Head(t.table) && Floor(s.table) <= Floor(t.table) && s.clock <= t.clock
  }

  lemma TakeLockKeepsInv(s: State, t: nat, stamps: seq<int>)
    requires Inv(s)
    ensures Inv(Exec(s, TakeLock(t, stamps))) && Onward(s, Exec(s, TakeLock(t, stamps)))
  {
    var u := Exec(s, TakeLock(t, stamps));
    if u != s {
      var Waiting(start, seenMax, notes) := s.txns[t];
      assert TxnFits(s, t);
      EmitKeepsHolding(s.table, s.history, s.clock, seenMax, start, notes, stamps);
      assert stamps[0] <= stamps[|stamps| - 1];
      ClockMoves(s, stamps[|stamps| - 1]);
      forall w | w in u.txns ensures TxnFits(u, w) {
        if w != t {
          assert TxnFits(s.(clock := u.clock), w);
        }
      }
    }
  }

  lemma CommitKeepsInv(s: State, t: nat)
    requires Inv(s)
    ensures Inv(Exec(s, Commit(t))) && Onward(s, Exec(s, Commit(t)))
  {
    if t in s.txns && s.txns[t].Holding? {
      var u := Exec(s, Commit(t));
      assert TxnFits(s, t);
      forall w | w in u.txns ensures TxnFits(u, w) {
        assert TxnFits(s, w);
      }
    }
  }

  lemma ExecKeepsInv(s: State, step: Step)
    requires Inv(s)
    ensures Inv(Exec(s, step)) && Onward(s, Exec(s, step))
  {
    match step
    case Tick(d) => ClockMoves(s, s.clock + d);
    case AskHead(t, notes) =>
      var u := Exec(s, step);
      MaxIdBounded(s.table.rows, |s.history|);
      forall w | w in u.txns ensures TxnFits(u, w) {
        assert w in s.txns && TxnFits(s, w);
      }
    case TakeLock(t, stamps) => TakeLockKeepsInv(s, t, stamps);
    case Commit(t) => CommitKeepsInv(s, t);
    case _ =>
      var u := Exec(s, step);
      forall w | w in u.txns ensures TxnFits(u, w) {
        assert w in s.txns ==> TxnFits(s, w);
      }
  }

  lemma {:induction false} ExecAllKeepsInv(s: State, steps: seq<Step>)
    requires Inv(s)
    ensures Inv(ExecAll(s, steps)) && Onward(s, ExecAll(s, steps))
    decreases |steps|
  {
    if steps != [] {
      ExecKeepsInv(s, steps[0]);
      ExecAllKeepsInv(Exec(s, steps[0]), steps[1..]);
    }
  }

  /**
   Under any interleaving of writers that commit and roll back: note n of the commit order has id n, the
   retained ids are exactly those above the floor up to the head, and the newest committed note is retained.
   */
  lemma OutboxIsExact(steps: seq<Step>)
    ensures var s := ExecAll(START, steps);
            && Head(s.table) == |s.history|
            && (forall id: nat :: Retains(s.table.rows, id) <==> Floor(s.table) < id <= Head(s.table))
            && (forall i :: 0 <= i < |s.table.rows| ==>
                 0 < s.table.rows[i].id <= |s.history| && s.table.rows[i].note == s.history[s.table.rows[i].id - 1])
            && (s.history != [] ==> Floor(s.table) < Head(s.table))
  {
    ExecAllKeepsInv(START, steps);
    var s := ExecAll(START, steps);
    forall id: nat ensures Retains(s.table.rows, id) <==> Floor(s.table) < id <= Head(s.table) {
      if Floor(s.table) < id <= Head(s.table) {
        assert s.table.rows[id - Floor(s.table) - 1].id == id;
      }
    }
  }

  /** Whatever happens next, the head and the floor only go up, and no committed note is lost or renumbered. */
  lemma HeadNeverGoesDown(before: seq<Step>, after: seq<Step>)
    ensures Onward(ExecAll(START, before), ExecAll(ExecAll(START, before), after))
  {
    ExecAllKeepsInv(START, before);
    ExecAllKeepsInv(ExecAll(START, before), after);
  }

  // ----- what a page is ---------------------------------------------------------------------------------

  lemma {:induction false} AboveIsSuffix(rows: seq<Row>, floor: nat, after: int)
    requires Consecutive(rows, floor)
    ensures Above(rows, after) ==
            if after <= floor then rows else if after - floor <= |rows| then rows[after - floor..] else []
    decreases |rows|
  {
    if rows != [] {
      AboveIsSuffix(rows[1..], floor + 1, after);
      if after > floor && after - floor <= |rows| {
        assert rows[1..][after - floor - 1..] == rows[after - floor..];
      }
    }
  }

  lemma PageIsSlice(table: Table, after: nat, limit: nat)
    requires Consecutive(table.rows, Floor(table)) && after <= Floor(table) + |table.rows|
    ensures var k := Max(after, Floor(table)) - Floor(table);
            Page(table, after, limit) == if |table.rows| - k <= limit then table.rows[k..] else table.rows[k..k + limit]
  {
    hide Above, Consecutive;
    AboveIsSuffix(table.rows, Floor(table), after);
    SliceOfSuffix(table.rows, Max(after, Floor(table)) - Floor(table), limit);
  }

  lemma SliceOfSuffix(rows: seq<Row>, k: nat, limit: nat)
    requires k <= |rows|
    ensures rows[0..] == rows && (k + limit <= |rows| ==> rows[k..][..limit] == rows[k..k + limit])
  {
  }

  /** Consecutive committed notes, from the one after `after`: as many as there are, at most `limit`. */
  predicate IsPage(page: seq<Row>, history: seq<Note>, after: nat, limit: nat) {
    && |page| <= limit && after + |page| <= |history| && (|page| < limit ==> after + |page| == |history|)
    && forall i :: 0 <= i < |page| ==> page[i].id == after + 1 + i && page[i].note == history[after + i]
  }

  /**
   A page from a cursor the account has reached is the next notes committed after it, or after the floor when
   retention has passed it; so it is empty exactly when the cursor is at the head.
   */
  lemma PageMeaning(table: Table, history: seq<Note>, clock: int, after: nat, limit: nat)
    requires Holds(table, history, clock) && after <= |history| && limit > 0
    ensures var page := Page(table, after, limit);
            IsPage(page, history, Max(after, Floor(table)), limit) && (page == [] <==> after == |history|)
  {
    hide Page, Above, Aging, Before, AsWritten, IsPage, Consecutive;
    PageIsSlice(table, after, limit);
    SliceMeaning(table.rows, Floor(table), history, clock, Max(after, Floor(table)) - Floor(table), limit);
  }

  lemma SliceMeaning(rows: seq<Row>, floor: nat, history: seq<Note>, clock: int, k: nat, limit: nat)
    requires RowsHold(rows, floor, history, clock) && k <= |rows| && limit > 0
    ensures var page := if |rows| - k <= limit then rows[k..] else rows[k..k + limit];
            IsPage(page, history, floor + k, limit) && (page == [] <==> k == |rows|)
  {
    hide Aging, Before;
    var page := if |rows| - k <= limit then rows[k..] else rows[k..k + limit];
    forall i | 0 <= i < |page| ensures page[i].id == floor + k + 1 + i && page[i].note == history[floor + k + i] {
      assert page[i] == rows[k + i];
    }
  }
}
