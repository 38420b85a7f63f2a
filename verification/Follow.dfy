/**
 A client's event stream as a cursor over the outbox, a queue of blocks to send, and two flags.

 `FollowStream` is the object the source updates; the functions before it say what each of its methods
 does with what it read.
 */
module Follow {
  import opened Common
  import opened Outbox
  import opened Coalesce

  datatype Block = NoteBlock(id: nat, note: Note) | Reset(id: nat)

  datatype Wake = Moved(id: nat) | Resync

  datatype Value = Value(cursor: nat, ready: seq<Block>, dirty: bool, replaying: bool)

  /** Notes one read takes. */
  const PAGE := 500

  function Blocks(rows: seq<Row>): (blocks: seq<Block>)
    ensures |blocks| == |rows|
    ensures forall i :: 0 <= i < |rows| ==> blocks[i] == NoteBlock(rows[i].id, rows[i].note)
  {
    if rows == [] then [] else [NoteBlock(rows[0].id, rows[0].note)] + Blocks(rows[1..])
  }

  /** The blocks of a page: one per row when `verbatim`, one per coalesced row otherwise. */
  function Rendered(rows: seq<Row>, verbatim: bool): seq<Block> {
    Blocks(if verbatim then rows else Coalesced(rows))
  }

  function Opened(head: nat, floor: nat, lastEventId: Option<int>): Value {
    if lastEventId.Some? && floor <= lastEventId.value <= head
    then Value(lastEventId.value, [], true, true)
    else Value(head, [Reset(head)], false, false)
  }

  /** Ids between the cursor and the page are missing from the table. */
  predicate Gap(f: Value, rows: seq<Row>) {
    rows != [] && rows[0].id != f.cursor + 1
  }

  function ReadOn(f: Value, rows: seq<Row>): Value {
    var more := |rows| == PAGE;
    var cursor := if rows == [] then f.cursor else rows[|rows| - 1].id;
    Value(cursor, f.ready + Rendered(rows, f.replaying), more, f.replaying && more)
  }

  function ResetAt(f: Value, head: nat): Value {
    Value(head, f.ready + [Reset(head)], false, false)
  }

  predicate Says(wake: Wake, cursor: nat) {
    wake.Resync? || wake.id > cursor
  }

  function Heard(f: Value, wake: Wake): Value {
    f.(dirty := f.dirty || Says(wake, f.cursor))
  }

  predicate TooFarBehind(f: Value, head: nat, room: nat) {
    head - f.cursor > room
  }

  function CaughtWakes(f: Value, head: nat): Value {
    f.(dirty := f.dirty || head > f.cursor)
  }

  class FollowStream {
    var cursor: nat
    var ready: seq<Block>
    var dirty: bool
    var replaying: bool

    ghost function State(): Value
      reads this
    {
      Value(cursor, ready, dirty, replaying)
    }

    constructor (bounds: (nat, nat), lastEventId: Option<int>)
      ensures State() == Opened(bounds.0, bounds.1, lastEventId)
    {
      var resume := lastEventId.Some? && bounds.1 <= lastEventId.value <= bounds.0;
      cursor := if resume then lastEventId.value else bounds.0;
      dirty, replaying := resume, resume;
      ready := if resume then [] else [Reset(bounds.0)];
    }

    /** `None` is an outbox that could not be read; a stream whose head cannot be read for a reset ends. */
    method Read(page: Option<seq<Row>>, headAfter: Option<nat>) returns (alive: bool)
      modifies this
      ensures page.None? ==> alive && State() == old(State()).(dirty := true)
      ensures page.Some? && Gap(old(State()), page.value) ==> alive == headAfter.Some?
      ensures page.Some? && Gap(old(State()), page.value) && alive ==> State() == ResetAt(old(State()), headAfter.value)
      ensures page.Some? && !Gap(old(State()), page.value) ==> alive && State() == ReadOn(old(State()), page.value)
    {
      var replay := replaying;
      dirty := false;
      if page.None? {
        dirty := true;
        return true;
      }
      var notes := page.value;
      if notes != [] && notes[0].id != cursor + 1 {
        alive := Lagged(headAfter);
        return;
      }
      var more := |notes| == PAGE;
      replaying, dirty := replay && more, more;
      if notes != [] {
        cursor := notes[|notes| - 1].id;
      }
      if !replay {
        notes := CoalescePage(notes);
      }
      ready := ready + Blocks(notes);
      alive := true;
    }

    method MissedWakes(head: Option<nat>, room: nat, headAfter: Option<nat>) returns (alive: bool)
      modifies this
      ensures head.None? ==> !alive
      ensures head.Some? && TooFarBehind(old(State()), head.value, room) ==> alive == headAfter.Some?
      ensures head.Some? && TooFarBehind(old(State()), head.value, room) && alive ==>
              State() == ResetAt(old(State()), headAfter.value)
      ensures head.Some? && !TooFarBehind(old(State()), head.value, room) ==>
              alive && State() == CaughtWakes(old(State()), head.value)
    {
      if head.None? {
        return false;
      }
      if head.value - cursor > room {
        alive := Lagged(headAfter);
        return;
      }
      dirty := dirty || head.value > cursor;
      alive := true;
    }

    method Lagged(head: Option<nat>) returns (alive: bool)
      modifies this
      ensures alive == head.Some?
      ensures if alive then State() == ResetAt(old(State()), head.value) else State() == old(State())
    {
      if head.None? {
        return false;
      }
      ready := ready + [Reset(head.value)];
      cursor, dirty, replaying := head.value, false, false;
      alive := true;
    }

    method Hear(wake: Wake)
      modifies this
      ensures State() == Heard(old(State()), wake)
    {
      dirty := dirty || Says(wake, cursor);
    }
  }

  // ----- what pages add up to ------------------------------------------------------------------------

  datatype Page = Page(rows: seq<Row>, verbatim: bool)

  function RowsOf(pages: seq<Page>): seq<Row> {
    if pages == [] then [] else RowsOf(pages[..|pages| - 1]) + pages[|pages| - 1].rows
  }

  function RenderAll(pages: seq<Page>): seq<Block> {
    if pages == [] then []
    else RenderAll(pages[..|pages| - 1]) + Rendered(pages[|pages| - 1].rows, pages[|pages| - 1].verbatim)
  }

  /** The committed notes of ids `base + 1` to `base + |rows|`, each once, in order, as they were written. */
  predicate Covers(rows: seq<Row>, history: seq<Note>, base: nat) {
    && base + |rows| <= |history|
    && forall i :: 0 <= i < |rows| ==> rows[i].id == base + 1 + i && rows[i].note == history[base + i]
  }

  predicate Ascending(blocks: seq<Block>) {
    && (forall i :: 0 <= i < |blocks| ==> blocks[i].NoteBlock?)
    && forall i, j :: 0 <= i < j < |blocks| ==> blocks[i].id < blocks[j].id
  }

  predicate Within(blocks: seq<Block>, low: nat, high: nat) {
    forall i :: 0 <= i < |blocks| ==> low < blocks[i].id <= high
  }

  lemma RenderedInOrder(rows: seq<Row>, verbatim: bool, history: seq<Note>, base: nat)
    requires Covers(rows, history, base)
    ensures var blocks := Rendered(rows, verbatim); Ascending(blocks) && Within(blocks, base, base + |rows|)
  {
    if !verbatim {
      SentInOrder(rows);
      forall k | 0 <= k < |Coalesced(rows)| ensures base < Coalesced(rows)[k].id <= base + |rows| {
        var i :| 0 <= i < |rows| && rows[i].id == Coalesced(rows)[k].id;
      }
    }
  }

  lemma CoversSplit(a: seq<Row>, b: seq<Row>, history: seq<Note>, base: nat)
    ensures Covers(a + b, history, base) <==> Covers(a, history, base) && Covers(b, history, base + |a|)
  {
    var all := a + b;
    if Covers(all, history, base) {
      assert forall i :: 0 <= i < |a| ==> a[i] == all[i];
      forall i | 0 <= i < |b| ensures b[i].id == base + |a| + 1 + i && b[i].note == history[base + |a| + i] {
        assert b[i] == all[|a| + i];
      }
    }
  }

  lemma AscendingConcat(a: seq<Block>, b: seq<Block>, low: nat, mid: nat, high: nat)
    requires Ascending(a) && Within(a, low, mid) && Ascending(b) && Within(b, mid, high) && low <= mid <= high
    ensures Ascending(a + b) && Within(a + b, low, high)
  {
  }

  lemma LastPage(pages: seq<Page>)
    requires pages != []
    ensures var before, page := pages[..|pages| - 1], pages[|pages| - 1];
            && RowsOf(pages) == RowsOf(before) + page.rows
            && RenderAll(pages) == RenderAll(before) + Rendered(page.rows, page.verbatim)
  {
  }

  lemma NoPages(pages: seq<Page>, base: nat)
    requires pages == []
    ensures RowsOf(pages) == [] && Ascending(RenderAll(pages)) && Within(RenderAll(pages), base, base)
  {
  }

  /** What a stream sends from its resume point or last reset: ids in order, each at most once. */
  lemma {:induction false} SentOnceInOrder(pages: seq<Page>, history: seq<Note>, base: nat)
    requires Covers(RowsOf(pages), history, base)
    ensures Ascending(RenderAll(pages)) && Within(RenderAll(pages), base, base + |RowsOf(pages)|)
  {
    hide *;
    if pages == [] {
      NoPages(pages, base);
    } else {
      var before, page := pages[..|pages| - 1], pages[|pages| - 1];
      var mid := base + |RowsOf(before)|;
      LastPage(pages);
      CoversSplit(RowsOf(before), page.rows, history, base);
      SentOnceInOrder(before, history, base);
      RenderedInOrder(page.rows, page.verbatim, history, mid);
      AscendingConcat(RenderAll(before), Rendered(page.rows, page.verbatim), base, mid, mid + |page.rows|);
    }
  }

  /** The block is the note itself, or for a thread its own or a later note. */
  predicate Tells(block: Block, note: Note, id: nat) {
    && block.NoteBlock?
    && if note.ThreadChanged? then block.id >= id && block.note.ThreadChanged? && KeyOf(block.note) == KeyOf(note)
       else block == NoteBlock(id, note)
  }

  /** Some block sent tells of note `id`. */
  predicate Told(blocks: seq<Block>, note: Note, id: nat) {
    exists i :: 0 <= i < |blocks| && Tells(blocks[i], note, id)
  }

  lemma RenderedTells(rows: seq<Row>, verbatim: bool, i: nat)
    requires Increasing(rows) && i < |rows|
    ensures Told(Rendered(rows, verbatim), rows[i].note, rows[i].id)
  {
    var blocks := Rendered(rows, verbatim);
    if verbatim {
      assert Tells(blocks[i], rows[i].note, rows[i].id);
    } else {
      var row := SentRow(rows, i);
      var sent := Coalesced(rows);
      var k :| 0 <= k < |sent| && sent[k] == row;
      assert Tells(blocks[k], rows[i].note, rows[i].id);
    }
  }

  lemma SentRow(rows: seq<Row>, i: nat) returns (row: Row)
    requires Increasing(rows) && i < |rows|
    ensures row in Coalesced(rows) && Tells(NoteBlock(row.id, row.note), rows[i].note, rows[i].id)
  {
    if rows[i].note.ThreadChanged? {
      var j := EveryThreadIsHeard(rows, i);
      row :| row in Coalesced(rows) && row.id == rows[j].id && Names(row, KeyOf(rows[i].note));
      assert rows[i].id <= rows[j].id;
    } else {
      WhatIsSent(rows, i);
      row := rows[i];
    }
  }

  lemma PageTells(page: Page, history: seq<Note>, base: nat, id: nat)
    requires Covers(page.rows, history, base) && base < id <= base + |page.rows|
    ensures Told(Rendered(page.rows, page.verbatim), history[id - 1], id)
  {
    RenderedTells(page.rows, page.verbatim, id - base - 1);
  }

  lemma ToldInLonger(a: seq<Block>, b: seq<Block>, note: Note, id: nat)
    requires Told(a, note, id) || Told(b, note, id)
    ensures Told(a + b, note, id)
  {
    if Told(a, note, id) {
      var i :| 0 <= i < |a| && Tells(a[i], note, id);
      assert (a + b)[i] == a[i];
    } else {
      var i :| 0 <= i < |b| && Tells(b[i], note, id);
      assert (a + b)[|a| + i] == b[i];
    }
  }

  /** Every committed id the cursor has passed was told. */
  lemma {:induction false} EveryIdIsTold(pages: seq<Page>, history: seq<Note>, base: nat, id: nat)
    requires Covers(RowsOf(pages), history, base) && base < id <= base + |RowsOf(pages)|
    ensures Told(RenderAll(pages), history[id - 1], id)
  {
    var before, page := pages[..|pages| - 1], pages[|pages| - 1];
    CoversSplit(RowsOf(before), page.rows, history, base);
    if id <= base + |RowsOf(before)| {
      EveryIdIsTold(before, history, base, id);
    } else {
      PageTells(page, history, base + |RowsOf(before)|, id);
    }
    ToldInLonger(RenderAll(before), Rendered(page.rows, page.verbatim), history[id - 1], id);
  }
}
