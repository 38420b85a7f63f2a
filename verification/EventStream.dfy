/**
 The events stream end to end, for one account: transactions on the outbox, the process's one listening
 connection, the account's room, and any number of streams that open, read, miss wakes, reset and leave.

 Wakes are unreliable here: an announcement made while the listener is not connected is lost, a room drops those
 a slow stream did not take, and a page may be read long after one. Steps name everything that is
 not determined.
 */
module EventStream {
  import opened Common
  import opened Outbox
  import opened Follow

  /**
   A stream takes its seat, reads the bounds, and then follows. `Missed` and `Resetting` are between a read
   of the head and what it decides; `Leaving` has given up its room and not yet its seat.
   */
  datatype Phase = Opening | Following | Missed | Resetting | Leaving | Closed

  /**
   `room` and `pos` are the seat: which room, and how many of its wakes were taken. `out` is every block ever
   queued for the client. Since `base`, the resume point or the last reset, `pages` were read and `out[mark..]`
   was queued for them.
   */
  datatype Stream = Stream(
    phase: Phase, room: nat, pos: nat, asked: Option<int>, at: Value,
    out: seq<Block>, mark: nat, base: nat, pages: seq<Page>)

  datatype System = System(
    outbox: Outbox.State,
    listening: bool, connected: bool, resyncDue: bool, queue: seq<nat>,
    rooms: seq<seq<Wake>>, current: Option<nat>,
    streams: seq<Stream>)

  datatype Step =
    | OutboxStep(inner: Outbox.Step)
    | Connect
    | WakeAll
    | SpareWakeAll
    | Receive
    | Blip
    | Disconnect
    | Open(asked: Option<int>)
    | OpenFails(stream: nat)
    | ReadBounds(stream: nat)
    | Hear(stream: nat, lagged: nat)
    | CheckHead(stream: nat, room: nat)
    | DoReset(stream: nat)
    | ReadPage(stream: nat)
    | ReadFails(stream: nat)
    | Poll(stream: nat)
    | Pop(stream: nat)
    | Leave(stream: nat)
    | DropSeat(stream: nat)

  const INITIAL := System(Outbox.START, false, false, false, [], [], None, [])

  // ----- the hub -----------------------------------------------------------------------------------------

  predicate Seated(st: Stream, room: nat) {
    !st.phase.Closed? && st.room == room
  }

  /** A room's receivers: every seat not yet dropped. */
  function Receivers(streams: seq<Stream>, room: nat): nat {
    if streams == [] then 0
    else Receivers(streams[..|streams| - 1], room) + if Seated(streams[|streams| - 1], room) then 1 else 0
  }

  /** Send to the account's room; a room nobody holds is dropped. */
  function Send(s: System, wake: Wake): System {
    if s.current.None? || s.current.value >= |s.rooms| then s
    else
      var r := s.current.value;
      if Receivers(s.streams, r) == 0 then s.(current := None)
      else s.(rooms := s.rooms[r := s.rooms[r] + [wake]])
  }

  /** A new stream joins `current`, or a new room if there is none, and the listener is on from now. */
  function TakeSeat(s: System, asked: Option<int>): System {
    var made := if s.current.Some? && s.current.value < |s.rooms| then s
                else s.(rooms := s.rooms + [[]], current := Some(|s.rooms|));
    var r := made.current.value;
    made.(listening := true,
          streams := made.streams +
            [Stream(Opening, r, |made.rooms[r]|, asked, Value(0, [], false, false), [], 0, 0, [])])
  }

  /** `current` is forgotten when no seat but the leaver's own is in it. */
  function GiveUpRoom(s: System): System {
    if s.current.Some? && Receivers(s.streams, s.current.value) <= 1 then s.(current := None) else s
  }

  // ----- the outbox and the listener ------------------------------------------------------------------------

  /** A commit's announcement reaches a listening connection, and nobody else. */
  function StepOutbox(s: System, inner: Outbox.Step): System {
    var after := Outbox.Exec(s.outbox, inner);
    var moved := |after.history| > |s.outbox.history|;
    s.(outbox := after, queue := if moved && s.connected then s.queue + [|after.history|] else s.queue)
  }

  function StepListener(s: System, step: Step): System {
    match step
    case Connect => if s.listening && !s.connected then s.(connected := true, resyncDue := true, queue := []) else s
    case WakeAll => if s.connected && s.resyncDue then Send(s, Resync).(resyncDue := false) else s
    case SpareWakeAll => Send(s, Resync)
    case Receive =>
      if s.connected && !s.resyncDue && s.queue != [] then Send(s, Moved(s.queue[0])).(queue := s.queue[1..]) else s
    case Blip => if s.connected then s.(queue := [], resyncDue := true) else s
    case Disconnect => s.(connected := false, queue := [])
    case _ => s
  }

  // ----- one stream -------------------------------------------------------------------------------------------

  function Queue(st: Stream, at: Value, blocks: seq<Block>): Stream {
    st.(at := at, out := st.out + blocks)
  }

  /** After a reset `base` is the new cursor, and `pages` and `out[mark..]` begin again. */
  function AfterReset(st: Stream, at: Value): Stream {
    var told := Queue(st, at, [Reset(at.cursor)]);
    told.(phase := Following, mark := |told.out|, base := at.cursor, pages := [])
  }

  function OnBounds(s: System, st: Stream): Stream {
    if !st.phase.Opening? then st
    else
      var bounds := Bounds(s.outbox.table, s.outbox.clock);
      var at := Opened(bounds.0, bounds.1, st.asked);
      if at.ready == [] then st.(phase := Following, at := at, base := at.cursor) else AfterReset(st, at)
  }

  /** Take the next wake, or be told that the room dropped some: then the head is asked for. */
  function OnWake(s: System, st: Stream, lagged: nat): Stream {
    if !st.phase.Following? || st.room >= |s.rooms| || st.pos >= |s.rooms[st.room]| then st
    else if st.pos < lagged <= |s.rooms[st.room]| then st.(phase := Missed, pos := lagged)
    else st.(pos := st.pos + 1, at := Heard(st.at, s.rooms[st.room][st.pos]))
  }

  function OnMissed(st: Stream, head: nat, room: nat): Stream {
    if !st.phase.Missed? then st
    else if TooFarBehind(st.at, head, room) then st.(phase := Resetting)
    else st.(phase := Following, at := CaughtWakes(st.at, head))
  }

  function OnReset(st: Stream, head: nat): Stream {
    if st.phase.Resetting? then AfterReset(st, ResetAt(st.at, head)) else st
  }

  function OnPage(st: Stream, rows: seq<Row>): Stream {
    if !st.phase.Following? || !st.at.dirty then st
    else if Gap(st.at, rows) then st.(phase := Resetting)
    else
      var read := Queue(st, ReadOn(st.at, rows), Rendered(rows, st.at.replaying));
      read.(pages := st.pages + [Follow.Page(rows, st.at.replaying)])
  }

  function OnPoll(st: Stream): Stream {
    if st.phase.Following? then st.(at := st.at.(dirty := true)) else st
  }

  function OnPop(st: Stream): Stream {
    if st.phase.Following? && st.at.ready != [] then st.(at := st.at.(ready := st.at.ready[1..])) else st
  }

  function StepStream(s: System, st: Stream, step: Step): Stream {
    match step
    case OpenFails(_) => if st.phase.Opening? then st.(phase := Closed) else st
    case ReadBounds(_) => OnBounds(s, st)
    case Hear(_, lagged) => OnWake(s, st, lagged)
    case CheckHead(_, room) => OnMissed(st, Head(s.outbox.table), room)
    case DoReset(_) => OnReset(st, Head(s.outbox.table))
    case ReadPage(_) => OnPage(st, Outbox.Page(s.outbox.table, st.at.cursor, PAGE))
    case ReadFails(_) => OnPoll(st)
    case Poll(_) => OnPoll(st)
    case Pop(_) => OnPop(st)
    case DropSeat(_) => if st.phase.Leaving? then st.(phase := Closed) else st
    case _ => st
  }

  predicate IsLive(st: Stream) {
    st.phase.Opening? || st.phase.Following? || st.phase.Missed? || st.phase.Resetting?
  }

  /** A stream goes away: it gives up its room, and still holds its seat until it is dropped. */
  function LeaveRoom(s: System, k: nat): System
    requires k < |s.streams|
  {
    if !IsFollowing(s.streams[k]) then s
    else GiveUpRoom(s).(streams := s.streams[k := s.streams[k].(phase := Leaving)])
  }

  function StepOne(s: System, k: nat, step: Step): System
    requires k < |s.streams|
  {
    if step.Leave? then LeaveRoom(s, k)
    else s.(streams := s.streams[k := StepStream(s, s.streams[k], step)])
  }

  predicate OfStream(step: Step) {
    !step.OutboxStep? && !step.Connect? && !step.WakeAll? && !step.SpareWakeAll? && !step.Receive? && !step.Blip? &&
    !step.Disconnect? && !step.Open?
  }

  function Exec(s: System, step: Step): System {
    if step.OutboxStep? then StepOutbox(s, step.inner)
    else if step.Open? then TakeSeat(s, step.asked)
    else if OfStream(step) then (if step.stream < |s.streams| then StepOne(s, step.stream, step) else s)
    else StepListener(s, step)
  }

  function ExecAll(s: System, steps: seq<Step>): System
    decreases |steps|
  {
    if steps == [] then s else ExecAll(Exec(s, steps[0]), steps[1..])
  }

  // ----- what is kept ---------------------------------------------------------------------------------------------

  predicate IsFollowing(st: Stream) {
    st.phase.Following? || st.phase.Missed? || st.phase.Resetting?
  }

  /**
   The cursor covers every committed id since the base, in order, once, with no gap; what was queued for the
   client since then is exactly those pages; and the base is the id it asked for, or that of a reset it was told.
   */
  ghost predicate Exact(st: Stream, history: seq<Note>) {
    && Reads(st.base, st.at.cursor, st.pages, history)
    && Queued(st.out, st.mark, st.pages)
    && Based(st.asked, st.base, st.out, st.mark)
    && Suffix(st.at.ready, st.out)
    && (st.at.replaying ==> st.mark == 0 && AllVerbatim(st.pages))
  }

  ghost predicate Reads(base: nat, cursor: nat, pages: seq<Page>, history: seq<Note>) {
    cursor == base + |RowsOf(pages)| && Covers(RowsOf(pages), history, base)
  }

  ghost predicate Queued(out: seq<Block>, mark: nat, pages: seq<Page>) {
    mark <= |out| && out[mark..] == RenderAll(pages)
  }

  predicate Based(asked: Option<int>, base: nat, out: seq<Block>, mark: nat) {
    mark <= |out| && if mark == 0 then asked == Some(base) else out[mark - 1] == Reset(base)
  }

  predicate Suffix(ready: seq<Block>, out: seq<Block>) {
    |ready| <= |out| && ready == out[|out| - |ready|..]
  }

  predicate AllVerbatim(pages: seq<Page>) {
    forall i :: 0 <= i < |pages| ==> pages[i].verbatim
  }

  /** A wake this stream has not taken says more than its cursor has, whether the room still holds it or dropped it. */
  predicate WakePending(st: Stream, rooms: seq<seq<Wake>>)
    requires st.room < |rooms| && st.pos <= |rooms[st.room]|
  {
    exists i :: st.pos <= i < |rooms[st.room]| && Says(rooms[st.room][i], st.at.cursor)
  }

  predicate Announced(queue: seq<nat>, cursor: nat) {
    exists i :: 0 <= i < |queue| && queue[i] > cursor
  }

  /** A stream behind the head knows, or will be told. */
  predicate NotLost(s: System, st: Stream)
    requires st.room < |s.rooms| && st.pos <= |s.rooms[st.room]|
  {
    Head(s.outbox.table) > st.at.cursor ==>
      || st.at.dirty || st.phase.Missed? || st.phase.Resetting?
      || WakePending(st, s.rooms)
      || (s.connected && Announced(s.queue, st.at.cursor))
      || (s.listening && (!s.connected || s.resyncDue))
  }

  ghost predicate StreamOk(s: System, st: Stream) {
    && st.room < |s.rooms| && st.pos <= |s.rooms[st.room]|
    && (IsLive(st) ==> s.current == Some(st.room))
    && (st.phase.Opening? ==> st.out == [] && st.mark == 0 && st.pages == [])
    && (IsFollowing(st) ==> Exact(st, s.outbox.history) && NotLost(s, st))
  }

  ghost predicate Inv(s: System) {
    && Outbox.Inv(s.outbox)
    && (s.current.Some? ==> s.current.value < |s.rooms|)
    && (s.streams != [] ==> s.listening)
    && forall k :: 0 <= k < |s.streams| ==> StreamOk(s, s.streams[k])
  }

  // ----- receivers -------------------------------------------------------------------------------------------------

  lemma {:induction false} SeatCounts(streams: seq<Stream>, room: nat, k: nat)
    requires k < |streams| && Seated(streams[k], room)
    ensures Receivers(streams, room) >= 1
  {
    var n := |streams| - 1;
    if k < n {
      SeatCounts(streams[..n], room, k);
    }
  }

  lemma {:induction false} TwoSeatsCount(streams: seq<Stream>, room: nat, j: nat, k: nat)
    requires j < k < |streams| && Seated(streams[j], room) && Seated(streams[k], room)
    ensures Receivers(streams, room) >= 2
  {
    var n := |streams| - 1;
    if k < n {
      TwoSeatsCount(streams[..n], room, j, k);
    } else {
      SeatCounts(streams[..n], room, j);
    }
  }

  // ----- each step keeps it ----------------------------------------------------------------------------------------

  lemma CoversLonger(rows: seq<Row>, history: seq<Note>, longer: seq<Note>, base: nat)
    requires Covers(rows, history, base) && history <= longer
    ensures Covers(rows, longer, base)
  {
  }

  lemma OutboxStepKeepsInv(s: System, inner: Outbox.Step)
    requires Inv(s)
    ensures Inv(StepOutbox(s, inner))
  {
    Outbox.ExecKeepsInv(s.outbox, inner);
    var t := StepOutbox(s, inner);
    forall k | 0 <= k < |t.streams| ensures StreamOk(t, t.streams[k]) {
      var st := s.streams[k];
      assert StreamOk(s, st);
      if IsFollowing(st) {
        CoversLonger(RowsOf(st.pages), s.outbox.history, t.outbox.history, st.base);
        AnnouncedStays(s, t, st);
      }
    }
  }

  lemma AnnouncedStays(s: System, t: System, st: Stream)
    requires st.room < |s.rooms| && st.pos <= |s.rooms[st.room]| && NotLost(s, st)
    requires t.rooms == s.rooms && t.listening && t.listening == s.listening && t.connected == s.connected &&
            t.resyncDue == s.resyncDue
    requires Head(s.outbox.table) <= Head(t.outbox.table)
    requires var moved := Head(s.outbox.table) < Head(t.outbox.table);
             t.queue == if moved && s.connected then s.queue + [Head(t.outbox.table)] else s.queue
    ensures NotLost(t, st)
  {
    if Head(t.outbox.table) > st.at.cursor && s.connected {
      if Head(s.outbox.table) < Head(t.outbox.table) {
        assert t.queue[|s.queue|] > st.at.cursor;
      }
    }
  }

  /** A wake sent to the room is pending for every stream that holds a seat there. */
  lemma SendReaches(s: System, wake: Wake, k: nat)
    requires Inv(s) && k < |s.streams|
    ensures var t, st := Send(s, wake), s.streams[k];
            && st.room < |t.rooms| && st.pos <= |t.rooms[st.room]|
            && (IsLive(st) ==> t.current == Some(st.room))
            && (WakePending(st, s.rooms) ==> WakePending(st, t.rooms))
            && (IsLive(st) && Says(wake, st.at.cursor) ==> WakePending(st, t.rooms))
  {
    var t, st := Send(s, wake), s.streams[k];
    assert StreamOk(s, st);
    if IsLive(st) {
      SeatCounts(s.streams, st.room, k);
      assert t.rooms[st.room][|s.rooms[st.room]|] == wake;
    }
    if WakePending(st, s.rooms) {
      var i :| st.pos <= i < |s.rooms[st.room]| && Says(s.rooms[st.room][i], st.at.cursor);
      assert t.rooms[st.room][i] == s.rooms[st.room][i];
    }
  }

  lemma AnnouncedShrinks(queue: seq<nat>, cursor: nat)
    requires queue != [] && Announced(queue, cursor)
    ensures Announced(queue[1..], cursor) || queue[0] > cursor
  {
    var i :| 0 <= i < |queue| && queue[i] > cursor;
    assert i > 0 ==> queue[1..][i - 1] == queue[i];
  }

  lemma ListenerStepKeepsOk(s: System, step: Step, k: nat)
    requires Inv(s) && !OfStream(step) && !step.OutboxStep? && !step.Open? && k < |s.streams|
    ensures StreamOk(StepListener(s, step), s.streams[k])
  {
    hide Exact, Receivers, WakePending, Announced, Outbox.Inv;
    var st := s.streams[k];
    assert StreamOk(s, st);
    match step
    case WakeAll => SendReaches(s, Resync, k);
    case SpareWakeAll => SendReaches(s, Resync, k);
    case Receive =>
      if s.queue != [] {
        SendReaches(s, Moved(s.queue[0]), k);
        if Announced(s.queue, st.at.cursor) {
          AnnouncedShrinks(s.queue, st.at.cursor);
        }
      }
    case _ =>
  }

  lemma ListenerStepKeepsInv(s: System, step: Step)
    requires Inv(s) && !OfStream(step) && !step.OutboxStep? && !step.Open?
    ensures Inv(StepListener(s, step))
  {
    hide StreamOk, Receivers, Outbox.Inv;
    var t := StepListener(s, step);
    forall k | 0 <= k < |t.streams| ensures StreamOk(t, t.streams[k]) {
      ListenerStepKeepsOk(s, step, k);
    }
  }

  lemma OpenKeepsInv(s: System, asked: Option<int>)
    requires Inv(s)
    ensures Inv(TakeSeat(s, asked))
  {
    var t := TakeSeat(s, asked);
    forall k | 0 <= k < |t.streams| ensures StreamOk(t, t.streams[k]) {
      if k < |s.streams| {
        var st := s.streams[k];
        assert t.streams[k] == st && StreamOk(s, st);
        assert t.rooms[st.room] == s.rooms[st.room];
      }
    }
  }

  lemma SuffixGrows(ready: seq<Block>, out: seq<Block>, more: seq<Block>)
    requires Suffix(ready, out)
    ensures Suffix(ready + more, out + more)
  {
    assert (out + more)[|out| - |ready|..] == out[|out| - |ready|..] + more;
  }

  lemma ResetIsExact(st: Stream, at: Value, history: seq<Note>)
    requires Suffix(at.ready, st.out) && at.cursor <= |history| && !at.replaying
    ensures Exact(AfterReset(st, at.(ready := at.ready + [Reset(at.cursor)])), history)
  {
    SuffixGrows(at.ready, st.out, [Reset(at.cursor)]);
    var r := AfterReset(st, at.(ready := at.ready + [Reset(at.cursor)]));
    assert r.out[r.mark..] == [];
  }

  lemma PageKeepsOk(s: System, st: Stream)
    requires Inv(s) && StreamOk(s, st)
    ensures StreamOk(s, OnPage(st, Outbox.Page(s.outbox.table, st.at.cursor, PAGE)))
  {
    hide Reads, Queued, Based, Suffix, WakePending, Announced, Outbox.Page, Outbox.TxnFits, Rendered, AllVerbatim;
    var history, rows := s.outbox.history, Outbox.Page(s.outbox.table, st.at.cursor, PAGE);
    if st.phase.Following? && st.at.dirty {
      ReadsWithin(st, history);
      PageMeaning(s.outbox.table, history, s.outbox.clock, st.at.cursor, PAGE);
      if !Gap(st.at, rows) {
        NextPageCovers(rows, history, st.at.cursor, Outbox.Max(st.at.cursor, Floor(s.outbox.table)));
        PageCovers(st, rows, history);
      }
    }
  }

  lemma ReadsWithin(st: Stream, history: seq<Note>)
    requires Exact(st, history)
    ensures st.at.cursor <= |history|
  {
  }

  lemma NextPageCovers(rows: seq<Row>, history: seq<Note>, cursor: nat, after: nat)
    requires IsPage(rows, history, after, PAGE) && after >= cursor && (rows == [] || rows[0].id == cursor + 1)
    requires rows == [] ==> cursor == |history|
    ensures Covers(rows, history, cursor) && (|rows| < PAGE ==> cursor + |rows| == |history|)
  {
  }

  lemma SliceGrows(out: seq<Block>, mark: nat, more: seq<Block>)
    requires mark <= |out|
    ensures (out + more)[mark..] == out[mark..] + more
  {
  }

  lemma QueuedGrows(out: seq<Block>, mark: nat, pages: seq<Page>, page: Page, blocks: seq<Block>)
    requires Queued(out, mark, pages) && blocks == Rendered(page.rows, page.verbatim)
    ensures Queued(out + blocks, mark, pages + [page])
  {
    assert (pages + [page])[..|pages|] == pages;
    SliceGrows(out, mark, blocks);
  }

  lemma ReadsGrows(base: nat, cursor: nat, pages: seq<Page>, page: Page, history: seq<Note>)
    requires Reads(base, cursor, pages, history) && Covers(page.rows, history, cursor)
    ensures Reads(base, cursor + |page.rows|, pages + [page], history)
  {
    assert (pages + [page])[..|pages|] == pages;
    CoversSplit(RowsOf(pages), page.rows, history, base);
  }

  lemma BasedGrows(asked: Option<int>, base: nat, out: seq<Block>, mark: nat, more: seq<Block>)
    requires Based(asked, base, out, mark)
    ensures Based(asked, base, out + more, mark)
  {
  }

  lemma VerbatimGrows(pages: seq<Page>, page: Page)
    requires AllVerbatim(pages) && page.verbatim
    ensures AllVerbatim(pages + [page])
  {
  }

  /** A page that begins right after the cursor extends what the stream covers. */
  lemma PageCovers(st: Stream, rows: seq<Row>, history: seq<Note>)
    requires st.phase.Following? && st.at.dirty && Exact(st, history) && Covers(rows, history, st.at.cursor)
    ensures Exact(OnPage(st, rows), history) && OnPage(st, rows).at.cursor == st.at.cursor + |rows|
  {
    hide Reads, Queued, Based, Suffix, AllVerbatim, Rendered;
    var page, blocks := Follow.Page(rows, st.at.replaying), Rendered(rows, st.at.replaying);
    ReadsGrows(st.base, st.at.cursor, st.pages, page, history);
    QueuedGrows(st.out, st.mark, st.pages, page, blocks);
    SuffixGrows(st.at.ready, st.out, blocks);
    BasedGrows(st.asked, st.base, st.out, st.mark, blocks);
    if st.at.replaying {
      VerbatimGrows(st.pages, page);
    }
    assert OnPage(st, rows).at.cursor == st.at.cursor + |rows|;
  }

  lemma BoundsKeepOk(s: System, st: Stream)
    requires Inv(s) && StreamOk(s, st)
    ensures StreamOk(s, OnBounds(s, st))
  {
    if st.phase.Opening? {
      var bounds := Bounds(s.outbox.table, s.outbox.clock);
      var at := Opened(bounds.0, bounds.1, st.asked);
      assert bounds.0 == |s.outbox.history|;
      if at.ready != [] {
        assert at.ready == [] + [Reset(at.cursor)];
        ResetIsExact(st, at.(ready := []), s.outbox.history);
      }
    }
  }

  lemma ResetKeepsOk(s: System, st: Stream)
    requires Inv(s) && StreamOk(s, st)
    ensures StreamOk(s, OnReset(st, Head(s.outbox.table)))
  {
    if st.phase.Resetting? {
      ResetIsExact(st, Value(Head(s.outbox.table), st.at.ready, false, false), s.outbox.history);
    }
  }

  lemma WakeKeepsOk(s: System, st: Stream, lagged: nat)
    requires StreamOk(s, st)
    ensures StreamOk(s, OnWake(s, st, lagged))
  {
    var after := OnWake(s, st, lagged);
    if after != st {
      assert Exact(after, s.outbox.history);
      TakenWakeIsHeard(s, st, lagged);
    }
  }

  lemma TakenWakeIsHeard(s: System, st: Stream, lagged: nat)
    requires st.room < |s.rooms| && st.pos < |s.rooms[st.room]| && st.phase.Following? && NotLost(s, st)
    ensures NotLost(s, OnWake(s, st, lagged))
  {
    var after := OnWake(s, st, lagged);
    if !after.at.dirty && after.phase.Following? && WakePending(st, s.rooms) {
      var i :| st.pos <= i < |s.rooms[st.room]| && Says(s.rooms[st.room][i], st.at.cursor);
      assert after.pos <= i;
    }
  }

  lemma SuffixShrinks(ready: seq<Block>, out: seq<Block>)
    requires Suffix(ready, out) && ready != []
    ensures Suffix(ready[1..], out)
  {
  }

  lemma PopKeepsOk(s: System, st: Stream)
    requires StreamOk(s, st)
    ensures StreamOk(s, OnPop(st))
  {
    if st.phase.Following? && st.at.ready != [] {
      SuffixShrinks(st.at.ready, st.out);
    }
  }

  lemma MissedKeepsOk(s: System, st: Stream, room: nat)
    requires Inv(s) && StreamOk(s, st)
    ensures StreamOk(s, OnMissed(st, Head(s.outbox.table), room))
  {
    hide WakePending, Announced, Reads, Queued, Based, Suffix;
  }

  lemma PollKeepsOk(s: System, st: Stream)
    requires StreamOk(s, st)
    ensures StreamOk(s, OnPoll(st)) && StreamOk(s, st.(phase := Closed))
  {
    hide WakePending, Announced, Reads, Queued, Based, Suffix;
  }

  /** A step of a stream, on the stream itself. */
  lemma StreamStepKeepsOk(s: System, st: Stream, step: Step)
    requires Inv(s) && OfStream(step) && StreamOk(s, st)
    ensures StreamOk(s, StepStream(s, st, step))
  {
    hide StreamOk, Inv, OnBounds, OnWake, OnMissed, OnReset, OnPage, OnPop, OnPoll, Outbox.Page, Head;
    match step
    case ReadBounds(_) => BoundsKeepOk(s, st);
    case Hear(_, lagged) => WakeKeepsOk(s, st, lagged);
    case CheckHead(_, room) => MissedKeepsOk(s, st, room);
    case DoReset(_) => ResetKeepsOk(s, st);
    case ReadPage(_) => PageKeepsOk(s, st);
    case Pop(_) => PopKeepsOk(s, st);
    case _ => PollKeepsOk(s, st);
  }

  lemma LeaveKeepsInv(s: System, k: nat)
    requires Inv(s) && k < |s.streams|
    ensures Inv(LeaveRoom(s, k))
  {
    hide Exact, Receivers, WakePending, Announced, Outbox.Inv;
    var t, st := LeaveRoom(s, k), s.streams[k];
    assert StreamOk(s, st);
    forall j | 0 <= j < |t.streams| ensures StreamOk(t, t.streams[j]) {
      assert StreamOk(s, s.streams[j]);
      if j != k && IsFollowing(st) && IsLive(s.streams[j]) {
        TwoSeatsCount(s.streams, st.room, if j < k then j else k, if j < k then k else j);
      }
    }
  }

  lemma StepOneKeepsInv(s: System, k: nat, step: Step)
    requires Inv(s) && OfStream(step) && k < |s.streams|
    ensures Inv(StepOne(s, k, step))
  {
    if step.Leave? {
      LeaveKeepsInv(s, k);
    } else {
      var after := StepStream(s, s.streams[k], step);
      StreamStepKeepsOk(s, s.streams[k], step);
      OthersUntouched(s, k, after);
    }
  }

  lemma OthersUntouched(s: System, k: nat, after: Stream)
    requires Inv(s) && k < |s.streams| && StreamOk(s, after)
    ensures Inv(s.(streams := s.streams[k := after]))
  {
    var t := s.(streams := s.streams[k := after]);
    forall j | 0 <= j < |t.streams| ensures StreamOk(t, t.streams[j]) {
      assert StreamOk(s, t.streams[j]);
    }
  }

  lemma ExecKeepsInv(s: System, step: Step)
    requires Inv(s)
    ensures Inv(Exec(s, step))
  {
    if step.OutboxStep? {
      OutboxStepKeepsInv(s, step.inner);
    } else if step.Open? {
      OpenKeepsInv(s, step.asked);
    } else if OfStream(step) {
      if step.stream < |s.streams| {
        StepOneKeepsInv(s, step.stream, step);
      }
    } else {
      ListenerStepKeepsInv(s, step);
    }
  }

  lemma {:induction false} ExecAllKeepsInv(s: System, steps: seq<Step>)
    requires Inv(s)
    ensures Inv(ExecAll(s, steps))
    decreases |steps|
  {
    if steps != [] {
      ExecKeepsInv(s, steps[0]);
      ExecAllKeepsInv(Exec(s, steps[0]), steps[1..]);
    }
  }

  // ----- what it comes to ------------------------------------------------------------------------------------------

  /**
   Over every run: each following stream's cursor covers every committed id since its resume point or last
   reset, in order, once, with no gap; and if the head is above it, it knows or will be told. No live stream's
   room is ever dropped from the hub.
   */
  lemma EveryStreamIsExact(steps: seq<Step>, k: nat)
    requires k < |ExecAll(INITIAL, steps).streams|
    ensures var s := ExecAll(INITIAL, steps); var st := s.streams[k];
            && (IsLive(st) ==> s.current == Some(st.room))
            && st.room < |s.rooms| && st.pos <= |s.rooms[st.room]|
            && (IsFollowing(st) ==> Exact(st, s.outbox.history) && NotLost(s, st))
  {
    ExecAllKeepsInv(INITIAL, steps);
    var s := ExecAll(INITIAL, steps);
    assert StreamOk(s, s.streams[k]);
  }

  /** What was queued since the base: ids in order, each at most once, all of them since the base. */
  ghost predicate InOrder(st: Stream) {
    st.mark <= |st.out| && Ascending(st.out[st.mark..]) && Within(st.out[st.mark..], st.base, st.at.cursor)
  }

  /** Note `id` is committed, and a block queued since the base tells of it. */
  ghost predicate WasTold(st: Stream, history: seq<Note>, id: nat) {
    st.mark <= |st.out| && 0 < id <= |history| && Told(st.out[st.mark..], history[id - 1], id)
  }

  lemma ExactTells(st: Stream, history: seq<Note>, id: nat)
    requires Exact(st, history)
    ensures InOrder(st)
    ensures st.base < id <= st.at.cursor ==> WasTold(st, history, id)
  {
    hide Ascending, Within, Told, RowsOf, RenderAll, Suffix, Based;
    SentOnceInOrder(st.pages, history, st.base);
    if st.base < id <= st.at.cursor {
      EveryIdIsTold(st.pages, history, st.base, id);
    }
  }

  /** Every id between the base and the cursor was told to the client since the base, and ids only went up. */
  lemma NothingSkippedOrRepeated(steps: seq<Step>, k: nat, id: nat)
    requires k < |ExecAll(INITIAL, steps).streams| && IsFollowing(ExecAll(INITIAL, steps).streams[k])
    ensures var s := ExecAll(INITIAL, steps); var st := s.streams[k];
            InOrder(st) && (st.base < id <= st.at.cursor ==> WasTold(st, s.outbox.history, id))
  {
    hide ExecAll, Exact, NotLost, InOrder, WasTold;
    EveryStreamIsExact(steps, k);
    var s := ExecAll(INITIAL, steps);
    ExactTells(s.streams[k], s.outbox.history, id);
  }

  /** Every note since the id it was asked for, as written. */
  ghost predicate Verbatim(st: Stream, history: seq<Note>) {
    && st.asked == Some(st.base) && st.base <= st.at.cursor <= |history|
    && |st.out| == st.at.cursor - st.base
    && forall i :: 0 <= i < |st.out| ==> st.out[i] == NoteBlock(st.base + 1 + i, history[st.base + i])
  }

  lemma ReplayingIsVerbatim(st: Stream, history: seq<Note>)
    requires Exact(st, history) && st.at.replaying
    ensures Verbatim(st, history)
  {
    hide RowsOf, RenderAll, Suffix;
    assert st.out[0..] == st.out;
    VerbatimPages(st.pages);
  }

  /** While it replays, a stream has sent every note since the id it was asked for, as written. */
  lemma ReplayIsVerbatim(steps: seq<Step>, k: nat)
    requires k < |ExecAll(INITIAL, steps).streams|
    requires var st := ExecAll(INITIAL, steps).streams[k]; IsFollowing(st) && st.at.replaying
    ensures var s := ExecAll(INITIAL, steps); Verbatim(s.streams[k], s.outbox.history)
  {
    hide ExecAll, Exact, NotLost, Verbatim;
    EveryStreamIsExact(steps, k);
    var s := ExecAll(INITIAL, steps);
    ReplayingIsVerbatim(s.streams[k], s.outbox.history);
  }

  lemma {:induction false} VerbatimPages(pages: seq<Page>)
    requires AllVerbatim(pages)
    ensures RenderAll(pages) == Blocks(RowsOf(pages))
  {
    if pages != [] {
      var before, page := pages[..|pages| - 1], pages[|pages| - 1];
      VerbatimPages(before);
      BlocksConcat(RowsOf(before), page.rows);
    }
  }

  lemma BlocksConcat(a: seq<Row>, b: seq<Row>)
    ensures Blocks(a + b) == Blocks(a) + Blocks(b)
  {
  }

  /**
   A read takes the next 500 notes, or as many as there are: none means that the stream is caught up, and one that
   finds a pruned gap always resets.
   */
  lemma ReadIsHonest(steps: seq<Step>, k: nat)
    requires k < |ExecAll(INITIAL, steps).streams|
    requires var st := ExecAll(INITIAL, steps).streams[k]; st.phase.Following? && st.at.dirty
    ensures var s, t := ExecAll(INITIAL, steps), Exec(ExecAll(INITIAL, steps), ReadPage(k));
            var head, from, to := |s.outbox.history|, s.streams[k].at.cursor, t.streams[k].at.cursor;
            if from < Floor(s.outbox.table) then t.streams[k].phase.Resetting?
            else t.streams[k].phase.Following? && to == if head - from < 500 then head else from + 500
  {
    hide ExecAll, Queued, Based, Suffix, NotLost;
    EveryStreamIsExact(steps, k);
    ExecAllKeepsInv(INITIAL, steps);
    var s := ExecAll(INITIAL, steps);
    hide Rendered, Outbox.Page;
    PageMeaning(s.outbox.table, s.outbox.history, s.outbox.clock, s.streams[k].at.cursor, PAGE);
  }
}
