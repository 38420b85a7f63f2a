/**
 The account's room: who holds it, what is said in it, and who gives it up. Said of the seats themselves, where the
 hub counts receivers.
 */
module Rooms {
  import opened Common
  import opened Follow
  import opened EventStream
  import opened EventProgress
  import Outbox

  /** Some stream but `k` has not dropped its seat in `room`. */
  ghost predicate HeldBesides(s: System, room: nat, k: int) {
    exists j :: 0 <= j < |s.streams| && j != k && s.streams[j].phase != Closed && s.streams[j].room == room
  }

  lemma {:induction false} NobodyElseCounts(streams: seq<Stream>, room: nat, k: int)
    requires forall j :: 0 <= j < |streams| && j != k ==> streams[j].phase == Closed || streams[j].room != room
    ensures Receivers(streams, room) <= if 0 <= k < |streams| then 1 else 0
    decreases |streams|
  {
    if streams != [] {
      NobodyElseCounts(streams[..|streams| - 1], room, k);
    }
  }

  lemma SeatsCount(s: System, room: nat, k: nat)
    requires k < |s.streams| && s.streams[k].phase != Closed && s.streams[k].room == room
    ensures Receivers(s.streams, room) >= 1
    ensures Receivers(s.streams, room) <= 1 <==> !HeldBesides(s, room, k)
  {
    SeatCounts(s.streams, room, k);
    if j :| 0 <= j < |s.streams| && j != k && s.streams[j].phase != Closed && s.streams[j].room == room {
      TwoSeatsCount(s.streams, room, if j < k then j else k, if j < k then k else j);
    } else {
      NobodyElseCounts(s.streams, room, k);
    }
    hide Receivers;
  }

  /**
   In every reachable state, an opening stream sits down in its account's room behind everything said there, with
   nothing sent; and there is a new room for it exactly when there is none.
   */
  lemma WhoTakesASeat(steps: seq<Step>, asked: Option<int>)
    ensures var s, t := ExecAll(INITIAL, steps), Exec(ExecAll(INITIAL, steps), Open(asked));
            && t.outbox == s.outbox && t.listening && t.current.Some? && |t.streams| == |s.streams| + 1
            && (if s.current.Some? then t.current == s.current && t.rooms == s.rooms
                else t.current.value == |s.rooms| && t.rooms == s.rooms + [[]])
            && t.streams[..|s.streams|] == s.streams
            && var st := t.streams[|s.streams|];
               && st.phase == Opening && st.asked == asked && st.out == []
               && st.room == t.current.value < |t.rooms| && st.pos == |t.rooms[st.room]|
  {
    hide ExecAll;
    ReachableInv(steps);
  }

  /** In every reachable state, the room is given up with the last seat in it, and only then. */
  lemma WhoGivesUpTheRoom(steps: seq<Step>, k: nat)
    requires k < |ExecAll(INITIAL, steps).streams| && IsFollowing(ExecAll(INITIAL, steps).streams[k])
    ensures var s, t := ExecAll(INITIAL, steps), Exec(ExecAll(INITIAL, steps), Leave(k));
            var st := s.streams[k];
            && t.streams == s.streams[k := st.(phase := Leaving)] && t.rooms == s.rooms && s.current == Some(st.room)
            && t.current == if HeldBesides(s, st.room, k) then s.current else None
  {
    hide ExecAll;
    var s := ExecAll(INITIAL, steps);
    ReachableInv(steps);
    OkOf(s, k);
    SeatsCount(s, s.streams[k].room, k);
    hide Inv, Exact, NotLost, HeldBesides, Receivers;
  }

  /** What a step of the listener says to the room. */
  function Said(s: System, step: Step): seq<Wake> {
    match step
    case SpareWakeAll => [Resync]
    case WakeAll => if s.connected && s.resyncDue then [Resync] else []
    case Receive => if s.connected && !s.resyncDue && s.queue != [] then [Moved(s.queue[0])] else []
    case _ => []
  }

  predicate OfListener(step: Step) {
    step.Connect? || step.WakeAll? || step.SpareWakeAll? || step.Receive? || step.Blip? || step.Disconnect?
  }

  /**
   In every reachable state: while somebody holds the account's room, the listener says there that notes may have
   been missed, once for every connection and every gap in one, and then each id announced, in order.
   */
  lemma WhatTheRoomHears(steps: seq<Step>, k: nat, step: Step)
    requires k < |ExecAll(INITIAL, steps).streams| && IsLive(ExecAll(INITIAL, steps).streams[k]) && OfListener(step)
    ensures var s, t := ExecAll(INITIAL, steps), Exec(ExecAll(INITIAL, steps), step);
            var room := s.streams[k].room;
            && t.streams == s.streams && t.outbox == s.outbox && t.current == s.current && room < |s.rooms|
            && t.rooms == s.rooms[room := s.rooms[room] + Said(s, step)]
  {
    hide ExecAll;
    var s := ExecAll(INITIAL, steps);
    ReachableInv(steps);
    OkOf(s, k);
    SeatsCount(s, s.streams[k].room, k);
    hide Inv, Exact, NotLost, HeldBesides, Receivers, Exec, Said;
    HeardBy(s, s.streams[k].room, step);
  }

  lemma HeardBy(s: System, room: nat, step: Step)
    requires s.current == Some(room) && room < |s.rooms| && Receivers(s.streams, room) >= 1 && OfListener(step)
    ensures var t := Exec(s, step);
            && t.streams == s.streams && t.outbox == s.outbox && t.current == s.current
            && t.rooms == s.rooms[room := s.rooms[room] + Said(s, step)]
  {
    hide Receivers;
    assert s.rooms[room] + [] == s.rooms[room];
  }

  /**
   A connection is made only while listening and then owes its room a resync, as one with a gap in it does; it owes
   one until it has said so. Announcements wait in order, and are lost only with the connection or in a gap.
   */
  lemma WhatTheListenerOwes(s: System, step: Step)
    requires OfListener(step)
    ensures var t := Exec(s, step);
            && (t.connected <==> (s.connected && !step.Disconnect?) || (step.Connect? && s.listening))
            && (t.resyncDue <==>
                if (step.Connect? && s.listening && !s.connected) || (step.Blip? && s.connected) then true
                else s.resyncDue && !(step.WakeAll? && s.connected))
            && t.queue == (if (step.Connect? && s.listening && !s.connected) || (step.Blip? && s.connected) ||
                              step.Disconnect? then []
                           else if step.Receive? && Said(s, step) != [] then s.queue[1..]
                           else s.queue)
  {
    hide Receivers;
  }

  /** A commit's new head is announced to a connection, last, and nothing else is. */
  lemma WhatIsAnnounced(steps: seq<Step>, inner: Outbox.Step)
    ensures var s, t := ExecAll(INITIAL, steps), Exec(ExecAll(INITIAL, steps), OutboxStep(inner));
            && t.outbox == Outbox.Exec(s.outbox, inner) && t.rooms == s.rooms && t.streams == s.streams
            && t.queue == s.queue + if s.connected && |t.outbox.history| > |s.outbox.history|
                                    then [|t.outbox.history|] else []
  {
    hide ExecAll, Outbox.Exec;
    assert ExecAll(INITIAL, steps).queue + [] == ExecAll(INITIAL, steps).queue;
  }
}
