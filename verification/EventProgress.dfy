/**
 No stream is ever stuck behind the head. From every reachable state, steps of the process's listener and of
 the stream itself bring it there, by reading on or by a reset; the safety poll is not among them, so a wake
 alone is enough.
 */
module EventProgress {
  import Outbox
  import opened Follow
  import opened EventStream

  /** A step of the listener, or of stream `k`: no poll, no new note, and nobody else's. */
  predicate Helps(step: Step, k: nat, room: nat) {
    || step == Connect || step == WakeAll || step == Receive
    || step == ReadBounds(k) || step == Hear(k, 0) || step == CheckHead(k, room)
    || step == DoReset(k) || step == ReadPage(k)
  }

  predicate AllHelp(steps: seq<Step>, k: nat, room: nat) {
    forall i :: 0 <= i < |steps| ==> Helps(steps[i], k, room)
  }

  /** Such steps lead from `s` to `t`, and nothing is written to the outbox on the way. */
  ghost predicate Leads(s: System, k: nat, room: nat, steps: seq<Step>, t: System) {
    && AllHelp(steps, k, room) && t == ExecAll(s, steps) && Inv(t)
    && t.outbox == s.outbox && |t.streams| == |s.streams|
  }

  predicate CaughtUp(s: System, k: nat)
    requires k < |s.streams|
  {
    s.streams[k].phase.Following? && s.streams[k].at.cursor == Outbox.Head(s.outbox.table)
  }

  lemma {:induction false} ExecAllConcat(s: System, a: seq<Step>, b: seq<Step>)
    ensures ExecAll(s, a + b) == ExecAll(ExecAll(s, a), b)
    decreases |a|
  {
    hide Exec;
    if a == [] {
      assert a + b == b;
    } else {
      assert (a + b)[0] == a[0] && (a + b)[1..] == a[1..] + b;
      ExecAllConcat(Exec(s, a[0]), a[1..], b);
    }
  }

  lemma LeadsNowhere(s: System, k: nat, room: nat)
    requires Inv(s)
    ensures Leads(s, k, room, [], s)
  {
    hide Inv;
  }

  lemma LeadsOne(s: System, k: nat, room: nat, step: Step)
    requires Inv(s) && Helps(step, k, room)
    ensures Leads(s, k, room, [step], Exec(s, step))
  {
    hide Inv, StepStream, LeaveRoom, Receivers, Outbox.Exec;
    ExecKeepsInv(s, step);
    assert [step][1..] == [];
    assert ExecAll(Exec(s, step), []) == Exec(s, step);
  }

  lemma LeadsOn(s: System, k: nat, room: nat, a: seq<Step>, t: System, b: seq<Step>, u: System)
    requires Leads(s, k, room, a, t) && Leads(t, k, room, b, u)
    ensures Leads(s, k, room, a + b, u)
  {
    hide Inv, Helps;
    ExecAllConcat(s, a, b);
  }

  lemma OkOf(s: System, k: nat)
    requires Inv(s) && k < |s.streams|
    ensures StreamOk(s, s.streams[k]) && s.listening
  {
    hide StreamOk;
  }

  // ----- a wake for a stream that is behind ----------------------------------------------------------------

  /** Stream `k` follows, behind the head. */
  predicate Behind(s: System, k: nat) {
    k < |s.streams| && s.streams[k].phase.Following? && s.streams[k].at.cursor < Outbox.Head(s.outbox.table)
  }

  /** A wake that says enough waits in its room. */
  predicate WakeWaits(s: System, k: nat) {
    && k < |s.streams| && s.streams[k].room < |s.rooms| && s.streams[k].pos <= |s.rooms[s.streams[k].room]|
    && WakePending(s.streams[k], s.rooms)
  }

  /** The listener's next step toward waking the stream. */
  function Waking(s: System): Step {
    if !s.connected then Connect else if s.resyncDue then WakeAll else Receive
  }

  /** A connected listener with nothing to resync has an announcement for it. */
  lemma SomethingIsQueued(s: System, k: nat)
    requires Inv(s) && Behind(s, k) && !s.streams[k].at.dirty && !WakeWaits(s, k) && s.connected && !s.resyncDue
    ensures s.queue != []
  {
    OkOf(s, k);
    hide Inv, Exact, WakePending, Outbox.Head;
  }

  lemma ResyncWakes(s: System, k: nat)
    requires Inv(s) && Behind(s, k)
    ensures var t := Send(s, Resync); t.streams == s.streams && WakeWaits(t, k)
  {
    hide Inv, Receivers, WakePending, Outbox.Head;
    SendReaches(s, Resync, k);
  }

  lemma ConnectHelps(s: System)
    requires s.listening && !s.connected
    ensures var t := Exec(s, Connect); t.streams == s.streams && t.connected
  {
    hide Send;
  }

  lemma WakeAllHelps(s: System)
    requires s.connected && s.resyncDue
    ensures Exec(s, WakeAll) == Send(s, Resync).(resyncDue := false)
  {
    hide Send;
  }

  lemma SendKeeps(s: System, wake: Wake)
    ensures var t := Send(s, wake);
            t.streams == s.streams && t.connected == s.connected && t.resyncDue == s.resyncDue && t.queue == s.queue
  {
    hide Receivers;
  }

  lemma ReceiveHelps(s: System)
    requires s.connected && !s.resyncDue && s.queue != []
    ensures var t := Exec(s, Receive);
            t.streams == s.streams && t.connected && !t.resyncDue && |t.queue| < |s.queue|
  {
    hide Send;
    SendKeeps(s, Moved(s.queue[0]));
  }

  lemma WakingGoesOn(s: System, k: nat)
    requires Inv(s) && Behind(s, k) && !s.streams[k].at.dirty && !WakeWaits(s, k)
    ensures var t := Exec(s, Waking(s));
            && t.streams == s.streams
            && (if !s.connected then t.connected
                else if s.resyncDue then WakeWaits(t, k)
                else t.connected && !t.resyncDue && |t.queue| < |s.queue|)
  {
    hide Inv, StreamOk, Exec, Send, WakePending;
    OkOf(s, k);
    if !s.connected {
      ConnectHelps(s);
    } else if s.resyncDue {
      WakeAllHelps(s);
      ResyncWakes(s, k);
    } else {
      SomethingIsQueued(s, k);
      ReceiveHelps(s);
    }
  }

  lemma {:induction false} AWakeComes(s: System, k: nat, room: nat) returns (steps: seq<Step>, t: System)
    requires Inv(s) && Behind(s, k) && !s.streams[k].at.dirty
    ensures Leads(s, k, room, steps, t) && t.streams == s.streams && WakeWaits(t, k)
    decreases if s.connected then 0 else 1, if s.resyncDue then 1 else 0, |s.queue|
  {
    hide Inv, WakeWaits, Exec, Leads;
    if WakeWaits(s, k) {
      LeadsNowhere(s, k, room);
      steps, t := [], s;
    } else {
      var step := Waking(s);
      var u := Exec(s, step);
      WakingGoesOn(s, k);
      LeadsOne(s, k, room, step);
      LeadsTells(s, k, room, [step], u);
      if WakeWaits(u, k) {
        steps, t := [step], u;
      } else {
        var rest;
        rest, t := AWakeComes(u, k, room);
        LeadsOn(s, k, room, [step], u, rest, t);
        steps := [step] + rest;
      }
    }
  }

  lemma LeadsTells(s: System, k: nat, room: nat, steps: seq<Step>, t: System)
    requires Leads(s, k, room, steps, t)
    ensures Inv(t) && t.outbox == s.outbox && |t.streams| == |s.streams|
  {
    hide Inv;
  }

  // ----- the stream takes its wakes, and reads ----------------------------------------------------------------

  lemma HearingGoesOn(s: System, k: nat)
    requires Inv(s) && Behind(s, k) && !s.streams[k].at.dirty && WakeWaits(s, k)
    ensures var t := Exec(s, Hear(k, 0));
            && Behind(t, k) && t.rooms == s.rooms && t.streams[k].room == s.streams[k].room
            && t.streams[k].at.cursor == s.streams[k].at.cursor && t.streams[k].pos == s.streams[k].pos + 1
            && (t.streams[k].at.dirty || WakeWaits(t, k))
  {
    hide Inv;
    var t, st := Exec(s, Hear(k, 0)), s.streams[k];
    var i :| st.pos <= i < |s.rooms[st.room]| && Says(s.rooms[st.room][i], st.at.cursor);
    assert !t.streams[k].at.dirty ==> st.pos + 1 <= i;
  }

  lemma {:induction false} AWakeIsHeard(s: System, k: nat, room: nat) returns (steps: seq<Step>, t: System)
    requires Inv(s) && Behind(s, k) && (s.streams[k].at.dirty || WakeWaits(s, k))
    ensures Leads(s, k, room, steps, t) && Behind(t, k) && t.streams[k].at.dirty
    ensures t.streams[k].at.cursor == s.streams[k].at.cursor
    decreases if s.streams[k].at.dirty then 0 else 1 + |s.rooms[s.streams[k].room]| - s.streams[k].pos
  {
    hide Inv, Exec, Leads, WakePending;
    if s.streams[k].at.dirty {
      LeadsNowhere(s, k, room);
      steps, t := [], s;
    } else {
      var u := Exec(s, Hear(k, 0));
      HearingGoesOn(s, k);
      LeadsOne(s, k, room, Hear(k, 0));
      LeadsTells(s, k, room, [Hear(k, 0)], u);
      var rest;
      rest, t := AWakeIsHeard(u, k, room);
      LeadsOn(s, k, room, [Hear(k, 0)], u, rest, t);
      steps := [Hear(k, 0)] + rest;
    }
  }

  lemma ABehindStreamWakes(s: System, k: nat, room: nat) returns (steps: seq<Step>, t: System)
    requires Inv(s) && Behind(s, k)
    ensures Leads(s, k, room, steps, t) && Behind(t, k) && t.streams[k].at.dirty
    ensures t.streams[k].at.cursor == s.streams[k].at.cursor
  {
    hide Inv, Leads, WakeWaits;
    if s.streams[k].at.dirty {
      steps, t := AWakeIsHeard(s, k, room);
    } else {
      var a, u := AWakeComes(s, k, room);
      LeadsTells(s, k, room, a, u);
      var b, v := AWakeIsHeard(u, k, room);
      LeadsOn(s, k, room, a, u, b, v);
      steps, t := a + b, v;
    }
  }

  /** A read by a stream behind the head takes at least one note, or finds a gap and resets. */
  lemma ReadingGoesOn(s: System, k: nat)
    requires Inv(s) && Behind(s, k) && s.streams[k].at.dirty
    ensures var t := Exec(s, ReadPage(k));
            && k < |t.streams|
            && (t.streams[k].phase.Resetting? ||
                 (t.streams[k].phase.Following? && t.streams[k].at.cursor > s.streams[k].at.cursor))
  {
    hide Queued, Based, Suffix, NotLost;
    OkOf(s, k);
    Outbox.PageMeaning(s.outbox.table, s.outbox.history, s.outbox.clock, s.streams[k].at.cursor, PAGE);
  }

  lemma ResettingCatchesUp(s: System, k: nat)
    requires k < |s.streams| && s.streams[k].phase.Resetting?
    ensures var t := Exec(s, DoReset(k)); |t.streams| == |s.streams| && CaughtUp(t, k)
  {
  }

  lemma NeverAhead(s: System, k: nat)
    requires Inv(s) && k < |s.streams| && IsFollowing(s.streams[k])
    ensures s.streams[k].at.cursor <= Outbox.Head(s.outbox.table)
  {
    hide Queued, Based, Suffix, NotLost;
    OkOf(s, k);
  }

  /** One page on: the stream woke and read, and is nearer the head, or resetting. */
  lemma APageIsRead(s: System, k: nat, room: nat) returns (steps: seq<Step>, t: System)
    requires Inv(s) && Behind(s, k)
    ensures Leads(s, k, room, steps, t) && k < |t.streams|
    ensures t.streams[k].phase.Resetting? ||
            (t.streams[k].phase.Following? && t.streams[k].at.cursor > s.streams[k].at.cursor)
  {
    hide Inv, Leads, Exec;
    var a, u := ABehindStreamWakes(s, k, room);
    LeadsTells(s, k, room, a, u);
    ReadingGoesOn(u, k);
    t := Exec(u, ReadPage(k));
    LeadsOne(u, k, room, ReadPage(k));
    LeadsOn(s, k, room, a, u, [ReadPage(k)], t);
    steps := a + [ReadPage(k)];
  }

  lemma {:induction false} AFollowingStreamCatchesUp(s: System, k: nat, room: nat) returns (steps: seq<Step>, t: System)
    requires Inv(s) && k < |s.streams| && (s.streams[k].phase.Following? || s.streams[k].phase.Resetting?)
    ensures Leads(s, k, room, steps, t) && k < |t.streams| && CaughtUp(t, k)
    decreases if s.streams[k].phase.Resetting? then 0 else 1, Outbox.Head(s.outbox.table) - s.streams[k].at.cursor
  {
    hide Inv, Leads, Exec;
    NeverAhead(s, k);
    if s.streams[k].phase.Resetting? {
      ResettingCatchesUp(s, k);
      LeadsOne(s, k, room, DoReset(k));
      steps, t := [DoReset(k)], Exec(s, DoReset(k));
    } else if CaughtUp(s, k) {
      LeadsNowhere(s, k, room);
      steps, t := [], s;
    } else {
      var a, u := APageIsRead(s, k, room);
      LeadsTells(s, k, room, a, u);
      var b, v := AFollowingStreamCatchesUp(u, k, room);
      LeadsOn(s, k, room, a, u, b, v);
      steps, t := a + b, v;
    }
  }

  /** A stream that is opening, or that missed wakes, comes to follow or to reset in one step. */
  function Settling(st: Stream, k: nat, room: nat): Step {
    if st.phase.Opening? then ReadBounds(k) else CheckHead(k, room)
  }

  lemma SettlingSettles(s: System, k: nat, room: nat)
    requires k < |s.streams| && (s.streams[k].phase.Opening? || s.streams[k].phase.Missed?)
    ensures var t := Exec(s, Settling(s.streams[k], k, room));
            k < |t.streams| && (t.streams[k].phase.Following? || t.streams[k].phase.Resetting?)
  {
  }

  lemma ALiveStreamCatchesUp(s: System, k: nat, room: nat) returns (steps: seq<Step>, t: System)
    requires Inv(s) && k < |s.streams| && IsLive(s.streams[k])
    ensures Leads(s, k, room, steps, t) && k < |t.streams| && CaughtUp(t, k)
  {
    hide Inv, Leads, Exec;
    if s.streams[k].phase.Following? || s.streams[k].phase.Resetting? {
      steps, t := AFollowingStreamCatchesUp(s, k, room);
    } else {
      var step := Settling(s.streams[k], k, room);
      var u := Exec(s, step);
      SettlingSettles(s, k, room);
      LeadsOne(s, k, room, step);
      LeadsTells(s, k, room, [step], u);
      var rest;
      rest, t := AFollowingStreamCatchesUp(u, k, room);
      LeadsOn(s, k, room, [step], u, rest, t);
      steps := [step] + rest;
    }
  }

  /**
   From every reachable state, listener steps and steps of its own bring a live stream to the head: then every
   note committed since its resume point or last reset has been told, and no poll was needed.
   */
  lemma EveryStreamCatchesUp(steps: seq<Step>, k: nat, room: nat) returns (more: seq<Step>)
    requires k < |ExecAll(INITIAL, steps).streams| && IsLive(ExecAll(INITIAL, steps).streams[k])
    ensures AllHelp(more, k, room)
    ensures var s, t := ExecAll(INITIAL, steps), ExecAll(INITIAL, steps + more);
            && t.outbox == s.outbox && k < |t.streams| && CaughtUp(t, k)
            && InOrder(t.streams[k])
            && forall id :: t.streams[k].base < id <= Outbox.Head(s.outbox.table) ==>
                 WasTold(t.streams[k], s.outbox.history, id)
  {
    hide Inv, InOrder, WasTold, IsLive, ExecAll;
    var s := ExecAll(INITIAL, steps);
    ReachableInv(steps);
    var t;
    more, t := ALiveStreamCatchesUp(s, k, room);
    ExecAllConcat(INITIAL, steps, more);
    forall id | t.streams[k].base < id <= Outbox.Head(s.outbox.table)
      ensures WasTold(t.streams[k], s.outbox.history, id)
    {
      NothingSkippedOrRepeated(steps + more, k, id);
    }
    NothingSkippedOrRepeated(steps + more, k, 0);
  }

  lemma ReachableInv(steps: seq<Step>)
    ensures Inv(ExecAll(INITIAL, steps))
  {
    ExecAllKeepsInv(INITIAL, steps);
  }
}
