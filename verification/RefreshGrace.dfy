/**
 One replica's memory of its recent rotations, beside the log. `Grace` is the map and its two calls; `Reused` reads
 the same answer off the list of calls made; the last part relates it to what the log accepts.
 */
module RefreshGrace {
  import opened Common
  import opened Sessions

  /** What a rotation left behind: the new refresh token and its session. */
  datatype Slot = Slot(refresh: string, sid: nat)

  datatype Entry = Entry(slot: Slot, storedAt: int)

  type Slots = map<string, Entry>

  predicate InGrace(storedAt: int, at: int) {
    at - storedAt <= REFRESH_GRACE_MS
  }

  function Retained(slots: Slots, at: int): Slots {
    map h | h in slots && InGrace(slots[h].storedAt, at) :: slots[h]
  }

  function Remembered(slots: Slots, previous: string, slot: Slot, at: int): Slots {
    Retained(slots, at)[previous := Entry(slot, at)]
  }

  function Reused(slots: Slots, previous: string, at: int): Option<Slot> {
    var kept := Retained(slots, at);
    if previous in kept then Some(kept[previous].slot) else None
  }

  class Grace {
    var slots: Slots

    constructor ()
      ensures slots == map[]
    {
      slots := map[];
    }

    method Remember(previous: string, slot: Slot, at: int)
      modifies this
      ensures slots == Remembered(old(slots), previous, slot, at)
    {
      slots := map h | h in slots && at - slots[h].storedAt <= REFRESH_GRACE_MS :: slots[h];
      slots := slots[previous := Entry(slot, at)];
    }

    method Reuse(previous: string, at: int) returns (slot: Option<Slot>)
      modifies this
      ensures slots == Retained(old(slots), at) && slot == Reused(old(slots), previous, at)
    {
      slots := map h | h in slots && at - slots[h].storedAt <= REFRESH_GRACE_MS :: slots[h];
      slot := if previous in slots then Some(slots[previous].slot) else None;
    }
  }

  // ----- what the cache holds --------------------------------------------------------------------------------------

  datatype Call = Remember(previous: string, slot: Slot, at: int) | Reuse(previous: string, at: int)

  function After(calls: seq<Call>): Slots {
    if calls == [] then map[]
    else
      var before, c := After(calls[..|calls| - 1]), calls[|calls| - 1];
      if c.Remember? then Remembered(before, c.previous, c.slot, c.at) else Retained(before, c.at)
  }

  /** A call that leaves an entry of `h`, stored at `s`, where it is. */
  predicate Leaves(c: Call, h: string, s: int) {
    InGrace(s, c.at) && !(c.Remember? && c.previous == h)
  }

  ghost predicate StoredSince(calls: seq<Call>, h: string, entry: Entry, i: nat)
    requires i < |calls|
  {
    calls[i] == Remember(h, entry.slot, entry.storedAt) && forall j :: i < j < |calls| ==>
      Leaves(calls[j], h, entry.storedAt)
  }

  ghost predicate Stored(calls: seq<Call>, h: string, entry: Entry) {
    exists i: nat :: i < |calls| && StoredSince(calls, h, entry, i)
  }

  lemma StoredStep(before: seq<Call>, c: Call, h: string, entry: Entry)
    ensures Stored(before + [c], h, entry) <==>
            c == Remember(h, entry.slot, entry.storedAt) || (Stored(before, h, entry) && Leaves(c, h, entry.storedAt))
  {
    hide Leaves;
    var calls := before + [c];
    assert calls[|before|] == c;
    assert StoredSince(calls, h, entry, |before|) <==> c == Remember(h, entry.slot, entry.storedAt);
    forall i: nat | i < |before|
      ensures StoredSince(calls, h, entry, i) <==> StoredSince(before, h, entry, i) && Leaves(c, h, entry.storedAt)
    {
      assert calls[i] == before[i];
      assert forall j :: i < j < |before| ==> calls[j] == before[j];
    }
  }

  /**
   An entry is held exactly when some call stored it, nothing stored under that hash since, and no call since came
   more than the grace later.
   */
  lemma {:induction false} SlotsMean(calls: seq<Call>, h: string, entry: Entry)
    ensures (h in After(calls) && After(calls)[h] == entry) <==> Stored(calls, h, entry)
  {
    if calls != [] {
      hide Stored;
      var before, c := calls[..|calls| - 1], calls[|calls| - 1];
      assert calls == before + [c];
      SlotsMean(before, h, entry);
      StoredStep(before, c, h, entry);
    }
  }

  /** A reuse hands on a slot exactly when it is held and this call too is within the grace. */
  lemma ReuseMeans(calls: seq<Call>, h: string, at: int, slot: Slot)
    ensures Reused(After(calls), h, at) == Some(slot) <==>
            exists s :: InGrace(s, at) && Stored(calls, h, Entry(slot, s))
  {
    hide Stored;
    if h in After(calls) {
      SlotsMean(calls, h, After(calls)[h]);
    }
    forall s ensures (h in After(calls) && After(calls)[h] == Entry(slot, s)) <==> Stored(calls, h, Entry(slot, s)) {
      SlotsMean(calls, h, Entry(slot, s));
    }
  }

  // ----- one replica, beside the log ---------------------------------------------------------------------------------

  /**
   The log, every call made on the cache, and the rotations whose append has committed and whose `remember` has not
   run yet. A request reads its time once, so calls come with times in any order.
   */
  datatype Replica = Replica(log: seq<Event>, calls: seq<Call>, pending: Slots)

  datatype Step =
    | SignsIn(sid: nat, hash: string, at: int)
    | SignsOut(sid: nat)
    | Rotates(presented: string, refresh: string, at: int)
    | Remembers(previous: string)
    | Asks(previous: string, at: int)

  const INITIAL := Replica([], [], map[])

  ghost function Written(log: seq<Event>, command: Command): seq<Event> {
    if !MintsFresh(log, command) || Decide(Replay(log), command).Err? then log
    else log + Decide(Replay(log), command).value
  }

  /** A refresh whose append is accepted: the session rotates, and its new refresh is about to be remembered. */
  ghost function Rotate(hash: string -> string, s: Replica, presented: string, refresh: string, at: int): Replica {
    var matched := MatchRefresh(Replay(s.log), presented, at);
    if hash(refresh) in Minted(s.log) || matched.Err? || matched.value.Previous? then s
    else
      s.(log := s.log + [Refreshed(matched.value.sid, hash(refresh), Some(presented), at)],
         pending := s.pending[presented := Entry(Slot(refresh, matched.value.sid), at)])
  }

  function RememberNow(s: Replica, previous: string): Replica {
    if previous !in s.pending then s
    else
      var entry := s.pending[previous];
      s.(calls := s.calls + [Remember(previous, entry.slot, entry.storedAt)], pending := s.pending - {previous})
  }

  ghost function Exec(hash: string -> string, s: Replica, step: Step): Replica {
    match step
    case SignsIn(sid, h, at) => s.(log := Written(s.log, SignIn(sid, h, at)))
    case SignsOut(sid) => s.(log := Written(s.log, SignOut(sid)))
    case Rotates(presented, refresh, at) => Rotate(hash, s, presented, refresh, at)
    case Remembers(previous) => RememberNow(s, previous)
    case Asks(previous, at) => s.(calls := s.calls + [Reuse(previous, at)])
  }

  ghost function ExecAll(hash: string -> string, s: Replica, steps: seq<Step>): Replica
    decreases |steps|
  {
    if steps == [] then s else ExecAll(hash, Exec(hash, s, steps[0]), steps[1..])
  }

  /** Some rotation presented `h`. */
  ghost predicate RotatedAway(log: seq<Event>, h: string) {
    exists i :: 0 <= i < |log| && log[i].Refreshed? && log[i].previous == Some(h)
  }

  predicate IsRemember(c: Call, h: string) {
    c.Remember? && c.previous == h
  }

  /** Some call remembered under `h`. */
  ghost predicate WasRemembered(calls: seq<Call>, h: string) {
    exists i :: 0 <= i < |calls| && IsRemember(calls[i], h)
  }

  /** The entry is the one minted by the rotation to `link`. */
  predicate IsFor(hash: string -> string, entry: Entry, sid: nat, link: Link) {
    hash(entry.slot.refresh) == link.hash && entry.slot.sid == sid && entry.storedAt == link.at
  }

  /** Call `i` remembered, under `p`, the rotation to `link`. */
  predicate RemembersIt(hash: string -> string, calls: seq<Call>, i: nat, p: string, sid: nat, link: Link) {
    i < |calls| && IsRemember(calls[i], p) && IsFor(hash, Entry(calls[i].slot, calls[i].at), sid, link)
  }

  /** A session's last rotation is about to be remembered, or was. */
  ghost predicate Backed(hash: string -> string, s: Replica, sid: nat) {
    var chain := Chain(s.log, sid);
    |chain| > 1 ==>
      var p, last := chain[|chain| - 2].hash, chain[|chain| - 1];
      || (p in s.pending && IsFor(hash, s.pending[p], sid, last))
      || exists i: nat :: RemembersIt(hash, s.calls, i, p, sid, last)
  }

  /** What is pending was rotated away and not remembered yet; what was remembered was rotated away, and once. */
  ghost predicate Keyed(s: Replica) {
    && (forall h :: h in s.pending ==> RotatedAway(s.log, h) && !WasRemembered(s.calls, h))
    && (forall h :: WasRemembered(s.calls, h) ==> RotatedAway(s.log, h))
    && forall i, j, h :: 0 <= i < j < |s.calls| && IsRemember(s.calls[i], h) ==> !IsRemember(s.calls[j], h)
  }

  ghost predicate GraceInv(hash: string -> string, s: Replica) {
    Accepted(s.log) && Keyed(s) && forall sid: nat :: Backed(hash, s, sid)
  }

  // ----- each step keeps it ----------------------------------------------------------------------------------------

  lemma RotatedAwayStays(log: seq<Event>, more: seq<Event>, h: string)
    requires RotatedAway(log, h)
    ensures RotatedAway(log + more, h)
  {
    var i :| 0 <= i < |log| && log[i].Refreshed? && log[i].previous == Some(h);
    assert (log + more)[i] == log[i];
  }

  lemma KeyedStays(s: Replica, more: seq<Event>)
    requires Keyed(s)
    ensures Keyed(s.(log := s.log + more))
  {
    hide RotatedAway;
    forall h | RotatedAway(s.log, h) ensures RotatedAway(s.log + more, h) {
      RotatedAwayStays(s.log, more, h);
    }
  }

  /** A sign-in or a sign-out touches no session's last two hashes, but for a session it begins. */
  lemma WrittenChains(log: seq<Event>, command: Command, sid: nat)
    requires command.SignIn? || command.SignOut?
    ensures Chain(Written(log, command), sid) == Chain(log, sid) || |Chain(Written(log, command), sid)| == 1
    ensures log <= Written(log, command)
  {
    if Written(log, command) != log {
      match command
      case SignIn(s, h, at) =>
        var issued := Issued(s, h, at);
        if Replay(log).registered {
          assert Written(log, command) == log + [issued];
          ChainGrows(log, issued, sid);
        } else {
          assert Written(log, command) == log + [Registered] + [issued];
          ChainGrows(log, Registered, sid);
          ChainGrows(log + [Registered], issued, sid);
        }
      case SignOut(s) =>
        assert Written(log, command) == log + [Revoked(s)];
        ChainGrows(log, Revoked(s), sid);
    }
  }

  lemma WrittenAccepted(log: seq<Event>, command: Command)
    requires Accepted(log)
    ensures Accepted(Written(log, command))
  {
    hide Accepted, Decide, MintsFresh;
    if Written(log, command) != log {
      DecidedIsAccepted(log, command);
    }
  }

  lemma WriteKeepsInv(hash: string -> string, s: Replica, command: Command)
    requires GraceInv(hash, s) && (command.SignIn? || command.SignOut?)
    ensures GraceInv(hash, s.(log := Written(s.log, command)))
  {
    var t := s.(log := Written(s.log, command));
    WrittenAccepted(s.log, command);
    hide Chain, Written, Accepted, IsFor, RotatedAway, Keyed, RemembersIt;
    WrittenChains(s.log, command, 0);
    assert t.log == s.log + t.log[|s.log|..];
    KeyedStays(s, t.log[|s.log|..]);
    forall sid: nat ensures Backed(hash, t, sid) {
      assert Backed(hash, s, sid);
      WrittenChains(s.log, command, sid);
    }
  }

  /** The hash a rotation presents was not rotated away before. */
  lemma PresentedIsNew(log: seq<Event>, e: Event)
    requires Accepted(log) && e.Refreshed? && EventOk(log, e)
    ensures !RotatedAway(log, e.previous.value)
  {
    AcceptedSnoc(log, e);
    forall i | 0 <= i < |log| && log[i].Refreshed? ensures log[i].previous != e.previous {
      assert (log + [e])[i] == log[i] && (log + [e])[|log|] == e;
      OneRotationPerHash(log + [e], i, |log|);
    }
  }

  lemma RotateBacks(hash: string -> string, s: Replica, t: Replica, e: Event, refresh: string, sid: nat)
    requires Accepted(s.log) && e.Refreshed? && EventOk(s.log, e) && e.hash == hash(refresh)
    requires t.log == s.log + [e] && t.calls == s.calls
    requires t.pending == s.pending[e.previous.value := Entry(Slot(refresh, e.sid), e.at)]
    requires e.previous.value !in s.pending && Backed(hash, s, sid)
    ensures Backed(hash, t, sid)
  {
    ChainGrows(s.log, e, sid);
    if sid == e.sid {
      AcceptedInv(s.log);
      RefreshedIsLast(s.log, e);
    }
    hide Chain, Accepted, EventOk, RemembersIt;
  }

  lemma RotateKeys(s: Replica, t: Replica, e: Event, entry: Entry)
    requires Keyed(s) && e.Refreshed? && e.previous.Some? && !RotatedAway(s.log, e.previous.value)
    requires t == s.(log := s.log + [e], pending := s.pending[e.previous.value := entry])
    ensures Keyed(t)
  {
    hide WasRemembered, RotatedAway;
    RotatedNow(s.log, e);
    KeyedStays(s, [e]);
  }

  lemma RotatedNow(log: seq<Event>, e: Event)
    requires e.Refreshed? && e.previous.Some?
    ensures RotatedAway(log + [e], e.previous.value)
  {
    assert (log + [e])[|log|] == e;
  }

  lemma RotateKeepsInv(hash: string -> string, s: Replica, presented: string, refresh: string, at: int)
    requires GraceInv(hash, s)
    ensures GraceInv(hash, Rotate(hash, s, presented, refresh, at))
  {
    var t := Rotate(hash, s, presented, refresh, at);
    if t != s {
      var sid := MatchRefresh(Replay(s.log), presented, at).value.sid;
      var e := Refreshed(sid, hash(refresh), Some(presented), at);
      assert t.log == s.log + [e] && EventOk(s.log, e);
      hide Chain, Accepted, EventOk, Backed, MatchRefresh, Replay, Rotate, RotatedAway, Minted, WasRemembered;
      AcceptedSnoc(s.log, e);
      PresentedIsNew(s.log, e);
      RotateKeys(s, t, e, Entry(Slot(refresh, sid), at));
      forall other: nat ensures Backed(hash, t, other) {
        assert Backed(hash, s, other);
        RotateBacks(hash, s, t, e, refresh, other);
      }
    }
  }

  lemma RememberedGrows(calls: seq<Call>, c: Call, h: string)
    ensures WasRemembered(calls + [c], h) <==> WasRemembered(calls, h) || IsRemember(c, h)
  {
    hide IsRemember;
    assert (calls + [c])[|calls|] == c;
    if WasRemembered(calls, h) {
      var i :| 0 <= i < |calls| && IsRemember(calls[i], h);
      assert (calls + [c])[i] == calls[i];
    }
  }

  /** A call more leaves what earlier calls remembered where it was. */
  lemma CallBacks(hash: string -> string, s: Replica, t: Replica, c: Call, sid: nat)
    requires Backed(hash, s, sid) && t.log == s.log && t.calls == s.calls + [c]
    requires t.pending == s.pending ||
            (c.Remember? && c.previous in s.pending && t.pending == s.pending - {c.previous} &&
                                        s.pending[c.previous] == Entry(c.slot, c.at))
    ensures Backed(hash, t, sid)
  {
    hide Chain, IsFor;
    var chain := Chain(s.log, sid);
    if |chain| > 1 {
      var p, last := chain[|chain| - 2].hash, chain[|chain| - 1];
      if i: nat :| RemembersIt(hash, s.calls, i, p, sid, last) {
        assert t.calls[i] == s.calls[i];
        assert RemembersIt(hash, t.calls, i, p, sid, last);
      } else if p !in t.pending {
        assert t.calls[|s.calls|] == c;
        assert RemembersIt(hash, t.calls, |s.calls|, p, sid, last);
      }
    }
  }

  lemma CallKeys(s: Replica, t: Replica, c: Call)
    requires Keyed(s) && t.log == s.log && t.calls == s.calls + [c]
    requires if c.Remember? then c.previous in s.pending && t.pending == s.pending - {c.previous}
            else t.pending == s.pending
    ensures Keyed(t)
  {
    hide WasRemembered, RotatedAway;
    forall h ensures WasRemembered(t.calls, h) <==> WasRemembered(s.calls, h) || IsRemember(c, h) {
      RememberedGrows(s.calls, c, h);
    }
    forall i, j, h | 0 <= i < j < |t.calls| && IsRemember(t.calls[i], h) ensures !IsRemember(t.calls[j], h) {
      if j == |s.calls| {
        RememberedAt(s.calls, i, h);
      }
    }
  }

  lemma RememberedAt(calls: seq<Call>, i: nat, h: string)
    requires i < |calls| && IsRemember(calls[i], h)
    ensures WasRemembered(calls, h)
  {
  }

  lemma CallKeepsInv(hash: string -> string, s: Replica, t: Replica, c: Call)
    requires GraceInv(hash, s) && t.log == s.log && t.calls == s.calls + [c]
    requires if c.Remember? then c.previous in s.pending && t.pending == s.pending - {c.previous} &&
                                 s.pending[c.previous] == Entry(c.slot, c.at)
             else t.pending == s.pending
    ensures GraceInv(hash, t)
  {
    hide Accepted, Keyed, Backed;
    CallKeys(s, t, c);
    forall sid: nat ensures Backed(hash, t, sid) {
      assert Backed(hash, s, sid);
      CallBacks(hash, s, t, c, sid);
    }
  }

  lemma ExecKeepsInv(hash: string -> string, s: Replica, step: Step)
    requires GraceInv(hash, s)
    ensures GraceInv(hash, Exec(hash, s, step))
  {
    hide GraceInv, Written, Rotate;
    match step
    case SignsIn(sid, h, at) => WriteKeepsInv(hash, s, SignIn(sid, h, at));
    case SignsOut(sid) => WriteKeepsInv(hash, s, SignOut(sid));
    case Rotates(presented, refresh, at) => RotateKeepsInv(hash, s, presented, refresh, at);
    case Remembers(previous) =>
      if previous in s.pending {
        var entry := s.pending[previous];
        CallKeepsInv(hash, s, RememberNow(s, previous), Remember(previous, entry.slot, entry.storedAt));
      }
    case Asks(previous, at) => CallKeepsInv(hash, s, Exec(hash, s, step), Reuse(previous, at));
  }

  lemma {:induction false} ExecAllKeepsInv(hash: string -> string, s: Replica, steps: seq<Step>)
    requires GraceInv(hash, s)
    ensures GraceInv(hash, ExecAll(hash, s, steps))
    decreases |steps|
  {
    hide GraceInv, Exec;
    if steps != [] {
      ExecKeepsInv(hash, s, steps[0]);
      ExecAllKeepsInv(hash, Exec(hash, s, steps[0]), steps[1..]);
    }
  }

  lemma InitialInv(hash: string -> string)
    ensures GraceInv(hash, INITIAL)
  {
  }

  // ----- what it comes to ------------------------------------------------------------------------------------------

  /** No call after call `i` came more than the grace after `storedAt`. */
  predicate NoneLateSince(calls: seq<Call>, i: nat, storedAt: int) {
    forall j :: i < j < |calls| ==> InGrace(storedAt, calls[j].at)
  }

  lemma NotStored(calls: seq<Call>, i: nat, h: string, other: Entry)
    requires i < |calls| && IsRemember(calls[i], h) && !NoneLateSince(calls, i, calls[i].at)
    requires forall j :: 0 <= j < |calls| && j != i ==> !IsRemember(calls[j], h)
    ensures !Stored(calls, h, other)
  {
    forall k: nat | k < |calls| ensures !StoredSince(calls, h, other, k) {
      assert k != i ==> !IsRemember(calls[k], h);
    }
  }

  /** Among calls that remember a hash once, its entry is held exactly while no later call came past the grace. */
  lemma HeldIffNoneLate(calls: seq<Call>, i: nat, h: string, at: int)
    requires i < |calls| && IsRemember(calls[i], h) && InGrace(calls[i].at, at)
    requires forall j :: i < j < |calls| ==> !IsRemember(calls[j], h)
    requires forall j :: 0 <= j < i ==> !IsRemember(calls[j], h)
    ensures Reused(After(calls), h, at) == if NoneLateSince(calls, i, calls[i].at) then Some(calls[i].slot) else None
  {
    var entry := Entry(calls[i].slot, calls[i].at);
    if NoneLateSince(calls, i, calls[i].at) {
      assert StoredSince(calls, h, entry, i);
      SlotsMean(calls, h, entry);
    } else {
      forall other ensures !Stored(calls, h, other) {
        NotStored(calls, i, h, other);
      }
      if h in After(calls) {
        SlotsMean(calls, h, After(calls)[h]);
      }
    }
  }

  /** What the replica did for the session's last rotation away from `x`: call `i` remembered the refresh it minted. */
  ghost predicate RememberedRotation(hash: string -> string, s: Replica, i: nat, x: string, sid: nat) {
    && i < |s.calls| && IsRemember(s.calls[i], x) && sid in Replay(s.log).sessions
    && var session := Replay(s.log).sessions[sid];
       s.calls[i].slot.sid == sid && hash(s.calls[i].slot.refresh) == session.hash &&
         s.calls[i].at == session.refreshedAt
  }

  lemma PreviousWasRemembered(hash: string -> string, s: Replica, x: string, at: int, sid: nat) returns (i: nat)
    requires GraceInv(hash, s) && x !in s.pending && MatchRefresh(Replay(s.log), x, at) == Ok(Previous(sid))
    ensures RememberedRotation(hash, s, i, x, sid) && InGrace(s.calls[i].at, at)
  {
    assert Replay(s.log).registered;
    AcceptedInv(s.log);
    AcceptedHashes(s.log, x, at, sid);
    assert Backed(hash, s, sid) && Told(Replay(s.log).sessions, s.log, sid);
    hide Chain, Replay, MatchRefresh, IsRevoked, Accepted, Unique, AllMinted, Keyed;
    var chain := Chain(s.log, sid);
    i :| RemembersIt(hash, s.calls, i, x, sid, chain[|chain| - 1]);
  }

  /**
   Over every run of one replica, whatever races, and whatever times its requests read: when the log accepts a
   previous hash whose rotation has been remembered, the cache hands on the refresh that rotation minted exactly when
   no call on it since came more than the grace after the rotation.
   */
  lemma TheGraceAgreesWithTheLog(hash: string -> string, steps: seq<Step>, x: string, at: int, sid: nat)
      returns (i: nat)
    requires var s := ExecAll(hash, INITIAL, steps);
             x !in s.pending && MatchRefresh(Replay(s.log), x, at) == Ok(Previous(sid))
    ensures var s := ExecAll(hash, INITIAL, steps);
            && RememberedRotation(hash, s, i, x, sid)
            && Reused(After(s.calls), x, at) == if NoneLateSince(s.calls, i, s.calls[i].at) then Some(s.calls[i].slot)
                 else None
  {
    hide ExecAll, MatchRefresh, Replay, Reused, After, Accepted, Backed, WasRemembered, RotatedAway, NoneLateSince,
      InGrace;
    InitialInv(hash);
    ExecAllKeepsInv(hash, INITIAL, steps);
    var s := ExecAll(hash, INITIAL, steps);
    i := PreviousWasRemembered(hash, s, x, at, sid);
    HeldIffNoneLate(s.calls, i, x, at);
  }

  lemma NotRemembered(calls: seq<Call>, h: string, at: int)
    requires !WasRemembered(calls, h)
    ensures Reused(After(calls), h, at) == None
  {
    if h in After(calls) {
      SlotsMean(calls, h, After(calls)[h]);
      assert false;
    }
  }

  /** Until the rotation's own `remember` has run there is nothing to hand on: a race loser waits for it. */
  lemma PendingIsNotHeld(hash: string -> string, steps: seq<Step>, x: string, at: int)
    requires x in ExecAll(hash, INITIAL, steps).pending
    ensures Reused(After(ExecAll(hash, INITIAL, steps).calls), x, at) == None
  {
    hide ExecAll, Reused, After, Accepted, Backed, WasRemembered;
    InitialInv(hash);
    ExecAllKeepsInv(hash, INITIAL, steps);
    NotRemembered(ExecAll(hash, INITIAL, steps).calls, x, at);
  }

  /** So a request whose time is no earlier than any the cache was asked at is handed the pair the winner minted. */
  lemma InOrderTheyAgree(hash: string -> string, steps: seq<Step>, x: string, at: int, sid: nat)
    requires var s := ExecAll(hash, INITIAL, steps);
             && x !in s.pending && MatchRefresh(Replay(s.log), x, at) == Ok(Previous(sid))
             && forall j :: 0 <= j < |s.calls| ==> s.calls[j].at <= at
    ensures var s := ExecAll(hash, INITIAL, steps);
            && sid in Replay(s.log).sessions
            && var slot := Reused(After(s.calls), x, at);
               slot.Some? && slot.value.sid == sid && hash(slot.value.refresh) == Replay(s.log).sessions[sid].hash
  {
    hide ExecAll, MatchRefresh, Replay, Reused, After, Accepted, Backed, Keyed;
    InitialInv(hash);
    ExecAllKeepsInv(hash, INITIAL, steps);
    var s := ExecAll(hash, INITIAL, steps);
    var k := PreviousWasRemembered(hash, s, x, at, sid);
    var i := TheGraceAgreesWithTheLog(hash, steps, x, at, sid);
    assert NoneLateSince(s.calls, i, s.calls[i].at);
  }

  /** The log of one session issued at 0 and rotated at 10. */
  function RotatedLog(): seq<Event> {
    [Registered, Issued(0, "h0", 0), Refreshed(0, "h1", Some("h0"), 10)]
  }

  lemma IssuedLog(log: seq<Event>)
    requires log == [Registered, Issued(0, "h0", 0)]
    ensures Accepted(log) && IsRegistered(log) && Minted(log) == {"h0"} && Chain(log, 0) == [Link("h0", 0)] &&
            !IsRevoked(log, 0)
    ensures forall at :: MatchRefresh(Replay(log), "h0", at) == Ok(Current(0))
  {
    var first: seq<Event> := [Registered];
    ChainGrows([], Registered, 0);
    ChainGrows(first, Issued(0, "h0", 0), 0);
    assert [] + [Registered] == first && first + [Issued(0, "h0", 0)] == log;
    AcceptedSnoc([], Registered);
    AcceptedSnoc(first, Issued(0, "h0", 0));
    forall at ensures MatchRefresh(Replay(log), "h0", at) == Ok(Current(0)) {
      AcceptedHashes(log, "h0", at, 0);
    }
  }

  lemma RotatedLogMeans()
    ensures MatchRefresh(Replay(RotatedLog()), "h0", 45010) == Ok(Previous(0))
  {
    var log: seq<Event> := [Registered, Issued(0, "h0", 0)];
    var e := Refreshed(0, "h1", Some("h0"), 10);
    IssuedLog(log);
    ChainGrows(log, e, 0);
    assert log + [e] == RotatedLog();
    hide Chain, Replay, MatchRefresh, IsRevoked, Minted, IsRegistered, Accepted;
    AcceptedSnoc(log, e);
    AcceptedHashes(RotatedLog(), "h0", 45010, 0);
  }

  lemma FirstSteps(hash: string -> string)
    requires hash("r1") == "h1"
    ensures Rotate(hash, Replica(Written([], SignIn(0, "h0", 0)), [], map[]), "h0", "r1", 10) ==
            Replica(RotatedLog(), [], map["h0" := Entry(Slot("r1", 0), 10)])
  {
    var log: seq<Event> := [Registered, Issued(0, "h0", 0)];
    assert [] + ([Registered] + [Issued(0, "h0", 0)]) == log;
    assert Written([], SignIn(0, "h0", 0)) == log;
    IssuedLog(log);
    hide Written, Chain, Replay, MatchRefresh, Minted;
    assert log + [Refreshed(0, "h1", Some("h0"), 10)] == RotatedLog();
  }

  function LateCalls(): seq<Call> {
    [Remember("h0", Slot("r1", 0), 10), Reuse("zzz", 45011)]
  }

  function LateSteps(): seq<Step> {
    [SignsIn(0, "h0", 0), Rotates("h0", "r1", 10), Remembers("h0"), Asks("zzz", 45011)]
  }

  lemma LateRun(hash: string -> string)
    requires hash("r1") == "h1"
    ensures ExecAll(hash, INITIAL, LateSteps()) == Replica(RotatedLog(), LateCalls(), map[])
  {
    FirstSteps(hash);
    FourSteps(hash, LateSteps());
    hide Written, Rotate, RotatedLog, ExecAll;
    var pending: Slots := map["h0" := Entry(Slot("r1", 0), 10)];
    assert pending - {"h0"} == map[];
    assert [] + [LateCalls()[0]] + [LateCalls()[1]] == LateCalls();
  }

  /**
   A request that read its time within the grace, and asks after another that read a later one: the log accepts its
   hash, the rotation was remembered, and the cache has dropped it.
   */
  lemma TheGraceCanDisagree(hash: string -> string)
    requires hash("r1") == "h1"
    ensures var s := ExecAll(hash, INITIAL, LateSteps());
            && "h0" !in s.pending && MatchRefresh(Replay(s.log), "h0", 45010) == Ok(Previous(0))
            && Reused(After(s.calls), "h0", 45010) == None
  {
    hide ExecAll, Replay, MatchRefresh, RotatedLog, After, Reused, LateSteps;
    LateRun(hash);
    RotatedLogMeans();
    assert !InGrace(10, LateCalls()[1].at);
    HeldIffNoneLate(LateCalls(), 0, "h0", 45010);
  }

  lemma FourSteps(hash: string -> string, steps: seq<Step>)
    requires |steps| == 4
    ensures ExecAll(hash, INITIAL, steps) ==
            Exec(hash, Exec(hash, Exec(hash, Exec(hash, INITIAL, steps[0]), steps[1]), steps[2]), steps[3])
  {
    hide Exec;
    var one := Exec(hash, INITIAL, steps[0]);
    var two := Exec(hash, one, steps[1]);
    var three := Exec(hash, two, steps[2]);
    assert ExecAll(hash, INITIAL, steps) == ExecAll(hash, one, steps[1..]);
    assert steps[1..][1..] == steps[2..] && ExecAll(hash, one, steps[1..]) == ExecAll(hash, two, steps[2..]);
    assert steps[2..][1..] == steps[3..] && ExecAll(hash, two, steps[2..]) == ExecAll(hash, three, steps[3..]);
    assert steps[3..][1..] == [];
    assert ExecAll(hash, three, steps[3..]) == ExecAll(hash, Exec(hash, three, steps[3]), []);
  }
}
