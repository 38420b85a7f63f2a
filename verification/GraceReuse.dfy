/**
 The other direction: what the cache hands on, against what the log would have said. The cache is asked first and is
 told of rotations only, so it may answer where the log refuses; the theorem says exactly when.
 */
module GraceReuse {
  import opened Common
  import opened Sessions
  import opened RefreshGrace

  /** Hash `h` is link `k` of the entry's session, and the entry is what the rotation to the next link left. */
  ghost predicate LinkedAt(hash: string -> string, log: seq<Event>, h: string, entry: Entry, k: nat) {
    var chain := Chain(log, entry.slot.sid);
    k + 1 < |chain| && chain[k].hash == h && IsFor(hash, entry, entry.slot.sid, chain[k + 1])
  }

  ghost predicate Linked(hash: string -> string, log: seq<Event>, h: string, entry: Entry) {
    IsRegistered(log) && exists k: nat :: LinkedAt(hash, log, h, entry, k)
  }

  ghost predicate RemembersLinks(hash: string -> string, log: seq<Event>, c: Call) {
    c.Remember? ==> Linked(hash, log, c.previous, Entry(c.slot, c.at))
  }

  /** Every entry pending or remembered is two consecutive links of a chain of the log. */
  ghost predicate Traced(hash: string -> string, s: Replica) {
    && (forall h :: h in s.pending ==> Linked(hash, s.log, h, s.pending[h]))
    && (forall i :: 0 <= i < |s.calls| ==> RemembersLinks(hash, s.log, s.calls[i]))
  }

  // ----- each step keeps it ----------------------------------------------------------------------------------------

  lemma ChainStays(log: seq<Event>, e: Event, sid: nat)
    requires EventOk(log, e)
    ensures Chain(log, sid) <= Chain(log + [e], sid) && (IsRegistered(log) ==> IsRegistered(log + [e]))
  {
    ChainGrows(log, e, sid);
    hide Chain, MatchRefresh, Minted, IsRegistered;
  }

  lemma LinkedStays(hash: string -> string, log: seq<Event>, e: Event, h: string, entry: Entry)
    requires EventOk(log, e) && Linked(hash, log, h, entry)
    ensures Linked(hash, log + [e], h, entry)
  {
    ChainStays(log, e, entry.slot.sid);
    hide Chain, EventOk, IsRegistered, IsFor;
    var k: nat :| LinkedAt(hash, log, h, entry, k);
    assert LinkedAt(hash, log + [e], h, entry, k);
  }

  lemma TracedStays(hash: string -> string, s: Replica, e: Event)
    requires Traced(hash, s) && EventOk(s.log, e)
    ensures Traced(hash, s.(log := s.log + [e]))
  {
    hide Linked, EventOk;
    var t := s.(log := s.log + [e]);
    forall h | h in t.pending ensures Linked(hash, t.log, h, t.pending[h]) {
      LinkedStays(hash, s.log, e, h, s.pending[h]);
    }
    forall i | 0 <= i < |t.calls| ensures RemembersLinks(hash, t.log, t.calls[i]) {
      assert RemembersLinks(hash, s.log, s.calls[i]);
      if s.calls[i].Remember? {
        LinkedStays(hash, s.log, e, s.calls[i].previous, Entry(s.calls[i].slot, s.calls[i].at));
      }
    }
  }

  lemma WriteTraces(hash: string -> string, s: Replica, command: Command)
    requires Traced(hash, s) && (command.SignIn? || command.SignOut?)
    ensures Traced(hash, s.(log := Written(s.log, command)))
  {
    hide Traced, Chain, Minted, Replay;
    var log := Written(s.log, command);
    if log != s.log {
      match command
      case SignIn(sid, h, at) =>
        var issued := Issued(sid, h, at);
        if Replay(s.log).registered {
          assert log == s.log + [issued];
          TracedStays(hash, s, issued);
        } else {
          assert log == s.log + [Registered] + [issued];
          ChainGrows(s.log, Registered, sid);
          TracedStays(hash, s, Registered);
          TracedStays(hash, s.(log := s.log + [Registered]), issued);
        }
      case SignOut(sid) =>
        assert log == s.log + [Revoked(sid)];
        TracedStays(hash, s, Revoked(sid));
    }
  }

  /** A rotation's own entry: the hash it presented was the last link, and its new one is now. */
  lemma RotationLinks(hash: string -> string, log: seq<Event>, e: Event, refresh: string)
    requires Accepted(log) && e.Refreshed? && EventOk(log, e) && e.hash == hash(refresh)
    ensures Linked(hash, log + [e], e.previous.value, Entry(Slot(refresh, e.sid), e.at))
  {
    AcceptedInv(log);
    RefreshedIsLast(log, e);
    ChainGrows(log, e, e.sid);
    assert Replay(log).registered;
    hide Chain, Accepted, EventOk, MatchRefresh, Replay, IsRegistered, Unique, AllMinted, Told;
    var entry, k := Entry(Slot(refresh, e.sid), e.at), |Chain(log, e.sid)| - 1;
    assert LinkedAt(hash, log + [e], e.previous.value, entry, k);
  }

  lemma RotateTraces(hash: string -> string, s: Replica, presented: string, refresh: string, at: int)
    requires GraceInv(hash, s) && Traced(hash, s)
    ensures Traced(hash, Rotate(hash, s, presented, refresh, at))
  {
    var t := Rotate(hash, s, presented, refresh, at);
    if t != s {
      var sid := MatchRefresh(Replay(s.log), presented, at).value.sid;
      var e := Refreshed(sid, hash(refresh), Some(presented), at);
      assert t == s.(log := s.log + [e], pending := s.pending[presented := Entry(Slot(refresh, sid), at)]);
      assert EventOk(s.log, e);
      hide Accepted, EventOk, MatchRefresh, Replay, Rotate, Linked, RemembersLinks, Keyed, Backed;
      TracedStays(hash, s, e);
      RotationLinks(hash, s.log, e, refresh);
    }
  }

  lemma ExecTraces(hash: string -> string, s: Replica, step: Step)
    requires GraceInv(hash, s) && Traced(hash, s)
    ensures Traced(hash, Exec(hash, s, step))
  {
    hide GraceInv, Written, Rotate, Linked;
    match step
    case SignsIn(sid, h, at) => WriteTraces(hash, s, SignIn(sid, h, at));
    case SignsOut(sid) => WriteTraces(hash, s, SignOut(sid));
    case Rotates(presented, refresh, at) => RotateTraces(hash, s, presented, refresh, at);
    case _ =>
  }

  lemma {:induction false} ExecAllTraces(hash: string -> string, s: Replica, steps: seq<Step>)
    requires GraceInv(hash, s) && Traced(hash, s)
    ensures Traced(hash, ExecAll(hash, s, steps))
    decreases |steps|
  {
    hide GraceInv, Traced, Exec;
    if steps != [] {
      ExecTraces(hash, s, steps[0]);
      RefreshGrace.ExecKeepsInv(hash, s, steps[0]);
      ExecAllTraces(hash, Exec(hash, s, steps[0]), steps[1..]);
    }
  }

  lemma ReachableTraced(hash: string -> string, steps: seq<Step>)
    ensures GraceInv(hash, ExecAll(hash, INITIAL, steps)) && Traced(hash, ExecAll(hash, INITIAL, steps))
  {
    InitialInv(hash);
    assert Traced(hash, INITIAL);
    hide GraceInv, Traced;
    RefreshGrace.ExecAllKeepsInv(hash, INITIAL, steps);
    ExecAllTraces(hash, INITIAL, steps);
  }

  // ----- what it comes to ------------------------------------------------------------------------------------------

  /** What is handed on was remembered, within the grace, and so is linked. */
  lemma ReusedIsLinked(hash: string -> string, s: Replica, x: string, at: int, slot: Slot) returns (storedAt: int)
    requires Traced(hash, s) && Reused(After(s.calls), x, at) == Some(slot)
    ensures Linked(hash, s.log, x, Entry(slot, storedAt)) && InGrace(storedAt, at)
  {
    ReuseMeans(s.calls, x, at, slot);
    hide Reused, After, Linked;
    storedAt :| InGrace(storedAt, at) && Stored(s.calls, x, Entry(slot, storedAt));
    var i: nat :| i < |s.calls| && StoredSince(s.calls, x, Entry(slot, storedAt), i);
    assert RemembersLinks(hash, s.log, s.calls[i]);
  }

  /** A linked hash is the session's previous one exactly when the link after it is the last. */
  lemma LinkedIsPrevious(hash: string -> string, log: seq<Event>, x: string, entry: Entry, k: nat, other: nat)
    requires Sessions.Inv(log) && LinkedAt(hash, log, x, entry, k)
    ensures !LiveLast(log, other, x)
    ensures LivePrevious(log, other, x) ==> other == entry.slot.sid && k + 2 == |Chain(log, other)|
    ensures var chain := Chain(log, entry.slot.sid);
            chain[|chain| - 1].hash == hash(entry.slot.refresh) <==> k + 2 == |chain|
  {
    var sid := entry.slot.sid;
    var chain := Chain(log, sid);
    assert At(log, sid, k, x) && At(log, sid, k + 1, hash(entry.slot.refresh));
    assert At(log, sid, |chain| - 1, chain[|chain| - 1].hash);
    hide Chain, AllMinted, Told, Replay;
  }

  /** What the log says of a hash the cache has an entry for. */
  lemma LogOnLinked(hash: string -> string, log: seq<Event>, x: string, at: int, entry: Entry)
    requires Accepted(log) && Linked(hash, log, x, entry) && InGrace(entry.storedAt, at)
    ensures var a, slot := Replay(log), entry.slot;
            && slot.sid in a.sessions
            && MatchRefresh(a, x, at) ==
               if a.sessions[slot.sid].hash != hash(slot.refresh) then Err(UnknownRefreshToken)
               else if a.sessions[slot.sid].revoked then Err(SessionRevoked)
               else Ok(Previous(slot.sid))
  {
    var k: nat :| LinkedAt(hash, log, x, entry, k);
    AcceptedInv(log);
    var sid := entry.slot.sid;
    assert Told(Replay(log).sessions, log, sid);
    forall other: nat
      ensures !LiveLast(log, other, x)
      ensures LivePrevious(log, other, x) ==> other == sid && k + 2 == |Chain(log, sid)|
    {
      LinkedIsPrevious(hash, log, x, entry, k, other);
    }
    LinkedIsPrevious(hash, log, x, entry, k, sid);
    assert k + 2 == |Chain(log, sid)| ==> LivePrevious(log, sid, x);
    hide Chain, MatchRefresh, Replay, Unique, AllMinted, IsRevoked, IsRegistered, Accepted, LiveLast, LivePrevious;
    if k + 2 == |Chain(log, sid)| {
      PreviousIs(log, x, at, sid);
    } else {
      UnknownIs(log, x, at);
    }
  }

  lemma UnknownIs(log: seq<Event>, x: string, at: int)
    requires Sessions.Inv(log) && IsRegistered(log)
    requires forall sid: nat :: !LiveLast(log, sid, x) && !LivePrevious(log, sid, x)
    ensures MatchRefresh(Replay(log), x, at) == Err(UnknownRefreshToken)
  {
    hide Chain, Replay, Unique, AllMinted, IsRevoked, At, LiveLast, LivePrevious, IsRegistered, Holders,
      PreviousHolders;
    var current, previous := Holders(Replay(log).sessions, x), PreviousHolders(Replay(log).sessions, x);
    if current != {} {
      HoldersMean(log, x, Least(current));
    } else if previous != {} {
      HoldersMean(log, x, Least(previous));
    }
  }

  /**
   Over every run of one replica, whatever the times: when the cache hands on a slot, the log would accept the
   presented hash as that session's previous one exactly when the session is not revoked and the slot's refresh is
   still its current one. Otherwise the log refuses it.
   */
  lemma WhatTheCacheHandsOn(hash: string -> string, steps: seq<Step>, x: string, at: int, slot: Slot)
    requires Reused(After(ExecAll(hash, INITIAL, steps).calls), x, at) == Some(slot)
    ensures var a := Replay(ExecAll(hash, INITIAL, steps).log);
            && slot.sid in a.sessions
            && (MatchRefresh(a, x, at) == Ok(Previous(slot.sid)) <==>
                !a.sessions[slot.sid].revoked && a.sessions[slot.sid].hash == hash(slot.refresh))
            && (MatchRefresh(a, x, at) == Ok(Previous(slot.sid)) || MatchRefresh(a, x, at).Err?)
  {
    hide ExecAll, Reused, After, MatchRefresh, Replay, Accepted, Keyed, Backed, Traced, Linked;
    ReachableTraced(hash, steps);
    var s := ExecAll(hash, INITIAL, steps);
    var storedAt := ReusedIsLinked(hash, s, x, at, slot);
    LogOnLinked(hash, s.log, x, at, Entry(slot, storedAt));
  }

  lemma {:induction false} ExecAllSnoc(hash: string -> string, s: Replica, steps: seq<Step>, step: Step)
    ensures ExecAll(hash, s, steps + [step]) == Exec(hash, ExecAll(hash, s, steps), step)
    decreases |steps|
  {
    hide Exec;
    if steps == [] {
      assert steps + [step] == [step] && [step][1..] == [];
      assert ExecAll(hash, Exec(hash, s, step), []) == Exec(hash, s, step);
    } else {
      assert (steps + [step])[1..] == steps[1..] + [step];
      ExecAllSnoc(hash, Exec(hash, s, steps[0]), steps[1..], step);
    }
  }

  lemma SignOutRevokes(log: seq<Event>, sid: nat)
    requires sid in Replay(log).sessions
    ensures var after := Replay(Written(log, SignOut(sid)));
            sid in after.sessions && after.sessions[sid].revoked
  {
    assert Written(log, SignOut(sid)) == log + [Revoked(sid)];
    ChainGrows(log, Revoked(sid), sid);
    hide Replay;
  }

  /** A sign-out does not reach the cache: whatever it would hand on it still does, and the log now refuses it. */
  lemma SignOutIsNotHeard(hash: string -> string, steps: seq<Step>, x: string, at: int, slot: Slot)
    requires Reused(After(ExecAll(hash, INITIAL, steps).calls), x, at) == Some(slot)
    ensures var t := ExecAll(hash, INITIAL, steps + [SignsOut(slot.sid)]);
            Reused(After(t.calls), x, at) == Some(slot) && MatchRefresh(Replay(t.log), x, at).Err?
  {
    hide ExecAll, Reused, After, MatchRefresh, Replay, Written;
    var s := ExecAll(hash, INITIAL, steps);
    WhatTheCacheHandsOn(hash, steps, x, at, slot);
    ExecAllSnoc(hash, INITIAL, steps, SignsOut(slot.sid));
    SignOutRevokes(s.log, slot.sid);
    WhatTheCacheHandsOn(hash, steps + [SignsOut(slot.sid)], x, at, slot);
  }

  function RotatedSteps(): seq<Step> {
    [SignsIn(0, "h0", 0), Rotates("h0", "r1", 10), Remembers("h0")]
  }

  lemma RotatedRun(hash: string -> string)
    requires hash("r1") == "h1"
    ensures ExecAll(hash, INITIAL, RotatedSteps()).calls == [Remember("h0", Slot("r1", 0), 10)]
  {
    FirstSteps(hash);
    var steps := RotatedSteps();
    hide Written, Rotate, RotatedLog, ExecAll, RotatedSteps;
    assert steps == [] + [steps[0]] + [steps[1]] + [steps[2]];
    ExecAllSnoc(hash, INITIAL, [], steps[0]);
    ExecAllSnoc(hash, INITIAL, [] + [steps[0]], steps[1]);
    ExecAllSnoc(hash, INITIAL, [] + [steps[0]] + [steps[1]], steps[2]);
    NoSteps(hash, INITIAL);
  }

  lemma NoSteps(hash: string -> string, s: Replica)
    ensures ExecAll(hash, s, []) == s
  {
  }

  /** One such run, with its times in order: after the sign-out the old cookie's hash is handed the pair at 20. */
  lemma ASignedOutCookieIsHandedOn(hash: string -> string)
    requires hash("r1") == "h1"
    ensures var s := ExecAll(hash, INITIAL, RotatedSteps() + [SignsOut(0)]);
            Reused(After(s.calls), "h0", 20) == Some(Slot("r1", 0)) && MatchRefresh(Replay(s.log), "h0", 20).Err?
  {
    RotatedRun(hash);
    hide ExecAll, MatchRefresh, Replay;
    HeldIffNoneLate(ExecAll(hash, INITIAL, RotatedSteps()).calls, 0, "h0", 20);
    SignOutIsNotHeard(hash, RotatedSteps(), "h0", 20, Slot("r1", 0));
  }
}
