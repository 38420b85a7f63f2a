/**
 An account's sessions and the rotation of their refresh tokens, computed from the account's log. Tokens are known
 by their hashes, which are fresh values.

 The first part is the aggregate. The second says what a log means: each session is a chain of hashes, and a
 presented hash is accepted exactly when it is the last of a live chain, or the one before it within the grace.
 */
module Sessions {
  import opened Common

  const REFRESH_GRACE_MS := 45000

  datatype Session = Session(hash: string, previous: Option<string>, refreshedAt: int, revoked: bool)

  datatype Account = Account(registered: bool, sessions: map<nat, Session>)

  const FRESH := Account(false, map[])

  datatype Event =
    | Registered
    | Issued(sid: nat, hash: string, at: int)
    | Refreshed(sid: nat, hash: string, previous: Option<string>, at: int)
    | Revoked(sid: nat)

  datatype AccountError = NotRegistered | SessionRevoked | UnknownRefreshToken

  datatype Match = Current(sid: nat) | Previous(sid: nat)

  datatype Command =
    | SignIn(sid: nat, hash: string, at: int)
    | Refresh(presented: string, newHash: string, at: int)
    | SignOut(sid: nat)

  // ----- the aggregate -----------------------------------------------------------------------------------------

  function Apply(a: Account, e: Event): Account {
    match e
    case Registered => a.(registered := true)
    case Issued(sid, hash, at) => a.(sessions := a.sessions[sid := Session(hash, None, at, false)])
    case Refreshed(sid, hash, previous, at) =>
      if sid !in a.sessions then a
      else
        var was := a.sessions[sid];
        var before := if previous.Some? then previous else Some(was.hash);
        a.(sessions := a.sessions[sid := Session(hash, before, at, was.revoked)])
    case Revoked(sid) =>
      if sid !in a.sessions then a else a.(sessions := a.sessions[sid := a.sessions[sid].(revoked := true)])
  }

  function Replay(log: seq<Event>): Account {
    if log == [] then FRESH else Apply(Replay(log[..|log| - 1]), log[|log| - 1])
  }

  ghost function Holders(sessions: map<nat, Session>, hash: string): set<nat> {
    set sid | sid in sessions && sessions[sid].hash == hash
  }

  ghost function PreviousHolders(sessions: map<nat, Session>, hash: string): set<nat> {
    set sid | sid in sessions && sessions[sid].previous == Some(hash)
  }

  /** The session whose current hash was presented, or whose previous one was and within the grace. */
  ghost function MatchRefresh(a: Account, presented: string, at: int): Result<Match, AccountError> {
    var current, previous := Holders(a.sessions, presented), PreviousHolders(a.sessions, presented);
    if !a.registered then Err(NotRegistered)
    else if current != {} then
      var sid := Least(current);
      if a.sessions[sid].revoked then Err(SessionRevoked) else Ok(Current(sid))
    else if previous != {} then
      var sid := Least(previous);
      if a.sessions[sid].revoked then Err(SessionRevoked)
      else if at - a.sessions[sid].refreshedAt <= REFRESH_GRACE_MS then Ok(Previous(sid))
      else Err(UnknownRefreshToken)
    else Err(UnknownRefreshToken)
  }

  ghost function Decide(a: Account, command: Command): Result<seq<Event>, AccountError> {
    match command
    case SignIn(sid, hash, at) => Ok((if a.registered then [] else [Registered]) + [Issued(sid, hash, at)])
    case Refresh(presented, newHash, at) =>
      (match MatchRefresh(a, presented, at)
       case Ok(Current(sid)) => Ok([Refreshed(sid, newHash, Some(presented), at)])
       case Ok(Previous(_)) => Ok([])
       case Err(error) => Err(error))
    case SignOut(sid) => if sid in a.sessions then Ok([Revoked(sid)]) else Err(UnknownRefreshToken)
  }

  class LiveAccount {
    var registered: bool
    var sessions: map<nat, Session>

    ghost function Value(): Account
      reads this
    {
      Account(registered, sessions)
    }

    constructor ()
      ensures Value() == FRESH
    {
      registered, sessions := false, map[];
    }

    method ApplyEvent(e: Event)
      modifies this
      ensures Value() == Apply(old(Value()), e)
    {
      match e
      case Registered => registered := true;
      case Issued(sid, hash, at) => sessions := sessions[sid := Session(hash, None, at, false)];
      case Refreshed(sid, hash, previous, at) =>
        if sid in sessions {
          var was := sessions[sid];
          var before := if previous.Some? then previous else Some(was.hash);
          sessions := sessions[sid := Session(hash, before, at, was.revoked)];
        }
      case Revoked(sid) =>
        if sid in sessions {
          sessions := sessions[sid := sessions[sid].(revoked := true)];
        }
    }
  }

  // ----- what a log means --------------------------------------------------------------------------------------------

  datatype Link = Link(hash: string, at: int)

  /** A session's hashes, oldest first, with when each was minted. */
  function Chain(log: seq<Event>, sid: nat): seq<Link> {
    if log == [] then []
    else
      var before, e := Chain(log[..|log| - 1], sid), log[|log| - 1];
      if e.Issued? && e.sid == sid then [Link(e.hash, e.at)]
      else if e.Refreshed? && e.sid == sid && before != [] then before + [Link(e.hash, e.at)]
      else before
  }

  /** Every hash ever minted. */
  function Minted(log: seq<Event>): set<string> {
    if log == [] then {}
    else
      var before, e := Minted(log[..|log| - 1]), log[|log| - 1];
      if e.Issued? || e.Refreshed? then before + {e.hash} else before
  }

  predicate IsRevoked(log: seq<Event>, sid: nat) {
    log != [] &&
    var e := log[|log| - 1];
    if e == Revoked(sid) then Chain(log[..|log| - 1], sid) != []
    else !(e.Issued? && e.sid == sid) && IsRevoked(log[..|log| - 1], sid)
  }

  predicate IsRegistered(log: seq<Event>) {
    log != [] && (log[|log| - 1].Registered? || IsRegistered(log[..|log| - 1]))
  }

  /** `x` is the i-th hash of session `sid`. */
  predicate At(log: seq<Event>, sid: nat, i: nat, x: string) {
    i < |Chain(log, sid)| && Chain(log, sid)[i].hash == x
  }

  /** An event some command decides on, with ids and hashes never used before. */
  ghost predicate EventOk(log: seq<Event>, e: Event) {
    match e
    case Issued(sid, hash, _) => Chain(log, sid) == [] && hash !in Minted(log)
    case Refreshed(sid, hash, previous, at) =>
      previous.Some? && hash !in Minted(log) && MatchRefresh(Replay(log), previous.value, at) == Ok(Current(sid))
    case _ => true
  }

  ghost predicate Accepted(log: seq<Event>)
    decreases |log|
  {
    log == [] || (Accepted(log[..|log| - 1]) && EventOk(log[..|log| - 1], log[|log| - 1]))
  }

  /** A session is the end of its chain. */
  ghost predicate Told(sessions: map<nat, Session>, log: seq<Event>, sid: nat) {
    var chain := Chain(log, sid);
    if chain == [] then sid !in sessions
    else
      && sid in sessions
      && sessions[sid] == Session(
           chain[|chain| - 1].hash,
           if |chain| > 1 then Some(chain[|chain| - 2].hash) else None,
           chain[|chain| - 1].at, IsRevoked(log, sid))
  }

  /** No hash has two places. */
  ghost predicate Unique(log: seq<Event>) {
    forall s1: nat, i1: nat, s2: nat, i2: nat, x :: At(log, s1, i1, x) && At(log, s2, i2, x) ==> s1 == s2 && i1 == i2
  }

  ghost predicate AllMinted(log: seq<Event>) {
    forall sid: nat, i: nat, x :: At(log, sid, i, x) ==> x in Minted(log)
  }

  ghost predicate Inv(log: seq<Event>) {
    && Unique(log) && AllMinted(log)
    && Replay(log).registered == IsRegistered(log)
    && forall sid: nat :: Told(Replay(log).sessions, log, sid)
  }

  // ----- a presented hash against the chains -----------------------------------------------------------------------

  ghost predicate LiveLast(log: seq<Event>, sid: nat, x: string) {
    Chain(log, sid) != [] && At(log, sid, |Chain(log, sid)| - 1, x)
  }

  ghost predicate LivePrevious(log: seq<Event>, sid: nat, x: string) {
    |Chain(log, sid)| > 1 && At(log, sid, |Chain(log, sid)| - 2, x)
  }

  lemma HoldersMean(log: seq<Event>, x: string, sid: nat)
    requires Inv(log)
    ensures sid in Holders(Replay(log).sessions, x) <==> LiveLast(log, sid, x)
    ensures sid in PreviousHolders(Replay(log).sessions, x) <==> LivePrevious(log, sid, x)
  {
    hide Chain, Replay, Unique, AllMinted, IsRevoked;
    assert Told(Replay(log).sessions, log, sid);
  }

  /** No two sessions hold one hash, and none holds it both now and before. */
  lemma OneHolder(log: seq<Event>, x: string, s1: nat, s2: nat)
    requires Unique(log) && (LiveLast(log, s1, x) || LivePrevious(log, s1, x)) &&
            (LiveLast(log, s2, x) || LivePrevious(log, s2, x))
    ensures s1 == s2 && (LiveLast(log, s1, x) <==> LiveLast(log, s2, x))
  {
    hide Chain, At;
  }

  lemma CurrentIs(log: seq<Event>, x: string, at: int, sid: nat)
    requires Inv(log) && LiveLast(log, sid, x)
    ensures MatchRefresh(Replay(log), x, at) ==
            if !IsRegistered(log) then Err(NotRegistered) else if IsRevoked(log, sid) then Err(SessionRevoked)
              else Ok(Current(sid))
  {
    assert Chain(log, sid) != [];
    hide Chain, Replay, Unique, AllMinted, IsRevoked, At, LiveLast, LivePrevious, Holders, PreviousHolders,
      IsRegistered;
    assert Told(Replay(log).sessions, log, sid);
    var holders := Holders(Replay(log).sessions, x);
    HoldersMean(log, x, sid);
    HoldersMean(log, x, Least(holders));
    OneHolder(log, x, sid, Least(holders));
  }

  lemma NotBoth(log: seq<Event>, x: string, s1: nat, s2: nat)
    requires Unique(log) && LivePrevious(log, s1, x)
    ensures !LiveLast(log, s2, x)
  {
    hide Chain;
  }

  lemma PreviousIs(log: seq<Event>, x: string, at: int, sid: nat)
    requires Inv(log) && LivePrevious(log, sid, x)
    ensures |Chain(log, sid)| > 1
    ensures MatchRefresh(Replay(log), x, at) ==
            if !IsRegistered(log) then Err(NotRegistered)
            else if IsRevoked(log, sid) then Err(SessionRevoked)
            else if at - Chain(log, sid)[|Chain(log, sid)| - 1].at <= REFRESH_GRACE_MS then Ok(Previous(sid))
            else Err(UnknownRefreshToken)
  {
    assert |Chain(log, sid)| > 1;
    hide Chain, Replay, Unique, AllMinted, IsRevoked, At, LiveLast, LivePrevious, Holders, PreviousHolders,
      IsRegistered;
    assert Told(Replay(log).sessions, log, sid);
    var current, previous := Holders(Replay(log).sessions, x), PreviousHolders(Replay(log).sessions, x);
    HoldersMean(log, x, sid);
    if current != {} {
      HoldersMean(log, x, Least(current));
      NotBoth(log, x, sid, Least(current));
    } else {
      HoldersMean(log, x, Least(previous));
      OneHolder(log, x, sid, Least(previous));
    }
  }

  lemma NeitherIs(log: seq<Event>, x: string, at: int)
    requires Inv(log) && forall sid: nat :: !LiveLast(log, sid, x) && !LivePrevious(log, sid, x)
    ensures MatchRefresh(Replay(log), x, at) == Err(if IsRegistered(log) then UnknownRefreshToken else NotRegistered)
  {
    hide Chain, Replay, Unique, AllMinted, IsRevoked, At, LiveLast, LivePrevious, IsRegistered, Holders,
      PreviousHolders;
    var current, previous := Holders(Replay(log).sessions, x), PreviousHolders(Replay(log).sessions, x);
    if current != {} {
      HoldersMean(log, x, Least(current));
    } else if previous != {} {
      HoldersMean(log, x, Least(previous));
    }
  }

  // ----- each event keeps it ---------------------------------------------------------------------------------------

  lemma ChainGrows(log: seq<Event>, e: Event, sid: nat)
    ensures Chain(log + [e], sid) ==
            if e.Issued? && e.sid == sid then [Link(e.hash, e.at)]
            else if e.Refreshed? && e.sid == sid && Chain(log, sid) != [] then Chain(log, sid) + [Link(e.hash, e.at)]
            else Chain(log, sid)
    ensures Minted(log + [e]) == if e.Issued? || e.Refreshed? then Minted(log) + {e.hash} else Minted(log)
    ensures IsRegistered(log + [e]) <==> e.Registered? || IsRegistered(log)
    ensures Replay(log + [e]) == Apply(Replay(log), e)
    ensures IsRevoked(log + [e], sid) <==>
            if e == Revoked(sid) then Chain(log, sid) != [] else !(e.Issued? && e.sid == sid) && IsRevoked(log, sid)
  {
    assert (log + [e])[..|log|] == log && (log + [e])[|log|] == e;
  }

  /** A new hash has one place, and the others keep theirs. */
  lemma PlacesGrow(log: seq<Event>, e: Event, sid: nat, i: nat, x: string)
    requires EventOk(log, e) && At(log + [e], sid, i, x)
    ensures At(log, sid, i, x) ||
            ((e.Issued? || e.Refreshed?) && x == e.hash && sid == e.sid && i == |Chain(log, sid)|)
  {
    ChainGrows(log, e, sid);
    hide Chain, MatchRefresh;
  }

  lemma UniqueGrows(log: seq<Event>, e: Event)
    requires EventOk(log, e) && Unique(log) && AllMinted(log)
    ensures Unique(log + [e]) && AllMinted(log + [e])
  {
    var longer := log + [e];
    ChainGrows(log, e, 0);
    hide Chain, Minted, MatchRefresh, Replay, At;
    forall sid: nat, i: nat, x | At(longer, sid, i, x) ensures x in Minted(longer) {
      PlacesGrow(log, e, sid, i, x);
    }
    forall s1: nat, i1: nat, s2: nat, i2: nat, x | At(longer, s1, i1, x) && At(longer, s2, i2, x)
      ensures s1 == s2 && i1 == i2 {
      PlacesGrow(log, e, s1, i1, x);
      PlacesGrow(log, e, s2, i2, x);
    }
  }

  lemma ToldGrows(log: seq<Event>, e: Event, sid: nat)
    requires Inv(log) && EventOk(log, e)
    ensures Told(Replay(log + [e]).sessions, log + [e], sid)
  {
    ChainGrows(log, e, sid);
    assert Told(Replay(log).sessions, log, sid);
    if e.Refreshed? && e.sid == sid {
      RefreshedIsLast(log, e);
      assert Told(Replay(log).sessions, log, e.sid);
    }
    hide Chain, Replay, IsRevoked, Unique, AllMinted, MatchRefresh, Minted;
  }

  /** A rotation presented the last hash of its session. */
  lemma RefreshedIsLast(log: seq<Event>, e: Event)
    requires Inv(log) && e.Refreshed? && EventOk(log, e)
    ensures LiveLast(log, e.sid, e.previous.value)
  {
    var x := e.previous.value;
    hide Chain, Replay, IsRevoked, Unique, AllMinted, Minted, LiveLast, LivePrevious, At, Told;
    HoldersMean(log, x, e.sid);
  }

  lemma {:induction false} AcceptedInv(log: seq<Event>)
    requires Accepted(log)
    ensures Inv(log)
    decreases |log|
  {
    if log != [] {
      var before, e := log[..|log| - 1], log[|log| - 1];
      assert log == before + [e];
      AcceptedInv(before);
      UniqueGrows(before, e);
      ChainGrows(before, e, 0);
      hide Chain, Replay, IsRevoked, Unique, AllMinted, MatchRefresh, Minted, Told, IsRegistered, EventOk;
      forall sid: nat ensures Told(Replay(log).sessions, log, sid) {
        ToldGrows(before, e, sid);
      }
      RegisteredStep(Replay(before), e);
    }
  }

  lemma RegisteredStep(a: Account, e: Event)
    ensures Apply(a, e).registered <==> e.Registered? || a.registered
  {
  }

  // ----- what it comes to ------------------------------------------------------------------------------------------

  /**
   On every accepted log of a registered account, a hash is accepted as a session's own exactly when it is the last
   of that session's chain and the session is not revoked; as its previous one exactly when it is the one before and
   the last was minted within the grace. So an older one, or a revoked session's, never is.
   */
  lemma AcceptedHashes(log: seq<Event>, x: string, at: int, sid: nat)
    requires Accepted(log) && IsRegistered(log)
    ensures MatchRefresh(Replay(log), x, at) == Ok(Current(sid)) <==> LiveLast(log, sid, x) && !IsRevoked(log, sid)
    ensures MatchRefresh(Replay(log), x, at) == Ok(Previous(sid)) <==>
            && LivePrevious(log, sid, x) && !IsRevoked(log, sid)
            && at - Chain(log, sid)[|Chain(log, sid)| - 1].at <= REFRESH_GRACE_MS
  {
    AcceptedInv(log);
    hide Chain, Replay, IsRevoked, Unique, AllMinted, MatchRefresh, At, LiveLast, LivePrevious;
    if other: nat :| LiveLast(log, other, x) {
      CurrentIs(log, x, at, other);
      if LivePrevious(log, sid, x) {
        NotBoth(log, x, sid, other);
      } else if LiveLast(log, sid, x) {
        OneHolder(log, x, sid, other);
      }
    } else if other: nat :| LivePrevious(log, other, x) {
      PreviousIs(log, x, at, other);
      if LivePrevious(log, sid, x) {
        OneHolder(log, x, sid, other);
      }
    } else {
      NeitherIs(log, x, at);
    }
  }

  /**
   What a refresh writes, by the log alone: the last hash of a live chain is rotated for the new one, the one before
   it writes nothing for 45 seconds after the last was minted and is unknown from then on, a revoked session's two
   are refused as such, and any other is unknown.
   */
  lemma WhatARefreshWrites(log: seq<Event>, x: string, newHash: string, at: int)
    requires Accepted(log)
    ensures var decided := Decide(Replay(log), Refresh(x, newHash, at));
            if !IsRegistered(log) then decided == Err(NotRegistered)
            else
              && (forall sid: nat :: LiveLast(log, sid, x) ==>
                   decided == if IsRevoked(log, sid) then Err(SessionRevoked)
                              else Ok([Refreshed(sid, newHash, Some(x), at)]))
              && (forall sid: nat :: LivePrevious(log, sid, x) ==>
                   decided == if IsRevoked(log, sid) then Err(SessionRevoked)
                              else if at <= Chain(log, sid)[|Chain(log, sid)| - 1].at + 45_000 then Ok([])
                              else Err(UnknownRefreshToken))
              && ((forall sid: nat :: !LiveLast(log, sid, x) && !LivePrevious(log, sid, x)) ==>
                   decided == Err(UnknownRefreshToken))
  {
    AcceptedInv(log);
    hide Chain, Replay, IsRevoked, Unique, AllMinted, MatchRefresh, At, LiveLast, LivePrevious, IsRegistered, Inv,
      Accepted;
    forall sid: nat | LiveLast(log, sid, x)
      ensures MatchRefresh(Replay(log), x, at) ==
              if !IsRegistered(log) then Err(NotRegistered) else if IsRevoked(log, sid) then Err(SessionRevoked)
                else Ok(Current(sid))
    {
      CurrentIs(log, x, at, sid);
    }
    forall sid: nat | LivePrevious(log, sid, x)
      ensures |Chain(log, sid)| > 1
      ensures MatchRefresh(Replay(log), x, at) ==
              if !IsRegistered(log) then Err(NotRegistered)
              else if IsRevoked(log, sid) then Err(SessionRevoked)
              else if at - Chain(log, sid)[|Chain(log, sid)| - 1].at <= REFRESH_GRACE_MS then Ok(Previous(sid))
              else Err(UnknownRefreshToken)
    {
      PreviousIs(log, x, at, sid);
    }
    if forall sid: nat :: !LiveLast(log, sid, x) && !LivePrevious(log, sid, x) {
      NeitherIs(log, x, at);
    }
  }

  /** A sign-in opens its session, registering the account that is not; a sign-out takes any session the log knows. */
  lemma WhatSignsInAndOut(log: seq<Event>, sid: nat, hash: string, at: int)
    requires Accepted(log)
    ensures var decided, issued := Decide(Replay(log), SignIn(sid, hash, at)), Issued(sid, hash, at);
            decided == Ok(if IsRegistered(log) then [issued] else [Registered, issued])
    ensures Decide(Replay(log), SignOut(sid)) ==
            if Chain(log, sid) == [] then Err(UnknownRefreshToken) else Ok([Revoked(sid)])
  {
    AcceptedInv(log);
    hide Chain, Replay, IsRevoked, Unique, AllMinted, MatchRefresh;
    assert Told(Replay(log).sessions, log, sid);
    assert [] + [Issued(sid, hash, at)] == [Issued(sid, hash, at)];
    assert [Registered] + [Issued(sid, hash, at)] == [Registered, Issued(sid, hash, at)];
  }

  /** An accepted hash sits in one of the last two places of a live chain, whatever the time. */
  lemma OlderHashesAreDead(log: seq<Event>, x: string, at: int, sid: nat, i: nat)
    requires Accepted(log) && At(log, sid, i, x) && i + 2 < |Chain(log, sid)|
    ensures MatchRefresh(Replay(log), x, at).Err?
  {
    AcceptedInv(log);
    forall other: nat ensures !LiveLast(log, other, x) && !LivePrevious(log, other, x) {
      hide Chain;
    }
    NeitherIs(log, x, at);
  }

  lemma {:induction false} AcceptedPrefix(log: seq<Event>, n: nat)
    requires Accepted(log) && n <= |log|
    ensures Accepted(log[..n]) && (n < |log| ==> EventOk(log[..n], log[n]))
    decreases |log|
  {
    hide EventOk;
    if n < |log| - 1 {
      AcceptedPrefix(log[..|log| - 1], n);
      assert log[..|log| - 1][..n] == log[..n];
    } else if n == |log| {
      assert log[..n] == log;
    }
  }

  /** What was a place of a chain stays one. */
  lemma {:induction false} PlacesStay(log: seq<Event>, n: nat, sid: nat, i: nat, x: string)
    requires Accepted(log) && n <= |log| && At(log[..n], sid, i, x)
    ensures At(log, sid, i, x)
    decreases |log|
  {
    if n == |log| {
      assert log[..n] == log;
    } else {
      var before, e := log[..|log| - 1], log[|log| - 1];
      assert before[..n] == log[..n] && log == before + [e];
      PlacesStay(before, n, sid, i, x);
      ChainGrows(before, e, sid);
      hide Chain, MatchRefresh;
    }
  }

  lemma RotatedIsNotLast(log: seq<Event>, i: nat)
    requires Accepted(log) && i < |log| && log[i].Refreshed?
    ensures var chain := Chain(log[..i], log[i].sid);
            chain != [] && log[i].previous.Some? && At(log, log[i].sid, |chain| - 1, log[i].previous.value) &&
              |Chain(log, log[i].sid)| > |chain|
  {
    var before, e := log[..i], log[i];
    AcceptedPrefix(log, i);
    AcceptedPrefix(log, i + 1);
    AcceptedInv(before);
    RefreshedIsLast(before, e);
    var chain := Chain(before, e.sid);
    PlacesStay(log, i, e.sid, |chain| - 1, e.previous.value);
    ChainGrows(before, e, e.sid);
    assert log[..i + 1] == before + [e];
    PlacesStay(log, i + 1, e.sid, |chain|, e.hash);
  }

  /** One cookie is rotated once: no hash is ever presented by two rotations of a log. */
  lemma OneRotationPerHash(log: seq<Event>, i: nat, j: nat)
    requires Accepted(log) && i < j < |log| && log[i].Refreshed? && log[j].Refreshed?
    ensures log[i].previous != log[j].previous
  {
    var before := log[..j];
    AcceptedPrefix(log, j);
    AcceptedInv(before);
    RefreshedIsLast(before, log[j]);
    assert before[i] == log[i] && before[..i] == log[..i];
    RotatedIsNotLast(before, i);
    hide Chain, MatchRefresh, Replay;
  }

  /** The ids and hashes a command mints were never used. */
  ghost predicate MintsFresh(log: seq<Event>, command: Command) {
    match command
    case SignIn(sid, hash, _) => Chain(log, sid) == [] && hash !in Minted(log)
    case Refresh(_, newHash, _) => newHash !in Minted(log)
    case SignOut(_) => true
  }

  lemma AcceptedSnoc(log: seq<Event>, e: Event)
    requires Accepted(log) && EventOk(log, e)
    ensures Accepted(log + [e])
  {
    hide EventOk;
    assert (log + [e])[..|log|] == log;
  }

  lemma SignInIsAccepted(log: seq<Event>, sid: nat, hash: string, at: int)
    requires Accepted(log) && Chain(log, sid) == [] && hash !in Minted(log)
    ensures Accepted(log + [Issued(sid, hash, at)]) && Accepted(log + [Registered] + [Issued(sid, hash, at)])
  {
    ChainGrows(log, Registered, sid);
    hide Accepted, Chain, Minted;
    AcceptedSnoc(log, Issued(sid, hash, at));
    AcceptedSnoc(log, Registered);
    AcceptedSnoc(log + [Registered], Issued(sid, hash, at));
  }

  /** Whatever is decided, with fresh ids and hashes, keeps a log accepted. */
  lemma DecidedIsAccepted(log: seq<Event>, command: Command)
    requires Accepted(log) && MintsFresh(log, command) && Decide(Replay(log), command).Ok?
    ensures Accepted(log + Decide(Replay(log), command).value)
  {
    hide Accepted, Chain, Minted, Replay, MatchRefresh;
    var events := Decide(Replay(log), command).value;
    match command
    case SignIn(sid, hash, at) =>
      SignInIsAccepted(log, sid, hash, at);
      if !Replay(log).registered {
        assert log + events == log + [Registered] + [Issued(sid, hash, at)];
      } else {
        assert events == [Issued(sid, hash, at)];
      }
    case Refresh(presented, newHash, at) =>
      if events == [] {
        assert log + events == log;
      } else {
        AcceptedSnoc(log, Refreshed(MatchRefresh(Replay(log), presented, at).value.sid, newHash, Some(presented), at));
      }
    case SignOut(sid) => AcceptedSnoc(log, Revoked(sid));
  }

  // ----- racing refreshes ------------------------------------------------------------------------------------------

  /** A refresh that read the log at `readSeq`; it is appended only if that is still the whole log. */
  datatype Attempt = Attempt(readSeq: nat, presented: string, newHash: string, at: int)

  ghost function Try(log: seq<Event>, a: Attempt): seq<Event> {
    if a.readSeq != |log| then log
    else
      var decided := Decide(Replay(log), Refresh(a.presented, a.newHash, a.at));
      if decided.Ok? then log + decided.value else log
  }

  ghost function TryAll(log: seq<Event>, attempts: seq<Attempt>): seq<Event>
    decreases |attempts|
  {
    if attempts == [] then log else TryAll(Try(log, attempts[0]), attempts[1..])
  }

  lemma {:induction false} TooLate(log: seq<Event>, attempts: seq<Attempt>)
    requires forall i :: 0 <= i < |attempts| ==> attempts[i].readSeq < |log|
    ensures TryAll(log, attempts) == log
    decreases |attempts|
  {
    hide Decide;
    if attempts != [] {
      TooLate(log, attempts[1..]);
    }
  }

  /** Any number of refreshes of one cookie, read at one seq, write one rotation: the first one's, and no other. */
  lemma RaceWritesOneRotation(log: seq<Event>, presented: string, sid: nat, attempts: seq<Attempt>)
    requires attempts != [] && forall i :: 0 <= i < |attempts| ==>
            attempts[i].readSeq == |log| && attempts[i].presented == presented
    requires MatchRefresh(Replay(log), presented, attempts[0].at) == Ok(Current(sid))
    ensures TryAll(log, attempts) == log + [Refreshed(sid, attempts[0].newHash, Some(presented), attempts[0].at)]
  {
    var once := Try(log, attempts[0]);
    assert once == log + [Refreshed(sid, attempts[0].newHash, Some(presented), attempts[0].at)];
    hide Decide, MatchRefresh;
    TooLate(once, attempts[1..]);
  }
}
