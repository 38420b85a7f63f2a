/**
 The rest of what a run's log means, and every decision in the log's own terms: who spent what, who ended the run and
 why, whether it waits, and what each command writes or is refused with, said of positions and counts in the log.
 */
module RunRecord {
  import opened Common
  import opened Inference
  import opened Run
  import opened RunLog

  // ----- what was spent --------------------------------------------------------------------------------------------

  /** How many rounds of a kind the log records. */
  function RoundsOf(log: seq<Event>, kind: RoundKind): nat {
    if log == [] then 0
    else RoundsOf(log[..|log| - 1], kind) + if IsRound(log[|log| - 1], kind) then 1 else 0
  }

  predicate IsRound(e: Event, kind: RoundKind) {
    e.Spent? && e.round == Some(kind)
  }

  predicate Plays(e: Event, recipe: string) {
    e.Spent? && recipe in e.recipes
  }

  ghost predicate PlayedIn(log: seq<Event>, recipe: string) {
    exists i :: 0 <= i < |log| && Plays(log[i], recipe)
  }

  lemma SpentStep(run: RunState, e: Event, recipe: string)
    ensures Apply(run, e).roundsSpent.0 == run.roundsSpent.0 + if IsRound(e, Spoken) then 1 else 0
    ensures Apply(run, e).roundsSpent.1 == run.roundsSpent.1 + if IsRound(e, OnScreen) then 1 else 0
    ensures recipe in Apply(run, e).playedRecipes <==> recipe in run.playedRecipes || Plays(e, recipe)
  {
  }

  lemma PlayedStep(before: seq<Event>, e: Event, recipe: string)
    ensures PlayedIn(before + [e], recipe) <==> PlayedIn(before, recipe) || Plays(e, recipe)
  {
    hide Plays;
    assert (before + [e])[|before|] == e;
    if PlayedIn(before, recipe) {
      var i :| 0 <= i < |before| && Plays(before[i], recipe);
      assert (before + [e])[i] == before[i];
    }
  }

  /** For every log: the spoken rounds, then those on the screen, and every recipe some round played. */
  lemma {:induction false} SpentMeaning(log: seq<Event>, recipe: string)
    ensures Replay(log).roundsSpent == (RoundsOf(log, Spoken), RoundsOf(log, OnScreen))
    ensures recipe in Replay(log).playedRecipes <==> PlayedIn(log, recipe)
  {
    if log != [] {
      hide Apply, PlayedIn, Plays;
      var before, e := log[..|log| - 1], log[|log| - 1];
      assert log == before + [e];
      SpentMeaning(before, recipe);
      SpentStep(Replay(before), e, recipe);
      PlayedStep(before, e, recipe);
    }
  }

  // ----- how it ended ----------------------------------------------------------------------------------------------

  predicate Has(log: seq<Event>, e: Event) {
    e in log
  }

  lemma HasStep(before: seq<Event>, e: Event, f: Event)
    ensures Has(before + [e], f) <==> Has(before, f) || e == f
  {
  }

  lemma EndingStep(run: RunState, e: Event)
    ensures Apply(run, e).failure == if e.HasFailed? then Some(e.why) else run.failure
    ensures Apply(run, e).stoppedBy == if e.WasStopped? then Some(e.stopper) else run.stoppedBy
    ensures Apply(run, e).finishReason == if e.HasFinished? then e.finishReason else run.finishReason
  {
  }

  /** Nothing ends a run that has ended. */
  lemma NoSecondEnding(before: seq<Event>, e: Event, f: Event)
    requires Accepted(before + [e]) && IsEnding(e) && IsEnding(f)
    ensures !Has(before, f)
  {
    EndsOnce(before + [e]);
    assert (before + [e])[|before|] == e;
    forall i | 0 <= i < |before| ensures before[i] != f {
      assert (before + [e])[i] == before[i];
    }
  }

  lemma Unset(run: RunState)
    requires run == FRESH
    ensures run.failure.None? && run.stoppedBy.None? && run.finishReason.None?
  {
  }

  /** On an accepted log, why it failed, who stopped it and the reason it finished with are its ending's own. */
  lemma {:induction false} EndingsMeaning(log: seq<Event>, who: string, reason: FinishReason)
    requires Accepted(log)
    ensures Replay(log).failure == Some(who) <==> Has(log, HasFailed(who))
    ensures Replay(log).stoppedBy == Some(who) <==> Has(log, WasStopped(who))
    ensures Replay(log).finishReason == Some(reason) <==> Has(log, HasFinished(Some(reason)))
  {
    hide Apply, Accepted, Allowed;
    if log == [] {
      Unset(Replay(log));
    } else {
      var before, e := log[..|log| - 1], log[|log| - 1];
      assert log == before + [e];
      AcceptedLast(log);
      EndingsMeaning(before, who, reason);
      EndingStep(Replay(before), e);
      hide Has;
      HasStep(before, e, HasFailed(who));
      HasStep(before, e, WasStopped(who));
      HasStep(before, e, HasFinished(Some(reason)));
      if IsEnding(e) {
        NoSecondEnding(before, e, HasFailed(who));
        NoSecondEnding(before, e, WasStopped(who));
        NoSecondEnding(before, e, HasFinished(Some(reason)));
      }
    }
  }

  // ----- whether it began, and whether it waits --------------------------------------------------------------------

  ghost predicate Began(log: seq<Event>) {
    exists i :: 0 <= i < |log| && log[i].Started?
  }

  /** An event after which a run no longer waits. */
  predicate EndsWaiting(e: Event) {
    e.Started? || e.Answered? || IsEnding(e)
  }

  ghost predicate WaitsSince(log: seq<Event>, i: nat)
    requires i < |log|
  {
    log[i].Suspended? && forall j :: i < j < |log| ==> !EndsWaiting(log[j])
  }

  /** A card came, and nothing since has started, answered or ended the run. */
  ghost predicate Waits(log: seq<Event>) {
    exists i: nat :: i < |log| && WaitsSince(log, i)
  }

  lemma WaitsStep(before: seq<Event>, e: Event)
    ensures Waits(before + [e]) <==> e.Suspended? || (Waits(before) && !EndsWaiting(e))
  {
    hide EndsWaiting;
    var log := before + [e];
    assert log[|before|] == e;
    assert WaitsSince(log, |before|) <==> e.Suspended?;
    forall i: nat | i < |before| ensures WaitsSince(log, i) <==> WaitsSince(before, i) && !EndsWaiting(e) {
      assert log[i] == before[i] && forall j :: i < j < |before| ==> log[j] == before[j];
    }
  }

  lemma BeganStep(before: seq<Event>, e: Event)
    ensures Began(before + [e]) <==> Began(before) || e.Started?
  {
    var log := before + [e];
    assert log[|before|] == e;
    if i :| 0 <= i < |before| && before[i].Started? {
      assert log[i] == before[i];
    }
  }

  lemma WaitingMoves(run: RunState, e: Event)
    ensures Apply(run, e).status.AwaitingApproval? <==>
            e.Suspended? || (run.status.AwaitingApproval? && !EndsWaiting(e))
    ensures Apply(run, e).started <==> run.started || e.Started?
  {
  }

  /** For every log, the run waits exactly when its log says so, and has begun when it holds a start. */
  lemma {:induction false} WaitingMeaning(log: seq<Event>)
    ensures Replay(log).status.AwaitingApproval? <==> Waits(log)
    ensures Replay(log).started <==> Began(log)
  {
    if log != [] {
      hide Apply, Waits, Began, EndsWaiting;
      var before, e := log[..|log| - 1], log[|log| - 1];
      assert log == before + [e];
      WaitingMeaning(before);
      WaitsStep(before, e);
      BeganStep(before, e);
      WaitingMoves(Replay(before), e);
    }
  }

  // ----- what each command writes ----------------------------------------------------------------------------------

  /** No answer, and a card that asks about `call` is the latest. */
  ghost predicate AsksAbout(log: seq<Event>, call: string) {
    exists card: PendingApproval :: card.callId == call && WaitingOn(log, card)
  }

  lemma AsksAboutMeaning(log: seq<Event>, call: string)
    ensures AsksAbout(log, call) <==> Replay(log).pending.Some? && Replay(log).pending.value.callId == call
  {
    hide Replay, WaitingOn;
    forall card: PendingApproval ensures Replay(log).pending == Some(card) <==> WaitingOn(log, card) {
      PendingMeaning(log, card);
    }
    if Replay(log).pending.Some? && Replay(log).pending.value.callId == call {
      assert WaitingOn(log, Replay(log).pending.value);
    }
  }

  /** Finished or failed: even frames are refused. */
  ghost predicate IsClosed(log: seq<Event>) {
    exists i :: 0 <= i < |log| && (log[i].HasFinished? || log[i].HasFailed?)
  }

  /** The status of an accepted log is the ending it holds, if it holds one. */
  lemma StatusMeaning(log: seq<Event>)
    requires Accepted(log)
    ensures Replay(log).status.Terminal() <==> HasEnding(log)
    ensures Replay(log).status.Finished? || Replay(log).status.Failed? <==> IsClosed(log)
  {
    hide Replay, Accepted;
    EndsOnce(log);
    if HasEnding(log) {
      var i :| 0 <= i < |log| && IsEnding(log[i]);
      if k :| 0 <= k < |log| && (log[k].HasFinished? || log[k].HasFailed?) {
        assert IsEnding(log[k]);
      }
    }
  }

  /** A claim: the first start of a run that has not ended, with what it captures. */
  lemma WhatStartWrites(log: seq<Event>, thread: string, model: Option<string>, from: TurnSource)
    requires Accepted(log)
    ensures Decide(Replay(log), Start(thread, model, from)) ==
            if Began(log) || HasEnding(log) then Err(AlreadyStarted)
            else Ok([Started(Capture(thread, model, from.kind, if from.kind == Gateway then None else from.via))])
  {
    hide Replay, Accepted, Began, HasEnding;
    StatusMeaning(log);
    WaitingMeaning(log);
  }

  /** A frame: numbered by the frames before it; taken by a stopped run, and by no other that has ended. */
  lemma WhatEmitWrites(log: seq<Event>, frame: Frame)
    requires Accepted(log)
    ensures Decide(Replay(log), Emit(frame)) ==
            if !Began(log) then Err(NotStarted) else if IsClosed(log) then Err(AlreadyEnded)
            else Ok([Emitted(|Frames(log)|, frame)])
  {
    hide Replay, Accepted, Began, IsClosed, HasEnding;
    StatusMeaning(log);
    WaitingMeaning(log);
    EmittedAndAnsweredMeaning(log, "");
  }

  /** Whatever ends a run or parks it is refused on one that has ended, and otherwise written as asked. */
  lemma WhatEndsARun(log: seq<Event>, reason: Option<FinishReason>, words: string, call: PendingApproval)
    requires Accepted(log)
    ensures HasEnding(log) ==>
              forall command :: command in {Finish(reason), Fail(words), Stop(words), Suspend(call)} ==>
                Decide(Replay(log), command) == Err(AlreadyEnded)
    ensures !HasEnding(log) ==>
              && Decide(Replay(log), Finish(reason)) == Ok([HasFinished(reason)])
              && Decide(Replay(log), Fail(words)) == Ok([HasFailed(words)])
              && Decide(Replay(log), Stop(words)) == Ok([WasStopped(words)])
              && Decide(Replay(log), Suspend(call)) == Ok([Suspended(call)])
  {
    hide Replay, Accepted, HasEnding;
    StatusMeaning(log);
  }

  /** A start of tools and a round's spending: for a run that began and has not ended, as asked. */
  lemma WhatARoundWrites(log: seq<Event>, tools: seq<StartedTool>, recipes: seq<string>, round: Option<RoundKind>)
    requires Accepted(log)
    ensures var refused := if !Began(log) then NotStarted else AlreadyEnded;
            if !Began(log) || HasEnding(log) then
              && Decide(Replay(log), StartTools(tools)) == Err(refused)
              && Decide(Replay(log), RecordSpent(recipes, round)) == Err(refused)
            else
              && Decide(Replay(log), StartTools(tools)) == Ok([ToolStarted(tools)])
              && Decide(Replay(log), RecordSpent(recipes, round)) == Ok([Spent(recipes, round)])
  {
    hide Replay, Accepted, Began, HasEnding;
    StatusMeaning(log);
    WaitingMeaning(log);
  }

  /** The calls whose outcome a refused resume cannot know. */
  ghost predicate NamesTheOpen(log: seq<Event>, calls: map<string, string>) {
    forall c :: c in calls <==> OpenInLog(log, c)
  }

  ghost predicate AnyOpen(log: seq<Event>) {
    exists c :: OpenInLog(log, c)
  }

  lemma OpenMeaning(log: seq<Event>)
    ensures NamesTheOpen(log, Replay(log).openTools)
    ensures AnyOpen(log) <==> Replay(log).openTools != map[]
  {
    hide Replay, OpenInLog;
    forall c ensures c in Replay(log).openTools <==> OpenInLog(log, c) {
      OpenToolsMeaning(log, c);
    }
    if Replay(log).openTools != map[] {
      var c :| c in Replay(log).openTools;
      assert OpenInLog(log, c);
    }
  }

  /** A resume: refused, in this order, before the start, after the end, on a wait, on an open call, the third time. */
  lemma WhatResumeWrites(log: seq<Event>, cause: string)
    requires Accepted(log)
    ensures var decided := Decide(Replay(log), Resume(cause));
            if !Began(log) then decided == Err(NotStarted)
            else if HasEnding(log) then decided == Err(AlreadyEnded)
            else if Waits(log) then decided == Err(WaitingOnAPerson)
            else if AnyOpen(log) then
              decided.Err? && decided.error.ToolOutcomeUnknown? && NamesTheOpen(log, decided.error.calls)
            else if CountResumed(log) >= 2 then decided == Err(ResumedTooOften)
            else decided == Ok([Resumed(CountResumed(log) + 1, cause)])
  {
    hide Replay, Accepted, Began, HasEnding, Waits, AnyOpen, NamesTheOpen, CountResumed;
    StatusMeaning(log);
    WaitingMeaning(log);
    OpenMeaning(log);
    GenerationCountsResumes(log);
  }

  /** An answer: to the card that asks about its call, once, on a run that has not ended. */
  lemma WhatAnswerWrites(log: seq<Event>, call: string, approved: bool, who: string)
    requires Accepted(log)
    ensures Decide(Replay(log), Answer(call, approved, who)) ==
            if AnsweredIn(log, call) then Err(AlreadyAnswered)
            else if HasEnding(log) || !AsksAbout(log, call) then Err(NotAwaiting)
            else Ok([Answered(call, approved, who)])
  {
    hide Replay, Accepted, HasEnding, AsksAbout, AnsweredIn;
    StatusMeaning(log);
    AsksAboutMeaning(log, call);
    EmittedAndAnsweredMeaning(log, call);
  }
}
