/**
 Any number of writers on one run's log: each reads the log, decides on what it read, and appends only if
 the log is still exactly that long. Nothing is assumed about who they are or what they ask for.
 */
module RunWriters {
  import opened Common
  import opened Run
  import opened RunLog
  import opened RunJournal

  /** One command of a write: `Must` refuses the write when it is refused, `May` is then left out. */
  datatype Ask = Must(command: Command) | May(command: Command)

  datatype Intent = Intent(readSeq: nat, asks: seq<Ask>)

  datatype World = World(log: seq<Event>, intents: map<nat, Intent>)

  datatype Step = Read(writer: nat, asks: seq<Ask>) | Write(writer: nat)

  const EMPTY := World([], map[])

  /** The store's append: at the seq that was read, or a conflict that writes nothing. */
  function Commit(log: seq<Event>, readSeq: nat, events: seq<Event>): seq<Event> {
    if readSeq == |log| then log + events else log
  }

  function Prefixed(events: seq<Event>, rest: Result<seq<Event>, RunError>): Result<seq<Event>, RunError> {
    if rest.Ok? then Ok(events + rest.value) else rest
  }

  /** Commands decided in turn, each on the run the ones before it left. */
  function DecideAll(run: RunState, asks: seq<Ask>): Result<seq<Event>, RunError>
    decreases |asks|
  {
    if asks == [] then Ok([])
    else
      match Decide(run, asks[0].command)
      case Ok(events) => Prefixed(events, DecideAll(ApplyAll(run, events), asks[1..]))
      case Err(error) => if asks[0].Must? then Err(error) else DecideAll(run, asks[1..])
  }

  /** What a writer that read the first `readSeq` events decided on. */
  function DecidedAt(log: seq<Event>, readSeq: nat, asks: seq<Ask>): Result<seq<Event>, RunError> {
    if readSeq > |log| then Err(NotStarted) else DecideAll(Replay(log[..readSeq]), asks)
  }

  function Take(w: World, step: Step): World {
    match step
    case Read(k, asks) => w.(intents := w.intents[k := Intent(|w.log|, asks)])
    case Write(k) =>
      if k !in w.intents then w
      else
        var intent := w.intents[k];
        var decided := DecidedAt(w.log, intent.readSeq, intent.asks);
        World(if decided.Ok? then Commit(w.log, intent.readSeq, decided.value) else w.log, w.intents - {k})
  }

  function TakeAll(w: World, steps: seq<Step>): World
    decreases |steps|
  {
    if steps == [] then w else TakeAll(Take(w, steps[0]), steps[1..])
  }

  /** Whatever a list of commands decides on is allowed, event by event. */
  lemma {:induction false} DecidedAllAllowed(run: RunState, asks: seq<Ask>)
    ensures DecideAll(run, asks).Ok? ==> AllowedAll(run, DecideAll(run, asks).value)
    decreases |asks|
  {
    if asks != [] {
      hide Decide, AllowedAll;
      var decided := Decide(run, asks[0].command);
      if decided.Ok? {
        DecidedIsAllowed(run, asks[0].command);
        DecidedAllAllowed(ApplyAll(run, decided.value), asks[1..]);
        if DecideAll(run, asks).Ok? {
          AllowedAllConcat(run, decided.value, DecideAll(ApplyAll(run, decided.value), asks[1..]).value);
        }
      } else {
        DecidedAllAllowed(run, asks[1..]);
      }
    } else {
      assert AllowedAll(run, []);
    }
  }

  lemma TakeKeepsAccepted(w: World, step: Step)
    requires Accepted(w.log)
    ensures Accepted(Take(w, step).log)
  {
    hide Accepted, DecideAll, AllowedAll;
    if step.Write? && step.writer in w.intents {
      var intent := w.intents[step.writer];
      var decided := DecidedAt(w.log, intent.readSeq, intent.asks);
      if decided.Ok? && intent.readSeq == |w.log| {
        assert w.log[..intent.readSeq] == w.log;
        DecidedAllAllowed(Replay(w.log), intent.asks);
        AcceptedAppend(w.log, decided.value);
      }
    }
  }

  lemma {:induction false} TakeAllKeepsAccepted(w: World, steps: seq<Step>)
    requires Accepted(w.log)
    ensures Accepted(TakeAll(w, steps).log)
    decreases |steps|
  {
    if steps != [] {
      TakeKeepsAccepted(w, steps[0]);
      TakeAllKeepsAccepted(Take(w, steps[0]), steps[1..]);
    }
  }

  /**
   However many writers race, and whatever they ask for: the log has one ending, with nothing after a
   finish or a failure and only frames after a stop; no call is answered twice, and each answer met the
   latest unanswered card of a run that had not ended; and no more than two resumes are written.
   */
  lemma EveryRaceIsSafe(steps: seq<Step>)
    ensures var log := TakeAll(EMPTY, steps).log;
            && Accepted(log) && OneEnding(log) && CountResumed(log) <= 2
            && (forall i, j :: 0 <= i < j < |log| && log[i].Answered? && log[j].Answered? ==>
                 log[i].callId != log[j].callId)
            && (forall i :: 0 <= i < |log| && log[i].Answered? ==>
                  && !HasEnding(log[..i])
                  && exists call: PendingApproval :: call.callId == log[i].callId && WaitingOn(log[..i], call))
  {
    var log := TakeAll(EMPTY, steps).log;
    TakeAllKeepsAccepted(EMPTY, steps);
    EndsOnce(log);
    GenerationCountsResumes(log);
    forall i, j | 0 <= i < j < |log| && log[i].Answered? && log[j].Answered? ensures log[i].callId != log[j].callId {
      AnsweredAtMostOnce(log, i, j);
    }
    forall i | 0 <= i < |log| && log[i].Answered?
      ensures !HasEnding(log[..i])
      ensures exists call: PendingApproval :: call.callId == log[i].callId && WaitingOn(log[..i], call)
    {
      AnsweredOnlyWhileWaiting(log, i);
    }
  }

  /** A writer reads the whole log; its write lands exactly when it decided on something and nobody wrote between. */
  lemma WhatAWriterLeaves(steps: seq<Step>, k: nat, asks: seq<Ask>)
    ensures var w := TakeAll(EMPTY, steps);
            var written := Take(Take(w, Read(k, asks)), Write(k)).log;
            var decided := DecideAll(Replay(w.log), asks);
            written == if decided.Ok? then w.log + decided.value else w.log
  {
    var w := TakeAll(EMPTY, steps);
    hide DecideAll, Replay, TakeAll;
    assert w.log[..|w.log|] == w.log;
  }

  /** And one that reads before another's write lands writes nothing after it. */
  lemma AStaleWriterLeavesNothing(w: World, k: nat, asks: seq<Ask>, more: seq<Event>)
    requires more != []
    ensures Take(Take(w, Read(k, asks)).(log := w.log + more), Write(k)).log == w.log + more
  {
    hide DecideAll, Replay;
  }

  // ----- several commands in one write -------------------------------------------------------------------------------

  /** A parked run that is interrupted: its frames, each left out if it is refused, and then the stop. */
  function Interrupt(frames: seq<Frame>, who: string): seq<Ask> {
    if frames == [] then [Must(Stop(who))] else [May(Emit(frames[0]))] + Interrupt(frames[1..], who)
  }

  function Numbered(n: nat, frames: seq<Frame>): seq<Event>
    decreases |frames|
  {
    if frames == [] then [] else [Emitted(n, frames[0])] + Numbered(n + 1, frames[1..])
  }

  /** On a run that began and has not ended, every frame and the stop; on one that has ended, nothing. */
  lemma {:induction false} WhatAnInterruptWrites(run: RunState, frames: seq<Frame>, who: string)
    requires run.started
    ensures DecideAll(run, Interrupt(frames, who)) ==
            if run.status.Terminal() then Err(AlreadyEnded)
            else Ok(Numbered(|run.emitted|, frames) + [WasStopped(who)])
    decreases |frames|
  {
    var asks := Interrupt(frames, who);
    if frames == [] {
      assert asks[1..] == [];
      assert DecideAll(ApplyAll(run, [WasStopped(who)]), []) == Ok([]);
      assert [WasStopped(who)] + [] == [WasStopped(who)];
      assert Numbered(|run.emitted|, frames) + [WasStopped(who)] == [WasStopped(who)];
    } else {
      assert asks[1..] == Interrupt(frames[1..], who);
      if run.status.Finished? || run.status.Failed? {
        WhatAnInterruptWrites(run, frames[1..], who);
      } else {
        var e := Emitted(|run.emitted|, frames[0]);
        ApplyAllOne(run, e);
        WhatAnInterruptWrites(Apply(run, e), frames[1..], who);
        assert [e] + (Numbered(|run.emitted| + 1, frames[1..]) + [WasStopped(who)])
            == Numbered(|run.emitted|, frames) + [WasStopped(who)];
      }
    }
  }

  // ----- a race at one seq ---------------------------------------------------------------------------

  /** Writers that all read the log at `readSeq`, committing in turn: the log they leave, and who won. */
  function Race(log: seq<Event>, readSeq: nat, writers: seq<seq<Ask>>): (seq<Event>, seq<bool>)
    decreases |writers|
  {
    if writers == [] then (log, [])
    else
      var decided := DecidedAt(log, readSeq, writers[0]);
      var won := decided.Ok? && readSeq == |log|;
      var rest := Race(if won then log + decided.value else log, readSeq, writers[1..]);
      (rest.0, [won] + rest.1)
  }

  lemma {:induction false} LateWritersLose(log: seq<Event>, readSeq: nat, writers: seq<seq<Ask>>)
    requires readSeq < |log|
    ensures Race(log, readSeq, writers).0 == log
    ensures |Race(log, readSeq, writers).1| == |writers|
    ensures forall i :: 0 <= i < |writers| ==> !Race(log, readSeq, writers).1[i]
    decreases |writers|
  {
    hide DecidedAt;
    if writers != [] {
      LateWritersLose(log, readSeq, writers[1..]);
    }
  }

  /** Of any number of writes decided on the same log, each with something to write, exactly the first is written. */
  lemma RaceHasOneWinner(log: seq<Event>, writers: seq<seq<Ask>>)
    requires writers != []
    requires DecideAll(Replay(log), writers[0]).Ok? && DecideAll(Replay(log), writers[0]).value != []
    ensures Race(log, |log|, writers).0 == log + DecideAll(Replay(log), writers[0]).value
    ensures var won := Race(log, |log|, writers).1;
            |won| == |writers| && won[0] && forall i :: 0 < i < |won| ==> !won[i]
  {
    hide DecideAll, Replay;
    assert log[..|log|] == log;
    LateWritersLose(log + DecideAll(Replay(log), writers[0]).value, |log|, writers[1..]);
  }

  /** A person's answer is one command, and decides on one event: of racing answers one is written. */
  lemma AnAnswerDecides(run: RunState, callId: string, approved: bool, who: string)
    requires Decide(run, Answer(callId, approved, who)).Ok?
    ensures DecideAll(run, [Must(Answer(callId, approved, who))]) == Ok([Answered(callId, approved, who)])
  {
    var asks := [Must(Answer(callId, approved, who))];
    assert asks[1..] == [];
    var events := Decide(run, asks[0].command).value;
    assert DecideAll(ApplyAll(run, events), []) == Ok([]);
    assert events + [] == events;
  }
}
