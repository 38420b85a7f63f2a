/**
 Who drives a run, and that it is driven: which writes start a loop and for what, what a loop's own write leaves, and
 that an answered call is carried out by steps of the loop its answer started.
 */
module RunDriving {
  import opened Common
  import opened Run
  import opened RunLog
  import opened RunJournal
  import opened RunWriters
  import opened RunLifecycle
  import opened BatchMeaning
  import opened RunRecord

  // ----- the loop a write starts -----------------------------------------------------------------------------------

  /** A loop of the latest generation that owes exactly the call some answer in the log is owed for. */
  ghost predicate DrivesNow(loop: Loop, log: seq<Event>) {
    && loop.phase == Live && loop.generation == CountResumed(log)
    && forall c :: loop.owed == Some(c) <==> OwedFor(log, c)
  }

  ghost predicate OwedFor(log: seq<Event>, c: string) {
    exists call: PendingApproval, approved: bool :: call.callId == c && AnswerOwed(log, call, approved)
  }

  /** What a heard write of events that end in `e` adds to the loops. */
  ghost predicate AddsItsLoop(before: seq<Loop>, after: seq<Loop>, audit: string, log: seq<Event>, e: Event) {
    if e.Started? || e.Resumed? || (e.Answered? && !IsAudit(audit, Replay(log))) then
      && |after| == |before| + 1 && after[..|before|] == before && DrivesNow(after[|before|], log)
      && (e.Started? ==> after[|before|].owed == None)
      && (e.Answered? ==> after[|before|].owed == Some(e.callId))
    else after == before
  }

  /** Events that were appended added the loop their last one calls for; otherwise nothing was added. */
  ghost predicate HeardAdds(s: System, t: System) {
    if t.log == s.log then t.loops == s.loops
    else t.log != [] && AddsItsLoop(s.loops, t.loops, s.audit, t.log, t.log[|t.log| - 1])
  }

  lemma OwedForMeaning(log: seq<Event>, c: string)
    ensures OwedFor(log, c) <==>
            Replay(log).unstartedAnswer.Some? && Replay(log).unstartedAnswer.value.call.callId == c
  {
    hide Replay, AnswerOwed;
    forall call: PendingApproval, approved: bool
      ensures Replay(log).unstartedAnswer == Some(AnsweredCall(call, approved)) <==> AnswerOwed(log, call, approved)
    {
      UnstartedAnswerMeaning(log, call, approved);
    }
    if Replay(log).unstartedAnswer.Some? && Replay(log).unstartedAnswer.value.call.callId == c {
      var answer := Replay(log).unstartedAnswer.value;
      assert answer == AnsweredCall(answer.call, answer.approved);
      assert AnswerOwed(log, answer.call, answer.approved);
    }
  }

  lemma NewLoopDrives(log: seq<Event>)
    requires Accepted(log)
    ensures DrivesNow(LoopFor(Replay(log)), log)
  {
    hide Replay, Accepted, OwedFor, CountResumed;
    GenerationCountsResumes(log);
    forall c ensures LoopFor(Replay(log)).owed == Some(c) <==> OwedFor(log, c) {
      OwedForMeaning(log, c);
    }
  }

  /** The last event of an outsider's write is the one its last command decides. */
  lemma {:induction false} LastEventIs(run: RunState, asks: seq<Ask>, onAudit: bool)
    requires FramesThenOne(asks, onAudit) && DecideAll(run, asks).Ok? && Shape(run)
    ensures var events, command := DecideAll(run, asks).value, asks[|asks| - 1].command;
            && events != [] && Matches(command, events[|events| - 1])
            && (command.Start? ==> ApplyAll(run, events).unstartedAnswer.None?)
            && (command.Answer? ==> Settling(ApplyAll(run, events), command.callId))
    decreases |asks|
  {
    hide Shape;
    var ask, others := asks[0], asks[1..];
    assert asks == [ask] + others;
    DecideAllUnfolds(run, ask, others);
    FirstIsOutsider(asks, onAudit);
    hide DecideAll;
    var decided := Decide(run, ask.command);
    if others == [] {
      DecideAllUnfolds(ApplyAll(run, decided.value), ask, []);
      OneEventIs(run, ask.command, onAudit);
      assert decided.value + [] == decided.value;
    } else if decided.Ok? {
      hide Decide, Matches, ApplyAll;
      FrameKeepsShape(run, ask.command);
      var after := ApplyAll(run, decided.value);
      LastEventIs(after, others, onAudit);
      var rest := DecideAll(after, others).value;
      ApplyAllConcat(run, decided.value, rest);
      assert (decided.value + rest)[|decided.value + rest| - 1] == rest[|rest| - 1];
    } else {
      LastEventIs(run, others, onAudit);
    }
  }

  /** The event of each command an outsider ends a write with. */
  predicate Matches(command: Command, e: Event) {
    match command
    case Start(_, _, _) => e.Started?
    case Answer(c, approved, who) => e == Answered(c, approved, who)
    case Stop(who) => e == WasStopped(who)
    case Fail(why) => e == HasFailed(why)
    case Resume(_) => e.Resumed?
    case Emit(frame) => e.Emitted? && e.payload == frame
    case _ => false
  }

  predicate Settling(run: RunState, call: string) {
    run.unstartedAnswer.Some? && run.unstartedAnswer.value.call.callId == call
  }

  lemma OneEventIs(run: RunState, command: Command, onAudit: bool)
    requires IsOutsider(command, onAudit) && Decide(run, command).Ok? && Shape(run)
    ensures var events := Decide(run, command).value;
            && |events| == 1 && Matches(command, events[0])
            && (command.Start? ==> ApplyAll(run, events).unstartedAnswer.None?)
            && (command.Answer? ==> Settling(ApplyAll(run, events), command.callId))
  {
    var e := Decide(run, command).value[0];
    ApplyAllOne(run, e);
    assert Decide(run, command).value == [e];
  }

  lemma FrameKeepsShape(run: RunState, command: Command)
    requires command.Emit? && !command.frame.ToolResult? && Decide(run, command).Ok? && Shape(run)
    ensures Shape(ApplyAll(run, Decide(run, command).value))
  {
    ApplyAllOne(run, Decide(run, command).value[0]);
    assert Decide(run, command).value == [Decide(run, command).value[0]];
  }

  lemma AfterAskingAdds(written: System, w: nat, command: Command, e: Event)
    requires Accepted(written.log) && Matches(command, e)
    requires command.Start? ==> Replay(written.log).unstartedAnswer.None?
    requires command.Answer? ==> Settling(Replay(written.log), command.callId)
    ensures var t := AfterAsking(written, w, command);
            t.log == written.log && AddsItsLoop(written.loops, t.loops, written.audit, written.log, e)
  {
    hide Accepted, Replay, DrivesNow;
    NewLoopDrives(written.log);
    var before, added := written.loops, LoopFor(Replay(written.log));
    assert (before + [added])[..|before|] == before && (before + [added])[|before|] == added;
  }

  lemma AskingAdds(s: System, w: nat)
    requires Inv(s) && w in s.errands && s.errands[w].Asking?
    ensures HeardAdds(s, Exec(s, OutsiderWrites(w, false)))
  {
    hide Accepted, RightlyWritten, Replay, LoopsFit, Shape, ErrandsFit, FramesThenOne, OpensAudit, DecideAll, ApplyAll,
      AddsItsLoop, AfterAsking, LoopStep, Matches, Settling;
    var Intent(readSeq, asks) := s.errands[w].intent;
    var run := Replay(s.log);
    if DecidedAt(s.log, readSeq, asks).Ok? && readSeq == |s.log| {
      assert s.log[..readSeq] == s.log;
      var events, onAudit := DecideAll(run, asks).value, IsAudit(s.audit, run);
      var written := Append(s.(errands := s.errands - {w}), ByOutsider, events);
      if OpensAudit(asks, s.audit) {
        OpeningEndsWaiting(run, asks, s.audit);
        CardsAddNone(s.loops, s.audit, written.log, events[|events| - 1]);
      } else if FramesThenOne(asks, onAudit) {
        LastEventIs(run, asks, onAudit);
        FirstIsOutsider(asks, onAudit);
        ReplayAppend(s.log, events);
        DecidedAllAllowed(run, asks);
        AcceptedAppend(s.log, events);
        AfterAskingAdds(written, w, asks[|asks| - 1].command, events[|events| - 1]);
      }
    }
  }

  lemma CardsAddNone(loops: seq<Loop>, audit: string, log: seq<Event>, e: Event)
    requires e.Suspended? || e.HasFinished?
    ensures AddsItsLoop(loops, loops, audit, log, e)
  {
  }

  lemma OpeningEndsWaiting(run: RunState, asks: seq<Ask>, audit: string)
    requires OpensAudit(asks, audit) && DecideAll(run, asks).Ok?
    ensures var events := DecideAll(run, asks).value; events != [] && events[|events| - 1].Suspended?
  {
    var begin, wait := asks[0], asks[1];
    assert asks == [begin] + [wait] && [wait] == [wait] + [];
    DecideAllUnfolds(run, begin, [wait]);
    var e := Decide(run, begin.command).value[0];
    var begun := ApplyAll(run, [e]);
    DecideAllUnfolds(begun, wait, []);
    var f := Decide(begun, wait.command).value[0];
    DecideAllUnfolds(ApplyAll(begun, [f]), wait, []);
    assert DecideAll(run, asks).value == [e] + ([f] + []);
  }

  lemma SettlingAdds(s: System, w: nat)
    requires w in s.errands && s.errands[w].Settling?
    ensures HeardAdds(s, Exec(s, OutsiderWrites(w, false)))
  {
    hide Replay, DecideAll, DrivesNow;
    if s.errands[w].readSeq == |s.log| {
      assert s.log[..|s.log|] == s.log;
      FinishDecides(Replay(s.log));
    }
  }

  /**
   In every reachable state, a heard write of an outsider that appends events adds the loop its last event calls for,
   and no other: one for a start, which owes nothing; one for a resume, of its new generation; one for an answer off
   the audit thread, which owes that call; and none for a stop, a failure, a frame, a card or a door's finish.
   */
  lemma WhoIsStarted(audit: string, steps: seq<RunLifecycle.Step>, w: nat)
    ensures var s, t := ExecAll(Initial(audit), steps), Exec(ExecAll(Initial(audit), steps), OutsiderWrites(w, false));
            HeardAdds(s, t)
  {
    hide ExecAll, Inv, AddsItsLoop;
    ReachableInv(audit, steps);
    var s := ExecAll(Initial(audit), steps);
    if w in s.errands {
      if s.errands[w].Asking? {
        AskingAdds(s, w);
      } else {
        SettlingAdds(s, w);
      }
    } else {
      NoErrand(s, w);
    }
  }

  lemma NoErrand(s: System, w: nat)
    requires w !in s.errands
    ensures Exec(s, OutsiderWrites(w, false)) == s
  {
  }

  // ----- what a loop's own write leaves ----------------------------------------------------------------------------

  /** Loop `l` is about to write `plan`, decided on the log as it stands. */
  predicate AboutTo(s: System, l: nat, plan: Plan) {
    l < |s.loops| && s.loops[l].phase == Writing(|s.log|, plan)
  }

  /** The loop is of the run's own generation, and the run has not ended. */
  ghost predicate MayWrite(log: seq<Event>, loop: Loop) {
    loop.generation == CountResumed(log) && !HasEnding(log)
  }

  lemma MayWriteMeaning(log: seq<Event>, loop: Loop)
    requires Accepted(log)
    ensures MayWrite(log, loop) <==> loop.generation == Replay(log).generation && !Replay(log).status.Terminal()
  {
    hide Accepted, Replay, CountResumed, HasEnding;
    GenerationCountsResumes(log);
    EndsOnce(log);
  }

  /** What is planned is appended whole, and the loop has nothing left to settle. */
  lemma WritesItsPlan(s: System, l: nat, plan: Plan, replyLost: bool)
    requires AboutTo(s, l, plan)
    ensures var t, planned := Exec(s, LoopWrites(l, replyLost)), Planned(s.loops[l], Replay(s.log), plan);
            && |t.loops| == |s.loops| && t.audit == s.audit
            && if planned.Ok? then
                 && t.log == s.log + planned.value
                 && t.loops[l] == Loop(s.loops[l].generation, None, AfterWrite(plan, replyLost))
               else t.log == s.log && t.loops[l] == s.loops[l].(phase := Live)
  {
    hide Planned, Replay, AfterWrite;
  }

  /** Its tools' start is written exactly while it may write, and the tools act once it has heard so. */
  lemma WhatAStartLeaves(audit: string, steps: seq<RunLifecycle.Step>, l: nat, tools: seq<StartedTool>, replyLost: bool)
    requires AboutTo(ExecAll(Initial(audit), steps), l, PlanTools(tools))
    ensures var s := ExecAll(Initial(audit), steps);
            var t := Exec(s, LoopWrites(l, replyLost));
            && |t.loops| == |s.loops|
            && if MayWrite(s.log, s.loops[l]) then
                 && t.log == s.log + [ToolStarted(tools)]
                 && t.loops[l] == Loop(s.loops[l].generation, None, if replyLost then Live else t.loops[l].phase)
                 && (!replyLost ==>
                       t.loops[l].phase.Acting? && forall c :: c in t.loops[l].phase.calls <==> ListsCall(tools, c))
               else t.log == s.log && t.loops[l] == s.loops[l].(phase := Live)
  {
    hide ExecAll;
    var s := ExecAll(Initial(audit), steps);
    ReachableInv(audit, steps);
    MayWriteMeaning(s.log, s.loops[l]);
    BeganFor(s, l);
    WritesItsPlan(s, l, PlanTools(tools), replyLost);
    hide Inv, MayWrite, Replay, Exec;
    assert forall c :: c in CallIds(tools) <==> ListsCall(tools, c);
  }

  lemma BeganFor(s: System, l: nat)
    requires Inv(s) && l < |s.loops|
    ensures Replay(s.log).started
  {
    hide Accepted, RightlyWritten, ErrandsFit, Shape, Replay;
  }

  predicate Quietly(spent: RoundSpent) {
    spent.recipes == [] && spent.round.None?
  }

  /** What it spent, by the log. */
  function SpendingOf(spent: RoundSpent): seq<Event> {
    if Quietly(spent) then [] else [Spent(spent.recipes, spent.round)]
  }

  lemma SpendingIs(run: RunState, spent: RoundSpent)
    requires !run.status.Terminal()
    ensures Spending(run, spent) == SpendingOf(spent)
  {
  }

  /** What a loop's round becomes in the log, when it may write: up to its first ending frame, and that ending. */
  lemma RoundIs(s: System, l: nat, frames: seq<Frame>, spent: RoundSpent, k: nat)
    requires Inv(s) && AboutTo(s, l, PlanRound(frames, spent)) && MayWrite(s.log, s.loops[l]) && frames != []
    ensures var planned, n := Planned(s.loops[l], Replay(s.log), PlanRound(frames, spent)), |Frames(s.log)|;
            && (NeverEnds(false, frames) ==> planned == Ok(SpendingOf(spent) + Lines(n, frames)))
            && (EndsAt(false, frames, k) && !Parks(frames) ==>
                  planned == Ok(SpendingOf(spent) + Lines(n, frames[..k + 1]) + [Carried(frames[k])]))
  {
    var run := Replay(s.log);
    MayWriteMeaning(s.log, s.loops[l]);
    NotWaiting(s, l);
    hide Inv, MayWrite, Replay, EndsIt, Lines, Carried, Batch;
    EmittedAndAnsweredMeaning(s.log, "");
    SpendingIs(run, spent);
    WhatABatchWrites(JournalOf(s.loops[l]), run, frames, spent, k);
  }

  /** A run that a loop drives has begun and waits on nobody. */
  lemma NotWaiting(s: System, l: nat)
    requires Inv(s) && l < |s.loops| && (s.loops[l].phase.Writing? || s.loops[l].phase.Live?)
    requires MayWrite(s.log, s.loops[l])
    ensures Replay(s.log).started && Replay(s.log).status.Running?
  {
    hide Accepted, RightlyWritten, ErrandsFit, Shape, Replay, MayWrite, LoopFits;
    MayWriteMeaning(s.log, s.loops[l]);
    assert Drives(s.loops[l], Replay(s.log).generation);
  }

  /**
   A loop's round, in every reachable state in which it may write: its frames in order and its spending, up to the
   first frame that ends the run, and then exactly that ending; heard, it goes on unless it parked, and unheard it
   closes.
   */
  lemma WhatARoundLeaves(audit: string, steps: seq<RunLifecycle.Step>, l: nat, frames: seq<Frame>, spent: RoundSpent,
                         k: nat, replyLost: bool)
    requires frames != [] && AboutTo(ExecAll(Initial(audit), steps), l, PlanRound(frames, spent))
    requires MayWrite(ExecAll(Initial(audit), steps).log, ExecAll(Initial(audit), steps).loops[l])
    ensures var s := ExecAll(Initial(audit), steps);
            var t, n := Exec(s, LoopWrites(l, replyLost)), |Frames(s.log)|;
            && |t.loops| == |s.loops|
            && (NeverEnds(false, frames) ==> t.log == s.log + (SpendingOf(spent) + Lines(n, frames)))
            && (EndsAt(false, frames, k) && !Parks(frames) ==>
                  t.log == s.log + (SpendingOf(spent) + Lines(n, frames[..k + 1]) + [Carried(frames[k])]))
            && (NeverEnds(false, frames) || (EndsAt(false, frames, k) && !Parks(frames)) ==>
                  t.loops[l] == Loop(s.loops[l].generation, None,
                                     if replyLost then Closing else if Parks(frames) then Gone else Live))
  {
    hide ExecAll;
    var s := ExecAll(Initial(audit), steps);
    ReachableInv(audit, steps);
    RoundIs(s, l, frames, spent, k);
    WritesItsPlan(s, l, PlanRound(frames, spent), replyLost);
    hide Inv, MayWrite, Replay, Planned, Lines, Carried, Parks, SpendingOf, Exec, Frames;
  }

  // ----- an answer is carried out ----------------------------------------------------------------------------------

  /** The steps of one loop that carry an answered call out: its start, its tools, and a round with its result. */
  function CarryOut(l: nat, call: StartedTool, content: string): seq<RunLifecycle.Step> {
    [ LoopPlans(l, PlanTools([call])), LoopWrites(l, false), ToolsFinish(l),
      LoopPlans(l, PlanRound([ToolResult(call.callId, content), FinishedFrame(None)], RoundSpent([], None))),
      LoopWrites(l, false) ]
  }

  /** Planning is a step of its own: it writes nothing. */
  lemma PlansNext(s: System, l: nat, plan: Plan)
    requires l < |s.loops| && s.loops[l].phase == Live && MayPlan(s.loops[l], plan)
    ensures var t := Exec(s, LoopPlans(l, plan));
            t.log == s.log && AboutTo(t, l, plan) && |t.loops| == |s.loops| &&
            t.loops[l].generation == s.loops[l].generation && t.audit == s.audit
  {
  }

  lemma ExecAllSnoc(audit: string, steps: seq<RunLifecycle.Step>, step: RunLifecycle.Step)
    ensures ExecAll(Initial(audit), steps + [step]) == Exec(ExecAll(Initial(audit), steps), step)
  {
    ExecAllFrom(Initial(audit), steps, step);
  }

  lemma {:induction false} ExecAllFrom(s: System, steps: seq<RunLifecycle.Step>, step: RunLifecycle.Step)
    ensures ExecAll(s, steps + [step]) == Exec(ExecAll(s, steps), step)
    decreases |steps|
  {
    hide Exec;
    if steps == [] {
      assert steps + [step] == [step] && [step][1..] == [];
      assert ExecAll(Exec(s, step), []) == Exec(s, step);
    } else {
      assert (steps + [step])[1..] == steps[1..] + [step];
      ExecAllFrom(Exec(s, steps[0]), steps[1..], step);
    }
  }

  /** A live loop that may write and owes `call`, or nothing. */
  ghost predicate Ready(s: System, l: nat, call: string) {
    && l < |s.loops| && s.loops[l].phase == Live && MayWrite(s.log, s.loops[l])
    && (s.loops[l].owed == Some(call) || s.loops[l].owed == None)
  }

  lemma MayWriteOn(log: seq<Event>, events: seq<Event>, loop: Loop, again: Loop)
    requires MayWrite(log, loop) && again.generation == loop.generation
    requires forall i :: 0 <= i < |events| ==> !IsEnding(events[i]) && !events[i].Resumed?
    ensures MayWrite(log + events, again)
    decreases |events|
  {
    if events == [] {
      assert log + events == log;
    } else {
      var n := |events| - 1;
      MayWriteOn(log, events[..n], loop, again);
      assert (log + events)[..|log + events| - 1] == log + events[..n];
      assert (log + events)[|log + events| - 1] == events[n];
      assert forall i :: 0 <= i < |log + events| - 1 ==> (log + events)[i] == (log + events[..n])[i];
    }
  }

  /** The start: planned, written, heard, and its call acting. */
  lemma StartsTheCall(audit: string, steps: seq<RunLifecycle.Step>, l: nat, call: StartedTool)
    requires Ready(ExecAll(Initial(audit), steps), l, call.callId)
    ensures var s := ExecAll(Initial(audit), steps);
            var t := ExecAll(Initial(audit), steps + [LoopPlans(l, PlanTools([call]))] + [LoopWrites(l, false)]);
            && t.log == s.log + [ToolStarted([call])] && l < |t.loops|
            && t.loops[l] == Loop(s.loops[l].generation, None, Acting({call.callId}))
  {
    hide ExecAll, MayWrite;
    var s, plan := ExecAll(Initial(audit), steps), PlanTools([call]);
    assert ListsCall([call], call.callId) by {
      assert [call][0].callId == call.callId;
    }
    PlansNext(s, l, plan);
    ExecAllSnoc(audit, steps, LoopPlans(l, plan));
    var t := Exec(s, LoopPlans(l, plan));
    SameMay(s.log, s.loops[l], t.loops[l]);
    WhatAStartLeaves(audit, steps + [LoopPlans(l, plan)], l, [call], false);
    hide Exec;
    ExecAllSnoc(audit, steps + [LoopPlans(l, plan)], LoopWrites(l, false));
    assert forall c :: ListsCall([call], c) <==> c in {call.callId};
  }

  lemma SameMay(log: seq<Event>, loop: Loop, again: Loop)
    requires loop.generation == again.generation
    ensures MayWrite(log, loop) == MayWrite(log, again)
  {
  }

  /** The round with the call's result that finishes the run. */
  lemma ResultEndsIt(call: string, content: string, n: nat)
    ensures var frames := [ToolResult(call, content), FinishedFrame(None)];
            && EndsAt(false, frames, 1) && !Parks(frames) && Carried(frames[1]) == HasFinished(None)
            && Lines(n, frames[..2]) == [Emitted(n, frames[0]), Emitted(n + 1, frames[1])]
  {
    var frames := [ToolResult(call, content), FinishedFrame(None)];
    assert frames[..2] == frames && frames[1..] == [frames[1]] && [frames[1]][1..] == [];
    assert !EndsIt(false, frames, 0) && !WaitsBefore(false, frames, 1);
    assert Lines(n + 1, [frames[1]]) == [Emitted(n + 1, frames[1])] + Lines(n + 2, []);
    assert Lines(n, frames) == [Emitted(n, frames[0])] + Lines(n + 1, [frames[1]]);
  }

  /**
   From every reachable state in which a live loop may write and owes `call`, or nothing: five steps of that loop
   alone start the call, run it, and put its result and the run's finish on the log.
   */
  lemma ACallIsCarriedOut(audit: string, steps: seq<RunLifecycle.Step>, l: nat, call: StartedTool, content: string)
    requires Ready(ExecAll(Initial(audit), steps), l, call.callId)
    ensures var s, t := ExecAll(Initial(audit), steps), ExecAll(Initial(audit), steps + CarryOut(l, call, content));
            var n := |Frames(s.log)|;
            t.log == s.log + [ ToolStarted([call]), Emitted(n, ToolResult(call.callId, content)),
                               Emitted(n + 1, FinishedFrame(None)), HasFinished(None) ]
  {
    hide ExecAll, MayWrite, Frames;
    var more, s := CarryOut(l, call, content), ExecAll(Initial(audit), steps);
    var two := steps + [more[0]] + [more[1]];
    StartsTheCall(audit, steps, l, call);
    var acting := ExecAll(Initial(audit), two);
    ExecAllSnoc(audit, two, more[2]);
    var three := two + [more[2]];
    var back := ExecAll(Initial(audit), three);
    assert back.log == acting.log && |back.loops| == |acting.loops|;
    assert back.loops[l] == Loop(s.loops[l].generation, None, Live);
    MayWriteOn(s.log, [ToolStarted([call])], s.loops[l], back.loops[l]);
    SameFrames(s.log, [ToolStarted([call])]);
    FinishesWith(audit, three, l, call.callId, content);
    assert steps + more == three + [more[3]] + [more[4]];
  }

  lemma SameFrames(log: seq<Event>, events: seq<Event>)
    requires |events| == 1 && events[0].ToolStarted?
    ensures Frames(log + events) == Frames(log)
  {
    assert (log + events)[..|log|] == log;
  }

  lemma FinishesWith(audit: string, steps: seq<RunLifecycle.Step>, l: nat, call: string, content: string)
    requires var s := ExecAll(Initial(audit), steps);
             l < |s.loops| && s.loops[l].phase == Live && s.loops[l].owed == None && MayWrite(s.log, s.loops[l])
    ensures var frames := [ToolResult(call, content), FinishedFrame(None)];
            var plan := PlanRound(frames, RoundSpent([], None));
            var s := ExecAll(Initial(audit), steps);
            var t, n := ExecAll(Initial(audit), steps + [LoopPlans(l, plan)] + [LoopWrites(l, false)]), |Frames(s.log)|;
            t.log == s.log + [Emitted(n, frames[0]), Emitted(n + 1, frames[1]), HasFinished(None)]
  {
    hide ExecAll, MayWrite, Frames;
    var frames := [ToolResult(call, content), FinishedFrame(None)];
    var s, plan := ExecAll(Initial(audit), steps), PlanRound(frames, RoundSpent([], None));
    PlansNext(s, l, plan);
    ExecAllSnoc(audit, steps, LoopPlans(l, plan));
    var planned := Exec(s, LoopPlans(l, plan));
    SameMay(s.log, s.loops[l], planned.loops[l]);
    hide Exec;
    var n := |Frames(s.log)|;
    ResultEndsIt(call, content, n);
    WhatARoundLeaves(audit, steps + [LoopPlans(l, plan)], l, frames, RoundSpent([], None), 1, false);
    ExecAllSnoc(audit, steps + [LoopPlans(l, plan)], LoopWrites(l, false));
    hide Lines, Carried, EndsIt, Parks;
    var events := [Emitted(n, frames[0]), Emitted(n + 1, frames[1])];
    assert [] + events + [HasFinished(None)] == events + [HasFinished(None)];
  }

  /** A heard write started a loop that owes `call`: its answer off the audit thread, or a resume while it is owed. */
  ghost predicate StartedFor(audit: string, s: System, t: System, call: string) {
    && t.log != s.log && t.log != []
    && var e := t.log[|t.log| - 1];
       || (e.Answered? && e.callId == call && !IsAudit(audit, Replay(t.log)))
       || (e.Resumed? && OwedFor(t.log, call))
  }

  /**
   So an answer is carried out, whether its own loop lives or a resume comes first: once either is written and heard,
   five steps of the loop it started put the answered call's start, its result and the run's finish on the log.
   */
  lemma AnAnswerIsCarriedOut(audit: string, steps: seq<RunLifecycle.Step>, w: nat, call: StartedTool, content: string)
    requires StartedFor(audit, ExecAll(Initial(audit), steps),
                        ExecAll(Initial(audit), steps + [OutsiderWrites(w, false)]), call.callId)
    ensures var t := ExecAll(Initial(audit), steps + [OutsiderWrites(w, false)]);
            && t.loops != []
            && var more, n := CarryOut(|t.loops| - 1, call, content), |Frames(t.log)|;
               var u := ExecAll(Initial(audit), steps + [OutsiderWrites(w, false)] + more);
               u.log == t.log + [ ToolStarted([call]), Emitted(n, ToolResult(call.callId, content)),
                                  Emitted(n + 1, FinishedFrame(None)), HasFinished(None) ]
  {
    var s, more := ExecAll(Initial(audit), steps), steps + [OutsiderWrites(w, false)];
    ExecAllSnoc(audit, steps, OutsiderWrites(w, false));
    WhoIsStarted(audit, steps, w);
    ReachableInv(audit, steps);
    ReachableInv(audit, more);
    hide ExecAll, Replay, Frames, Inv, OwedFor, Exec;
    var t := ExecAll(Initial(audit), more);
    StillOpen(t);
    ACallIsCarriedOut(audit, more, |t.loops| - 1, call, content);
  }

  lemma StillOpen(s: System)
    requires Inv(s) && s.log != [] && (s.log[|s.log| - 1].Answered? || s.log[|s.log| - 1].Resumed?)
    ensures !HasEnding(s.log)
  {
    EndsOnce(s.log);
    hide Replay, RightlyWritten, LoopsFit, ErrandsFit, Shape, Accepted;
  }

  // ----- what people and doors ask for lands ------------------------------------------------------------------------

  /** Asked from outside a loop: a start, an answer, a stop, a failure, a frame, and off the audit thread a resume. */
  predicate IsAsked(command: Command, onAudit: bool) {
    || command.Start? || command.Answer? || command.Stop? || command.Fail?
    || (command.Emit? && !command.frame.ToolResult?) || (command.Resume? && !onAudit)
  }

  /** A command read on the log as it stands and written at once is in the log exactly when the run allows it. */
  lemma AnAskLands(audit: string, steps: seq<RunLifecycle.Step>, w: nat, command: Command, replyLost: bool)
    requires IsAsked(command, Replay(ExecAll(Initial(audit), steps).log).capture.threadId == audit)
    ensures var s := ExecAll(Initial(audit), steps);
            var t := Exec(Exec(s, OutsiderReads(w, [Must(command)])), OutsiderWrites(w, replyLost));
            var decided := Decide(Replay(s.log), command);
            t.log == s.log + if decided.Ok? then decided.value else []
  {
    hide ExecAll, Replay, Decide;
    var s := ExecAll(Initial(audit), steps);
    assert IsOutsider(command, IsAudit(audit, Replay(s.log)));
    ReachableInv(audit, steps);
    var asks := [Must(command)];
    DecideAllUnfolds(Replay(s.log), asks[0], []);
    assert asks == [asks[0]] + [];
    var decided := Decide(Replay(s.log), command);
    if decided.Ok? {
      DecideAllUnfolds(ApplyAll(Replay(s.log), decided.value), asks[0], []);
      assert decided.value + [] == decided.value;
    }
    hide DecideAll, Inv, ApplyAll, OpensAudit, Spawn;
    assert s.log[..|s.log|] == s.log && s.log + [] == s.log;
  }

  /** A loop that gives up fails its run: three steps of its own put its error and the failure on the log. */
  lemma AGivenUpLoopFailsItsRun(audit: string, steps: seq<RunLifecycle.Step>, l: nat, why: string)
    requires var s := ExecAll(Initial(audit), steps);
             l < |s.loops| && s.loops[l].phase == Live && MayWrite(s.log, s.loops[l])
    ensures var s := ExecAll(Initial(audit), steps);
            var t := Exec(Exec(Exec(s, LoopGivesUp(l)), LoopPlansEnd(l, [ErrorFrame(why)])), LoopWritesEnd(l));
            && t.log == s.log + [Emitted(|Frames(s.log)|, ErrorFrame(why)), HasFailed(why)]
            && l < |t.loops| && t.loops[l].phase == Gone
  {
    hide ExecAll, Exec, Batch;
    var s := ExecAll(Initial(audit), steps);
    ReachableInv(audit, steps);
    NotWaiting(s, l);
    AcceptedLog(s);
    MayWriteMeaning(s.log, s.loops[l]);
    EmittedAndAnsweredMeaning(s.log, "");
    hide Inv, MayWrite, Replay, Frames;
    FailedBatch(JournalOf(s.loops[l]), Replay(s.log), why);
    GivesUpAndEnds(s, l, [ErrorFrame(why)]);
  }

  lemma FailedBatch(journal: Journal, run: RunState, why: string)
    requires run.started && run.generation == journal.generation && run.status.Running?
    ensures Batch(journal, run, [ErrorFrame(why)], RoundSpent([], None)) ==
            Ok([Emitted(|run.emitted|, ErrorFrame(why)), HasFailed(why)])
  {
    hide Batch;
    var frames, n := [ErrorFrame(why)], |run.emitted|;
    assert EndsIt(false, frames, 0) && frames[..1] == frames && frames[1..] == [];
    WhatABatchWrites(journal, run, frames, RoundSpent([], None), 0);
    assert Lines(n, frames) == [Emitted(n, frames[0])] + Lines(n + 1, []);
    assert Lines(n, frames) == [Emitted(n, frames[0])] && Spending(run, RoundSpent([], None)) == [];
    assert Carried(frames[0]) == HasFailed(why) && !Parks(frames);
    assert [] + [Emitted(n, frames[0])] + [HasFailed(why)] == [Emitted(n, frames[0]), HasFailed(why)];
  }

  lemma GivesUpAndEnds(s: System, l: nat, frames: seq<Frame>)
    requires l < |s.loops| && s.loops[l].phase == Live
    requires forall i :: 0 <= i < |frames| ==> frames[i].ErrorFrame?
    ensures var t := Exec(Exec(Exec(s, LoopGivesUp(l)), LoopPlansEnd(l, frames)), LoopWritesEnd(l));
            var batch := Batch(JournalOf(s.loops[l]), Replay(s.log), frames, RoundSpent([], None));
            && t.log == s.log + (if batch.Ok? then batch.value else [])
            && l < |t.loops| && t.loops[l].phase == Gone
  {
    hide Batch, Replay;
    assert s.log + [] == s.log;
  }

  lemma {:induction false} InterruptIsOneWrite(frames: seq<Frame>, who: string, audit: string, onAudit: bool)
    requires forall i :: 0 <= i < |frames| ==> !frames[i].ToolResult?
    ensures FramesThenOne(Interrupt(frames, who), onAudit) && !OpensAudit(Interrupt(frames, who), audit)
    ensures Interrupt(frames, who) != [] && Interrupt(frames, who)[|Interrupt(frames, who)| - 1] == Must(Stop(who))
    decreases |frames|
  {
    if frames != [] {
      InterruptIsOneWrite(frames[1..], who, audit, onAudit);
      assert Interrupt(frames, who)[1..] == Interrupt(frames[1..], who);
    }
  }

  /** A stop with its frames, read on a run that has begun and written at once, is in the log unless it has ended. */
  lemma AnInterruptLands(audit: string, steps: seq<RunLifecycle.Step>, w: nat, frames: seq<Frame>, who: string,
      replyLost: bool)
    requires Began(ExecAll(Initial(audit), steps).log) && forall i :: 0 <= i < |frames| ==> !frames[i].ToolResult?
    ensures var s := ExecAll(Initial(audit), steps);
            var t := Exec(Exec(s, OutsiderReads(w, Interrupt(frames, who))), OutsiderWrites(w, replyLost));
            && t.loops == s.loops
            && t.log == if HasEnding(s.log) then s.log
                        else s.log + (Numbered(|Frames(s.log)|, frames) + [WasStopped(who)])
  {
    hide ExecAll, Exec, Interrupt, Numbered, DecideAll, Frames, HasEnding, Began, FramesThenOne, OpensAudit, Replay;
    var s := ExecAll(Initial(audit), steps);
    ReachableInv(audit, steps);
    AcceptedLog(s);
    InterruptIs(s.log, frames, who);
    InterruptIsOneWrite(frames, who, audit, IsAudit(audit, Replay(s.log)));
    StopLands(s, w, Interrupt(frames, who), who, replyLost);
  }

  lemma AcceptedLog(s: System)
    requires Inv(s)
    ensures Accepted(s.log)
  {
  }

  lemma InterruptIs(log: seq<Event>, frames: seq<Frame>, who: string)
    requires Accepted(log) && Began(log)
    ensures DecideAll(Replay(log), Interrupt(frames, who)) ==
            if HasEnding(log) then Err(AlreadyEnded)
            else Ok(Numbered(|Frames(log)|, frames) + [WasStopped(who)])
  {
    hide Replay, Frames, HasEnding, Began, Accepted, Interrupt, Numbered, DecideAll;
    StatusMeaning(log);
    WaitingMeaning(log);
    EmittedAndAnsweredMeaning(log, "");
    WhatAnInterruptWrites(Replay(log), frames, who);
  }

  lemma StopLands(s: System, w: nat, asks: seq<Ask>, who: string, replyLost: bool)
    requires FramesThenOne(asks, IsAudit(s.audit, Replay(s.log))) && !OpensAudit(asks, s.audit)
    requires asks != [] && asks[|asks| - 1] == Must(Stop(who))
    ensures var t := Exec(Exec(s, OutsiderReads(w, asks)), OutsiderWrites(w, replyLost));
            var decided := DecideAll(Replay(s.log), asks);
            t.loops == s.loops && t.log == if decided.Ok? then s.log + decided.value else s.log
  {
    hide Replay, DecideAll, FramesThenOne, OpensAudit, Spawn, IsAudit;
    assert s.log[..|s.log|] == s.log;
  }

  /** A write that landed unheard is in the log as a heard one is, and starts nothing. */
  lemma AnUnheardWriteStartsNothing(s: System, w: nat)
    ensures var t := Exec(s, OutsiderWrites(w, true));
            && t.log == Exec(s, OutsiderWrites(w, false)).log && t.loops == s.loops && w !in t.errands
  {
    hide DecidedAt, FramesThenOne, OpensAudit, Replay, LoopFor;
  }

  // ----- what a loop may do -----------------------------------------------------------------------------------------

  /** The loop owes nothing, or the plan starts the call it owes, or leads with that call's result. */
  predicate CarriesOut(loop: Loop, plan: Plan) {
    || loop.owed == None
    || (plan.PlanTools? && exists t :: t in plan.tools && loop.owed == Some(t.callId))
    || (plan.PlanRound? && plan.frames != [] && plan.frames[0].ToolResult? && loop.owed == Some(plan.frames[0].callId))
  }

  /** A live loop plans any write that carries out what it owes, on the log as it stands. */
  lemma WhatALoopPlans(s: System, l: nat, plan: Plan)
    requires l < |s.loops|
    ensures var loop := s.loops[l];
            Exec(s, LoopPlans(l, plan)) ==
            if loop.phase == Live && plan != PlanTools([]) && CarriesOut(loop, plan)
            then s.(loops := s.loops[l := loop.(phase := Writing(|s.log|, plan))])
            else s
  {
    var owed := s.loops[l].owed;
    assert plan.PlanTools? && owed.Some? ==>
        (ListsCall(plan.tools, owed.value) <==> exists t :: t in plan.tools && t.callId == owed.value);
  }

  /**
   One that gave up plans any frames that hold no result and no card, and no finish unless the run has ended or is
   another generation's.
   */
  lemma WhatAGivenUpLoopPlans(s: System, l: nat, frames: seq<Frame>)
    requires l < |s.loops| && Accepted(s.log)
    ensures var loop := s.loops[l];
            var isOver := HasEnding(s.log) || loop.generation != CountResumed(s.log);
            Exec(s, LoopPlansEnd(l, frames)) ==
            if loop.phase == Closing && forall frame :: frame in frames ==>
                !frame.ToolResult? && !frame.Card? && (frame.FinishedFrame? ==> isOver)
            then s.(loops := s.loops[l := loop.(phase := WritingEnd(|s.log|, frames))])
            else s
  {
    StatusMeaning(s.log);
    GenerationCountsResumes(s.log);
    hide Replay, HasEnding, CountResumed;
    var loop := s.loops[l];
    assert EndingOnly(frames) <==> forall frame :: frame in frames ==> !frame.ToolResult? && !frame.Card?;
    assert NoFinish(frames) <==> forall frame :: frame in frames ==> !frame.FinishedFrame?;
  }

  /** It may die at any moment and give up while it lives; its tools end; and on a log that moved it reads again. */
  lemma WhatALoopMeets(s: System, l: nat, replyLost: bool)
    requires l < |s.loops|
    ensures var loop := s.loops[l];
            && Exec(s, LoopDies(l)) == s.(loops := s.loops[l := loop.(phase := Gone)])
            && Exec(s, LoopGivesUp(l)) ==
               (if loop.phase == Live then s.(loops := s.loops[l := loop.(phase := Closing)]) else s)
            && Exec(s, ToolsFinish(l)) ==
               (if loop.phase.Acting? then s.(loops := s.loops[l := loop.(phase := Live)]) else s)
            && (loop.phase.Writing? && loop.phase.readSeq < |s.log| ==>
                  Exec(s, LoopWrites(l, replyLost)) == s.(loops := s.loops[l := loop.(phase := Live)]))
            && (loop.phase.WritingEnd? && loop.phase.readSeq < |s.log| ==>
                  Exec(s, LoopWritesEnd(l)) == s.(loops := s.loops[l := loop.(phase := Closing)]))
  {
    hide Planned;
  }
}
