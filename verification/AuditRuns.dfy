/**
 The MCP door's own runs: each is the record of one call asked over MCP, opened waiting on its card. The door finishes
 it behind the answer, and the call is run by the MCP client.
 */
module AuditRuns {
  import opened Common
  import opened Run
  import opened RunLog
  import opened RunJournal
  import opened RunWriters
  import opened RunLifecycle
  import Inference

  // ----- an audit run is never driven ----------------------------------------------------------------------------

  /** The MCP door opened the run: it waits from its second event on, on the audit thread. */
  predicate DoorOpened(audit: string, log: seq<Event>) {
    |log| >= 2 && log[0].Started? && log[0].capture.threadId == audit && log[1].Suspended?
  }

  ghost predicate DoorInv(s: System) {
    DoorOpened(s.audit, s.log) ==> s.loops == [] && IsAudit(s.audit, Replay(s.log)) && Replay(s.log).started
  }

  /** No loop's write, and no outsider's but the door's opening, begins with a suspension. */
  lemma PlansOpenQuietly(loop: Loop, run: RunState, plan: Plan)
    requires run.started && Planned(loop, run, plan).Ok? && Planned(loop, run, plan).value != []
    ensures !Planned(loop, run, plan).value[0].Suspended?
  {
    if plan.PlanRound? {
      var recorded := SpentEvents(run, plan.spent);
      var begun := ApplyAll(run, recorded);
      assert Walk(begun, plan.frames, Parks(plan.frames)).Ok?;
    }
  }

  lemma {:induction false} AsksOpenQuietly(run: RunState, asks: seq<Ask>, onAudit: bool)
    requires FramesThenOne(asks, onAudit) && DecideAll(run, asks).Ok?
    ensures var events := DecideAll(run, asks).value;
            && (events != [] ==> !events[0].Suspended?)
            && (!run.started ==> |events| <= 1)
    decreases |asks|
  {
    var ask, others := asks[0], asks[1..];
    assert asks == [ask] + others;
    DecideAllUnfolds(run, ask, others);
    FirstIsOutsider(asks, onAudit);
    hide DecideAll;
    if Decide(run, ask.command).Ok? {
      DecidedIsAllowed(run, ask.command);
      var e := Decide(run, ask.command).value[0];
      DecideAllUnfolds(ApplyAll(run, [e]), ask, []);
    } else {
      AsksOpenQuietly(run, others, onAudit);
    }
  }

  /** What an append can make of the run's opening, by the first event it adds. */
  lemma OpeningStays(audit: string, log: seq<Event>, events: seq<Event>)
    requires !DoorOpened(audit, log) && DoorOpened(audit, log + events)
    ensures log == [] || (|log| == 1 && log[0].Started? && events != [] && events[0].Suspended?)
    ensures log == [] ==> |events| >= 2 && log + events == events
  {
    assert log == [] ==> log + events == events;
  }

  /** What a loop's step appends is what the journal made of some plan of its. */
  lemma LoopStepAppends(s: System, l: nat, step: RunLifecycle.Step) returns (plan: Plan)
    requires l < |s.loops|
    ensures var t, planned := LoopStep(s, l, step), Planned(s.loops[l], Replay(s.log), plan);
            t.log == s.log || (planned.Ok? && t.log == s.log + planned.value)
  {
    hide Replay, Planned, MayPlan, MayEnd;
    var phase := s.loops[l].phase;
    plan := if phase.Writing? then phase.plan
            else PlanRound(if phase.WritingEnd? then phase.frames else [], RoundSpent([], None));
  }

  lemma LoopsNeverOpenTheDoor(s: System, l: nat, step: RunLifecycle.Step)
    requires Inv(s) && DoorInv(s) && l < |s.loops|
    ensures !DoorOpened(s.audit, LoopStep(s, l, step).log)
  {
    hide Accepted, RightlyWritten, ErrandsFit, Replay, Shape, Planned, LoopStep, LoopFits, DoorOpened;
    var t, run := LoopStep(s, l, step), Replay(s.log);
    var plan := LoopStepAppends(s, l, step);
    if DoorOpened(s.audit, t.log) {
      var events := Planned(s.loops[l], run, plan).value;
      OpeningStays(s.audit, s.log, events);
      assert s.log != [] by {
        assert run.started;
        NothingIsUnstarted();
      }
      PlansOpenQuietly(s.loops[l], run, plan);
    }
  }

  lemma NothingIsUnstarted()
    ensures !Replay([]).started
  {
  }

  /** The MCP door's opening leaves no loop; nothing else opens a run that way, and nothing spawns on one. */
  lemma OutsidersKeepTheDoor(s: System, w: nat, replyLost: bool)
    requires Inv(s) && DoorInv(s) && w in s.errands && s.errands[w].Asking?
    ensures DoorInv(OutsiderWrite(s, w, replyLost))
  {
    hide Accepted, RightlyWritten, Replay, LoopsFit, Shape, ErrandsFit, FramesThenOne, DoorOpened;
    hide DecideAll, RightlyAll, AllowedAll, ApplyAll;
    var Intent(readSeq, asks) := s.errands[w].intent;
    var run := Replay(s.log);
    if DecidedAt(s.log, readSeq, asks).Ok? && readSeq == |s.log| {
      assert s.log[..readSeq] == s.log;
      var events, onAudit := DecideAll(run, asks).value, IsAudit(s.audit, run);
      ReplayAppend(s.log, events);
      if OpensAudit(asks, s.audit) {
        AuditOpensUnstarted(s, asks);
      } else if FramesThenOne(asks, onAudit) {
        FirstIsOutsider(asks, onAudit);
        OutsiderAllMove(s.loops, run, asks, s.audit, onAudit, |s.log|);
        AsksOpenQuietly(run, asks, onAudit);
        if DoorOpened(s.audit, s.log) {
          NoLoopOnAudit(run, asks);
        } else if DoorOpened(s.audit, s.log + events) {
          OpeningStays(s.audit, s.log, events);
          NothingIsUnstarted();
        }
      }
    }
  }

  lemma AuditOpensUnstarted(s: System, asks: seq<Ask>)
    requires Inv(s) && OpensAudit(asks, s.audit) && DecideAll(Replay(s.log), asks).Ok?
    ensures var after := ApplyAll(Replay(s.log), DecideAll(Replay(s.log), asks).value);
            s.loops == [] && after.started && IsAudit(s.audit, after)
  {
    hide Accepted, RightlyWritten, Replay, ErrandsFit, Shape;
    var run := Replay(s.log);
    var begin, wait := asks[0], asks[1];
    assert asks == [begin] + [wait] && [wait] == [wait] + [];
    DecideAllUnfolds(run, begin, [wait]);
    var e := Decide(run, begin.command).value[0];
    ApplyAllOne(run, e);
    DecideAllUnfolds(Apply(run, e), wait, []);
    var f := Decide(Apply(run, e), wait.command).value[0];
    ApplyAllOne(Apply(run, e), f);
    ApplyAllConcat(run, [e], [f]);
    DecideAllUnfolds(ApplyAll(Apply(run, e), [f]), wait, []);
    assert DecideAll(run, asks).value == [e] + [f];
  }

  /** What is written to a started audit run neither starts nor resumes it. */
  lemma {:induction false} NoLoopOnAudit(run: RunState, asks: seq<Ask>)
    requires run.started && FramesThenOne(asks, true) && DecideAll(run, asks).Ok?
    ensures !asks[|asks| - 1].command.Start? && !asks[|asks| - 1].command.Resume?
    decreases |asks|
  {
    var ask, others := asks[0], asks[1..];
    assert asks == [ask] + others;
    DecideAllUnfolds(run, ask, others);
    FirstIsOutsider(asks, true);
    hide DecideAll;
    if others != [] {
      if Decide(run, ask.command).Ok? {
        ApplyAllOne(run, Decide(run, ask.command).value[0]);
        NoLoopOnAudit(ApplyAll(run, Decide(run, ask.command).value), others);
      } else {
        NoLoopOnAudit(run, others);
      }
    }
  }

  lemma SettlingKeepsTheDoor(s: System, w: nat, replyLost: bool)
    requires Inv(s) && DoorInv(s) && w in s.errands && s.errands[w].Settling?
    ensures DoorInv(OutsiderWrite(s, w, replyLost))
  {
    hide Accepted, RightlyWritten, Replay, LoopsFit, Shape, ErrandsFit, DecideAll, DoorOpened;
    var readSeq, run, e := s.errands[w].readSeq, Replay(s.log), HasFinished(None);
    FinishDecides(run);
    if readSeq == |s.log| {
      assert s.log[..readSeq] == s.log;
      ReplayOne(s.log, e);
      if !DoorOpened(s.audit, s.log) && DoorOpened(s.audit, s.log + [e]) {
        OpeningStays(s.audit, s.log, [e]);
      }
    }
  }

  lemma ExecKeepsTheDoor(s: System, step: RunLifecycle.Step)
    requires Inv(s) && DoorInv(s)
    ensures DoorInv(Exec(s, step))
  {
    hide Inv, OutsiderWrite, LoopStep, Replay, DoorOpened;
    AuditStays(s, step);
    match step
    case OutsiderReads(_, _) =>
    case OutsiderWrites(w, replyLost) =>
      if w in s.errands {
        if s.errands[w].Asking? {
          OutsidersKeepTheDoor(s, w, replyLost);
        } else {
          SettlingKeepsTheDoor(s, w, replyLost);
        }
      } else {
        NoErrandNothing(s, w, replyLost);
      }
    case _ =>
      if step.loop < |s.loops| {
        LoopsNeverOpenTheDoor(s, step.loop, step);
      }
  }

  lemma NoErrandNothing(s: System, w: nat, replyLost: bool)
    requires w !in s.errands
    ensures OutsiderWrite(s, w, replyLost) == s
  {
  }

  lemma {:induction false} ExecAllKeepsTheDoor(s: System, steps: seq<RunLifecycle.Step>)
    requires Inv(s) && DoorInv(s)
    ensures DoorInv(ExecAll(s, steps))
    decreases |steps|
  {
    if steps != [] {
      hide Inv, DoorInv;
      ExecKeepsInv(s, steps[0]);
      ExecKeepsTheDoor(s, steps[0]);
      ExecAllKeepsTheDoor(Exec(s, steps[0]), steps[1..]);
    }
  }

  /** Over every run of the system: a run the MCP door opened never has a loop, so none of its calls is run here. */
  lemma AuditRunsAreNeverDriven(audit: string, steps: seq<RunLifecycle.Step>)
    requires DoorOpened(audit, ExecAll(Initial(audit), steps).log)
    ensures ExecAll(Initial(audit), steps).loops == []
  {
    ReachableInv(audit, []);
    ReachableInv(audit, steps);
    ExecAllKeepsTheDoor(Initial(audit), steps);
  }

  // ----- a whole audit run ------------------------------------------------------------------------------------------

  /** The MCP door's own run: opened waiting on its card, answered, and finished behind the answer. */
  function AuditSteps(audit: string, call: PendingApproval, approved: bool, who: string): seq<RunLifecycle.Step> {
    [ OutsiderReads(0, AuditAsks(audit, call)), OutsiderWrites(0, false),
      OutsiderReads(1, [Must(Answer(call.callId, approved, who))]), OutsiderWrites(1, false),
      OutsiderWrites(1, false) ]
  }

  function AuditAsks(audit: string, call: PendingApproval): seq<Ask> {
    [Must(Start(audit, None, Inference.TurnSource(Inference.Gateway, None))), Must(Suspend(call))]
  }

  function AuditOpening(audit: string, call: PendingApproval): seq<Event> {
    [Started(Capture(audit, None, Inference.Gateway, None)), Suspended(call)]
  }

  function WaitingRun(audit: string, call: PendingApproval): RunState {
    FRESH.(started := true, capture := Capture(audit, None, Inference.Gateway, None), status := AwaitingApproval,
           pending := Some(call))
  }

  lemma AuditRunDecides(audit: string, call: PendingApproval)
    ensures DecideAll(FRESH, AuditAsks(audit, call)) == Ok(AuditOpening(audit, call))
    ensures Replay(AuditOpening(audit, call)) == WaitingRun(audit, call)
  {
    var asks, log := AuditAsks(audit, call), AuditOpening(audit, call);
    var begun := Apply(FRESH, log[0]);
    assert asks == [asks[0]] + [asks[1]] && [asks[1]] == [asks[1]] + [];
    ApplyAllOne(FRESH, log[0]);
    ApplyAllOne(begun, log[1]);
    DecideAllUnfolds(FRESH, asks[0], [asks[1]]);
    DecideAllUnfolds(begun, asks[1], []);
    DecideAllUnfolds(Apply(begun, log[1]), asks[1], []);
    assert DecideAll(begun, [asks[1]]).value == [log[1]];
    assert log == [log[0]] + [log[1]];
    ApplyAllConcat(FRESH, [log[0]], [log[1]]);
    ReplayAppend([], log);
    assert [] + log == log;
  }

  lemma AuditRunOpens(audit: string, call: PendingApproval, w: nat)
    ensures Exec(Exec(Initial(audit), OutsiderReads(w, AuditAsks(audit, call))), OutsiderWrites(w, false)).log
            == AuditOpening(audit, call)
  {
    var log := AuditOpening(audit, call);
    AuditRunDecides(audit, call);
    hide AuditOpening, DecideAll, LoopStep, AfterAsking, Repeat;
    assert [] + log == log;
    var read := Exec(Initial(audit), OutsiderReads(w, AuditAsks(audit, call)));
    assert read.log[..0] == [];
  }

  lemma AuditRunIsAnswered(s: System, w: nat, call: PendingApproval, approved: bool, who: string)
    requires Replay(s.log) == WaitingRun(s.audit, call)
    ensures var answer := Answer(call.callId, approved, who);
            var t := Exec(Exec(s, OutsiderReads(w, [Must(answer)])), OutsiderWrites(w, false));
            t.log == s.log + [Answered(call.callId, approved, who)] && w in t.errands &&
              t.errands[w] == Settling(|t.log|)
    ensures Replay(s.log + [Answered(call.callId, approved, who)]) ==
            WaitingRun(s.audit, call).(pending := None, status := Running, answered := {call.callId},
                                       unstartedAnswer := Some(AnsweredCall(call, approved)))
  {
    var run, e := WaitingRun(s.audit, call), Answered(call.callId, approved, who);
    AnAnswerDecides(run, call.callId, approved, who);
    ReplayOne(s.log, e);
    hide Replay, DecideAll, LoopStep, Spawn, Repeat, OpensAudit;
    var read := Exec(s, OutsiderReads(w, [Must(Answer(call.callId, approved, who))]));
    assert read.log[..|s.log|] == s.log;
  }

  lemma AuditRunSettles(s: System, w: nat)
    requires w in s.errands && s.errands[w] == Settling(|s.log|) && Replay(s.log).status.Running?
    ensures Exec(s, OutsiderWrites(w, false)).log == s.log + [HasFinished(None)]
  {
    hide Replay, DecideAll, LoopStep, AfterAsking, OpensAudit, FramesThenOne, Repeat;
    assert s.log[..|s.log|] == s.log;
    FinishDecides(Replay(s.log));
  }

  /** Every audit run that is answered and settled finishes with its answer unstarted, whatever was asked. */
  lemma AuditRunsFinishOwed(audit: string, call: PendingApproval, approved: bool, who: string)
    ensures var log := ExecAll(Initial(audit), AuditSteps(audit, call, approved, who)).log;
            |log| == 4 && log[3] == HasFinished(None) && AnswerOwed(log[..3], call, approved)
  {
    var steps, opening := AuditSteps(audit, call, approved, who), AuditOpening(audit, call);
    var answered := opening + [Answered(call.callId, approved, who)];
    hide Exec, ExecAll, AnswerOwed, Replay;
    var two := Exec(Exec(Initial(audit), steps[0]), steps[1]);
    var four := Exec(Exec(two, steps[2]), steps[3]);
    AuditRunOpens(audit, call, 0);
    AuditRunDecides(audit, call);
    AuditStays(Initial(audit), steps[0]);
    AuditStays(Exec(Initial(audit), steps[0]), steps[1]);
    AuditRunIsAnswered(two, 1, call, approved, who);
    UnstartedAnswerMeaning(answered, call, approved);
    AuditRunSettles(four, 1);
    ExecFive(Initial(audit), steps);
    assert (answered + [HasFinished(None)])[..3] == answered;
  }

  lemma ExecFive(s: System, steps: seq<RunLifecycle.Step>)
    requires |steps| == 5
    ensures ExecAll(s, steps) == Exec(Exec(Exec(Exec(Exec(s, steps[0]), steps[1]), steps[2]), steps[3]), steps[4])
  {
    hide Exec, ExecAll;
    var a := Exec(s, steps[0]);
    var b := Exec(a, steps[1]);
    var c := Exec(b, steps[2]);
    var d := Exec(c, steps[3]);
    ExecAllFirst(s, steps[0], steps[1..]);
    ExecAllFirst(a, steps[1], steps[2..]);
    ExecAllFirst(b, steps[2], steps[3..]);
    ExecAllFirst(c, steps[3], steps[4..]);
    ExecAllFirst(d, steps[4], []);
    assert steps == [steps[0]] + steps[1..] && steps[1..] == [steps[1]] + steps[2..];
    assert steps[2..] == [steps[2]] + steps[3..] && steps[3..] == [steps[3]] + steps[4..];
    assert steps[4..] == [steps[4]] + [];
  }

  lemma ExecAllFirst(s: System, step: RunLifecycle.Step, rest: seq<RunLifecycle.Step>)
    ensures ExecAll(s, [step] + rest) == ExecAll(Exec(s, step), rest)
    ensures ExecAll(s, []) == s && ExecAll(Exec(s, step), []) == Exec(s, step)
  {
    hide Exec;
    assert ([step] + rest)[1..] == rest;
  }
}
