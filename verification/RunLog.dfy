/**
 What a run's log means, read declaratively, and what every accepted log keeps.

 The first half ties the replayed fields to statements about positions in the log, for every log. The
 second half is about accepted logs: those in which each event was decided on the events before it.
 */
module RunLog {
  import opened Common
  import opened Run

  // ----- a declarative reading, for every log ----------------------------------------------------

  /** Some start of `call` has no later result. */
  ghost predicate OpenInLog(log: seq<Event>, call: string) {
    exists i :: 0 <= i < |log| && Starts(log[i], call) && forall j :: i < j < |log| ==> !Results(log[j], call)
  }

  /** `call` was last started as `tool`, and nothing has started it again or closed it since. */
  ghost predicate OpenAs(log: seq<Event>, call: string, tool: string) {
    exists i: nat :: i < |log| && OpenSince(log, i, call, tool)
  }

  predicate StillOpen(e: Event, call: string) {
    !Starts(e, call) && !Results(e, call)
  }

  ghost predicate OpenSince(log: seq<Event>, i: nat, call: string, tool: string)
    requires i < |log|
  {
    && log[i].ToolStarted? && LastEntry(log[i].tools, call, tool)
    && forall j :: i < j < |log| ==> StillOpen(log[j], call)
  }

  ghost predicate LastEntry(tools: seq<StartedTool>, call: string, tool: string) {
    exists k ::
      && 0 <= k < |tools| && tools[k] == StartedTool(call, tool)
      && forall m :: k < m < |tools| ==> tools[m].callId != call
  }

  /** The card `call` is the latest one, and nothing has answered or stopped the run since. */
  ghost predicate WaitingOn(log: seq<Event>, call: PendingApproval) {
    exists i ::
      && 0 <= i < |log| && log[i] == Suspended(call)
      && forall j :: i < j < |log| ==> !log[j].Suspended? && !log[j].Answered? && !log[j].WasStopped?
  }

  /** The latest answer was to `call`, and nothing has started that call or closed it since. */
  ghost predicate AnswerOwed(log: seq<Event>, call: PendingApproval, approved: bool) {
    exists i: nat :: i < |log| && OwedSince(log, i, call, approved)
  }

  function Frames(log: seq<Event>): seq<Frame> {
    if log == [] then []
    else
      var before, e := Frames(log[..|log| - 1]), log[|log| - 1];
      if e.Emitted? then before + [e.payload] else before
  }

  function CountResumed(log: seq<Event>): nat {
    if log == [] then 0
    else CountResumed(log[..|log| - 1]) + if log[|log| - 1].Resumed? then 1 else 0
  }

  lemma OpenStep(before: seq<Event>, e: Event, call: string)
    ensures OpenInLog(before + [e], call) <==> Starts(e, call) || (OpenInLog(before, call) && !Results(e, call))
  {
    var log := before + [e];
    if Starts(e, call) {
      assert log[|before|] == e;
    } else if OpenInLog(before, call) && !Results(e, call) {
      var i :| 0 <= i < |before| && Starts(before[i], call) && forall j :: i < j < |before| ==>
        !Results(before[j], call);
      assert log[i] == before[i];
    }
    if OpenInLog(log, call) && !Starts(e, call) {
      var i :| 0 <= i < |log| && Starts(log[i], call) && forall j :: i < j < |log| ==> !Results(log[j], call);
      assert before[i] == log[i] && !Results(log[|before|], call);
      assert forall j :: i < j < |before| ==> before[j] == log[j];
    }
  }

  /** A call is open exactly when some start of it has no later result. */
  lemma {:induction false} OpenToolsMeaning(log: seq<Event>, call: string)
    ensures call in Replay(log).openTools <==> OpenInLog(log, call)
  {
    if log != [] {
      var before, e := log[..|log| - 1], log[|log| - 1];
      assert log == before + [e];
      OpenToolsMeaning(before, call);
      OpenStep(before, e, call);
    }
  }

  lemma LastEntryStep(before: seq<StartedTool>, last: StartedTool, call: string, tool: string)
    ensures LastEntry(before + [last], call, tool) <==>
            if last.callId == call then last.tool == tool else LastEntry(before, call, tool)
  {
    var tools := before + [last];
    assert tools[|before|] == last;
    if last.callId != call && LastEntry(before, call, tool) {
      var k :| 0 <= k < |before| && before[k] == StartedTool(call, tool) && forall m :: k < m < |before| ==>
        before[m].callId != call;
      assert tools[k] == before[k];
    }
    if last.callId != call && LastEntry(tools, call, tool) {
      var k :| 0 <= k < |tools| && tools[k] == StartedTool(call, tool) && forall m :: k < m < |tools| ==>
        tools[m].callId != call;
      assert before[k] == tools[k] && forall m :: k < m < |before| ==> before[m] == tools[m];
    }
  }

  lemma {:induction false} ToolNamesAreLast(tools: seq<StartedTool>, call: string, tool: string)
    ensures NamedAs(ToolNames(tools), call, tool) <==> LastEntry(tools, call, tool)
  {
    if tools != [] {
      hide LastEntry, ListsCall;
      var before, last := tools[..|tools| - 1], tools[|tools| - 1];
      assert tools == before + [last];
      ToolNamesAreLast(before, call, tool);
      LastEntryStep(before, last, call, tool);
    }
  }

  lemma OpenSinceStep(before: seq<Event>, e: Event, i: nat, call: string, tool: string)
    requires i < |before|
    ensures OpenSince(before + [e], i, call, tool) <==> OpenSince(before, i, call, tool) && StillOpen(e, call)
  {
    hide LastEntry, StillOpen;
    var log := before + [e];
    assert log[i] == before[i] && log[|before|] == e;
    assert forall j :: i < j < |before| ==> log[j] == before[j];
  }

  lemma LastEntryLists(tools: seq<StartedTool>, call: string, tool: string)
    requires LastEntry(tools, call, tool)
    ensures ListsCall(tools, call)
  {
  }

  lemma OpenAsStep(before: seq<Event>, e: Event, call: string, tool: string)
    ensures OpenAs(before + [e], call, tool) <==>
            if Starts(e, call) then LastEntry(e.tools, call, tool) else OpenAs(before, call, tool) && !Results(e, call)
  {
    hide LastEntry, ListsCall;
    var log := before + [e];
    assert log[|before|] == e;
    assert OpenSince(log, |before|, call, tool) <==> e.ToolStarted? && LastEntry(e.tools, call, tool);
    if e.ToolStarted? && LastEntry(e.tools, call, tool) {
      LastEntryLists(e.tools, call, tool);
    }
    forall i: nat | i < |before|
      ensures OpenSince(log, i, call, tool) <==> OpenSince(before, i, call, tool) && StillOpen(e, call)
    {
      OpenSinceStep(before, e, i, call, tool);
    }
  }

  predicate NamedAs(names: map<string, string>, call: string, tool: string) {
    call in names && names[call] == tool
  }

  lemma ApplyNames(run: RunState, e: Event, call: string, tool: string)
    ensures NamedAs(Apply(run, e).openTools, call, tool) <==>
            if Starts(e, call) then NamedAs(ToolNames(e.tools), call, tool)
            else NamedAs(run.openTools, call, tool) && !Results(e, call)
  {
  }

  /** An open call carries the tool its last start named. */
  lemma {:induction false} OpenToolNames(log: seq<Event>, call: string, tool: string)
    ensures NamedAs(Replay(log).openTools, call, tool) <==> OpenAs(log, call, tool)
  {
    if log != [] {
      hide Apply, OpenAs, LastEntry, Results;
      var before, e := log[..|log| - 1], log[|log| - 1];
      assert log == before + [e];
      OpenToolNames(before, call, tool);
      OpenAsStep(before, e, call, tool);
      ApplyNames(Replay(before), e, call, tool);
      if e.ToolStarted? {
        ToolNamesAreLast(e.tools, call, tool);
      }
    }
  }

  lemma WaitingStep(before: seq<Event>, e: Event, call: PendingApproval)
    ensures WaitingOn(before + [e], call) <==>
            e == Suspended(call) || (WaitingOn(before, call) && !e.Suspended? && !e.Answered? && !e.WasStopped?)
  {
    var log := before + [e];
    if e == Suspended(call) {
      assert log[|before|] == e;
    }
    if WaitingOn(before, call) && !e.Suspended? && !e.Answered? && !e.WasStopped? {
      var i :| && 0 <= i < |before| && before[i] == Suspended(call)
               && forall j :: i < j < |before| ==>
                    !before[j].Suspended? && !before[j].Answered? && !before[j].WasStopped?;
      assert log[i] == before[i];
    }
    if WaitingOn(log, call) && e != Suspended(call) {
      var i :| && 0 <= i < |log| && log[i] == Suspended(call)
               && forall j :: i < j < |log| ==> !log[j].Suspended? && !log[j].Answered? && !log[j].WasStopped?;
      assert before[i] == log[i] && log[|before|] == e;
      assert forall j :: i < j < |before| ==> before[j] == log[j];
    }
  }

  /** The pending card is the latest one that nothing has answered or stopped. */
  lemma {:induction false} PendingMeaning(log: seq<Event>, call: PendingApproval)
    ensures Replay(log).pending == Some(call) <==> WaitingOn(log, call)
  {
    if log != [] {
      var before, e := log[..|log| - 1], log[|log| - 1];
      assert log == before + [e];
      PendingMeaning(before, call);
      WaitingStep(before, e, call);
    }
  }

  /** Nothing has answered again, or started or closed `call`. */
  predicate StillOwed(e: Event, call: string) {
    !e.Answered? && !Starts(e, call) && !Results(e, call)
  }

  /** Event `i` answered `call`, and it is owed since. */
  ghost predicate OwedSince(log: seq<Event>, i: nat, call: PendingApproval, approved: bool)
    requires i < |log|
  {
    && WaitingOn(log[..i], call)
    && log[i].Answered? && log[i].callId == call.callId && log[i].approved == approved
    && forall j :: i < j < |log| ==> StillOwed(log[j], call.callId)
  }

  lemma OwedSinceStep(before: seq<Event>, e: Event, i: nat, call: PendingApproval, approved: bool)
    requires i < |before|
    ensures OwedSince(before + [e], i, call, approved) <==>
            OwedSince(before, i, call, approved) && StillOwed(e, call.callId)
  {
    hide WaitingOn, StillOwed;
    var log := before + [e];
    assert log[..i] == before[..i] && log[i] == before[i] && log[|before|] == e;
    assert forall j :: i < j < |before| ==> log[j] == before[j];
  }

  lemma OwedStep(before: seq<Event>, e: Event, call: PendingApproval, approved: bool)
    ensures AnswerOwed(before + [e], call, approved) <==>
            if e.Answered? then WaitingOn(before, call) && e.callId == call.callId && e.approved == approved
            else AnswerOwed(before, call, approved) && StillOwed(e, call.callId)
  {
    hide WaitingOn, Starts, Results;
    var log := before + [e];
    assert log[..|before|] == before && log[|before|] == e;
    assert OwedSince(log, |before|, call, approved) <==>
           e.Answered? && WaitingOn(before, call) && e.callId == call.callId && e.approved == approved;
    forall i: nat | i < |before|
      ensures OwedSince(log, i, call, approved) <==> OwedSince(before, i, call, approved) && StillOwed(e, call.callId)
    {
      OwedSinceStep(before, e, i, call, approved);
    }
  }

  /** The unstarted answer is the latest answer, to the card it answered, while its call has not started or closed. */
  lemma {:induction false} UnstartedAnswerMeaning(log: seq<Event>, call: PendingApproval, approved: bool)
    ensures Replay(log).unstartedAnswer == Some(AnsweredCall(call, approved)) <==> AnswerOwed(log, call, approved)
  {
    if log != [] {
      var before, e := log[..|log| - 1], log[|log| - 1];
      assert log == before + [e];
      UnstartedAnswerMeaning(before, call, approved);
      OwedStep(before, e, call, approved);
      PendingMeaning(before, call);
      UnstartedStep(Replay(before), e, call, approved);
    }
  }

  lemma UnstartedStep(run: RunState, e: Event, call: PendingApproval, approved: bool)
    ensures Apply(run, e).unstartedAnswer == Some(AnsweredCall(call, approved)) <==>
            if e.Answered? then run.pending == Some(call) && e.callId == call.callId && e.approved == approved
            else
              && run.unstartedAnswer == Some(AnsweredCall(call, approved))
              && !Starts(e, call.callId) && !Results(e, call.callId)
  {
  }

  ghost predicate AnsweredIn(log: seq<Event>, call: string) {
    exists i :: 0 <= i < |log| && log[i].Answered? && log[i].callId == call
  }

  lemma AnsweredStep(before: seq<Event>, e: Event, call: string)
    ensures AnsweredIn(before + [e], call) <==> AnsweredIn(before, call) || (e.Answered? && e.callId == call)
  {
    var log := before + [e];
    assert log[|before|] == e;
    if AnsweredIn(before, call) {
      var i :| 0 <= i < |before| && before[i].Answered? && before[i].callId == call;
      assert log[i] == before[i];
    }
  }

  lemma ApplyRecords(run: RunState, e: Event)
    ensures Apply(run, e).emitted == if e.Emitted? then run.emitted + [e.payload] else run.emitted
    ensures Apply(run, e).answered == if e.Answered? then run.answered + {e.callId} else run.answered
  {
  }

  /** A reconnecting client replays exactly the frames journaled, and `answered` is every call answered. */
  lemma {:induction false} EmittedAndAnsweredMeaning(log: seq<Event>, call: string)
    ensures Replay(log).emitted == Frames(log)
    ensures call in Replay(log).answered <==> AnsweredIn(log, call)
  {
    if log != [] {
      hide Apply, AnsweredIn;
      var before, e := log[..|log| - 1], log[|log| - 1];
      assert log == before + [e];
      EmittedAndAnsweredMeaning(before, call);
      AnsweredStep(before, e, call);
      ApplyRecords(Replay(before), e);
    }
  }

  // ----- accepted logs -----------------------------------------------------------------------------

  /** Some command decides on exactly this event. */
  ghost predicate Decidable(run: RunState, e: Event) {
    exists command :: Decide(run, command) == Ok([e])
  }

  /** Every event was decided on the events before it. */
  ghost predicate Accepted(log: seq<Event>) {
    forall i :: 0 <= i < |log| ==> Decidable(Replay(log[..i]), log[i])
  }

  /** What the run must be for `e` to be written. */
  predicate Allowed(run: RunState, e: Event) {
    match e
    case Started(capture) => !run.started && !run.status.Terminal() &&
      (capture.source == Inference.Gateway ==> capture.via.None?)
    case Emitted(n, _) => run.started && !run.status.Finished? && !run.status.Failed? && n == |run.emitted|
    case Suspended(_) => !run.status.Terminal()
    case Answered(c, _, _) => c !in run.answered && !run.status.Terminal() && run.pending.Some? &&
      run.pending.value.callId == c
    case HasFinished(_) => !run.status.Terminal()
    case HasFailed(_) => !run.status.Terminal()
    case WasStopped(_) => !run.status.Terminal()
    case ToolStarted(_) => run.started && !run.status.Terminal()
    case Spent(_, _) => run.started && !run.status.Terminal()
    case Resumed(g, _) =>
      run.started && run.status.Running? && run.openTools == map[] && run.generation < MAX_RESUMES &&
        g == run.generation + 1
  }

  /** An event can be decided exactly when the run allows it. */
  lemma DecidableIffAllowed(run: RunState, e: Event)
    ensures Decidable(run, e) <==> Allowed(run, e)
  {
    if Allowed(run, e) {
      var command := match e
        case Started(c) => Start(c.threadId, c.model, Inference.TurnSource(c.source, c.via))
        case Emitted(_, f) => Emit(f)
        case Suspended(c) => Suspend(c)
        case Answered(c, a, w) => Answer(c, a, w)
        case HasFinished(r) => Finish(r)
        case HasFailed(w) => Fail(w)
        case WasStopped(w) => Stop(w)
        case ToolStarted(t) => StartTools(t)
        case Spent(r, k) => RecordSpent(r, k)
        case Resumed(_, c) => Resume(c);
      assert Decide(run, command) == Ok([e]);
    }
    if Decidable(run, e) {
      var command :| Decide(run, command) == Ok([e]);
      assert e == [e][0];
    }
  }

  lemma AcceptedPrefix(log: seq<Event>, n: nat)
    requires Accepted(log) && n <= |log|
    ensures Accepted(log[..n])
  {
    forall i | 0 <= i < n ensures Decidable(Replay(log[..n][..i]), log[..n][i]) {
      assert log[..n][..i] == log[..i];
    }
  }

  lemma AcceptedSnoc(log: seq<Event>, e: Event)
    ensures Accepted(log + [e]) <==> Accepted(log) && Allowed(Replay(log), e)
  {
    var longer := log + [e];
    assert forall i :: 0 <= i <= |log| ==> longer[..i] == log[..i];
    assert longer[..|log|] == log;
    DecidableIffAllowed(Replay(log), e);
    assert longer[|log|] == e;
    if Accepted(longer) {
      forall i | 0 <= i < |log| ensures Decidable(Replay(log[..i]), log[i]) {
        assert longer[i] == log[i];
      }
    }
  }

  lemma AcceptedLast(log: seq<Event>)
    requires Accepted(log) && log != []
    ensures Accepted(log[..|log| - 1]) && Allowed(Replay(log[..|log| - 1]), log[|log| - 1])
  {
    assert log == log[..|log| - 1] + [log[|log| - 1]];
    AcceptedSnoc(log[..|log| - 1], log[|log| - 1]);
  }

  /** One allowed event: what it does to the status and the generation. */
  lemma AllowedStep(run: RunState, e: Event)
    requires Allowed(run, e)
    ensures run.status.Terminal() ==> run.status.Stopped? && e.Emitted? && Apply(run, e).status == run.status
    ensures Apply(run, e).status.Terminal() <==> run.status.Terminal() || IsEnding(e)
    ensures IsEnding(e) ==> Apply(run, e).status == EndingStatus(e)
    ensures Apply(run, e).generation == run.generation + if e.Resumed? then 1 else 0
    ensures e.Resumed? ==> run.generation < MAX_RESUMES
  {
  }

  ghost predicate HasEnding(log: seq<Event>) {
    exists i :: 0 <= i < |log| && IsEnding(log[i])
  }

  /** At most one ending; nothing after a finish or a failure; only frames after a stop. */
  ghost predicate OneEnding(log: seq<Event>) {
    forall i, j :: 0 <= i < j < |log| && IsEnding(log[i]) ==> log[i].WasStopped? && log[j].Emitted?
  }

  ghost predicate StatusTells(log: seq<Event>, status: Status) {
    && (status.Terminal() <==> HasEnding(log))
    && forall i :: 0 <= i < |log| && IsEnding(log[i]) ==> status == EndingStatus(log[i])
  }

  /** What one accepted event does to the status. */
  predicate StatusMoves(status: Status, e: Event, next: Status) {
    && (status.Terminal() ==> status.Stopped? && e.Emitted? && next == status)
    && (next.Terminal() <==> status.Terminal() || IsEnding(e))
    && (IsEnding(e) ==> next == EndingStatus(e))
  }

  lemma AcceptedMoves(log: seq<Event>)
    requires Accepted(log) && log != []
    ensures var before, e := log[..|log| - 1], log[|log| - 1];
            Accepted(before) && log == before + [e] && StatusMoves(Replay(before).status, e, Replay(log).status)
  {
    hide Accepted, Allowed, Apply;
    AcceptedLast(log);
    AllowedStep(Replay(log[..|log| - 1]), log[|log| - 1]);
  }

  lemma EndingSnoc(before: seq<Event>, e: Event, status: Status, next: Status)
    requires OneEnding(before) && StatusTells(before, status) && StatusMoves(status, e, next)
    ensures OneEnding(before + [e]) && StatusTells(before + [e], next)
  {
    var log := before + [e];
    assert forall i :: 0 <= i < |before| ==> log[i] == before[i];
    assert log[|before|] == e;
    if HasEnding(before) {
      var i :| 0 <= i < |before| && IsEnding(before[i]);
      assert IsEnding(log[i]);
    }
  }

  lemma EndingOfNothing(log: seq<Event>)
    requires log == []
    ensures OneEnding(log) && StatusTells(log, Replay(log).status)
  {
  }

  /** An accepted log has one ending, and the status says whether it has come. */
  lemma {:induction false} EndsOnce(log: seq<Event>)
    requires Accepted(log)
    ensures OneEnding(log)
    ensures StatusTells(log, Replay(log).status)
  {
    hide *;
    if log == [] {
      EndingOfNothing(log);
    } else {
      var before, e := log[..|log| - 1], log[|log| - 1];
      AcceptedMoves(log);
      EndsOnce(before);
      EndingSnoc(before, e, Replay(before).status, Replay(log).status);
    }
  }

  function EndingStatus(e: Event): Status
    requires IsEnding(e)
  {
    if e.HasFinished? then Finished else if e.HasFailed? then Failed else Stopped
  }

  /** `generation` counts the resumes, which are at most two; each names its own number. */
  lemma {:induction false} GenerationCountsResumes(log: seq<Event>)
    requires Accepted(log)
    ensures Replay(log).generation == CountResumed(log) <= 2
  {
    if log != [] {
      var before, e := log[..|log| - 1], log[|log| - 1];
      AcceptedLast(log);
      GenerationCountsResumes(before);
      AllowedStep(Replay(before), e);
    }
  }

  /** At every resume, each call started before it has its result on record before it. */
  lemma ResumedWithNothingOpen(log: seq<Event>, r: nat, s: nat, call: string)
    requires Accepted(log) && s < r < |log| && log[r].Resumed? && Starts(log[s], call)
    ensures exists j :: s < j < r && Results(log[j], call)
  {
    hide Replay, Starts, Results;
    var before := log[..r];
    DecidableIffAllowed(Replay(before), log[r]);
    OpenToolsMeaning(before, call);
    assert before[s] == log[s];
    var j :| s < j < |before| && Results(before[j], call);
    assert log[j] == before[j];
  }

  /** Each call is answered at most once. */
  lemma AnsweredAtMostOnce(log: seq<Event>, i: nat, j: nat)
    requires Accepted(log) && i < j < |log| && log[i].Answered? && log[j].Answered?
    ensures log[i].callId != log[j].callId
  {
    var before := log[..j];
    DecidableIffAllowed(Replay(before), log[j]);
    EmittedAndAnsweredMeaning(before, log[i].callId);
    assert before[i] == log[i];
  }

  /** An answer is to the latest card, which nothing had answered, on a run that had not ended. */
  lemma AnsweredOnlyWhileWaiting(log: seq<Event>, i: nat)
    requires Accepted(log) && i < |log| && log[i].Answered?
    ensures !HasEnding(log[..i])
    ensures exists call: PendingApproval :: call.callId == log[i].callId && WaitingOn(log[..i], call)
  {
    var before := log[..i];
    AcceptedPrefix(log, i);
    DecidableIffAllowed(Replay(before), log[i]);
    EndsOnce(before);
    var call := Replay(before).pending.value;
    PendingMeaning(before, call);
  }
}
