/**
 The run as a state computed from its log, and the events each command adds to it.

 `Apply` and `Replay` are the fold, `Decide` turns a command into events or a refusal. `LiveRun` is
 the object the source mutates in place; it is proved against `Apply` and `Replay`.
 */
module Run {
  import opened Common
  import opened Inference

  datatype Status = Running | AwaitingApproval | Finished | Failed | Stopped {
    predicate Terminal() {
      Finished? || Failed? || Stopped?
    }
  }

  datatype FinishReason = Budget

  datatype SuspendReason = ExecConsent | PolicyApproval | AutoReview | UserForm

  datatype RoundKind = Spoken | OnScreen

  /** The call a card asks a person about. */
  datatype PendingApproval = PendingApproval(callId: string, tool: string, arguments: string, reason: SuspendReason)

  datatype AnsweredCall = AnsweredCall(call: PendingApproval, approved: bool)

  datatype StartedTool = StartedTool(callId: string, tool: string)

  /** A rendered protocol event, by the parts of it the log and its journal read. */
  datatype Frame =
    | ToolResult(callId: string, content: string)
    | Card(call: PendingApproval)
    | FinishedFrame(reason: Option<FinishReason>)
    | ErrorFrame(message: string)
    | OtherFrame(body: string)

  /** What a turn captures at its start, for a resume to go on with. */
  datatype Capture = Capture(threadId: string, model: Option<string>, source: SourceKind, via: Option<Via>)

  datatype Event =
    | Started(capture: Capture)
    | Emitted(seqNo: nat, payload: Frame)
    | Suspended(call: PendingApproval)
    | Answered(callId: string, approved: bool, who: string)
    | HasFinished(finishReason: Option<FinishReason>)
    | HasFailed(why: string)
    | WasStopped(stopper: string)
    | ToolStarted(tools: seq<StartedTool>)
    | Resumed(generation: nat, cause: string)
    | Spent(recipes: seq<string>, round: Option<RoundKind>)

  datatype RunState = RunState(
    started: bool,
    capture: Capture,
    status: Status,
    emitted: seq<Frame>,
    failure: Option<string>,
    finishReason: Option<FinishReason>,
    stoppedBy: Option<string>,
    pending: Option<PendingApproval>,
    answered: set<string>,
    openTools: map<string, string>,
    generation: nat,
    unstartedAnswer: Option<AnsweredCall>,
    playedRecipes: set<string>,
    roundsSpent: (nat, nat))

  const NO_CAPTURE := Capture("", None, Gateway, None)

  const FRESH := RunState(false, NO_CAPTURE, Running, [], None, None, None, None, {}, map[], 0, None, {}, (0, 0))

  /** The bound `Decide` puts on `Resume`: at this generation the command is refused. */
  const MAX_RESUMES := 2

  datatype Command =
    | Start(threadId: string, model: Option<string>, from: TurnSource)
    | Emit(frame: Frame)
    | Finish(reason: Option<FinishReason>)
    | Fail(why: string)
    | StartTools(tools: seq<StartedTool>)
    | RecordSpent(recipes: seq<string>, round: Option<RoundKind>)
    | Resume(cause: string)
    | Suspend(call: PendingApproval)
    | Stop(who: string)
    | Answer(callId: string, approved: bool, who: string)

  datatype RunError =
    | AlreadyEnded
    | NotStarted
    | NotAwaiting
    | AlreadyAnswered
    | AlreadyStarted
    | ToolOutcomeUnknown(calls: map<string, string>)
    | ResumedTooOften
    | WaitingOnAPerson

  // ----- what one event says about a call ---------------------------------------------------

  predicate ListsCall(tools: seq<StartedTool>, call: string) {
    exists k :: 0 <= k < |tools| && tools[k].callId == call
  }

  /** The event records that `call` is about to run. */
  predicate Starts(e: Event, call: string) {
    e.ToolStarted? && ListsCall(e.tools, call)
  }

  /** The event journals the result of `call`. */
  predicate Results(e: Event, call: string) {
    e.Emitted? && e.payload.ToolResult? && e.payload.callId == call
  }

  predicate IsEnding(e: Event) {
    e.HasFinished? || e.HasFailed? || e.WasStopped?
  }

  // ----- the fold ----------------------------------------------------------------------------

  /** Calls of a start, a later entry for the same call replacing an earlier one. */
  function ToolNames(tools: seq<StartedTool>): (names: map<string, string>)
    ensures forall c :: c in names <==> ListsCall(tools, c)
    ensures forall c :: c in names ==> StartedTool(c, names[c]) in tools
  {
    if tools == [] then map[]
    else
      var last := tools[|tools| - 1];
      var before := ToolNames(tools[..|tools| - 1]);
      assert tools == tools[..|tools| - 1] + [last];
      before[last.callId := last.tool]
  }

  function Settled(answer: Option<AnsweredCall>, call: string): Option<AnsweredCall> {
    if answer.Some? && answer.value.call.callId == call then None else answer
  }

  function Elements(s: seq<string>): set<string> {
    set x | x in s
  }

  function Apply(run: RunState, e: Event): RunState {
    match e
    case Started(capture) =>
      run.(started := true, capture := capture, status := Running)
    case Emitted(_, payload) =>
      var closed := if payload.ToolResult? then
          run.(openTools := run.openTools - {payload.callId},
               unstartedAnswer := Settled(run.unstartedAnswer, payload.callId))
        else run;
      closed.(emitted := run.emitted + [payload])
    case ToolStarted(tools) =>
      run.(unstartedAnswer :=
             if run.unstartedAnswer.Some? && ListsCall(tools, run.unstartedAnswer.value.call.callId)
             then None else run.unstartedAnswer,
           openTools := run.openTools + ToolNames(tools))
    case Spent(recipes, round) =>
      run.(playedRecipes := run.playedRecipes + Elements(recipes),
           roundsSpent := match round
             case Some(Spoken) => (run.roundsSpent.0 + 1, run.roundsSpent.1)
             case Some(OnScreen) => (run.roundsSpent.0, run.roundsSpent.1 + 1)
             case None => run.roundsSpent)
    case Resumed(generation, _) =>
      run.(generation := generation)
    case Suspended(call) =>
      run.(status := AwaitingApproval, pending := Some(call))
    case Answered(callId, approved, _) =>
      run.(answered := run.answered + {callId},
           pending := None,
           unstartedAnswer :=
             if run.pending.Some? && run.pending.value.callId == callId
             then Some(AnsweredCall(run.pending.value, approved)) else None,
           status := Running)
    case HasFinished(reason) =>
      run.(status := Finished, finishReason := reason)
    case HasFailed(why) =>
      run.(status := Failed, failure := Some(why))
    case WasStopped(who) =>
      run.(status := Stopped, stoppedBy := Some(who), pending := None)
  }

  function Replay(log: seq<Event>): RunState {
    if log == [] then FRESH else Apply(Replay(log[..|log| - 1]), log[|log| - 1])
  }

  // ----- decisions ---------------------------------------------------------------------------

  function Decide(run: RunState, command: Command): Result<seq<Event>, RunError> {
    match command
    case Start(threadId, model, from) =>
      if run.started || run.status.Terminal() then Err(AlreadyStarted)
      else Ok([Started(Capture(threadId, model, from.kind, if from.kind == LocalProxy then from.via else None))])
    case Emit(frame) =>
      if !run.started then Err(NotStarted)
      else if run.status.Finished? || run.status.Failed? then Err(AlreadyEnded)
      else Ok([Emitted(|run.emitted|, frame)])
    case Finish(reason) =>
      if run.status.Terminal() then Err(AlreadyEnded) else Ok([HasFinished(reason)])
    case Fail(why) =>
      if run.status.Terminal() then Err(AlreadyEnded) else Ok([HasFailed(why)])
    case RecordSpent(recipes, round) =>
      if !run.started then Err(NotStarted)
      else if run.status.Terminal() then Err(AlreadyEnded)
      else Ok([Spent(recipes, round)])
    case StartTools(tools) =>
      if !run.started then Err(NotStarted)
      else if run.status.Terminal() then Err(AlreadyEnded)
      else Ok([ToolStarted(tools)])
    case Resume(cause) =>
      if !run.started then Err(NotStarted)
      else if run.status.Terminal() then Err(AlreadyEnded)
      else if run.status.AwaitingApproval? then Err(WaitingOnAPerson)
      else if run.openTools != map[] then Err(ToolOutcomeUnknown(run.openTools))
      else if run.generation >= MAX_RESUMES then Err(ResumedTooOften)
      else Ok([Resumed(run.generation + 1, cause)])
    case Stop(who) =>
      if run.status.Terminal() then Err(AlreadyEnded) else Ok([WasStopped(who)])
    case Suspend(call) =>
      if run.status.Terminal() then Err(AlreadyEnded) else Ok([Suspended(call)])
    case Answer(callId, approved, who) =>
      if callId in run.answered then Err(AlreadyAnswered)
      else if run.status.Terminal() then Err(NotAwaiting)
      else if run.pending.None? then Err(NotAwaiting)
      else if run.pending.value.callId != callId then Err(NotAwaiting)
      else Ok([Answered(callId, approved, who)])
  }

  // ----- the object the source updates in place ------------------------------------------------

  class LiveRun {
    var started: bool
    var capture: Capture
    var status: Status
    var emitted: seq<Frame>
    var failure: Option<string>
    var finishReason: Option<FinishReason>
    var stoppedBy: Option<string>
    var pending: Option<PendingApproval>
    var answered: set<string>
    var openTools: map<string, string>
    var generation: nat
    var unstartedAnswer: Option<AnsweredCall>
    var playedRecipes: set<string>
    var roundsSpent: (nat, nat)

    ghost function Value(): RunState
      reads this
    {
      RunState(started, capture, status, emitted, failure, finishReason, stoppedBy, pending, answered,
               openTools, generation, unstartedAnswer, playedRecipes, roundsSpent)
    }

    constructor ()
      ensures Value() == FRESH
    {
      started, capture, status, emitted := false, NO_CAPTURE, Running, [];
      failure, finishReason, stoppedBy, pending := None, None, None, None;
      answered, openTools, generation, unstartedAnswer := {}, map[], 0, None;
      playedRecipes, roundsSpent := {}, (0, 0);
    }

    /** A journaled frame; a tool's result closes its call. */
    method ApplyEmitted(n: nat, payload: Frame)
      modifies this
      ensures Value() == Apply(old(Value()), Emitted(n, payload))
    {
      if payload.ToolResult? {
        openTools := openTools - {payload.callId};
        if unstartedAnswer.Some? && unstartedAnswer.value.call.callId == payload.callId {
          unstartedAnswer := None;
        }
      }
      emitted := emitted + [payload];
    }

    method ApplyToolStarted(tools: seq<StartedTool>)
      modifies this
      ensures Value() == Apply(old(Value()), ToolStarted(tools))
    {
      hide ToolNames, ListsCall;
      if unstartedAnswer.Some? && ListsCall(tools, unstartedAnswer.value.call.callId) {
        unstartedAnswer := None;
      }
      openTools := openTools + ToolNames(tools);
    }

    method ApplySpent(recipes: seq<string>, round: Option<RoundKind>)
      modifies this
      ensures Value() == Apply(old(Value()), Spent(recipes, round))
    {
      hide Elements;
      playedRecipes := playedRecipes + Elements(recipes);
      match round
      case Some(Spoken) => roundsSpent := (roundsSpent.0 + 1, roundsSpent.1);
      case Some(OnScreen) => roundsSpent := (roundsSpent.0, roundsSpent.1 + 1);
      case None =>
    }

    method ApplyAnswered(callId: string, approved: bool, who: string)
      modifies this
      ensures Value() == Apply(old(Value()), Answered(callId, approved, who))
    {
      answered := answered + {callId};
      var waiting := pending;
      pending := None;
      unstartedAnswer := if waiting.Some? && waiting.value.callId == callId
        then Some(AnsweredCall(waiting.value, approved)) else None;
      status := Running;
    }

    method ApplyEnding(e: Event)
      requires IsEnding(e)
      modifies this
      ensures Value() == Apply(old(Value()), e)
    {
      match e
      case HasFinished(reason) => status, finishReason := Finished, reason;
      case HasFailed(why) => status, failure := Failed, Some(why);
      case WasStopped(who) => status, stoppedBy, pending := Stopped, Some(who), None;
    }

    method ApplyEvent(e: Event)
      modifies this
      ensures Value() == Apply(old(Value()), e)
    {
      match e
      case Started(c) => started, capture, status := true, c, Running;
      case Emitted(n, payload) => ApplyEmitted(n, payload);
      case ToolStarted(tools) => ApplyToolStarted(tools);
      case Spent(recipes, round) => ApplySpent(recipes, round);
      case Resumed(g, _) => generation := g;
      case Suspended(call) => status, pending := AwaitingApproval, Some(call);
      case Answered(callId, approved, who) => ApplyAnswered(callId, approved, who);
      case _ => ApplyEnding(e);
    }
  }

  /** Rebuild a run from its log. */
  method ReplayLog(log: seq<Event>) returns (run: LiveRun)
    ensures fresh(run) && run.Value() == Replay(log)
  {
    run := new LiveRun();
    for i := 0 to |log|
      invariant fresh(run) && run.Value() == Replay(log[..i])
    {
      assert log[..i + 1][..i] == log[..i];
      run.ApplyEvent(log[i]);
    }
    assert log[..|log|] == log;
  }
}
