/**
 One run across processes: loops that drive it, people who answer and stop it, the MCP door that opens and
 settles its own runs, the recovery sweep that resumes or fails a run, crashes, and lapsed leases.

 The sweep goes by a lease, which may lapse under a loop that is still alive: here it may act at ANY moment, so
 every such lapse is covered. Every write is read, decide, append-at-the-seq-read; a
 loop's writes also carry its generation, and the journal refuses any but the run's own. A write
 may land with its reply lost. Steps name everything that is not determined, so a run of the system is any
 sequence of steps.
 */
module RunLifecycle {
  import opened Common
  import opened Run
  import opened RunLog
  import opened RunJournal
  import opened RunWriters

  /** What a loop is about to write. */
  datatype Plan =
    | PlanTools(tools: seq<StartedTool>)
    | PlanRound(frames: seq<Frame>, spent: RoundSpent)

  /**
   `Acting` is the only phase in which tools run. A loop whose round may have landed unheard, or that gave
   up, is `Closing`: it writes nothing more but an ending.
   */
  datatype Phase =
    | Live
    | Writing(readSeq: nat, plan: Plan)
    | Acting(calls: set<string>)
    | Closing
    | WritingEnd(readSeq: nat, frames: seq<Frame>)
    | Gone

  /** `owed` is the answered call the loop was started to carry out, until a write of its own has done so. */
  datatype Loop = Loop(generation: nat, owed: Option<string>, phase: Phase)

  datatype Author = ByLoop(generation: nat) | ByOutsider

  /** What a person or a door is about to write; `Settling` is the MCP door's finish behind its own answer. */
  datatype Errand = Asking(intent: Intent) | Settling(readSeq: nat)

  /** `audit` is the thread the MCP door keeps its own runs on. */
  datatype System = System(
    audit: string,
    log: seq<Event>,
    authors: seq<Author>,
    loops: seq<Loop>,
    errands: map<nat, Errand>)

  datatype Step =
    | OutsiderReads(writer: nat, asks: seq<Ask>)
    | OutsiderWrites(writer: nat, replyLost: bool)
    | LoopPlans(loop: nat, plan: Plan)
    | LoopWrites(loop: nat, replyLost: bool)
    | ToolsFinish(loop: nat)
    | LoopGivesUp(loop: nat)
    | LoopPlansEnd(loop: nat, frames: seq<Frame>)
    | LoopWritesEnd(loop: nat)
    | LoopDies(loop: nat)

  function Initial(audit: string): System {
    System(audit, [], [], [], map[])
  }

  /** The run is the MCP door's own: its answer starts no loop, and the sweep does not resume it. */
  predicate IsAudit(audit: string, run: RunState) {
    run.capture.threadId == audit
  }

  /** A turn's claim, a person's answer or stop, a card's own frame, the sweep's resume or failure. */
  predicate IsOutsider(command: Command, onAudit: bool) {
    match command
    case Start(_, _, _) => true
    case Answer(_, _, _) => true
    case Stop(_) => true
    case Fail(_) => true
    case Resume(_) => !onAudit
    case Emit(frame) => !frame.ToolResult?
    case _ => false
  }

  /** One such command, in one write with any frames ahead of it. */
  predicate FramesThenOne(asks: seq<Ask>, onAudit: bool)
    decreases |asks|
  {
    if |asks| <= 1 then asks != [] && asks[0].Must? && IsOutsider(asks[0].command, onAudit)
    else asks[0].command.Emit? && !asks[0].command.frame.ToolResult? && FramesThenOne(asks[1..], onAudit)
  }

  /** The MCP door opens a run on its own thread already waiting on its card. */
  predicate OpensAudit(asks: seq<Ask>, audit: string) {
    && |asks| == 2 && asks[0].Must? && asks[1].Must?
    && asks[0].command.Start? && asks[0].command.threadId == audit && asks[1].command.Suspend?
  }

  /** The loop journals its starts only when there are any. */
  predicate Sensible(plan: Plan) {
    plan.PlanTools? ==> plan.tools != []
  }

  /** A write that carries an answer out: its call's start, or the result the answer itself gives. */
  predicate Settles(plan: Plan, call: string) {
    match plan
    case PlanTools(tools) => ListsCall(tools, call)
    case PlanRound(frames, _) => LeadsWith(frames, call)
  }

  predicate LeadsWith(frames: seq<Frame>, call: string) {
    frames != [] && frames[0].ToolResult? && frames[0].callId == call
  }

  /** What a loop may write next: anything, once the answer it was started for is carried out. */
  predicate MayPlan(loop: Loop, plan: Plan) {
    Sensible(plan) && (loop.owed.Some? ==> Settles(plan, loop.owed.value))
  }

  /** The frames an ending alone is written with: no result, and no card. */
  predicate EndingOnly(frames: seq<Frame>) {
    forall i :: 0 <= i < |frames| ==> !frames[i].ToolResult? && !frames[i].Card?
  }

  predicate NoFinish(frames: seq<Frame>) {
    forall i :: 0 <= i < |frames| ==> !frames[i].FinishedFrame?
  }

  /** Nothing the loop writes can end this run: it is terminal, or of another generation. */
  predicate Over(loop: Loop, run: RunState) {
    run.status.Terminal() || loop.generation != run.generation
  }

  /** A loop that gave up fails the run; it shows a stop's finish only on a run that is over for it. */
  predicate MayEnd(loop: Loop, run: RunState, frames: seq<Frame>) {
    EndingOnly(frames) && (NoFinish(frames) || Over(loop, run))
  }

  function CallIds(tools: seq<StartedTool>): set<string> {
    set t | t in tools :: t.callId
  }

  function JournalOf(loop: Loop): Journal {
    Journal(loop.generation, Start("", None, Inference.TurnSource(Inference.Gateway, None)))
  }

  /** What the journal makes of a loop's plan on the run it read. */
  function Planned(loop: Loop, run: RunState, plan: Plan): Result<seq<Event>, AppendError> {
    match plan
    case PlanTools(tools) =>
      if run.generation != loop.generation then Err(Fenced)
      else
        var decided := Decide(run, StartTools(tools));
        if decided.Ok? then Ok(decided.value) else Err(Refused(decided.error))
    case PlanRound(frames, spent) => Batch(JournalOf(loop), run, frames, spent)
  }

  function Repeat(author: Author, n: nat): (authors: seq<Author>)
    ensures |authors| == n && forall i :: 0 <= i < n ==> authors[i] == author
  {
    if n == 0 then [] else [author] + Repeat(author, n - 1)
  }

  function Append(s: System, author: Author, events: seq<Event>): System {
    s.(log := s.log + events, authors := s.authors + Repeat(author, |events|))
  }

  function Become(s: System, l: nat, next: Loop): System
    requires l < |s.loops|
  {
    s.(loops := s.loops[l := next])
  }

  function Enter(s: System, l: nat, phase: Phase): System
    requires l < |s.loops|
  {
    Become(s, l, s.loops[l].(phase := phase))
  }

  /** A loop for the run as it stands, started to carry out the answer no call has started for. */
  function LoopFor(run: RunState): Loop {
    var owed := if run.unstartedAnswer.Some? then Some(run.unstartedAnswer.value.call.callId) else None;
    Loop(run.generation, owed, Live)
  }

  function Spawn(s: System): System {
    s.(loops := s.loops + [LoopFor(Replay(s.log))])
  }

  /** A claim starts the turn's loop, an answer its continuation, a resume the loop of the new generation. */
  predicate Spawns(command: Command) {
    command.Start? || command.Answer? || command.Resume?
  }

  /** What a writer does once its write is on record: the MCP door goes on to finish its answered run. */
  function AfterAsking(written: System, w: nat, command: Command): System {
    if command.Answer? && IsAudit(written.audit, Replay(written.log)) then
      written.(errands := written.errands[w := Settling(|written.log|)])
    else if Spawns(command) then Spawn(written)
    else written
  }

  function OutsiderWrite(s: System, w: nat, replyLost: bool): System {
    if w !in s.errands then s
    else
      var heard := s.(errands := s.errands - {w});
      match s.errands[w]
      case Asking(Intent(readSeq, asks)) =>
        var decided := DecidedAt(s.log, readSeq, asks);
        if decided.Err? || readSeq != |s.log| then heard
        else if OpensAudit(asks, s.audit) then Append(heard, ByOutsider, decided.value)
        else if !FramesThenOne(asks, IsAudit(s.audit, Replay(s.log))) then heard
        else
          var written := Append(heard, ByOutsider, decided.value);
          if replyLost then written else AfterAsking(written, w, asks[|asks| - 1].command)
      case Settling(readSeq) =>
        var decided := DecidedAt(s.log, readSeq, [Must(Finish(None))]);
        if decided.Err? || readSeq != |s.log| then heard else Append(heard, ByOutsider, decided.value)
  }

  /**
   After a write: tools start once their start is on record, and a park ends the loop. Unheard, a start is written
   again, which changes nothing, and a round is not: the loop closes.
   */
  function AfterWrite(plan: Plan, replyLost: bool): Phase {
    match plan
    case PlanTools(tools) => if replyLost then Live else Acting(CallIds(tools))
    case PlanRound(frames, _) => if replyLost then Closing else if Parks(frames) then Gone else Live
  }

  function LoopWrite(s: System, l: nat, replyLost: bool): System
    requires l < |s.loops|
  {
    var loop := s.loops[l];
    if !loop.phase.Writing? || loop.phase.readSeq != |s.log| then
      if loop.phase.Writing? then Enter(s, l, Live) else s
    else
      match Planned(loop, Replay(s.log), loop.phase.plan)
      case Err(_) => Enter(s, l, Live)
      case Ok(events) =>
        var next := Loop(loop.generation, None, AfterWrite(loop.phase.plan, replyLost));
        Become(Append(s, ByLoop(loop.generation), events), l, next)
  }

  function EndWrite(s: System, l: nat): System
    requires l < |s.loops|
  {
    var loop := s.loops[l];
    if !loop.phase.WritingEnd? then s
    else if loop.phase.readSeq != |s.log| then Enter(s, l, Closing)
    else
      match Planned(loop, Replay(s.log), PlanRound(loop.phase.frames, RoundSpent([], None)))
      case Err(_) => Enter(s, l, Gone)
      case Ok(events) => Enter(Append(s, ByLoop(loop.generation), events), l, Gone)
  }

  function LoopStep(s: System, l: nat, step: Step): System
    requires l < |s.loops|
  {
    var loop := s.loops[l];
    match step
    case LoopPlans(_, plan) =>
      if loop.phase.Live? && MayPlan(loop, plan) then Enter(s, l, Writing(|s.log|, plan)) else s
    case LoopWrites(_, replyLost) => LoopWrite(s, l, replyLost)
    case ToolsFinish(_) => if loop.phase.Acting? then Enter(s, l, Live) else s
    case LoopGivesUp(_) => if loop.phase.Live? then Enter(s, l, Closing) else s
    case LoopPlansEnd(_, frames) =>
      if loop.phase.Closing? && MayEnd(loop, Replay(s.log), frames) then Enter(s, l, WritingEnd(|s.log|, frames)) else s
    case LoopWritesEnd(_) => EndWrite(s, l)
    case LoopDies(_) => Enter(s, l, Gone)
    case _ => s
  }

  function Exec(s: System, step: Step): System {
    match step
    case OutsiderReads(w, asks) => s.(errands := s.errands[w := Asking(Intent(|s.log|, asks))])
    case OutsiderWrites(w, replyLost) => OutsiderWrite(s, w, replyLost)
    case _ => if step.loop < |s.loops| then LoopStep(s, step.loop, step) else s
  }

  function ExecAll(s: System, steps: seq<Step>): System
    decreases |steps|
  {
    if steps == [] then s else ExecAll(Exec(s, steps[0]), steps[1..])
  }

  // ----- what one loop's events do to the run ---------------------------------------------------------

  /** A card is pending only while the run waits or after it ended; nothing precedes the start. */
  predicate Shape(run: RunState) {
    && (run.pending.Some? ==> run.status.AwaitingApproval? || run.status.Terminal())
    && (!run.started ==> run.pending.None? && run.generation == 0 && run.unstartedAnswer.None?)
  }

  /** The run can still end, and an answer given to it has not been carried out. */
  predicate Owes(run: RunState) {
    run.unstartedAnswer.Some? && !run.status.Terminal()
  }

  predicate RoundEvent(e: Event, cards: bool, results: bool) {
    match e
    case Emitted(_, payload) => results || !payload.ToolResult?
    case Suspended(_) => cards
    case HasFinished(_) => true
    case HasFailed(_) => true
    case Spent(_, _) => true
    case _ => false
  }

  predicate RoundEvents(events: seq<Event>, cards: bool, results: bool) {
    forall i :: 0 <= i < |events| ==> RoundEvent(events[i], cards, results)
  }

  /** The run ends for good, and an answer is only ever settled. */
  predicate Calmer(run: RunState, after: RunState) {
    && (run.status.Terminal() ==> after.status.Terminal())
    && (after.unstartedAnswer == run.unstartedAnswer || after.unstartedAnswer.None?)
  }

  /** What any round may change of a started run. */
  predicate RoundMoves(run: RunState, after: RunState, cards: bool, results: bool) {
    && after.started && Shape(after) && after.generation == run.generation && Calmer(run, after)
    && (!cards && after.status.AwaitingApproval? ==> run.status.AwaitingApproval?)
    && (!results ==> after.openTools == run.openTools)
  }

  lemma RoundEventMoves(run: RunState, e: Event, cards: bool, results: bool)
    requires run.started && Shape(run) && Allowed(run, e) && RoundEvent(e, cards, results)
    ensures RoundMoves(run, Apply(run, e), cards, results)
  {
  }

  lemma {:induction false} RoundEventsMove(run: RunState, events: seq<Event>, cards: bool, results: bool)
    requires run.started && Shape(run) && AllowedAll(run, events) && RoundEvents(events, cards, results)
    ensures RoundMoves(run, ApplyAll(run, events), cards, results)
    decreases |events|
  {
    if events != [] {
      hide Apply, Allowed;
      RoundEventMoves(run, events[0], cards, results);
      RoundEventsMove(Apply(run, events[0]), events[1..], cards, results);
    }
  }

  predicate FramesHave(frames: seq<Frame>, cards: bool, results: bool) {
    forall i :: 0 <= i < |frames| ==> (frames[i].Card? ==> cards) && (frames[i].ToolResult? ==> results)
  }

  lemma {:induction false} WalkIsRound(run: RunState, frames: seq<Frame>, parks: bool, cards: bool, results: bool)
    requires FramesHave(frames, cards, results) && Walk(run, frames, parks).Ok?
    ensures RoundEvents(Walk(run, frames, parks).value, cards, results)
    decreases |frames|
  {
    if frames != [] && TakesFrames(run) {
      var events := FrameEvents(run, frames[0]);
      assert RoundEvents(events, cards, results);
      WalkIsRound(ApplyAll(run, events), frames[1..], parks, cards, results);
    }
  }

  lemma PlannedRound(loop: Loop, run: RunState, frames: seq<Frame>, spent: RoundSpent, cards: bool, results: bool)
    requires run.started && FramesHave(frames, cards, results)
    ensures var planned := Planned(loop, run, PlanRound(frames, spent));
            planned.Ok? ==> RoundEvents(planned.value, cards, results) && AllowedAll(run, planned.value) &&
                            (planned.value != [] ==> run.generation == loop.generation)
  {
    var planned := Planned(loop, run, PlanRound(frames, spent));
    if planned.Ok? && frames != [] {
      BatchAllowed(JournalOf(loop), run, frames, spent);
      var recorded := SpentEvents(run, spent);
      WalkIsRound(ApplyAll(run, recorded), frames, Parks(frames), cards, results);
    }
  }

  // ----- who may write what ---------------------------------------------------------------------------------

  /**
   What makes an event its author's to write: a loop writes in its own generation, and finishes a run only
   when no answer is left to carry out; anyone else finishes only an audit run, behind its answer.
   */
  predicate Rightly(audit: string, run: RunState, author: Author, e: Event) {
    && (author.ByLoop? ==> author.generation == run.generation)
    && (e.HasFinished? ==> (author.ByOutsider? <==> run.unstartedAnswer.Some?))
    && (e.HasFinished? && author.ByOutsider? ==> IsAudit(audit, run))
  }

  predicate RightlyAll(audit: string, run: RunState, author: Author, events: seq<Event>)
    decreases |events|
  {
    events == [] || (Rightly(audit, run, author, events[0]) &&
      RightlyAll(audit, Apply(run, events[0]), author, events[1..]))
  }

  lemma {:induction false} RightlyAllConcat(audit: string, run: RunState, author: Author, a: seq<Event>, b: seq<Event>)
    requires RightlyAll(audit, run, author, a) && RightlyAll(audit, ApplyAll(run, a), author, b)
    ensures RightlyAll(audit, run, author, a + b)
    decreases |a|
  {
    hide Rightly, Apply;
    if a == [] {
      assert a + b == b;
    } else {
      assert (a + b)[0] == a[0] && (a + b)[1..] == a[1..] + b;
      RightlyAllConcat(audit, Apply(run, a[0]), author, a[1..], b);
    }
  }

  lemma RightlyOne(audit: string, run: RunState, author: Author, e: Event)
    requires Rightly(audit, run, author, e)
    ensures RightlyAll(audit, run, author, [e])
  {
    hide Rightly, Apply;
    assert [e][1..] == [];
    assert RightlyAll(audit, Apply(run, e), author, []);
  }

  /** The first frame is the result the run's answer is owed. */
  predicate SettlesFirst(run: RunState, frames: seq<Frame>) {
    run.unstartedAnswer.Some? && LeadsWith(frames, run.unstartedAnswer.value.call.callId)
  }

  /** The frames hold no finish ahead of the result the run is owed. */
  predicate FinishReady(run: RunState, frames: seq<Frame>) {
    !Owes(run) || NoFinish(frames) || SettlesFirst(run, frames)
  }

  lemma FrameSettles(run: RunState, frame: Frame)
    requires TakesFrames(run) && (CardEvents(frame) != [] ==> !run.status.Terminal())
    ensures var after := ApplyAll(run, FrameEvents(run, frame));
            && after.started && after.generation == run.generation && Calmer(run, after)
            && (SettlesFirst(run, [frame]) ==> !Owes(after))
  {
    var emitted, cards := Emitted(|run.emitted|, frame), CardEvents(frame);
    var carded := [emitted] + cards;
    var closing := ClosingEvents(ApplyAll(run, carded), frame);
    assert run.started && |cards| <= 1 && forall i :: 0 <= i < |cards| ==> cards[i].Suspended?;
    assert |closing| <= 1 && forall i :: 0 <= i < |closing| ==> closing[i].HasFinished? || closing[i].HasFailed?;
    FrameEventCalms(run, emitted);
    ApplyAllOne(run, emitted);
    ApplyAllConcat(run, [emitted], cards);
    ApplyAllConcat(run, carded, closing);
    hide Apply, Decide, CardEvents, ClosingEvents;
    OneCalms(Apply(run, emitted), cards);
    OneCalms(ApplyAll(run, carded), closing);
  }

  lemma FrameEventCalms(run: RunState, e: Event)
    requires run.started && (e.Emitted? || e.HasFinished? || e.HasFailed? || (e.Suspended? && !run.status.Terminal()))
    ensures var after := Apply(run, e);
            && after.started && after.generation == run.generation && Calmer(run, after)
            && (e.Emitted? ==> after.status == run.status)
            && (e.Emitted? && SettlesFirst(run, [e.payload]) ==> after.unstartedAnswer.None?)
  {
  }

  lemma OneCalms(run: RunState, events: seq<Event>)
    requires run.started && |events| <= 1
    requires forall i :: 0 <= i < |events| ==>
               events[i].HasFinished? || events[i].HasFailed? || (events[i].Suspended? && !run.status.Terminal())
    ensures var after := ApplyAll(run, events);
            after.started && after.generation == run.generation && Calmer(run, after)
  {
    hide Apply;
    if events != [] {
      ApplyAllOne(run, events[0]);
      FrameEventCalms(run, events[0]);
      assert events == [events[0]];
    }
  }

  lemma FrameRightly(audit: string, run: RunState, author: Author, frame: Frame)
    requires TakesFrames(run) && author.ByLoop? && author.generation == run.generation
    requires frame.FinishedFrame? ==> !Owes(run)
    ensures RightlyAll(audit, run, author, FrameEvents(run, frame))
  {
    var emitted := Emitted(|run.emitted|, frame);
    RightlyOne(audit, run, author, emitted);
    ApplyAllOne(run, emitted);
    if CardEvents(frame) != [] {
      RightlyOne(audit, Apply(run, emitted), author, CardEvents(frame)[0]);
      ApplyAllOne(Apply(run, emitted), CardEvents(frame)[0]);
      assert CardEvents(frame) == [CardEvents(frame)[0]];
    }
    RightlyAllConcat(audit, run, author, [emitted], CardEvents(frame));
    ApplyAllConcat(run, [emitted], CardEvents(frame));
    var carded := [emitted] + CardEvents(frame);
    var closing := ClosingEvents(ApplyAll(run, carded), frame);
    if closing != [] {
      RightlyOne(audit, ApplyAll(run, carded), author, closing[0]);
      assert closing == [closing[0]];
    }
    RightlyAllConcat(audit, run, author, carded, closing);
  }

  lemma {:induction false} WalkRightly(audit: string, run: RunState, author: Author, frames: seq<Frame>, parks: bool)
    requires run.started && author.ByLoop? && author.generation == run.generation
    requires FinishReady(run, frames) && Walk(run, frames, parks).Ok?
    ensures RightlyAll(audit, run, author, Walk(run, frames, parks).value)
    ensures !Owes(run) || SettlesFirst(run, frames) ==> !Owes(ApplyAll(run, Walk(run, frames, parks).value))
    decreases |frames|
  {
    if frames != [] && TakesFrames(run) {
      hide FrameEvents, RightlyAll, CardEvents, ApplyAll;
      var events, rest := FrameEvents(run, frames[0]), frames[1..];
      FrameRightly(audit, run, author, frames[0]);
      FrameSettles(run, frames[0]);
      var after := ApplyAll(run, events);
      WalkRightly(audit, after, author, rest, parks);
      RightlyAllConcat(audit, run, author, events, Walk(after, rest, parks).value);
      ApplyAllConcat(run, events, Walk(after, rest, parks).value);
    }
  }

  lemma PlannedRightly(audit: string, loop: Loop, run: RunState, frames: seq<Frame>, spent: RoundSpent)
    requires run.started && (loop.generation == run.generation ==> FinishReady(run, frames))
    ensures var planned := Planned(loop, run, PlanRound(frames, spent));
            planned.Ok? ==> && RightlyAll(audit, run, ByLoop(loop.generation), planned.value)
                            && (!Owes(run) || SettlesFirst(run, frames) ==> !Owes(ApplyAll(run, planned.value)))
  {
    hide Walk, Parks;
    var planned, author := Planned(loop, run, PlanRound(frames, spent)), ByLoop(loop.generation);
    if planned.Ok? && frames != [] {
      var recorded := SpentEvents(run, spent);
      if recorded != [] {
        assert recorded == [recorded[0]];
        RightlyOne(audit, run, author, recorded[0]);
        ApplyAllOne(run, recorded[0]);
      }
      var begun := ApplyAll(run, recorded);
      WalkRightly(audit, begun, author, frames, Parks(frames));
      var walked := Walk(begun, frames, Parks(frames)).value;
      RightlyAllConcat(audit, run, author, recorded, walked);
      ApplyAllConcat(run, recorded, walked);
      assert [] + recorded + walked == recorded + walked;
    }
  }

  // ----- the invariant -----------------------------------------------------------------------------------

  /** A loop of the run's own generation that may still write a round or run a tool. */
  predicate Drives(loop: Loop, generation: nat) {
    loop.generation == generation && (loop.phase.Live? || loop.phase.Writing? || loop.phase.Acting?)
  }

  ghost predicate OneDriver(loops: seq<Loop>, generation: nat) {
    forall l, m :: 0 <= l < |loops| && 0 <= m < |loops| && Drives(loops[l], generation) && Drives(loops[m], generation)
                   ==> l == m
  }

  predicate NoDriver(loops: seq<Loop>, generation: nat) {
    forall l :: 0 <= l < |loops| ==> !Drives(loops[l], generation)
  }

  /** Whoever drives a run that owes an answer was started to carry it out, and has not acted yet. */
  predicate KnowsWhatIsOwed(loop: Loop, run: RunState) {
    Drives(loop, run.generation) && Owes(run) ==>
      loop.owed == Some(run.unstartedAnswer.value.call.callId) && !loop.phase.Acting?
  }

  /** What is true of one loop beside the run. */
  predicate LoopFits(loop: Loop, run: RunState, logLength: nat) {
    && loop.generation <= run.generation
    && (loop.phase.Acting? ==>
          loop.generation == run.generation && loop.phase.calls != {} && loop.phase.calls <= run.openTools.Keys)
    && (loop.phase.Writing? ==> loop.phase.readSeq <= logLength && MayPlan(loop, loop.phase.plan))
    && (loop.phase.WritingEnd? ==> loop.phase.readSeq <= logLength && MayEnd(loop, run, loop.phase.frames))
    && KnowsWhatIsOwed(loop, run)
  }

  ghost predicate LoopsFit(loops: seq<Loop>, run: RunState, logLength: nat) {
    && (loops != [] ==> run.started)
    && (forall l :: 0 <= l < |loops| ==> LoopFits(loops[l], run, logLength))
    && OneDriver(loops, run.generation)
    && (run.status.AwaitingApproval? ==> NoDriver(loops, run.generation))
  }

  /** Every event was its author's to write. */
  ghost predicate RightlyWritten(audit: string, log: seq<Event>, authors: seq<Author>) {
    && |authors| == |log|
    && forall i :: 0 <= i < |log| ==> Rightly(audit, Replay(log[..i]), authors[i], log[i])
  }

  /** The MCP door's finish stands behind an answer of an audit run, at the seq its answer left. */
  ghost predicate ErrandFits(audit: string, log: seq<Event>, errand: Errand) {
    errand.Settling? ==>
      && errand.readSeq <= |log|
      && Replay(log[..errand.readSeq]).unstartedAnswer.Some? && IsAudit(audit, Replay(log[..errand.readSeq]))
  }

  ghost predicate ErrandsFit(audit: string, log: seq<Event>, errands: map<nat, Errand>) {
    forall w :: w in errands ==> ErrandFits(audit, log, errands[w])
  }

  ghost predicate Inv(s: System) {
    && Accepted(s.log) && Shape(Replay(s.log))
    && RightlyWritten(s.audit, s.log, s.authors)
    && LoopsFit(s.loops, Replay(s.log), |s.log|)
    && ErrandsFit(s.audit, s.log, s.errands)
  }

  // ----- each step keeps it --------------------------------------------------------------------------------

  lemma BecomeKeepsFit(loops: seq<Loop>, l: nat, next: Loop, run: RunState, n: nat)
    requires l < |loops| && LoopsFit(loops, run, n) && LoopFits(next, run, n)
    requires Drives(next, run.generation) ==> Drives(loops[l], run.generation)
    ensures LoopsFit(loops[l := next], run, n)
  {
    hide LoopFits;
    var changed := loops[l := next];
    forall k | 0 <= k < |changed| && Drives(changed[k], run.generation) ensures Drives(loops[k], run.generation) {
    }
  }

  lemma {:induction false} AppendRightly(audit: string, log: seq<Event>, authors: seq<Author>, author: Author,
      events: seq<Event>)
    requires RightlyWritten(audit, log, authors) && RightlyAll(audit, Replay(log), author, events)
    ensures RightlyWritten(audit, log + events, authors + Repeat(author, |events|))
    decreases |events|
  {
    hide Rightly, RightlyWritten, Replay, Apply;
    if events == [] {
      assert log + events == log && authors + Repeat(author, 0) == authors;
    } else {
      var longer, tags := log + [events[0]], authors + [author];
      RightlySnoc(audit, log, authors, author, events[0]);
      ReplayOne(log, events[0]);
      AppendRightly(audit, longer, tags, author, events[1..]);
      assert longer + events[1..] == log + events;
      assert tags + Repeat(author, |events| - 1) == authors + Repeat(author, |events|);
    }
  }

  lemma ReplayOne(log: seq<Event>, e: Event)
    ensures Replay(log + [e]) == Apply(Replay(log), e)
  {
    assert (log + [e])[..|log|] == log;
  }

  lemma RightlySnoc(audit: string, log: seq<Event>, authors: seq<Author>, author: Author, e: Event)
    requires RightlyWritten(audit, log, authors) && Rightly(audit, Replay(log), author, e)
    ensures RightlyWritten(audit, log + [e], authors + [author])
  {
    hide Rightly, Replay;
    var longer, tags := log + [e], authors + [author];
    forall i | 0 <= i < |longer| ensures Rightly(audit, Replay(longer[..i]), tags[i], longer[i]) {
      assert longer[..i] == log[..i];
      assert i == |log| ==> log[..i] == log;
    }
  }

  lemma ErrandsFitLater(audit: string, log: seq<Event>, events: seq<Event>, errands: map<nat, Errand>)
    requires ErrandsFit(audit, log, errands)
    ensures ErrandsFit(audit, log + events, errands)
  {
    hide Replay;
    forall w | w in errands ensures ErrandFits(audit, log + events, errands[w]) {
      assert ErrandFits(audit, log, errands[w]);
      assert errands[w].Settling? ==> (log + events)[..errands[w].readSeq] == log[..errands[w].readSeq];
    }
  }

  lemma AppendKeepsLog(s: System, author: Author, events: seq<Event>)
    requires Inv(s) && AllowedAll(Replay(s.log), events) && RightlyAll(s.audit, Replay(s.log), author, events)
    ensures var t := Append(s, author, events);
            && Accepted(t.log) && RightlyWritten(s.audit, t.log, t.authors)
            && ErrandsFit(s.audit, t.log, s.errands)
            && Replay(t.log) == ApplyAll(Replay(s.log), events)
            && |t.log| == |s.log| + |events|
  {
    hide Accepted, RightlyWritten, ErrandsFit, LoopsFit, AllowedAll, RightlyAll, Shape, Replay;
    AcceptedAppend(s.log, events);
    AppendRightly(s.audit, s.log, s.authors, author, events);
    ErrandsFitLater(s.audit, s.log, events, s.errands);
    ReplayAppend(s.log, events);
  }

  /** A round written by loop `l`, which then enters a phase in which it runs no tool. */
  lemma RoundKeepsFit(loops: seq<Loop>, l: nat, next: Loop, run: RunState, after: RunState, n: nat, longer: nat,
                      cards: bool, results: bool)
    requires l < |loops| && LoopsFit(loops, run, n) && n <= longer
    requires RoundMoves(run, after, cards, results)
    requires loops[l].generation == run.generation == next.generation
    requires next.phase.Live? || next.phase.Closing? || next.phase.Gone?
    requires results || cards ==> Drives(loops[l], run.generation) && !loops[l].phase.Acting?
    requires next.phase.Live? ==> !cards && Drives(loops[l], run.generation) && !Owes(after)
    ensures LoopsFit(loops[l := next], after, longer)
  {
    hide Shape, MayPlan, EndingOnly, NoFinish;
    var changed := loops[l := next];
    forall k | 0 <= k < |changed| && Drives(changed[k], run.generation) ensures Drives(loops[k], run.generation) {
    }
    if results {
      forall k | 0 <= k < |loops| && loops[k].phase.Acting? ensures k == l {
        assert Drives(loops[k], run.generation);
      }
    }
    forall k | 0 <= k < |changed| ensures LoopFits(changed[k], after, longer) {
      assert LoopFits(loops[k], run, n);
    }
    if after.status.AwaitingApproval? {
      forall k | 0 <= k < |changed| ensures !Drives(changed[k], after.generation) {
      }
    }
  }

  lemma RestingFits(loop: Loop, run: RunState, n: nat)
    requires loop.generation <= run.generation && (loop.phase.Live? || loop.phase.Closing? || loop.phase.Gone?)
    requires loop.phase.Live? && loop.generation == run.generation ==> !Owes(run)
    ensures LoopFits(loop, run, n)
  {
  }

  lemma GenerationBehind(loop: Loop, run: RunState, n: nat)
    requires LoopFits(loop, run, n)
    ensures loop.generation <= run.generation
  {
  }

  lemma RoundWriteKeepsInv(s: System, l: nat, frames: seq<Frame>, spent: RoundSpent, next: Loop)
    requires Inv(s) && l < |s.loops| && next.generation == s.loops[l].generation
    requires next.phase.Live? || next.phase.Closing? || next.phase.Gone?
    requires EndingOnly(frames) || s.loops[l].phase.Live? || s.loops[l].phase.Writing?
    requires next.phase.Live? ==> !Parks(frames) && (s.loops[l].phase.Live? || s.loops[l].phase.Writing?)
    requires var run := Replay(s.log);
             s.loops[l].generation == run.generation ==>
               && FinishReady(run, frames)
               && (next.phase.Live? ==> !Owes(run) || SettlesFirst(run, frames))
    requires Planned(s.loops[l], Replay(s.log), PlanRound(frames, spent)).Ok?
    ensures var events := Planned(s.loops[l], Replay(s.log), PlanRound(frames, spent)).value;
            Inv(Become(Append(s, ByLoop(s.loops[l].generation), events), l, next))
  {
    hide Accepted, RightlyWritten, ErrandsFit, Replay, Batch, AllowedAll, RightlyAll, Shape, LoopFits, Owes;
    var loop, run := s.loops[l], Replay(s.log);
    var cards, results := Parks(frames), !EndingOnly(frames);
    PlannedRound(loop, run, frames, spent, cards, results);
    PlannedRightly(s.audit, loop, run, frames, spent);
    var events := Planned(loop, run, PlanRound(frames, spent)).value;
    AppendKeepsLog(s, ByLoop(loop.generation), events);
    RoundEventsMove(run, events, cards, results);
    var after := ApplyAll(run, events);
    GenerationBehind(loop, run, |s.log|);
    if events == [] {
      RestingFits(next, run, |s.log|);
      BecomeKeepsFit(s.loops, l, next, run, |s.log|);
    } else {
      RoundKeepsFit(s.loops, l, next, run, after, |s.log|, |s.log| + |events|, cards, results);
    }
  }

  lemma ToolsWriteKeepsInv(s: System, l: nat, replyLost: bool)
    requires Inv(s) && l < |s.loops| && s.loops[l].phase.Writing? && s.loops[l].phase.plan.PlanTools?
    requires s.loops[l].phase.readSeq == |s.log| && Planned(s.loops[l], Replay(s.log), s.loops[l].phase.plan).Ok?
    ensures Inv(LoopWrite(s, l, replyLost))
  {
    hide Accepted, RightlyWritten, ErrandsFit, Replay, ToolNames;
    var loop, run := s.loops[l], Replay(s.log);
    var tools := loop.phase.plan.tools;
    var events := [ToolStarted(tools)];
    assert LoopFits(loop, run, |s.log|);
    DecidedIsAllowed(run, StartTools(tools));
    RightlyOne(s.audit, run, ByLoop(loop.generation), events[0]);
    AppendKeepsLog(s, ByLoop(loop.generation), events);
    ApplyAllOne(run, events[0]);
    var after := Apply(run, events[0]);
    var next := Loop(loop.generation, None, AfterWrite(loop.phase.plan, replyLost));
    assert tools[0].callId in CallIds(tools);
    forall c | c in CallIds(tools) ensures c in after.openTools {
      assert ListsCall(tools, c);
    }
    LoopsFitLater(s.loops, run, after, |s.log|, |s.log| + 1);
    BecomeKeepsFit(s.loops, l, next, after, |s.log| + 1);
  }

  lemma LoopWriteKeepsInv(s: System, l: nat, replyLost: bool)
    requires Inv(s) && l < |s.loops|
    ensures Inv(LoopWrite(s, l, replyLost))
  {
    hide Accepted, RightlyWritten, ErrandsFit, Replay, Shape, Planned;
    var loop, run := s.loops[l], Replay(s.log);
    assert LoopFits(loop, run, |s.log|);
    if loop.phase.Writing? {
      var plan := loop.phase.plan;
      if loop.phase.readSeq == |s.log| && Planned(loop, run, plan).Ok? {
        if plan.PlanTools? {
          ToolsWriteKeepsInv(s, l, replyLost);
        } else {
          var next := Loop(loop.generation, None, AfterWrite(plan, replyLost));
          RoundWriteKeepsInv(s, l, plan.frames, plan.spent, next);
        }
      } else {
        BecomeKeepsFit(s.loops, l, loop.(phase := Live), run, |s.log|);
      }
    }
  }

  /** Loops still fit when the run only opens more calls, settles its answer, or ends. */
  lemma LoopsFitLater(loops: seq<Loop>, run: RunState, after: RunState, n: nat, longer: nat)
    requires LoopsFit(loops, run, n) && n <= longer
    requires (run.started ==> after.started) && after.generation == run.generation
    requires run.openTools.Keys <= after.openTools.Keys
    requires (run.status.Terminal() ==> after.status.Terminal())
    requires Calmer(run, after) || NoDriver(loops, run.generation)
    requires after.status.AwaitingApproval? ==> run.status.AwaitingApproval?
    ensures LoopsFit(loops, after, longer)
  {
    hide MayPlan, EndingOnly, NoFinish;
    forall l | 0 <= l < |loops| ensures LoopFits(loops[l], after, longer) {
      assert LoopFits(loops[l], run, n);
    }
  }

  lemma EndWriteKeepsInv(s: System, l: nat)
    requires Inv(s) && l < |s.loops|
    ensures Inv(EndWrite(s, l))
  {
    hide Accepted, RightlyWritten, ErrandsFit, Replay, Shape, Planned;
    var loop, run := s.loops[l], Replay(s.log);
    assert LoopFits(loop, run, |s.log|);
    if loop.phase.WritingEnd? {
      var planned := Planned(loop, run, PlanRound(loop.phase.frames, RoundSpent([], None)));
      if loop.phase.readSeq == |s.log| && planned.Ok? {
        RoundWriteKeepsInv(s, l, loop.phase.frames, RoundSpent([], None), loop.(phase := Gone));
      } else {
        BecomeKeepsFit(s.loops, l, loop.(phase := Gone), run, |s.log|);
        BecomeKeepsFit(s.loops, l, loop.(phase := Closing), run, |s.log|);
      }
    }
  }

  lemma LoopStepKeepsInv(s: System, l: nat, step: Step)
    requires Inv(s) && l < |s.loops|
    ensures Inv(LoopStep(s, l, step))
  {
    hide Accepted, RightlyWritten, ErrandsFit, Replay, Shape, LoopWrite, EndWrite;
    var loop, run := s.loops[l], Replay(s.log);
    assert LoopFits(loop, run, |s.log|);
    match step
    case LoopPlans(_, plan) =>
      if loop.phase.Live? && MayPlan(loop, plan) {
        BecomeKeepsFit(s.loops, l, loop.(phase := Writing(|s.log|, plan)), run, |s.log|);
      }
    case LoopWrites(_, replyLost) => LoopWriteKeepsInv(s, l, replyLost);
    case ToolsFinish(_) =>
      if loop.phase.Acting? {
        BecomeKeepsFit(s.loops, l, loop.(phase := Live), run, |s.log|);
      }
    case LoopGivesUp(_) => BecomeKeepsFit(s.loops, l, loop.(phase := Closing), run, |s.log|);
    case LoopPlansEnd(_, frames) =>
      if loop.phase.Closing? && MayEnd(loop, run, frames) {
        BecomeKeepsFit(s.loops, l, loop.(phase := WritingEnd(|s.log|, frames)), run, |s.log|);
      }
    case LoopWritesEnd(_) => EndWriteKeepsInv(s, l);
    case LoopDies(_) => BecomeKeepsFit(s.loops, l, loop.(phase := Gone), run, |s.log|);
    case _ =>
  }

  // ----- people, doors and the sweep ---------------------------------------------------------------------------

  /** What a write of an outsider leaves: loops that fit, and room for the loop it starts. */
  ghost predicate OutsiderLeft(loops: seq<Loop>, run: RunState, after: RunState, command: Command, longer: nat) {
    && Shape(after) && LoopsFit(loops, after, longer)
    && (run.started ==> after.started && after.capture == run.capture)
    && (Spawns(command) ==> after.started && !after.status.AwaitingApproval? && NoDriver(loops, after.generation))
    && (command.Answer? ==> after.unstartedAnswer.Some? && run.started)
  }

  /** One command: a resume finds nothing open, and leaves every loop behind. */
  lemma OutsiderMoves(loops: seq<Loop>, run: RunState, command: Command, onAudit: bool, n: nat)
    requires IsOutsider(command, onAudit) && Decide(run, command).Ok? && Shape(run) && LoopsFit(loops, run, n)
    ensures OutsiderLeft(loops, run, Apply(run, Decide(run, command).value[0]), command, n + 1)
  {
    var e := Decide(run, command).value[0];
    var after := Apply(run, e);
    if command.Resume? {
      forall l | 0 <= l < |loops| ensures LoopFits(loops[l], after, n + 1) && !Drives(loops[l], after.generation) {
        assert LoopFits(loops[l], run, n);
      }
    } else {
      if command.Start? {
        assert loops == [];
      }
      LoopsFitLater(loops, run, after, n, n + 1);
    }
  }

  /** No command of theirs finishes a run, and a frame leaves the rest of the run as it is. */
  lemma OutsidersNeverFinish(run: RunState, command: Command, onAudit: bool)
    requires IsOutsider(command, onAudit) && Decide(run, command).Ok?
    ensures !Decide(run, command).value[0].HasFinished?
    ensures var after := Apply(run, Decide(run, command).value[0]);
            command.Emit? ==> run.started && after.started && after.capture == run.capture
  {
  }

  lemma DecideAllUnfolds(run: RunState, ask: Ask, rest: seq<Ask>)
    ensures var decided := Decide(run, ask.command);
            DecideAll(run, [ask] + rest) ==
            if decided.Ok? then Prefixed(decided.value, DecideAll(ApplyAll(run, decided.value), rest))
            else if ask.Must? then Err(decided.error)
            else DecideAll(run, rest)
    ensures DecideAll(run, []) == Ok([])
  {
    hide Decide, ApplyAll;
    assert ([ask] + rest)[1..] == rest;
  }

  /** A write is frames, if any, and then one command, each decided on the run the ones before it left. */
  lemma {:induction false} OutsiderAllMove(loops: seq<Loop>, run: RunState, asks: seq<Ask>, audit: string,
      onAudit: bool, n: nat)
    requires FramesThenOne(asks, onAudit) && DecideAll(run, asks).Ok? && Shape(run) && LoopsFit(loops, run, n)
    ensures var events := DecideAll(run, asks).value;
            && OutsiderLeft(loops, run, ApplyAll(run, events), asks[|asks| - 1].command, n + |events|)
            && RightlyAll(audit, run, ByOutsider, events)
    decreases |asks|
  {
    hide LoopsFit, Shape, Spawns, Decide, Apply, DecideAll, RightlyAll, IsOutsider, OutsiderLeft;
    var ask, others := asks[0], asks[1..];
    var decided := Decide(run, ask.command);
    assert asks == [ask] + others;
    DecideAllUnfolds(run, ask, others);
    FirstIsOutsider(asks, onAudit);
    if decided.Ok? {
      DecidedIsAllowed(run, ask.command);
      var e := decided.value[0];
      assert decided.value == [e];
      ApplyAllOne(run, e);
      OutsiderMoves(loops, run, ask.command, onAudit, n);
      OutsidersNeverFinish(run, ask.command, onAudit);
      RightlyOne(audit, run, ByOutsider, e);
      if others != [] {
        var after := Apply(run, e);
        var rest := DecideAll(after, others).value;
        LeftFits(loops, run, after, ask.command, n + 1);
        OutsiderAllMove(loops, after, others, audit, onAudit, n + 1);
        ApplyAllConcat(run, [e], rest);
        RightlyAllConcat(audit, run, ByOutsider, [e], rest);
        LeftFrom(loops, run, after, ApplyAll(after, rest), asks[|asks| - 1].command, n + 1 + |rest|);
      } else {
        DecideAllUnfolds(Apply(run, e), ask, []);
        assert [e] + [] == [e];
      }
    } else {
      OutsiderAllMove(loops, run, others, audit, onAudit, n);
    }
  }

  lemma FirstIsOutsider(asks: seq<Ask>, onAudit: bool)
    requires FramesThenOne(asks, onAudit)
    ensures asks != [] && IsOutsider(asks[0].command, onAudit)
    ensures |asks| > 1 ==> asks[0].command.Emit?
  {
  }

  lemma LeftFits(loops: seq<Loop>, run: RunState, after: RunState, command: Command, n: nat)
    requires OutsiderLeft(loops, run, after, command, n)
    ensures Shape(after) && LoopsFit(loops, after, n)
  {
  }

  lemma LeftFrom(loops: seq<Loop>, run: RunState, next: RunState, after: RunState, command: Command, n: nat)
    requires run.started && next.started && next.capture == run.capture && OutsiderLeft(loops, next, after, command, n)
    ensures OutsiderLeft(loops, run, after, command, n)
  {
  }

  /** The MCP door opens a run that waits at once: it meets no loop and starts none. */
  lemma AuditOpens(loops: seq<Loop>, run: RunState, asks: seq<Ask>, audit: string, n: nat)
    requires OpensAudit(asks, audit) && DecideAll(run, asks).Ok? && Shape(run) && LoopsFit(loops, run, n)
    ensures var events := DecideAll(run, asks).value;
            && Shape(ApplyAll(run, events)) && LoopsFit(loops, ApplyAll(run, events), n + |events|)
            && RightlyAll(audit, run, ByOutsider, events)
  {
    hide LoopsFit;
    var begin, wait := asks[0], asks[1];
    assert asks == [begin] + [wait] && [wait] == [wait] + [];
    DecideAllUnfolds(run, begin, [wait]);
    var e := Decide(run, begin.command).value[0];
    ApplyAllOne(run, e);
    DecideAllUnfolds(Apply(run, e), wait, []);
    var f := Decide(Apply(run, e), wait.command).value[0];
    ApplyAllOne(Apply(run, e), f);
    ApplyAllConcat(run, [e], [f]);
    assert DecideAll(run, asks).value == [e] + [f];
    RightlyOne(audit, run, ByOutsider, e);
    RightlyOne(audit, Apply(run, e), ByOutsider, f);
    RightlyAllConcat(audit, run, ByOutsider, [e], [f]);
    UnstartedHasNoLoops(loops, run, ApplyAll(run, [e] + [f]), n, n + 2);
  }

  lemma UnstartedHasNoLoops(loops: seq<Loop>, run: RunState, after: RunState, n: nat, longer: nat)
    requires LoopsFit(loops, run, n) && !run.started
    ensures loops == [] && LoopsFit(loops, after, longer)
  {
  }

  lemma SpawnKeepsFit(loops: seq<Loop>, run: RunState, n: nat)
    requires LoopsFit(loops, run, n) && run.started && !run.status.AwaitingApproval? && NoDriver(loops, run.generation)
    ensures LoopsFit(loops + [LoopFor(run)], run, n)
  {
    var more := loops + [LoopFor(run)];
    forall l | 0 <= l < |more| ensures LoopFits(more[l], run, n) {
      assert l < |loops| ==> LoopFits(loops[l], run, n);
    }
    forall l | 0 <= l < |loops| ensures !Drives(more[l], run.generation) {
    }
  }

  lemma ErrandsFitWithout(audit: string, log: seq<Event>, errands: map<nat, Errand>, w: nat)
    requires ErrandsFit(audit, log, errands)
    ensures ErrandsFit(audit, log, errands - {w})
  {
    hide ErrandFits;
  }

  /** What the writer goes on to do: a loop that fits, or a finish that stands behind its answer. */
  lemma AfterAskingKeepsInv(s: System, w: nat, command: Command, run: RunState)
    requires Inv(s) && OutsiderLeft(s.loops, run, Replay(s.log), command, |s.log|)
    ensures Inv(AfterAsking(s, w, command))
  {
    hide Accepted, RightlyWritten, Replay, LoopsFit, Shape;
    assert s.log[..|s.log|] == s.log;
    if Spawns(command) {
      SpawnKeepsFit(s.loops, Replay(s.log), |s.log|);
    }
  }

  lemma AskingKeepsInv(s: System, w: nat, replyLost: bool)
    requires Inv(s) && w in s.errands && s.errands[w].Asking?
    ensures Inv(OutsiderWrite(s, w, replyLost))
  {
    hide Accepted, RightlyWritten, Replay, LoopsFit, Shape, ErrandsFit, FramesThenOne, OpensAudit, AfterAsking;
    hide DecideAll, RightlyAll, AllowedAll, ApplyAll;
    var Intent(readSeq, asks) := s.errands[w].intent;
    var heard, run := s.(errands := s.errands - {w}), Replay(s.log);
    ErrandsFitWithout(s.audit, s.log, s.errands, w);
    if DecidedAt(s.log, readSeq, asks).Ok? && readSeq == |s.log| {
      assert s.log[..readSeq] == s.log;
      var events, onAudit := DecideAll(run, asks).value, IsAudit(s.audit, run);
      DecidedAllAllowed(run, asks);
      if OpensAudit(asks, s.audit) {
        AuditOpens(s.loops, run, asks, s.audit, |s.log|);
        AppendKeepsLog(heard, ByOutsider, events);
      } else if FramesThenOne(asks, onAudit) {
        FirstIsOutsider(asks, onAudit);
        OutsiderAllMove(s.loops, run, asks, s.audit, onAudit, |s.log|);
        AppendKeepsLog(heard, ByOutsider, events);
        var written, command := Append(heard, ByOutsider, events), asks[|asks| - 1].command;
        LeftFits(s.loops, run, Replay(written.log), command, |written.log|);
        if !replyLost {
          AfterAskingKeepsInv(written, w, command, run);
        }
      }
    }
  }

  lemma FinishDecides(run: RunState)
    ensures var decided := DecideAll(run, [Must(Finish(None))]);
            if run.status.Terminal() then decided == Err(AlreadyEnded) else decided == Ok([HasFinished(None)])
  {
    var ask := Must(Finish(None));
    assert [ask] + [] == [ask];
    DecideAllUnfolds(run, ask, []);
    DecideAllUnfolds(ApplyAll(run, [HasFinished(None)]), ask, []);
    hide ApplyAll, DecideAll;
    assert [HasFinished(None)] + [] == [HasFinished(None)];
  }

  /** The MCP door's finish: its run's answer is still unstarted, and no loop was started for it. */
  lemma SettlingKeepsInv(s: System, w: nat, replyLost: bool)
    requires Inv(s) && w in s.errands && s.errands[w].Settling?
    ensures Inv(OutsiderWrite(s, w, replyLost))
  {
    hide Accepted, RightlyWritten, Replay, LoopsFit, ErrandsFit, RightlyAll, AllowedAll;
    var readSeq, heard, run := s.errands[w].readSeq, s.(errands := s.errands - {w}), Replay(s.log);
    ErrandFitsOf(s.audit, s.log, s.errands, w);
    ErrandsFitWithout(s.audit, s.log, s.errands, w);
    var asks := [Must(Finish(None))];
    FinishDecides(run);
    if DecidedAt(s.log, readSeq, asks).Ok? && readSeq == |s.log| {
      assert s.log[..readSeq] == s.log;
      var e := HasFinished(None);
      assert DecideAll(run, asks).value == [e];
      DecidedAllAllowed(run, asks);
      RightlyOne(s.audit, run, ByOutsider, e);
      AppendKeepsLog(heard, ByOutsider, [e]);
      ApplyAllOne(run, e);
      LoopsFitLater(s.loops, run, Apply(run, e), |s.log|, |s.log| + 1);
    }
  }

  lemma ErrandFitsOf(audit: string, log: seq<Event>, errands: map<nat, Errand>, w: nat)
    requires ErrandsFit(audit, log, errands) && w in errands
    ensures ErrandFits(audit, log, errands[w])
  {
  }

  lemma OutsiderWriteKeepsInv(s: System, w: nat, replyLost: bool)
    requires Inv(s)
    ensures Inv(OutsiderWrite(s, w, replyLost))
  {
    if w in s.errands {
      if s.errands[w].Asking? {
        AskingKeepsInv(s, w, replyLost);
      } else {
        SettlingKeepsInv(s, w, replyLost);
      }
    }
  }

  lemma ExecKeepsInv(s: System, step: Step)
    requires Inv(s)
    ensures Inv(Exec(s, step))
  {
    hide Accepted, RightlyWritten, Replay, LoopsFit, Shape, OutsiderWrite, LoopStep;
    match step
    case OutsiderReads(_, _) =>
    case OutsiderWrites(w, replyLost) => OutsiderWriteKeepsInv(s, w, replyLost);
    case _ =>
      if step.loop < |s.loops| {
        LoopStepKeepsInv(s, step.loop, step);
      }
  }

  lemma {:induction false} ExecAllKeepsInv(s: System, steps: seq<Step>)
    requires Inv(s)
    ensures Inv(ExecAll(s, steps)) && ExecAll(s, steps).audit == s.audit
    decreases |steps|
  {
    if steps != [] {
      hide Inv;
      ExecKeepsInv(s, steps[0]);
      AuditStays(s, steps[0]);
      ExecAllKeepsInv(Exec(s, steps[0]), steps[1..]);
    }
  }

  lemma AuditStays(s: System, step: Step)
    ensures Exec(s, step).audit == s.audit
  {
    hide DecidedAt, Planned, MayPlan, MayEnd, OpensAudit, FramesThenOne;
  }

  // ----- what it comes to ----------------------------------------------------------------------------------------

  /** At most one loop has tools acting; it is of the run's own generation, and the log shows each call open. */
  ghost predicate OneActing(s: System) {
    && (forall l, m ::
          0 <= l < |s.loops| && 0 <= m < |s.loops| && s.loops[l].phase.Acting? && s.loops[m].phase.Acting? ==> l == m)
    && (forall l :: 0 <= l < |s.loops| && s.loops[l].phase.Acting? ==>
          && s.loops[l].generation == CountResumed(s.log)
          && forall c :: c in s.loops[l].phase.calls ==> OpenInLog(s.log, c))
  }

  /** Every event a loop wrote was written in its own generation: nothing of a replaced loop is in the log. */
  ghost predicate NothingStaleWritten(s: System) {
    && |s.authors| == |s.log|
    && forall i :: 0 <= i < |s.log| && s.authors[i].ByLoop? ==> s.authors[i].generation == CountResumed(s.log[..i])
  }

  lemma InvIsSafe(s: System)
    requires Inv(s)
    ensures OneActing(s) && NothingStaleWritten(s) && OneEnding(s.log) && CountResumed(s.log) <= 2
  {
    hide Accepted, Shape, ErrandsFit, OpenInLog, OneEnding, CountResumed, Replay;
    var run := Replay(s.log);
    EndsOnce(s.log);
    GenerationCountsResumes(s.log);
    forall l | 0 <= l < |s.loops| && s.loops[l].phase.Acting?
      ensures Drives(s.loops[l], run.generation)
      ensures forall c :: c in s.loops[l].phase.calls ==> OpenInLog(s.log, c)
    {
      assert LoopFits(s.loops[l], run, |s.log|);
      forall c | c in s.loops[l].phase.calls ensures OpenInLog(s.log, c) {
        OpenToolsMeaning(s.log, c);
      }
    }
    forall i | 0 <= i < |s.log| && s.authors[i].ByLoop? ensures s.authors[i].generation == CountResumed(s.log[..i]) {
      AcceptedPrefix(s.log, i);
      GenerationCountsResumes(s.log[..i]);
      assert Rightly(s.audit, Replay(s.log[..i]), s.authors[i], s.log[i]);
    }
  }

  lemma ReachableInv(audit: string, steps: seq<Step>)
    ensures Inv(ExecAll(Initial(audit), steps)) && ExecAll(Initial(audit), steps).audit == audit
  {
    assert Inv(Initial(audit));
    ExecAllKeepsInv(Initial(audit), steps);
  }

  /**
   Over every run of the system, with any number of loops, answers, stops, sweeps, lapses, crashes and lost
   replies: at most one loop ever has a tool acting, nothing a replaced loop writes enters the log, the run
   ends once, and it is resumed at most twice.
   */
  lemma FencingHoldsOverEveryRun(audit: string, steps: seq<Step>)
    ensures var s := ExecAll(Initial(audit), steps);
            OneActing(s) && NothingStaleWritten(s) && OneEnding(s.log) && CountResumed(s.log) <= 2
  {
    ReachableInv(audit, steps);
    InvIsSafe(ExecAll(Initial(audit), steps));
  }

  /** Some answer a person gave has neither started its call nor closed it. */
  ghost predicate SomeAnswerOwed(log: seq<Event>) {
    exists call: PendingApproval, approved: bool :: AnswerOwed(log, call, approved)
  }

  lemma SomeAnswerOwedMeaning(log: seq<Event>)
    ensures Replay(log).unstartedAnswer.Some? <==> SomeAnswerOwed(log)
  {
    hide Replay, AnswerOwed;
    forall call: PendingApproval, approved: bool
      ensures Replay(log).unstartedAnswer == Some(AnsweredCall(call, approved)) <==> AnswerOwed(log, call, approved)
    {
      UnstartedAnswerMeaning(log, call, approved);
    }
    if Replay(log).unstartedAnswer.Some? {
      var answer := Replay(log).unstartedAnswer.value;
      assert answer == AnsweredCall(answer.call, answer.approved);
      assert AnswerOwed(log, answer.call, answer.approved);
    }
  }

  /**
   Whenever a run finishes, over every run of the system: no answer is left to carry out, exactly when a loop
   finished it. Anyone else finishes only an audit run, whose answered call the MCP client runs itself.
   */
  lemma FinishedRanApprovals(audit: string, steps: seq<Step>, i: nat)
    requires i < |ExecAll(Initial(audit), steps).log| && ExecAll(Initial(audit), steps).log[i].HasFinished?
    ensures var s := ExecAll(Initial(audit), steps);
            && |s.authors| == |s.log|
            && (s.authors[i].ByLoop? <==> !SomeAnswerOwed(s.log[..i]))
            && (s.authors[i].ByOutsider? ==> IsAudit(audit, Replay(s.log[..i])))
  {
    hide Replay, ExecAll, SomeAnswerOwed, Accepted, LoopsFit, ErrandsFit, Shape;
    var s := ExecAll(Initial(audit), steps);
    ReachableInv(audit, steps);
    assert Rightly(audit, Replay(s.log[..i]), s.authors[i], s.log[i]);
    SomeAnswerOwedMeaning(s.log[..i]);
  }

  /** On any thread but the audit one, a finished run carried every answer out. */
  lemma ConversationsRanApprovals(audit: string, steps: seq<Step>, i: nat)
    requires i < |ExecAll(Initial(audit), steps).log| && ExecAll(Initial(audit), steps).log[i].HasFinished?
    requires !IsAudit(audit, Replay(ExecAll(Initial(audit), steps).log[..i]))
    ensures !SomeAnswerOwed(ExecAll(Initial(audit), steps).log[..i])
  {
    hide Replay, ExecAll, SomeAnswerOwed;
    FinishedRanApprovals(audit, steps, i);
  }

  /** A resume is written only while no tool acts: nothing runs twice. */
  lemma ResumeFindsNothingActing(audit: string, steps: seq<Step>, step: Step, l: nat)
    requires var s, t := ExecAll(Initial(audit), steps), Exec(ExecAll(Initial(audit), steps), step);
             CountResumed(t.log) > CountResumed(s.log) && l < |s.loops|
    ensures !ExecAll(Initial(audit), steps).loops[l].phase.Acting?
  {
    hide Inv, Exec, ExecAll, CountResumed, OneEnding;
    var s := ExecAll(Initial(audit), steps);
    var t := Exec(s, step);
    ReachableInv(audit, steps);
    ExecKeepsInv(s, step);
    InvIsSafe(s);
    InvIsSafe(t);
    if s.loops[l].phase.Acting? {
      ActingLoopOnlyFinishes(s, step, l);
    }
  }

  /** While a loop's tools act, a step that writes to the log leaves that loop acting. */
  lemma ActingLoopOnlyFinishes(s: System, step: Step, l: nat)
    requires l < |s.loops| && s.loops[l].phase.Acting?
    ensures var t := Exec(s, step); l < |t.loops| && (t.loops[l] == s.loops[l] || t.log == s.log)
  {
    hide DecidedAt, Planned, MayPlan, MayEnd, OpensAudit, FramesThenOne, IsAudit, Replay;
  }
}
