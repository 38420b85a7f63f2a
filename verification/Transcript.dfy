/**
 The whole stream of a run, written out from what was fed to it and what was said so far, by someone who keeps no
 other state: which message is open is read off the stream by the automaton, and the reasons off the operations. The
 projection's own stream is proved to be this one, event by event.
 */
module Transcript {
  import opened Common
  import opened Projection

  /** The reason a finish gives, and the code a failure does: the last ones set. */
  function ReasonIn(ops: seq<Op>): Option<string> {
    if ops == [] then None
    else if ops[|ops| - 1].FinishBecause? then Some(ops[|ops| - 1].reason)
    else ReasonIn(ops[..|ops| - 1])
  }

  function CodeIn(ops: seq<Op>): Option<string> {
    if ops == [] then None
    else if ops[|ops| - 1].FailWith? then ops[|ops| - 1].code
    else CodeIn(ops[..|ops| - 1])
  }

  /** What closes an open message or call. */
  function Closer(open: Open): seq<Event> {
    match open
    case Nothing => []
    case OpenText(m) => [TextEnd(m)]
    case OpenReasoning(m) => [ReasoningEnd(m)]
    case OpenCall(c) => [CallEnd(c)]
  }

  function Named(names: seq<string>): (events: seq<Event>)
    ensures |events| == |names| && forall i :: 0 <= i < |names| ==> events[i] == CustomEvent(Other(names[i]))
  {
    if names == [] then [] else [CustomEvent(Other(names[0]))] + Named(names[1..])
  }

  /** What a delta says where the stream stands: text and thought go on in the message that is open, or in the next. */
  function DeltaSays(b: Bracket, delta: Delta): seq<Event> {
    match delta
    case Text(text) =>
      if b.open.OpenText? then [TextContent(b.open.message, text)]
      else Closer(b.open) + [TextStart(b.last + 1), TextContent(b.last + 1, text)]
    case Reasoning(text) =>
      if b.open.OpenReasoning? then [ReasoningContent(b.open.message, text)]
      else Closer(b.open) + [ReasoningStart(b.last + 1), ReasoningContent(b.last + 1, text)]
    case ToolCallStart(id, name) => Closer(b.open) + [CallStart(id, name)]
    case ToolCallArgs(id, text) => [CallArgs(id, text)]
    case ToolCallEnd(id) => [CallEnd(id)]
  }

  /** What a run that ends, parks or wakes says: nothing once it has ended. */
  function Unended(b: Bracket, said: seq<Event>): seq<Event> {
    if b.ended then [] else Closer(b.open) + said
  }

  /** What an operation says where the stream stands. */
  function Says(b: Bracket, reason: Option<string>, code: Option<string>, op: Op): seq<Event> {
    match op
    case Begin => []
    case Push(delta) => DeltaSays(b, delta)
    case ToolResult(call, text, customs) => Closer(b.open) + [CallResult(call, text)] + Named(customs)
    case AwaitApproval(call) => Unended(b, [CustomEvent(Card(call))])
    case WakeBox => Unended(b, [CustomEvent(BoxWaking)])
    case Finish => Unended(b, [RunFinished(reason)])
    case Stop => Unended(b, [CustomEvent(StopNotice), RunFinished(None)])
    case Fail(error) => Unended(b, [RunError(error, code)])
    case EmitCustom(custom) => [CustomEvent(custom)]
    case FinishBecause(_) => []
    case FailWith(_) => []
  }

  /** Every operation but these two settings, and a frame sent as it is, opens the run first. */
  predicate OpensTheRun(op: Op) {
    !op.FinishBecause? && !op.FailWith? && !op.EmitCustom?
  }

  function Told(b: Bracket, ops: seq<Op>): seq<Event> {
    if ops == [] then []
    else
      var before, op := ops[..|ops| - 1], ops[|ops| - 1];
      var told := Told(b, before);
      var now := ReadAll(b, told);
      told + (if OpensTheRun(op) && !now.begun then [RunStarted] else []) +
      Says(now, ReasonIn(before), CodeIn(before), op)
  }

  // ----- the projection tells the same -----------------------------------------------------------------------------

  lemma ClosersAre(open: Open)
    ensures Closes(open) == Closer(open)
  {
  }

  lemma {:induction false} CustomsAre(names: seq<string>)
    ensures Customs(names) == Named(names)
  {
    if names != [] {
      CustomsAre(names[1..]);
    }
  }

  /** What one operation says is what the stream so far makes of it. */
  lemma StepSays(s: State, b: Bracket, op: Op)
    requires Matches(s, b) && Legal(s, op)
    ensures Step(s, op).events ==
            (if OpensTheRun(op) && !b.begun then [RunStarted] else []) + Says(b, s.finishReason, s.failCode, op)
    ensures var t := Step(s, op).to;
            && t.finishReason == (if op.FinishBecause? then Some(op.reason) else s.finishReason)
            && t.failCode == (if op.FailWith? then op.code else s.failCode)
  {
    ClosersAre(s.open);
    hide Closes, Closer, Customs, Named;
    if op.ToolResult? {
      CustomsAre(op.customs);
    }
  }

  lemma {:induction false} StepsSnoc(s: State, ops: seq<Op>, op: Op)
    ensures var before := Steps(s, ops);
            Steps(s, ops + [op]) == Done(Step(before.to, op).to, before.events + Step(before.to, op).events)
    decreases |ops|
  {
    hide Step;
    if ops == [] {
      assert ops + [op] == [op] && [op][1..] == [];
      assert Step(s, op).events + [] == Step(s, op).events && [] + Step(s, op).events == Step(s, op).events;
    } else {
      assert (ops + [op])[0] == ops[0] && (ops + [op])[1..] == ops[1..] + [op];
      var d := Step(s, ops[0]);
      StepsSnoc(d.to, ops[1..], op);
      var rest := Steps(d.to, ops[1..]);
      assert d.events + (rest.events + Step(rest.to, op).events) == d.events + rest.events + Step(rest.to, op).events;
    }
  }

  lemma {:induction false} LegalSnoc(s: State, ops: seq<Op>, op: Op)
    ensures AllLegal(s, ops + [op]) <==> AllLegal(s, ops) && Legal(Steps(s, ops).to, op)
    decreases |ops|
  {
    hide Step, Legal;
    if ops == [] {
      assert ops + [op] == [op] && [op][1..] == [];
      assert AllLegal(Step(s, op).to, []);
    } else {
      assert (ops + [op])[0] == ops[0] && (ops + [op])[1..] == ops[1..] + [op];
      LegalSnoc(Step(s, ops[0]).to, ops[1..], op);
    }
  }

  lemma ToldSnoc(b: Bracket, before: seq<Op>, op: Op)
    ensures var told := Told(b, before);
            var now := ReadAll(b, told);
            Told(b, before + [op]) == told + ((if OpensTheRun(op) && !now.begun then [RunStarted] else []) +
                                              Says(now, ReasonIn(before), CodeIn(before), op))
    ensures ReasonIn(before + [op]) == (if op.FinishBecause? then Some(op.reason) else ReasonIn(before))
    ensures CodeIn(before + [op]) == (if op.FailWith? then op.code else CodeIn(before))
  {
    hide Says, ReadAll;
    assert (before + [op])[..|before|] == before;
    var told, now := Told(b, before), ReadAll(b, Told(b, before));
    var opening := if OpensTheRun(op) && !now.begun then [RunStarted] else [];
    var said := Says(now, ReasonIn(before), CodeIn(before), op);
    assert told + opening + said == told + (opening + said);
  }

  lemma {:induction false} StepsTell(s: State, b: Bracket, ops: seq<Op>)
    requires Matches(s, b) && s.finishReason == None && s.failCode == None && AllLegal(s, ops)
    ensures Steps(s, ops).events == Told(b, ops)
    ensures Steps(s, ops).to.finishReason == ReasonIn(ops) && Steps(s, ops).to.failCode == CodeIn(ops)
    decreases |ops|
  {
    if ops != [] {
      hide Step, Says, Legal, Steps, AllLegal, ReadAll, Told, ReasonIn, CodeIn, OpensTheRun;
      var before, op := ops[..|ops| - 1], ops[|ops| - 1];
      assert ops == before + [op];
      LegalSnoc(s, before, op);
      StepsTell(s, b, before);
      StepsContinue(s, b, before);
      StepsSnoc(s, before, op);
      StepSays(Steps(s, before).to, ReadAll(b, Told(b, before)), op);
      ToldSnoc(b, before, op);
    }
  }

  /**
   Whatever is fed to a new run, or to one carried on after `n` messages: every event of its stream is what the
   operations say where the stream stands, in order. Messages are numbered on from `n`, text goes on in an open text,
   a finish gives the last reason set, a failure the last code, and a stop none.
   */
  lemma TheStreamIsTold(resumed: Option<nat>, ops: seq<Op>)
    requires AllLegal(if resumed.Some? then Resumed(resumed.value) else NEW, ops)
    ensures var s := if resumed.Some? then Resumed(resumed.value) else NEW;
            var b := Bracket(resumed.Some?, false, Nothing, if resumed.Some? then resumed.value else 0);
            Steps(s, ops).events == Told(b, ops)
  {
    var s := if resumed.Some? then Resumed(resumed.value) else NEW;
    var b := Bracket(resumed.Some?, false, Nothing, if resumed.Some? then resumed.value else 0);
    assert Matches(s, b);
    hide AllLegal, Told;
    StepsTell(s, b, ops);
  }

  // ----- where the timing goes ---------------------------------------------------------------------------------------

  lemma {:induction false} LastTerminalIs(before: seq<Event>, rest: seq<Event>)
    requires forall i :: 1 <= i < |rest| ==> !IsTerminal(rest[i])
    ensures rest != [] && IsTerminal(rest[0]) ==> LastTerminal(before + rest) == |before|
    ensures before == [] && (rest == [] || !IsTerminal(rest[0])) ==> LastTerminal(before + rest) == |rest|
    decreases |rest|
  {
    if |rest| > 1 || (|rest| == 1 && !IsTerminal(rest[0])) {
      var less, all := rest[..|rest| - 1], before + rest;
      assert all[..|all| - 1] == before + less && all[|all| - 1] == rest[|rest| - 1];
      LastTerminalIs(before, less);
    } else if |rest| == 1 {
      assert (before + rest)[|before|] == rest[0];
    }
  }

  /** A frame is spliced in right before the last terminal, and at the end of what has none. */
  lemma WhereTheTimingGoes(before: seq<Event>, last: Event, after: seq<Event>, extra: Event)
    requires forall i :: 0 <= i < |after| ==> !IsTerminal(after[i])
    ensures IsTerminal(last) ==> Spliced(before + [last] + after, extra) == before + [extra] + [last] + after
    ensures Spliced(after, extra) == after + [extra]
  {
    var rest := [last] + after;
    assert before + rest == before + [last] + after && [] + after == after;
    LastTerminalIs(before, rest);
    LastTerminalIs([], after);
    assert (before + rest)[..|before|] == before && (before + rest)[|before|..] == rest;
    assert after[..|after|] == after && after[|after|..] == [];
    hide LastTerminal;
  }

  // ----- how a run is closed, and how that is told when the log refuses it -----------------------------------------

  function Cards(calls: seq<string>): (events: seq<Event>)
    ensures |events| == |calls| && forall i :: 0 <= i < |calls| ==> events[i] == CustomEvent(Card(calls[i]))
  {
    if calls == [] then [] else [CustomEvent(Card(calls[0]))] + Cards(calls[1..])
  }

  /** What an ending says before its terminal, and the terminal. */
  function EndingSays(ending: Ending): seq<Event> {
    match ending
    case EndStop => [CustomEvent(StopNotice)]
    case EndPark(calls) => Cards(calls)
    case _ => []
  }

  function EndingIs(ending: Ending, reason: Option<string>, code: Option<string>): Event {
    match ending
    case EndFinish => RunFinished(reason)
    case EndStop => RunFinished(None)
    case EndFail(error) => RunError(error, code)
    case EndPark(_) => RunFinished(reason)
  }

  lemma CardTells(s: State, call: string)
    requires s.started && !s.finished
    ensures Step(s, AwaitApproval(call)) == Done(s.(open := Nothing), Closer(s.open) + [CustomEvent(Card(call))])
  {
    ClosersAre(s.open);
    hide Closes, Closer;
    var said := Closes(s.open) + [CustomEvent(Card(call))];
    assert [] + said == said;
  }

  lemma FinishTells(s: State)
    requires s.started && !s.finished
    ensures Step(s, Finish).events == Closer(s.open) + [RunFinished(s.finishReason)]
  {
    ClosersAre(s.open);
    hide Closes, Closer;
    var said := Closes(s.open) + [RunFinished(s.finishReason)];
    assert [] + said == said;
  }

  lemma {:induction false} ParkTells(s: State, calls: seq<string>)
    requires s.started && !s.finished
    ensures Steps(s, ParkOps(calls)).events ==
            Closer(s.open) + Cards(calls) + [RunFinished(s.finishReason)]
    decreases |calls|
  {
    hide Step, Closer, Steps;
    if calls == [] {
      FinishTells(s);
      StepsFirst(s, Finish, []);
      assert [Finish] + [] == [Finish];
      ParkJoin(Closer(s.open), [], [], [RunFinished(s.finishReason)]);
    } else {
      CardTells(s, calls[0]);
      StepsFirst(s, AwaitApproval(calls[0]), ParkOps(calls[1..]));
      ParkTells(s.(open := Nothing), calls[1..]);
      NothingToClose();
      ParkJoin(Closer(s.open), [CustomEvent(Card(calls[0]))], Cards(calls[1..]), [RunFinished(s.finishReason)]);
    }
  }

  lemma ParkJoin(a: seq<Event>, card: seq<Event>, rest: seq<Event>, last: seq<Event>)
    ensures a + card + ([] + rest + last) == a + (card + rest) + last && a + last + [] == a + [] + last
  {
  }

  lemma StepsFirst(s: State, op: Op, rest: seq<Op>)
    ensures Steps(s, [op] + rest).events == Step(s, op).events + Steps(Step(s, op).to, rest).events
    ensures Steps(Step(s, op).to, []).events == []
  {
    hide Step;
    assert ([op] + rest)[1..] == rest;
  }

  lemma NothingToClose()
    ensures Closer(Nothing) == []
  {
  }

  /** However a run that goes on is closed: what is open, what the ending says, its timing, and then its terminal. */
  lemma WhatAClosingSays(s: State, ending: Ending)
    requires s.started && !s.finished
    ensures Closing(s, ending) ==
            Closer(s.open) + EndingSays(ending) + [CustomEvent(Timing)] + [EndingIs(ending, s.finishReason, s.failCode)]
  {
    var most, last := Closer(s.open) + EndingSays(ending), EndingIs(ending, s.finishReason, s.failCode);
    OneEndingTells(s, ending);
    assert IsTerminal(last);
    var events := most + [last];
    assert events[..|most|] == most && events[|most|..] == [last] && LastTerminal(events) == |most|;
    hide Steps, EndOps, EndingSays, Closer;
  }

  lemma OneEndingTells(s: State, ending: Ending)
    requires s.started && !s.finished
    ensures Steps(s, EndOps(ending)).events ==
            Closer(s.open) + EndingSays(ending) + [EndingIs(ending, s.finishReason, s.failCode)]
  {
    if ending.EndPark? {
      ParkTells(s, ending.calls);
    } else {
      var op := EndOps(ending)[0];
      assert EndOps(ending) == [op] && [op][1..] == [];
      ClosersAre(s.open);
      hide Closes, Closer;
      var d := Step(s, op);
      assert Steps(s, [op]).events == d.events + [];
      assert d.events == Closer(s.open) + (EndingSays(ending) + [EndingIs(ending, s.finishReason, s.failCode)]);
    }
  }

  /** Refused, each of them is told as its closes and its timing, and one error that says why. */
  lemma WhatARefusalSays(s: State, ending: Ending, error: string)
    requires s.started && !s.finished
    ensures Unrecorded(Closing(s, ending), error) == Closer(s.open) + [CustomEvent(Timing)] + [RunError(error, None)]
  {
    WhatAClosingSays(s, ending);
    var closer, said := Closer(s.open), EndingSays(ending);
    var last := EndingIs(ending, s.finishReason, s.failCode);
    NoneStay(said);
    StayingIs(closer, said, CustomEvent(Timing), last);
  }

  lemma StayingIs(closer: seq<Event>, said: seq<Event>, timing: Event, last: Event)
    requires forall i :: 0 <= i < |closer| ==> Stays(closer[i])
    requires Stays(timing) && !Stays(last) && Staying(said) == []
    ensures Staying(closer + said + [timing] + [last]) == closer + [timing]
  {
    AllStay(closer);
    AllStay([timing]);
    NoneStay([last]);
    hide Staying, Stays;
    StayingConcat(closer + said + [timing], [last]);
    StayingConcat(closer + said, [timing]);
    StayingConcat(closer, said);
    assert closer + [] + [timing] + [] == closer + [timing];
  }

  lemma {:induction false} StayingConcat(a: seq<Event>, b: seq<Event>)
    ensures Staying(a + b) == Staying(a) + Staying(b)
  {
    if a == [] {
      assert a + b == b;
    } else {
      assert (a + b)[1..] == a[1..] + b;
      StayingConcat(a[1..], b);
    }
  }

  lemma {:induction false} AllStay(events: seq<Event>)
    requires forall i :: 0 <= i < |events| ==> Stays(events[i])
    ensures Staying(events) == events
  {
    if events != [] {
      AllStay(events[1..]);
    }
  }

  lemma {:induction false} NoneStay(events: seq<Event>)
    requires forall i :: 0 <= i < |events| ==> !Stays(events[i])
    ensures Staying(events) == []
  {
    if events != [] {
      NoneStay(events[1..]);
    }
  }
}
