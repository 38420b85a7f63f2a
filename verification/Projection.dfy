/**
 A model's deltas as a well-bracketed run: whatever order fragments come in, messages open before they are filled
 and close before anything else opens, and the run is opened once and closed once.

 The functions on `State` say what each operation does, `RunProjection` does it in place, and `Bracket` is an
 automaton that knows nothing of either: it reads events and accepts those streams only.
 */
module Projection {
  import opened Common
  import SseStream

  type Delta = SseStream.Delta

  /** The names of a run's CUSTOM frames, by what the code does with them. */
  datatype Custom = Card(callId: string) | StopNotice | Timing | BoxWaking | Other(name: string)

  /** Events by what brackets them. Message `n` of a run is its n-th; its id is made of the run's and `n`. */
  datatype Event =
    | RunStarted
    | TextStart(message: nat)
    | TextContent(message: nat, text: string)
    | TextEnd(message: nat)
    | ReasoningStart(message: nat)
    | ReasoningContent(message: nat, text: string)
    | ReasoningEnd(message: nat)
    | CallStart(call: string, name: string)
    | CallArgs(call: string, text: string)
    | CallEnd(call: string)
    | CallResult(call: string, text: string)
    | CustomEvent(custom: Custom)
    | RunFinished(reason: Option<string>)
    | RunError(error: string, code: Option<string>)

  datatype Open = Nothing | OpenText(message: nat) | OpenReasoning(message: nat) | OpenCall(call: string)

  datatype State = State(
    open: Open, started: bool, finished: bool,
    finishReason: Option<string>, failCode: Option<string>, messageSeq: nat)

  const NEW := State(Nothing, false, false, None, None, 0)

  /** The state a continuation begins in: opened, with `messageSeq` messages behind it. */
  function Resumed(messageSeq: nat): State {
    NEW.(started := true, messageSeq := messageSeq)
  }

  datatype Done = Done(to: State, events: seq<Event>)

  // ----- the operations --------------------------------------------------------------------------------------

  function Started(s: State): Done {
    if s.started then Done(s, []) else Done(s.(started := true), [RunStarted])
  }

  function Closes(open: Open): seq<Event> {
    match open
    case Nothing => []
    case OpenText(m) => [TextEnd(m)]
    case OpenReasoning(m) => [ReasoningEnd(m)]
    case OpenCall(c) => [CallEnd(c)]
  }

  function Closed(s: State): Done {
    Done(s.(open := Nothing), Closes(s.open))
  }

  function PushedText(s: State, text: string): Done {
    if s.open.OpenText? then Done(s, [TextContent(s.open.message, text)])
    else
      var m := s.messageSeq + 1;
      Done(s.(open := OpenText(m), messageSeq := m), Closes(s.open) + [TextStart(m), TextContent(m, text)])
  }

  function PushedReasoning(s: State, text: string): Done {
    if s.open.OpenReasoning? then Done(s, [ReasoningContent(s.open.message, text)])
    else
      var m := s.messageSeq + 1;
      Done(s.(open := OpenReasoning(m), messageSeq := m),
           Closes(s.open) + [ReasoningStart(m), ReasoningContent(m, text)])
  }

  function PushedDelta(s: State, delta: Delta): Done {
    match delta
    case Text(text) => PushedText(s, text)
    case Reasoning(text) => PushedReasoning(s, text)
    case ToolCallStart(id, name) => Done(s.(open := OpenCall(id)), Closes(s.open) + [CallStart(id, name)])
    case ToolCallArgs(id, text) => Done(s, [CallArgs(id, text)])
    case ToolCallEnd(id) => Done(if s.open == OpenCall(id) then s.(open := Nothing) else s, [CallEnd(id)])
  }

  /** Open the run if it is not, then `d`. */
  function First(s: State, d: Done): Done {
    Done(d.to, Started(s).events + d.events)
  }

  function Pushed(s: State, delta: Delta): Done {
    First(s, PushedDelta(Started(s).to, delta))
  }

  function Customs(names: seq<string>): seq<Event> {
    if names == [] then [] else [CustomEvent(Other(names[0]))] + Customs(names[1..])
  }

  function Resulted(s: State, call: string, text: string, customs: seq<string>): Done {
    var begun := Started(s).to;
    First(s, Done(begun.(open := Nothing), Closes(begun.open) + [CallResult(call, text)] + Customs(customs)))
  }

  /** Unless the run has ended: close what is open, then `last`. */
  function Unless(s: State, last: seq<Event>, ends: bool): Done {
    var begun := Started(s).to;
    if begun.finished then Done(begun, [])
    else First(s, Done(begun.(open := Nothing, finished := ends), Closes(begun.open) + last))
  }

  datatype Op =
    | Push(delta: Delta)
    | ToolResult(call: string, text: string, customs: seq<string>)
    | AwaitApproval(call: string)
    | EmitCustom(custom: Custom)
    | WakeBox
    | FinishBecause(reason: string)
    | FailWith(code: Option<string>)
    | Finish
    | Stop
    | Fail(error: string)
    | Begin

  function Step(s: State, op: Op): Done {
    match op
    case Begin => Started(s)
    case Push(delta) => Pushed(s, delta)
    case ToolResult(call, text, customs) => Resulted(s, call, text, customs)
    case AwaitApproval(call) => Unless(s, [CustomEvent(Card(call))], false)
    case EmitCustom(custom) => Done(s, [CustomEvent(custom)])
    case WakeBox => Unless(s, [CustomEvent(BoxWaking)], false)
    case FinishBecause(reason) => Done(s.(finishReason := Some(reason)), [])
    case FailWith(code) => Done(s.(failCode := code), [])
    case Finish => Unless(s, [RunFinished(s.finishReason)], true)
    case Stop => Unless(s, [CustomEvent(StopNotice), RunFinished(None)], true)
    case Fail(error) => Unless(s, [RunError(error, s.failCode)], true)
  }

  function Steps(s: State, ops: seq<Op>): Done
    decreases |ops|
  {
    if ops == [] then Done(s, [])
    else
      var d := Step(s, ops[0]);
      var rest := Steps(d.to, ops[1..]);
      Done(rest.to, d.events + rest.events)
  }

  /** An ending's brackets stay closed and its timing stays; everything else of it becomes one RUN_ERROR. */
  predicate Stays(e: Event) {
    e.TextEnd? || e.ReasoningEnd? || e.CallEnd? || e == CustomEvent(Timing)
  }

  function Staying(events: seq<Event>): seq<Event> {
    if events == [] then []
    else if Stays(events[0]) then [events[0]] + Staying(events[1..])
    else Staying(events[1..])
  }

  function Unrecorded(refused: seq<Event>, error: string): seq<Event> {
    Staying(refused) + [RunError(error, None)]
  }

  // ----- the object ----------------------------------------------------------------------------------------------

  class RunProjection {
    var open: Open
    var started: bool
    var finished: bool
    var finishReason: Option<string>
    var failCode: Option<string>
    var messageSeq: nat

    ghost function Value(): State
      reads this
    {
      State(open, started, finished, finishReason, failCode, messageSeq)
    }

    constructor ()
      ensures Value() == NEW
    {
      open, started, finished, finishReason, failCode, messageSeq := Nothing, false, false, None, None, 0;
    }

    constructor Resume(seqNo: nat)
      ensures Value() == Resumed(seqNo)
    {
      open, started, finished, finishReason, failCode, messageSeq := Nothing, true, false, None, None, seqNo;
    }

    method Start() returns (events: seq<Event>)
      modifies this`started
      ensures Done(Value(), events) == Started(old(Value()))
    {
      if started {
        return [];
      }
      started := true;
      events := [RunStarted];
    }

    method CloseOpen() returns (events: seq<Event>)
      modifies this`open
      ensures Done(Value(), events) == Closed(old(Value()))
    {
      match open {
        case Nothing => events := [];
        case OpenText(m) => events := [TextEnd(m)];
        case OpenReasoning(m) => events := [ReasoningEnd(m)];
        case OpenCall(c) => events := [CallEnd(c)];
      }
      open := Nothing;
    }

    method PushText(text: string) returns (events: seq<Event>)
      modifies this`open, this`messageSeq
      ensures Done(Value(), events) == PushedText(old(Value()), text)
    {
      if open.OpenText? {
        return [TextContent(open.message, text)];
      }
      var closing := CloseOpen();
      messageSeq := messageSeq + 1;
      open := OpenText(messageSeq);
      events := closing + [TextStart(messageSeq), TextContent(messageSeq, text)];
    }

    method PushReasoning(text: string) returns (events: seq<Event>)
      modifies this`open, this`messageSeq
      ensures Done(Value(), events) == PushedReasoning(old(Value()), text)
    {
      if open.OpenReasoning? {
        return [ReasoningContent(open.message, text)];
      }
      var closing := CloseOpen();
      messageSeq := messageSeq + 1;
      open := OpenReasoning(messageSeq);
      events := closing + [ReasoningStart(messageSeq), ReasoningContent(messageSeq, text)];
    }

    method PushDelta(delta: Delta) returns (events: seq<Event>)
      modifies this
      ensures Done(Value(), events) == Pushed(old(Value()), delta)
    {
      hide PushedText, PushedReasoning;
      var opening := Start();
      var rest;
      match delta {
        case Text(text) => rest := PushText(text);
        case Reasoning(text) => rest := PushReasoning(text);
        case ToolCallStart(id, name) =>
          rest := CloseOpen();
          rest := rest + [CallStart(id, name)];
          open := OpenCall(id);
        case ToolCallArgs(id, text) => rest := [CallArgs(id, text)];
        case ToolCallEnd(id) =>
          if open == OpenCall(id) {
            open := Nothing;
          }
          rest := [CallEnd(id)];
      }
      events := opening + rest;
    }

    method PushToolResult(call: string, text: string, customs: seq<string>) returns (events: seq<Event>)
      modifies this
      ensures Done(Value(), events) == Resulted(old(Value()), call, text, customs)
    {
      var opening := Start();
      var closing := CloseOpen();
      var rest := closing + [CallResult(call, text)];
      ghost var head := rest;
      for i := 0 to |customs|
        invariant rest + Customs(customs[i..]) == head + Customs(customs)
      {
        assert customs[i..][1..] == customs[i + 1..];
        assert rest + ([CustomEvent(Other(customs[i]))] + Customs(customs[i + 1..])) ==
               (rest + [CustomEvent(Other(customs[i]))]) + Customs(customs[i + 1..]);
        rest := rest + [CustomEvent(Other(customs[i]))];
      }
      assert Customs(customs[|customs|..]) == [] && rest + [] == rest;
      events := opening + rest;
    }

    /** What a park, a box's wake and every ending share. */
    method CloseWith(last: seq<Event>, ends: bool) returns (events: seq<Event>)
      modifies this
      ensures Done(Value(), events) == Unless(old(Value()), last, ends)
    {
      var opening := Start();
      if finished {
        return [];
      }
      var closing := CloseOpen();
      finished := ends;
      events := opening + (closing + last);
    }

    method FinishRun() returns (events: seq<Event>)
      modifies this
      ensures Done(Value(), events) == Step(old(Value()), Finish)
    {
      events := CloseWith([RunFinished(finishReason)], true);
    }

    method StopRun() returns (events: seq<Event>)
      modifies this
      ensures Done(Value(), events) == Step(old(Value()), Stop)
    {
      events := CloseWith([CustomEvent(StopNotice), RunFinished(None)], true);
    }

    method FailRun(error: string) returns (events: seq<Event>)
      modifies this
      ensures Done(Value(), events) == Step(old(Value()), Fail(error))
    {
      events := CloseWith([RunError(error, failCode)], true);
    }

    method Park(call: string) returns (events: seq<Event>)
      modifies this
      ensures Done(Value(), events) == Step(old(Value()), AwaitApproval(call))
    {
      events := CloseWith([CustomEvent(Card(call))], false);
    }

    /** A card for each call waiting, then the stream's own closer. */
    method ParkAwaiting(calls: seq<string>) returns (events: seq<Event>)
      modifies this
      ensures Done(Value(), events) == Steps(old(Value()), ParkOps(calls))
    {
      hide Step;
      events := [];
      ghost var start := Value();
      assert calls[0..] == calls;
      assert Then([], Steps(start, ParkOps(calls))) == Steps(start, ParkOps(calls)) by {
        assert [] + Steps(start, ParkOps(calls)).events == Steps(start, ParkOps(calls)).events;
      }
      for i := 0 to |calls|
        invariant Then(events, Steps(Value(), ParkOps(calls[i..]))) == Steps(start, ParkOps(calls))
      {
        ParkStep(Value(), calls, i, events);
        var card := Park(calls[i]);
        events := events + card;
      }
      OneOp(Value(), Finish);
      var closer := FinishRun();
      events := events + closer;
    }
  }

  function Then(events: seq<Event>, d: Done): Done {
    Done(d.to, events + d.events)
  }

  lemma ParkStep(s: State, calls: seq<string>, i: nat, events: seq<Event>)
    requires i < |calls|
    ensures var card := Step(s, AwaitApproval(calls[i]));
            Then(events, Steps(s, ParkOps(calls[i..])))
              == Then(events + card.events, Steps(card.to, ParkOps(calls[i + 1..])))
  {
    hide Step;
    var card := Step(s, AwaitApproval(calls[i]));
    assert calls[i..][1..] == calls[i + 1..];
    assert ParkOps(calls[i..])[1..] == ParkOps(calls[i + 1..]);
    var rest := Steps(card.to, ParkOps(calls[i + 1..]));
    assert events + (card.events + rest.events) == events + card.events + rest.events;
  }

  // ----- the automaton ---------------------------------------------------------------------------------------------

  /** `last` is the highest message number used. */
  datatype Bracket = Bracket(begun: bool, ended: bool, open: Open, last: nat)

  predicate IsTerminal(e: Event) {
    e.RunFinished? || e.RunError?
  }

  /** A frame that may only come while nothing is open. */
  predicate NeedsNothingOpen(e: Event) {
    || e.TextStart? || e.ReasoningStart? || e.CallStart? || e.CallResult? || IsTerminal(e)
    || (e.CustomEvent? && (e.custom.Card? || e.custom.StopNotice? || e.custom.BoxWaking?))
  }

  /** May `e` come next? */
  predicate Allows(b: Bracket, e: Event) {
    && !b.ended && (e.RunStarted? <==> !b.begun) && (NeedsNothingOpen(e) ==> b.open.Nothing?)
    && match e
       case TextStart(m) => m > b.last
       case ReasoningStart(m) => m > b.last
       case TextContent(m, _) => b.open == OpenText(m)
       case TextEnd(m) => b.open == OpenText(m)
       case ReasoningContent(m, _) => b.open == OpenReasoning(m)
       case ReasoningEnd(m) => b.open == OpenReasoning(m)
       case _ => true
  }

  function Read(b: Bracket, e: Event): Bracket {
    match e
    case RunStarted => b.(begun := true)
    case TextStart(m) => b.(open := OpenText(m), last := m)
    case ReasoningStart(m) => b.(open := OpenReasoning(m), last := m)
    case TextEnd(_) => b.(open := Nothing)
    case ReasoningEnd(_) => b.(open := Nothing)
    case CallStart(c, _) => b.(open := OpenCall(c))
    case CallEnd(c) => if b.open == OpenCall(c) then b.(open := Nothing) else b
    case RunFinished(_) => b.(ended := true)
    case RunError(_, _) => b.(ended := true)
    case _ => b
  }

  predicate Accepts(b: Bracket, events: seq<Event>)
    decreases |events|
  {
    events == [] || (Allows(b, events[0]) && Accepts(Read(b, events[0]), events[1..]))
  }

  function ReadAll(b: Bracket, events: seq<Event>): Bracket
    decreases |events|
  {
    if events == [] then b else ReadAll(Read(b, events[0]), events[1..])
  }

  lemma {:induction false} AcceptsConcat(b: Bracket, xs: seq<Event>, ys: seq<Event>)
    ensures Accepts(b, xs + ys) <==> Accepts(b, xs) && Accepts(ReadAll(b, xs), ys)
    ensures ReadAll(b, xs + ys) == ReadAll(ReadAll(b, xs), ys)
    decreases |xs|
  {
    hide Allows, Read;
    if xs == [] {
      assert xs + ys == ys;
    } else {
      assert (xs + ys)[0] == xs[0] && (xs + ys)[1..] == xs[1..] + ys;
      AcceptsConcat(Read(b, xs[0]), xs[1..], ys);
    }
  }

  lemma AcceptsOne(b: Bracket, e: Event)
    ensures Accepts(b, [e]) <==> Allows(b, e)
    ensures ReadAll(b, [e]) == Read(b, e)
  {
    hide Allows, Read;
    assert [e][1..] == [];
    assert Accepts(Read(b, e), []);
  }

  lemma AcceptsTwo(b: Bracket, e: Event, f: Event)
    ensures Accepts(b, [e, f]) <==> Allows(b, e) && Allows(Read(b, e), f)
    ensures ReadAll(b, [e, f]) == Read(Read(b, e), f)
  {
    hide Allows, Read;
    assert [e, f][1..] == [f];
    AcceptsOne(Read(b, e), f);
  }

  // ----- what the automaton accepts --------------------------------------------------------------------------------

  lemma {:induction false} AllowedAt(b: Bracket, events: seq<Event>, i: nat)
    requires Accepts(b, events) && i < |events|
    ensures Allows(ReadAll(b, events[..i]), events[i])
    decreases i
  {
    hide Allows, Read;
    if i > 0 {
      AllowedAt(Read(b, events[0]), events[1..], i - 1);
      assert events[1..][..i - 1] == events[..i][1..];
    }
  }

  lemma {:induction false} ReadKeeps(b: Bracket, events: seq<Event>)
    ensures var r := ReadAll(b, events); (b.ended ==> r.ended) && (b.begun ==> r.begun)
    decreases |events|
  {
    if events != [] {
      ReadKeeps(Read(b, events[0]), events[1..]);
    }
  }

  lemma ReadTo(b: Bracket, events: seq<Event>, i: nat, j: nat)
    requires i < j <= |events|
    ensures ReadAll(b, events[..j]) == ReadAll(Read(ReadAll(b, events[..i]), events[i]), events[i + 1..j])
  {
    hide Read;
    assert events[..j] == events[..i] + [events[i]] + events[i + 1..j];
    AcceptsConcat(b, events[..i] + [events[i]], events[i + 1..j]);
    AcceptsConcat(b, events[..i], [events[i]]);
    AcceptsOne(ReadAll(b, events[..i]), events[i]);
  }

  /** Nothing follows a terminal, so there is at most one and it is last. */
  lemma TerminalIsLast(b: Bracket, events: seq<Event>, i: nat)
    requires Accepts(b, events) && i < |events| && IsTerminal(events[i])
    ensures i == |events| - 1
  {
    if i < |events| - 1 {
      AllowedAt(b, events, i + 1);
      ReadTo(b, events, i, i + 1);
    }
  }

  /** A stream that begins unopened opens first; RUN_STARTED comes nowhere else. */
  lemma StartIsFirst(b: Bracket, events: seq<Event>, i: nat)
    requires Accepts(b, events) && i < |events|
    ensures events[i].RunStarted? <==> i == 0 && !b.begun
  {
    AllowedAt(b, events, 0);
    assert events[..0] == [];
    hide Accepts;
    if i > 0 {
      AllowedAt(b, events, i);
      ReadTo(b, events, 0, i);
      ReadKeeps(Read(ReadAll(b, events[..0]), events[0]), events[1..i]);
    }
  }

  predicate OpensMessage(e: Event, message: nat) {
    (e.TextStart? || e.ReasoningStart?) && e.message == message
  }

  lemma {:induction false} NumbersGrow(b: Bracket, events: seq<Event>)
    requires Accepts(b, events)
    ensures ReadAll(b, events).last >= b.last
    decreases |events|
  {
    if events != [] {
      NumbersGrow(Read(b, events[0]), events[1..]);
    }
  }

  /** No message number is ever opened twice. */
  lemma MessagesAreFresh(b: Bracket, events: seq<Event>, i: nat, j: nat, m: nat)
    requires Accepts(b, events) && i < j < |events| && OpensMessage(events[i], m)
    ensures !OpensMessage(events[j], m)
  {
    AllowedAt(b, events, i);
    AllowedAt(b, events, j);
    ReadTo(b, events, i, j);
    CutTwice(events, i, j);
    hide Allows, Read, ReadAll;
    AcceptsConcat(b, events[..j], events[j..]);
    AcceptsConcat(b, events[..i] + [events[i]], events[i + 1..j]);
    AcceptsConcat(b, events[..i], [events[i]]);
    AcceptsOne(ReadAll(b, events[..i]), events[i]);
    NumbersGrow(Read(ReadAll(b, events[..i]), events[i]), events[i + 1..j]);
    Freshness(ReadAll(b, events[..i]), events[i], ReadAll(b, events[..j]), events[j], m);
  }

  lemma CutTwice(events: seq<Event>, i: nat, j: nat)
    requires i < j <= |events|
    ensures events == events[..j] + events[j..] && events[..j] == events[..i] + [events[i]] + events[i + 1..j]
  {
  }

  lemma Freshness(b: Bracket, e: Event, c: Bracket, f: Event, m: nat)
    requires OpensMessage(e, m) && Allows(c, f) && c.last >= Read(b, e).last
    ensures !OpensMessage(f, m)
  {
  }

  // ----- the projection is accepted --------------------------------------------------------------------------------

  /** The projection and the automaton have seen the same stream. */
  predicate Matches(s: State, b: Bracket) {
    && b == Bracket(s.started, s.finished, s.open, s.messageSeq)
    && (s.finished || !s.open.Nothing? ==> s.started)
    && (s.finished ==> s.open.Nothing?)
  }

  /** Nothing is fed after an ending, and no CUSTOM of its own comes before the start. */
  predicate Legal(s: State, op: Op) {
    match op
    case Push(_) => !s.finished
    case ToolResult(_, _, _) => !s.finished
    case EmitCustom(custom) => !s.finished && s.started && !NeedsNothingOpen(CustomEvent(custom))
    case _ => true
  }

  predicate AllLegal(s: State, ops: seq<Op>)
    decreases |ops|
  {
    ops == [] || (Legal(s, ops[0]) && AllLegal(Step(s, ops[0]).to, ops[1..]))
  }

  /** `d` continues the stream read as `b`. */
  predicate Continues(b: Bracket, d: Done) {
    Accepts(b, d.events) && Matches(d.to, ReadAll(b, d.events))
  }

  lemma StartedContinues(s: State, b: Bracket)
    requires Matches(s, b)
    ensures Continues(b, Started(s))
  {
    AcceptsOne(b, RunStarted);
  }

  lemma ClosesContinue(s: State, b: Bracket)
    requires Matches(s, b) && s.started && !s.finished
    ensures Continues(b, Closed(s))
  {
    if !s.open.Nothing? {
      AcceptsOne(b, Closes(s.open)[0]);
    }
  }

  /** Closing what is open and then one or two frames that fit an empty bracket. */
  lemma AfterClosing(s: State, b: Bracket, last: seq<Event>)
    requires Matches(s, b) && s.started && !s.finished
    ensures Accepts(b, Closes(s.open) + last) <==> Accepts(b.(open := Nothing), last)
    ensures ReadAll(b, Closes(s.open) + last) == ReadAll(b.(open := Nothing), last)
  {
    ClosesContinue(s, b);
    hide Accepts, ReadAll;
    AcceptsConcat(b, Closes(s.open), last);
  }

  lemma TextContinues(s: State, b: Bracket, text: string)
    requires Matches(s, b) && s.started && !s.finished
    ensures Continues(b, PushedText(s, text))
  {
    hide Accepts, ReadAll;
    if s.open.OpenText? {
      AcceptsOne(b, TextContent(s.open.message, text));
    } else {
      var m := s.messageSeq + 1;
      AfterClosing(s, b, [TextStart(m), TextContent(m, text)]);
      AcceptsTwo(b.(open := Nothing), TextStart(m), TextContent(m, text));
    }
  }

  lemma ReasoningContinues(s: State, b: Bracket, text: string)
    requires Matches(s, b) && s.started && !s.finished
    ensures Continues(b, PushedReasoning(s, text))
  {
    hide Accepts, ReadAll;
    if s.open.OpenReasoning? {
      AcceptsOne(b, ReasoningContent(s.open.message, text));
    } else {
      var m := s.messageSeq + 1;
      AfterClosing(s, b, [ReasoningStart(m), ReasoningContent(m, text)]);
      AcceptsTwo(b.(open := Nothing), ReasoningStart(m), ReasoningContent(m, text));
    }
  }

  lemma DeltaContinues(s: State, b: Bracket, delta: Delta)
    requires Matches(s, b) && s.started && !s.finished
    ensures Continues(b, PushedDelta(s, delta))
  {
    hide Accepts, ReadAll, PushedText, PushedReasoning;
    match delta
    case Text(text) => TextContinues(s, b, text);
    case Reasoning(text) => ReasoningContinues(s, b, text);
    case ToolCallStart(id, name) =>
      AfterClosing(s, b, [CallStart(id, name)]);
      AcceptsOne(b.(open := Nothing), CallStart(id, name));
    case ToolCallArgs(id, text) => AcceptsOne(b, CallArgs(id, text));
    case ToolCallEnd(id) => AcceptsOne(b, CallEnd(id));
  }

  /** Opening the run first, when it is not, keeps the rest accepted. */
  lemma FirstContinues(s: State, b: Bracket, d: Done)
    requires Matches(s, b) && Continues(ReadAll(b, Started(s).events), d)
    ensures Continues(b, First(s, d))
  {
    StartedContinues(s, b);
    hide Accepts, ReadAll, Matches, Started;
    AcceptsConcat(b, Started(s).events, d.events);
  }

  lemma {:induction false} CustomsContinue(b: Bracket, names: seq<string>)
    requires b.begun && !b.ended
    ensures Accepts(b, Customs(names)) && ReadAll(b, Customs(names)) == b
  {
    if names != [] {
      assert Customs(names)[1..] == Customs(names[1..]);
      CustomsContinue(b, names[1..]);
    }
  }

  lemma ResultContinues(s: State, b: Bracket, call: string, text: string, customs: seq<string>)
    requires Matches(s, b) && s.started && !s.finished
    ensures Continues(b, Done(s.(open := Nothing), Closes(s.open) + [CallResult(call, text)] + Customs(customs)))
  {
    var free := b.(open := Nothing);
    CustomsContinue(free, customs);
    AcceptsOne(free, CallResult(call, text));
    hide Accepts, ReadAll, Customs;
    AfterClosing(s, b, [CallResult(call, text)]);
    AcceptsConcat(b, Closes(s.open) + [CallResult(call, text)], Customs(customs));
  }

  /** The last frames of a park, a wake or an ending. */
  predicate Last(last: seq<Event>, ends: bool) {
    if ends then (|last| == 1 && IsTerminal(last[0])) ||
      (|last| == 2 && last[0] == CustomEvent(StopNotice) && IsTerminal(last[1]))
    else |last| == 1 && last[0].CustomEvent?
  }

  lemma LastContinues(b: Bracket, last: seq<Event>, ends: bool)
    requires b.begun && !b.ended && b.open.Nothing? && Last(last, ends)
    ensures Accepts(b, last) && ReadAll(b, last) == b.(ended := ends)
  {
    if |last| == 1 {
      AcceptsOne(b, last[0]);
      assert last == [last[0]];
    } else {
      AcceptsTwo(b, last[0], last[1]);
      assert last == [last[0], last[1]];
    }
  }

  lemma UnlessContinues(s: State, b: Bracket, last: seq<Event>, ends: bool)
    requires Matches(s, b) && Last(last, ends)
    ensures Continues(b, Unless(s, last, ends))
  {
    StartedContinues(s, b);
    var begun, c := Started(s).to, ReadAll(b, Started(s).events);
    if begun.finished {
      assert Started(s) == Done(s, []);
    } else {
      hide Accepts, ReadAll;
      AfterClosing(begun, c, last);
      LastContinues(c.(open := Nothing), last, ends);
      FirstContinues(s, b, Done(begun.(open := Nothing, finished := ends), Closes(begun.open) + last));
    }
  }

  lemma StepContinues(s: State, b: Bracket, op: Op)
    requires Matches(s, b) && Legal(s, op)
    ensures Continues(b, Step(s, op))
  {
    StartedContinues(s, b);
    var begun, c := Started(s).to, ReadAll(b, Started(s).events);
    match op
    case Begin =>
    case Push(delta) =>
      DeltaContinues(begun, c, delta);
      FirstContinues(s, b, PushedDelta(begun, delta));
    case ToolResult(call, text, customs) =>
      ResultContinues(begun, c, call, text, customs);
      FirstContinues(s, b,
        Done(begun.(open := Nothing), Closes(begun.open) + [CallResult(call, text)] + Customs(customs)));
    case AwaitApproval(call) => UnlessContinues(s, b, [CustomEvent(Card(call))], false);
    case EmitCustom(custom) => AcceptsOne(b, CustomEvent(custom));
    case WakeBox => UnlessContinues(s, b, [CustomEvent(BoxWaking)], false);
    case FinishBecause(_) =>
    case FailWith(_) =>
    case Finish => UnlessContinues(s, b, [RunFinished(s.finishReason)], true);
    case Stop => UnlessContinues(s, b, [CustomEvent(StopNotice), RunFinished(None)], true);
    case Fail(error) => UnlessContinues(s, b, [RunError(error, s.failCode)], true);
  }

  lemma {:induction false} StepsContinue(s: State, b: Bracket, ops: seq<Op>)
    requires Matches(s, b) && AllLegal(s, ops)
    ensures Continues(b, Steps(s, ops))
    decreases |ops|
  {
    if ops != [] {
      StepContinues(s, b, ops[0]);
      hide Matches, Step, Legal;
      var d := Step(s, ops[0]);
      StepsContinue(d.to, ReadAll(b, d.events), ops[1..]);
      AcceptsConcat(b, d.events, Steps(d.to, ops[1..]).events);
    }
  }

  function Before(s: State): Bracket {
    Bracket(s.started, s.finished, s.open, s.messageSeq)
  }

  /**
   For every sequence of operations that feeds nothing after an ending, from a new run or a resumed one: the whole
   stream is accepted, and what the projection holds open, begun and ended is what the stream says.
   */
  lemma EveryRunIsBracketed(resumed: Option<nat>, ops: seq<Op>)
    requires AllLegal(if resumed.Some? then Resumed(resumed.value) else NEW, ops)
    ensures var s := if resumed.Some? then Resumed(resumed.value) else NEW;
            && Accepts(Before(s), Steps(s, ops).events)
            && ReadAll(Before(s), Steps(s, ops).events) == Before(Steps(s, ops).to)
  {
    var s := if resumed.Some? then Resumed(resumed.value) else NEW;
    StepsContinue(s, Before(s), ops);
  }

  // ----- the replacement of a refused ending -----------------------------------------------------------------------

  /** What an ending is made of: the opening, closes, CUSTOM frames, and a terminal. */
  predicate OfEnding(e: Event) {
    e.RunStarted? || e.TextEnd? || e.ReasoningEnd? || e.CallEnd? || e.CustomEvent? || IsTerminal(e)
  }

  predicate IsEnding(events: seq<Event>) {
    forall i :: 0 <= i < |events| ==> OfEnding(events[i])
  }

  predicate IsClose(e: Event) {
    e.TextEnd? || e.ReasoningEnd? || e.CallEnd?
  }

  function ClosesIn(events: seq<Event>): seq<Event> {
    if events == [] then []
    else if IsClose(events[0]) then [events[0]] + ClosesIn(events[1..])
    else ClosesIn(events[1..])
  }

  lemma {:induction false} StayingReads(b: Bracket, events: seq<Event>)
    requires b.begun && !b.ended && IsEnding(events) && Accepts(b, events)
    ensures Accepts(b, Staying(events)) && ReadAll(b, Staying(events)) == ReadAll(b, events).(ended := false)
    decreases |events|
  {
    if events != [] {
      var e, rest := events[0], events[1..];
      assert OfEnding(e);
      if Stays(e) {
        assert Staying(events)[1..] == Staying(rest);
        StayingReads(Read(b, e), rest);
      } else if IsTerminal(e) {
        TerminalIsLast(b, events, 0);
        assert rest == [];
      } else {
        StayingReads(b, rest);
      }
    }
  }

  lemma {:induction false} StayingKeepsCloses(events: seq<Event>)
    ensures ClosesIn(Staying(events)) == ClosesIn(events)
    ensures forall i :: 0 <= i < |Staying(events)| ==> Stays(Staying(events)[i])
  {
    if events != [] {
      StayingKeepsCloses(events[1..]);
      if Stays(events[0]) {
        assert Staying(events)[1..] == Staying(events[1..]);
      }
    }
  }

  lemma {:induction false} ClosesConcat(xs: seq<Event>, ys: seq<Event>)
    ensures ClosesIn(xs + ys) == ClosesIn(xs) + ClosesIn(ys)
  {
    if xs == [] {
      assert xs + ys == ys;
    } else {
      assert (xs + ys)[1..] == xs[1..] + ys;
      ClosesConcat(xs[1..], ys);
    }
  }

  lemma UnrecordedReads(b: Bracket, refused: seq<Event>, error: string)
    requires b.begun && !b.ended && IsEnding(refused) && Accepts(b, refused) && ReadAll(b, refused).open.Nothing?
    ensures Accepts(b, Unrecorded(refused, error)) && ReadAll(b, Unrecorded(refused, error)).ended
  {
    var last := RunError(error, None);
    StayingReads(b, refused);
    ReadKeeps(b, Staying(refused));
    AcceptsOne(ReadAll(b, Staying(refused)), last);
    hide Accepts, ReadAll;
    AcceptsConcat(b, Staying(refused), [last]);
  }

  /**
   The replacement of a refused ending closes the same brackets and has RUN_ERROR as its one terminal, whatever
   was refused; and it continues the stream the ending did exactly when that run had begun and not ended.
   */
  lemma UnrecordedIsOneEnding(b: Bracket, refused: seq<Event>, error: string)
    ensures var told := Unrecorded(refused, error);
            && ClosesIn(told) == ClosesIn(refused)
            && forall i :: 0 <= i < |told| ==> (IsTerminal(told[i]) <==> i == |told| - 1)
    ensures IsEnding(refused) && Accepts(b, refused) && ReadAll(b, refused).open.Nothing? ==>
              (Accepts(b, Unrecorded(refused, error)) <==> b.begun && !b.ended)
  {
    var told, last := Unrecorded(refused, error), RunError(error, None);
    StayingKeepsCloses(refused);
    ClosesConcat(Staying(refused), [last]);
    assert ClosesIn([last]) == [] by {
      assert [last][1..] == [];
    }
    assert forall i :: 0 <= i < |Staying(refused)| ==> told[i] == Staying(refused)[i];
    if b.begun && !b.ended && IsEnding(refused) && Accepts(b, refused) && ReadAll(b, refused).open.Nothing? {
      UnrecordedReads(b, refused, error);
    } else {
      assert told[0] == last || Stays(told[0]);
    }
  }

  // ----- how a run is closed ---------------------------------------------------------------------------------------

  datatype Ending = EndFinish | EndStop | EndFail(error: string) | EndPark(calls: seq<string>)

  /** A card for each call waiting, then the stream's own closer. */
  function ParkOps(calls: seq<string>): (ops: seq<Op>)
    ensures ops != []
  {
    if calls == [] then [Finish] else [AwaitApproval(calls[0])] + ParkOps(calls[1..])
  }

  function EndOps(ending: Ending): (ops: seq<Op>)
    ensures ops != []
  {
    match ending
    case EndFinish => [Finish]
    case EndStop => [Stop]
    case EndFail(error) => [Fail(error)]
    case EndPark(calls) => ParkOps(calls)
  }

  function LastTerminal(events: seq<Event>): (at: nat)
    ensures at <= |events|
  {
    if events == [] then 0
    else if IsTerminal(events[|events| - 1]) then |events| - 1
    else
      var before := events[..|events| - 1];
      if LastTerminal(before) == |before| then |events| else LastTerminal(before)
  }

  /** A frame put right before the last terminal, or at the end when there is none. */
  function Spliced(events: seq<Event>, extra: Event): seq<Event> {
    events[..LastTerminal(events)] + [extra] + events[LastTerminal(events)..]
  }

  /** An ending as it is handed on: its own frames, with the run's timing spliced in unless there are none. */
  function Closing(s: State, ending: Ending): seq<Event> {
    var events := Steps(s, EndOps(ending)).events;
    if events == [] then events else Spliced(events, CustomEvent(Timing))
  }

  predicate EndsRun(op: Op) {
    op.Finish? || op.Stop? || op.Fail?
  }

  lemma EndStepIsEnding(s: State, op: Op)
    requires EndsRun(op) || op.AwaitApproval?
    ensures IsEnding(Step(s, op).events) && (EndsRun(op) ==> Step(s, op).to.finished)
    ensures op.AwaitApproval? ==> Step(s, op).to.finished == s.finished
    ensures !s.finished ==> Step(s, op).events != []
  {
  }

  lemma EndingConcat(xs: seq<Event>, ys: seq<Event>)
    requires IsEnding(xs) && IsEnding(ys)
    ensures IsEnding(xs + ys)
  {
    hide OfEnding;
  }

  lemma OneOp(s: State, op: Op)
    ensures Steps(s, [op]) == Step(s, op)
  {
    hide Step;
    assert [op][1..] == [];
    assert Step(s, op).events + [] == Step(s, op).events;
  }

  lemma {:induction false} ParkIsEnding(s: State, calls: seq<string>)
    ensures var d := Steps(s, ParkOps(calls));
            AllLegal(s, ParkOps(calls)) && IsEnding(d.events) && d.to.finished && (!s.finished ==> d.events != [])
    decreases |calls|
  {
    if calls == [] {
      OneOp(s, Finish);
      EndStepIsEnding(s, Finish);
      assert [Finish][1..] == [];
      assert AllLegal(Step(s, Finish).to, []);
    } else {
      hide IsEnding, Step;
      var ops, card := ParkOps(calls), AwaitApproval(calls[0]);
      assert ops[1..] == ParkOps(calls[1..]);
      EndStepIsEnding(s, card);
      ParkIsEnding(Step(s, card).to, calls[1..]);
      EndingConcat(Step(s, card).events, Steps(Step(s, card).to, ops[1..]).events);
    }
  }

  lemma EndOpsEnd(s: State, ending: Ending)
    ensures var d := Steps(s, EndOps(ending));
            AllLegal(s, EndOps(ending)) && IsEnding(d.events) && d.to.finished && (!s.finished ==> d.events != [])
  {
    if ending.EndPark? {
      ParkIsEnding(s, ending.calls);
    } else {
      var op := EndOps(ending)[0];
      assert EndOps(ending) == [op] && [op][1..] == [];
      OneOp(s, op);
      EndStepIsEnding(s, op);
      assert AllLegal(Step(s, op).to, []);
    }
  }

  /** An accepted stream that ends the run has its terminal last, so a splice lands right before it. */
  lemma SplicedBeforeTheEnd(b: Bracket, events: seq<Event>, extra: Event)
    requires Accepts(b, events) && !b.ended && ReadAll(b, events).ended
    ensures events != [] && Spliced(events, extra) == events[..|events| - 1] + [extra] + [events[|events| - 1]]
    ensures !ReadAll(b, events[..|events| - 1]).ended && IsTerminal(events[|events| - 1])
  {
    var most, last := events[..|events| - 1], events[|events| - 1];
    assert events == most + [last];
    AllowedAt(b, events, |most|);
    AcceptsConcat(b, most, [last]);
    AcceptsOne(ReadAll(b, most), last);
  }

  lemma TimingIsAllowed(b: Bracket, most: seq<Event>, last: Event)
    requires Accepts(b, most) && Allows(ReadAll(b, most), last) && IsTerminal(last)
    ensures Accepts(b, most + [CustomEvent(Timing)] + [last])
    ensures ReadAll(b, most + [CustomEvent(Timing)] + [last]) == Read(ReadAll(b, most), last)
  {
    var c := ReadAll(b, most);
    AcceptsOne(c, CustomEvent(Timing));
    AcceptsOne(c, last);
    hide Accepts, ReadAll;
    AcceptsConcat(b, most, [CustomEvent(Timing)]);
    AcceptsConcat(b, most + [CustomEvent(Timing)], [last]);
  }

  /**
   However a run that has not ended is closed, its parks of several cards and its spliced timing included: what is
   handed on is an ending, accepted, that leaves nothing open and the run ended; and if the log refuses it, what
   replaces it is accepted in its place, once the run has begun.
   */
  lemma EveryClosingIsAnEnding(s: State, b: Bracket, ending: Ending, error: string)
    requires Matches(s, b) && !s.finished
    ensures var closing := Closing(s, ending);
            && IsEnding(closing) && Accepts(b, closing) && ReadAll(b, closing).open.Nothing? &&
                 ReadAll(b, closing).ended
            && (Accepts(b, Unrecorded(closing, error)) <==> s.started)
  {
    var d := Steps(s, EndOps(ending));
    EndOpsEnd(s, ending);
    StepsContinue(s, b, EndOps(ending));
    hide Steps, EndOps, AllLegal, Accepts, ReadAll, IsEnding;
    SplicedEnds(b, d.events);
    UnrecordedIsOneEnding(b, Closing(s, ending), error);
  }

  /** An ending with its timing spliced in is accepted, and ends the run as it did. */
  lemma SplicedEnds(b: Bracket, events: seq<Event>)
    requires Accepts(b, events) && !b.ended && ReadAll(b, events).ended && IsEnding(events)
    ensures var spliced := Spliced(events, CustomEvent(Timing));
            && events != [] && IsEnding(spliced) && Accepts(b, spliced)
            && ReadAll(b, spliced) == ReadAll(b, events)
  {
    SplicedBeforeTheEnd(b, events, CustomEvent(Timing));
    hide Accepts, ReadAll, IsEnding, Spliced;
    var most, last := events[..|events| - 1], events[|events| - 1];
    assert events == most + [last];
    AcceptsConcat(b, most, [last]);
    AcceptsOne(ReadAll(b, most), last);
    TimingIsAllowed(b, most, last);
    SplicedIsEnding(most, last);
  }

  lemma SplicedIsEnding(most: seq<Event>, last: Event)
    requires IsEnding(most + [last])
    ensures IsEnding(most + [CustomEvent(Timing)] + [last])
  {
    var all, spliced := most + [last], most + [CustomEvent(Timing)] + [last];
    forall i | 0 <= i < |spliced| ensures OfEnding(spliced[i]) {
      assert i < |most| ==> spliced[i] == all[i];
      assert i == |most| + 1 ==> spliced[i] == all[|most|];
    }
  }

  // ----- nothing fed is lost ---------------------------------------------------------------------------------------

  /** What an event carries: text, reasoning, a call's start, arguments or result. */
  datatype Carried = CText(text: string) | CReasoning(text: string) | CStart(call: string, text: string)
      | CArgs(call: string, text: string) | CResult(call: string, text: string)

  function CarriedBy(e: Event): seq<Carried> {
    match e
    case TextContent(_, text) => [CText(text)]
    case ReasoningContent(_, text) => [CReasoning(text)]
    case CallStart(c, name) => [CStart(c, name)]
    case CallArgs(c, text) => [CArgs(c, text)]
    case CallResult(c, text) => [CResult(c, text)]
    case _ => []
  }

  function CarriedAll(events: seq<Event>): seq<Carried> {
    if events == [] then [] else CarriedBy(events[0]) + CarriedAll(events[1..])
  }

  function FedBy(op: Op): seq<Carried> {
    match op
    case Push(Text(text)) => [CText(text)]
    case Push(Reasoning(text)) => [CReasoning(text)]
    case Push(ToolCallStart(id, name)) => [CStart(id, name)]
    case Push(ToolCallArgs(id, text)) => [CArgs(id, text)]
    case ToolResult(call, text, _) => [CResult(call, text)]
    case _ => []
  }

  function Fed(ops: seq<Op>): seq<Carried> {
    if ops == [] then [] else FedBy(ops[0]) + Fed(ops[1..])
  }

  lemma {:induction false} CarriedConcat(xs: seq<Event>, ys: seq<Event>)
    ensures CarriedAll(xs + ys) == CarriedAll(xs) + CarriedAll(ys)
  {
    hide CarriedBy;
    if xs == [] {
      assert xs + ys == ys;
    } else {
      assert (xs + ys)[1..] == xs[1..] + ys;
      CarriedConcat(xs[1..], ys);
    }
  }

  lemma CarriedOne(e: Event)
    ensures CarriedAll([e]) == CarriedBy(e)
  {
    assert [e][1..] == [];
  }

  lemma {:induction false} CustomsCarryNothing(names: seq<string>)
    ensures CarriedAll(Customs(names)) == []
  {
    if names != [] {
      assert Customs(names)[1..] == Customs(names[1..]);
      CustomsCarryNothing(names[1..]);
    }
  }

  lemma ClosesCarryNothing(open: Open)
    ensures CarriedAll(Closes(open)) == []
  {
    if !open.Nothing? {
      CarriedOne(Closes(open)[0]);
    }
  }

  lemma CarriedTwo(e: Event, f: Event)
    ensures CarriedAll([e, f]) == CarriedBy(e) + CarriedBy(f)
  {
    assert [e, f] == [e] + [f];
    CarriedConcat([e], [f]);
    CarriedOne(e);
    CarriedOne(f);
  }

  lemma DeltaCarries(s: State, delta: Delta)
    ensures CarriedAll(PushedDelta(s, delta).events) == FedBy(Push(delta))
  {
    hide CarriedAll, Closes;
    ClosesCarryNothing(s.open);
    var m := s.messageSeq + 1;
    match delta
    case Text(text) =>
      if s.open.OpenText? {
        CarriedOne(TextContent(s.open.message, text));
      } else {
        CarriedConcat(Closes(s.open), [TextStart(m), TextContent(m, text)]);
        CarriedTwo(TextStart(m), TextContent(m, text));
      }
    case Reasoning(text) =>
      if s.open.OpenReasoning? {
        CarriedOne(ReasoningContent(s.open.message, text));
      } else {
        CarriedConcat(Closes(s.open), [ReasoningStart(m), ReasoningContent(m, text)]);
        CarriedTwo(ReasoningStart(m), ReasoningContent(m, text));
      }
    case ToolCallStart(id, name) =>
      CarriedConcat(Closes(s.open), [CallStart(id, name)]);
      CarriedOne(CallStart(id, name));
    case ToolCallArgs(id, text) => CarriedOne(CallArgs(id, text));
    case ToolCallEnd(id) => CarriedOne(CallEnd(id));
  }

  lemma FirstCarries(s: State, d: Done)
    ensures CarriedAll(First(s, d).events) == CarriedAll(d.events)
  {
    CarriedConcat(Started(s).events, d.events);
    CarriedOne(RunStarted);
  }

  lemma UnlessCarries(s: State, last: seq<Event>, ends: bool)
    requires CarriedAll(last) == []
    ensures CarriedAll(Unless(s, last, ends).events) == []
  {
    var begun := Started(s).to;
    hide CarriedAll, Closes;
    if begun.finished {
      CarriedNone();
    } else {
      ClosesCarryNothing(begun.open);
      CarriedConcat(Closes(begun.open), last);
      FirstCarries(s, Done(begun.(open := Nothing, finished := ends), Closes(begun.open) + last));
    }
  }

  lemma CarriedNone()
    ensures CarriedAll([]) == []
  {
  }

  lemma ResultCarries(s: State, call: string, text: string, customs: seq<string>)
    ensures CarriedAll(Resulted(s, call, text, customs).events) == [CResult(call, text)]
  {
    var begun := Started(s).to;
    hide CarriedAll, Closes, Customs;
    ClosesCarryNothing(begun.open);
    CustomsCarryNothing(customs);
    CarriedOne(CallResult(call, text));
    CarriedConcat(Closes(begun.open), [CallResult(call, text)]);
    CarriedConcat(Closes(begun.open) + [CallResult(call, text)], Customs(customs));
    FirstCarries(s, Done(begun.(open := Nothing), Closes(begun.open) + [CallResult(call, text)] + Customs(customs)));
  }

  lemma StepCarries(s: State, op: Op)
    ensures CarriedAll(Step(s, op).events) == FedBy(op)
  {
    hide CarriedAll, Unless, Resulted, PushedDelta;
    CarriedNone();
    match op
    case Begin => CarriedOne(RunStarted);
    case Push(delta) =>
      DeltaCarries(Started(s).to, delta);
      FirstCarries(s, PushedDelta(Started(s).to, delta));
    case ToolResult(call, text, customs) => ResultCarries(s, call, text, customs);
    case AwaitApproval(call) =>
      CarriedOne(CustomEvent(Card(call)));
      UnlessCarries(s, [CustomEvent(Card(call))], false);
    case EmitCustom(custom) => CarriedOne(CustomEvent(custom));
    case WakeBox =>
      CarriedOne(CustomEvent(BoxWaking));
      UnlessCarries(s, [CustomEvent(BoxWaking)], false);
    case Finish =>
      CarriedOne(RunFinished(s.finishReason));
      UnlessCarries(s, [RunFinished(s.finishReason)], true);
    case Stop =>
      CarriedTwo(CustomEvent(StopNotice), RunFinished(None));
      UnlessCarries(s, [CustomEvent(StopNotice), RunFinished(None)], true);
    case Fail(error) =>
      CarriedOne(RunError(error, s.failCode));
      UnlessCarries(s, [RunError(error, s.failCode)], true);
    case _ =>
  }

  /** Every text, thought, call and result fed is in the stream, once, in order, and nothing else of theirs is. */
  lemma {:induction false} NothingFedIsLost(s: State, ops: seq<Op>)
    ensures CarriedAll(Steps(s, ops).events) == Fed(ops)
    decreases |ops|
  {
    hide Step, FedBy;
    if ops != [] {
      var d := Step(s, ops[0]);
      StepCarries(s, ops[0]);
      NothingFedIsLost(d.to, ops[1..]);
      CarriedConcat(d.events, Steps(d.to, ops[1..]).events);
    }
  }
}
