/**
 The journal's write: what one batch of frames appends to a run's log.

 `Batch` is one attempt, decided on the run as read; `DecideBatch` is the loop that computes it, mutating
 the run as it goes. The store then appends it only at the seq that was read (module `RunWriters`).
 */
module RunJournal {
  import opened Common
  import opened Run
  import opened RunLog

  datatype AppendError = Refused(error: RunError) | Ended | Fenced

  datatype RoundSpent = RoundSpent(recipes: seq<string>, round: Option<RoundKind>) {
    predicate IsEmpty() {
      recipes == [] && round.None?
    }
  }

  /** The two things `Batch` needs of the loop that writes: its generation, and the Start it would open a run with. */
  datatype Journal = Journal(generation: nat, start: Command)

  function ApplyAll(run: RunState, events: seq<Event>): RunState
    decreases |events|
  {
    if events == [] then run else ApplyAll(Apply(run, events[0]), events[1..])
  }

  /** Each event is allowed by the run the ones before it left. */
  predicate AllowedAll(run: RunState, events: seq<Event>)
    decreases |events|
  {
    events == [] || (Allowed(run, events[0]) && AllowedAll(Apply(run, events[0]), events[1..]))
  }

  predicate Parks(frames: seq<Frame>) {
    exists i :: 0 <= i < |frames| && frames[i].Card?
  }

  /** The suspension a frame records: a card that names its call. */
  function CardEvents(frame: Frame): seq<Event> {
    if frame.Card? && frame.call.callId != "" then [Suspended(frame.call)] else []
  }

  function OkEvents(decided: Result<seq<Event>, RunError>): seq<Event> {
    if decided.Ok? then decided.value else []
  }

  /** The run's own ending, from the frame that carries it: none while the run waits on a card. */
  function ClosingEvents(run: RunState, frame: Frame): seq<Event> {
    match frame
    case FinishedFrame(reason) => if run.status.AwaitingApproval? then [] else OkEvents(Decide(run, Finish(reason)))
    case ErrorFrame(message) => OkEvents(Decide(run, Fail(message)))
    case _ => []
  }

  /** What one frame appends, once the run takes it. */
  function FrameEvents(run: RunState, frame: Frame): seq<Event> {
    var emitted := [Emitted(|run.emitted|, frame)];
    var carded := emitted + CardEvents(frame);
    carded + ClosingEvents(ApplyAll(run, carded), frame)
  }

  predicate TakesFrames(run: RunState) {
    Decide(run, Emit(OtherFrame(""))).Ok?
  }

  function Walk(run: RunState, frames: seq<Frame>, parks: bool): Result<seq<Event>, AppendError>
    decreases |frames|
  {
    if frames == [] then Ok([])
    else if !TakesFrames(run) then (if parks then Err(Ended) else Ok([]))
    else if CardEvents(frames[0]) != [] && run.status.Terminal() then Err(Ended)
    else
      var events := FrameEvents(run, frames[0]);
      match Walk(ApplyAll(run, events), frames[1..], parks)
      case Ok(rest) => Ok(events + rest)
      case Err(error) => Err(error)
  }

  function Opening(journal: Journal, run: RunState): Result<seq<Event>, RunError> {
    if run.started then Ok([]) else Decide(run, journal.start)
  }

  function SpentEvents(run: RunState, spent: RoundSpent): seq<Event> {
    if spent.IsEmpty() then [] else OkEvents(Decide(run, RecordSpent(spent.recipes, spent.round)))
  }

  function Batch(journal: Journal, run: RunState, frames: seq<Frame>, spent: RoundSpent)
    : Result<seq<Event>, AppendError>
  {
    if frames == [] then Ok([])
    else if run.started && run.generation != journal.generation then Err(Fenced)
    else
      match Opening(journal, run)
      case Err(error) => Err(Refused(error))
      case Ok(opening) =>
        var begun := ApplyAll(run, opening);
        var recorded := SpentEvents(begun, spent);
        match Walk(ApplyAll(begun, recorded), frames, Parks(frames))
        case Ok(walked) => Ok(opening + recorded + walked)
        case Err(error) => Err(error)
  }

  datatype Taken = NotTaken | NoCard | Took(events: seq<Event>, after: RunState)

  /** One frame: emit it, suspend on its card, and write the ending it carries. */
  method TakeFrame(before: RunState, frame: Frame) returns (taken: Taken)
    ensures taken == if !TakesFrames(before) then NotTaken
                     else if CardEvents(frame) != [] && before.status.Terminal() then NoCard
                     else Took(FrameEvents(before, frame), ApplyAll(before, FrameEvents(before, frame)))
  {
    var emit := Decide(before, Emit(frame));
    if emit.Err? {
      return NotTaken;
    }
    ApplyAllOne(before, emit.value[0]);
    var run, events := ApplyAll(before, emit.value), emit.value;
    if frame.Card? && frame.call.callId != "" {
      var suspended := Decide(run, Suspend(frame.call));
      if suspended.Err? {
        return NoCard;
      }
      ApplyAllConcat(before, events, suspended.value);
      run, events := ApplyAll(run, suspended.value), events + suspended.value;
    }
    assert events == [Emitted(|before.emitted|, frame)] + CardEvents(frame);
    var closing := ClosingEvents(run, frame);
    ApplyAllConcat(before, events, closing);
    taken := Took(events + closing, ApplyAll(run, closing));
  }

  // ----- the loop ----------------------------------------------------------------------------------

  method DecideBatch(journal: Journal, read: RunState, frames: seq<Frame>, spent: RoundSpent)
    returns (batch: Result<seq<Event>, AppendError>)
    requires journal.start.Start?
    ensures batch == Batch(journal, read, frames, spent)
  {
    hide FrameEvents, TakesFrames, CardEvents, Decide, Parks, Apply;
    if frames == [] {
      return Ok([]);
    }
    var run := read;
    if run.started && run.generation != journal.generation {
      return Err(Fenced);
    }
    var toAppend: seq<Event> := [];
    if !run.started {
      var started := Decide(run, journal.start);
      if started.Err? {
        return Err(Refused(started.error));
      }
      run, toAppend := ApplyAll(run, started.value), started.value;
    }
    var parks := Parks(frames);
    ghost var opening, begun := toAppend, run;
    if !spent.IsEmpty() {
      var recorded := Decide(run, RecordSpent(spent.recipes, spent.round));
      if recorded.Ok? {
        run, toAppend := ApplyAll(run, recorded.value), toAppend + recorded.value;
      }
    }
    ghost var ahead, first := toAppend, run;
    assert ahead == opening + SpentEvents(begun, spent) && first == ApplyAll(begun, SpentEvents(begun, spent));
    var walked: seq<Event> := [];
    var i := 0;
    assert frames[0..] == frames;
    PrependNothing(Walk(first, frames, parks));
    while i < |frames|
      invariant 0 <= i <= |frames|
      invariant Walk(first, frames, parks) == Prepend(walked, Walk(run, frames[i..], parks))
    {
      var frame := frames[i];
      assert frames[i..][0] == frame && frames[i..][1..] == frames[i + 1..];
      var taken := TakeFrame(run, frame);
      if taken.NotTaken? {
        if parks {
          return Err(Ended);
        }
        assert walked + [] == walked;
        break;
      }
      if taken.NoCard? {
        return Err(Ended);
      }
      var events := taken.events;
      run := taken.after;
      PrependTwice(walked, events, Walk(run, frames[i + 1..], parks));
      walked := walked + events;
      i := i + 1;
    }
    assert walked + [] == walked;
    assert Walk(first, frames, parks) == Ok(walked);
    assert opening + SpentEvents(begun, spent) + walked == toAppend + walked;
    batch := Ok(toAppend + walked);
  }

  function Prepend(events: seq<Event>, rest: Result<seq<Event>, AppendError>): Result<seq<Event>, AppendError> {
    if rest.Ok? then Ok(events + rest.value) else rest
  }

  lemma PrependNothing(rest: Result<seq<Event>, AppendError>)
    ensures Prepend([], rest) == rest
  {
    if rest.Ok? {
      assert [] + rest.value == rest.value;
    }
  }

  lemma PrependTwice(a: seq<Event>, b: seq<Event>, rest: Result<seq<Event>, AppendError>)
    ensures Prepend(a + b, rest) == Prepend(a, Prepend(b, rest))
  {
    if rest.Ok? {
      assert a + b + rest.value == a + (b + rest.value);
    }
  }

  // ----- the fold over a batch -----------------------------------------------------------------------

  lemma ApplyAllOne(run: RunState, e: Event)
    ensures ApplyAll(run, [e]) == Apply(run, e)
  {
    assert [e][1..] == [];
    assert ApplyAll(Apply(run, e), []) == Apply(run, e);
  }

  lemma {:induction false} ApplyAllConcat(run: RunState, a: seq<Event>, b: seq<Event>)
    ensures ApplyAll(run, a + b) == ApplyAll(ApplyAll(run, a), b)
    decreases |a|
  {
    if a == [] {
      assert a + b == b;
    } else {
      assert (a + b)[0] == a[0] && (a + b)[1..] == a[1..] + b;
      ApplyAllConcat(Apply(run, a[0]), a[1..], b);
    }
  }

  lemma {:induction false} ReplayAppend(log: seq<Event>, events: seq<Event>)
    ensures Replay(log + events) == ApplyAll(Replay(log), events)
    decreases |events|
  {
    if events == [] {
      assert log + events == log;
    } else {
      var longer := log + [events[0]];
      assert longer[..|longer| - 1] == log;
      assert log + events == longer + events[1..];
      ReplayAppend(longer, events[1..]);
    }
  }

  lemma {:induction false} AllowedAllConcat(run: RunState, a: seq<Event>, b: seq<Event>)
    requires AllowedAll(run, a) && AllowedAll(ApplyAll(run, a), b)
    ensures AllowedAll(run, a + b)
    decreases |a|
  {
    if a == [] {
      assert a + b == b;
    } else {
      assert (a + b)[0] == a[0] && (a + b)[1..] == a[1..] + b;
      AllowedAllConcat(Apply(run, a[0]), a[1..], b);
    }
  }

  /** Appending events each allowed in turn keeps a log accepted. */
  lemma {:induction false} AcceptedAppend(log: seq<Event>, events: seq<Event>)
    requires Accepted(log) && AllowedAll(Replay(log), events)
    ensures Accepted(log + events)
    decreases |events|
  {
    hide Accepted, Allowed, Apply;
    if events == [] {
      assert log + events == log;
    } else {
      var longer := log + [events[0]];
      assert longer[..|longer| - 1] == log;
      assert log + events == longer + events[1..];
      AcceptedSnoc(log, events[0]);
      AcceptedAppend(longer, events[1..]);
    }
  }

  /** Whatever is decided is allowed. */
  lemma DecidedIsAllowed(run: RunState, command: Command)
    requires Decide(run, command).Ok?
    ensures |Decide(run, command).value| == 1 && AllowedAll(run, Decide(run, command).value)
  {
    var events := Decide(run, command).value;
    assert events[1..] == [];
    assert events == [events[0]];
    DecidableIffAllowed(run, events[0]);
  }

  lemma OkEventsAllowed(run: RunState, command: Command)
    ensures AllowedAll(run, OkEvents(Decide(run, command)))
  {
    if Decide(run, command).Ok? {
      DecidedIsAllowed(run, command);
    }
  }

  lemma FrameEventsAllowed(run: RunState, frame: Frame)
    requires TakesFrames(run) && (CardEvents(frame) != [] ==> !run.status.Terminal())
    ensures AllowedAll(run, FrameEvents(run, frame))
  {
    var emitted := [Emitted(|run.emitted|, frame)];
    assert Decide(run, Emit(frame)) == Ok(emitted);
    DecidedIsAllowed(run, Emit(frame));
    var carded := emitted + CardEvents(frame);
    ApplyAllOne(run, emitted[0]);
    if CardEvents(frame) != [] {
      assert Decide(ApplyAll(run, emitted), Suspend(frame.call)).Ok?;
      DecidedIsAllowed(ApplyAll(run, emitted), Suspend(frame.call));
    }
    AllowedAllConcat(run, emitted, CardEvents(frame));
    var after := ApplyAll(run, carded);
    match frame {
      case FinishedFrame(reason) => OkEventsAllowed(after, Finish(reason));
      case ErrorFrame(message) => OkEventsAllowed(after, Fail(message));
      case _ =>
    }
    AllowedAllConcat(run, carded, ClosingEvents(after, frame));
  }

  lemma {:induction false} WalkAllowed(run: RunState, frames: seq<Frame>, parks: bool)
    ensures Walk(run, frames, parks).Ok? ==> AllowedAll(run, Walk(run, frames, parks).value)
    decreases |frames|
  {
    if Walk(run, frames, parks).Ok? && frames != [] && TakesFrames(run) {
      var events := FrameEvents(run, frames[0]);
      FrameEventsAllowed(run, frames[0]);
      WalkAllowed(ApplyAll(run, events), frames[1..], parks);
      AllowedAllConcat(run, events, Walk(ApplyAll(run, events), frames[1..], parks).value);
    }
  }

  /** Every batch the journal decides keeps the log accepted. */
  lemma BatchAllowed(journal: Journal, run: RunState, frames: seq<Frame>, spent: RoundSpent)
    ensures Batch(journal, run, frames, spent).Ok? ==> AllowedAll(run, Batch(journal, run, frames, spent).value)
  {
    if Batch(journal, run, frames, spent).Ok? && frames != [] {
      var opening := Opening(journal, run).value;
      if !run.started {
        DecidedIsAllowed(run, journal.start);
      }
      var begun := ApplyAll(run, opening);
      var recorded := SpentEvents(begun, spent);
      OkEventsAllowed(begun, RecordSpent(spent.recipes, spent.round));
      AllowedAllConcat(run, opening, recorded);
      ApplyAllConcat(run, opening, recorded);
      WalkAllowed(ApplyAll(begun, recorded), frames, Parks(frames));
      AllowedAllConcat(run, opening + recorded, Walk(ApplyAll(begun, recorded), frames, Parks(frames)).value);
    }
  }

  // ----- a parking batch ----------------------------------------------------------

  function EmittedOf(events: seq<Event>): seq<Frame> {
    if events == [] then []
    else if events[0].Emitted? then [events[0].payload] + EmittedOf(events[1..])
    else EmittedOf(events[1..])
  }

  function SuspendedOf(events: seq<Event>): seq<PendingApproval> {
    if events == [] then []
    else if events[0].Suspended? then [events[0].call] + SuspendedOf(events[1..])
    else SuspendedOf(events[1..])
  }

  /** The calls a batch's cards ask about. */
  function CardsOf(frames: seq<Frame>): seq<PendingApproval> {
    if frames == [] then []
    else if frames[0].Card? && frames[0].call.callId != "" then [frames[0].call] + CardsOf(frames[1..])
    else CardsOf(frames[1..])
  }

  lemma {:induction false} EmittedOfConcat(a: seq<Event>, b: seq<Event>)
    ensures EmittedOf(a + b) == EmittedOf(a) + EmittedOf(b)
  {
    if a == [] {
      assert a + b == b;
    } else {
      assert (a + b)[1..] == a[1..] + b;
      EmittedOfConcat(a[1..], b);
    }
  }

  lemma {:induction false} SuspendedOfConcat(a: seq<Event>, b: seq<Event>)
    ensures SuspendedOf(a + b) == SuspendedOf(a) + SuspendedOf(b)
  {
    if a == [] {
      assert a + b == b;
    } else {
      assert (a + b)[1..] == a[1..] + b;
      SuspendedOfConcat(a[1..], b);
    }
  }

  /** What the frames and the suspensions of a write are, taken apart. */
  lemma SaysConcat(a: seq<Event>, b: seq<Event>)
    ensures EmittedOf(a + b) == EmittedOf(a) + EmittedOf(b)
    ensures SuspendedOf(a + b) == SuspendedOf(a) + SuspendedOf(b)
  {
    EmittedOfConcat(a, b);
    SuspendedOfConcat(a, b);
  }

  lemma SaysOne(e: Event)
    ensures EmittedOf([e]) == if e.Emitted? then [e.payload] else []
    ensures SuspendedOf([e]) == if e.Suspended? then [e.call] else []
  {
    assert [e][1..] == [];
  }

  lemma ClosingSays(run: RunState, frame: Frame)
    ensures EmittedOf(ClosingEvents(run, frame)) == [] && SuspendedOf(ClosingEvents(run, frame)) == []
  {
    var closing := ClosingEvents(run, frame);
    if closing != [] {
      assert closing == [closing[0]];
      SaysOne(closing[0]);
    }
  }

  lemma FrameEventsSay(run: RunState, frame: Frame)
    ensures EmittedOf(FrameEvents(run, frame)) == [frame]
    ensures SuspendedOf(FrameEvents(run, frame)) == CardsOf([frame])
  {
    hide ApplyAll, ClosingEvents, EmittedOf, SuspendedOf;
    var emitted := Emitted(|run.emitted|, frame);
    var carded := [emitted] + CardEvents(frame);
    SaysConcat([emitted], CardEvents(frame));
    SaysConcat(carded, ClosingEvents(ApplyAll(run, carded), frame));
    SaysOne(emitted);
    CardSays(frame);
    ClosingSays(ApplyAll(run, carded), frame);
  }

  lemma CardSays(frame: Frame)
    ensures EmittedOf(CardEvents(frame)) == [] && SuspendedOf(CardEvents(frame)) == CardsOf([frame])
  {
    assert [frame][1..] == [];
    SaysOne(Suspended(if frame.Card? then frame.call else PendingApproval("", "", "", UserForm)));
  }

  lemma {:induction false} WalkTakesAll(run: RunState, frames: seq<Frame>)
    requires Walk(run, frames, true).Ok?
    ensures EmittedOf(Walk(run, frames, true).value) == frames
    ensures SuspendedOf(Walk(run, frames, true).value) == CardsOf(frames)
    decreases |frames|
  {
    if frames != [] {
      var events := FrameEvents(run, frames[0]);
      var rest := Walk(ApplyAll(run, events), frames[1..], true).value;
      FrameEventsSay(run, frames[0]);
      WalkTakesAll(ApplyAll(run, events), frames[1..]);
      SaysConcat(events, rest);
      assert frames == [frames[0]] + frames[1..];
      assert CardsOf([frames[0]]) + CardsOf(frames[1..]) == CardsOf(frames) by {
        assert [frames[0]][1..] == [];
      }
    }
  }

  lemma OpeningSays(journal: Journal, run: RunState)
    requires journal.start.Start? && Opening(journal, run).Ok?
    ensures EmittedOf(Opening(journal, run).value) == [] && SuspendedOf(Opening(journal, run).value) == []
  {
    var opening := Opening(journal, run).value;
    assert opening != [] ==> opening[1..] == [];
  }

  lemma SpentSays(run: RunState, spent: RoundSpent)
    ensures EmittedOf(SpentEvents(run, spent)) == [] && SuspendedOf(SpentEvents(run, spent)) == []
  {
    var recorded := SpentEvents(run, spent);
    assert recorded != [] ==> recorded[1..] == [];
  }

  /** A batch that parks is written whole: every frame, and a suspension for every card it shows. */
  lemma ParkIsAllOrNothing(journal: Journal, run: RunState, frames: seq<Frame>, spent: RoundSpent)
    requires journal.start.Start? && Parks(frames) && Batch(journal, run, frames, spent).Ok?
    ensures EmittedOf(Batch(journal, run, frames, spent).value) == frames
    ensures SuspendedOf(Batch(journal, run, frames, spent).value) == CardsOf(frames)
  {
    hide Opening, SpentEvents, Walk, ApplyAll, EmittedOf, SuspendedOf, CardsOf;
    var opening := Opening(journal, run).value;
    var begun := ApplyAll(run, opening);
    var recorded := SpentEvents(begun, spent);
    var walked := Walk(ApplyAll(begun, recorded), frames, true).value;
    OpeningSays(journal, run);
    SpentSays(begun, spent);
    WalkTakesAll(ApplyAll(begun, recorded), frames);
    SaysConcat(opening, recorded);
    SaysConcat(opening + recorded, walked);
  }

  /** A frame that neither opens a card nor carries an ending. */
  predicate Quiet(frame: Frame) {
    frame.ToolResult? || frame.OtherFrame?
  }

  lemma QuietFrameKeepsStatus(run: RunState, frame: Frame)
    requires Quiet(frame)
    ensures FrameEvents(run, frame) == [Emitted(|run.emitted|, frame)]
    ensures ApplyAll(run, FrameEvents(run, frame)) == Apply(run, Emitted(|run.emitted|, frame))
  {
    ApplyAllOne(run, Emitted(|run.emitted|, frame));
  }

  lemma CardSuspends(run: RunState, call: PendingApproval)
    requires call.callId != ""
    ensures var after := ApplyAll(run, FrameEvents(run, Card(call)));
            after.started == run.started && after.status.AwaitingApproval? && after.pending == Some(call)
  {
    var emitted := [Emitted(|run.emitted|, Card(call))];
    ApplyAllConcat(run, emitted, [Suspended(call)]);
    ApplyAllOne(run, emitted[0]);
    ApplyAllOne(Apply(run, emitted[0]), Suspended(call));
    assert FrameEvents(run, Card(call)) == emitted + [Suspended(call)];
  }

  /** The frames a park writes: what the round said, a card for each call waiting, and the stream's closer. */
  function ParkFrames(body: seq<Frame>, cards: seq<PendingApproval>): seq<Frame> {
    if body != [] then [body[0]] + ParkFrames(body[1..], cards)
    else if cards != [] then [Card(cards[0])] + ParkFrames([], cards[1..])
    else [FinishedFrame(None)]
  }

  predicate Parked(run: RunState, events: seq<Event>, call: PendingApproval) {
    ApplyAll(run, events).status.AwaitingApproval? && ApplyAll(run, events).pending == Some(call)
  }

  lemma {:induction false} WalkCloses(run: RunState, cards: seq<PendingApproval>, last: PendingApproval)
    requires run.started && run.status.AwaitingApproval? && run.pending == Some(last)
    requires forall i :: 0 <= i < |cards| ==> cards[i].callId != ""
    ensures var walked := Walk(run, ParkFrames([], cards), true);
            walked.Ok? && Parked(run, walked.value, if cards == [] then last else cards[|cards| - 1])
    decreases |cards|
  {
    var frames := ParkFrames([], cards);
    var events := FrameEvents(run, frames[0]);
    if cards == [] {
      ApplyAllOne(run, Emitted(|run.emitted|, frames[0]));
      assert frames[1..] == [] && events == [Emitted(|run.emitted|, frames[0])];
      assert events + [] == events;
    } else {
      CardSuspends(run, cards[0]);
      var after := ApplyAll(run, events);
      assert frames[1..] == ParkFrames([], cards[1..]);
      WalkCloses(after, cards[1..], cards[0]);
      ApplyAllConcat(run, events, Walk(after, frames[1..], true).value);
    }
  }

  lemma {:induction false} WalkParks(run: RunState, body: seq<Frame>, cards: seq<PendingApproval>)
    requires run.started && cards != [] && forall i :: 0 <= i < |cards| ==> cards[i].callId != ""
    requires forall i :: 0 <= i < |body| ==> Quiet(body[i])
    ensures var walked := Walk(run, ParkFrames(body, cards), true);
            if run.status.Terminal() then walked == Err(Ended)
            else walked.Ok? && Parked(run, walked.value, cards[|cards| - 1])
    decreases |body|
  {
    var frames := ParkFrames(body, cards);
    var events := FrameEvents(run, frames[0]);
    if TakesFrames(run) {
      if body != [] {
        QuietFrameKeepsStatus(run, body[0]);
        assert frames[1..] == ParkFrames(body[1..], cards);
        WalkParks(ApplyAll(run, events), body[1..], cards);
        if !run.status.Terminal() {
          ApplyAllConcat(run, events, Walk(ApplyAll(run, events), frames[1..], true).value);
        }
      } else if !run.status.Terminal() {
        CardSuspends(run, cards[0]);
        assert frames[1..] == ParkFrames([], cards[1..]);
        WalkCloses(ApplyAll(run, events), cards[1..], cards[0]);
        ApplyAllConcat(run, events, Walk(ApplyAll(run, events), frames[1..], true).value);
      }
    }
  }

  lemma {:induction false} ParkFramesPark(body: seq<Frame>, cards: seq<PendingApproval>)
    requires cards != []
    ensures Parks(ParkFrames(body, cards))
  {
    if body == [] {
      assert ParkFrames(body, cards)[0].Card?;
    } else {
      ParkFramesPark(body[1..], cards);
      var i :| 0 <= i < |ParkFrames(body[1..], cards)| && ParkFrames(body[1..], cards)[i].Card?;
      assert ParkFrames(body, cards)[i + 1].Card?;
    }
  }

  /**
   A loop's park is written exactly when the run has not ended, and then the run waits on its last card;
   on a run that has ended it writes nothing and answers `Ended`.
   */
  lemma ParkWrittenIffNotEnded(journal: Journal, run: RunState, body: seq<Frame>, cards: seq<PendingApproval>,
      spent: RoundSpent)
    requires run.started && run.generation == journal.generation
    requires cards != [] && forall i :: 0 <= i < |cards| ==> cards[i].callId != ""
    requires forall i :: 0 <= i < |body| ==> Quiet(body[i])
    ensures var batch := Batch(journal, run, ParkFrames(body, cards), spent);
            if run.status.Terminal() then batch == Err(Ended)
            else batch.Ok? && Parked(run, batch.value, cards[|cards| - 1])
  {
    var frames := ParkFrames(body, cards);
    ParkFramesPark(body, cards);
    var recorded := SpentEvents(run, spent);
    if recorded != [] {
      ApplyAllOne(run, recorded[0]);
      assert recorded == [recorded[0]];
    }
    var ready := ApplyAll(run, recorded);
    WalkParks(ready, body, cards);
    assert [] + recorded == recorded;
    if !run.status.Terminal() {
      ApplyAllConcat(run, recorded, Walk(ready, frames, true).value);
    }
  }

  /** What a round spent lands in the same write as its frames, ahead of them, on any run that can still end. */
  lemma SpentLandsWithItsRound(journal: Journal, run: RunState, frames: seq<Frame>, spent: RoundSpent)
    requires run.started && !run.status.Terminal() && frames != [] && !spent.IsEmpty()
    requires Batch(journal, run, frames, spent).Ok?
    ensures Batch(journal, run, frames, spent).value[..1] == [Spent(spent.recipes, spent.round)]
  {
    assert [] + [Spent(spent.recipes, spent.round)] == [Spent(spent.recipes, spent.round)];
  }
}
