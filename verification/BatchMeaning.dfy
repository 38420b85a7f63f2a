/**
 What a batch of frames leaves in the log, said of the frames: which of them are journaled, which cards suspend the
 run, which frame ends it, and with what. Nothing here is said by the functions that compute a batch.
 */
module BatchMeaning {
  import opened Common
  import opened Run
  import opened RunLog
  import opened RunJournal

  predicate NamesACall(frame: Frame) {
    frame.Card? && frame.call.callId != ""
  }

  ghost predicate AnyNamed(frames: seq<Frame>) {
    exists i :: 0 <= i < |frames| && NamesACall(frames[i])
  }

  /** The run waits before frame `i`: it did, or a card before it names a call. */
  predicate WaitsBefore(waits: bool, frames: seq<Frame>, i: nat)
    requires i <= |frames|
  {
    waits || exists j :: 0 <= j < i && NamesACall(frames[j])
  }

  /** Frame `i` ends the run: an error does, and a finish does unless the run waits there. */
  predicate EndsIt(waits: bool, frames: seq<Frame>, i: nat)
    requires i < |frames|
  {
    frames[i].ErrorFrame? || (frames[i].FinishedFrame? && !WaitsBefore(waits, frames, i))
  }

  /** Frame `k` is the first to end the run. */
  predicate EndsAt(waits: bool, frames: seq<Frame>, k: nat) {
    k < |frames| && EndsIt(waits, frames, k) && forall i :: 0 <= i < k ==> !EndsIt(waits, frames, i)
  }

  predicate NeverEnds(waits: bool, frames: seq<Frame>) {
    forall i :: 0 <= i < |frames| ==> !EndsIt(waits, frames, i)
  }

  /** The ending a frame carries. */
  function Carried(frame: Frame): Event
    requires frame.FinishedFrame? || frame.ErrorFrame?
  {
    if frame.FinishedFrame? then HasFinished(frame.reason) else HasFailed(frame.message)
  }

  /** Frames numbered on from `n`, each with the suspension its card asks for right behind it. */
  function Lines(n: nat, frames: seq<Frame>): seq<Event>
    decreases |frames|
  {
    if frames == [] then []
    else
      [Emitted(n, frames[0])] + (if NamesACall(frames[0]) then [Suspended(frames[0].call)] else []) +
      Lines(n + 1, frames[1..])
  }

  predicate EndedBy(run: RunState, e: Event)
    requires IsEnding(e)
  {
    && run.status == EndingStatus(e)
    && (e.HasFinished? ==> run.finishReason == e.finishReason)
    && (e.HasFailed? ==> run.failure == Some(e.why))
  }

  // ----- one frame -------------------------------------------------------------------------------------------------

  /** A frame that does not end the run: journaled, with a suspension if it names a call. */
  lemma FrameGoesOn(run: RunState, frame: Frame)
    requires run.started && !run.status.Terminal()
    requires !frame.ErrorFrame? && (frame.FinishedFrame? ==> run.status.AwaitingApproval?)
    ensures TakesFrames(run)
    ensures FrameEvents(run, frame) ==
            [Emitted(|run.emitted|, frame)] + if NamesACall(frame) then [Suspended(frame.call)] else []
    ensures var after := ApplyAll(run, FrameEvents(run, frame));
            && after.started && !after.status.Terminal() && |after.emitted| == |run.emitted| + 1
            && (after.status.AwaitingApproval? <==> run.status.AwaitingApproval? || NamesACall(frame))
  {
    var emitted := Emitted(|run.emitted|, frame);
    ApplyAllOne(run, emitted);
    if NamesACall(frame) {
      ApplyAllOne(Apply(run, emitted), Suspended(frame.call));
      ApplyAllConcat(run, [emitted], [Suspended(frame.call)]);
      assert FrameEvents(run, frame) == [emitted] + [Suspended(frame.call)];
    } else {
      assert FrameEvents(run, frame) == [emitted];
    }
  }

  /** A frame that ends the run: journaled, and then the ending it carries. */
  lemma FrameEnds(run: RunState, frame: Frame)
    requires run.started && !run.status.Terminal()
    requires frame.ErrorFrame? || (frame.FinishedFrame? && !run.status.AwaitingApproval?)
    ensures TakesFrames(run)
    ensures FrameEvents(run, frame) == [Emitted(|run.emitted|, frame)] + [Carried(frame)]
    ensures EndedBy(ApplyAll(run, FrameEvents(run, frame)), Carried(frame))
  {
    var emitted := Emitted(|run.emitted|, frame);
    ApplyAllOne(run, emitted);
    ApplyAllOne(Apply(run, emitted), Carried(frame));
    ApplyAllConcat(run, [emitted], [Carried(frame)]);
    assert [emitted] + [] == [emitted];
    assert FrameEvents(run, frame) == [emitted] + [Carried(frame)];
  }

  // ----- the walk over the frames ----------------------------------------------------------------------------------

  /** Past the first frame, the rest waits if the run did or the frame names a call. */
  lemma RestWaits(waits: bool, frames: seq<Frame>, i: nat)
    requires frames != [] && i < |frames|
    ensures WaitsBefore(waits || NamesACall(frames[0]), frames[1..], i) == WaitsBefore(waits, frames, i + 1)
  {
    var rest := frames[1..];
    if WaitsBefore(waits, frames, i + 1) && !waits && !NamesACall(frames[0]) {
      var j :| 0 <= j < i + 1 && NamesACall(frames[j]);
      assert rest[j - 1] == frames[j];
    }
    if j :| 0 <= j < i && NamesACall(rest[j]) {
      assert frames[j + 1] == rest[j];
    }
  }

  lemma RestEnds(waits: bool, frames: seq<Frame>, i: nat)
    requires i + 1 < |frames|
    ensures EndsIt(waits || NamesACall(frames[0]), frames[1..], i) == EndsIt(waits, frames, i + 1)
  {
    hide WaitsBefore;
    RestWaits(waits, frames, i);
  }

  lemma FirstEnds(waits: bool, frames: seq<Frame>)
    requires frames != []
    ensures EndsIt(waits, frames, 0) <==> frames[0].ErrorFrame? || (frames[0].FinishedFrame? && !waits)
  {
  }

  lemma LinesOn(n: nat, frames: seq<Frame>, k: nat)
    requires k < |frames|
    ensures Lines(n, frames[..k + 1]) ==
            [Emitted(n, frames[0])] + (if NamesACall(frames[0]) then [Suspended(frames[0].call)] else []) +
            Lines(n + 1, frames[1..][..k])
  {
    assert frames[..k + 1][1..] == frames[1..][..k];
  }

  /** The walk past a frame that does not end the run. */
  lemma WalkOn(run: RunState, frames: seq<Frame>, parks: bool)
    requires run.started && !run.status.Terminal() && frames != []
    requires !EndsIt(run.status.AwaitingApproval?, frames, 0)
    ensures var events := FrameEvents(run, frames[0]);
            var after := ApplyAll(run, events);
            && Walk(run, frames, parks) == Prepend(events, Walk(after, frames[1..], parks))
            && events == Lines(|run.emitted|, frames[..1])
            && after.started && !after.status.Terminal() && |after.emitted| == |run.emitted| + 1
            && after.status.AwaitingApproval? == (run.status.AwaitingApproval? || NamesACall(frames[0]))
  {
    FirstEnds(run.status.AwaitingApproval?, frames);
    FrameGoesOn(run, frames[0]);
    hide FrameEvents, TakesFrames, ApplyAll;
    LinesOn(|run.emitted|, frames, 0);
    assert Lines(|run.emitted|, frames[..1]) == FrameEvents(run, frames[0]) + [];
  }

  lemma LinesSplit(n: nat, frames: seq<Frame>, k: nat)
    requires k < |frames|
    ensures Lines(n, frames[..k + 1]) == Lines(n, frames[..1]) + Lines(n + 1, frames[1..][..k])
  {
    hide Lines;
    LinesOn(n, frames, k);
    LinesOn(n, frames, 0);
    NoLines(n + 1, frames[1..][..0]);
  }

  lemma NoLines(n: nat, frames: seq<Frame>)
    requires frames == []
    ensures Lines(n, frames) == []
  {
  }

  lemma {:induction false} WalkGoesOn(run: RunState, frames: seq<Frame>, parks: bool)
    requires run.started && !run.status.Terminal() && NeverEnds(run.status.AwaitingApproval?, frames)
    ensures Walk(run, frames, parks) == Ok(Lines(|run.emitted|, frames))
    ensures var after := ApplyAll(run, Lines(|run.emitted|, frames));
            after.status == if WaitsBefore(run.status.AwaitingApproval?, frames, |frames|) then AwaitingApproval
                            else Running
    decreases |frames|
  {
    if frames != [] {
      hide EndsIt, WaitsBefore, Apply, FrameEvents;
      var waits, rest := run.status.AwaitingApproval?, frames[1..];
      WalkOn(run, frames, parks);
      var events := FrameEvents(run, frames[0]);
      var after := ApplyAll(run, events);
      forall i | 0 <= i < |rest| ensures !EndsIt(after.status.AwaitingApproval?, rest, i) {
        RestEnds(waits, frames, i);
      }
      WalkGoesOn(after, rest, parks);
      hide Walk, Lines;
      LinesSplit(|run.emitted|, frames, |rest|);
      assert frames[..|frames|] == frames && rest[..|rest|] == rest;
      ApplyAllConcat(run, events, Lines(|after.emitted|, rest));
      RestWaits(waits, frames, |rest|);
    }
  }

  lemma WalkStops(run: RunState, frames: seq<Frame>, parks: bool)
    requires run.status.Finished? || run.status.Failed?
    ensures Walk(run, frames, parks) == if frames != [] && parks then Err(Ended) else Ok([])
  {
  }

  lemma WalkEndsNow(run: RunState, frames: seq<Frame>, parks: bool)
    requires run.started && !run.status.Terminal() && EndsAt(run.status.AwaitingApproval?, frames, 0)
    ensures WalksTo(run, frames, parks, 0)
  {
    FirstEnds(run.status.AwaitingApproval?, frames);
    FrameEnds(run, frames[0]);
    var after := ApplyAll(run, FrameEvents(run, frames[0]));
    LinesOn(|run.emitted|, frames, 0);
    hide FrameEvents, EndsIt, Apply;
    WalkStops(after, frames[1..], parks);
    assert FrameEvents(run, frames[0]) + [] == FrameEvents(run, frames[0]);
    assert !NamesACall(frames[0]) && Lines(|run.emitted|, frames[..1]) == [Emitted(|run.emitted|, frames[0])];
  }

  /** The walk writes the frames up to frame `k` and the ending it carries; or nothing, if a card is left out. */
  ghost predicate WalksTo(run: RunState, frames: seq<Frame>, parks: bool, k: nat)
    requires EndsAt(run.status.AwaitingApproval?, frames, k)
  {
    var events := Lines(|run.emitted|, frames[..k + 1]) + [Carried(frames[k])];
    if parks && k + 1 < |frames| then Walk(run, frames, parks) == Err(Ended)
    else Walk(run, frames, parks) == Ok(events) && EndedBy(ApplyAll(run, events), Carried(frames[k]))
  }

  lemma RestEndsAt(waits: bool, frames: seq<Frame>, k: nat)
    requires EndsAt(waits, frames, k) && k > 0
    ensures EndsAt(waits || NamesACall(frames[0]), frames[1..], k - 1) && !EndsIt(waits, frames, 0)
  {
    hide EndsIt;
    var later, rest := waits || NamesACall(frames[0]), frames[1..];
    forall i | 0 <= i < k ensures EndsIt(later, rest, i) == EndsIt(waits, frames, i + 1) {
      RestEnds(waits, frames, i);
    }
  }

  lemma WalksOn(run: RunState, frames: seq<Frame>, parks: bool, k: nat, events: seq<Event>, after: RunState)
    requires k > 0 && EndsAt(run.status.AwaitingApproval?, frames, k)
    requires EndsAt(after.status.AwaitingApproval?, frames[1..], k - 1) && WalksTo(after, frames[1..], parks, k - 1)
    requires after == ApplyAll(run, events) && events == Lines(|run.emitted|, frames[..1])
    requires |after.emitted| == |run.emitted| + 1
    requires Walk(run, frames, parks) == Prepend(events, Walk(after, frames[1..], parks))
    ensures WalksTo(run, frames, parks, k)
  {
    hide Walk, Lines, WaitsBefore, EndedBy, ApplyAll, Carried;
    LinesSplit(|run.emitted|, frames, k);
    assert frames[1..][k - 1] == frames[k];
    var lines := Lines(|after.emitted|, frames[1..][..k]) + [Carried(frames[k])];
    ApplyAllConcat(run, events, lines);
    assert Lines(|run.emitted|, frames[..k + 1]) + [Carried(frames[k])] == events + lines;
  }

  lemma {:induction false} WalkEnds(run: RunState, frames: seq<Frame>, parks: bool, k: nat)
    requires run.started && !run.status.Terminal() && EndsAt(run.status.AwaitingApproval?, frames, k)
    ensures WalksTo(run, frames, parks, k)
    decreases |frames|
  {
    if k == 0 {
      WalkEndsNow(run, frames, parks);
    } else {
      hide Walk, Lines, WalksTo, FrameEvents, ApplyAll;
      RestEndsAt(run.status.AwaitingApproval?, frames, k);
      WalkOn(run, frames, parks);
      var events := FrameEvents(run, frames[0]);
      var after := ApplyAll(run, events);
      WalkEnds(after, frames[1..], parks, k - 1);
      WalksOn(run, frames, parks, k, events, after);
    }
  }

  // ----- a run that was stopped ------------------------------------------------------------------------------------

  lemma StoppedFrame(run: RunState, frame: Frame)
    requires run.started && run.status.Stopped? && !NamesACall(frame)
    ensures TakesFrames(run) && CardEvents(frame) == []
    ensures FrameEvents(run, frame) == [Emitted(|run.emitted|, frame)]
    ensures ApplyAll(run, FrameEvents(run, frame)) == Apply(run, Emitted(|run.emitted|, frame))
  {
    var emitted := Emitted(|run.emitted|, frame);
    ApplyAllOne(run, emitted);
    assert [emitted] + [] == [emitted];
    assert FrameEvents(run, frame) == [emitted];
  }

  /** A stopped run takes frames and nothing else. */
  lemma {:induction false} WalkAfterStop(run: RunState, frames: seq<Frame>, parks: bool)
    requires run.started && run.status.Stopped?
    ensures Walk(run, frames, parks) == if AnyNamed(frames) then Err(Ended) else Ok(Lines(|run.emitted|, frames))
    decreases |frames|
  {
    if frames != [] {
      hide AnyNamed;
      NamedOrLater(frames);
      if !NamesACall(frames[0]) {
        StoppedFrame(run, frames[0]);
        var emitted := Emitted(|run.emitted|, frames[0]);
        WalkAfterStop(Apply(run, emitted), frames[1..], parks);
        assert [emitted] + [] == [emitted];
        hide FrameEvents, TakesFrames;
      }
    }
  }

  lemma NamedOrLater(frames: seq<Frame>)
    requires frames != []
    ensures AnyNamed(frames) <==> NamesACall(frames[0]) || AnyNamed(frames[1..])
  {
    if i :| 0 <= i < |frames| && NamesACall(frames[i]) {
      assert i > 0 ==> frames[1..][i - 1] == frames[i];
    }
    if i :| 0 <= i < |frames[1..]| && NamesACall(frames[1..][i]) {
      assert frames[i + 1] == frames[1..][i];
    }
  }

  // ----- the whole batch -------------------------------------------------------------------------------------------

  /** What a round spent: the one record of it, when there is any and the run can still end. */
  function Spending(run: RunState, spent: RoundSpent): seq<Event> {
    if (spent.recipes == [] && spent.round.None?) || run.status.Terminal() then []
    else [Spent(spent.recipes, spent.round)]
  }

  lemma SpentIs(run: RunState, spent: RoundSpent)
    requires run.started
    ensures SpentEvents(run, spent) == Spending(run, spent)
    ensures var begun := ApplyAll(run, Spending(run, spent));
            begun.started && begun.status == run.status && begun.emitted == run.emitted
  {
    ApplyAllOne(run, Spent(spent.recipes, spent.round));
  }

  lemma BatchIs(journal: Journal, run: RunState, frames: seq<Frame>, spent: RoundSpent)
    requires run.started && run.generation == journal.generation && frames != []
    ensures var begun := ApplyAll(run, Spending(run, spent));
            Batch(journal, run, frames, spent) == Prepend(Spending(run, spent), Walk(begun, frames, Parks(frames)))
  {
    hide Walk;
    SpentIs(run, spent);
    var recorded := SpentEvents(run, spent);
    assert [] + recorded == recorded;
    assert ApplyAll(run, []) == run;
  }

  /**
   What a batch of a loop of the run's own generation leaves, whatever its frames. On a run that can still end: what
   the round spent, then every frame with its suspension, up to the first that ends the run, and then exactly that
   frame's ending; a batch with a card in it that has frames left after that writes nothing. On a stopped run the
   frames alone, and a named card refuses them all. On any other, nothing.
   */
  lemma WhatABatchWrites(journal: Journal, run: RunState, frames: seq<Frame>, spent: RoundSpent, k: nat)
    requires run.started && run.generation == journal.generation && frames != []
    ensures var batch, waits, n := Batch(journal, run, frames, spent), run.status.AwaitingApproval?, |run.emitted|;
            if run.status.Stopped? then
              batch == if AnyNamed(frames) then Err(Ended) else Ok(Lines(n, frames))
            else if run.status.Terminal() then
              batch == if Parks(frames) then Err(Ended) else Ok([])
            else
              && (NeverEnds(waits, frames) ==>
                    && batch == Ok(Spending(run, spent) + Lines(n, frames))
                    && ApplyAll(run, batch.value).status
                       == if WaitsBefore(waits, frames, |frames|) then AwaitingApproval else Running)
              && (EndsAt(waits, frames, k) ==>
                    if Parks(frames) && k + 1 < |frames| then batch == Err(Ended)
                    else
                      && batch == Ok(Spending(run, spent) + Lines(n, frames[..k + 1]) + [Carried(frames[k])])
                      && EndedBy(ApplyAll(run, batch.value), Carried(frames[k])))
  {
    hide EndedBy, WaitsBefore, Lines, Carried, AnyNamed, Walk, Batch;
    var spending, parks := Spending(run, spent), Parks(frames);
    BatchIs(journal, run, frames, spent);
    SpentIs(run, spent);
    var begun := ApplyAll(run, spending);
    if run.status.Stopped? {
      WalkAfterStop(begun, frames, parks);
      PrependNothing(Walk(begun, frames, parks));
    } else if run.status.Terminal() {
      WalkStops(begun, frames, parks);
      PrependNothing(Walk(begun, frames, parks));
    } else {
      if NeverEnds(run.status.AwaitingApproval?, frames) {
        WalkGoesOn(begun, frames, parks);
        ApplyAllConcat(run, spending, Lines(|run.emitted|, frames));
      }
      if EndsAt(run.status.AwaitingApproval?, frames, k) {
        WalkEnds(begun, frames, parks, k);
        var lines, ending := Lines(|run.emitted|, frames[..k + 1]), [Carried(frames[k])];
        ApplyAllConcat(run, spending, lines + ending);
        assert spending + (lines + ending) == spending + lines + ending;
      }
    }
  }

  /** The run is opened by its first batch, with the loop's own start, and the batch goes on as above. */
  lemma ABatchOpensItsRun(journal: Journal, run: RunState, frames: seq<Frame>, spent: RoundSpent)
    requires !run.started && !run.status.Terminal() && frames != [] && journal.start.Start?
    ensures var started := Decide(run, journal.start);
            && started.Ok? && |started.value| == 1 && started.value[0].Started?
            && var begun := Apply(run, started.value[0]);
               Batch(journal, run, frames, spent) ==
               Prepend(started.value, Batch(journal.(generation := begun.generation), begun, frames, spent))
  {
    hide Walk;
    var started := Decide(run, journal.start).value;
    assert started == [started[0]];
    ApplyAllOne(run, started[0]);
    var begun := Apply(run, started[0]);
    BatchIs(journal.(generation := begun.generation), begun, frames, spent);
    SpentIs(begun, spent);
    PrependTwice(started, Spending(begun, spent),
                 Walk(ApplyAll(begun, Spending(begun, spent)), frames, Parks(frames)));
  }

  /** A batch of another generation is refused whole, and one without frames writes nothing. */
  lemma WhoMayWriteABatch(journal: Journal, run: RunState, frames: seq<Frame>, spent: RoundSpent)
    ensures Batch(journal, run, frames, spent) == Err(Fenced) <==>
            frames != [] && run.started && run.generation != journal.generation
    ensures frames == [] ==> Batch(journal, run, frames, spent) == Ok([])
  {
    hide Walk;
    if frames != [] {
      var opening := Opening(journal, run);
      if opening.Ok? {
        var begun := ApplyAll(run, opening.value);
        NeverFenced(ApplyAll(begun, SpentEvents(begun, spent)), frames, Parks(frames));
      }
    }
  }

  lemma {:induction false} NeverFenced(run: RunState, frames: seq<Frame>, parks: bool)
    ensures Walk(run, frames, parks) != Err(Fenced)
    decreases |frames|
  {
    hide FrameEvents;
    if frames != [] && TakesFrames(run) {
      NeverFenced(ApplyAll(run, FrameEvents(run, frames[0])), frames[1..], parks);
    }
  }
}
