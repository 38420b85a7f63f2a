/**
 What a provider's stream comes to: each call starts once and ends once, after it started; every fragment is
 handed on under the call that owns its index; and every word and every failure is handed on, in order.
 */
module SseCalls {
  import opened Common
  import opened SseStream
  import opened Texts

  // ----- each call starts once and ends once --------------------------------------------------------------

  predicate IsStart(item: Item, id: string) {
    item.Ok? && item.value.ToolCallStart? && item.value.id == id
  }

  predicate IsEnd(item: Item, id: string) {
    item.Ok? && item.value.ToolCallEnd? && item.value.id == id
  }

  ghost predicate StartedIn(out: seq<Item>, id: string) {
    exists k :: 0 <= k < |out| && IsStart(out[k], id)
  }

  ghost predicate EndedIn(out: seq<Item>, id: string) {
    exists k :: 0 <= k < |out| && IsEnd(out[k], id)
  }

  /** A second start or a second end of one call. */
  predicate Repeats(earlier: Item, later: Item) {
    earlier.Ok? && later.Ok? &&
    ((earlier.value.ToolCallStart? && IsStart(later, earlier.value.id)) ||
     (earlier.value.ToolCallEnd? && IsEnd(later, earlier.value.id)))
  }

  ghost predicate NoRepeats(out: seq<Item>) {
    forall i, j :: 0 <= i < j < |out| ==> !Repeats(out[i], out[j])
  }

  ghost predicate EndFollowsStart(out: seq<Item>, j: nat)
    requires j < |out|
  {
    forall id :: IsEnd(out[j], id) ==> StartedIn(out[..j], id)
  }

  /** Each call id is started at most once, and ended at most once and only after its start. */
  ghost predicate Orderly(out: seq<Item>) {
    NoRepeats(out) && forall j: nat :: j < |out| ==> EndFollowsStart(out, j)
  }

  /** The parser's sets say what was handed on. */
  ghost predicate Inv(s: State) {
    && Orderly(s.out)
    && (forall id :: id in s.started <==> StartedIn(s.out, id))
    && (forall id :: id in s.ended <==> EndedIn(s.out, id))
  }

  lemma StartedGrows(out: seq<Item>, item: Item, id: string)
    ensures StartedIn(out + [item], id) <==> StartedIn(out, id) || IsStart(item, id)
    ensures EndedIn(out + [item], id) <==> EndedIn(out, id) || IsEnd(item, id)
  {
    hide IsStart, IsEnd;
    var longer := out + [item];
    assert longer[|out|] == item;
    if StartedIn(out, id) {
      var k :| 0 <= k < |out| && IsStart(out[k], id);
      assert longer[k] == out[k];
    }
    if EndedIn(out, id) {
      var k :| 0 <= k < |out| && IsEnd(out[k], id);
      assert longer[k] == out[k];
    }
  }

  /** Handing on one more item is orderly when it starts no call again, and ends only a started one, once. */
  lemma OrderlyGrows(out: seq<Item>, item: Item)
    requires Orderly(out)
    requires forall id :: IsStart(item, id) ==> !StartedIn(out, id)
    requires forall id :: IsEnd(item, id) ==> StartedIn(out, id) && !EndedIn(out, id)
    ensures Orderly(out + [item])
  {
    var longer := out + [item];
    forall i, j | 0 <= i < j < |longer| ensures !Repeats(longer[i], longer[j]) {
      if j < |out| {
        assert !Repeats(out[i], out[j]);
      }
    }
    forall j: nat | j < |longer| ensures EndFollowsStart(longer, j) {
      assert longer[..j] == out[..j];
      if j < |out| {
        assert EndFollowsStart(out, j);
      } else {
        assert out[..j] == out;
      }
    }
  }

  lemma GrowsAll(out: seq<Item>, item: Item)
    ensures forall id :: StartedIn(out + [item], id) <==> StartedIn(out, id) || IsStart(item, id)
    ensures forall id :: EndedIn(out + [item], id) <==> EndedIn(out, id) || IsEnd(item, id)
  {
    forall id
      ensures StartedIn(out + [item], id) <==> StartedIn(out, id) || IsStart(item, id)
      ensures EndedIn(out + [item], id) <==> EndedIn(out, id) || IsEnd(item, id)
    {
      StartedGrows(out, item, id);
    }
  }

  lemma StartKeepsInv(s: State, id: string, name: Option<string>)
    requires Inv(s)
    ensures Inv(StartCall(s, id, name))
  {
    if Given(name) && id !in s.started {
      hide StartedIn, EndedIn, Orderly;
      var item: Item := Ok(ToolCallStart(id, name.value));
      GrowsAll(s.out, item);
      OrderlyGrows(s.out, item);
    }
  }

  lemma CloseOneKeepsInv(s: State, id: string)
    requires Inv(s)
    ensures Inv(CloseOne(s, id))
  {
    if id in s.started && id !in s.ended {
      hide StartedIn, EndedIn, Orderly;
      var item: Item := Ok(ToolCallEnd(id));
      GrowsAll(s.out, item);
      OrderlyGrows(s.out, item);
    }
  }

  /** Anything that neither starts nor ends a call keeps the sets true. */
  lemma ItemKeepsInv(s: State, item: Item)
    requires Inv(s) && (item.Ok? ==> !item.value.ToolCallStart? && !item.value.ToolCallEnd?)
    ensures Inv(s.(out := s.out + [item]))
  {
    hide StartedIn, EndedIn, Orderly;
    GrowsAll(s.out, item);
    OrderlyGrows(s.out, item);
  }

  lemma CallKeepsInv(s: State, call: CallChunk)
    requires Inv(s)
    ensures Inv(OnCall(s, call))
  {
    var bound := Bind(s, call);
    assert Inv(bound);
    if IndexOf(call) in bound.byIndex {
      var id := bound.byIndex[IndexOf(call)];
      StartKeepsInv(bound, id, call.name);
      hide Inv, StartCall;
      if Given(call.arguments) {
        ItemKeepsInv(StartCall(bound, id, call.name), Ok(ToolCallArgs(id, call.arguments.value)));
      }
    }
  }

  lemma {:induction false} CallsKeepInv(s: State, calls: seq<CallChunk>)
    requires Inv(s)
    ensures Inv(OnCalls(s, calls))
    decreases |calls|
  {
    hide Inv, OnCall;
    if calls != [] {
      CallsKeepInv(s, calls[..|calls| - 1]);
      CallKeepsInv(OnCalls(s, calls[..|calls| - 1]), calls[|calls| - 1]);
    }
  }

  lemma {:induction false} CloseKeepsInv(s: State, keys: set<nat>)
    requires Inv(s) && keys <= s.byIndex.Keys
    ensures Inv(CloseFrom(s, keys))
    decreases |keys|
  {
    hide Inv;
    if keys != {} {
      CloseOneKeepsInv(s, s.byIndex[Least(keys)]);
      CloseKeepsInv(CloseOne(s, s.byIndex[Least(keys)]), keys - {Least(keys)});
    }
  }

  lemma SaidKeepsInv(s: State, choice: Choice)
    requires Inv(s)
    ensures Inv(Said(s, choice))
  {
    hide Inv;
    if Given(choice.reasoning) {
      ItemKeepsInv(s, Ok(Reasoning(choice.reasoning.value)));
    }
    var thought := if Given(choice.reasoning) then Emit(s, Reasoning(choice.reasoning.value)) else s;
    if Given(choice.content) {
      ItemKeepsInv(thought, Ok(Text(choice.content.value)));
    }
  }

  lemma {:induction false} ChoicesKeepInv(s: State, choices: seq<Choice>)
    requires Inv(s)
    ensures Inv(OnChoices(s, choices))
    decreases |choices|
  {
    hide Inv, Said, OnCalls;
    if choices != [] {
      var before, choice := OnChoices(s, choices[..|choices| - 1]), choices[|choices| - 1];
      ChoicesKeepInv(s, choices[..|choices| - 1]);
      SaidKeepsInv(before, choice);
      CallsKeepInv(Said(before, choice), choice.calls);
      var called := OnCalls(Said(before, choice), choice.calls);
      CloseKeepsInv(called, called.byIndex.Keys);
    }
  }

  lemma LineKeepsInv(read: Reader, s: State, line: string)
    requires Inv(s)
    ensures Inv(OnLine(read, s, line))
  {
    hide Inv, OnChoices, CloseFrom, FrameOf;
    match FrameOf(read, line)
    case Quiet =>
    case Done => CloseKeepsInv(s, s.byIndex.Keys);
    case Failure(message) => ItemKeepsInv(s, Err(message));
    case Choices(choices) => ChoicesKeepInv(s, choices);
  }

  lemma {:induction false} DrainKeepsInv(read: Reader, b: Buffered)
    requires Inv(b.state)
    ensures Inv(Drain(read, b).state)
    decreases |b.buffer|
  {
    hide Inv, OnLine;
    var at := Newline(b.buffer);
    if at.Some? {
      LineKeepsInv(read, b.state, TrimEnd(b.buffer[..at.value + 1]));
      DrainKeepsInv(read, Buffered(OnLine(read, b.state, TrimEnd(b.buffer[..at.value + 1])), b.buffer[at.value + 1..]));
    }
  }

  lemma {:induction false} FeedKeepsInv(read: Reader, b: Buffered, pieces: seq<Result<string, string>>)
    requires Inv(b.state)
    ensures Inv(FeedAll(read, b, pieces).state)
    decreases |pieces|
  {
    hide Inv, Drain;
    if pieces != [] {
      match pieces[0] {
        case Ok(text) => DrainKeepsInv(read, b.(buffer := b.buffer + text));
        case Err(error) => ItemKeepsInv(b.state, Err(error));
      }
      FeedKeepsInv(read, Feed(read, b, pieces[0]), pieces[1..]);
    }
  }

  /** Closing ends every started call these indices are bound to, and unbinds nothing. */
  lemma {:induction false} CloseEnds(s: State, keys: set<nat>)
    requires keys <= s.byIndex.Keys
    ensures var t := CloseFrom(s, keys);
            && t.byIndex == s.byIndex && t.started == s.started && s.ended <= t.ended
            && forall k :: k in keys && s.byIndex[k] in s.started ==> s.byIndex[k] in t.ended
    decreases |keys|
  {
    if keys != {} {
      CloseEnds(CloseOne(s, s.byIndex[Least(keys)]), keys - {Least(keys)});
    }
  }

  /** Every started call an index is still bound to has ended. */
  ghost predicate BoundCallsEnded(s: State) {
    forall k :: k in s.byIndex && StartedIn(s.out, s.byIndex[k]) ==> EndedIn(s.out, s.byIndex[k])
  }

  /**
   The end of the stream's own words, or a chunk whose last choice says it finished, ends every started call
   bound.
   */
  lemma ClosingLineEndsCalls(read: Reader, s: State, line: string)
    requires var frame := FrameOf(read, line);
             frame.Done? || (frame.Choices? && frame.choices != [] &&
               Given(frame.choices[|frame.choices| - 1].finishReason))
    ensures var t := OnLine(read, s, line);
            forall k :: k in t.byIndex && t.byIndex[k] in t.started ==> t.byIndex[k] in t.ended
  {
    hide FrameOf, OnCalls, Said;
    var frame := FrameOf(read, line);
    if frame.Done? {
      CloseEnds(s, s.byIndex.Keys);
    } else {
      var most, choice := frame.choices[..|frame.choices| - 1], frame.choices[|frame.choices| - 1];
      var called := OnCalls(Said(OnChoices(s, most), choice), choice.calls);
      CloseEnds(called, called.byIndex.Keys);
    }
  }

  /**
   Whatever pieces and errors arrive: each call id is started at most once, ended at most once and only after
   its start, and at the end every started id still bound to an index has been ended.
   */
  lemma CallsStartAndEndOnce(read: Reader, pieces: seq<Result<string, string>>)
    ensures Orderly(Streamed(read, pieces).out) && BoundCallsEnded(Streamed(read, pieces))
  {
    hide Orderly, StartedIn, EndedIn, OnLine, FeedAll;
    var b := FeedAll(read, Buffered(FRESH, ""), pieces);
    FreshInv();
    FeedKeepsInv(read, Buffered(FRESH, ""), pieces);
    LineKeepsInv(read, b.state, TrimEnd(b.buffer));
    var last := if Trim(b.buffer) == "" then b.state else OnLine(read, b.state, TrimEnd(b.buffer));
    CloseKeepsInv(last, last.byIndex.Keys);
    CloseEnds(last, last.byIndex.Keys);
  }

  lemma FreshInv()
    ensures Inv(FRESH)
  {
  }

  // ----- every fragment finds its call ------------------------------------------------------------------------

  /** The id last given at an index: the call its later fragments belong to. */
  function LastId(calls: seq<CallChunk>, index: nat): Option<string> {
    if calls == [] then None
    else
      var call := calls[|calls| - 1];
      if IndexOf(call) == index && Given(call.id) then call.id else LastId(calls[..|calls| - 1], index)
  }

  /** The call the last fragment belongs to, if its index was ever given an id. */
  function Owner(calls: seq<CallChunk>): Option<string>
    requires calls != []
  {
    LastId(calls, IndexOf(calls[|calls| - 1]))
  }

  /** Some fragment of the call gave its name. */
  predicate Named(calls: seq<CallChunk>, id: string) {
    calls != [] && (Named(calls[..|calls| - 1], id) || (Given(calls[|calls| - 1].name) && Owner(calls) == Some(id)))
  }

  /** What the last fragment is handed on as: a start for the first name its call gets, then its arguments. */
  function Fragment(calls: seq<CallChunk>): seq<Item>
    requires calls != []
  {
    var call := calls[|calls| - 1];
    if Owner(calls).None? then []
    else
      var id := Owner(calls).value;
      (if Given(call.name) && !Named(calls[..|calls| - 1], id) then [Ok(ToolCallStart(id, call.name.value))] else []) +
      (if Given(call.arguments) then [Ok(ToolCallArgs(id, call.arguments.value))] else [])
  }

  function Fragments(calls: seq<CallChunk>): seq<Item> {
    if calls == [] then [] else Fragments(calls[..|calls| - 1]) + Fragment(calls)
  }

  /** The words of the choices, in order. */
  function WordsOf(choice: Choice): seq<Item> {
    (if Given(choice.reasoning) then [Ok(Reasoning(choice.reasoning.value))] else []) +
    (if Given(choice.content) then [Ok(Text(choice.content.value))] else [])
  }

  /** What a stream was given: its fragments, its words and its failures, each in order. */
  datatype Account = Account(calls: seq<CallChunk>, words: seq<Item>, failures: seq<Item>)

  const NOTHING := Account([], [], [])

  function GivenChoices(g: Account, choices: seq<Choice>): Account {
    if choices == [] then g
    else
      var before, choice := GivenChoices(g, choices[..|choices| - 1]), choices[|choices| - 1];
      before.(calls := before.calls + choice.calls, words := before.words + WordsOf(choice))
  }

  function GivenLine(read: Reader, g: Account, line: string): Account {
    match FrameOf(read, line)
    case Failure(message) => g.(failures := g.failures + [Err(message)])
    case Choices(choices) => GivenChoices(g, choices)
    case _ => g
  }

  function GivenLines(read: Reader, lines: seq<string>): Account {
    if lines == [] then NOTHING
    else GivenLine(read, GivenLines(read, lines[..|lines| - 1]), lines[|lines| - 1])
  }

  predicate OfCall(item: Item) {
    item.Ok? && (item.value.ToolCallStart? || item.value.ToolCallArgs?)
  }

  predicate OfWords(item: Item) {
    item.Ok? && (item.value.Reasoning? || item.value.Text?)
  }

  datatype Kind = CallKind | WordKind | FailureKind

  predicate OfKind(item: Item, kind: Kind) {
    match kind
    case CallKind => OfCall(item)
    case WordKind => OfWords(item)
    case FailureKind => item.Err?
  }

  /** The items of one kind, in the order they were handed on. */
  function Picked(out: seq<Item>, kind: Kind): seq<Item> {
    if out == [] then []
    else Picked(out[..|out| - 1], kind) + if OfKind(out[|out| - 1], kind) then [out[|out| - 1]] else []
  }

  lemma PickedGrows(out: seq<Item>, item: Item, kind: Kind)
    ensures Picked(out + [item], kind) == Picked(out, kind) + if OfKind(item, kind) then [item] else []
  {
    assert (out + [item])[..|out|] == out;
  }

  /** The parser's fields and what was handed on follow what was given. */
  ghost predicate Tracks(s: State, g: Account) {
    && Bound(s.byIndex, g.calls)
    && (forall id :: id in s.started <==> Named(g.calls, id))
    && Picked(s.out, CallKind) == Fragments(g.calls)
    && Picked(s.out, WordKind) == g.words
    && Picked(s.out, FailureKind) == g.failures
  }

  ghost predicate Bound(byIndex: map<nat, string>, calls: seq<CallChunk>) {
    forall index :: (if index in byIndex then Some(byIndex[index]) else None) == LastId(calls, index)
  }

  lemma BindTracks(s: State, calls: seq<CallChunk>, call: CallChunk)
    requires Bound(s.byIndex, calls)
    ensures Bound(Bind(s, call).byIndex, calls + [call])
  {
    assert (calls + [call])[..|calls|] == calls;
  }

  /** An item of one kind is added to that kind, and leaves the others. */
  lemma EmitPicks(s: State, item: Item)
    ensures var t := s.(out := s.out + [item]);
            && (OfKind(item, CallKind) ==> Picked(t.out, CallKind) == Picked(s.out, CallKind) + [item])
            && (!OfKind(item, CallKind) ==> Picked(t.out, CallKind) == Picked(s.out, CallKind))
            && (OfKind(item, WordKind) ==> Picked(t.out, WordKind) == Picked(s.out, WordKind) + [item])
            && (!OfKind(item, WordKind) ==> Picked(t.out, WordKind) == Picked(s.out, WordKind))
            && (OfKind(item, FailureKind) ==> Picked(t.out, FailureKind) == Picked(s.out, FailureKind) + [item])
            && (!OfKind(item, FailureKind) ==> Picked(t.out, FailureKind) == Picked(s.out, FailureKind))
  {
    PickedGrows(s.out, item, CallKind);
    PickedGrows(s.out, item, WordKind);
    PickedGrows(s.out, item, FailureKind);
  }

  lemma NamedGrows(calls: seq<CallChunk>, call: CallChunk, id: string)
    ensures var longer := calls + [call];
            Named(longer, id) <==> Named(calls, id) || (Given(call.name) && Owner(longer) == Some(id))
  {
    assert (calls + [call])[..|calls|] == calls;
  }

  lemma FragmentsGrow(calls: seq<CallChunk>, call: CallChunk)
    ensures Fragments(calls + [call]) == Fragments(calls) + Fragment(calls + [call])
  {
    assert (calls + [call])[..|calls|] == calls;
  }

  /** Starting and passing on: what a fragment adds, given the call it belongs to. */
  lemma PassTracks(s: State, id: string, call: CallChunk)
    ensures var t := PassArguments(StartCall(s, id, call.name), id, call.arguments);
            && t.byIndex == s.byIndex
            && t.started == (if Given(call.name) then s.started + {id} else s.started)
            && Picked(t.out, WordKind) == Picked(s.out, WordKind) &&
                 Picked(t.out, FailureKind) == Picked(s.out, FailureKind)
            && Picked(t.out, CallKind) == Picked(s.out, CallKind) +
                 ((if Given(call.name) && id !in s.started then [Ok(ToolCallStart(id, call.name.value))] else []) +
                  (if Given(call.arguments) then [Ok(ToolCallArgs(id, call.arguments.value))] else []))
  {
    hide Picked;
    if Given(call.name) && id !in s.started {
      EmitPicks(s.(started := s.started + {id}), Ok(ToolCallStart(id, call.name.value)));
    }
    if Given(call.arguments) {
      EmitPicks(StartCall(s, id, call.name), Ok(ToolCallArgs(id, call.arguments.value)));
    }
  }

  lemma OwnerIs(byIndex: map<nat, string>, calls: seq<CallChunk>)
    requires calls != [] && Bound(byIndex, calls)
    ensures var index := IndexOf(calls[|calls| - 1]);
            Owner(calls) == if index in byIndex then Some(byIndex[index]) else None
  {
  }

  /** What one fragment adds, as the sets before it see it and as the list of fragments does. */
  lemma FragmentIs(s: State, calls: seq<CallChunk>, call: CallChunk)
    requires forall id :: id in s.started <==> Named(calls, id)
    ensures var longer := calls + [call];
            Fragment(longer) ==
              if Owner(longer).None? then []
              else (if Given(call.name) && Owner(longer).value !in s.started
                then [Ok(ToolCallStart(Owner(longer).value, call.name.value))] else []) +
                   (if Given(call.arguments) then [Ok(ToolCallArgs(Owner(longer).value, call.arguments.value))] else [])
  {
    hide Owner, Named;
    assert (calls + [call])[|calls|] == call && (calls + [call])[..|calls|] == calls;
  }

  lemma NamesGrow(calls: seq<CallChunk>, call: CallChunk)
    ensures forall id :: Named(calls + [call], id) <==>
            Named(calls, id) || (Given(call.name) && Owner(calls + [call]) == Some(id))
  {
    hide Named, Owner;
    forall id ensures Named(calls + [call], id) <==>
      Named(calls, id) || (Given(call.name) && Owner(calls + [call]) == Some(id)) {
      NamedGrows(calls, call, id);
    }
  }

  lemma CallTracks(s: State, g: Account, call: CallChunk)
    requires Tracks(s, g)
    ensures Tracks(OnCall(s, call), g.(calls := g.calls + [call]))
  {
    hide Picked, Fragments, Fragment, Named, Owner, Bound, StartCall, PassArguments;
    var bound, longer := Bind(s, call), g.calls + [call];
    assert longer[|longer| - 1] == call;
    BindTracks(s, g.calls, call);
    OwnerIs(bound.byIndex, longer);
    FragmentsGrow(g.calls, call);
    FragmentIs(s, g.calls, call);
    NamesGrow(g.calls, call);
    if IndexOf(call) in bound.byIndex {
      PassTracks(bound, bound.byIndex[IndexOf(call)], call);
    }
  }

  lemma {:induction false} CallsTrack(s: State, g: Account, calls: seq<CallChunk>)
    requires Tracks(s, g)
    ensures Tracks(OnCalls(s, calls), g.(calls := g.calls + calls))
    decreases |calls|
  {
    hide Tracks, OnCall;
    if calls == [] {
      assert g.calls + calls == g.calls;
    } else {
      var most, call := calls[..|calls| - 1], calls[|calls| - 1];
      CallsTrack(s, g, most);
      CallTracks(OnCalls(s, most), g.(calls := g.calls + most), call);
      assert g.calls + most + [call] == g.calls + calls;
    }
  }

  lemma {:induction false} CloseTracks(s: State, g: Account, keys: set<nat>)
    requires Tracks(s, g) && keys <= s.byIndex.Keys
    ensures Tracks(CloseFrom(s, keys), g)
    decreases |keys|
  {
    if keys != {} {
      hide Picked, Named, Bound, Fragments;
      var id := s.byIndex[Least(keys)];
      EmitPicks(s.(ended := s.ended + {id}), Ok(ToolCallEnd(id)));
      CloseTracks(CloseOne(s, id), g, keys - {Least(keys)});
    }
  }

  lemma SaidTracks(s: State, g: Account, choice: Choice)
    requires Tracks(s, g)
    ensures Tracks(Said(s, choice), g.(words := g.words + WordsOf(choice)))
  {
    hide Picked, Named, Bound, Fragments;
    var thought := if Given(choice.reasoning) then Emit(s, Reasoning(choice.reasoning.value)) else s;
    if Given(choice.reasoning) {
      EmitPicks(s, Ok(Reasoning(choice.reasoning.value)));
    }
    if Given(choice.content) {
      EmitPicks(thought, Ok(Text(choice.content.value)));
    }
  }

  lemma {:induction false} ChoicesTrack(s: State, g: Account, choices: seq<Choice>)
    requires Tracks(s, g)
    ensures Tracks(OnChoices(s, choices), GivenChoices(g, choices))
    decreases |choices|
  {
    hide Tracks, Said, OnCalls, WordsOf;
    if choices != [] {
      var most, choice := choices[..|choices| - 1], choices[|choices| - 1];
      var before, given := OnChoices(s, most), GivenChoices(g, most);
      ChoicesTrack(s, g, most);
      SaidTracks(before, given, choice);
      var said := given.(words := given.words + WordsOf(choice));
      CallsTrack(Said(before, choice), said, choice.calls);
      var called := OnCalls(Said(before, choice), choice.calls);
      CloseTracks(called, said.(calls := said.calls + choice.calls), called.byIndex.Keys);
    }
  }

  lemma FailureTracks(s: State, g: Account, message: string)
    requires Tracks(s, g)
    ensures Tracks(s.(out := s.out + [Err(message)]), g.(failures := g.failures + [Err(message)]))
  {
    hide Picked, Named, Bound, Fragments;
    EmitPicks(s, Err(message));
  }

  lemma {:induction false} LinesTrack(read: Reader, lines: seq<string>)
    ensures Tracks(OnLines(read, FRESH, lines), GivenLines(read, lines))
    decreases |lines|
  {
    if lines == [] {
    } else {
      hide Tracks, OnChoices, CloseFrom, FrameOf, GivenChoices;
      var most, line := lines[..|lines| - 1], lines[|lines| - 1];
      LinesTrack(read, most);
      var before, given := OnLines(read, FRESH, most), GivenLines(read, most);
      match FrameOf(read, line)
      case Quiet =>
      case Done => CloseTracks(before, given, before.byIndex.Keys);
      case Failure(message) => FailureTracks(before, given, message);
      case Choices(choices) => ChoicesTrack(before, given, choices);
    }
  }

  /** Every line of a text, the last one with or without its newline. */
  function AllLines(text: string): seq<string> {
    Lines(text) + if Trim(Leftover(text)) == "" then [] else [TrimEnd(Leftover(text))]
  }

  lemma WholeIsLines(read: Reader, text: string)
    ensures Whole(read, text) == CloseOpen(OnLines(read, FRESH, AllLines(text)))
  {
    hide OnLine, CloseOpen, Lines, Leftover, Trim, TrimEnd;
    var lines, last := Lines(text), TrimEnd(Leftover(text));
    if Trim(Leftover(text)) == "" {
      assert AllLines(text) == lines;
    } else {
      assert AllLines(text)[..|lines|] == lines && AllLines(text)[|lines|] == last;
    }
  }

  /**
   However a stream's text is cut: every fragment is handed on under the call its index was last given to, the
   call's first name as its start; every word and every failure is handed on, in order; and nothing else is but
   the ends of calls.
   */
  lemma FragmentsFindTheirCall(read: Reader, texts: seq<string>)
    ensures var s, g := Streamed(read, Pieces(texts)), GivenLines(read, AllLines(Joined(texts)));
            && Picked(s.out, CallKind) == Fragments(g.calls)
            && Picked(s.out, WordKind) == g.words
            && Picked(s.out, FailureKind) == g.failures
  {
    hide Streamed, Whole, AllLines, OnLines, GivenLines, Joined, Pieces, CloseFrom, Picked, Fragments, Bound, Named;
    var text := Joined(texts);
    PiecesAreTheWhole(read, texts);
    WholeIsLines(read, text);
    LinesTrack(read, AllLines(text));
    var s := OnLines(read, FRESH, AllLines(text));
    CloseTracks(s, GivenLines(read, AllLines(text)), s.byIndex.Keys);
  }
}
