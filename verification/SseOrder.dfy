/**
 Everything a stream hands on, in its order, as a function of what was in it: a list of words, fragments, failures and
 closings read off the lines, and what each of them is handed on as, given those before it. Errors between the pieces
 keep their place. The parser's output is proved to be this list's.
 */
module SseOrder {
  import opened Common
  import opened Texts
  import opened SseStream
  import opened SseCalls

  /** One thing said in a stream. */
  datatype Piece = Word(delta: Delta) | Frag(call: CallChunk) | Fault(message: string) | Stop

  // ----- what the lines say ----------------------------------------------------------------------------------------

  predicate Nonempty(text: Option<string>) {
    text.Some? && |text.value| > 0
  }

  function FragsOf(calls: seq<CallChunk>): (ps: seq<Piece>)
    ensures |ps| == |calls| && forall i :: 0 <= i < |calls| ==> ps[i] == Frag(calls[i])
  {
    if calls == [] then [] else [Frag(calls[0])] + FragsOf(calls[1..])
  }

  /** A choice: its thought, its words, its fragments, and the end of its calls. */
  function PiecesOf(choice: Choice): seq<Piece> {
    (if Nonempty(choice.reasoning) then [Word(Reasoning(choice.reasoning.value))] else []) +
    (if Nonempty(choice.content) then [Word(Text(choice.content.value))] else []) +
    FragsOf(choice.calls) +
    (if Nonempty(choice.finishReason) then [Stop] else [])
  }

  function PiecesOfAll(choices: seq<Choice>): seq<Piece> {
    if choices == [] then [] else PiecesOf(choices[0]) + PiecesOfAll(choices[1..])
  }

  /** A line: a frame after `data: `, or otherwise only an error body counts. */
  function PiecesOfLine(read: Reader, line: string): seq<Piece> {
    if "data: " <= line then
      var payload := Trim(line[6..]);
      if payload == "" then []
      else if payload == "[DONE]" then [Stop]
      else
        match read(payload)
        case ErrorBody(message) => [Fault(message)]
        case Chunk(choices) => PiecesOfAll(choices)
        case Unreadable => []
    else
      match read(Trim(line))
      case ErrorBody(message) => [Fault(message)]
      case _ => []
  }

  // ----- what each piece is handed on as ---------------------------------------------------------------------------

  function Place(call: CallChunk): nat {
    match call.index
    case Some(i) => i
    case None => 0
  }

  function CallsIn(ps: seq<Piece>): seq<CallChunk> {
    if ps == [] then []
    else CallsIn(ps[..|ps| - 1]) + if ps[|ps| - 1].Frag? then [ps[|ps| - 1].call] else []
  }

  /** The id an index was last given. */
  function Holder(calls: seq<CallChunk>, index: nat): Option<string> {
    if calls == [] then None
    else
      var call := calls[|calls| - 1];
      if Place(call) == index && Nonempty(call.id) then Some(call.id.value) else Holder(calls[..|calls| - 1], index)
  }

  /** Some fragment of the call gave its name. */
  predicate HasName(calls: seq<CallChunk>, id: string) {
    calls != [] &&
    var call := calls[|calls| - 1];
    HasName(calls[..|calls| - 1], id) || (Nonempty(call.name) && Holder(calls, Place(call)) == Some(id))
  }

  function HandedFrag(calls: seq<CallChunk>): seq<Item>
    requires calls != []
  {
    var call, before := calls[|calls| - 1], calls[..|calls| - 1];
    match Holder(calls, Place(call))
    case None => []
    case Some(id) =>
      (if Nonempty(call.name) && !HasName(before, id) then [Ok(ToolCallStart(id, call.name.value))] else []) +
      (if Nonempty(call.arguments) then [Ok(ToolCallArgs(id, call.arguments.value))] else [])
  }

  function Indices(calls: seq<CallChunk>): set<nat> {
    set c | c in calls && Nonempty(c.id) :: Place(c)
  }

  function Ended(out: seq<Item>): set<string> {
    set item | item in out && item.Ok? && item.value.ToolCallEnd? :: item.value.id
  }

  /** The ends a closing hands on: by index, lowest first, each named call that has not ended. */
  ghost function Ends(calls: seq<CallChunk>, ended: set<string>, indices: set<nat>): seq<Item>
    decreases |indices|
  {
    if indices == {} then []
    else
      var k := Least(indices);
      match Holder(calls, k)
      case None => Ends(calls, ended, indices - {k})
      case Some(id) =>
        if HasName(calls, id) && id !in ended
        then [Ok(ToolCallEnd(id))] + Ends(calls, ended + {id}, indices - {k})
        else Ends(calls, ended, indices - {k})
  }

  /** What a piece is handed on as, after those before it and what they were handed on as. */
  ghost function Next(before: seq<Piece>, out: seq<Item>, p: Piece): seq<Item> {
    match p
    case Word(delta) => [Ok(delta)]
    case Fault(message) => [Err(message)]
    case Frag(call) => HandedFrag(CallsIn(before) + [call])
    case Stop => Ends(CallsIn(before), Ended(out), Indices(CallsIn(before)))
  }

  ghost function Handed(ps: seq<Piece>): seq<Item> {
    if ps == [] then []
    else
      var before := ps[..|ps| - 1];
      Handed(before) + Next(before, Handed(before), ps[|ps| - 1])
  }

  // ----- the parser keeps to it ------------------------------------------------------------------------------------

  lemma {:induction false} HolderIs(calls: seq<CallChunk>, index: nat)
    ensures Holder(calls, index) == LastId(calls, index)
  {
    if calls != [] {
      HolderIs(calls[..|calls| - 1], index);
    }
  }

  lemma {:induction false} HasNameIs(calls: seq<CallChunk>, id: string)
    ensures HasName(calls, id) == Named(calls, id)
  {
    if calls != [] {
      HasNameIs(calls[..|calls| - 1], id);
      HolderIs(calls, Place(calls[|calls| - 1]));
    }
  }

  lemma HandedFragIs(calls: seq<CallChunk>)
    requires calls != []
    ensures HandedFrag(calls) == Fragment(calls)
  {
    var call := calls[|calls| - 1];
    HolderIs(calls, Place(call));
    if Owner(calls).Some? {
      HasNameIs(calls[..|calls| - 1], Owner(calls).value);
    }
    hide Named, LastId, HasName, Holder;
  }

  ghost predicate Follows(s: State, ps: seq<Piece>) {
    && s.out == Handed(ps) && s.ended == Ended(s.out)
    && Bound(s.byIndex, CallsIn(ps)) && s.byIndex.Keys == Indices(CallsIn(ps))
    && forall id :: id in s.started <==> Named(CallsIn(ps), id)
  }

  lemma CallsInSnoc(ps: seq<Piece>, p: Piece)
    ensures CallsIn(ps + [p]) == CallsIn(ps) + if p.Frag? then [p.call] else []
  {
    assert (ps + [p])[..|ps|] == ps;
  }

  lemma HandedSnoc(ps: seq<Piece>, p: Piece)
    ensures Handed(ps + [p]) == Handed(ps) + Next(ps, Handed(ps), p)
  {
    assert (ps + [p])[..|ps|] == ps;
  }

  lemma EndedGrows(out: seq<Item>, more: seq<Item>)
    ensures Ended(out + more) == Ended(out) + Ended(more)
  {
  }

  lemma SaysOne(s: State, ps: seq<Piece>, p: Piece)
    requires Follows(s, ps) && ((p.Word? && (p.delta.Reasoning? || p.delta.Text?)) || p.Fault?)
    ensures Follows(s.(out := s.out + [if p.Word? then Ok(p.delta) else Err(p.message)]), ps + [p])
  {
    hide Bound, Named, Indices;
    CallsInSnoc(ps, p);
    HandedSnoc(ps, p);
    var item: Item := if p.Word? then Ok(p.delta) else Err(p.message);
    EndedGrows(s.out, [item]);
    assert CallsIn(ps) + [] == CallsIn(ps);
    assert Ended([item]) == {};
  }

  lemma IndicesGrow(calls: seq<CallChunk>, call: CallChunk)
    ensures Indices(calls + [call]) == Indices(calls) + if Nonempty(call.id) then {Place(call)} else {}
  {
  }

  lemma NoEnds(items: seq<Item>)
    requires forall i :: 0 <= i < |items| ==> items[i].Ok? && !items[i].value.ToolCallEnd?
    ensures Ended(items) == {}
  {
  }

  lemma FragHasNoEnd(calls: seq<CallChunk>)
    requires calls != []
    ensures Ended(HandedFrag(calls)) == {}
  {
    hide Holder, HasName;
    NoEnds(HandedFrag(calls));
  }

  lemma CallHands(s: State, calls: seq<CallChunk>, call: CallChunk)
    requires Bound(s.byIndex, calls) && (forall id :: id in s.started <==> Named(calls, id))
    ensures var t, longer := OnCall(s, call), calls + [call];
            && t.out == s.out + HandedFrag(longer) && t.ended == s.ended && Bound(t.byIndex, longer)
            && t.byIndex.Keys == s.byIndex.Keys + (if Nonempty(call.id) then {Place(call)} else {})
            && forall id :: id in t.started <==> Named(longer, id)
  {
    hide Bound, Named, Owner, HandedFrag, Fragment;
    var bound, longer := Bind(s, call), calls + [call];
    assert longer[|longer| - 1] == call;
    BindTracks(s, calls, call);
    OwnerIs(bound.byIndex, longer);
    HandedFragIs(longer);
    FragmentIs(s, calls, call);
    NamesGrow(calls, call);
    assert s.out + [] == s.out;
    if IndexOf(call) in bound.byIndex {
      StartsAndPasses(bound, bound.byIndex[IndexOf(call)], call);
    }
  }

  lemma StartsAndPasses(s: State, id: string, call: CallChunk)
    ensures var t := PassArguments(StartCall(s, id, call.name), id, call.arguments);
            && t.byIndex == s.byIndex && t.ended == s.ended
            && t.started == (if Given(call.name) then s.started + {id} else s.started)
            && t.out == s.out +
                 ((if Given(call.name) && id !in s.started then [Ok(ToolCallStart(id, call.name.value))] else []) +
                  (if Given(call.arguments) then [Ok(ToolCallArgs(id, call.arguments.value))] else []))
  {
  }

  /** A fragment handed on, with the call it belongs to. */
  lemma FragFollows(s: State, ps: seq<Piece>, call: CallChunk)
    requires Follows(s, ps)
    ensures Follows(OnCall(s, call), ps + [Frag(call)])
  {
    var calls := CallsIn(ps);
    hide Bound, Named, Indices, Handed, HandedFrag, CallsIn, Ended, OnCall;
    CallsInSnoc(ps, Frag(call));
    HandedSnoc(ps, Frag(call));
    CallHands(s, calls, call);
    IndicesGrow(calls, call);
    EndedGrows(s.out, HandedFrag(calls + [call]));
    FragHasNoEnd(calls + [call]);
  }

  lemma {:induction false} FragsFollow(s: State, ps: seq<Piece>, calls: seq<CallChunk>)
    requires Follows(s, ps)
    ensures Follows(OnCalls(s, calls), ps + FragsOf(calls))
    decreases |calls|
  {
    hide Follows, OnCall;
    if calls == [] {
      assert ps + FragsOf(calls) == ps;
    } else {
      var most, call := calls[..|calls| - 1], calls[|calls| - 1];
      FragsFollow(s, ps, most);
      FragFollows(OnCalls(s, most), ps + FragsOf(most), call);
      assert FragsOf(calls) == FragsOf(most) + [Frag(call)];
      assert ps + FragsOf(most) + [Frag(call)] == ps + FragsOf(calls);
    }
  }

  lemma EndsStep(calls: seq<CallChunk>, ended: set<string>, keys: set<nat>, id: string)
    requires keys != {} && Holder(calls, Least(keys)) == Some(id)
    ensures var rest := keys - {Least(keys)};
            Ends(calls, ended, keys) == if HasName(calls, id) && id !in ended
                                        then [Ok(ToolCallEnd(id))] + Ends(calls, ended + {id}, rest)
                                        else Ends(calls, ended, rest)
  {
    hide Holder, HasName;
  }

  /** From `s` to `t` exactly these ends were handed on. */
  predicate Closed(s: State, t: State, ends: seq<Item>) {
    t.out == s.out + ends && t.byIndex == s.byIndex && t.started == s.started && t.ended == s.ended + Ended(ends)
  }

  lemma ClosedThen(s: State, id: string, t: State, rest: seq<Item>)
    requires id in s.started && id !in s.ended && Closed(CloseOne(s, id), t, rest)
    ensures Closed(s, t, [Ok(ToolCallEnd(id))] + rest)
  {
    hide Ended;
    var one: seq<Item> := [Ok(ToolCallEnd(id))];
    assert s.out + one + rest == s.out + (one + rest);
    EndedGrows(one, rest);
    OneEnd(id);
    assert s.ended + {id} + Ended(rest) == s.ended + ({id} + Ended(rest));
  }

  lemma ClosedNothing(s: State)
    ensures Closed(s, s, [])
  {
  }

  /** Closing in index order hands on the ends that are due. */
  lemma {:induction false} CloseHands(s: State, calls: seq<CallChunk>, keys: set<nat>)
    requires Bound(s.byIndex, calls) && keys <= s.byIndex.Keys && (forall id :: id in s.started <==> Named(calls, id))
    ensures Closed(s, CloseFrom(s, keys), Ends(calls, s.ended, keys))
    decreases |keys|
  {
    hide Closed;
    if keys == {} {
      ClosedNothing(s);
    } else {
      hide Bound, Named, HasName, Holder, Ends;
      var k := Least(keys);
      var id := s.byIndex[k];
      BoundAt(s.byIndex, calls, k);
      HasNameIs(calls, id);
      EndsStep(calls, s.ended, keys, id);
      var next := CloseOne(s, id);
      CloseHands(next, calls, keys - {k});
      if id in s.started && id !in s.ended {
        ClosedThen(s, id, CloseFrom(next, keys - {k}), Ends(calls, next.ended, keys - {k}));
      }
    }
  }

  lemma OneEnd(id: string)
    ensures Ended([Ok(ToolCallEnd(id))]) == {id}
  {
    var item: Item := Ok(ToolCallEnd(id));
    assert item in [item];
  }

  lemma BoundAt(byIndex: map<nat, string>, calls: seq<CallChunk>, k: nat)
    requires Bound(byIndex, calls) && k in byIndex
    ensures LastId(calls, k) == Some(byIndex[k]) && Holder(calls, k) == Some(byIndex[k])
  {
    HolderIs(calls, k);
  }

  lemma StopFollows(s: State, ps: seq<Piece>)
    requires Follows(s, ps)
    ensures Follows(CloseOpen(s), ps + [Stop])
  {
    var calls := CallsIn(ps);
    hide Bound, Named, Indices, Ended, Ends, CloseFrom, Handed, CallsIn;
    CloseHands(s, calls, s.byIndex.Keys);
    CallsInSnoc(ps, Stop);
    HandedSnoc(ps, Stop);
    assert calls + [] == calls;
    EndedGrows(s.out, Ends(calls, s.ended, s.byIndex.Keys));
  }

  lemma ChoiceFollows(s: State, ps: seq<Piece>, choice: Choice)
    requires Follows(s, ps)
    ensures Follows(OnChoice(s, choice), ps + PiecesOf(choice))
  {
    hide Follows, OnCalls, CloseOpen, FragsOf;
    var thought := if Given(choice.reasoning) then Emit(s, Reasoning(choice.reasoning.value)) else s;
    var a := if Nonempty(choice.reasoning) then [Word(Reasoning(choice.reasoning.value))] else [];
    var b := if Nonempty(choice.content) then [Word(Text(choice.content.value))] else [];
    if a != [] {
      SaysOne(s, ps, a[0]);
    }
    assert ps + [] == ps && ps + a + [] == ps + a;
    if b != [] {
      SaysOne(thought, ps + a, b[0]);
    }
    var said := Said(s, choice);
    assert Follows(said, ps + a + b);
    FragsFollow(said, ps + a + b, choice.calls);
    var called, c := OnCalls(said, choice.calls), FragsOf(choice.calls);
    var d := if Nonempty(choice.finishReason) then [Stop] else [];
    if d != [] {
      StopFollows(called, ps + a + b + c);
    } else {
      assert ps + a + b + c + d == ps + a + b + c;
    }
    assert ps + (a + b + c + d) == ps + a + b + c + d;
  }

  lemma {:induction false} PiecesOfAllSnoc(choices: seq<Choice>, choice: Choice)
    ensures PiecesOfAll(choices + [choice]) == PiecesOfAll(choices) + PiecesOf(choice)
  {
    hide PiecesOf;
    if choices == [] {
      assert choices + [choice] == [choice] && [choice][1..] == [];
      assert PiecesOf(choice) + [] == PiecesOf(choice);
    } else {
      assert (choices + [choice])[1..] == choices[1..] + [choice];
      PiecesOfAllSnoc(choices[1..], choice);
    }
  }

  lemma {:induction false} ChoicesFollow(s: State, ps: seq<Piece>, choices: seq<Choice>)
    requires Follows(s, ps)
    ensures Follows(OnChoices(s, choices), ps + PiecesOfAll(choices))
    decreases |choices|
  {
    hide Follows, OnChoice, PiecesOf;
    if choices == [] {
      assert ps + [] == ps;
    } else {
      var most, choice := choices[..|choices| - 1], choices[|choices| - 1];
      ChoicesFollow(s, ps, most);
      ChoiceFollows(OnChoices(s, most), ps + PiecesOfAll(most), choice);
      assert choices == most + [choice];
      PiecesOfAllSnoc(most, choice);
      assert ps + PiecesOfAll(most) + PiecesOf(choice) == ps + (PiecesOfAll(most) + PiecesOf(choice));
    }
  }

  lemma LineFollows(read: Reader, s: State, ps: seq<Piece>, line: string)
    requires Follows(s, ps)
    ensures Follows(OnLine(read, s, line), ps + PiecesOfLine(read, line))
  {
    hide Follows, OnChoices, CloseOpen, PiecesOfAll, Trim;
    assert ps + [] == ps;
    match FrameOf(read, line)
    case Quiet =>
    case Done => StopFollows(s, ps);
    case Failure(message) => SaysOne(s, ps, Fault(message));
    case Choices(choices) => ChoicesFollow(s, ps, choices);
  }

  // ----- the body in pieces ----------------------------------------------------------------------------------------

  function PiecesOfLines(read: Reader, lines: seq<string>): seq<Piece> {
    if lines == [] then [] else PiecesOfLine(read, lines[0]) + PiecesOfLines(read, lines[1..])
  }

  /** A text's lines by its newlines alone: what lies between them, without what trails it; and what is left over. */
  function LinesBetween(pieces: seq<string>): (lines: seq<string>)
    requires pieces != []
    ensures |lines| == |pieces| - 1 && forall i :: 0 <= i < |lines| ==> lines[i] == TrimEnd(pieces[i] + "\n")
  {
    if |pieces| == 1 then [] else [TrimEnd(pieces[0] + "\n")] + LinesBetween(pieces[1..])
  }

  /** Everything said in a body that came in these pieces, errors in their place, after `buffer` was left over. */
  function SaidIn(read: Reader, buffer: string, pieces: seq<Result<string, string>>): seq<Piece>
    decreases |pieces|
  {
    if pieces == [] then
      (if Trim(buffer) == "" then [] else PiecesOfLine(read, TrimEnd(buffer))) + [Stop]
    else
      match pieces[0]
      case Err(error) => [Fault(error)] + SaidIn(read, buffer, pieces[1..])
      case Ok(text) =>
        var between := Split(buffer + text, '\n');
        PiecesOfLines(read, LinesBetween(between)) + SaidIn(read, between[|between| - 1], pieces[1..])
  }

  lemma SplitAtNewline(text: string)
    ensures var at, between := Newline(text), Split(text, '\n');
            if at.None? then between == [text]
            else between == [text[..at.value]] + Split(text[at.value + 1..], '\n')
  {
    var at := Newline(text);
    var cut := SplitOnce(text, '\n');
    if at.Some? {
      var a, b := text[..at.value], text[at.value + 1..];
      assert text == a + ['\n'] + b;
      assert '\n' !in a;
      SplitOnceAt(a, '\n', b);
    } else {
      assert '\n' !in text;
    }
  }

  lemma {:induction false} DrainFollows(read: Reader, s: State, ps: seq<Piece>, buffer: string)
    requires Follows(s, ps)
    ensures var b, between := Drain(read, Buffered(s, buffer)), Split(buffer, '\n');
            && Follows(b.state, ps + PiecesOfLines(read, LinesBetween(between)))
            && b.buffer == between[|between| - 1]
    decreases |buffer|
  {
    hide Follows, OnLine, PiecesOfLine, TrimEnd;
    SplitAtNewline(buffer);
    var at, between := Newline(buffer), Split(buffer, '\n');
    hide Split;
    if at.None? {
      assert ps + [] == ps;
    } else {
      var line, rest := TrimEnd(buffer[..at.value + 1]), buffer[at.value + 1..];
      assert buffer[..at.value + 1] == buffer[..at.value] + "\n";
      LineFollows(read, s, ps, line);
      DrainFollows(read, OnLine(read, s, line), ps + PiecesOfLine(read, line), rest);
      var later := Split(rest, '\n');
      assert between[1..] == later && LinesBetween(between) == [line] + LinesBetween(later);
      assert ([line] + LinesBetween(later))[1..] == LinesBetween(later);
      var a, b := PiecesOfLine(read, line), PiecesOfLines(read, LinesBetween(later));
      assert ps + a + b == ps + (a + b);
    }
  }

  lemma TailFollows(read: Reader, b: Buffered, ps: seq<Piece>)
    requires Follows(b.state, ps)
    ensures Follows(Tail(read, b.state, b.buffer), ps + SaidIn(read, b.buffer, []))
  {
    hide Follows, OnLine, PiecesOfLine, TrimEnd, Trim, CloseOpen;
    var last := if Trim(b.buffer) == "" then [] else PiecesOfLine(read, TrimEnd(b.buffer));
    assert ps + [] == ps;
    if Trim(b.buffer) != "" {
      LineFollows(read, b.state, ps, TrimEnd(b.buffer));
    }
    var s := if Trim(b.buffer) == "" then b.state else OnLine(read, b.state, TrimEnd(b.buffer));
    StopFollows(s, ps + last);
    assert ps + last + [Stop] == ps + (last + [Stop]);
  }

  /** What one piece of the body says, and what it leaves over. */
  function SaidByPiece(read: Reader, buffer: string, piece: Result<string, string>): (seq<Piece>, string) {
    match piece
    case Err(error) => ([Fault(error)], buffer)
    case Ok(text) =>
      var between := Split(buffer + text, '\n');
      (PiecesOfLines(read, LinesBetween(between)), between[|between| - 1])
  }

  lemma PieceFollows(read: Reader, b: Buffered, ps: seq<Piece>, piece: Result<string, string>)
    requires Follows(b.state, ps)
    ensures var next, said := Feed(read, b, piece), SaidByPiece(read, b.buffer, piece);
            Follows(next.state, ps + said.0) && next.buffer == said.1
  {
    hide Follows, Drain, PiecesOfLines, LinesBetween, Split;
    match piece
    case Err(error) => SaysOne(b.state, ps, Fault(error));
    case Ok(text) => DrainFollows(read, b.state, ps, b.buffer + text);
  }

  lemma SaidFirst(read: Reader, buffer: string, piece: Result<string, string>, rest: seq<Result<string, string>>)
    ensures var said := SaidByPiece(read, buffer, piece);
            SaidIn(read, buffer, [piece] + rest) == said.0 + SaidIn(read, said.1, rest)
  {
    hide PiecesOfLines, LinesBetween, Split, PiecesOfLine;
    assert ([piece] + rest)[1..] == rest;
  }

  lemma {:induction false} FeedFollows(read: Reader, b: Buffered, ps: seq<Piece>, pieces: seq<Result<string, string>>)
    requires Follows(b.state, ps)
    ensures var fed := FeedAll(read, b, pieces);
            Follows(Tail(read, fed.state, fed.buffer), ps + SaidIn(read, b.buffer, pieces))
    decreases |pieces|
  {
    hide Follows, Feed, Tail, SaidIn, SaidByPiece;
    if pieces == [] {
      TailFollows(read, b, ps);
    } else {
      var next, said := Feed(read, b, pieces[0]), SaidByPiece(read, b.buffer, pieces[0]);
      PieceFollows(read, b, ps, pieces[0]);
      FeedFollows(read, next, ps + said.0, pieces[1..]);
      SaidFirst(read, b.buffer, pieces[0], pieces[1..]);
      assert pieces == [pieces[0]] + pieces[1..];
      var rest := SaidIn(read, next.buffer, pieces[1..]);
      assert ps + said.0 + rest == ps + (said.0 + rest);
    }
  }

  lemma FreshFollows()
    ensures Follows(FRESH, [])
  {
  }

  /**
   However a body comes, with errors anywhere between its pieces: everything handed on, in its order, is what the
   list of everything said in it is handed on as, with its calls closed at the end.
   */
  lemma EverythingInOrder(read: Reader, pieces: seq<Result<string, string>>)
    ensures Streamed(read, pieces).out == Handed(SaidIn(read, "", pieces))
  {
    FreshFollows();
    hide Handed, SaidIn, Tail, Ended;
    FeedFollows(read, Buffered(FRESH, ""), [], pieces);
    assert [] + SaidIn(read, "", pieces) == SaidIn(read, "", pieces);
  }
}
