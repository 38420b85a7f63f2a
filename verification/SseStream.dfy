/**
 A provider's stream as deltas: bytes arrive in any pieces, are taken line by line, and fragments of a tool
 call find the call they belong to.

 The functions on `State` say what each step does; `DeltaStream` is the object that does it in place. Reading a
 payload as JSON is outside this model: `read` is any function from a payload to what it holds.
 */
module SseStream {
  import opened Common
  import opened Texts

  datatype Delta =
    | Reasoning(text: string)
    | Text(text: string)
    | ToolCallStart(id: string, name: string)
    | ToolCallArgs(id: string, delta: string)
    | ToolCallEnd(id: string)

  /** A fragment of a tool call: the first one names it, later ones carry only its index. */
  datatype CallChunk = CallChunk(index: Option<nat>, id: Option<string>, name: Option<string>,
      arguments: Option<string>)

  datatype Choice = Choice(reasoning: Option<string>, content: Option<string>, calls: seq<CallChunk>,
      finishReason: Option<string>)

  /** What a payload is: an error body, a chunk of choices, or neither. */
  datatype Reading = ErrorBody(message: string) | Chunk(choices: seq<Choice>) | Unreadable

  type Reader = string -> Reading

  type Item = Result<Delta, string>

  /** The parser's fields, and every item handed on so far. */
  datatype State = State(byIndex: map<nat, string>, started: set<string>, ended: set<string>, out: seq<Item>)

  const FRESH := State(map[], {}, {}, [])

  // ----- one line ---------------------------------------------------------------------------------------

  predicate Given(text: Option<string>) {
    text.Some? && text.value != ""
  }

  function Emit(s: State, delta: Delta): State {
    s.(out := s.out + [Ok(delta)])
  }

  function IndexOf(call: CallChunk): nat {
    if call.index.Some? then call.index.value else 0
  }

  function Bind(s: State, call: CallChunk): State {
    if Given(call.id) then s.(byIndex := s.byIndex[IndexOf(call) := call.id.value]) else s
  }

  function StartCall(s: State, id: string, name: Option<string>): State {
    if Given(name) && id !in s.started
    then Emit(s.(started := s.started + {id}), ToolCallStart(id, name.value)) else s
  }

  function PassArguments(s: State, id: string, arguments: Option<string>): State {
    if Given(arguments) then Emit(s, ToolCallArgs(id, arguments.value)) else s
  }

  function OnCall(s: State, call: CallChunk): State {
    var bound := Bind(s, call);
    if IndexOf(call) !in bound.byIndex then bound
    else
      var id := bound.byIndex[IndexOf(call)];
      PassArguments(StartCall(bound, id, call.name), id, call.arguments)
  }

  function OnCalls(s: State, calls: seq<CallChunk>): State
    decreases |calls|
  {
    if calls == [] then s else OnCall(OnCalls(s, calls[..|calls| - 1]), calls[|calls| - 1])
  }

  function CloseOne(s: State, id: string): State {
    if id in s.started && id !in s.ended
    then Emit(s.(ended := s.ended + {id}), ToolCallEnd(id)) else s
  }

  /** The calls of these indices, lowest first: each started one that has not ended, ends. */
  ghost function CloseFrom(s: State, keys: set<nat>): State
    requires keys <= s.byIndex.Keys
    decreases |keys|
  {
    if keys == {} then s else CloseFrom(CloseOne(s, s.byIndex[Least(keys)]), keys - {Least(keys)})
  }

  ghost function CloseOpen(s: State): State {
    CloseFrom(s, s.byIndex.Keys)
  }

  function Said(s: State, choice: Choice): State {
    var thought := if Given(choice.reasoning) then Emit(s, Reasoning(choice.reasoning.value)) else s;
    if Given(choice.content) then Emit(thought, Text(choice.content.value)) else thought
  }

  ghost function OnChoice(s: State, choice: Choice): State {
    var called := OnCalls(Said(s, choice), choice.calls);
    if Given(choice.finishReason) then CloseOpen(called) else called
  }

  ghost function OnChoices(s: State, choices: seq<Choice>): State
    decreases |choices|
  {
    if choices == [] then s else OnChoice(OnChoices(s, choices[..|choices| - 1]), choices[|choices| - 1])
  }

  /** What a line asks of the parser. */
  datatype Frame = Quiet | Done | Failure(message: string) | Choices(choices: seq<Choice>)

  function FrameOf(read: Reader, line: string): Frame {
    if |line| >= 6 && line[..6] == "data: " then
      var payload := Trim(line[6..]);
      if payload == "" then Quiet
      else if payload == "[DONE]" then Done
      else
        match read(payload)
        case ErrorBody(message) => Failure(message)
        case Chunk(choices) => Choices(choices)
        case Unreadable => Quiet
    else
      match read(Trim(line))
      case ErrorBody(message) => Failure(message)
      case _ => Quiet
  }

  ghost function OnFrame(s: State, frame: Frame): State {
    match frame
    case Quiet => s
    case Done => CloseOpen(s)
    case Failure(message) => s.(out := s.out + [Err(message)])
    case Choices(choices) => OnChoices(s, choices)
  }

  ghost function OnLine(read: Reader, s: State, line: string): State {
    OnFrame(s, FrameOf(read, line))
  }

  ghost function OnLines(read: Reader, s: State, lines: seq<string>): State
    decreases |lines|
  {
    if lines == [] then s else OnLine(read, OnLines(read, s, lines[..|lines| - 1]), lines[|lines| - 1])
  }

  // ----- the text of a stream, whole -----------------------------------------------------------------------

  function Newline(text: string): (at: Option<nat>)
    ensures at.Some? ==> at.value < |text| && text[at.value] == '\n'
    ensures forall k :: 0 <= k < (if at.Some? then at.value else |text|) ==> text[k] != '\n'
  {
    if text == "" then None
    else if text[0] == '\n' then Some(0)
    else
      var rest := Newline(text[1..]);
      if rest.Some? then Some(rest.value + 1) else None
  }

  /** The lines of a text, each without what trails it. */
  function Lines(text: string): seq<string>
    decreases |text|
  {
    var at := Newline(text);
    if at.None? then [] else [TrimEnd(text[..at.value + 1])] + Lines(text[at.value + 1..])
  }

  /** What follows the last newline. */
  function Leftover(text: string): string
    decreases |text|
  {
    var at := Newline(text);
    if at.None? then text else Leftover(text[at.value + 1..])
  }

  /** The end of the body: a last line that has no newline, and the calls still open. */
  ghost function Tail(read: Reader, s: State, leftover: string): State {
    CloseOpen(if Trim(leftover) == "" then s else OnLine(read, s, TrimEnd(leftover)))
  }

  ghost function Whole(read: Reader, text: string): State {
    Tail(read, OnLines(read, FRESH, Lines(text)), Leftover(text))
  }

  // ----- the text of a stream, in pieces ---------------------------------------------------------------------

  datatype Buffered = Buffered(state: State, buffer: string)

  /** Take the buffer's lines as long as it has one. */
  ghost function Drain(read: Reader, b: Buffered): Buffered
    decreases |b.buffer|
  {
    var at := Newline(b.buffer);
    if at.None? then b
    else Drain(read, Buffered(OnLine(read, b.state, TrimEnd(b.buffer[..at.value + 1])), b.buffer[at.value + 1..]))
  }

  /** One piece of the body, or an error in its place. */
  ghost function Feed(read: Reader, b: Buffered, piece: Result<string, string>): Buffered {
    match piece
    case Ok(text) => Drain(read, b.(buffer := b.buffer + text))
    case Err(error) => b.(state := b.state.(out := b.state.out + [Err(error)]))
  }

  ghost function FeedAll(read: Reader, b: Buffered, pieces: seq<Result<string, string>>): Buffered
    decreases |pieces|
  {
    if pieces == [] then b else FeedAll(read, Feed(read, b, pieces[0]), pieces[1..])
  }

  ghost function Streamed(read: Reader, pieces: seq<Result<string, string>>): State {
    var b := FeedAll(read, Buffered(FRESH, ""), pieces);
    Tail(read, b.state, b.buffer)
  }

  // ----- the object ---------------------------------------------------------------------------------------------

  class DeltaStream {
    const read: Reader
    var byIndex: map<nat, string>
    var started: set<string>
    var ended: set<string>
    var buffer: string
    var out: seq<Item>

    ghost function Value(): State
      reads this
    {
      State(byIndex, started, ended, out)
    }

    constructor (read: Reader)
      ensures this.read == read && Value() == FRESH && buffer == ""
    {
      this.read := read;
      byIndex, started, ended, out, buffer := map[], {}, {}, [], "";
    }

    method PushCall(call: CallChunk)
      modifies this`byIndex, this`started, this`out
      ensures Value() == OnCall(old(Value()), call)
    {
      var index := if call.index.Some? then call.index.value else 0;
      if call.id.Some? && call.id.value != "" {
        byIndex := byIndex[index := call.id.value];
      }
      if index !in byIndex {
        return;
      }
      var id := byIndex[index];
      if call.name.Some? && call.name.value != "" && id !in started {
        started, out := started + {id}, out + [Ok(ToolCallStart(id, call.name.value))];
      }
      if call.arguments.Some? && call.arguments.value != "" {
        out := out + [Ok(ToolCallArgs(id, call.arguments.value))];
      }
    }

    /** Indices in order, each started call that has not ended. */
    method Close()
      modifies this`ended, this`out
      ensures Value() == CloseOpen(old(Value()))
    {
      var keys := byIndex.Keys;
      while keys != {}
        invariant keys <= byIndex.Keys
        invariant CloseFrom(Value(), keys) == CloseOpen(old(Value()))
        decreases |keys|
      {
        LeastExists(keys);
        var index :| index in keys && forall j :: j in keys ==> index <= j;
        assert index == Least(keys);
        var id := byIndex[index];
        if id in started && id !in ended {
          ended, out := ended + {id}, out + [Ok(ToolCallEnd(id))];
        }
        keys := keys - {index};
      }
    }

    method PushChoice(choice: Choice)
      modifies this`byIndex, this`started, this`ended, this`out
      ensures Value() == OnChoice(old(Value()), choice)
    {
      hide OnCall, CloseOpen;
      if choice.reasoning.Some? && choice.reasoning.value != "" {
        out := out + [Ok(Reasoning(choice.reasoning.value))];
      }
      if choice.content.Some? && choice.content.value != "" {
        out := out + [Ok(Text(choice.content.value))];
      }
      ghost var said := Value();
      for i := 0 to |choice.calls|
        invariant Value() == OnCalls(said, choice.calls[..i])
        invariant said == Said(old(Value()), choice)
      {
        assert choice.calls[..i + 1][..i] == choice.calls[..i];
        PushCall(choice.calls[i]);
      }
      assert choice.calls[..|choice.calls|] == choice.calls;
      if choice.finishReason.Some? && choice.finishReason.value != "" {
        Close();
      }
    }

    method PushLine(line: string)
      modifies this`byIndex, this`started, this`ended, this`out
      ensures Value() == OnLine(read, old(Value()), line)
    {
      hide OnChoice, CloseOpen, FrameOf;
      match FrameOf(read, line)
      case Quiet =>
      case Done => Close();
      case Failure(message) => out := out + [Err(message)];
      case Choices(choices) =>
        for i := 0 to |choices|
          invariant Value() == OnChoices(old(Value()), choices[..i])
        {
          assert choices[..i + 1][..i] == choices[..i];
          PushChoice(choices[i]);
        }
        assert choices[..|choices|] == choices;
    }

    /** A piece of the body: buffered, then taken line by line. */
    method PushPiece(piece: Result<string, string>)
      modifies this
      ensures Buffered(Value(), buffer) == Feed(read, old(Buffered(Value(), buffer)), piece)
    {
      hide OnLine;
      if piece.Err? {
        out := out + [Err(piece.error)];
        return;
      }
      buffer := buffer + piece.value;
      ghost var full := Buffered(Value(), buffer);
      var at := Newline(buffer);
      while at.Some?
        invariant at == Newline(buffer)
        invariant Drain(read, Buffered(Value(), buffer)) == Drain(read, full)
        decreases |buffer|
      {
        var line := buffer[..at.value + 1];
        buffer := buffer[at.value + 1..];
        PushLine(TrimEnd(line));
        at := Newline(buffer);
      }
    }

    method Finish()
      modifies this
      ensures buffer == "" && Value() == Tail(read, old(Value()), old(buffer))
    {
      hide OnLine, CloseOpen;
      var leftover := buffer;
      buffer := "";
      if Trim(leftover) != "" {
        PushLine(TrimEnd(leftover));
      }
      Close();
    }
  }

  lemma LeastExists(keys: set<nat>)
    requires keys != {}
    ensures exists k :: k in keys && forall j :: j in keys ==> k <= j
  {
    var k := Least(keys);
    assert k in keys && forall j :: j in keys ==> k <= j;
  }

  // ----- how the body was cut makes no difference --------------------------------------------------------------

  lemma NewlineGrows(a: string, b: string)
    requires Newline(a).Some?
    ensures Newline(a + b) == Newline(a)
  {
    var at, all := Newline(a).value, Newline(a + b);
    assert (a + b)[at] == '\n';
    assert forall k :: 0 <= k < at ==> (a + b)[k] == a[k];
  }

  /** Draining what came first and then the rest is draining all of it at once. */
  lemma {:induction false} DrainSplit(read: Reader, s: State, a: string, b: string)
    ensures var first := Drain(read, Buffered(s, a));
            Drain(read, first.(buffer := first.buffer + b)) == Drain(read, Buffered(s, a + b))
    decreases |a|
  {
    hide OnLine;
    if Newline(a).Some? {
      var n := Newline(a).value + 1;
      NewlineGrows(a, b);
      assert (a + b)[..n] == a[..n] && (a + b)[n..] == a[n..] + b;
      DrainSplit(read, OnLine(read, s, TrimEnd(a[..n])), a[n..], b);
    }
  }

  lemma {:induction false} FeedAllConcat(read: Reader, b: Buffered, xs: seq<Result<string, string>>,
      ys: seq<Result<string, string>>)
    ensures FeedAll(read, b, xs + ys) == FeedAll(read, FeedAll(read, b, xs), ys)
    decreases |xs|
  {
    hide Feed;
    if xs == [] {
      assert xs + ys == ys;
    } else {
      assert (xs + ys)[1..] == xs[1..] + ys;
      FeedAllConcat(read, Feed(read, b, xs[0]), xs[1..], ys);
    }
  }

  lemma FeedSplit(read: Reader, b: Buffered, first: string, second: string)
    ensures Feed(read, Feed(read, b, Ok(first)), Ok(second)) == Feed(read, b, Ok(first + second))
  {
    hide Drain;
    DrainSplit(read, b.state, b.buffer + first, second);
    assert b.buffer + first + second == b.buffer + (first + second);
  }

  /** Cutting any piece in two, anywhere between characters, changes nothing of what comes out. */
  lemma CuttingChangesNothing(read: Reader, before: seq<Result<string, string>>, first: string, second: string,
      after: seq<Result<string, string>>)
    ensures Streamed(read, before + [Ok(first), Ok(second)] + after)
            == Streamed(read, before + [Ok(first + second)] + after)
  {
    hide Feed, Tail;
    var b := FeedAll(read, Buffered(FRESH, ""), before);
    FeedTwo(read, b, first, second);
    FeedAllConcat(read, Buffered(FRESH, ""), before, [Ok(first), Ok(second)]);
    FeedAllConcat(read, Buffered(FRESH, ""), before, [Ok(first + second)]);
    FeedAllConcat(read, Buffered(FRESH, ""), before + [Ok(first), Ok(second)], after);
    FeedAllConcat(read, Buffered(FRESH, ""), before + [Ok(first + second)], after);
  }

  lemma FeedTwo(read: Reader, b: Buffered, first: string, second: string)
    ensures FeedAll(read, b, [Ok(first), Ok(second)]) == FeedAll(read, b, [Ok(first + second)])
  {
    FeedSplit(read, b, first, second);
    hide Feed;
    var pieces: seq<Result<string, string>> := [Ok(first), Ok(second)];
    assert pieces[1..] == [Ok(second)] && pieces[1..][1..] == [];
    var one: seq<Result<string, string>> := [Ok(first + second)];
    assert one[1..] == [];
  }

  function Joined(texts: seq<string>): string {
    if texts == [] then "" else texts[0] + Joined(texts[1..])
  }

  function Pieces(texts: seq<string>): seq<Result<string, string>> {
    if texts == [] then [] else [Ok(texts[0])] + Pieces(texts[1..])
  }

  lemma {:induction false} FedIsDrained(read: Reader, s: State, a: string, texts: seq<string>)
    ensures FeedAll(read, Drain(read, Buffered(s, a)), Pieces(texts)) == Drain(read, Buffered(s, a + Joined(texts)))
    decreases |texts|
  {
    hide OnLine, Drain;
    if texts == [] {
      assert a + "" == a;
    } else {
      assert Pieces(texts)[1..] == Pieces(texts[1..]);
      DrainSplit(read, s, a, texts[0]);
      assert a + texts[0] + Joined(texts[1..]) == a + Joined(texts);
      FedIsDrained(read, s, a + texts[0], texts[1..]);
    }
  }

  lemma {:induction false} OnLinesCons(read: Reader, s: State, line: string, lines: seq<string>)
    ensures OnLines(read, s, [line] + lines) == OnLines(read, OnLine(read, s, line), lines)
    decreases |lines|
  {
    hide OnLine;
    if lines == [] {
      assert [line] + lines == [line] && [line][..0] == [];
    } else {
      OnLinesCons(read, s, line, lines[..|lines| - 1]);
      assert ([line] + lines)[..|lines|] == [line] + lines[..|lines| - 1];
    }
  }

  lemma {:induction false} DrainedIsLines(read: Reader, s: State, text: string)
    ensures Drain(read, Buffered(s, text)) == Buffered(OnLines(read, s, Lines(text)), Leftover(text))
    decreases |text|
  {
    hide OnLine;
    if Newline(text).Some? {
      var n := Newline(text).value + 1;
      var line := TrimEnd(text[..n]);
      DrainedIsLines(read, OnLine(read, s, line), text[n..]);
      OnLinesCons(read, s, line, Lines(text[n..]));
    }
  }

  /** However the text is cut into pieces, what comes out is the whole text read line by line. */
  lemma PiecesAreTheWhole(read: Reader, texts: seq<string>)
    ensures Streamed(read, Pieces(texts)) == Whole(read, Joined(texts))
  {
    hide Tail;
    assert Drain(read, Buffered(FRESH, "")) == Buffered(FRESH, "");
    FedIsDrained(read, FRESH, "", texts);
    assert "" + Joined(texts) == Joined(texts);
    DrainedIsLines(read, FRESH, Joined(texts));
  }
}
