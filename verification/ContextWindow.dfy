/**
 Trimming a conversation to a model's limit: an estimate of its cost, the whole turns that go when it is over,
 and the older pictures that go between trims.

 `Fitted` says what one call does; `Window.Fit` is the loop that does it in place.
 */
module ContextWindow {
  import opened Common
  import opened ChatBlocks

  const IMAGE_TOKENS := 1600
  const MESSAGE_TOKENS := 4
  const ANSWER_TOKENS := 8192

  // ----- the estimate --------------------------------------------------------------------------------------

  /** How many bytes a character takes in UTF-8. */
  function Utf8Length(c: char): nat {
    if c < '\U{80}' then 1 else if c < '\U{800}' then 2 else if c < '\U{10000}' then 3 else 4
  }

  function ByteLength(text: string): nat {
    if text == "" then 0 else Utf8Length(text[0]) + ByteLength(text[1..])
  }

  /** A third of the bytes, rounded up. */
  function TextTokens(text: string): (n: nat)
    ensures ByteLength(text) <= 3 * n < ByteLength(text) + 3
  {
    (ByteLength(text) + 2) / 3
  }

  function CallTokens(calls: seq<Call>): nat {
    if calls == [] then 0 else TextTokens(calls[0].name) + TextTokens(calls[0].arguments) + CallTokens(calls[1..])
  }

  function MessageTokens(m: Message): nat {
    MESSAGE_TOKENS + TextTokens(m.content) + IMAGE_TOKENS * |m.images| + CallTokens(m.calls)
  }

  function Sum(ms: seq<Message>): nat {
    if ms == [] then 0 else MessageTokens(ms[0]) + Sum(ms[1..])
  }

  function SystemTokens(system: Option<string>): nat {
    if system.Some? then TextTokens(system.value) else 0
  }

  function ToolTokens(tools: seq<string>): nat {
    if tools == [] then 0 else TextTokens(tools[0]) + ToolTokens(tools[1..])
  }

  datatype Request = Request(system: Option<string>, messages: seq<Message>, tools: seq<string>,
      contextTokens: Option<nat>)

  function Estimate(r: Request): nat {
    SystemTokens(r.system) + Sum(r.messages) + ToolTokens(r.tools)
  }

  /** Something the person said, not a line the server wrote about the turn before it. */
  predicate StartsTurn(m: Message) {
    m.role.UserRole? && !("[harness]" <= m.content) && !("[earlier " <= m.content)
  }

  // ----- the window ------------------------------------------------------------------------------------------

  datatype Frame = Frame(keep: nat, head: nat, leftOut: nat, system: Option<string>)

  function LeadingSystem(ms: seq<Message>): (n: nat)
    ensures n <= |ms|
  {
    if ms == [] || !ms[0].role.SystemRole? then 0 else 1 + LeadingSystem(ms[1..])
  }

  /** Where the last message of a person is. */
  function LastUser(ms: seq<Message>): (at: Option<nat>)
    ensures at.Some? ==> at.value < |ms|
  {
    if ms == [] then None
    else if ms[|ms| - 1].role.UserRole? then Some(|ms| - 1)
    else LastUser(ms[..|ms| - 1])
  }

  function AtEntry(r: Request): Frame {
    var keep, last := LeadingSystem(r.messages), LastUser(r.messages);
    Frame(keep, if last.Some? && last.value > keep then last.value else keep, 0, r.system)
  }

  function Least(a: nat, b: nat): nat {
    if a <= b then a else b
  }

  /** What the prompt may fill: all but a quarter for the answer, or all but the answer's own when that is less. */
  function Room(limit: nat): (room: nat)
    ensures room <= limit && limit - room <= 8192 && 4 * (limit - room) <= limit
    ensures limit - room == 8192 || limit < 4 * (limit - room + 1)
  {
    limit - Least(ANSWER_TOKENS, limit / 4)
  }

  /** Four fifths of the room, in whole tens: what a cut aims for. */
  function Target(room: nat): (target: nat)
    ensures 10 * target <= 8 * room < 10 * target + 80
  {
    room / 10 * 8
  }

  /** Where the turn that begins at `cut` ends: the next one begins, or this run's own part does. */
  function TurnEnd(ms: seq<Message>, head: nat, cut: nat): (next: nat)
    requires cut < head <= |ms|
    ensures cut < next <= head && (next == head || StartsTurn(ms[next]))
    decreases head - cut
  {
    if cut + 1 == head || StartsTurn(ms[cut + 1]) then cut + 1 else TurnEnd(ms, head, cut + 1)
  }

  function Less(a: nat, b: nat): nat {
    if a >= b then a - b else 0
  }

  /** Whole turns, oldest first, until what is `left` is down to the target or no earlier turn remains. */
  function Cut(ms: seq<Message>, head: nat, cut: nat, left: nat, target: nat): (end: nat)
    requires cut <= head <= |ms|
    ensures cut <= end <= head
    decreases head - cut
  {
    if left <= target || cut == head then cut
    else
      var next := TurnEnd(ms, head, cut);
      Cut(ms, head, next, Less(left, Sum(ms[cut..next])), target)
  }

  function Noted(system: Option<string>, note: string): Option<string> {
    Some(if system.Some? then system.value + "\n\n" + note else note)
  }

  /** A number as it is written. */
  function Decimal(n: nat): string {
    var digit := ('0' as int + n % 10) as char;
    if n < 10 then [digit] else Decimal(n / 10) + [digit]
  }

  const NOTE_START := "[harness] The "
  const NOTE_OLDEST := " oldest messages of this conversation"
  const NOTE_LEFT_OUT := " were left out so it fits the model's"
  const NOTE_ASK := " context. Ask the person if"
  const NOTE_END := " you need something from them."
  const NOTE_REST := NOTE_OLDEST + NOTE_LEFT_OUT + NOTE_ASK + NOTE_END

  /** What is added to the system message after a cut. */
  function Note(leftOut: nat): string {
    NOTE_START + Decimal(leftOut) + NOTE_REST
  }

  datatype Outcome = Outcome(frame: Frame, request: Request, result: Result<nat, nat>)

  predicate Fits(w: Frame, r: Request) {
    w.keep <= w.head <= |r.messages|
  }

  function Dropped(w: Frame, r: Request, cut: nat): (Frame, Request)
    requires w.keep <= cut <= w.head <= |r.messages|
  {
    var gone := cut - w.keep;
    var frame := w.(head := w.head - gone, leftOut := w.leftOut + gone);
    var messages := r.messages[..w.keep] + r.messages[cut..];
    var system := if frame.leftOut > 0 then Noted(w.system, Note(frame.leftOut)) else r.system;
    (frame, r.(messages := messages, system := system))
  }

  function Fitted(w: Frame, r: Request): Outcome
    requires Fits(w, r)
  {
    var estimate := Estimate(r);
    if r.contextTokens.None? || estimate <= Room(r.contextTokens.value) then Outcome(w, r, Ok(estimate))
    else
      var room := Room(r.contextTokens.value);
      var (frame, request) := Dropped(w, r, Cut(r.messages, w.head, w.keep, estimate, Target(room)));
      var left := Estimate(request);
      Outcome(frame, request, if left <= room then Ok(left) else Err(left))
  }

  // ----- the objects ---------------------------------------------------------------------------------------------

  class ModelRequest {
    var system: Option<string>
    var messages: seq<Message>
    var tools: seq<string>
    var contextTokens: Option<nat>

    ghost function Value(): Request
      reads this
    {
      Request(system, messages, tools, contextTokens)
    }

    function Tokens(): (n: nat)
      reads this
      ensures n == Estimate(Value())
    {
      SystemTokens(system) + Sum(messages) + ToolTokens(tools)
    }
  }

  class Window {
    var keep: nat
    var head: nat
    var leftOut: nat
    var system: Option<string>

    ghost function Value(): Frame
      reads this
    {
      Frame(keep, head, leftOut, system)
    }

    /** Found once, when the run starts. */
    constructor (request: ModelRequest)
      ensures Value() == AtEntry(request.Value())
    {
      var leading, last := LeadingSystem(request.messages), LastUser(request.messages);
      keep, leftOut, system := leading, 0, request.system;
      head := if last.Some? && last.value > leading then last.value else leading;
    }

    /** The end of the turn that begins at `cut`, message by message, and what it costs. */
    method SkipTurn(ms: seq<Message>, cut: nat) returns (next: nat, freed: nat)
      requires cut < head <= |ms|
      ensures next == TurnEnd(ms, head, cut) && freed == Sum(ms[cut..next])
    {
      hide MessageTokens, StartsTurn;
      next, freed := cut + 1, MessageTokens(ms[cut]);
      SumOfOne(ms, cut);
      while next < head && !StartsTurn(ms[next])
        invariant cut < next <= head
        invariant TurnEnd(ms, head, cut) ==
                  if next < head && !StartsTurn(ms[next]) then TurnEnd(ms, head, next) else next
        invariant freed == Sum(ms[cut..next])
      {
        SumOfNext(ms, cut, next);
        freed := freed + MessageTokens(ms[next]);
        next := next + 1;
      }
    }

    method FindCut(ms: seq<Message>, estimate: nat, target: nat) returns (cut: nat)
      requires keep <= head <= |ms|
      ensures cut == Cut(ms, head, keep, estimate, target)
    {
      hide Sum, TurnEnd;
      var freed := 0;
      cut := keep;
      while Less(estimate, freed) > target && cut < head
        invariant keep <= cut <= head
        invariant Cut(ms, head, cut, Less(estimate, freed), target) == Cut(ms, head, keep, estimate, target)
        decreases head - cut
      {
        var next, turn := SkipTurn(ms, cut);
        freed := freed + turn;
        cut := next;
      }
    }

    /** One fit: the request and the window are cut together, and the answer is the request's new estimate. */
    method Fit(request: ModelRequest) returns (result: Result<nat, nat>)
      requires Fits(Value(), request.Value())
      modifies this, request
      ensures var o := Fitted(old(Value()), old(request.Value()));
              Value() == o.frame && request.Value() == o.request && result == o.result
    {
      hide Estimate, Cut;
      var estimate := request.Tokens();
      if request.contextTokens.None? {
        return Ok(estimate);
      }
      var room := Room(request.contextTokens.value);
      if estimate <= room {
        return Ok(estimate);
      }
      var cut := FindCut(request.messages, estimate, Target(room));
      if cut > keep {
        request.messages := request.messages[..keep] + request.messages[cut..];
        head := head - (cut - keep);
        leftOut := leftOut + (cut - keep);
      }
      assert cut == keep ==> request.messages[..keep] + request.messages[cut..] == request.messages;
      if leftOut > 0 {
        request.system := Noted(system, Note(leftOut));
      }
      var left := request.Tokens();
      result := if left <= room then Ok(left) else Err(left);
    }
  }

  lemma SumOfOne(ms: seq<Message>, i: nat)
    requires i < |ms|
    ensures Sum(ms[i..i + 1]) == MessageTokens(ms[i])
  {
    assert ms[i..i + 1] == [ms[i]] && [ms[i]][1..] == [];
  }

  lemma {:induction false} SumConcat(a: seq<Message>, b: seq<Message>)
    ensures Sum(a + b) == Sum(a) + Sum(b)
  {
    hide MessageTokens;
    if a == [] {
      assert a + b == b;
    } else {
      assert (a + b)[1..] == a[1..] + b;
      SumConcat(a[1..], b);
    }
  }

  lemma SumOfNext(ms: seq<Message>, cut: nat, next: nat)
    requires cut <= next < |ms|
    ensures Sum(ms[cut..next + 1]) == Sum(ms[cut..next]) + MessageTokens(ms[next])
  {
    assert ms[cut..next + 1] == ms[cut..next] + ms[next..next + 1];
    SumConcat(ms[cut..next], ms[next..next + 1]);
    SumOfOne(ms, next);
  }

  // ----- the boundary found at entry -------------------------------------------------------------------------------

  lemma {:induction false} LeadingAreSystem(ms: seq<Message>, i: nat)
    requires i < LeadingSystem(ms)
    ensures ms[i].role.SystemRole?
  {
    if i > 0 {
      LeadingAreSystem(ms[1..], i - 1);
    }
  }

  lemma {:induction false} LastUserIsLast(ms: seq<Message>, i: nat)
    requires i < |ms| && ms[i].role.UserRole?
    ensures LastUser(ms).Some? && i <= LastUser(ms).value && ms[LastUser(ms).value].role.UserRole?
  {
    if i < |ms| - 1 && !ms[|ms| - 1].role.UserRole? {
      LastUserIsLast(ms[..|ms| - 1], i);
    }
  }

  /**
   What is protected at entry: the leading system messages, and everything from the boundary on, which is the
   person's last message when there is one past them. No message of a person lies beyond it.
   */
  lemma EntryProtectsTheTurn(r: Request, i: nat)
    requires i < |r.messages|
    ensures var w := AtEntry(r);
            && Fits(w, r) && w.leftOut == 0
            && (i < w.keep ==> r.messages[i].role.SystemRole?)
            && (r.messages[i].role.UserRole? ==> i <= w.head && r.messages[w.head].role.UserRole?)
  {
    var w := AtEntry(r);
    forall k: nat | k < w.keep ensures r.messages[k].role.SystemRole? {
      LeadingAreSystem(r.messages, k);
    }
    if r.messages[i].role.UserRole? {
      LastUserIsLast(r.messages, i);
    }
  }

  // ----- one call ----------------------------------------------------------------------------------------------------

  lemma {:induction false} CutIsTurn(ms: seq<Message>, head: nat, cut: nat, left: nat, target: nat)
    requires cut <= head <= |ms|
    ensures var end := Cut(ms, head, cut, left, target);
            && (end == cut || end == head || StartsTurn(ms[end]))
            && (end < head ==> Less(left, Sum(ms[cut..end])) <= target)
    decreases head - cut
  {
    hide StartsTurn, Sum;
    if left <= target || cut == head {
      SumOfNone(ms, cut);
    } else {
      var next := TurnEnd(ms, head, cut);
      CutIsTurn(ms, head, next, Less(left, Sum(ms[cut..next])), target);
      var end := Cut(ms, head, cut, left, target);
      assert ms[cut..end] == ms[cut..next] + ms[next..end];
      SumConcat(ms[cut..next], ms[next..end]);
    }
  }

  lemma SumOfNone(ms: seq<Message>, cut: nat)
    requires cut <= |ms|
    ensures Sum(ms[cut..cut]) == 0
  {
  }

  /** A place a turn ends: where another begins, or where this run's own part does. */
  predicate Boundary(ms: seq<Message>, head: nat, at: nat)
    requires head <= |ms|
  {
    at == head || (at < head && StartsTurn(ms[at]))
  }

  lemma {:induction false} TurnEndIsNext(ms: seq<Message>, head: nat, cut: nat, at: nat)
    requires cut < at <= head <= |ms| && Boundary(ms, head, at)
    ensures TurnEnd(ms, head, cut) <= at
    decreases head - cut
  {
    hide StartsTurn;
    if cut + 1 < at && !StartsTurn(ms[cut + 1]) {
      TurnEndIsNext(ms, head, cut + 1, at);
    }
  }

  /** No more goes than has to: short of the cut, no turn's end was enough. */
  lemma {:induction false} CutIsLeast(ms: seq<Message>, head: nat, cut: nat, left: nat, target: nat, at: nat)
    requires cut <= head <= |ms| && cut <= at < Cut(ms, head, cut, left, target) &&
            (at == cut || Boundary(ms, head, at))
    ensures Less(left, Sum(ms[cut..at])) > target
    decreases head - cut
  {
    hide StartsTurn, Sum, Boundary;
    if at == cut {
      SumOfNone(ms, cut);
    } else {
      var next := TurnEnd(ms, head, cut);
      TurnEndIsNext(ms, head, cut, at);
      CutIsLeast(ms, head, next, Less(left, Sum(ms[cut..next])), target, at);
      assert ms[cut..at] == ms[cut..next] + ms[next..at];
      SumConcat(ms[cut..next], ms[next..at]);
    }
  }

  /** What dropping does to the estimate. */
  lemma DroppedEstimate(w: Frame, r: Request, cut: nat)
    requires w.keep <= cut <= w.head <= |r.messages|
    ensures var after := Dropped(w, r, cut).1;
            Estimate(after) + SystemTokens(r.system) + Sum(r.messages[w.keep..cut])
            == Estimate(r) + SystemTokens(after.system)
  {
    hide Sum, SystemTokens, ToolTokens, Noted;
    var a, b, c := r.messages[..w.keep], r.messages[w.keep..cut], r.messages[cut..];
    assert r.messages == a + (b + c);
    SumConcat(a, b + c);
    SumConcat(b, c);
    SumConcat(a, c);
  }

  /**
   The answer is honest: what it says the request costs is what it costs now, and it is Ok exactly when no limit
   is known or that is within the room.
   */
  lemma FitIsHonest(w: Frame, r: Request)
    requires Fits(w, r)
    ensures var o := Fitted(w, r);
            && (if o.result.Ok? then o.result.value else o.result.error) == Estimate(o.request)
            && (o.result.Ok? <==> r.contextTokens.None? || Estimate(o.request) <= Room(r.contextTokens.value))
            && o.request.tools == r.tools && o.request.contextTokens == r.contextTokens
  {
    hide Estimate, Cut;
  }

  /** What the system message costs more once `gone` more messages are left out. */
  function NoteGrowth(w: Frame, r: Request, gone: nat): int {
    if w.leftOut + gone == 0 then 0
    else SystemTokens(Noted(w.system, Note(w.leftOut + gone))) - SystemTokens(r.system)
  }

  lemma CutLeavesATurnIff(w: Frame, r: Request, limit: nat)
    requires Fits(w, r) && r.contextTokens == Some(limit)
    ensures var o, room := Fitted(w, r), Room(limit);
            var cut := Cut(r.messages, w.head, w.keep, Estimate(r), Target(room));
            o.result.Err? && o.frame.head > o.frame.keep <==>
              && Estimate(r) > room && cut < w.head
              && Estimate(r) + NoteGrowth(w, r, cut - w.keep) > room + Sum(r.messages[w.keep..cut])
  {
    hide Sum, SystemTokens, Estimate, Cut, Note, Noted;
    DroppedEstimate(w, r, Cut(r.messages, w.head, w.keep, Estimate(r), Target(Room(limit))));
  }

  predicate Enough(ms: seq<Message>, keep: nat, at: nat, estimate: nat, target: nat)
    requires keep <= at <= |ms|
  {
    Less(estimate, Sum(ms[keep..at])) <= target
  }

  /** The first end of a turn at which what goes is enough. */
  ghost predicate FirstEnough(ms: seq<Message>, w: Frame, estimate: nat, target: nat, at: nat)
    requires w.keep <= w.head <= |ms|
  {
    && w.keep <= at <= w.head && (at == w.keep || Boundary(ms, w.head, at)) && Enough(ms, w.keep, at, estimate, target)
    && forall b: nat :: w.keep <= b < at && (b == w.keep || Boundary(ms, w.head, b)) ==>
         !Enough(ms, w.keep, b, estimate, target)
  }

  lemma CutIsFirstEnough(ms: seq<Message>, w: Frame, estimate: nat, target: nat, at: nat)
    requires w.keep <= w.head <= |ms| && at < w.head
    ensures FirstEnough(ms, w, estimate, target, at) <==> Cut(ms, w.head, w.keep, estimate, target) == at
  {
    hide Cut, Sum, StartsTurn;
    var cut := Cut(ms, w.head, w.keep, estimate, target);
    CutIsTurn(ms, w.head, w.keep, estimate, target);
    forall b: nat | w.keep <= b < cut && (b == w.keep || Boundary(ms, w.head, b))
      ensures !Enough(ms, w.keep, b, estimate, target)
    {
      CutIsLeast(ms, w.head, w.keep, estimate, target, b);
    }
    if cut < w.head {
      assert Enough(ms, w.keep, cut, estimate, target) && (cut == w.keep || Boundary(ms, w.head, cut));
    }
  }

  /**
   A fit that fails leaves an earlier turn exactly when the request is over, some turn short of the boundary is the
   first whose end frees enough, and the note's own growth takes it back.
   */
  lemma ErrLeavesATurnIff(w: Frame, r: Request, limit: nat)
    requires Fits(w, r) && r.contextTokens == Some(limit)
    ensures var o, room := Fitted(w, r), Room(limit);
            o.result.Err? && o.frame.head > o.frame.keep <==>
              && Estimate(r) > room
              && exists at: nat ::
                   && at < w.head && FirstEnough(r.messages, w, Estimate(r), Target(room), at)
                   && Estimate(r) + NoteGrowth(w, r, at - w.keep) > room + Sum(r.messages[w.keep..at])
  {
    hide Sum, Estimate, Cut, NoteGrowth, Fitted, FirstEnough;
    CutLeavesATurnIff(w, r, limit);
    forall at: nat | at < w.head
      ensures FirstEnough(r.messages, w, Estimate(r), Target(Room(limit)), at) <==>
              Cut(r.messages, w.head, w.keep, Estimate(r), Target(Room(limit))) == at
    {
      CutIsFirstEnough(r.messages, w, Estimate(r), Target(Room(limit)), at);
    }
  }

  lemma ErrWithATurnLeft(w: Frame, r: Request, limit: nat)
    requires Fits(w, r) && r.contextTokens == Some(limit)
    requires Fitted(w, r).result.Err? && Fitted(w, r).frame.head > w.keep
    ensures NoteGrowth(w, r, Fitted(w, r).frame.leftOut - w.leftOut) > Room(limit) - Target(Room(limit))
  {
    hide Sum, Estimate, Cut, NoteGrowth, Note, Noted;
    CutLeavesATurnIff(w, r, limit);
    CutIsTurn(r.messages, w.head, w.keep, Estimate(r), Target(Room(limit)));
  }

  // ----- the note's own cost -------------------------------------------------------------------------------------

  lemma {:induction false} ByteLengthConcat(a: string, b: string)
    ensures ByteLength(a + b) == ByteLength(a) + ByteLength(b)
  {
    hide Utf8Length;
    if a == "" {
      assert a + b == b;
    } else {
      assert (a + b)[1..] == a[1..] + b;
      ByteLengthConcat(a[1..], b);
    }
  }

  predicate Ascii(text: string) {
    forall i :: 0 <= i < |text| ==> text[i] < '\U{80}'
  }

  lemma {:induction false} AsciiLength(text: string)
    requires Ascii(text)
    ensures ByteLength(text) == |text|
  {
    if text != "" {
      AsciiLength(text[1..]);
    }
  }

  lemma {:induction false} DecimalIsShort(n: nat, most: nat)
    requires n <= most
    ensures 1 <= |Decimal(n)| <= |Decimal(most)| && Ascii(Decimal(n))
  {
    if n >= 10 {
      DecimalIsShort(n / 10, most / 10);
    } else if most >= 10 {
      DecimalIsShort(0, most / 10);
    }
  }

  lemma NoteIsAscii()
    ensures |NOTE_START| == 14 && Ascii(NOTE_START)
    ensures |NOTE_REST| == 131 && Ascii(NOTE_REST)
  {
    NoteBegins();
    NoteGoesOn();
    NoteEnds();
    hide Ascii;
    AsciiConcat(NOTE_OLDEST, NOTE_LEFT_OUT);
    AsciiConcat(NOTE_OLDEST + NOTE_LEFT_OUT, NOTE_ASK);
    AsciiConcat(NOTE_OLDEST + NOTE_LEFT_OUT + NOTE_ASK, NOTE_END);
  }

  lemma AsciiConcat(a: string, b: string)
    requires Ascii(a) && Ascii(b)
    ensures Ascii(a + b) && |a + b| == |a| + |b|
  {
  }

  lemma NoteBegins()
    ensures |NOTE_START| == 14 && Ascii(NOTE_START) && |NOTE_OLDEST| == 37 && Ascii(NOTE_OLDEST)
  {
  }

  lemma NoteGoesOn()
    ensures |NOTE_LEFT_OUT| == 37 && Ascii(NOTE_LEFT_OUT)
  {
  }

  lemma NoteEnds()
    ensures |NOTE_ASK| == 27 && Ascii(NOTE_ASK) && |NOTE_END| == 30 && Ascii(NOTE_END)
  {
  }

  lemma NoteLength(leftOut: nat)
    ensures ByteLength(Note(leftOut)) == 145 + |Decimal(leftOut)|
  {
    NoteIsAscii();
    DecimalIsShort(leftOut, leftOut);
    hide Ascii, Decimal, ByteLength;
    ByteLengthConcat(NOTE_START + Decimal(leftOut), NOTE_REST);
    ByteLengthConcat(NOTE_START, Decimal(leftOut));
    AsciiLength(NOTE_START);
    AsciiLength(Decimal(leftOut));
    AsciiLength(NOTE_REST);
  }

  /** The most a note of so many messages adds to a prompt. */
  function NoteTokens(leftOut: nat): nat {
    TextTokens("\n\n" + Note(leftOut))
  }

  /** A note of `n` digits costs 147 bytes and its digits. */
  lemma NoteTokensAre(leftOut: nat)
    ensures NoteTokens(leftOut) == (149 + |Decimal(leftOut)|) / 3
  {
    hide Note, Decimal, ByteLength;
    NoteLength(leftOut);
    ByteLengthConcat("\n\n", Note(leftOut));
    AsciiLength("\n\n");
  }

  lemma NotedCosts(system: Option<string>, leftOut: nat, most: nat)
    requires leftOut <= most
    ensures SystemTokens(Noted(system, Note(leftOut))) <= SystemTokens(system) + NoteTokens(most)
  {
    hide Note, ByteLength, Decimal;
    NoteTokensAre(leftOut);
    NoteTokensAre(most);
    DecimalIsShort(leftOut, most);
    var note := Note(leftOut);
    ByteLengthConcat("\n\n", note);
    if system.Some? {
      assert system.value + "\n\n" + note == system.value + ("\n\n" + note);
      ByteLengthConcat(system.value, "\n\n" + note);
    }
  }

  /** A limit of 335 tokens or more has room for the note, for any conversation under a thousand million messages. */
  lemma RoomForTheNote(limit: nat, most: nat)
    requires limit >= 335 && most < 1_000_000_000
    ensures NoteTokens(most) <= Room(limit) - Target(Room(limit))
  {
    NoteTokensAre(most);
    DecimalIsShort(most, 999_999_999);
    NineDigits();
    hide Decimal, NoteTokens, Ascii;
    FifthOfTheRoom(limit);
  }

  lemma FifthOfTheRoom(limit: nat)
    requires limit >= 335
    ensures Room(limit) - Target(Room(limit)) >= 52
  {
    var room := Room(limit);
    assert room >= 252;
    assert room - Target(room) == 2 * (room / 10) + room % 10;
  }

  /** And no lower: at 334 a note of nine digits does not fit. */
  lemma NoRoomBelow(most: nat)
    requires 100_000_000 <= most < 1_000_000_000
    ensures NoteTokens(most) > Room(334) - Target(Room(334))
  {
    NoteTokensAre(most);
    DecimalIsShort(100_000_000, most);
    NineDigits();
    hide Decimal, NoteTokens;
  }

  lemma NineDigits()
    ensures |Decimal(999_999_999)| == 9 && |Decimal(100_000_000)| == 9
  {
    assert |Decimal(999)| == 3 && |Decimal(100)| == 3;
    assert |Decimal(999_999)| == 6 && |Decimal(100_000)| == 6;
  }

  // ----- over a whole run --------------------------------------------------------------------------------------------

  const RECENT_IMAGES := 2

  function CountPictured(ms: seq<Message>): nat {
    if ms == [] then 0 else (if ms[0].images == [] then 0 else 1) + CountPictured(ms[1..])
  }

  /** Counting back from the end, pictures after the `keep`th message that has any are removed. */
  function KeepRecent(ms: seq<Message>, keep: nat): (kept: seq<Message>)
    ensures |kept| == |ms|
  {
    if ms == [] then []
    else
      var before, last := ms[..|ms| - 1], ms[|ms| - 1];
      if last.images == [] then KeepRecent(before, keep) + [last]
      else if keep == 0 then KeepRecent(before, 0) + [last.(images := [])]
      else KeepRecent(before, keep - 1) + [last]
  }

  lemma RecentStep(ms: seq<Message>, i: nat, keep: nat)
    requires i < |ms|
    ensures KeepRecent(ms[..i + 1], keep) ==
            if ms[i].images == [] then KeepRecent(ms[..i], keep) + [ms[i]]
            else KeepRecent(ms[..i], Less(keep, 1)) + [if keep == 0 then ms[i].(images := []) else ms[i]]
  {
    assert ms[..i + 1][..i] == ms[..i] && ms[..i + 1][i] == ms[i];
  }

  /** From the last message back, in place. */
  method KeepRecentImages(request: ModelRequest, keep: nat)
    modifies request
    ensures request.Value() == old(request.Value()).(messages := KeepRecent(old(request.messages), keep))
  {
    hide KeepRecent;
    ghost var ms := request.messages;
    var i, seen := |request.messages|, 0;
    assert ms[..i] == ms;
    while i > 0
      invariant 0 <= i <= |ms| == |request.messages|
      invariant request.Value() == old(request.Value()).(messages := request.messages)
      invariant request.messages[..i] == ms[..i]
      invariant KeepRecent(ms, keep) == KeepRecent(ms[..i], Less(keep, seen)) + request.messages[i..]
    {
      RecentStep(ms, i - 1, Less(keep, seen));
      ghost var tail := request.messages[i..];
      i := i - 1;
      var message := request.messages[i];
      assert message == request.messages[..i + 1][i] == ms[..i + 1][i];
      if message.images != [] {
        seen := seen + 1;
        if seen > keep {
          request.messages := request.messages[i := message.(images := [])];
        }
      }
      assert request.messages[i..] == [request.messages[i]] + tail;
    }
    assert KeepRecent(ms[..0], Less(keep, seen)) == [];
  }

  lemma {:induction false} CountConcat(a: seq<Message>, b: seq<Message>)
    ensures CountPictured(a + b) == CountPictured(a) + CountPictured(b)
  {
    if a == [] {
      assert a + b == b;
    } else {
      assert (a + b)[1..] == a[1..] + b;
      CountConcat(a[1..], b);
    }
  }

  /** A message keeps its pictures exactly while fewer than `keep` later ones have any. */
  lemma {:induction false} RecentKeepTheirs(ms: seq<Message>, keep: nat, i: nat)
    requires i < |ms|
    ensures KeepRecent(ms, keep)[i] == if CountPictured(ms[i + 1..]) < keep then ms[i] else ms[i].(images := [])
  {
    var n := |ms| - 1;
    var before, last := ms[..n], ms[n];
    if i < n {
      var rest := if last.images == [] || keep == 0 then keep else keep - 1;
      RecentKeepTheirs(before, rest, i);
      assert ms[i + 1..] == before[i + 1..] + [last];
      CountConcat(before[i + 1..], [last]);
      assert [last][1..] == [];
    } else {
      assert ms[i + 1..] == [];
      assert last.images == [] ==> last == last.(images := []);
    }
  }

  /** At most `keep` messages go with pictures. */
  lemma {:induction false} FewPicturesGo(ms: seq<Message>, keep: nat)
    ensures CountPictured(KeepRecent(ms, keep)) <= keep
  {
    if ms != [] {
      var before, last := ms[..|ms| - 1], ms[|ms| - 1];
      var rest := if last.images == [] || keep == 0 then keep else keep - 1;
      FewPicturesGo(before, rest);
      var kept := KeepRecent(ms, keep);
      CountConcat(KeepRecent(before, rest), [kept[|ms| - 1]]);
      assert [kept[|ms| - 1]][1..] == [];
    }
  }

  /** What happens between and around fits: messages are appended, pictures go, the tools and the limit may change. */
  datatype Step =
    | Add(messages: seq<Message>)
    | Retool(tools: seq<string>, contextTokens: Option<nat>)
    | DropPictures
    | FitNow

  datatype Run = Run(frame: Frame, request: Request, added: seq<Message>)

  function Exec(s: Run, step: Step): Run {
    match step
    case Add(ms) => s.(request := s.request.(messages := s.request.messages + ms), added := s.added + ms)
    case Retool(tools, limit) => s.(request := s.request.(tools := tools, contextTokens := limit))
    case DropPictures => s.(request := s.request.(messages := KeepRecent(s.request.messages, RECENT_IMAGES)))
    case FitNow =>
      if !Fits(s.frame, s.request) then s
      else
        var o := Fitted(s.frame, s.request);
        s.(frame := o.frame, request := o.request)
  }

  function ExecAll(s: Run, steps: seq<Step>): Run
    decreases |steps|
  {
    if steps == [] then s else ExecAll(Exec(s, steps[0]), steps[1..])
  }

  function Begun(entry: Request): Run {
    Run(AtEntry(entry), entry, [])
  }

  /** Where message `i` stood before `leftOut` messages went from behind the first `keep`. */
  function Stood(keep: nat, leftOut: nat, i: nat): nat {
    if i < keep then i else i + leftOut
  }

  /** Message `m` is the one that stood at `j`, or has lost its pictures to enough later ones. */
  predicate IsStill(m: Message, whole: seq<Message>, j: nat)
    requires j < |whole|
  {
    m == whole[j] || (m == whole[j].(images := []) && CountPictured(whole[j + 1..]) >= RECENT_IMAGES)
  }

  /** `left` is `whole` without the `leftOut` messages behind the first `keep`. */
  predicate LeftOf(left: seq<Message>, whole: seq<Message>, keep: nat, leftOut: nat) {
    && keep <= |left| && |left| + leftOut == |whole|
    && forall i :: 0 <= i < |left| ==> IsStill(left[i], whole, Stood(keep, leftOut, i))
  }

  /**
   What is left of the conversation `entry` began with: its leading system messages, and from some whole turn on
   everything, with what was appended after it. `leftOut` says exactly how many are gone.
   */
  ghost predicate Kept(entry: Request, s: Run) {
    var w := AtEntry(entry);
    var from := w.keep + s.frame.leftOut;
    && from <= w.head <= |entry.messages|
    && s.frame == Frame(w.keep, w.head - s.frame.leftOut, s.frame.leftOut, entry.system)
    && LeftOf(s.request.messages, entry.messages + s.added, w.keep, s.frame.leftOut)
    && (s.frame.leftOut > 0 ==> Boundary(entry.messages, w.head, from))
    && s.request.system == (if s.frame.leftOut == 0 then entry.system else Noted(entry.system, Note(s.frame.leftOut)))
  }

  lemma EntryFits(r: Request)
    ensures Fits(AtEntry(r), r)
  {
    if LastUser(r.messages).Some? {
      assert LastUser(r.messages).value < |r.messages|;
    }
  }

  lemma LeftOfDrops(left: seq<Message>, whole: seq<Message>, keep: nat, leftOut: nat, cut: nat)
    requires LeftOf(left, whole, keep, leftOut) && keep <= cut <= |left|
    ensures LeftOf(left[..keep] + left[cut..], whole, keep, leftOut + (cut - keep))
  {
    hide IsStill;
    var fewer, gone := left[..keep] + left[cut..], leftOut + (cut - keep);
    forall i | 0 <= i < |fewer| ensures IsStill(fewer[i], whole, Stood(keep, gone, i)) {
      var was := Stood(keep, cut - keep, i);
      assert fewer[i] == left[was] && Stood(keep, gone, i) == Stood(keep, leftOut, was);
    }
  }

  lemma LeftOfGrows(left: seq<Message>, whole: seq<Message>, keep: nat, leftOut: nat, ms: seq<Message>)
    requires LeftOf(left, whole, keep, leftOut)
    ensures LeftOf(left + ms, whole + ms, keep, leftOut)
  {
    var more, longer := left + ms, whole + ms;
    forall i | 0 <= i < |more| ensures IsStill(more[i], longer, Stood(keep, leftOut, i)) {
      var j := Stood(keep, leftOut, i);
      if i < |left| {
        assert IsStill(left[i], whole, j);
        assert longer[j + 1..] == whole[j + 1..] + ms;
        CountConcat(whole[j + 1..], ms);
      }
    }
  }

  lemma LaterCount(whole: seq<Message>, a: nat, b: nat)
    requires a <= b <= |whole|
    ensures CountPictured(whole[b..]) <= CountPictured(whole[a..])
  {
    assert whole[a..] == whole[a..b] + whole[b..];
    CountConcat(whole[a..b], whole[b..]);
  }

  /** Pictures still there were there before, with all that stood between. */
  lemma {:induction false} CountLeft(left: seq<Message>, whole: seq<Message>, keep: nat, leftOut: nat, i: nat)
    requires LeftOf(left, whole, keep, leftOut) && i <= |left|
    ensures Stood(keep, leftOut, i) <= |whole| &&
            CountPictured(left[i..]) <= CountPictured(whole[Stood(keep, leftOut, i)..])
    decreases |left| - i
  {
    if i < |left| {
      var j := Stood(keep, leftOut, i);
      assert IsStill(left[i], whole, j);
      CountLeft(left, whole, keep, leftOut, i + 1);
      LaterCount(whole, j + 1, Stood(keep, leftOut, i + 1));
      assert left[i..][1..] == left[i + 1..] && whole[j..][1..] == whole[j + 1..];
    }
  }

  lemma OneWithFewerPictures(left: seq<Message>, whole: seq<Message>, keep: nat, leftOut: nat, i: nat)
    requires LeftOf(left, whole, keep, leftOut) && i < |left|
    ensures IsStill(KeepRecent(left, RECENT_IMAGES)[i], whole, Stood(keep, leftOut, i))
  {
    var j := Stood(keep, leftOut, i);
    hide CountPictured, KeepRecent;
    assert IsStill(left[i], whole, j);
    RecentKeepTheirs(left, RECENT_IMAGES, i);
    CountLeft(left, whole, keep, leftOut, i + 1);
    LaterCount(whole, j + 1, Stood(keep, leftOut, i + 1));
  }

  lemma LeftOfWithFewerPictures(left: seq<Message>, whole: seq<Message>, keep: nat, leftOut: nat)
    requires LeftOf(left, whole, keep, leftOut)
    ensures LeftOf(KeepRecent(left, RECENT_IMAGES), whole, keep, leftOut)
  {
    hide IsStill, KeepRecent;
    var kept := KeepRecent(left, RECENT_IMAGES);
    forall i | 0 <= i < |kept| ensures IsStill(kept[i], whole, Stood(keep, leftOut, i)) {
      OneWithFewerPictures(left, whole, keep, leftOut, i);
    }
  }

  lemma KeptFits(entry: Request, s: Run)
    requires Kept(entry, s)
    ensures Fits(s.frame, s.request)
  {
    hide AtEntry, Boundary, Noted, Note, IsStill;
  }

  lemma TurnStood(left: seq<Message>, whole: seq<Message>, keep: nat, leftOut: nat, i: nat)
    requires LeftOf(left, whole, keep, leftOut) && keep <= i < |left|
    ensures StartsTurn(left[i]) <==> StartsTurn(whole[i + leftOut])
  {
    assert IsStill(left[i], whole, Stood(keep, leftOut, i));
  }

  /** Dropping whole turns more keeps what is left as it should be. */
  lemma DropKeepsKept(entry: Request, s: Run, cut: nat)
    requires Kept(entry, s) && Fits(s.frame, s.request) && s.frame.keep <= cut <= s.frame.head
    requires cut == s.frame.keep || cut == s.frame.head || StartsTurn(s.request.messages[cut])
    ensures var (frame, request) := Dropped(s.frame, s.request, cut); Kept(entry, Run(frame, request, s.added))
  {
    hide AtEntry, Noted, Note, StartsTurn, LeftOf;
    var w, whole := s.frame, entry.messages + s.added;
    LeftOfDrops(s.request.messages, whole, w.keep, w.leftOut, cut);
    if w.keep < cut < w.head {
      TurnStood(s.request.messages, whole, w.keep, w.leftOut, cut);
    }
  }

  lemma FitKeeps(entry: Request, s: Run)
    requires Kept(entry, s)
    ensures Kept(entry, Exec(s, FitNow))
  {
    hide Kept, Estimate, Dropped, Cut;
    KeptFits(entry, s);
    var w, r := s.frame, s.request;
    if r.contextTokens.Some? {
      var target := Target(Room(r.contextTokens.value));
      CutIsTurn(r.messages, w.head, w.keep, Estimate(r), target);
      DropKeepsKept(entry, s, Cut(r.messages, w.head, w.keep, Estimate(r), target));
    }
  }

  lemma AddKeeps(entry: Request, s: Run, ms: seq<Message>)
    requires Kept(entry, s)
    ensures Kept(entry, Exec(s, Add(ms)))
  {
    hide AtEntry, Boundary, Noted, Note, LeftOf;
    LeftOfGrows(s.request.messages, entry.messages + s.added, AtEntry(entry).keep, s.frame.leftOut, ms);
    assert entry.messages + s.added + ms == entry.messages + (s.added + ms);
  }

  lemma PicturesKeep(entry: Request, s: Run)
    requires Kept(entry, s)
    ensures Kept(entry, Exec(s, DropPictures))
  {
    hide AtEntry, Boundary, Noted, Note, LeftOf;
    LeftOfWithFewerPictures(s.request.messages, entry.messages + s.added, AtEntry(entry).keep, s.frame.leftOut);
  }

  lemma RetoolKeeps(entry: Request, s: Run, tools: seq<string>, limit: Option<nat>)
    requires Kept(entry, s)
    ensures Kept(entry, Exec(s, Retool(tools, limit)))
  {
    hide AtEntry, Boundary, Noted, Note, LeftOf, Fitted;
  }

  lemma StepKeeps(entry: Request, s: Run, step: Step)
    requires Kept(entry, s)
    ensures Kept(entry, Exec(s, step))
  {
    hide Kept, Exec;
    match step
    case Add(ms) => AddKeeps(entry, s, ms);
    case Retool(tools, limit) => RetoolKeeps(entry, s, tools, limit);
    case DropPictures => PicturesKeep(entry, s);
    case FitNow => FitKeeps(entry, s);
  }

  lemma {:induction false} StepsKeep(entry: Request, s: Run, steps: seq<Step>)
    requires Kept(entry, s)
    ensures Kept(entry, ExecAll(s, steps))
    decreases |steps|
  {
    hide Kept, Exec;
    if steps != [] {
      StepKeeps(entry, s, steps[0]);
      StepsKeep(entry, Exec(s, steps[0]), steps[1..]);
    }
  }

  /**
   Over any run of appends, fits and dropped pictures: the leading system messages and everything from the entry
   boundary on are there, with what was appended; what is gone is `leftOut` messages, the oldest, in whole turns;
   a message loses its pictures only once RECENT_IMAGES later ones had some; and a fit always has a window.
   */
  lemma TrimmingIsSound(entry: Request, steps: seq<Step>)
    ensures var s := ExecAll(Begun(entry), steps); Kept(entry, s) && Fits(s.frame, s.request)
  {
    EntryFits(entry);
    assert entry.messages + [] == entry.messages;
    assert Kept(entry, Begun(entry));
    StepsKeep(entry, Begun(entry), steps);
    KeptFits(entry, ExecAll(Begun(entry), steps));
  }

  // ----- what an Err means ----------------------------------------------------------------------------------------

  /**
   Over any run, a fit that fails has left out every earlier turn, if the fifth held back covers a note of as
   many messages as the conversation had before its last turn. Both are known before the call.
   */
  lemma ErrMeansNothingLeft(entry: Request, steps: seq<Step>)
    requires var r := ExecAll(Begun(entry), steps).request;
             r.contextTokens.Some? ==>
               NoteTokens(AtEntry(entry).head - AtEntry(entry).keep)
               <= Room(r.contextTokens.value) - Target(Room(r.contextTokens.value))
    ensures var s := ExecAll(Begun(entry), steps);
            Fits(s.frame, s.request) &&
            var o := Fitted(s.frame, s.request);
            o.result.Err? ==>
              && o.frame.head == o.frame.keep
              && o.frame.leftOut == AtEntry(entry).head - AtEntry(entry).keep
  {
    TrimmingIsSound(entry, steps);
    hide ExecAll, AtEntry, SystemTokens, Note, Noted, NoteTokens, LeftOf, Boundary, Estimate, Cut, Room, Target;
    var s, most := ExecAll(Begun(entry), steps), AtEntry(entry).head - AtEntry(entry).keep;
    var o := Fitted(s.frame, s.request);
    if o.result.Err? && o.frame.head > o.frame.keep {
      NotedCosts(entry.system, o.frame.leftOut, most);
      NotedIsLonger(entry.system, s.frame.leftOut);
      ErrWithATurnLeft(s.frame, s.request, s.request.contextTokens.value);
    }
  }

  lemma NotedIsLonger(system: Option<string>, leftOut: nat)
    ensures SystemTokens(system) <= SystemTokens(Noted(system, Note(leftOut)))
  {
    hide Note;
    if system.Some? {
      ByteLengthConcat(system.value, "\n\n" + Note(leftOut));
      assert system.value + "\n\n" + Note(leftOut) == system.value + ("\n\n" + Note(leftOut));
    }
  }

  function Blank(role: Role): Message {
    Message(role, "", [], [], None)
  }

  /** Four blank messages under a limit of twenty tokens: a turn could still go, and the note alone is too long. */
  function Cramped(): Request {
    Request(None, [Blank(UserRole), Blank(OtherRole("assistant")), Blank(UserRole), Blank(UserRole)], [], Some(20))
  }

  lemma BlanksCost(ms: seq<Message>)
    requires forall i :: 0 <= i < |ms| ==> ms[i] == Blank(ms[i].role)
    ensures Sum(ms) == 4 * |ms|
  {
    if ms != [] {
      assert MessageTokens(ms[0]) == 4;
      BlanksCost(ms[1..]);
    }
  }

  lemma CrampedWindow()
    ensures AtEntry(Cramped()) == Frame(0, 3, 0, None)
    ensures Cut(Cramped().messages, 3, 0, 16, 8) == 2
  {
    var ms := Cramped().messages;
    assert StartsTurn(ms[2]) && !StartsTurn(ms[1]);
    assert TurnEnd(ms, 3, 0) == TurnEnd(ms, 3, 1) == 2;
    BlanksCost(ms[0..2]);
    assert Cut(ms, 3, 2, 8, 8) == 2;
  }

  /** With a limit smaller than the note, an Err may leave a turn that could have gone. */
  lemma TheNoteCanCrowdOut()
    ensures var w := AtEntry(Cramped());
            && Fits(w, Cramped())
            && Fitted(w, Cramped()).result.Err? && Fitted(w, Cramped()).frame.head > Fitted(w, Cramped()).frame.keep
  {
    var r, w := Cramped(), Frame(0, 3, 0, None);
    CrampedWindow();
    assert Room(20) == 15 && Target(15) == 8;
    BlanksCost(r.messages);
    BlanksCost(r.messages[0..2]);
    assert Estimate(r) == 16;
    CutLeavesATurnIff(w, r, 20);
    CrampedNote();
    hide AtEntry, Cut, Sum, Note, Fitted, Estimate, NoteGrowth;
  }

  lemma CrampedNote()
    ensures NoteGrowth(Frame(0, 3, 0, None), Cramped(), 2) > 15
  {
    NoteLength(2);
    hide Note, ByteLength, Decimal;
    assert Noted(None, Note(2)) == Some(Note(2));
    assert 3 * TextTokens(Note(2)) >= 145;
  }
}
