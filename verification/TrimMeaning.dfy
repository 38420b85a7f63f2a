/**
 Trimming in plain numbers and places: what a request is taken to cost, which messages go, which may never, and what
 the model is told of it, without the functions that compute any of it.
 */
module TrimMeaning {
  import opened Common
  import opened ChatBlocks
  import opened ContextWindow

  // ----- what a request costs --------------------------------------------------------------------------------------

  /** Bytes of a character in UTF-8, by its code point. */
  function CharBytes(c: char): nat {
    if c as int < 128 then 1 else if c as int < 2048 then 2 else if c as int < 65536 then 3 else 4
  }

  function Bytes(text: string): nat {
    if text == "" then 0 else Bytes(text[..|text| - 1]) + CharBytes(text[|text| - 1])
  }

  function CallTexts(calls: seq<Call>): seq<string> {
    if calls == [] then [] else [calls[0].name, calls[0].arguments] + CallTexts(calls[1..])
  }

  /** Every text of a request: its system message, each message's words, each call's name and arguments, its tools. */
  function TextsOf(ms: seq<Message>): seq<string> {
    if ms == [] then [] else [ms[0].content] + CallTexts(ms[0].calls) + TextsOf(ms[1..])
  }

  function AllTexts(r: Request): seq<string> {
    (if r.system.Some? then [r.system.value] else []) + TextsOf(r.messages) + r.tools
  }

  /** Three bytes to a token, rounded up for each text. */
  function Thirds(texts: seq<string>): nat {
    if texts == [] then 0 else (Bytes(texts[0]) + 2) / 3 + Thirds(texts[1..])
  }

  function Pictures(ms: seq<Message>): nat {
    if ms == [] then 0 else |ms[0].images| + Pictures(ms[1..])
  }

  lemma {:induction false} BytesFirst(text: string)
    requires text != ""
    ensures Bytes(text) == CharBytes(text[0]) + Bytes(text[1..])
  {
    if |text| > 1 {
      var most := text[..|text| - 1];
      BytesFirst(most);
      assert most[1..] == text[1..][..|text| - 2];
    } else {
      assert text[..0] == "" && text[1..] == "";
    }
  }

  lemma {:induction false} BytesAre(text: string)
    ensures ByteLength(text) == Bytes(text)
  {
    if text != "" {
      BytesAre(text[1..]);
      BytesFirst(text);
    }
  }

  lemma {:induction false} ThirdsConcat(a: seq<string>, b: seq<string>)
    ensures Thirds(a + b) == Thirds(a) + Thirds(b)
  {
    hide Bytes;
    if a == [] {
      assert a + b == b;
    } else {
      assert (a + b)[1..] == a[1..] + b;
      ThirdsConcat(a[1..], b);
    }
  }

  lemma ThirdsOfOne(text: string)
    ensures Thirds([text]) == TextTokens(text)
  {
    BytesAre(text);
    assert [text][1..] == [];
  }

  lemma {:induction false} CallsCost(calls: seq<Call>)
    ensures CallTokens(calls) == Thirds(CallTexts(calls))
  {
    if calls != [] {
      hide Bytes, TextTokens;
      CallsCost(calls[1..]);
      var name, arguments := calls[0].name, calls[0].arguments;
      ThirdsOfOne(name);
      ThirdsOfOne(arguments);
      ThirdsConcat([name], [arguments]);
      ThirdsConcat([name] + [arguments], CallTexts(calls[1..]));
      assert [name, arguments] == [name] + [arguments];
    }
  }

  lemma {:induction false} MessagesCost(ms: seq<Message>)
    ensures Sum(ms) == Thirds(TextsOf(ms)) + 4 * |ms| + 1600 * Pictures(ms)
  {
    if ms != [] {
      hide TextTokens, CallTokens;
      MessagesCost(ms[1..]);
      CallsCost(ms[0].calls);
      ThirdsOfOne(ms[0].content);
      ThirdsConcat([ms[0].content], CallTexts(ms[0].calls));
      ThirdsConcat([ms[0].content] + CallTexts(ms[0].calls), TextsOf(ms[1..]));
    }
  }

  lemma {:induction false} ToolsCost(tools: seq<string>)
    ensures ToolTokens(tools) == Thirds(tools)
  {
    if tools != [] {
      ToolsCost(tools[1..]);
      BytesAre(tools[0]);
    }
  }

  /** A request costs a third of the bytes of each of its texts, rounded up, 4 a message, and 1600 a picture. */
  lemma WhatARequestCosts(r: Request)
    ensures Estimate(r) == Thirds(AllTexts(r)) + 4 * |r.messages| + 1600 * Pictures(r.messages)
  {
    hide Sum, ToolTokens, TextsOf, Pictures;
    MessagesCost(r.messages);
    ToolsCost(r.tools);
    var system := if r.system.Some? then [r.system.value] else [];
    if r.system.Some? {
      ThirdsOfOne(r.system.value);
    }
    ThirdsConcat(system, TextsOf(r.messages));
    ThirdsConcat(system + TextsOf(r.messages), r.tools);
  }

  /** A limit leaves a quarter of itself to the answer, and at most 8192. */
  lemma WhatALimitLeaves(limit: nat)
    ensures Room(limit) == if limit / 4 < 8192 then limit - limit / 4 else limit - 8192
    ensures Target(Room(limit)) == Room(limit) / 10 * 8
  {
  }

  // ----- where a turn begins, and what is never left out -------------------------------------------------------------

  /** A person's own message: not one the server wrote about the turn before it. */
  predicate IsAPersons(m: Message) {
    && m.role == UserRole
    && !(|m.content| >= 9 && m.content[..9] == "[harness]")
    && !(|m.content| >= 9 && m.content[..9] == "[earlier ")
  }

  lemma TurnsAre(m: Message)
    ensures StartsTurn(m) == IsAPersons(m)
  {
  }

  predicate LastUserAt(ms: seq<Message>, i: nat) {
    i < |ms| && ms[i].role == UserRole && forall j :: i < j < |ms| ==> ms[j].role != UserRole
  }

  predicate LeadingAt(ms: seq<Message>, n: nat) {
    n <= |ms| && (forall i :: 0 <= i < n ==> ms[i].role == SystemRole) && (n < |ms| ==> ms[n].role != SystemRole)
  }

  lemma {:induction false} LeadingIs(ms: seq<Message>)
    ensures LeadingAt(ms, LeadingSystem(ms))
  {
    if ms != [] && ms[0].role.SystemRole? {
      LeadingIs(ms[1..]);
      assert forall i :: 0 < i < |ms| ==> ms[i] == ms[1..][i - 1];
    }
  }

  lemma {:induction false} LastUserIs(ms: seq<Message>)
    ensures LastUser(ms).Some? ==> LastUserAt(ms, LastUser(ms).value)
    ensures LastUser(ms).None? ==> forall i :: 0 <= i < |ms| ==> ms[i].role != UserRole
  {
    if ms != [] && !ms[|ms| - 1].role.UserRole? {
      var before := ms[..|ms| - 1];
      LastUserIs(before);
      assert forall i :: 0 <= i < |before| ==> ms[i] == before[i];
    }
  }

  /**
   At entry: all the leading system messages are kept, and everything from the last message of a person on; with none
   past them, everything is.
   */
  lemma WhatEntryProtects(r: Request)
    ensures var w := AtEntry(r);
            && LeadingAt(r.messages, w.keep) && w.leftOut == 0 && w.system == r.system
            && (if w.head > w.keep then LastUserAt(r.messages, w.head)
                else w.head == w.keep && forall i :: w.keep < i < |r.messages| ==> r.messages[i].role != UserRole)
  {
    LeadingIs(r.messages);
    LastUserIs(r.messages);
    hide LeadingSystem, LastUser;
  }

  // ----- one fit ---------------------------------------------------------------------------------------------------

  /** Where a cut may fall: at a person's message, or at the boundary. */
  predicate CutsAt(ms: seq<Message>, w: Frame, at: nat) {
    w.keep <= at <= w.head <= |ms| && (at == w.keep || at == w.head || IsAPersons(ms[at]))
  }

  /** The request without what lies between `keep` and `at` costs no more than `target`. */
  predicate Suffices(r: Request, w: Frame, at: nat, target: nat)
    requires w.keep <= at <= |r.messages|
  {
    Estimate(r) <= target + Sum(r.messages[w.keep..at])
  }

  /** The first such place that suffices, or the boundary if none does. */
  ghost predicate GoesUpTo(r: Request, w: Frame, target: nat, at: nat) {
    && CutsAt(r.messages, w, at) && (Suffices(r, w, at, target) || at == w.head)
    && forall b: nat :: b < at && CutsAt(r.messages, w, b) ==> !Suffices(r, w, b, target)
  }

  lemma CutGoesUpTo(r: Request, w: Frame, target: nat)
    requires Fits(w, r)
    ensures GoesUpTo(r, w, target, Cut(r.messages, w.head, w.keep, Estimate(r), target))
  {
    hide Cut, Sum, Estimate, IsAPersons, StartsTurn;
    var ms, cut := r.messages, Cut(r.messages, w.head, w.keep, Estimate(r), target);
    CutIsTurn(ms, w.head, w.keep, Estimate(r), target);
    if cut < |ms| {
      TurnsAre(ms[cut]);
    }
    forall b: nat | b < cut && CutsAt(ms, w, b) ensures !Suffices(r, w, b, target) {
      TurnsAre(ms[b]);
      CutIsLeast(ms, w.head, w.keep, Estimate(r), target, b);
    }
  }

  /** What the system message becomes: the run's own, and the note behind it. */
  function ToldOf(system: Option<string>, leftOut: nat): Option<string> {
    if system.Some? then Some(system.value + "\n\n" + Note(leftOut)) else Some(Note(leftOut))
  }

  /**
   One fit: without a limit, or within the room, nothing changes. Otherwise what goes is the messages behind those
   always kept, up to the first turn that suffices for four fifths of the room; the window counts them, and the
   system message says how many are gone in all.
   */
  lemma WhatAFitLeavesOut(w: Frame, r: Request) returns (at: nat)
    requires Fits(w, r)
    ensures var o := Fitted(w, r);
            if r.contextTokens.None? || Estimate(r) <= Room(r.contextTokens.value) then
              o.frame == w && o.request == r && o.result == Ok(Estimate(r))
            else
              && w.keep <= at <= w.head && GoesUpTo(r, w, Room(r.contextTokens.value) / 10 * 8, at)
              && o.frame == w.(head := w.head - (at - w.keep), leftOut := w.leftOut + (at - w.keep))
              && o.request == r.(messages := r.messages[..w.keep] + r.messages[at..],
                                 system := if o.frame.leftOut == 0 then r.system else ToldOf(w.system, o.frame.leftOut))
              && o.result == if Estimate(o.request) <= Room(r.contextTokens.value) then Ok(Estimate(o.request))
                             else Err(Estimate(o.request))
  {
    hide Cut, Estimate, GoesUpTo, Note;
    at := 0;
    if r.contextTokens.Some? {
      var target := Target(Room(r.contextTokens.value));
      at := Cut(r.messages, w.head, w.keep, Estimate(r), target);
      CutGoesUpTo(r, w, target);
    }
  }
}
