/**
 From a conversation to the messages of a chat-completions request. Every message with calls becomes itself, one
 tool message per call and at most one message of pictures; results that no call claims become words.

 `Chat` says what is sent; `ChatMessages` is the pair of nested loops that sends it.
 */
module ChatBlocks {
  import opened Common

  type Image = string

  datatype Call = Call(id: string, name: string, arguments: string)

  datatype Role = ToolRole | SystemRole | UserRole | OtherRole(name: string)

  datatype Message = Message(role: Role, content: string, images: seq<Image>, calls: seq<Call>, callId: Option<string>)

  /**
   A message on the wire. `Tool` answers a call, with a result's content or, without one, the sentence that no
   result was recorded. `Words` and `Screen` are user messages there: a result written out in words with its
   pictures, and the pictures of a round's results.
   */
  datatype Wire =
    | System(content: string)
    | Plain(role: Role, content: string, images: seq<Image>)
    | Calls(said: Option<string>, calls: seq<Call>)
    | Tool(id: string, result: Option<string>)
    | Screen(images: seq<Image>)
    | Words(message: Message)

  predicate IsResult(m: Message) {
    m.role.ToolRole?
  }

  function Ids(calls: seq<Call>): seq<string> {
    if calls == [] then [] else [calls[0].id] + Ids(calls[1..])
  }

  function IndexOf(ids: seq<string>, id: string): (at: Option<nat>)
    ensures at.Some? ==> at.value < |ids| && ids[at.value] == id
    ensures at.Some? <==> id in ids
  {
    if ids == [] then None
    else if ids[0] == id then Some(0)
    else
      var rest := IndexOf(ids[1..], id);
      if rest.Some? then Some(rest.value + 1) else None
  }

  function Without(ids: seq<string>, at: nat): seq<string>
    requires at < |ids|
  {
    ids[..at] + ids[at + 1..]
  }

  /** The results of a block taken against its open calls, in order. */
  datatype Matching = Matching(answers: seq<Wire>, pictures: seq<Image>, orphans: seq<Message>, open: seq<string>)

  function Take(m: Matching, result: Message): Matching {
    var at := if result.callId.Some? then IndexOf(m.open, result.callId.value) else None;
    if at.Some?
    then m.(answers := m.answers + [Tool(result.callId.value, Some(result.content))],
            pictures := m.pictures + result.images, open := Without(m.open, at.value))
    else m.(orphans := m.orphans + [result])
  }

  function Matched(results: seq<Message>, ids: seq<string>): Matching {
    if results == [] then Matching([], [], [], ids)
    else Take(Matched(results[..|results| - 1], ids), results[|results| - 1])
  }

  function Unanswered(open: seq<string>): (told: seq<Wire>)
    ensures |told| == |open| && AllTools(told)
  {
    if open == [] then [] else [Tool(open[0], None)] + Unanswered(open[1..])
  }

  function InWords(ms: seq<Message>): (told: seq<Wire>)
    ensures |told| == |ms| && AllWords(told)
  {
    if ms == [] then [] else [Words(ms[0])] + InWords(ms[1..])
  }

  predicate AllTools(ws: seq<Wire>) {
    forall i :: 0 <= i < |ws| ==> ws[i].Tool?
  }

  predicate AllWords(ws: seq<Wire>) {
    forall i :: 0 <= i < |ws| ==> ws[i].Words?
  }

  function Said(m: Message): Wire {
    Calls(if m.content == "" then None else Some(m.content), m.calls)
  }

  function Screens(pictures: seq<Image>): seq<Wire> {
    if pictures == [] then [] else [Screen(pictures)]
  }

  function Block(m: Message, results: seq<Message>): seq<Wire> {
    var matched := Matched(results, Ids(m.calls));
    [Said(m)] + matched.answers + Unanswered(matched.open) + Screens(matched.pictures) + InWords(matched.orphans)
  }

  /** How many results directly follow. */
  function Following(ms: seq<Message>): (n: nat)
    ensures n <= |ms| && (forall i :: 0 <= i < n ==> IsResult(ms[i])) && (n < |ms| ==> !IsResult(ms[n]))
  {
    if ms == [] || !IsResult(ms[0]) then 0 else 1 + Following(ms[1..])
  }

  /** How many messages the first of these travels with: a block takes its results along. */
  function Span(ms: seq<Message>): (n: nat)
    requires ms != []
    ensures 0 < n <= |ms|
  {
    if IsResult(ms[0]) || ms[0].calls == [] then 1 else 1 + Following(ms[1..])
  }

  function Segment(ms: seq<Message>): seq<Wire>
    requires ms != []
  {
    if IsResult(ms[0]) then [Words(ms[0])]
    else if ms[0].calls == [] then [Plain(ms[0].role, ms[0].content, ms[0].images)]
    else Block(ms[0], ms[1..Span(ms)])
  }

  function Chat(ms: seq<Message>): seq<Wire>
    decreases |ms|
  {
    if ms == [] then [] else Segment(ms) + Chat(ms[Span(ms)..])
  }

  function Opening(system: Option<string>): seq<Wire> {
    if system.Some? then [System(system.value)] else []
  }

  /** One result: the answer to the open call it names, or an orphan. */
  method TakeResult(m: Matching, result: Message) returns (taken: Matching)
    ensures taken == Take(m, result)
  {
    var at := if result.callId.Some? then IndexOf(m.open, result.callId.value) else None;
    if at.Some? {
      taken := Matching(m.answers + [Tool(result.callId.value, Some(result.content))],
                        m.pictures + result.images, m.orphans, Without(m.open, at.value));
    } else {
      taken := m.(orphans := m.orphans + [result]);
    }
  }

  /** Take a block's results one by one, from `from`, until a message that is not one. */
  method TakeResults(ms: seq<Message>, from: nat, ids: seq<string>) returns (matched: Matching, next: nat)
    requires from <= |ms|
    ensures from <= next <= |ms| && (next < |ms| ==> !IsResult(ms[next]))
    ensures forall k :: from <= k < next ==> IsResult(ms[k])
    ensures matched == Matched(ms[from..next], ids)
  {
    hide Take;
    matched, next := Matching([], [], [], ids), from;
    while next < |ms| && IsResult(ms[next])
      invariant from <= next <= |ms|
      invariant forall k :: from <= k < next ==> IsResult(ms[k])
      invariant matched == Matched(ms[from..next], ids)
    {
      MatchedNext(ms, from, next, ids);
      matched := TakeResult(matched, ms[next]);
      next := next + 1;
    }
  }

  lemma MatchedNext(ms: seq<Message>, from: nat, next: nat, ids: seq<string>)
    requires from <= next < |ms|
    ensures Matched(ms[from..next + 1], ids) == Take(Matched(ms[from..next], ids), ms[next])
  {
    assert ms[from..next + 1][..next - from] == ms[from..next];
  }

  /** The span of a block reaches to the first message after it that is no result. */
  lemma {:induction false} FollowingIs(ms: seq<Message>, n: nat)
    requires n <= |ms| && (forall k :: 0 <= k < n ==> IsResult(ms[k])) && (n < |ms| ==> !IsResult(ms[n]))
    ensures Following(ms) == n
  {
    if n > 0 {
      FollowingIs(ms[1..], n - 1);
    }
  }

  lemma Shifted(a: seq<Wire>, b: seq<Wire>, c: seq<Wire>)
    ensures a + (b + c) == (a + b) + c
  {
  }

  lemma ChatFrom(ms: seq<Message>, i: nat)
    requires i < |ms|
    ensures Chat(ms[i..]) == Segment(ms[i..]) + Chat(ms[i + Span(ms[i..])..])
  {
    assert ms[i..][Span(ms[i..])..] == ms[i + Span(ms[i..])..];
  }

  /** What message `i` is sent as, with its block: its results, what none answered, its pictures, its orphans. */
  method SendSegment(ms: seq<Message>, i: nat) returns (segment: seq<Wire>, next: nat)
    requires i < |ms|
    ensures next == i + Span(ms[i..]) && segment == Segment(ms[i..])
  {
    var m := ms[i];
    ghost var rest := ms[i..];
    assert rest[1..] == ms[i + 1..];
    if IsResult(m) {
      return [Words(m)], i + 1;
    }
    if m.calls == [] {
      return [Plain(m.role, m.content, m.images)], i + 1;
    }
    var matched;
    matched, next := TakeResults(ms, i + 1, Ids(m.calls));
    FollowingIs(rest[1..], next - i - 1);
    assert rest[1..Span(rest)] == ms[i + 1..next];
    segment := [Said(m)] + matched.answers + Unanswered(matched.open);
    if matched.pictures != [] {
      segment := segment + [Screen(matched.pictures)];
    }
    segment := segment + InWords(matched.orphans);
  }

  /** The request's conversation, message by message. */
  method ChatMessages(system: Option<string>, ms: seq<Message>) returns (out: seq<Wire>)
    ensures out == Opening(system) + Chat(ms)
  {
    hide Segment, Chat;
    out := if system.Some? then [System(system.value)] else [];
    var i := 0;
    assert ms[0..] == ms;
    while i < |ms|
      invariant 0 <= i <= |ms| && out + Chat(ms[i..]) == Opening(system) + Chat(ms)
    {
      var segment, next := SendSegment(ms, i);
      ChatFrom(ms, i);
      Shifted(out, segment, Chat(ms[next..]));
      out := out + segment;
      i := next;
    }
    ChatOfNothing(ms[i..]);
  }

  lemma ChatOfNothing(ms: seq<Message>)
    requires ms == []
    ensures Chat(ms) == []
  {
  }

  // ----- blocks are whole ------------------------------------------------------------------------------

  /** The ids of the tool messages directly at the front. */
  function RunIds(out: seq<Wire>): seq<string> {
    if out == [] || !out[0].Tool? then [] else [out[0].id] + RunIds(out[1..])
  }

  predicate ToolFollows(out: seq<Wire>, p: nat)
    requires p < |out|
  {
    out[p].Tool? ==> p > 0 && (out[p - 1].Tool? || out[p - 1].Calls?)
  }

  predicate CallsAnswered(out: seq<Wire>, p: nat)
    requires p < |out|
  {
    out[p].Calls? ==> multiset(RunIds(out[p + 1..])) == multiset(Ids(out[p].calls))
  }

  /** Every tool message lies in the run directly after calls, and that run answers exactly those calls. */
  predicate WellFormed(out: seq<Wire>) {
    (forall p :: 0 <= p < |out| ==> ToolFollows(out, p)) && (forall p :: 0 <= p < |out| ==> CallsAnswered(out, p))
  }

  lemma {:induction false} RunIdsStop(a: seq<Wire>, b: seq<Wire>)
    requires b != [] ==> !b[0].Tool?
    ensures RunIds(a + b) == RunIds(a)
  {
    if a == [] {
      assert a + b == b;
    } else if a[0].Tool? {
      assert (a + b)[1..] == a[1..] + b;
      RunIdsStop(a[1..], b);
    }
  }

  lemma WellFormedConcat(a: seq<Wire>, b: seq<Wire>)
    requires WellFormed(a) && WellFormed(b)
    ensures WellFormed(a + b)
  {
    var all := a + b;
    if b != [] {
      assert ToolFollows(b, 0);
    }
    forall p | 0 <= p < |all| ensures ToolFollows(all, p) && CallsAnswered(all, p) {
      if p < |a| {
        assert ToolFollows(a, p) && CallsAnswered(a, p);
        assert all[p + 1..] == a[p + 1..] + b;
        RunIdsStop(a[p + 1..], b);
      } else {
        assert ToolFollows(b, p - |a|) && CallsAnswered(b, p - |a|);
        assert all[p + 1..] == b[p - |a| + 1..];
      }
    }
  }

  lemma WithoutOne(ids: seq<string>, at: nat)
    requires at < |ids|
    ensures multiset(ids) == multiset(Without(ids, at)) + multiset{ids[at]}
  {
    assert ids == ids[..at] + [ids[at]] + ids[at + 1..];
  }

  lemma {:induction false} RunIdsOfTools(a: seq<Wire>, b: seq<Wire>)
    requires AllTools(a)
    ensures RunIds(a + b) == RunIds(a) + RunIds(b)
  {
    if a == [] {
      assert a + b == b;
    } else {
      assert (a + b)[1..] == a[1..] + b;
      RunIdsOfTools(a[1..], b);
    }
  }

  lemma {:induction false} UnansweredIds(open: seq<string>)
    ensures RunIds(Unanswered(open)) == open
  {
    if open != [] {
      assert Unanswered(open)[1..] == Unanswered(open[1..]);
      UnansweredIds(open[1..]);
    }
  }

  lemma TakeKeepsIds(m: Matching, r: Message)
    requires AllTools(m.answers)
    ensures var t := Take(m, r);
            AllTools(t.answers) &&
              multiset(RunIds(t.answers)) + multiset(t.open) == multiset(RunIds(m.answers)) + multiset(m.open)
  {
    if r.callId.Some? && r.callId.value in m.open {
      var tool := Tool(r.callId.value, Some(r.content));
      WithoutOne(m.open, IndexOf(m.open, r.callId.value).value);
      RunIdsOfTools(m.answers, [tool]);
      assert [tool][1..] == [];
      assert RunIds([tool]) == [tool.id];
    }
  }

  /** Answers and the calls left open are, together, the calls. */
  lemma {:induction false} MatchedIds(results: seq<Message>, ids: seq<string>)
    ensures var m := Matched(results, ids);
            AllTools(m.answers) && multiset(RunIds(m.answers)) + multiset(m.open) == multiset(ids)
  {
    if results != [] {
      MatchedIds(results[..|results| - 1], ids);
      TakeKeepsIds(Matched(results[..|results| - 1], ids), results[|results| - 1]);
    }
  }

  lemma HeadWellFormed(head: Wire, tools: seq<Wire>)
    requires head.Calls? && AllTools(tools) && multiset(RunIds(tools)) == multiset(Ids(head.calls))
    ensures WellFormed([head] + tools)
  {
    var all := [head] + tools;
    assert all[1..] == tools;
    forall p | 0 <= p < |all| ensures ToolFollows(all, p) && CallsAnswered(all, p) {
      assert p > 0 ==> all[p].Tool? && (all[p - 1] == head || all[p - 1] == tools[p - 2]);
    }
  }

  predicate Free(w: Wire) {
    !w.Tool? && !w.Calls?
  }

  lemma FreeIsWellFormed(tail: seq<Wire>)
    requires forall p :: 0 <= p < |tail| ==> Free(tail[p])
    ensures WellFormed(tail)
  {
    forall p | 0 <= p < |tail| ensures ToolFollows(tail, p) && CallsAnswered(tail, p) {
      assert Free(tail[p]);
    }
  }

  lemma BlockShape(head: Wire, answers: seq<Wire>, told: seq<Wire>, tail: seq<Wire>)
    requires head.Calls? && AllTools(answers) && AllTools(told)
    requires multiset(RunIds(answers)) + multiset(RunIds(told)) == multiset(Ids(head.calls))
    requires forall p :: 0 <= p < |tail| ==> Free(tail[p])
    ensures WellFormed([head] + (answers + told) + tail)
  {
    RunIdsOfTools(answers, told);
    HeadWellFormed(head, answers + told);
    FreeIsWellFormed(tail);
    WellFormedConcat([head] + (answers + told), tail);
  }

  lemma TailIsFree(pictures: seq<Image>, orphans: seq<Message>)
    ensures forall p :: 0 <= p < |Screens(pictures) + InWords(orphans)| ==>
            Free((Screens(pictures) + InWords(orphans))[p])
  {
  }

  lemma Regrouped(a: seq<Wire>, b: seq<Wire>, c: seq<Wire>, d: seq<Wire>, e: seq<Wire>)
    ensures a + b + c + d + e == a + (b + c) + (d + e)
  {
  }

  lemma BlockWellFormed(m: Message, results: seq<Message>)
    ensures WellFormed(Block(m, results))
  {
    var matched := Matched(results, Ids(m.calls));
    var told := Unanswered(matched.open);
    MatchedIds(results, Ids(m.calls));
    UnansweredIds(matched.open);
    TailIsFree(matched.pictures, matched.orphans);
    BlockShape(Said(m), matched.answers, told, Screens(matched.pictures) + InWords(matched.orphans));
    Regrouped([Said(m)], matched.answers, told, Screens(matched.pictures), InWords(matched.orphans));
  }

  lemma SegmentWellFormed(ms: seq<Message>)
    requires ms != []
    ensures WellFormed(Segment(ms))
  {
    if IsResult(ms[0]) || ms[0].calls == [] {
      assert Free(Segment(ms)[0]);
      FreeIsWellFormed(Segment(ms));
    } else {
      BlockWellFormed(ms[0], ms[1..Span(ms)]);
    }
  }

  /**
   Whatever list it is given, what is sent is well formed: each tool message lies in the run directly after
   calls, and the ids of that run are those calls' ids, as often.
   */
  lemma {:induction false} EveryBlockIsWhole(ms: seq<Message>)
    ensures WellFormed(Chat(ms))
    decreases |ms|
  {
    if ms != [] {
      EveryBlockIsWhole(ms[Span(ms)..]);
      SegmentWellFormed(ms);
      WellFormedConcat(Segment(ms), Chat(ms[Span(ms)..]));
    }
  }

  /** The same of the whole request, its opening system message included. */
  lemma EveryRequestIsWhole(system: Option<string>, ms: seq<Message>)
    ensures WellFormed(Opening(system) + Chat(ms))
  {
    EveryBlockIsWhole(ms);
    FreeIsWellFormed(Opening(system));
    WellFormedConcat(Opening(system), Chat(ms));
  }
}
