/**
 The whole wire conversation, message by message and in order, as one pass over the messages that keeps an open block
 and closes it when the next message is no result. It counts where the loops search and remove, and spells every wire
 message out; the loops' output is proved equal to it.
 */
module ChatPass {
  import opened Common
  import opened ChatBlocks
  import opened ChatRepair

  /** A block still open: its calls, its results so far, the pictures of those that answered, and the others' words. */
  datatype Open = Open(ids: seq<string>, seen: seq<Message>, shown: seq<Image>, apart: seq<Wire>)

  function CallIds(calls: seq<Call>): (ids: seq<string>)
    ensures |ids| == |calls| && forall i :: 0 <= i < |calls| ==> ids[i] == calls[i].id
  {
    if calls == [] then [] else [calls[0].id] + CallIds(calls[1..])
  }

  /** A call without a result is told that it has none. */
  function Missing(ids: seq<string>): (told: seq<Wire>)
    ensures |told| == |ids| && forall i :: 0 <= i < |ids| ==> told[i] == Tool(ids[i], None)
  {
    if ids == [] then [] else [Tool(ids[0], None)] + Missing(ids[1..])
  }

  /** What closes a block: its calls without a result, in order; one message of its pictures; the results set apart. */
  function Closing(block: Option<Open>): seq<Wire> {
    if block.None? then []
    else
      var Open(ids, seen, shown, apart) := block.value;
      Missing(Left(ids, Named(seen))) + (if shown == [] then [] else [Screen(shown)]) + apart
  }

  function Pass(ms: seq<Message>, block: Option<Open>): seq<Wire>
    decreases |ms|
  {
    if ms == [] then Closing(block)
    else
      var m, rest := ms[0], ms[1..];
      if m.role.ToolRole? then
        if block.None? then [Words(m)] + Pass(rest, None)
        else
          var o := block.value.(seen := block.value.seen + [m]);
          if Answers(o.ids, block.value.seen, m) then
            [Tool(m.callId.value, Some(m.content))] + Pass(rest, Some(o.(shown := o.shown + m.images)))
          else Pass(rest, Some(o.(apart := o.apart + [Words(m)])))
      else if m.calls == [] then Closing(block) + [Plain(m.role, m.content, m.images)] + Pass(rest, None)
      else
        Closing(block) + [Calls(if m.content == "" then None else Some(m.content), m.calls)] +
        Pass(rest, Some(Open(CallIds(m.calls), [], [], [])))
  }

  // ----- the loops say the same ------------------------------------------------------------------------------------

  lemma {:induction false} IdsAre(calls: seq<Call>)
    ensures Ids(calls) == CallIds(calls)
  {
    if calls != [] {
      IdsAre(calls[1..]);
    }
  }

  lemma {:induction false} UnansweredAre(ids: seq<string>)
    ensures Unanswered(ids) == Missing(ids)
  {
    if ids != [] {
      UnansweredAre(ids[1..]);
    }
  }

  /** The open block after some results, by the counting rule. */
  function After(results: seq<Message>, ids: seq<string>): Open {
    var s := Sorted(results, ids);
    Open(ids, results, s.pictures, InWords(s.orphans))
  }

  lemma AfterNext(all: seq<Message>, k: nat, ids: seq<string>)
    requires k < |all|
    ensures var r, o := all[k], After(all[..k], ids);
            var more := o.(seen := o.seen + [r]);
            After(all[..k + 1], ids) == if Answers(ids, all[..k], r) then more.(shown := more.shown + r.images)
                                        else more.(apart := more.apart + [Words(r)])
    ensures Sorted(all[..k + 1], ids).answers == Sorted(all[..k], ids).answers +
            if Answers(ids, all[..k], all[k]) then [Tool(all[k].callId.value, Some(all[k].content))] else []
  {
    hide Answers, Named, Left;
    assert all[..k + 1][..k] == all[..k] && all[..k + 1][k] == all[k] && all[..k + 1] == all[..k] + [all[k]];
    InWordsSnoc(Sorted(all[..k], ids).orphans, all[k]);
  }

  lemma Joined(a: seq<Wire>, b: seq<Wire>, c: seq<Wire>)
    ensures a + b + c == a + (b + c)
  {
  }

  /** A block's results, from the `k`-th on, and what follows it. */
  lemma {:induction false} PassResults(all: seq<Message>, k: nat, rest: seq<Message>, ids: seq<string>)
    requires k <= |all| && (forall i :: 0 <= i < |all| ==> IsResult(all[i])) && (rest != [] ==> !IsResult(rest[0]))
    ensures Sorted(all[..k], ids).answers + Pass(all[k..] + rest, Some(After(all[..k], ids)))
            == Sorted(all, ids).answers + Closing(Some(After(all, ids))) + Pass(rest, None)
    decreases |all| - k
  {
    if k == |all| {
      assert all[..k] == all && all[k..] + rest == rest;
      hide Closing, Sorted;
      PassCloses(rest, Some(After(all, ids)));
      Joined(Sorted(all, ids).answers, Closing(Some(After(all, ids))), Pass(rest, None));
    } else {
      var more := all[k..] + rest;
      assert more[0] == all[k] && more[1..] == all[k + 1..] + rest;
      AfterNext(all, k, ids);
      PassResults(all, k + 1, rest, ids);
      hide Sorted, Answers, Closing;
      if Answers(ids, all[..k], all[k]) {
        var tool := [Tool(all[k].callId.value, Some(all[k].content))];
        Joined(Sorted(all[..k], ids).answers, tool, Pass(more[1..], Some(After(all[..k + 1], ids))));
      } else {
        assert Sorted(all[..k], ids).answers + [] == Sorted(all[..k], ids).answers;
      }
    }
  }

  /** A block that no result follows is closed first. */
  lemma PassCloses(rest: seq<Message>, block: Option<Open>)
    requires rest != [] ==> !IsResult(rest[0])
    ensures Pass(rest, block) == Closing(block) + Pass(rest, None)
  {
    hide Closing;
    assert Closing(None) == [] by {
      NothingCloses();
    }
    if rest != [] {
      var m := rest[0];
      var said := if m.calls == [] then Plain(m.role, m.content, m.images)
                  else Calls(if m.content == "" then None else Some(m.content), m.calls);
      assert [] + [said] == [said];
      var tail := if m.calls == [] then Pass(rest[1..], None)
                  else Pass(rest[1..], Some(Open(CallIds(m.calls), [], [], [])));
      Joined(Closing(block), [said], tail);
    } else {
      assert Closing(block) + [] == Closing(block);
    }
  }

  lemma NothingCloses()
    ensures Closing(None) == []
  {
  }

  lemma ClosingIs(results: seq<Message>, ids: seq<string>)
    ensures var m := Matched(results, ids);
            && m == Sorted(results, ids)
            && Closing(Some(After(results, ids))) == Unanswered(m.open) + Screens(m.pictures) + InWords(m.orphans)
  {
    MatchedIsSorted(results, ids);
    SortedOpen(results, ids);
    hide Sorted, Matched, Left, Named;
    UnansweredAre(Sorted(results, ids).open);
  }

  function SaidBy(m: Message): Wire {
    Calls(if m.content == "" then None else Some(m.content), m.calls)
  }

  lemma BlockIsClosed(m: Message, results: seq<Message>)
    ensures var ids := CallIds(m.calls);
            Block(m, results) == [SaidBy(m)] + (Sorted(results, ids).answers + Closing(Some(After(results, ids))))
  {
    var ids := CallIds(m.calls);
    IdsAre(m.calls);
    ClosingIs(results, ids);
    var s := Matched(results, ids);
    hide Sorted, Matched, Closing, After, Unanswered, Screens, InWords;
    BlockIs(SaidBy(m), s.answers, Unanswered(s.open), Screens(s.pictures), InWords(s.orphans));
  }

  lemma BlockIs(said: Wire, a: seq<Wire>, b: seq<Wire>, c: seq<Wire>, d: seq<Wire>)
    ensures [said] + (a + (b + c + d)) == [said] + a + b + c + d
  {
  }

  lemma NothingTaken(ids: seq<string>)
    ensures After([], ids) == Open(ids, [], [], []) && Sorted([], ids).answers == []
  {
  }

  lemma {:induction false} BlockPasses(m: Message, results: seq<Message>, rest: seq<Message>)
    requires !IsResult(m) && m.calls != []
    requires (forall i :: 0 <= i < |results| ==> IsResult(results[i])) && (rest != [] ==> !IsResult(rest[0]))
    ensures Pass([m] + results + rest, None) == Block(m, results) + Pass(rest, None)
  {
    hide Sorted, Pass, Closing, After, Block;
    var ids, all := CallIds(m.calls), [m] + results + rest;
    PassResults(results, 0, rest, ids);
    NothingTaken(ids);
    assert results[..0] == [] && results[0..] == results && all[1..] == results + rest;
    PassOpens(all);
    BlockIsClosed(m, results);
    var open := Pass(results + rest, Some(Open(ids, [], [], [])));
    assert [] + open == open;
    var inside := Sorted(results, ids).answers + Closing(Some(After(results, ids)));
    Joined([SaidBy(m)], inside, Pass(rest, None));
  }

  lemma PassOpens(all: seq<Message>)
    requires all != [] && !IsResult(all[0]) && all[0].calls != []
    ensures Pass(all, None) == [SaidBy(all[0])] + Pass(all[1..], Some(Open(CallIds(all[0].calls), [], [], [])))
  {
    assert [] + [SaidBy(all[0])] == [SaidBy(all[0])];
  }

  /** What is sent is the pass over the messages: every wire message, in its place. */
  lemma {:induction false} ChatIsThePass(ms: seq<Message>)
    ensures Chat(ms) == Pass(ms, None)
    decreases |ms|
  {
    if ms != [] {
      var n := Span(ms);
      ChatIsThePass(ms[n..]);
      if IsResult(ms[0]) {
        assert ms[n..] == ms[1..];
      } else if ms[0].calls == [] {
        assert ms[n..] == ms[1..];
        var plain := Plain(ms[0].role, ms[0].content, ms[0].images);
        assert [] + [plain] == [plain];
      } else {
        SplitBlock(ms);
        var results, rest := ms[1..n], ms[n..];
        assert ms == [ms[0]] + results + rest;
        BlockPasses(ms[0], results, rest);
      }
    }
  }

  /** And so is every request, behind its system message. */
  lemma EveryRequestIsThePass(system: Option<string>, ms: seq<Message>)
    ensures Opening(system) + Chat(ms) == (if system.Some? then [System(system.value)] else []) + Pass(ms, None)
  {
    ChatIsThePass(ms);
  }
}
