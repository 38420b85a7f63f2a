/**
 What a mended conversation still says.

 `Told` is an independent account: one pass over the messages that keeps only the ids called in the block and
 the results seen since, and gives each result one carrier. The nested loops of `ChatBlocks` are proved to send
 exactly those carriers, exactly the pictures given, and a whole conversation in the order it had.
 */
module ChatRepair {
  import opened Common
  import opened ChatBlocks

  // ----- which call a result answers --------------------------------------------------------------------

  /** The ids the results name, as often. */
  function Named(results: seq<Message>): multiset<string> {
    if results == [] then multiset{}
    else
      var last := results[|results| - 1];
      Named(results[..|results| - 1]) + if last.callId.Some? then multiset{last.callId.value} else multiset{}
  }

  /** A result answers while its id was called more often than the results before it named it. */
  predicate Answers(ids: seq<string>, before: seq<Message>, r: Message) {
    r.callId.Some? && Named(before)[r.callId.value] < multiset(ids)[r.callId.value]
  }

  function Carrier(ids: seq<string>, before: seq<Message>, r: Message): Wire {
    if Answers(ids, before, r) then Tool(r.callId.value, Some(r.content)) else Words(r)
  }

  /** The calls nothing named: each naming takes the first call of that id. */
  function Left(ids: seq<string>, named: multiset<string>): seq<string> {
    if ids == [] then []
    else if ids[0] in named then Left(ids[1..], named - multiset{ids[0]})
    else [ids[0]] + Left(ids[1..], named)
  }

  lemma {:induction false} LeftCounts(ids: seq<string>, named: multiset<string>)
    ensures multiset(Left(ids, named)) == multiset(ids) - named
  {
    if ids != [] {
      assert ids == [ids[0]] + ids[1..];
      if ids[0] in named {
        LeftCounts(ids[1..], named - multiset{ids[0]});
      } else {
        LeftCounts(ids[1..], named);
      }
    }
  }

  lemma IndexOfHead(id: string, rest: seq<string>, c: string)
    requires c != id && c in rest
    ensures IndexOf([id] + rest, c) == Some(IndexOf(rest, c).value + 1)
    ensures Without([id] + rest, IndexOf([id] + rest, c).value) == [id] + Without(rest, IndexOf(rest, c).value)
  {
    assert ([id] + rest)[1..] == rest;
    hide IndexOf;
    WithoutLater(id, rest, IndexOf(rest, c).value);
  }

  lemma WithoutLater(id: string, rest: seq<string>, at: nat)
    requires at < |rest|
    ensures Without([id] + rest, at + 1) == [id] + Without(rest, at)
  {
    assert ([id] + rest)[..at + 1] == [id] + rest[..at];
    assert ([id] + rest)[at + 2..] == rest[at + 1..];
    assert [id] + rest[..at] + rest[at + 1..] == [id] + (rest[..at] + rest[at + 1..]);
  }

  /** One more naming takes the first call of that id still left, and no other. */
  lemma {:induction false} LeftStep(ids: seq<string>, named: multiset<string>, c: string)
    ensures c in Left(ids, named) <==> named[c] < multiset(ids)[c]
    ensures Left(ids, named + multiset{c}) ==
            if c in Left(ids, named) then Without(Left(ids, named), IndexOf(Left(ids, named), c).value)
              else Left(ids, named)
    decreases ids
  {
    LeftCounts(ids, named);
    assert c in Left(ids, named) <==> c in multiset(Left(ids, named));
    if ids != [] {
      var rest := ids[1..];
      if ids[0] in named {
        assert (named + multiset{c}) - multiset{ids[0]} == (named - multiset{ids[0]}) + multiset{c};
        LeftStep(rest, named - multiset{ids[0]}, c);
      } else if ids[0] == c {
        assert named + multiset{c} - multiset{c} == named;
        assert Without([c] + Left(rest, named), 0) == Left(rest, named);
      } else {
        LeftStep(rest, named, c);
        if c in Left(rest, named) {
          IndexOfHead(ids[0], Left(rest, named), c);
        }
      }
    }
  }

  /** A block's results sorted by the counting rule alone. */
  function Sorted(results: seq<Message>, ids: seq<string>): Matching {
    if results == [] then Matching([], [], [], ids)
    else
      var before, r := results[..|results| - 1], results[|results| - 1];
      var m := Sorted(before, ids).(open := Left(ids, Named(results)));
      if Answers(ids, before, r)
      then m.(answers := m.answers + [Tool(r.callId.value, Some(r.content))], pictures := m.pictures + r.images)
      else m.(orphans := m.orphans + [r])
  }

  lemma {:induction false} LeftOfNothing(ids: seq<string>)
    ensures Left(ids, multiset{}) == ids
  {
    if ids != [] {
      LeftOfNothing(ids[1..]);
    }
  }

  lemma SortedOpen(results: seq<Message>, ids: seq<string>)
    ensures Sorted(results, ids).open == Left(ids, Named(results))
  {
    LeftOfNothing(ids);
  }

  /** Taking results against the open calls sorts them by the counting rule. */
  lemma {:induction false} MatchedIsSorted(results: seq<Message>, ids: seq<string>)
    ensures Matched(results, ids) == Sorted(results, ids)
  {
    if results != [] {
      var before, r := results[..|results| - 1], results[|results| - 1];
      MatchedIsSorted(before, ids);
      SortedOpen(before, ids);
      if r.callId.Some? {
        LeftStep(ids, Named(before), r.callId.value);
      } else {
        assert Named(results) == Named(before);
      }
    }
  }

  // ----- each result is carried once ------------------------------------------------------------------

  /** The carriers of every result, and the calls of every block nothing answered, in one pass. */
  function Told(ms: seq<Message>, ids: seq<string>, seen: seq<Message>): seq<Wire> {
    if ms == [] then Unanswered(Left(ids, Named(seen)))
    else if IsResult(ms[0]) then [Carrier(ids, seen, ms[0])] + Told(ms[1..], ids, seen + [ms[0]])
    else Unanswered(Left(ids, Named(seen))) + Told(ms[1..], Ids(ms[0].calls), [])
  }

  /** What on the wire speaks for a result or for a call without one. */
  function Spoken(out: seq<Wire>): seq<Wire> {
    if out == [] then []
    else if out[0].Tool? || out[0].Words? then [out[0]] + Spoken(out[1..])
    else Spoken(out[1..])
  }

  lemma {:induction false} SpokenConcat(a: seq<Wire>, b: seq<Wire>)
    ensures Spoken(a + b) == Spoken(a) + Spoken(b)
  {
    if a == [] {
      assert a + b == b;
    } else {
      assert (a + b)[1..] == a[1..] + b;
      SpokenConcat(a[1..], b);
    }
  }

  lemma {:induction false} AllSpoken(ws: seq<Wire>)
    requires forall i :: 0 <= i < |ws| ==> ws[i].Tool? || ws[i].Words?
    ensures Spoken(ws) == ws
  {
    if ws != [] {
      AllSpoken(ws[1..]);
    }
  }

  /** The carriers of results taken in turn, after those of `seen`. */
  function Carriers(results: seq<Message>, ids: seq<string>, seen: seq<Message>): (ws: seq<Wire>)
    ensures |ws| == |results|
  {
    if results == [] then []
    else [Carrier(ids, seen, results[0])] + Carriers(results[1..], ids, seen + [results[0]])
  }

  lemma {:induction false} CarriersSnoc(results: seq<Message>, r: Message, ids: seq<string>, seen: seq<Message>)
    ensures Carriers(results + [r], ids, seen) == Carriers(results, ids, seen) + [Carrier(ids, seen + results, r)]
    decreases |results|
  {
    if results == [] {
      assert results + [r] == [r] && [r][1..] == [] && seen + results == seen;
    } else {
      assert (results + [r])[1..] == results[1..] + [r];
      CarriersSnoc(results[1..], r, ids, seen + [results[0]]);
      assert seen + [results[0]] + results[1..] == seen + results;
    }
  }

  lemma CarriersLast(results: seq<Message>, ids: seq<string>)
    requires results != []
    ensures var before, r := results[..|results| - 1], results[|results| - 1];
            Carriers(results, ids, []) == Carriers(before, ids, []) + [Carrier(ids, before, r)]
  {
    var before, r := results[..|results| - 1], results[|results| - 1];
    assert before + [r] == results && [] + before == before;
    CarriersSnoc(before, r, ids, []);
  }

  lemma {:induction false} InWordsSnoc(ms: seq<Message>, m: Message)
    ensures InWords(ms + [m]) == InWords(ms) + [Words(m)]
  {
    if ms == [] {
      assert ms + [m] == [m] && [m][1..] == [];
    } else {
      assert (ms + [m])[1..] == ms[1..] + [m];
      InWordsSnoc(ms[1..], m);
    }
  }

  lemma {:induction false} SortedCarries(results: seq<Message>, ids: seq<string>)
    ensures var s := Sorted(results, ids);
            multiset(s.answers) + multiset(InWords(s.orphans)) == multiset(Carriers(results, ids, []))
  {
    if results != [] {
      var before, r := results[..|results| - 1], results[|results| - 1];
      SortedCarries(before, ids);
      CarriersLast(results, ids);
      if !Answers(ids, before, r) {
        InWordsSnoc(Sorted(before, ids).orphans, r);
      }
    }
  }

  lemma {:induction false} ToldOfResults(results: seq<Message>, rest: seq<Message>, ids: seq<string>,
      seen: seq<Message>)
    requires forall i :: 0 <= i < |results| ==> IsResult(results[i])
    ensures Told(results + rest, ids, seen) == Carriers(results, ids, seen) + Told(rest, ids, seen + results)
    decreases |results|
  {
    if results == [] {
      assert results + rest == rest && seen + results == seen;
    } else {
      assert (results + rest)[1..] == results[1..] + rest;
      ToldOfResults(results[1..], rest, ids, seen + [results[0]]);
      assert seen + [results[0]] + results[1..] == seen + results;
    }
  }

  /** The rest of the pass starts as if no block were open. */
  lemma ToldAfterBlock(rest: seq<Message>, ids: seq<string>, seen: seq<Message>)
    requires rest != [] ==> !IsResult(rest[0])
    ensures Told(rest, ids, seen) == Unanswered(Left(ids, Named(seen))) + Told(rest, [], [])
  {
    if rest == [] {
    } else {
      assert Unanswered(Left([], Named([]))) == [];
    }
  }

  lemma AnswersAreTools(results: seq<Message>, ids: seq<string>)
    ensures AllTools(Matched(results, ids).answers)
  {
    MatchedIds(results, ids);
  }

  lemma SpokenTools(said: Wire, tools: seq<Wire>)
    requires said.Calls? && AllTools(tools)
    ensures Spoken([said] + tools) == tools
  {
    assert ([said] + tools)[1..] == tools;
    AllSpoken(tools);
  }

  lemma SpokenTail(pictures: seq<Image>, orphans: seq<Message>)
    ensures Spoken(Screens(pictures) + InWords(orphans)) == InWords(orphans)
  {
    AllSpoken(InWords(orphans));
    if pictures == [] {
      assert Screens(pictures) + InWords(orphans) == InWords(orphans);
    } else {
      assert (Screens(pictures) + InWords(orphans))[1..] == InWords(orphans);
    }
  }

  lemma SpokenOfBlock(said: Wire, answers: seq<Wire>, told: seq<Wire>, pictures: seq<Image>, orphans: seq<Message>)
    requires said.Calls? && AllTools(answers) && AllTools(told)
    ensures Spoken([said] + answers + told + Screens(pictures) + InWords(orphans)) == answers + told + InWords(orphans)
  {
    Regrouped([said], answers, told, Screens(pictures), InWords(orphans));
    SpokenConcat([said] + (answers + told), Screens(pictures) + InWords(orphans));
    SpokenTools(said, answers + told);
    SpokenTail(pictures, orphans);
  }

  lemma BlockTells(m: Message, results: seq<Message>)
    ensures multiset(Spoken(Block(m, results))) ==
            multiset(Carriers(results, Ids(m.calls), [])) + multiset(Unanswered(Left(Ids(m.calls), Named(results))))
  {
    var ids := Ids(m.calls);
    var s := Sorted(results, ids);
    MatchedIsSorted(results, ids);
    SortedOpen(results, ids);
    SortedCarries(results, ids);
    AnswersAreTools(results, ids);
    var told := Unanswered(s.open);
    SpokenOfBlock(Said(m), s.answers, told, s.pictures, s.orphans);
    assert multiset(s.answers + told + InWords(s.orphans))
        == multiset(s.answers) + multiset(told) + multiset(InWords(s.orphans));
  }

  /** Outside a block, what was seen before makes no difference. */
  lemma {:induction false} ToldWithoutBlock(ms: seq<Message>, seen: seq<Message>, other: seq<Message>)
    ensures Told(ms, [], seen) == Told(ms, [], other)
  {
    if ms != [] && IsResult(ms[0]) {
      ToldWithoutBlock(ms[1..], seen + [ms[0]], other + [ms[0]]);
    }
  }

  lemma NothingLeft(seen: seq<Message>)
    ensures Unanswered(Left([], Named(seen))) == []
  {
  }

  lemma SumsUp(a: seq<Wire>, b: seq<Wire>, c: seq<Wire>)
    ensures multiset(a + (b + c)) == multiset(a) + multiset(b) + multiset(c)
  {
  }

  lemma ToldAtHead(ms: seq<Message>)
    requires ms != [] && !IsResult(ms[0])
    ensures Told(ms, [], []) == Told(ms[1..], Ids(ms[0].calls), [])
  {
    NothingLeft([]);
  }

  lemma ToldOfBlock(results: seq<Message>, rest: seq<Message>, ids: seq<string>)
    requires forall i :: 0 <= i < |results| ==> IsResult(results[i])
    requires rest != [] ==> !IsResult(rest[0])
    ensures Told(results + rest, ids, []) == Carriers(results, ids, []) +
            (Unanswered(Left(ids, Named(results))) + Told(rest, [], []))
  {
    ToldOfResults(results, rest, ids, []);
    assert [] + results == results;
    ToldAfterBlock(rest, ids, results);
  }

  lemma BlockSegmentTells(ms: seq<Message>, results: seq<Message>, rest: seq<Message>)
    requires ms != [] && !IsResult(ms[0]) && ms[1..] == results + rest && (rest != [] ==> !IsResult(rest[0]))
    requires forall i :: 0 <= i < |results| ==> IsResult(results[i])
    ensures multiset(Spoken(Block(ms[0], results))) + multiset(Told(rest, [], [])) == multiset(Told(ms, [], []))
  {
    var ids := Ids(ms[0].calls);
    BlockTells(ms[0], results);
    ToldAtHead(ms);
    ToldOfBlock(results, rest, ids);
    SumsUp(Carriers(results, ids, []), Unanswered(Left(ids, Named(results))), Told(rest, [], []));
  }

  lemma SplitBlock(ms: seq<Message>)
    requires ms != [] && !IsResult(ms[0]) && ms[0].calls != []
    ensures ms[1..] == ms[1..Span(ms)] + ms[Span(ms)..]
    ensures forall i :: 0 <= i < |ms[1..Span(ms)]| ==> IsResult(ms[1..Span(ms)][i])
    ensures ms[Span(ms)..] != [] ==> !IsResult(ms[Span(ms)..][0])
  {
    forall i | 0 <= i < |ms[1..Span(ms)]| ensures IsResult(ms[1..Span(ms)][i]) {
      assert ms[1..][i] == ms[1..Span(ms)][i];
    }
    if Span(ms) < |ms| {
      assert ms[1..][Span(ms) - 1] == ms[Span(ms)];
    }
  }

  lemma SegmentTells(ms: seq<Message>)
    requires ms != []
    ensures multiset(Spoken(Segment(ms))) + multiset(Told(ms[Span(ms)..], [], [])) == multiset(Told(ms, [], []))
  {
    hide Block;
    if IsResult(ms[0]) {
      ToldWithoutBlock(ms[1..], [] + [ms[0]], []);
      AllSpoken([Words(ms[0])]);
    } else if ms[0].calls == [] {
      NothingLeft([]);
      assert Segment(ms)[1..] == [];
    } else {
      SplitBlock(ms);
      BlockSegmentTells(ms, ms[1..Span(ms)], ms[Span(ms)..]);
    }
  }

  /**
   Every result is on the wire exactly once, as its call's answer or in words, and besides those only the calls
   nothing answered are told that.
   */
  lemma {:induction false} EachResultIsCarriedOnce(ms: seq<Message>)
    ensures multiset(Spoken(Chat(ms))) == multiset(Told(ms, [], []))
    decreases |ms|
  {
    if ms == [] {
      NothingLeft([]);
    } else {
      EachResultIsCarriedOnce(ms[Span(ms)..]);
      SpokenConcat(Segment(ms), Chat(ms[Span(ms)..]));
      SegmentTells(ms);
    }
  }

  // ----- every picture is sent once ------------------------------------------------------------------

  function PicturesOf(w: Wire): seq<Image> {
    match w
    case Plain(_, _, images) => images
    case Screen(images) => images
    case Words(m) => m.images
    case _ => []
  }

  function PicturesOut(out: seq<Wire>): seq<Image> {
    if out == [] then [] else PicturesOf(out[0]) + PicturesOut(out[1..])
  }

  /** The pictures given: all but those on an assistant message with calls, which the dialect cannot carry. */
  function PicturesIn(ms: seq<Message>): seq<Image> {
    if ms == [] then []
    else if IsResult(ms[0]) || ms[0].calls == [] then ms[0].images + PicturesIn(ms[1..])
    else PicturesIn(ms[1..])
  }

  lemma {:induction false} PicturesOutConcat(a: seq<Wire>, b: seq<Wire>)
    ensures PicturesOut(a + b) == PicturesOut(a) + PicturesOut(b)
  {
    if a == [] {
      assert a + b == b;
    } else {
      assert (a + b)[1..] == a[1..] + b;
      PicturesOutConcat(a[1..], b);
    }
  }

  lemma {:induction false} PicturesInConcat(a: seq<Message>, b: seq<Message>)
    ensures PicturesIn(a + b) == PicturesIn(a) + PicturesIn(b)
  {
    if a == [] {
      assert a + b == b;
    } else {
      assert (a + b)[1..] == a[1..] + b;
      PicturesInConcat(a[1..], b);
    }
  }

  lemma {:induction false} ToolsHaveNoPictures(ws: seq<Wire>)
    requires AllTools(ws)
    ensures PicturesOut(ws) == []
  {
    if ws != [] {
      ToolsHaveNoPictures(ws[1..]);
    }
  }

  lemma PicturesOfOne(w: Wire)
    ensures PicturesOut([w]) == PicturesOf(w)
  {
    assert [w][1..] == [];
  }

  lemma PicturesOfOrphans(orphans: seq<Message>, r: Message)
    ensures PicturesOut(InWords(orphans + [r])) == PicturesOut(InWords(orphans)) + r.images
  {
    InWordsSnoc(orphans, r);
    PicturesOutConcat(InWords(orphans), [Words(r)]);
    PicturesOfOne(Words(r));
  }

  lemma PicturesInLast(results: seq<Message>)
    requires results != [] && IsResult(results[|results| - 1])
    ensures PicturesIn(results) == PicturesIn(results[..|results| - 1]) + results[|results| - 1].images
  {
    var before, r := results[..|results| - 1], results[|results| - 1];
    assert results == before + [r];
    PicturesInConcat(before, [r]);
    assert [r][1..] == [];
  }

  /** The pictures a block has room for: those of its answers together, those of its orphans with them. */
  function BlockPictures(m: Matching): multiset<Image> {
    multiset(m.pictures) + multiset(PicturesOut(InWords(m.orphans)))
  }

  lemma TakeKeepsPictures(m: Matching, r: Message)
    ensures BlockPictures(Take(m, r)) == BlockPictures(m) + multiset(r.images)
  {
    PicturesOfOrphans(m.orphans, r);
  }

  lemma {:induction false} MatchedPictures(results: seq<Message>, ids: seq<string>)
    requires forall i :: 0 <= i < |results| ==> IsResult(results[i])
    ensures BlockPictures(Matched(results, ids)) == multiset(PicturesIn(results))
  {
    if results == [] {
      assert InWords([]) == [];
    } else {
      MatchedPictures(results[..|results| - 1], ids);
      TakeKeepsPictures(Matched(results[..|results| - 1], ids), results[|results| - 1]);
      PicturesInLast(results);
    }
  }

  lemma PicturesOfTail(pictures: seq<Image>, words: seq<Wire>)
    ensures PicturesOut(Screens(pictures) + words) == pictures + PicturesOut(words)
  {
    PicturesOutConcat(Screens(pictures), words);
    if pictures != [] {
      PicturesOfOne(Screen(pictures));
    }
  }

  lemma PicturesOfHead(said: Wire, tools: seq<Wire>)
    requires said.Calls? && AllTools(tools)
    ensures PicturesOut([said] + tools) == []
  {
    PicturesOutConcat([said], tools);
    PicturesOfOne(said);
    ToolsHaveNoPictures(tools);
  }

  lemma PicturesOfBlock(said: Wire, answers: seq<Wire>, told: seq<Wire>, pictures: seq<Image>, words: seq<Wire>)
    requires said.Calls? && AllTools(answers) && AllTools(told)
    ensures PicturesOut([said] + answers + told + Screens(pictures) + words) == pictures + PicturesOut(words)
  {
    Regrouped([said], answers, told, Screens(pictures), words);
    PicturesOutConcat([said] + (answers + told), Screens(pictures) + words);
    PicturesOfHead(said, answers + told);
    PicturesOfTail(pictures, words);
  }

  lemma BlockSendsPictures(m: Message, results: seq<Message>)
    requires forall i :: 0 <= i < |results| ==> IsResult(results[i])
    ensures multiset(PicturesOut(Block(m, results))) == multiset(PicturesIn(results))
  {
    var s := Matched(results, Ids(m.calls));
    AnswersAreTools(results, Ids(m.calls));
    MatchedPictures(results, Ids(m.calls));
    PicturesOfBlock(Said(m), s.answers, Unanswered(s.open), s.pictures, InWords(s.orphans));
  }

  lemma BlockSegmentPictures(ms: seq<Message>, results: seq<Message>, rest: seq<Message>)
    requires ms != [] && !IsResult(ms[0]) && ms[0].calls != [] && ms[1..] == results + rest
    requires forall i :: 0 <= i < |results| ==> IsResult(results[i])
    ensures multiset(PicturesOut(Block(ms[0], results))) + multiset(PicturesIn(rest)) == multiset(PicturesIn(ms))
  {
    hide Block;
    BlockSendsPictures(ms[0], results);
    PicturesInConcat(results, rest);
  }

  lemma SegmentPictures(ms: seq<Message>)
    requires ms != []
    ensures multiset(PicturesOut(Segment(ms))) + multiset(PicturesIn(ms[Span(ms)..])) == multiset(PicturesIn(ms))
  {
    hide Block;
    if IsResult(ms[0]) || ms[0].calls == [] {
      PicturesOfOne(Segment(ms)[0]);
    } else {
      SplitBlock(ms);
      BlockSegmentPictures(ms, ms[1..Span(ms)], ms[Span(ms)..]);
    }
  }

  /** Every picture is sent exactly once. */
  lemma {:induction false} EachPictureIsSentOnce(ms: seq<Message>)
    ensures multiset(PicturesOut(Chat(ms))) == multiset(PicturesIn(ms))
    decreases |ms|
  {
    if ms != [] {
      EachPictureIsSentOnce(ms[Span(ms)..]);
      PicturesOutConcat(Segment(ms), Chat(ms[Span(ms)..]));
      SegmentPictures(ms);
    }
  }

  /** Every picture of the conversation. */
  function AllPictures(ms: seq<Message>): seq<Image> {
    if ms == [] then [] else ms[0].images + AllPictures(ms[1..])
  }

  /** A message that both calls and carries pictures, for which the dialect has no form. */
  predicate CallsWithPictures(m: Message) {
    !IsResult(m) && m.calls != [] && m.images != []
  }

  predicate NoneCallsWithPictures(ms: seq<Message>) {
    forall i :: 0 <= i < |ms| ==> !CallsWithPictures(ms[i])
  }

  lemma {:induction false} PicturesShrink(ms: seq<Message>)
    ensures |PicturesIn(ms)| <= |AllPictures(ms)|
    ensures |PicturesIn(ms)| == |AllPictures(ms)| <==> NoneCallsWithPictures(ms)
    ensures NoneCallsWithPictures(ms) ==> PicturesIn(ms) == AllPictures(ms)
  {
    if ms != [] {
      PicturesShrink(ms[1..]);
      assert NoneCallsWithPictures(ms) <==> !CallsWithPictures(ms[0]) && NoneCallsWithPictures(ms[1..]) by {
        assert forall i :: 0 < i < |ms| ==> ms[i] == ms[1..][i - 1];
        assert forall i :: 0 <= i < |ms[1..]| ==> ms[1..][i] == ms[i + 1];
      }
    }
  }

  /** Nothing at all is dropped exactly when no message both calls and carries pictures. */
  lemma NoPictureIsDroppedIff(ms: seq<Message>)
    ensures multiset(PicturesOut(Chat(ms))) == multiset(AllPictures(ms)) <==> NoneCallsWithPictures(ms)
  {
    hide Chat, PicturesOut, PicturesIn, AllPictures;
    EachPictureIsSentOnce(ms);
    PicturesShrink(ms);
    assert |multiset(PicturesIn(ms))| == |PicturesIn(ms)| && |multiset(AllPictures(ms))| == |AllPictures(ms)|;
  }

  /** A conversation of one message that calls and carries a picture is sent without it. */
  lemma APictureCanBeDropped(picture: Image, call: Call)
    ensures var ms := [Message(OtherRole("assistant"), "", [picture], [call], None)];
            PicturesOut(Chat(ms)) == [] && AllPictures(ms) == [picture]
  {
    var ms := [Message(OtherRole("assistant"), "", [picture], [call], None)];
    assert ms[1..] == [];
    hide Chat, PicturesOut;
    EachPictureIsSentOnce(ms);
    assert |PicturesOut(Chat(ms))| == |multiset(PicturesOut(Chat(ms)))| == 0;
  }

  // ----- a whole conversation keeps its order -----------------------------------------------------------

  /** Each message as itself, with no mending. */
  function Direct(m: Message): Wire {
    if IsResult(m) then Tool(if m.callId.Some? then m.callId.value else "", Some(m.content))
    else if m.calls == [] then Plain(m.role, m.content, m.images)
    else Said(m)
  }

  function DirectAll(ms: seq<Message>): (ws: seq<Wire>)
    ensures |ws| == |ms|
  {
    if ms == [] then [] else [Direct(ms[0])] + DirectAll(ms[1..])
  }

  lemma {:induction false} DirectAt(ms: seq<Message>, i: nat)
    requires i < |ms|
    ensures DirectAll(ms)[i] == Direct(ms[i])
  {
    if i > 0 {
      DirectAt(ms[1..], i - 1);
    }
  }

  lemma {:induction false} DirectTools(results: seq<Message>)
    requires forall i :: 0 <= i < |results| ==> IsResult(results[i])
    ensures AllTools(DirectAll(results))
  {
    forall i | 0 <= i < |results| ensures DirectAll(results)[i].Tool? {
      DirectAt(results, i);
    }
  }

  /** Nothing to mend: each result names its call, and the messages as themselves are well formed. */
  predicate Whole(ms: seq<Message>) {
    (forall i :: 0 <= i < |ms| ==> IsResult(ms[i]) ==> ms[i].callId.Some?) && WellFormed(DirectAll(ms))
  }

  function WithoutScreens(out: seq<Wire>): seq<Wire> {
    if out == [] then []
    else if out[0].Screen? then WithoutScreens(out[1..])
    else [out[0]] + WithoutScreens(out[1..])
  }

  lemma {:induction false} WithoutScreensConcat(a: seq<Wire>, b: seq<Wire>)
    ensures WithoutScreens(a + b) == WithoutScreens(a) + WithoutScreens(b)
  {
    if a == [] {
      assert a + b == b;
    } else {
      assert (a + b)[1..] == a[1..] + b;
      WithoutScreensConcat(a[1..], b);
    }
  }

  lemma {:induction false} NoScreens(ws: seq<Wire>)
    requires forall i :: 0 <= i < |ws| ==> !ws[i].Screen?
    ensures WithoutScreens(ws) == ws
  {
    if ws != [] {
      NoScreens(ws[1..]);
    }
  }

  lemma WellFormedFrom(out: seq<Wire>, n: nat)
    requires WellFormed(out) && n <= |out| && (n < |out| ==> !out[n].Tool?)
    ensures WellFormed(out[n..])
  {
    var rest := out[n..];
    forall p | 0 <= p < |rest| ensures ToolFollows(rest, p) && CallsAnswered(rest, p) {
      assert ToolFollows(out, n + p) && CallsAnswered(out, n + p);
      assert out[n + p + 1..] == rest[p + 1..];
    }
  }

  lemma {:induction false} DirectConcat(a: seq<Message>, b: seq<Message>)
    ensures DirectAll(a + b) == DirectAll(a) + DirectAll(b)
  {
    if a == [] {
      assert a + b == b;
    } else {
      assert (a + b)[1..] == a[1..] + b;
      DirectConcat(a[1..], b);
    }
  }

  lemma RunIdOfOne(w: Wire)
    requires w.Tool?
    ensures RunIds([w]) == [w.id]
  {
    assert [w][1..] == [];
  }

  lemma DirectSnoc(results: seq<Message>)
    requires results != []
    ensures DirectAll(results) == DirectAll(results[..|results| - 1]) + [Direct(results[|results| - 1])]
  {
    var before, r := results[..|results| - 1], results[|results| - 1];
    assert results == before + [r];
    DirectConcat(before, [r]);
    assert DirectAll([r]) == [Direct(r)];
  }

  lemma DirectFrom(ms: seq<Message>, n: nat)
    requires n <= |ms|
    ensures DirectAll(ms) == DirectAll(ms[..n]) + DirectAll(ms[n..]) && DirectAll(ms)[n..] == DirectAll(ms[n..])
  {
    assert ms == ms[..n] + ms[n..];
    DirectConcat(ms[..n], ms[n..]);
  }

  lemma {:induction false} RunIdsAreNamed(results: seq<Message>)
    requires forall i :: 0 <= i < |results| ==> IsResult(results[i]) && results[i].callId.Some?
    ensures multiset(RunIds(DirectAll(results))) == Named(results)
  {
    if results != [] {
      var before, r := results[..|results| - 1], results[|results| - 1];
      RunIdsAreNamed(before);
      DirectSnoc(results);
      DirectTools(before);
      RunIdsOfTools(DirectAll(before), [Direct(r)]);
      RunIdOfOne(Direct(r));
    }
  }

  lemma {:induction false} NamedGrows(results: seq<Message>, n: nat)
    requires n <= |results|
    ensures Named(results[..n]) <= Named(results)
    decreases |results|
  {
    if n == |results| {
      assert results[..n] == results;
    } else {
      NamedGrows(results[..|results| - 1], n);
      assert results[..|results| - 1][..n] == results[..n];
    }
  }

  /** While no id is named more often than it was called, every result answers, in turn. */
  lemma {:induction false} AllAnswer(results: seq<Message>, ids: seq<string>)
    requires forall i :: 0 <= i < |results| ==> IsResult(results[i]) && results[i].callId.Some?
    requires Named(results) <= multiset(ids)
    ensures Sorted(results, ids).answers == DirectAll(results) && Sorted(results, ids).orphans == []
  {
    if results != [] {
      var before, r := results[..|results| - 1], results[|results| - 1];
      NamedGrows(results, |before|);
      AllAnswer(before, ids);
      assert Named(results)[r.callId.value] == Named(before)[r.callId.value] + 1;
      DirectSnoc(results);
    }
  }

  lemma ScreenlessBlock(said: Wire, answers: seq<Wire>, pictures: seq<Image>)
    requires said.Calls? && AllTools(answers)
    ensures WithoutScreens([said] + answers + [] + Screens(pictures) + []) == [said] + answers
  {
    assert [said] + answers + [] + Screens(pictures) + [] == [said] + answers + Screens(pictures);
    WithoutScreensConcat([said] + answers, Screens(pictures));
    NoScreens([said] + answers);
    if pictures != [] {
      assert Screens(pictures)[1..] == [];
    }
  }

  lemma WholeResults(ms: seq<Message>, results: seq<Message>, rest: seq<Message>)
    requires Whole(ms) && ms != [] && ms[1..] == results + rest
    requires forall i :: 0 <= i < |results| ==> IsResult(results[i])
    ensures forall i :: 0 <= i < |results| ==> results[i].callId.Some?
  {
    forall i | 0 <= i < |results| ensures results[i].callId.Some? {
      assert results[i] == ms[1..][i] == ms[1 + i];
    }
  }

  lemma RunOfResults(results: seq<Message>, rest: seq<Message>)
    requires rest != [] ==> !IsResult(rest[0])
    requires forall i :: 0 <= i < |results| ==> IsResult(results[i]) && results[i].callId.Some?
    ensures multiset(RunIds(DirectAll(results + rest))) == Named(results)
  {
    DirectConcat(results, rest);
    RunIdsStop(DirectAll(results), DirectAll(rest));
    RunIdsAreNamed(results);
  }

  /** The results of a whole conversation's block name exactly its calls. */
  lemma WholeBlockNames(ms: seq<Message>, results: seq<Message>, rest: seq<Message>)
    requires Whole(ms) && ms != [] && !IsResult(ms[0]) && ms[0].calls != []
    requires ms[1..] == results + rest && (rest != [] ==> !IsResult(rest[0]))
    requires forall i :: 0 <= i < |results| ==> IsResult(results[i]) && results[i].callId.Some?
    ensures Named(results) == multiset(Ids(ms[0].calls))
  {
    assert CallsAnswered(DirectAll(ms), 0);
    assert DirectAll(ms)[1..] == DirectAll(ms[1..]);
    RunOfResults(results, rest);
  }

  /** A block whose results name exactly its calls goes as itself. */
  lemma WholeBlock(m: Message, results: seq<Message>)
    requires forall i :: 0 <= i < |results| ==> IsResult(results[i]) && results[i].callId.Some?
    requires Named(results) == multiset(Ids(m.calls))
    ensures WithoutScreens(Block(m, results)) == [Said(m)] + DirectAll(results)
  {
    var ids := Ids(m.calls);
    MatchedIsSorted(results, ids);
    AllAnswer(results, ids);
    SortedOpen(results, ids);
    AllNamed(ids);
    DirectTools(results);
    ScreenlessBlock(Said(m), DirectAll(results), Sorted(results, ids).pictures);
  }

  lemma AllNamed(ids: seq<string>)
    ensures Left(ids, multiset(ids)) == []
  {
    LeftCounts(ids, multiset(ids));
    assert |multiset(Left(ids, multiset(ids)))| == 0;
  }

  lemma WholeBlockSegment(ms: seq<Message>, results: seq<Message>, rest: seq<Message>)
    requires Whole(ms) && ms != [] && !IsResult(ms[0]) && ms[0].calls != []
    requires ms[1..] == results + rest && (rest != [] ==> !IsResult(rest[0]))
    requires forall i :: 0 <= i < |results| ==> IsResult(results[i])
    ensures WithoutScreens(Block(ms[0], results)) == [Direct(ms[0])] + DirectAll(results)
  {
    WholeResults(ms, results, rest);
    WholeBlockNames(ms, results, rest);
    WholeBlock(ms[0], results);
  }

  lemma DirectCons(ms: seq<Message>, n: nat)
    requires 0 < n <= |ms|
    ensures DirectAll(ms[..n]) == [Direct(ms[0])] + DirectAll(ms[1..n])
  {
    assert ms[..n][1..] == ms[1..n];
  }

  lemma WholeSegment(ms: seq<Message>)
    requires Whole(ms) && ms != []
    ensures WithoutScreens(Segment(ms)) == DirectAll(ms[..Span(ms)])
    ensures Span(ms) < |ms| ==> !IsResult(ms[Span(ms)])
  {
    hide Block;
    assert ToolFollows(DirectAll(ms), 0);
    DirectCons(ms, Span(ms));
    if ms[0].calls == [] {
      assert Segment(ms)[1..] == [] && ms[1..1] == [];
      if 1 < |ms| {
        DirectAt(ms, 1);
        assert ToolFollows(DirectAll(ms), 1);
      }
    } else {
      SplitBlock(ms);
      WholeBlockSegment(ms, ms[1..Span(ms)], ms[Span(ms)..]);
    }
  }

  lemma WholeFrom(ms: seq<Message>, n: nat)
    requires Whole(ms) && n <= |ms| && (n < |ms| ==> !IsResult(ms[n]))
    ensures Whole(ms[n..])
    ensures DirectAll(ms) == DirectAll(ms[..n]) + DirectAll(ms[n..])
  {
    WellFormedFrom(DirectAll(ms), n);
    DirectFrom(ms, n);
  }

  /** A conversation with nothing to mend goes as it is, in its order, its pictures aside. */
  lemma {:induction false} WholeConversationKeepsItsOrder(ms: seq<Message>)
    requires Whole(ms)
    ensures WithoutScreens(Chat(ms)) == DirectAll(ms)
    decreases |ms|
  {
    if ms != [] {
      WholeSegment(ms);
      WholeFrom(ms, Span(ms));
      WholeConversationKeepsItsOrder(ms[Span(ms)..]);
      WithoutScreensConcat(Segment(ms), Chat(ms[Span(ms)..]));
    }
  }
}
