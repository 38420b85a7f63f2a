/** Strings taken apart and put together, as the source's standard library does it. */
module Texts {
  import opened Common

  /** The Unicode property White_Space. */
  predicate IsSpace(c: char) {
    || '\t' <= c <= '\r' || c == ' ' || c == '\U{85}' || c == '\U{A0}' || c == '\U{1680}'
    || '\U{2000}' <= c <= '\U{200A}'
    || c == '\U{2028}' || c == '\U{2029}' || c == '\U{202F}' || c == '\U{205F}' || c == '\U{3000}'
  }

  function TrimEnd(text: string): string {
    if text != "" && IsSpace(text[|text| - 1]) then TrimEnd(text[..|text| - 1]) else text
  }

  function TrimStart(text: string): string {
    if text != "" && IsSpace(text[0]) then TrimStart(text[1..]) else text
  }

  function Trim(text: string): string {
    TrimEnd(TrimStart(text))
  }

  // ----- at a separator ----------------------------------------------------------------------------------

  /** Everything before the first `c`, and everything after it. */
  function SplitOnce(text: string, c: char): (cut: Option<(string, string)>)
    ensures cut.Some? <==> c in text
    ensures cut.Some? ==> c !in cut.value.0 && text == cut.value.0 + [c] + cut.value.1
  {
    if text == "" then None
    else if text[0] == c then Some(("", text[1..]))
    else
      var rest := SplitOnce(text[1..], c);
      if rest.Some? then Some(([text[0]] + rest.value.0, rest.value.1)) else None
  }

  lemma {:induction false} SplitOnceAt(a: string, c: char, b: string)
    requires c !in a
    ensures SplitOnce(a + [c] + b, c) == Some((a, b))
  {
    var text := a + [c] + b;
    if a == "" {
      assert text[1..] == b;
    } else {
      assert text[0] == a[0] && text[1..] == a[1..] + [c] + b && [a[0]] + a[1..] == a;
      SplitOnceAt(a[1..], c, b);
    }
  }

  /** The pieces between separators: always at least one, and none holds a separator. */
  function Split(text: string, c: char): (pieces: seq<string>)
    ensures pieces != [] && forall i :: 0 <= i < |pieces| ==> c !in pieces[i]
    decreases |text|
  {
    var cut := SplitOnce(text, c);
    if cut.None? then [text]
    else
      assert |text| == |cut.value.0| + 1 + |cut.value.1|;
      [cut.value.0] + Split(cut.value.1, c)
  }

  function Join(pieces: seq<string>, c: char): string
    requires pieces != []
  {
    if |pieces| == 1 then pieces[0] else pieces[0] + [c] + Join(pieces[1..], c)
  }

  lemma {:induction false} JoinSplit(text: string, c: char)
    ensures Join(Split(text, c), c) == text
    decreases |text|
  {
    var cut := SplitOnce(text, c);
    if cut.Some? {
      assert |text| == |cut.value.0| + 1 + |cut.value.1|;
      JoinSplit(cut.value.1, c);
      assert Split(text, c)[1..] == Split(cut.value.1, c);
    }
  }

  lemma {:induction false} SplitJoin(pieces: seq<string>, c: char)
    requires pieces != [] && forall i :: 0 <= i < |pieces| ==> c !in pieces[i]
    ensures Split(Join(pieces, c), c) == pieces
  {
    if |pieces| == 1 {
      assert pieces == [pieces[0]];
    } else {
      SplitOnceAt(pieces[0], c, Join(pieces[1..], c));
      SplitJoin(pieces[1..], c);
      assert pieces == [pieces[0]] + pieces[1..];
    }
  }

  // ----- at white space ------------------------------------------------------------------------------------

  predicate IsWord(text: string) {
    text != "" && forall i :: 0 <= i < |text| ==> !IsSpace(text[i])
  }

  predicate AllWords(words: seq<string>) {
    forall i :: 0 <= i < |words| ==> IsWord(words[i])
  }

  /** How far the text goes before its first white space. */
  function WordLength(text: string): (n: nat)
    ensures n <= |text| && (forall i :: 0 <= i < n ==> !IsSpace(text[i])) && (n < |text| ==> IsSpace(text[n]))
  {
    if text == "" || IsSpace(text[0]) then 0 else 1 + WordLength(text[1..])
  }

  /** The words between white space. */
  function Words(text: string): (words: seq<string>)
    ensures AllWords(words)
    decreases |text|
  {
    if text == "" then []
    else if IsSpace(text[0]) then Words(text[1..])
    else
      var n := WordLength(text);
      assert IsWord(text[..n]);
      [text[..n]] + Words(text[n..])
  }

  lemma WordFirst(word: string, rest: string)
    requires IsWord(word) && (rest != "" ==> IsSpace(rest[0]))
    ensures Words(word + rest) == [word] + Words(rest)
  {
    var text := word + rest;
    WordLengthIs(text, |word|);
    assert text[..|word|] == word && text[|word|..] == rest && text[0] == word[0];
  }

  lemma {:induction false} WordLengthIs(text: string, n: nat)
    requires n <= |text| && (forall i :: 0 <= i < n ==> !IsSpace(text[i])) && (n < |text| ==> IsSpace(text[n]))
    ensures WordLength(text) == n
  {
    if n > 0 {
      WordLengthIs(text[1..], n - 1);
    }
  }

  /** Words joined by single spaces are those words. */
  lemma {:induction false} WordsJoin(words: seq<string>)
    requires words != [] && AllWords(words)
    ensures Words(Join(words, ' ')) == words
  {
    if |words| == 1 {
      assert words[0] + "" == words[0];
      WordFirst(words[0], "");
      assert words == [words[0]];
    } else {
      var rest := Join(words[1..], ' ');
      WordsJoin(words[1..]);
      assert words[0] + [' '] + rest == words[0] + ([' '] + rest);
      WordFirst(words[0], [' '] + rest);
      assert ([' '] + rest)[1..] == rest;
      assert words == [words[0]] + words[1..];
    }
  }

  lemma {:induction false} WordsTrimStart(text: string)
    ensures Words(TrimStart(text)) == Words(text)
  {
    if text != "" && IsSpace(text[0]) {
      WordsTrimStart(text[1..]);
    }
  }

  /** A space at the end adds no word. */
  lemma {:induction false} WordsSnocSpace(text: string, c: char)
    requires IsSpace(c)
    ensures Words(text + [c]) == Words(text)
    decreases |text|
  {
    var longer := text + [c];
    if text == "" {
      assert longer == [c] && longer[1..] == "";
    } else if IsSpace(text[0]) {
      assert longer[1..] == text[1..] + [c];
      WordsSnocSpace(text[1..], c);
    } else {
      var n := WordLength(text);
      WordLengthIs(longer, n);
      assert longer[..n] == text[..n] && longer[n..] == text[n..] + [c];
      WordsSnocSpace(text[n..], c);
    }
  }

  lemma {:induction false} WordsTrimEnd(text: string)
    ensures Words(TrimEnd(text)) == Words(text)
  {
    if text != "" && IsSpace(text[|text| - 1]) {
      WordsTrimEnd(text[..|text| - 1]);
      assert text == text[..|text| - 1] + [text[|text| - 1]];
      WordsSnocSpace(text[..|text| - 1], text[|text| - 1]);
    }
  }

  lemma WordsTrim(text: string)
    ensures Words(Trim(text)) == Words(text)
  {
    WordsTrimStart(text);
    WordsTrimEnd(TrimStart(text));
  }

  /** Neither end is white space. */
  predicate IsTrimmed(text: string) {
    text != "" ==> !IsSpace(text[0]) && !IsSpace(text[|text| - 1])
  }

  lemma {:induction false} TrimStartTrims(text: string)
    ensures TrimStart(text) != "" ==> !IsSpace(TrimStart(text)[0])
  {
    if text != "" && IsSpace(text[0]) {
      TrimStartTrims(text[1..]);
    }
  }

  lemma {:induction false} TrimEndTrims(text: string)
    requires text != "" ==> !IsSpace(text[0])
    ensures IsTrimmed(TrimEnd(text))
  {
    if text != "" && IsSpace(text[|text| - 1]) {
      assert |text| > 1 && text[..|text| - 1][0] == text[0];
      TrimEndTrims(text[..|text| - 1]);
    }
  }

  lemma TrimTrims(text: string)
    ensures IsTrimmed(Trim(text))
  {
    TrimStartTrims(text);
    TrimEndTrims(TrimStart(text));
  }

  lemma TrimOfTrimmed(text: string)
    requires IsTrimmed(text)
    ensures Trim(text) == text
  {
  }

  lemma {:induction false} JoinIsTrimmed(words: seq<string>)
    requires words != [] && AllWords(words)
    ensures var text := Join(words, ' '); text != "" && text[0] == words[0][0] && IsTrimmed(text)
  {
    assert IsWord(words[0]);
    if |words| > 1 {
      JoinIsTrimmed(words[1..]);
    }
  }
}
