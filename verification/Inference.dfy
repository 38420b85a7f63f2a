/** Sources of inference: their kinds and ways, how settings combine, and their spelling in a stored row. */
module Inference {
  import opened Common
  import opened Texts

  datatype SourceKind = Gateway | LocalProxy

  datatype Via = Loopback | Mac

  /** `via` matters for `LocalProxy` only, where `None` leaves the choice to `Setting.via`. */
  datatype TurnSource = TurnSource(kind: SourceKind, via: Option<Via>)

  datatype PlanFallback = PlanFallback(model: string, effort: string)

  /** What an account has chosen; `relays` lists the machines that would take a relayed call now. */
  datatype Setting = Setting(
    kind: SourceKind, baseUrl: Option<string>, localModel: Option<string>, hasKey: bool, via: Option<Via>,
    relayModel: Option<string>, relays: seq<string>, planFallback: Option<PlanFallback>)

  function Or<T>(a: Option<T>, b: Option<T>): Option<T> {
    if a.Some? then a else b
  }

  function OrElse<T>(a: Option<T>, b: T): T {
    if a.Some? then a.value else b
  }

  /** `chosen` if there is one, else the coworker's kind with its way left open. */
  function Picked(chosen: Option<TurnSource>, coworker: Option<SourceKind>): Option<TurnSource> {
    if chosen.Some? then chosen
    else if coworker.Some? then Some(TurnSource(coworker.value, None)) else None
  }

  /** Kind and way are looked up separately: in `chosen` first, then in `setting`, and `Loopback` for want of a way. */
  function Resolve(setting: Setting, chosen: Option<TurnSource>): (SourceKind, Via) {
    var kind := if chosen.Some? then chosen.value.kind else setting.kind;
    var via := Or(if chosen.Some? then chosen.value.via else None, setting.via);
    (kind, OrElse(via, Loopback))
  }

  /** The resolved source is the Mac and some relay is on. */
  predicate ByMac(setting: Setting, chosen: Option<TurnSource>, coworker: Option<SourceKind>) {
    setting.relays != [] && Resolve(setting, Picked(chosen, coworker)) == (LocalProxy, Mac)
  }

  // ----- words in a stored row ----------------------------------------------------------------------

  function KindWord(kind: SourceKind): string {
    match kind
    case Gateway => "gateway"
    case LocalProxy => "local_proxy"
  }

  function ViaWord(via: Via): string {
    match via
    case Loopback => "loopback"
    case Mac => "mac"
  }

  function ParseKind(word: string): Option<SourceKind> {
    if word == "gateway" then Some(Gateway) else if word == "local_proxy" then Some(LocalProxy) else None
  }

  /** No way for the empty word, and `Err` for a word that names none; `ViaWord` goes the other way. */
  function NamedVia(word: string): Result<Option<Via>, string> {
    if word == "" then Ok(None)
    else if word == "loopback" then Ok(Some(Loopback))
    else if word == "mac" || word == "computer" then Ok(Some(Mac))
    else Err(word)
  }

  function Stored(source: TurnSource): string {
    if source.via.None? then KindWord(source.kind) else KindWord(source.kind) + ":" + ViaWord(source.via.value)
  }

  function FromStored(text: string): Option<TurnSource> {
    var cut := SplitOnce(text, ':');
    var kind := ParseKind(if cut.Some? then cut.value.0 else text);
    var via := NamedVia(if cut.Some? then cut.value.1 else "");
    if kind.Some? && via.Ok? then Some(TurnSource(kind.value, via.value)) else None
  }

  lemma KindWords(kind: SourceKind)
    ensures ParseKind(KindWord(kind)) == Some(kind) && ':' !in KindWord(kind)
  {
  }

  lemma ViaWords(via: Via)
    ensures NamedVia(ViaWord(via)) == Ok(Some(via))
  {
  }

  /** A row reads back as what was stored. */
  lemma StoredReadsBack(source: TurnSource)
    ensures FromStored(Stored(source)) == Some(source)
  {
    hide KindWord, ViaWord, ParseKind;
    KindWords(source.kind);
    if source.via.Some? {
      ViaWords(source.via.value);
      SplitOnceAt(KindWord(source.kind), ':', ViaWord(source.via.value));
    }
  }

  /** A row is the kind's word, and a colon and the way's word where a way was named. */
  lemma WhatIsStored(source: TurnSource)
    ensures source == TurnSource(Gateway, None) ==> Stored(source) == "gateway"
    ensures source == TurnSource(LocalProxy, None) ==> Stored(source) == "local_proxy"
    ensures source == TurnSource(LocalProxy, Some(Loopback)) ==> Stored(source) == "local_proxy:loopback"
    ensures source == TurnSource(LocalProxy, Some(Mac)) ==> Stored(source) == "local_proxy:mac"
  {
    assert "local_proxy" + ":" + "loopback" == "local_proxy:loopback";
    assert "local_proxy" + ":" + "mac" == "local_proxy:mac";
  }

  predicate IsKindWord(word: string, kind: SourceKind) {
    if kind == Gateway then word == "gateway" else word == "local_proxy"
  }

  predicate IsViaWord(word: string, via: Option<Via>) {
    match via
    case None => word == ""
    case Some(Loopback) => word == "loopback"
    case Some(Mac) => word == "mac" || word == "computer"
  }

  /** A text reads as a source exactly when it is a kind's word, alone or with a colon and a way's word behind it. */
  lemma WhatIsRead(text: string, source: TurnSource)
    ensures FromStored(text) == Some(source) <==>
            || (IsKindWord(text, source.kind) && source.via.None?)
            || exists kind: string, via: string ::
                 text == kind + [':'] + via && IsKindWord(kind, source.kind) && IsViaWord(via, source.via)
  {
    WordsAre(text, "", source);
    ReadByParts(text, source);
    hide FromStored, SplitOnce;
    forall kind: string, via: string | text == kind + [':'] + via && IsKindWord(kind, source.kind)
      ensures SplitOnce(text, ':') == Some((kind, via))
    {
      WordsAre(kind, via, source);
      hide IsKindWord, IsViaWord;
      SplitOnceAt(kind, ':', via);
    }
    var cut := SplitOnce(text, ':');
    if cut.Some? {
      WordsAre(cut.value.0, cut.value.1, source);
      hide ParseKind, NamedVia, IsKindWord, IsViaWord;
    } else {
      hide ParseKind, NamedVia, IsViaWord;
    }
  }

  lemma ReadByParts(text: string, source: TurnSource)
    ensures var cut := SplitOnce(text, ':');
            FromStored(text) == Some(source) <==>
            && ParseKind(if cut.Some? then cut.value.0 else text) == Some(source.kind)
            && NamedVia(if cut.Some? then cut.value.1 else "") == Ok(source.via)
  {
    hide ParseKind, NamedVia, SplitOnce;
  }

  lemma WordsAre(kind: string, via: string, source: TurnSource)
    ensures ParseKind(kind) == Some(source.kind) <==> IsKindWord(kind, source.kind)
    ensures NamedVia(via) == Ok(source.via) <==> IsViaWord(via, source.via)
    ensures IsKindWord(kind, source.kind) ==> ':' !in kind
  {
  }
}
