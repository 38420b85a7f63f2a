/**
 The route of a turn, and of a turn carried on: to the gateway, or to a plan's endpoint by the loopback or the Mac,
 with the gateway as the Mac's substitute when a fallback is set and no relay is on.

 What is read (the setting, whether the proxy's key opens) comes in as a value. `allowed` says which models a
 subscription may answer.
 */
module Routing {
  import opened Common
  import opened Texts
  import opened Inference
  import opened Run
  import opened RunLog

  datatype Why = Unreadable | RelayOff | NoMacModel | NoAddress | NoModel | KeyClosed | NotOnASchedule

  datatype Endpoint =
    | Proxy(baseUrl: string, key: Option<string>)
    | Relay(machines: seq<string>)
    | Unavailable(why: Why, via: Option<Via>)

  datatype Route =
    | ToGateway
    | ToPlan(model: string, endpoint: Endpoint)
    | ToFallback(fallback: PlanFallback)

  function ViaOf(endpoint: Endpoint): Option<Via> {
    match endpoint
    case Proxy(_, _) => Some(Loopback)
    case Relay(_) => Some(Mac)
    case Unavailable(_, via) => via
  }

  /** What a run captures of its route. */
  function SourceOf(route: Route): TurnSource {
    if route.ToPlan? then TurnSource(LocalProxy, ViaOf(route.endpoint)) else TurnSource(Gateway, None)
  }

  /** The model its request asks for. */
  function Asked(route: Route, pin: string): string {
    match route
    case ToGateway => pin
    case ToPlan(model, _) => model
    case ToFallback(fallback) => fallback.model
  }

  /** A coworker as a route reads it: its own source, and its pin. */
  datatype Coworker = Coworker(source: Option<SourceKind>, pin: Option<string>)

  /** The model asked ahead of any setting's: the captured one, else the pin of a coworker on its own plan. */
  function AheadOfTheSetting(allowed: string -> bool, captured: Option<string>, coworker: Coworker): Option<string> {
    Or(captured,
       if coworker.pin.Some? && coworker.source == Some(LocalProxy) && allowed(coworker.pin.value) then coworker.pin
         else None)
  }

  function LoopbackEndpoint(base: Option<string>, model: string, key: Result<Option<string>, string>): Endpoint {
    if base.None? || base.value == "" then Unavailable(NoAddress, Some(Loopback))
    else if model == "" then Unavailable(NoModel, Some(Loopback))
    else if key.Ok? then Proxy(base.value, key.value)
    else Unavailable(KeyClosed, Some(Loopback))
  }

  /** What is read for a turn: the setting, if it can be, and the proxy's key. */
  datatype Saved = Saved(setting: Option<Setting>, key: Result<Option<string>, string>)

  predicate NamesGateway(chosen: Option<TurnSource>) {
    chosen.Some? && chosen.value.kind == Gateway
  }

  function ByTheMac(setting: Setting, ahead: Option<string>, isFresh: bool): Route {
    var model := OrElse(Or(ahead, setting.relayModel), "");
    if setting.relays == [] then
      if setting.planFallback.Some? && isFresh then ToFallback(setting.planFallback.value)
      else ToPlan(model, Unavailable(RelayOff, Some(Mac)))
    else ToPlan(model, if model == "" then Unavailable(NoMacModel, Some(Mac)) else Relay(setting.relays))
  }

  function RouteTurn(
    allowed: string -> bool, saved: Saved, account: bool, chosen: Option<TurnSource>, captured: Option<string>,
      coworker: Coworker): Route
  {
    var picked, isFresh := Picked(chosen, coworker.source), captured.None?;
    if !account || NamesGateway(picked) then ToGateway
    else
      var ahead := AheadOfTheSetting(allowed, captured, coworker);
      if saved.setting.None? then
        ToPlan(OrElse(ahead, ""), Unavailable(Unreadable, if picked.Some? then picked.value.via else None))
      else
        var setting := saved.setting.value;
        match Resolve(setting, picked)
        case (Gateway, _) => ToGateway
        case (LocalProxy, Mac) => ByTheMac(setting, ahead, isFresh)
        case (LocalProxy, Loopback) =>
          var model := OrElse(Or(ahead, setting.localModel), "");
          ToPlan(model, LoopbackEndpoint(setting.baseUrl, model, saved.key))
  }

  // ----- a carry-on ----------------------------------------------------------------------------------------------

  /** A run logged before there were two ways went by the loopback. */
  function SourceForResume(capture: Capture): TurnSource {
    TurnSource(capture.source, if capture.source == LocalProxy then Some(OrElse(capture.via, Loopback)) else None)
  }

  /** The route of a turn begun by another Bot's message: only the gateway can take it. */
  function ForMessage(source: SourceKind, pin: string): Route {
    if source == LocalProxy then ToPlan(pin, Unavailable(NotOnASchedule, None)) else ToGateway
  }

  function ResumedRoute(allowed: string -> bool, saved: Saved, capture: Capture, onAMessage: bool, pin: string): Route {
    if onAMessage then ForMessage(capture.source, pin)
    else RouteTurn(allowed, saved, true, Some(SourceForResume(capture)), capture.model, Coworker(None, None))
  }

  /** The model a run records: trimmed, and none when blank. */
  function RecordedModel(model: string): Option<string> {
    if Trim(model) == "" then None else Some(Trim(model))
  }

  /** The start a turn records about its route. */
  function StartOf(threadId: string, route: Route, pin: string): Command {
    Start(threadId, RecordedModel(Asked(route, pin)), SourceOf(route))
  }

  // ----- which turns reach the gateway -------------------------------------------------------------------------------

  /**
   A turn of a person's goes to the gateway exactly when it or its coworker named it or the setting says so; and to
   the fallback exactly when it is a fresh turn by the Mac, no computer's relay is on, and a fallback is set.
   */
  lemma WhoReachesTheGateway(allowed: string -> bool, saved: Saved, chosen: Option<TurnSource>,
      captured: Option<string>, coworker: Coworker)
    ensures var route := RouteTurn(allowed, saved, true, chosen, captured, coworker);
            var picked := Picked(chosen, coworker.source);
            && (route.ToGateway? <==>
                 NamesGateway(picked) || (saved.setting.Some? && Resolve(saved.setting.value, picked).0 == Gateway))
            && (route.ToFallback? <==>
                  && saved.setting.Some? && Resolve(saved.setting.value, picked) == (LocalProxy, Mac) &&
                       !NamesGateway(picked)
                  && saved.setting.value.relays == [] && captured.None? && saved.setting.value.planFallback.Some?)
            && (route.ToFallback? ==> Some(route.fallback) == saved.setting.value.planFallback)
  {
    hide AheadOfTheSetting, LoopbackEndpoint;
  }

  // ----- which model a plan turn asks, and why it is refused ---------------------------------------------------------

  /** The turn is on the plan by `via`: of turn, coworker and setting, the first with a word on it says so. */
  predicate OnThePlan(setting: Setting, chosen: Option<TurnSource>, coworker: Coworker, via: Via) {
    && (chosen.Some? ==> chosen.value.kind == LocalProxy)
    && (chosen.None? && coworker.source.Some? ==> coworker.source.value == LocalProxy)
    && (chosen.None? && coworker.source.None? ==> setting.kind == LocalProxy)
    && (chosen.Some? && chosen.value.via.Some? ==> chosen.value.via.value == via)
    && (!(chosen.Some? && chosen.value.via.Some?) ==>
          if setting.via.Some? then setting.via.value == via else via == Loopback)
  }

  /** The model of a turn by `via`: what its run captured, else an allowed pin of its own plan, else the setting's. */
  predicate IsTheModel(allowed: string -> bool, setting: Setting, captured: Option<string>, coworker: Coworker,
                       via: Via, model: string)
  {
    var pinned := coworker.source == Some(LocalProxy) && coworker.pin.Some? && allowed(coworker.pin.value);
    var preset := if via == Mac then setting.relayModel else setting.localModel;
    && (captured.Some? ==> model == captured.value)
    && (captured.None? && pinned ==> model == coworker.pin.value)
    && (captured.None? && !pinned ==> if preset.Some? then model == preset.value else model == "")
  }

  /** The endpoint of a turn by the loopback, or the first thing it lacks: an address, a model, a key that opens. */
  predicate LoopbackAnswers(setting: Setting, key: Result<Option<string>, string>, model: string, endpoint: Endpoint) {
    if setting.baseUrl.None? || setting.baseUrl.value == "" then endpoint == Unavailable(NoAddress, Some(Loopback))
    else if model == "" then endpoint == Unavailable(NoModel, Some(Loopback))
    else if key.Err? then endpoint == Unavailable(KeyClosed, Some(Loopback))
    else endpoint == Proxy(setting.baseUrl.value, key.value)
  }

  /** The endpoint of a turn by the Mac: off, without a model, or the machines that are on. */
  predicate MacAnswers(setting: Setting, model: string, endpoint: Endpoint) {
    if setting.relays == [] then endpoint == Unavailable(RelayOff, Some(Mac))
    else if model == "" then endpoint == Unavailable(NoMacModel, Some(Mac))
    else endpoint == Relay(setting.relays)
  }

  /**
   With a setting that can be read, a turn is on the plan by a way exactly as the first word on it says, asks the
   model that comes first for that way, and where it is refused the reason is the first thing missing. Off the plan
   it goes to the gateway, and by the Mac with the relay off and a fallback set a fresh one goes to the fallback.
   */
  lemma WhatAPlanTurnAsks(allowed: string -> bool, saved: Saved, chosen: Option<TurnSource>,
      captured: Option<string>, coworker: Coworker, via: Via)
    requires saved.setting.Some?
    ensures var setting, route := saved.setting.value, RouteTurn(allowed, saved, true, chosen, captured, coworker);
            && (!OnThePlan(setting, chosen, coworker, Mac) && !OnThePlan(setting, chosen, coworker, Loopback) <==>
                 route == ToGateway)
            && (OnThePlan(setting, chosen, coworker, via) ==>
                  if via == Mac && setting.relays == [] && captured.None? && setting.planFallback.Some?
                    then route == ToFallback(setting.planFallback.value)
                  else
                    && route.ToPlan? && IsTheModel(allowed, setting, captured, coworker, via, route.model)
                    && (via == Mac ==> MacAnswers(setting, route.model, route.endpoint))
                    && (via == Loopback ==> LoopbackAnswers(setting, saved.key, route.model, route.endpoint)))
  {
  }

  /**
   With one that cannot, a turn that or whose coworker names the gateway goes there, and any other is refused: on
   the way it named and no other, with the model captured or pinned.
   */
  lemma UnreadIsRefused(allowed: string -> bool, saved: Saved, chosen: Option<TurnSource>,
      captured: Option<string>, coworker: Coworker)
    requires saved.setting.None?
    ensures var route := RouteTurn(allowed, saved, true, chosen, captured, coworker);
            if (if chosen.Some? then chosen.value.kind == Gateway else coworker.source == Some(Gateway))
              then route == ToGateway
            else
              && route.ToPlan? && route.endpoint == Unavailable(Unreadable, if chosen.Some? then chosen.value.via
                                                                              else None)
              && forall none: Setting, via: Via | none.localModel.None? && none.relayModel.None? ::
                   IsTheModel(allowed, none, captured, coworker, via, route.model)
  {
  }

  /** Where `AheadOfTheSetting` filters the pin out, changing the pin does not change the route. */
  lemma PinIsIgnoredOffItsPlan(allowed: string -> bool, saved: Saved, chosen: Option<TurnSource>,
      captured: Option<string>, coworker: Coworker, other: Option<string>)
    requires coworker.source != Some(LocalProxy) || captured.Some? ||
            (coworker.pin.Some? && !allowed(coworker.pin.value) && other.None?)
    ensures RouteTurn(allowed, saved, true, chosen, captured, coworker)
            == RouteTurn(allowed, saved, true, chosen, captured, coworker.(pin := other))
  {
    assert AheadOfTheSetting(allowed, captured, coworker)
      == AheadOfTheSetting(allowed, captured, coworker.(pin := other));
    hide AheadOfTheSetting, ByTheMac, LoopbackEndpoint;
  }

  /** A plan turn that can be sent names a model, and by the loopback an address. */
  lemma GapsAreRefusals(allowed: string -> bool, saved: Saved, account: bool, chosen: Option<TurnSource>,
      captured: Option<string>, coworker: Coworker)
    ensures var route := RouteTurn(allowed, saved, account, chosen, captured, coworker);
            route.ToPlan? && !route.endpoint.Unavailable? ==>
              && route.model != "" && saved.setting.Some?
              && (route.endpoint.Relay? ==> route.endpoint.machines == saved.setting.value.relays != [])
              && (route.endpoint.Proxy? ==>
                    && Some(route.endpoint.baseUrl) == saved.setting.value.baseUrl
                    && route.endpoint.baseUrl != "" && saved.key == Ok(route.endpoint.key))
  {
    hide AheadOfTheSetting;
  }

  /** A turn on the plan is handed on with the way it resolved to, whatever gaps the setting has. */
  lemma PlanKeepsItsWay(allowed: string -> bool, saved: Saved, chosen: Option<TurnSource>, captured: Option<string>,
      coworker: Coworker)
    requires saved.setting.Some?
    ensures var route := RouteTurn(allowed, saved, true, chosen, captured, coworker);
            var picked := Picked(chosen, coworker.source);
            route.ToPlan? ==> SourceOf(route) == TurnSource(LocalProxy, Some(Resolve(saved.setting.value, picked).1))
  {
    hide AheadOfTheSetting;
  }

  /** A computer that is on carries it, or would but for a model to ask. */
  predicate BySwitchedOnMac(route: Route) {
    route.ToPlan? && ViaOf(route.endpoint) == Some(Mac) &&
      (route.endpoint.Unavailable? ==> route.endpoint.why == NoMacModel)
  }

  /**
   What a queued send is told is what its turn does: it waits for a Mac exactly when its turn goes by one that is
   on.
   */
  lemma ByMacIsTheRoute(allowed: string -> bool, saved: Saved, chosen: Option<TurnSource>, captured: Option<string>,
      coworker: Coworker)
    requires saved.setting.Some?
    ensures var route := RouteTurn(allowed, saved, true, chosen, captured, coworker);
            && (ByMac(saved.setting.value, chosen, coworker.source) <==> BySwitchedOnMac(route))
            && (BySwitchedOnMac(route) && route.model != "" ==> route.endpoint == Relay(saved.setting.value.relays))
  {
    hide AheadOfTheSetting;
  }

  // ----- a resume keeps the door -----------------------------------------------------------------------------------

  /** The door: the kind, and on the plan the way; none named is the loopback. */
  function Door(route: Route): (SourceKind, Via) {
    if route.ToPlan? then (LocalProxy, OrElse(ViaOf(route.endpoint), Loopback)) else (Gateway, Loopback)
  }

  /** A run of the Mac's that recorded no model, once the relay is off and a fallback is set. */
  predicate LosesItsDoor(route: Route, saved: Saved) {
    && Door(route) == (LocalProxy, Mac) && Trim(route.model) == ""
    && saved.setting.Some? && saved.setting.value.relays == [] && saved.setting.value.planFallback.Some?
  }

  /** What a started run captured of `route`. */
  ghost predicate Captures(capture: Capture, route: Route, pin: string) {
    Decide(FRESH, StartOf(capture.threadId, route, pin)) == Ok([Started(capture)])
  }

  /**
   A carry-on goes through the door its run started by, whatever the setting became and whether or not it can be
   read, exactly unless the run recorded no model, went by the Mac, and the relay is now off with a fallback set.
   */
  lemma ResumeKeepsTheDoor(allowed: string -> bool, saved: Saved, route: Route, pin: string, capture: Capture)
    requires Captures(capture, route, pin)
    ensures Door(ResumedRoute(allowed, saved, capture, false, pin)) == Door(route) <==> !LosesItsDoor(route, saved)
  {
    hide Trim;
    assert [Started(capture)][0] == Started(capture);
    assert capture.source == SourceOf(route).kind && capture.model == RecordedModel(Asked(route, pin));
  }

  /** The pin of a carry-on: the recorded model, or the coworker's own by now when none was. */
  function PinForResume(capture: Capture, current: string): string {
    if capture.model.Some? && capture.model.value != "" then capture.model.value else current
  }

  /** What a carry-on asks for, by its route and its pin. */
  function ResumeAsks(allowed: string -> bool, saved: Saved, capture: Capture, onAMessage: bool, current: string)
    : string
  {
    var pin := PinForResume(capture, current);
    Asked(ResumedRoute(allowed, saved, capture, onAMessage, pin), pin)
  }

  /**
   By every route, to the gateway, the plan or the fallback, and on another Bot's message too: a run that recorded a
   model asks for it again, and it is the one it asked, trimmed. Off the plan, one that recorded none asks for its
   coworker's own.
   */
  lemma ResumeKeepsTheModel(allowed: string -> bool, saved: Saved, route: Route, pin: string, capture: Capture,
                            onAMessage: bool, current: string)
    requires Captures(capture, route, pin)
    ensures var asked, again := Trim(Asked(route, pin)), ResumeAsks(allowed, saved, capture, onAMessage, current);
            if asked != "" then again == asked else route.ToPlan? || again == current
  {
    hide Trim;
    assert [Started(capture)][0] == Started(capture);
    assert capture.source == SourceOf(route).kind && capture.model == RecordedModel(Asked(route, pin));
  }

  /** Fired again on another Bot's message, a run stays on its kind: refused on a plan, else the gateway. */
  lemma MessagesKeepTheKind(allowed: string -> bool, saved: Saved, capture: Capture, pin: string)
    ensures SourceOf(ResumedRoute(allowed, saved, capture, true, pin)).kind == capture.source
  {
  }

  /** A setting by which the door is lost: the Mac's turn, refused for want of a model, is answered by the gateway. */
  lemma DoorCanBeLost(allowed: string -> bool, threadId: string)
    ensures var off := Setting(LocalProxy, None, None, false, Some(Mac), None, [], Some(PlanFallback("m", "")));
            var on := off.(relays := ["mac"], planFallback := None);
            var route := RouteTurn(allowed, Saved(Some(on), Ok(None)), true, None, None, Coworker(None, None));
            && Door(route) == (LocalProxy, Mac)
            && var capture := Capture(threadId, RecordedModel(Asked(route, "")), LocalProxy, Some(Mac));
               Door(ResumedRoute(allowed, Saved(Some(off), Ok(None)), capture, false, "")) == (Gateway, Loopback)
  {
  }

  // ----- over a whole log ------------------------------------------------------------------------------------------

  /** The run has started exactly when its log has a start, and holds what every start in it captured. */
  ghost predicate StartTells(log: seq<Event>, started: bool, capture: Capture) {
    && (started <==> exists i :: 0 <= i < |log| && log[i].Started?)
    && forall i :: 0 <= i < |log| && log[i].Started? ==> capture == log[i].capture
  }

  predicate CaptureMoves(run: RunState, e: Event, next: RunState) {
    && (e.Started? ==> !run.started && next.capture == e.capture)
    && (!e.Started? ==> next.capture == run.capture)
    && (next.started <==> run.started || e.Started?)
  }

  lemma CaptureStep(run: RunState, e: Event)
    requires Allowed(run, e)
    ensures CaptureMoves(run, e, Apply(run, e))
  {
  }

  lemma StartSnoc(before: seq<Event>, e: Event, run: RunState, next: RunState)
    requires StartTells(before, run.started, run.capture) && CaptureMoves(run, e, next)
    ensures StartTells(before + [e], next.started, next.capture)
  {
    var log := before + [e];
    assert log[|before|] == e && forall i :: 0 <= i < |before| ==> log[i] == before[i];
    if run.started {
      var i :| 0 <= i < |before| && before[i].Started?;
      assert log[i].Started?;
    }
  }

  lemma NoStart(log: seq<Event>)
    requires log == []
    ensures StartTells(log, Replay(log).started, Replay(log).capture)
  {
  }

  lemma LastMoves(log: seq<Event>)
    requires Accepted(log) && log != []
    ensures var before, e := log[..|log| - 1], log[|log| - 1];
            Accepted(before) && log == before + [e] && CaptureMoves(Replay(before), e, Replay(log))
  {
    hide Accepted, Allowed, Apply, CaptureMoves;
    AcceptedLast(log);
    CaptureStep(Replay(log[..|log| - 1]), log[|log| - 1]);
  }

  lemma {:induction false} StartedOnce(log: seq<Event>)
    requires Accepted(log)
    ensures StartTells(log, Replay(log).started, Replay(log).capture)
  {
    hide *;
    if log == [] {
      NoStart(log);
    } else {
      LastMoves(log);
      StartedOnce(log[..|log| - 1]);
      StartSnoc(log[..|log| - 1], log[|log| - 1], Replay(log[..|log| - 1]), Replay(log));
    }
  }

  /**
   Whatever a run's log came to hold since, a carry-on of it is resolved by what its start captured, and so keeps
   its door.
   */
  lemma EveryCarryOnKeepsTheDoor(allowed: string -> bool, saved: Saved, log: seq<Event>, i: nat, route: Route,
      pin: string)
    requires Accepted(log) && i < |log| && log[i].Started? && Captures(log[i].capture, route, pin)
    ensures Door(ResumedRoute(allowed, saved, Replay(log).capture, false, pin)) == Door(route) <==>
            !LosesItsDoor(route, saved)
  {
    hide Captures, Door, ResumedRoute, LosesItsDoor, Accepted;
    StartedOnce(log);
    ResumeKeepsTheDoor(allowed, saved, route, pin, log[i].capture);
  }

  /** And asks for the model its start recorded. */
  lemma EveryCarryOnKeepsTheModel(allowed: string -> bool, saved: Saved, log: seq<Event>, i: nat, route: Route,
      pin: string, onAMessage: bool, current: string)
    requires Accepted(log) && i < |log| && log[i].Started? && Captures(log[i].capture, route, pin)
    requires Trim(Asked(route, pin)) != ""
    ensures ResumeAsks(allowed, saved, Replay(log).capture, onAMessage, current) == Trim(Asked(route, pin))
  {
    hide Captures, ResumeAsks, Accepted, Trim;
    StartedOnce(log);
    ResumeKeepsTheModel(allowed, saved, route, pin, log[i].capture, onAMessage, current);
  }
}
