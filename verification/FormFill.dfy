/**
 A person's answers typed into a page, field by field, on a computer that may fail, lie about what has focus, or
 take its time.

 The computer is any function of everything it was asked and answered before, so what is proved holds against every
 computer. `AllGood` says, exchange by exchange, what a fill may do next; `FillIntoFocus` is the loop that does it.
 */
module FormFill {
  import opened Common

  datatype Kind = PasswordKind | OtpKind | OtherKind

  datatype Point = Point(x: int, y: int)

  datatype Field = Field(id: string, kind: Kind, required: bool, secret: bool, at: Option<Point>)

  datatype Form = Form(fields: seq<Field>, samePage: bool, submit: bool, challenge: Kind)

  datatype Outcome = Outcome(id: string, filled: bool, failed: bool)

  type Values = map<string, string>

  datatype Key = Tab | SelectAll | Return

  datatype Ask = Click(at: Point) | Press(key: Key) | Type(text: string) | AskFocus

  datatype BoxKind = PasswordBox | OtherBox

  datatype Focus = Focus(kind: Option<BoxKind>, seqNo: nat)

  /** Whether it worked, what has focus if it was asked and can say, and how long it took. */
  datatype Answer = Answer(ok: bool, focus: Option<Focus>, took: nat)

  /** One thing asked of the computer, for one field; the Return is for the form, after every field. */
  datatype Exchange = Exchange(ask: Ask, answer: Answer, field: nat)

  type Computer = (seq<Exchange>, Ask) -> Answer

  const FOCUS_WAIT := 1500
  const FOCUS_POLL := 50

  // ----- the form ------------------------------------------------------------------------------------------------

  function Value(values: Values, id: string): string {
    if id in values then values[id] else ""
  }

  predicate FullyPositioned(form: Form) {
    form.fields != [] && forall i :: 0 <= i < |form.fields| ==> form.fields[i].at.Some?
  }

  predicate TypesOnlyFirstField(form: Form) {
    |form.fields| > 1 && !form.samePage && !FullyPositioned(form)
  }

  predicate IsSecret(field: Field) {
    field.secret || field.kind.PasswordKind? || field.kind.OtpKind?
  }

  predicate HasSecret(form: Form) {
    exists i :: 0 <= i < |form.fields| && IsSecret(form.fields[i])
  }

  predicate ShouldPressReturn(form: Form, typed: nat) {
    && typed != 0
    && (|| form.submit
        || (!TypesOnlyFirstField(form) &&
            (|| |form.fields| == 1
             || (FullyPositioned(form) && form.samePage && typed == |form.fields| && HasSecret(form))
             || (typed == 1 && !form.challenge.OtherKind?))))
  }

  predicate AnyFailed(outcomes: seq<Outcome>) {
    exists i :: 0 <= i < |outcomes| && outcomes[i].failed
  }

  predicate WantsAPasswordBox(field: Field) {
    !field.kind.OtpKind? && (field.kind.PasswordKind? || field.secret)
  }

  function TypeLimit(form: Form): (n: nat)
    ensures n <= |form.fields|
  {
    if TypesOnlyFirstField(form) then 1 else |form.fields|
  }

  /** Tab is the only way between the fields: all are on one page and none has a position. */
  predicate WalksByTab(form: Form) {
    form.samePage && forall i :: 0 <= i < |form.fields| ==> form.fields[i].at.None?
  }

  // ----- what a trace shows ------------------------------------------------------------------------------------------

  /** The kind of box the last report read named. */
  function LastKind(trace: seq<Exchange>): Option<BoxKind> {
    if trace == [] then None
    else
      var x := trace[|trace| - 1];
      if x.ask.AskFocus? then (if x.answer.focus.Some? then x.answer.focus.value.kind else None)
      else LastKind(trace[..|trace| - 1])
  }

  function Tabs(trace: seq<Exchange>): nat {
    if trace == [] then 0 else Tabs(trace[..|trace| - 1]) + if trace[|trace| - 1].ask == Press(Tab) then 1 else 0
  }

  /** A click, a Tab or a select that did not work. */
  predicate Misses(x: Exchange) {
    !x.answer.ok && (x.ask.Click? || x.ask == Press(Tab) || x.ask == Press(SelectAll))
  }

  predicate Types(x: Exchange, field: nat) {
    x.ask.Type? && x.field == field
  }

  predicate Unbroken(trace: seq<Exchange>) {
    forall k :: 0 <= k < |trace| ==> !Misses(trace[k])
  }

  predicate NotTyped(trace: seq<Exchange>, field: nat) {
    forall k :: 0 <= k < |trace| ==> !Types(trace[k], field)
  }

  predicate NoReturn(trace: seq<Exchange>) {
    forall k :: 0 <= k < |trace| ==> trace[k].ask != Press(Return)
  }

  predicate UpTo(trace: seq<Exchange>, field: int) {
    forall k :: 0 <= k < |trace| ==> trace[k].field <= field
  }

  /** The field's value was typed, and the computer took it. */
  predicate TypedWell(trace: seq<Exchange>, field: nat) {
    exists k :: 0 <= k < |trace| && Types(trace[k], field) && trace[k].answer.ok
  }

  /** But for reports asked for since, the last things done were to click `at` and to select what is there. */
  predicate Aimed(trace: seq<Exchange>, at: Point) {
    trace != [] &&
    var x := trace[|trace| - 1];
    if x.ask.AskFocus? then Aimed(trace[..|trace| - 1], at)
    else x.ask == Press(SelectAll) && |trace| > 1 && trace[|trace| - 2].ask == Click(at)
  }

  /**
   What may come next: nothing after a miss or a Return, and no earlier field again; a field's own value, once; one
   with a position only when it was just clicked and selected; a password only when the last report said a password
   box; and, walking by Tab, the i-th field after i Tabs.
   */
  predicate GoodNext(form: Form, values: Values, before: seq<Exchange>, x: Exchange) {
    && Unbroken(before) && NoReturn(before) && UpTo(before, x.field)
    && (x.ask == Press(Return) <==> x.field == |form.fields|)
    && x.field <= |form.fields|
    && (x.ask.Type? ==>
          && x.field < TypeLimit(form) && NotTyped(before, x.field)
          && x.ask.text == Value(values, form.fields[x.field].id) && x.ask.text != ""
          && (form.fields[x.field].at.Some? ==> Aimed(before, form.fields[x.field].at.value))
          && (WantsAPasswordBox(form.fields[x.field]) ==> LastKind(before) == Some(PasswordBox))
          && (WalksByTab(form) ==> Tabs(before) == x.field))
  }

  predicate AllGood(form: Form, values: Values, trace: seq<Exchange>)
    decreases |trace|
  {
    trace == [] ||
    (AllGood(form, values, trace[..|trace| - 1]) && GoodNext(form, values, trace[..|trace| - 1], trace[|trace| - 1]))
  }

  /** Every answer in the trace is the computer's. */
  predicate Honest(computer: Computer, trace: seq<Exchange>)
    decreases |trace|
  {
    trace == [] ||
    (Honest(computer, trace[..|trace| - 1]) &&
      trace[|trace| - 1].answer == computer(trace[..|trace| - 1], trace[|trace| - 1].ask))
  }

  lemma Snoc(form: Form, values: Values, before: seq<Exchange>, x: Exchange)
    ensures var trace := before + [x];
            && (AllGood(form, values, trace) <==> AllGood(form, values, before) && GoodNext(form, values, before, x))
            && Tabs(trace) == Tabs(before) + (if x.ask == Press(Tab) then 1 else 0)
            && LastKind(trace) == (if !x.ask.AskFocus? then LastKind(before)
                                   else if x.answer.focus.Some? then x.answer.focus.value.kind else None)
  {
    hide GoodNext;
    assert (before + [x])[..|before|] == before && (before + [x])[|before|] == x;
  }

  lemma SnocAll(computer: Computer, before: seq<Exchange>, x: Exchange, field: nat, bound: int)
    ensures var trace := before + [x];
            && (Honest(computer, trace) <==> Honest(computer, before) && x.answer == computer(before, x.ask))
            && (Unbroken(trace) <==> Unbroken(before) && !Misses(x))
            && (NotTyped(trace, field) <==> NotTyped(before, field) && !Types(x, field))
            && (NoReturn(trace) <==> NoReturn(before) && x.ask != Press(Return))
            && (UpTo(trace, bound) <==> UpTo(before, bound) && x.field <= bound)
            && (TypedWell(trace, field) <==> TypedWell(before, field) || (Types(x, field) && x.answer.ok))
  {
    hide Misses, Types;
    var trace := before + [x];
    assert trace[..|before|] == before && trace[|before|] == x;
    assert forall k :: 0 <= k < |before| ==> trace[k] == before[k];
    if TypedWell(before, field) {
      var k :| 0 <= k < |before| && Types(before[k], field) && before[k].answer.ok;
      assert trace[k] == before[k];
    }
  }

  // ----- what is to be done for a field ------------------------------------------------------------------------------

  /** Of the password kind, or any secret but a one-time code. */
  predicate IsPassword(field: Field) {
    field.kind == PasswordKind || (field.secret && field.kind != OtpKind)
  }

  /**
   What is asked for field `i`, reports aside: click and select where it has a position, a Tab to it on a one-page
   form, and its answer typed. Left blank, only the Tab.
   */
  function Script(form: Form, values: Values, i: nat): seq<Ask>
    requires i < |form.fields|
  {
    var field := form.fields[i];
    var value := if field.id in values then values[field.id] else "";
    (if field.at == None && form.samePage && i >= 1 then [Press(Tab)] else []) +
    (if value == "" then []
     else (if field.at == None then [] else [Click(field.at.value), Press(SelectAll)]) + [Type(value)])
  }

  /** What was asked for field `i`, in order, reports aside. */
  function Done(trace: seq<Exchange>, i: nat): seq<Ask> {
    if trace == [] then []
    else
      var x := trace[|trace| - 1];
      Done(trace[..|trace| - 1], i) + if x.field == i && x.ask != AskFocus then [x.ask] else []
  }

  /** How many reports were asked for it. */
  function Reports(trace: seq<Exchange>, i: nat): nat {
    if trace == [] then 0
    else
      var x := trace[|trace| - 1];
      Reports(trace[..|trace| - 1], i) + if x.field == i && x.ask == AskFocus then 1 else 0
  }

  /** One report before an answered field is reached, and for a password up to 31 more; none for a blank one. */
  predicate AsFewAsNeeded(form: Form, values: Values, i: nat, reports: int)
    requires i < |form.fields|
  {
    if form.fields[i].id !in values || values[form.fields[i].id] == "" then reports == 0
    else if IsPassword(form.fields[i]) then 1 <= reports <= 32
    else reports == 1
  }

  /** The script of field `i` was followed from `trace` to `longer`: to its end, or as far as it went. */
  ghost predicate Follows(form: Form, values: Values, trace: seq<Exchange>, longer: seq<Exchange>, i: nat, gaveUp: bool)
    requires i < |form.fields|
  {
    && (if gaveUp then Done(longer, i) <= Done(trace, i) + Script(form, values, i)
        else Done(longer, i) == Done(trace, i) + Script(form, values, i))
    && AsFewAsNeeded(form, values, i, Reports(longer, i) - Reports(trace, i))
  }

  /** Fields before `stop` have their whole scripts done, the one at `stop` as far as it went, and any other nothing. */
  ghost predicate ScriptKept(form: Form, values: Values, trace: seq<Exchange>, stop: nat, limit: nat, i: nat)
    requires i < |form.fields|
  {
    if i < limit && i <= stop then Follows(form, values, [], trace, i, i == stop)
    else Done(trace, i) == [] && Reports(trace, i) == 0
  }

  ghost predicate ScriptsKept(form: Form, values: Values, trace: seq<Exchange>, stop: nat, limit: nat) {
    forall i: nat :: i < |form.fields| ==> ScriptKept(form, values, trace, stop, limit, i)
  }

  lemma DoneSnoc(trace: seq<Exchange>, x: Exchange, i: nat)
    ensures Done(trace + [x], i) == Done(trace, i) + if x.field == i && x.ask != AskFocus then [x.ask] else []
    ensures Reports(trace + [x], i) == Reports(trace, i) + if x.field == i && x.ask == AskFocus then 1 else 0
  {
    assert (trace + [x])[..|trace|] == trace;
  }

  lemma {:induction false} NothingDone(trace: seq<Exchange>, i: nat)
    requires UpTo(trace, i - 1)
    ensures Done(trace, i) == [] && Reports(trace, i) == 0
    decreases |trace|
  {
    if trace != [] {
      NothingDone(trace[..|trace| - 1], i);
    }
  }

  /** What is asked for one field is nothing of another's. */
  lemma {:induction false} DoneStays(trace: seq<Exchange>, longer: seq<Exchange>, i: nat, j: nat)
    requires Added(trace, longer, j) && i != j
    ensures Done(longer, i) == Done(trace, i) && Reports(longer, i) == Reports(trace, i)
    decreases |longer|
  {
    if |longer| > |trace| {
      var before := longer[..|longer| - 1];
      assert before + [longer[|longer| - 1]] == longer;
      DoneStays(trace, before, i, j);
    } else {
      assert longer == trace;
    }
  }

  /** Only exchanges for one field were added. */
  predicate Added(trace: seq<Exchange>, longer: seq<Exchange>, field: nat) {
    trace <= longer && forall k :: |trace| <= k < |longer| ==> longer[k].field == field
  }

  // ----- one field -------------------------------------------------------------------------------------------------

  /** Field `i` is being filled and nothing has missed; `tabbed` once its own Tab is pressed. */
  ghost predicate During(computer: Computer, form: Form, values: Values, trace: seq<Exchange>, i: nat, tabbed: bool) {
    && Honest(computer, trace) && AllGood(form, values, trace)
    && i < TypeLimit(form) && Unbroken(trace) && NoReturn(trace) && UpTo(trace, i) && NotTyped(trace, i)
    && (WalksByTab(form) ==> Tabs(trace) == if tabbed || i == 0 then i else i - 1)
  }

  /**
   Why a fill gives up at field `i`, and that nothing is asked after it: the last thing asked was for that field, and
   it missed, or was a report that named no password box where the field wants one.
   */
  predicate GaveUpFor(form: Form, trace: seq<Exchange>, i: nat) {
    i < |form.fields| && trace != [] &&
    var x := trace[|trace| - 1];
    x.field == i &&
    (Misses(x) || (IsPassword(form.fields[i]) && x.ask.AskFocus? && LastKind(trace) != Some(PasswordBox)))
  }

  /** What is left when a fill gives up at field `i`. */
  ghost predicate Halted(computer: Computer, form: Form, values: Values, trace: seq<Exchange>, i: nat) {
    && Honest(computer, trace) && AllGood(form, values, trace)
    && NoReturn(trace) && UpTo(trace, i) && NotTyped(trace, i) && GaveUpFor(form, trace, i)
  }

  /** Ask something that is neither typing nor a Tab. */
  lemma AskedAside(computer: Computer, form: Form, values: Values, trace: seq<Exchange>, i: nat, tabbed: bool,
      x: Exchange)
    requires During(computer, form, values, trace, i, tabbed) && x.field == i && x.answer == computer(trace, x.ask)
    requires x.ask.AskFocus? || x.ask.Click? || x.ask == Press(SelectAll)
    ensures if Misses(x) then Halted(computer, form, values, trace + [x], i)
            else During(computer, form, values, trace + [x], i, tabbed)
  {
    hide AllGood, Honest, Tabs, LastKind, WantsAPasswordBox;
    Snoc(form, values, trace, x);
    SnocAll(computer, trace, x, i, i);
  }

  lemma AskedTab(computer: Computer, form: Form, values: Values, trace: seq<Exchange>, i: nat, x: Exchange)
    requires During(computer, form, values, trace, i, false) && x.field == i > 0 &&
            x.answer == computer(trace, x.ask) && x.ask == Press(Tab)
    ensures if Misses(x) then Halted(computer, form, values, trace + [x], i)
            else During(computer, form, values, trace + [x], i, true)
  {
    hide AllGood, Honest, Tabs, LastKind, WantsAPasswordBox;
    Snoc(form, values, trace, x);
    SnocAll(computer, trace, x, i, i);
  }

  lemma StillAimed(trace: seq<Exchange>, x: Exchange)
    requires x.ask.AskFocus?
    ensures forall at :: Aimed(trace, at) ==> Aimed(trace + [x], at)
  {
    assert (trace + [x])[..|trace|] == trace;
  }

  /** Two requests, a click at `at` and a select-all; `reached` when both were obeyed. */
  method AimAt(computer: Computer, form: Form, ghost values: Values, trace: seq<Exchange>, i: nat, at: Point,
      ghost tabbed: bool)
    returns (reached: bool, longer: seq<Exchange>)
    requires During(computer, form, values, trace, i, tabbed)
    ensures if reached then During(computer, form, values, longer, i, tabbed)
            else Halted(computer, form, values, longer, i)
    ensures Added(trace, longer, i) && (reached ==> Aimed(longer, at))
    ensures Reports(longer, i) == Reports(trace, i) && Done(longer, i) <= Done(trace, i) + [Click(at), Press(SelectAll)]
    ensures reached ==> Done(longer, i) == Done(trace, i) + [Click(at), Press(SelectAll)]
  {
    hide Done, Reports;
    var click := Exchange(Click(at), computer(trace, Click(at)), i);
    AskedAside(computer, form, values, trace, i, tabbed, click);
    DoneSnoc(trace, click, i);
    longer := trace + [click];
    if !click.answer.ok {
      return false, longer;
    }
    var select := Exchange(Press(SelectAll), computer(longer, Press(SelectAll)), i);
    AskedAside(computer, form, values, longer, i, tabbed, select);
    DoneSnoc(longer, select, i);
    longer := longer + [select];
    reached := select.answer.ok;
  }

  method PressTab(computer: Computer, form: Form, ghost values: Values, trace: seq<Exchange>, i: nat)
    returns (pressed: bool, longer: seq<Exchange>)
    requires During(computer, form, values, trace, i, false) && i > 0
    ensures if pressed then During(computer, form, values, longer, i, true)
            else Halted(computer, form, values, longer, i)
    ensures Added(trace, longer, i)
    ensures Done(longer, i) == Done(trace, i) + [Press(Tab)] && Reports(longer, i) == Reports(trace, i)
  {
    hide Done, Reports;
    var tab := Exchange(Press(Tab), computer(trace, Press(Tab)), i);
    AskedTab(computer, form, values, trace, i, tab);
    DoneSnoc(trace, tab, i);
    longer := trace + [tab];
    pressed := tab.answer.ok;
  }

  /** Which report was read last. */
  function LastReport(trace: seq<Exchange>): Option<nat> {
    if trace == [] then None
    else
      var x := trace[|trace| - 1];
      if x.ask.AskFocus? then (if x.answer.focus.Some? then Some(x.answer.focus.value.seqNo) else None)
      else LastReport(trace[..|trace| - 1])
  }

  /** How long the exchanges from `n` on took, with a pause between each two. */
  function Waited(trace: seq<Exchange>, n: nat): nat {
    if |trace| <= n then 0
    else Waited(trace[..|trace| - 1], n) + trace[|trace| - 1].answer.took + if |trace| == n + 1 then 0 else FOCUS_POLL
  }

  lemma NoWait(trace: seq<Exchange>)
    ensures Waited(trace, |trace|) == 0
  {
  }

  lemma WaitedSnoc(trace: seq<Exchange>, x: Exchange, n: nat)
    requires n <= |trace| && x.ask.AskFocus?
    ensures Waited(trace + [x], n) == Waited(trace, n) + x.answer.took + if |trace| == n then 0 else FOCUS_POLL
    ensures LastReport(trace + [x]) == if x.answer.focus.Some? then Some(x.answer.focus.value.seqNo) else None
  {
    assert (trace + [x])[..|trace|] == trace;
  }

  /**
   Decides whether field `i` may be typed now. A password field `lands` exactly when the last answer in the trace is
   `PasswordBox`; it is a fresh answer, or 1500 ms were spent waiting for one; and at most 31 were asked for.
   */
  method LandsInItsBox(computer: Computer, form: Form, ghost values: Values, trace: seq<Exchange>, i: nat,
      reported: Option<nat>, reached: bool, ghost tabbed: bool)
    returns (lands: bool, longer: seq<Exchange>)
    requires During(computer, form, values, trace, i, tabbed)
    ensures During(computer, form, values, longer, i, tabbed) && Added(trace, longer, i)
    ensures form.fields[i].at.Some? && Aimed(trace, form.fields[i].at.value) ==> Aimed(longer, form.fields[i].at.value)
    ensures IsPassword(form.fields[i]) ==> (lands <==> LastKind(longer) == Some(PasswordBox))
    ensures IsPassword(form.fields[i]) ==>
            || (LastReport(longer).Some? && (reached ==> LastReport(longer) != reported))
            || Waited(longer, |trace|) >= 1500
    ensures !IsPassword(form.fields[i]) ==> lands && longer == trace
    ensures |trace| <= |longer| <= |trace| + 31
    ensures Done(longer, i) == Done(trace, i) && Reports(longer, i) == Reports(trace, i) + |longer| - |trace|
    ensures !lands ==> GaveUpFor(form, longer, i)
  {
    hide Aimed, LastReport, Waited, AllGood, Honest, Done, Reports;
    longer := trace;
    if !WantsAPasswordBox(form.fields[i]) {
      return true, longer;
    }
    NoWait(trace);
    var waited := 0;
    var focus: Option<Focus>;
    while true
      invariant During(computer, form, values, longer, i, tabbed) && Added(trace, longer, i)
      invariant form.fields[i].at.Some? && Aimed(trace, form.fields[i].at.value) ==>
              Aimed(longer, form.fields[i].at.value)
      invariant Done(longer, i) == Done(trace, i) && Reports(longer, i) == Reports(trace, i) + |longer| - |trace|
      invariant waited == if longer == trace then 0 else Waited(longer, |trace|) + FOCUS_POLL
      invariant FOCUS_POLL * (|longer| - |trace|) <= waited && (longer == trace || waited < FOCUS_WAIT + FOCUS_POLL)
      decreases FOCUS_WAIT - waited
    {
      var x := Exchange(AskFocus, computer(longer, AskFocus), i);
      AskedAside(computer, form, values, longer, i, tabbed, x);
      Snoc(form, values, longer, x);
      StillAimed(longer, x);
      WaitedSnoc(longer, x, |trace|);
      DoneSnoc(longer, x, i);
      longer := longer + [x];
      focus := x.answer.focus;
      waited := waited + x.answer.took;
      var isNew := focus.Some? && (!reached || reported != Some(focus.value.seqNo));
      if isNew || waited >= FOCUS_WAIT {
        break;
      }
      waited := waited + FOCUS_POLL;
    }
    lands := focus.Some? && focus.value.kind == Some(PasswordBox);
  }

  /** What became of one field: whether the fill gives up there, and whether its value was taken. */
  datatype Filled = Filled(outcome: Outcome, gaveUp: bool, typed: bool)

  function Failed(field: Field): Outcome {
    Outcome(field.id, false, true)
  }

  /** How a field's outcome reads, beside the trace. */
  ghost predicate Tells(form: Form, values: Values, trace: seq<Exchange>, i: nat, filled: Filled)
    requires i < |form.fields|
  {
    var field := form.fields[i];
    && filled.outcome.id == field.id
    && filled.typed == TypedWell(trace, i)
    && (filled.gaveUp ==> filled.outcome == Failed(field) && !filled.typed)
    && (!filled.gaveUp && Value(values, field.id) == "" ==>
          filled.outcome == Outcome(field.id, !field.required, field.required) && !filled.typed)
    && (!filled.gaveUp && Value(values, field.id) != "" ==>
          filled.outcome == Outcome(field.id, filled.typed, !filled.typed) && !NotTyped(trace, i))
  }

  lemma NotTypedWell(trace: seq<Exchange>, i: nat)
    requires NotTyped(trace, i)
    ensures !TypedWell(trace, i)
  {
  }

  predicate TabsHere(form: Form, i: nat)
    requires i < |form.fields|
  {
    form.samePage && i > 0 && form.fields[i].at.None?
  }

  /** An empty value: one Tab where `TabsHere`, and nothing otherwise. */
  method SkipField(computer: Computer, form: Form, ghost values: Values, trace: seq<Exchange>, i: nat)
    returns (filled: Filled, longer: seq<Exchange>)
    requires During(computer, form, values, trace, i, false) && Value(values, form.fields[i].id) == ""
    ensures Added(trace, longer, i) && Tells(form, values, longer, i, filled)
    ensures if filled.gaveUp then Halted(computer, form, values, longer, i)
            else During(computer, form, values, longer, i, TabsHere(form, i))
    ensures Follows(form, values, trace, longer, i, filled.gaveUp)
  {
    hide Done, Reports;
    var field, missed := form.fields[i], false;
    longer := trace;
    if form.samePage && i > 0 && field.at.None? {
      var pressed;
      pressed, longer := PressTab(computer, form, values, trace, i);
      missed := !pressed;
    }
    NotTypedWell(longer, i);
    filled := Filled(Outcome(field.id, !field.required && !missed, field.required || missed), missed, false);
  }

  lemma TypedNow(computer: Computer, form: Form, values: Values, trace: seq<Exchange>, i: nat, tabbed: bool,
      x: Exchange)
    requires During(computer, form, values, trace, i, tabbed) && x.field == i && x.answer == computer(trace, x.ask)
    requires x.ask.Type? && x.ask.text == Value(values, form.fields[i].id) != ""
    requires WantsAPasswordBox(form.fields[i]) ==> LastKind(trace) == Some(PasswordBox)
    requires form.fields[i].at.Some? ==> Aimed(trace, form.fields[i].at.value)
    requires WalksByTab(form) ==> tabbed || i == 0
    ensures var longer := trace + [x];
            && Honest(computer, longer) && AllGood(form, values, longer) && Unbroken(longer) && NoReturn(longer) &&
                 UpTo(longer, i)
            && Tabs(longer) == Tabs(trace) && TypedWell(longer, i) == x.answer.ok && !NotTyped(longer, i)
  {
    hide AllGood, Honest, Tabs, LastKind, WantsAPasswordBox, WalksByTab, Aimed;
    Snoc(form, values, trace, x);
    SnocAll(computer, trace, x, i, i);
    NotTypedWell(trace, i);
  }

  /** After field `i`, whatever was typed: the trace is ready for the next. */
  ghost predicate Ready(computer: Computer, form: Form, values: Values, trace: seq<Exchange>, i: nat) {
    && Honest(computer, trace) && AllGood(form, values, trace)
    && i <= TypeLimit(form) && Unbroken(trace) && NoReturn(trace) && UpTo(trace, i - 1)
    && (WalksByTab(form) ==> Tabs(trace) == if i == 0 then 0 else i - 1)
  }

  lemma BelowIsNotTyped(trace: seq<Exchange>, i: nat)
    requires UpTo(trace, i - 1)
    ensures NotTyped(trace, i) && UpTo(trace, i)
  {
    forall k | 0 <= k < |trace| ensures !Types(trace[k], i) && trace[k].field <= i {
    }
  }

  lemma ReadyStarts(computer: Computer, form: Form, values: Values, trace: seq<Exchange>, i: nat)
    requires Ready(computer, form, values, trace, i) && i < TypeLimit(form)
    ensures During(computer, form, values, trace, i, false)
  {
    BelowIsNotTyped(trace, i);
    hide AllGood, Honest, Tabs, NotTyped, UpTo;
  }

  /** What it takes to reach field `i`. */
  function Reaching(form: Form, i: nat): seq<Ask>
    requires i < |form.fields|
  {
    if form.fields[i].at.Some? then [Click(form.fields[i].at.value), Press(SelectAll)]
    else if form.samePage && i > 0 then [Press(Tab)] else []
  }

  lemma ScriptIs(form: Form, values: Values, i: nat)
    requires i < |form.fields| && Value(values, form.fields[i].id) != ""
    ensures Script(form, values, i) == Reaching(form, i) + [Type(Value(values, form.fields[i].id))]
  {
  }

  /** As many reports as field `i` may take, once it is answered. */
  predicate FewReports(form: Form, trace: seq<Exchange>, longer: seq<Exchange>, i: nat)
    requires i < |form.fields|
  {
    if IsPassword(form.fields[i]) then 1 <= Reports(longer, i) - Reports(trace, i) <= 32
    else Reports(longer, i) == Reports(trace, i) + 1
  }

  lemma HalfFollowed(form: Form, values: Values, trace: seq<Exchange>, longer: seq<Exchange>, i: nat)
    requires i < |form.fields| && Value(values, form.fields[i].id) != "" && FewReports(form, trace, longer, i)
    requires Done(longer, i) <= Done(trace, i) + Reaching(form, i)
    ensures Follows(form, values, trace, longer, i, true)
  {
    ScriptIs(form, values, i);
    hide Script, Reaching, Done, Reports;
    assert Done(trace, i) + Script(form, values, i)
      == Done(trace, i) + Reaching(form, i) + [Type(Value(values, form.fields[i].id))];
  }

  lemma AllFollowed(form: Form, values: Values, trace: seq<Exchange>, longer: seq<Exchange>, x: Exchange, i: nat)
    requires i < |form.fields| && Value(values, form.fields[i].id) != "" && FewReports(form, trace, longer, i)
    requires Done(longer, i) == Done(trace, i) + Reaching(form, i)
    requires x.field == i && x.ask == Type(Value(values, form.fields[i].id))
    ensures Follows(form, values, trace, longer + [x], i, false)
  {
    ScriptIs(form, values, i);
    DoneSnoc(longer, x, i);
    hide Script, Reaching, Done, Reports;
    assert Done(trace, i) + Script(form, values, i) == Done(trace, i) + Reaching(form, i) + [x.ask];
  }

  /** `AimAt` for a field with a position, one Tab where `TabsHere`, and nothing otherwise. */
  method ReachField(computer: Computer, form: Form, ghost values: Values, trace: seq<Exchange>, i: nat)
    returns (reached: bool, longer: seq<Exchange>)
    requires During(computer, form, values, trace, i, false)
    ensures Added(trace, longer, i)
    ensures if reached then During(computer, form, values, longer, i, TabsHere(form, i))
            else Halted(computer, form, values, longer, i)
    ensures reached && form.fields[i].at.Some? ==> Aimed(longer, form.fields[i].at.value)
    ensures Reports(longer, i) == Reports(trace, i) && Done(longer, i) <= Done(trace, i) + Reaching(form, i)
    ensures reached ==> Done(longer, i) == Done(trace, i) + Reaching(form, i)
  {
    hide Done, Reports;
    var field := form.fields[i];
    if field.at.Some? {
      reached, longer := AimAt(computer, form, values, trace, i, field.at.value, false);
    } else if form.samePage && i > 0 {
      reached, longer := PressTab(computer, form, values, trace, i);
    } else {
      reached, longer := true, trace;
    }
  }

  /** Giving up on a field that nothing was typed into. */
  lemma GivenUp(computer: Computer, form: Form, values: Values, trace: seq<Exchange>, i: nat, tabbed: bool)
    requires i < |form.fields|
    requires || Halted(computer, form, values, trace, i)
             || (During(computer, form, values, trace, i, tabbed) && GaveUpFor(form, trace, i))
    ensures Halted(computer, form, values, trace, i)
    ensures Tells(form, values, trace, i, Filled(Failed(form.fields[i]), true, false))
  {
    hide Honest, AllGood, TypedWell;
    NotTypedWell(trace, i);
  }

  /** Typing a field's own answer, once it is reached and its box is the right one. */
  lemma TypedTells(computer: Computer, form: Form, values: Values, trace: seq<Exchange>, i: nat, x: Exchange)
    requires i < |form.fields| && During(computer, form, values, trace, i, TabsHere(form, i))
    requires x.field == i && x.answer == computer(trace, x.ask)
    requires x.ask.Type? && x.ask.text == Value(values, form.fields[i].id) != ""
    requires WantsAPasswordBox(form.fields[i]) ==> LastKind(trace) == Some(PasswordBox)
    requires form.fields[i].at.Some? ==> Aimed(trace, form.fields[i].at.value)
    ensures Ready(computer, form, values, trace + [x], i + 1)
    ensures var ok := x.answer.ok;
            Tells(form, values, trace + [x], i, Filled(Outcome(form.fields[i].id, ok, !ok), false, ok))
  {
    hide AllGood, Honest, Tabs, LastKind, WantsAPasswordBox, Aimed, TypedWell;
    TypedNow(computer, form, values, trace, i, TabsHere(form, i), x);
  }

  lemma AddedThen(trace: seq<Exchange>, longer: seq<Exchange>, longest: seq<Exchange>, field: nat)
    requires Added(trace, longer, field) && Added(longer, longest, field)
    ensures Added(trace, longest, field)
  {
  }

  lemma AddedOne(trace: seq<Exchange>, x: Exchange)
    ensures Added(trace, trace + [x], x.field)
  {
  }

  /** A field with an answer: reach it, see that it is its own box, type. */
  method AnswerField(computer: Computer, form: Form, values: Values, trace: seq<Exchange>, i: nat)
    returns (filled: Filled, longer: seq<Exchange>)
    requires i < |form.fields| && During(computer, form, values, trace, i, false) &&
            Value(values, form.fields[i].id) != ""
    ensures Added(trace, longer, i) && Tells(form, values, longer, i, filled)
    ensures if filled.gaveUp then Halted(computer, form, values, longer, i)
            else Ready(computer, form, values, longer, i + 1)
    ensures Follows(form, values, trace, longer, i, filled.gaveUp)
  {
    hide During, Halted, Ready, Tells, Aimed, Added, LastKind, GaveUpFor, Done, Reports, Value, Reaching, Follows;
    var field := form.fields[i];
    var asked := Exchange(AskFocus, computer(trace, AskFocus), i);
    AskedAside(computer, form, values, trace, i, false, asked);
    AddedOne(trace, asked);
    DoneSnoc(trace, asked, i);
    var reported := if asked.answer.focus.Some? then Some(asked.answer.focus.value.seqNo) else None;
    var reached, moved := ReachField(computer, form, values, trace + [asked], i);
    AddedThen(trace, trace + [asked], moved, i);
    if !reached {
      HalfFollowed(form, values, trace, moved, i);
      GivenUp(computer, form, values, moved, i, false);
      return Filled(Failed(field), true, false), moved;
    }
    var lands, checked := LandsInItsBox(computer, form, values, moved, i, reported,
                                        field.at.Some? || (form.samePage && i > 0), TabsHere(form, i));
    AddedThen(trace, moved, checked, i);
    if !lands {
      HalfFollowed(form, values, trace, checked, i);
      GivenUp(computer, form, values, checked, i, TabsHere(form, i));
      return Filled(Failed(field), true, false), checked;
    }
    var text := Value(values, field.id);
    var typing := Exchange(Type(text), computer(checked, Type(text)), i);
    TypedTells(computer, form, values, checked, i, typing);
    AddedOne(checked, typing);
    AddedThen(trace, checked, checked + [typing], i);
    AllFollowed(form, values, trace, checked, typing, i);
    filled := Filled(Outcome(field.id, typing.answer.ok, !typing.answer.ok), false, typing.answer.ok);
    longer := checked + [typing];
  }

  lemma SkippedIsReady(computer: Computer, form: Form, values: Values, trace: seq<Exchange>, i: nat)
    requires i < |form.fields| && During(computer, form, values, trace, i, TabsHere(form, i))
    ensures Ready(computer, form, values, trace, i + 1)
  {
    hide AllGood, Honest, Tabs;
  }

  // ----- the whole form --------------------------------------------------------------------------------------------

  /** How many of the first `n` fields were typed well. */
  function TypedCount(trace: seq<Exchange>, n: nat): nat {
    if n == 0 then 0 else TypedCount(trace, n - 1) + if TypedWell(trace, n - 1) then 1 else 0
  }

  /** What outcome `i` is, when the fill gave up at `stop` (or not, when `stop` is past the fields it types). */
  ghost predicate OutcomeIs(form: Form, values: Values, trace: seq<Exchange>, i: nat, stop: nat, outcome: Outcome)
    requires i < |form.fields|
  {
    var field := form.fields[i];
    && outcome.id == field.id
    && if i >= TypeLimit(form) then !outcome.filled && !outcome.failed
       else if i >= stop then !outcome.filled && outcome.failed && !TypedWell(trace, i)
       else if Value(values, field.id) == "" then outcome.filled == !field.required &&
         outcome.failed == field.required && !TypedWell(trace, i)
       else outcome.filled == TypedWell(trace, i) && outcome.failed == !TypedWell(trace, i) && !NotTyped(trace, i)
  }

  ghost predicate OutcomesAre(form: Form, values: Values, trace: seq<Exchange>, stop: nat, outcomes: seq<Outcome>) {
    |outcomes| <= |form.fields| && forall i: nat :: i < |outcomes| ==>
      OutcomeIs(form, values, trace, i, stop, outcomes[i])
  }

  /** Typing a later field changes nothing of an earlier one's. */
  lemma TypedWellStays(trace: seq<Exchange>, longer: seq<Exchange>, i: nat, j: nat)
    requires trace <= longer && i < j && forall k :: |trace| <= k < |longer| ==> longer[k].field >= j
    ensures TypedWell(longer, i) <==> TypedWell(trace, i)
  {
    if TypedWell(trace, i) {
      var k :| 0 <= k < |trace| && Types(trace[k], i) && trace[k].answer.ok;
      assert longer[k] == trace[k];
    }
    if TypedWell(longer, i) {
      var k :| 0 <= k < |longer| && Types(longer[k], i) && longer[k].answer.ok;
      assert k < |trace| && trace[k] == longer[k];
    }
  }

  lemma {:induction false} TypedCountStays(trace: seq<Exchange>, longer: seq<Exchange>, n: nat)
    requires trace <= longer && forall k :: |trace| <= k < |longer| ==> longer[k].field >= n
    ensures TypedCount(longer, n) == TypedCount(trace, n)
  {
    if n > 0 {
      TypedCountStays(trace, longer, n - 1);
      TypedWellStays(trace, longer, n - 1, n);
    }
  }

  lemma TypedStays(trace: seq<Exchange>, longer: seq<Exchange>, i: nat, j: nat)
    requires i < j && Added(trace, longer, j)
    ensures NotTyped(longer, i) <==> NotTyped(trace, i)
  {
    assert forall k :: 0 <= k < |trace| ==> longer[k] == trace[k];
  }

  lemma OutcomeStays(form: Form, values: Values, trace: seq<Exchange>, longer: seq<Exchange>, i: nat, j: nat, stop: nat,
      later: nat, outcome: Outcome)
    requires i < |form.fields| && OutcomeIs(form, values, trace, i, stop, outcome)
    requires i < j && Added(trace, longer, j) && (later == stop || (i < stop && i < later))
    ensures OutcomeIs(form, values, longer, i, later, outcome)
  {
    TypedWellStays(trace, longer, i, j);
    TypedStays(trace, longer, i, j);
    hide TypedWell, TypeLimit, NotTyped;
  }

  /** The outcomes so far stay true as later fields are handled. */
  lemma OutcomesStay(form: Form, values: Values, trace: seq<Exchange>, longer: seq<Exchange>, stop: nat, later: nat,
      outcomes: seq<Outcome>, j: nat)
    requires OutcomesAre(form, values, trace, stop, outcomes) && |outcomes| <= j && Added(trace, longer, j)
    requires later == stop || (|outcomes| <= stop && |outcomes| <= later)
    ensures OutcomesAre(form, values, longer, later, outcomes)
  {
    forall i: nat | i < |outcomes| ensures OutcomeIs(form, values, longer, i, later, outcomes[i]) {
      hide OutcomeIs, Added;
      OutcomeStays(form, values, trace, longer, i, j, stop, later, outcomes[i]);
    }
  }

  lemma OutcomesSnoc(form: Form, values: Values, trace: seq<Exchange>, stop: nat, outcomes: seq<Outcome>,
      outcome: Outcome)
    requires OutcomesAre(form, values, trace, stop, outcomes) && |outcomes| < |form.fields|
    requires OutcomeIs(form, values, trace, |outcomes|, stop, outcome)
    ensures OutcomesAre(form, values, trace, stop, outcomes + [outcome])
  {
    hide OutcomeIs;
  }

  lemma PastStop(trace: seq<Exchange>, stop: nat, i: nat)
    requires UpTo(trace, stop) && NotTyped(trace, stop) && i >= stop
    ensures !TypedWell(trace, i)
  {
  }

  lemma TellsIs(form: Form, values: Values, trace: seq<Exchange>, i: nat, filled: Filled, stop: nat)
    requires i < TypeLimit(form) && Tells(form, values, trace, i, filled) &&
            (if filled.gaveUp then stop == i else stop > i)
    ensures OutcomeIs(form, values, trace, i, stop, filled.outcome)
  {
    hide TypedWell, TypeLimit;
  }

  /** Every field the fill types, in order. */
  method FillFields(computer: Computer, form: Form, values: Values)
    returns (outcomes: seq<Outcome>, trace: seq<Exchange>, typed: nat, stop: nat)
    ensures |outcomes| == TypeLimit(form) && OutcomesAre(form, values, trace, stop, outcomes) &&
            typed == TypedCount(trace, TypeLimit(form))
    ensures if stop < TypeLimit(form) then Halted(computer, form, values, trace, stop)
            else stop == TypeLimit(form) && Ready(computer, form, values, trace, TypeLimit(form))
    ensures ScriptsKept(form, values, trace, stop, TypeLimit(form))
  {
    hide OutcomeIs, TypedWell, TypesOnlyFirstField, Added, ScriptsKept, Follows;
    var limit := TypeLimit(form);
    outcomes, trace, typed, stop := [], [], 0, limit;
    NoScripts(form, values);
    for i := 0 to limit
      invariant |outcomes| == i && OutcomesAre(form, values, trace, stop, outcomes) && typed == TypedCount(trace, i)
      invariant stop <= limit
      invariant if stop < limit then stop < i && Halted(computer, form, values, trace, stop)
              else Ready(computer, form, values, trace, i)
      invariant if stop == limit then ScriptsKept(form, values, trace, i, i)
              else ScriptsKept(form, values, trace, stop, limit)
    {
      if stop < limit {
        PastStop(trace, stop, i);
        FailedIs(form, values, trace, i, stop);
        OutcomesSnoc(form, values, trace, stop, outcomes, Failed(form.fields[i]));
        outcomes := outcomes + [Failed(form.fields[i])];
      } else {
        ReadyStarts(computer, form, values, trace, i);
        var filled, longer := FillField(computer, form, values, trace, i);
        var later := if filled.gaveUp then i else limit;
        OutcomesStay(form, values, trace, longer, stop, later, outcomes, i);
        TellsIs(form, values, longer, i, filled, later);
        OutcomesSnoc(form, values, longer, later, outcomes, filled.outcome);
        CountStep(form, values, trace, longer, i, filled);
        ScriptsGrow(form, values, trace, longer, i, limit, filled.gaveUp);
        outcomes, trace, stop := outcomes + [filled.outcome], longer, later;
        if filled.typed {
          typed := typed + 1;
        }
      }
    }
  }

  lemma NoScripts(form: Form, values: Values)
    ensures ScriptsKept(form, values, [], 0, 0)
  {
  }

  /** One more field's script, followed to its end or not. */
  lemma ScriptsGrow(form: Form, values: Values, trace: seq<Exchange>, longer: seq<Exchange>, i: nat, limit: nat,
      gaveUp: bool)
    requires i < limit <= |form.fields| && Added(trace, longer, i) && Follows(form, values, trace, longer, i, gaveUp)
    requires ScriptsKept(form, values, trace, i, i)
    ensures if gaveUp then ScriptsKept(form, values, longer, i, limit)
            else ScriptsKept(form, values, longer, i + 1, i + 1)
  {
    hide ScriptKept, Follows, Added;
    var next := i + 1;
    forall j: nat | j < |form.fields|
      ensures gaveUp ==> ScriptKept(form, values, longer, i, limit, j)
      ensures !gaveUp ==> ScriptKept(form, values, longer, next, next, j)
    {
      ScriptGrows(form, values, trace, longer, i, limit, gaveUp, j);
    }
  }

  lemma ScriptGrows(form: Form, values: Values, trace: seq<Exchange>, longer: seq<Exchange>, i: nat, limit: nat,
      gaveUp: bool, j: nat)
    requires i < limit <= |form.fields| && Added(trace, longer, i) && Follows(form, values, trace, longer, i, gaveUp)
    requires j < |form.fields| && ScriptKept(form, values, trace, i, i, j)
    ensures if gaveUp then ScriptKept(form, values, longer, i, limit, j)
            else ScriptKept(form, values, longer, i + 1, i + 1, j)
  {
    assert Done([], j) == [] && Reports([], j) == 0;
    hide Script, AsFewAsNeeded, Done, Reports, Added;
    if j != i {
      DoneStays(trace, longer, j, i);
    }
  }

  lemma CountStep(form: Form, values: Values, trace: seq<Exchange>, longer: seq<Exchange>, i: nat, filled: Filled)
    requires i < |form.fields| && Added(trace, longer, i) && Tells(form, values, longer, i, filled)
    ensures TypedCount(longer, i + 1) == TypedCount(trace, i) + if filled.typed then 1 else 0
  {
    TypedCountStays(trace, longer, i);
    hide TypedWell;
  }

  lemma FailedIs(form: Form, values: Values, trace: seq<Exchange>, i: nat, stop: nat)
    requires stop <= i < TypeLimit(form) && !TypedWell(trace, i)
    ensures OutcomeIs(form, values, trace, i, stop, Failed(form.fields[i]))
  {
  }

  method FillField(computer: Computer, form: Form, values: Values, trace: seq<Exchange>, i: nat)
    returns (filled: Filled, longer: seq<Exchange>)
    requires During(computer, form, values, trace, i, false)
    ensures Added(trace, longer, i) && Tells(form, values, longer, i, filled)
    ensures if filled.gaveUp then Halted(computer, form, values, longer, i)
            else Ready(computer, form, values, longer, i + 1)
    ensures Follows(form, values, trace, longer, i, filled.gaveUp)
  {
    hide Follows;
    if Value(values, form.fields[i].id) == "" {
      filled, longer := SkipField(computer, form, values, trace, i);
      if !filled.gaveUp {
        SkippedIsReady(computer, form, values, longer, i);
      }
    } else {
      filled, longer := AnswerField(computer, form, values, trace, i);
    }
  }

  lemma UntypedIs(form: Form, values: Values, trace: seq<Exchange>, i: nat, stop: nat)
    requires TypeLimit(form) <= i < |form.fields|
    ensures OutcomeIs(form, values, trace, i, stop, Outcome(form.fields[i].id, false, false))
  {
  }

  lemma ReturnIsGood(computer: Computer, form: Form, values: Values, trace: seq<Exchange>, x: Exchange)
    requires Ready(computer, form, values, trace, TypeLimit(form)) && x.ask == Press(Return) && x.field == |form.fields|
    requires x.answer == computer(trace, x.ask)
    ensures Honest(computer, trace + [x]) && AllGood(form, values, trace + [x])
  {
    hide AllGood, Honest, Tabs, LastKind;
    Snoc(form, values, trace, x);
    SnocAll(computer, trace, x, 0, |form.fields|);
    assert UpTo(trace, |form.fields|);
  }

  /** Some exchange is the Return. */
  predicate Returned(trace: seq<Exchange>) {
    !NoReturn(trace)
  }

  /**
   The whole loop against any computer. One outcome per field, in order, and each is what the trace shows; once it
   gives up, at field `stop`, by a miss or for the wrong box, nothing more is asked and every field from there on
   fails, and otherwise nothing missed; Return is pressed exactly when no field failed and the form is one to be sent.
   What is asked for each field is its script, no more and in that order.
   */
  method FillIntoFocus(computer: Computer, form: Form, values: Values)
      returns (outcomes: seq<Outcome>, trace: seq<Exchange>, stop: nat)
    ensures Honest(computer, trace) && AllGood(form, values, trace)
    ensures |outcomes| == |form.fields| && OutcomesAre(form, values, trace, stop, outcomes)
    ensures if stop < TypeLimit(form)
            then UpTo(trace, stop) && NotTyped(trace, stop) && NoReturn(trace) && GaveUpFor(form, trace, stop)
            else Unbroken(trace)
    ensures forall i :: stop <= i < TypeLimit(form) ==> outcomes[i] == Failed(form.fields[i])
    ensures Returned(trace) <==> !AnyFailed(outcomes) && ShouldPressReturn(form, TypedCount(trace, TypeLimit(form)))
    ensures ScriptsKept(form, values, trace, stop, TypeLimit(form))
  {
    hide AllGood, Honest, OutcomeIs, TypesOnlyFirstField, ShouldPressReturn, TypedWell, Added, ScriptsKept;
    var typed;
    outcomes, trace, typed, stop := FillFields(computer, form, values);
    var n := |outcomes|;
    while n < |form.fields|
      invariant TypeLimit(form) <= n <= |form.fields| && |outcomes| == n &&
              OutcomesAre(form, values, trace, stop, outcomes)
    {
      UntypedIs(form, values, trace, n, stop);
      OutcomesSnoc(form, values, trace, stop, outcomes, Outcome(form.fields[n].id, false, false));
      outcomes, n := outcomes + [Outcome(form.fields[n].id, false, false)], n + 1;
    }
    AllFailPast(form, values, trace, stop, outcomes);
    if stop < TypeLimit(form) {
      StopFails(form, values, trace, stop, outcomes);
    }
    if !AnyFailed(outcomes) && ShouldPressReturn(form, typed) {
      var x := Exchange(Press(Return), computer(trace, Press(Return)), |form.fields|);
      ReturnIsGood(computer, form, values, trace, x);
      SnocAll(computer, trace, x, 0, 0);
      ReturnAdds(trace, x);
      OutcomesStay(form, values, trace, trace + [x], stop, stop, outcomes, |form.fields|);
      ReturnKeepsCount(form, trace, x);
      ReturnKeepsScripts(form, values, trace, x, stop);
      trace := trace + [x];
    }
  }

  lemma ReturnAdds(trace: seq<Exchange>, x: Exchange)
    ensures Added(trace, trace + [x], x.field)
  {
  }

  lemma ReturnKeepsCount(form: Form, trace: seq<Exchange>, x: Exchange)
    requires x.field == |form.fields|
    ensures TypedCount(trace + [x], TypeLimit(form)) == TypedCount(trace, TypeLimit(form))
  {
    TypedCountStays(trace, trace + [x], TypeLimit(form));
  }

  lemma ReturnKeepsScripts(form: Form, values: Values, trace: seq<Exchange>, x: Exchange, stop: nat)
    requires x.field == |form.fields|
    requires ScriptsKept(form, values, trace, stop, TypeLimit(form))
    ensures ScriptsKept(form, values, trace + [x], stop, TypeLimit(form))
  {
    forall i: nat | i < |form.fields| ensures ScriptKept(form, values, trace + [x], stop, TypeLimit(form), i) {
      assert ScriptKept(form, values, trace, stop, TypeLimit(form), i);
      DoneSnoc(trace, x, i);
      hide Script, AsFewAsNeeded, TypeLimit, Done, Reports;
    }
  }

  lemma AllFailPast(form: Form, values: Values, trace: seq<Exchange>, stop: nat, outcomes: seq<Outcome>)
    requires |outcomes| == |form.fields| && OutcomesAre(form, values, trace, stop, outcomes)
    ensures forall i :: stop <= i < TypeLimit(form) ==> outcomes[i] == Failed(form.fields[i])
  {
    hide TypedWell, TypesOnlyFirstField;
    forall i | stop <= i < TypeLimit(form) ensures outcomes[i] == Failed(form.fields[i]) {
      assert OutcomeIs(form, values, trace, i, stop, outcomes[i]);
    }
  }

  lemma StopFails(form: Form, values: Values, trace: seq<Exchange>, stop: nat, outcomes: seq<Outcome>)
    requires stop < TypeLimit(form) && |outcomes| == |form.fields| && OutcomesAre(form, values, trace, stop, outcomes)
    ensures AnyFailed(outcomes)
  {
    assert OutcomeIs(form, values, trace, stop, stop, outcomes[stop]);
    assert outcomes[stop].failed;
  }

  /** Every field has a position, and there is one. */
  predicate AllPlaced(form: Form) {
    |form.fields| > 0 && !exists i :: 0 <= i < |form.fields| && form.fields[i].at == None
  }

  predicate KeepsASecret(field: Field) {
    field.secret || field.kind == PasswordKind || field.kind == OtpKind
  }

  /**
   When Return is pressed: never if nothing was typed; always if the person asked for it; on a single field; on a
   positioned one-page form with a secret that was typed in full; and on a one-time code or password challenge of
   which one field was typed, unless it is a stepped form.
   */
  lemma WhenReturnIsPressed(form: Form, typed: nat)
    ensures ShouldPressReturn(form, typed) <==>
            && typed > 0
            && (|| form.submit
                || |form.fields| == 1
                || (form.samePage && AllPlaced(form) && typed == |form.fields| &&
                    exists field :: field in form.fields && KeepsASecret(field))
                || (typed == 1 && (form.challenge == PasswordKind || form.challenge == OtpKind) &&
                    (|form.fields| == 0 || form.samePage || AllPlaced(form))))
    ensures TypeLimit(form) == if |form.fields| <= 1 || form.samePage || AllPlaced(form) then |form.fields| else 1
  {
    if HasSecret(form) {
      var i :| 0 <= i < |form.fields| && IsSecret(form.fields[i]);
      assert form.fields[i] in form.fields && KeepsASecret(form.fields[i]);
    }
    if field :| field in form.fields && KeepsASecret(field) {
      var i :| 0 <= i < |form.fields| && form.fields[i] == field;
      assert IsSecret(form.fields[i]);
    }
  }

  // ----- what a good trace is --------------------------------------------------------------------------------------

  lemma {:induction false} GoodAt(form: Form, values: Values, trace: seq<Exchange>, k: nat)
    requires AllGood(form, values, trace) && k < |trace|
    ensures GoodNext(form, values, trace[..k], trace[k])
    decreases |trace|
  {
    hide GoodNext;
    if k < |trace| - 1 {
      GoodAt(form, values, trace[..|trace| - 1], k);
      assert trace[..|trace| - 1][..k] == trace[..k];
    }
  }

  /**
   On any computer: whatever is typed is a field's own answer; into a field with a position, only right after it was
   clicked and selected; a password, only when the last report read said a password box; and on a one-page form
   without positions, field i is typed after exactly i Tabs.
   */
  lemma TypingIsSafe(form: Form, values: Values, trace: seq<Exchange>, k: nat)
    requires AllGood(form, values, trace) && k < |trace| && trace[k].ask.Type?
    ensures trace[k].field < |form.fields| && trace[k].ask.text == Value(values, form.fields[trace[k].field].id) != ""
    ensures form.fields[trace[k].field].at.Some? ==> Aimed(trace[..k], form.fields[trace[k].field].at.value)
    ensures var field := form.fields[trace[k].field];
            field.kind == PasswordKind || (field.secret && field.kind != OtpKind) ==>
              LastKind(trace[..k]) == Some(PasswordBox)
    ensures form.samePage && (forall i :: 0 <= i < |form.fields| ==> form.fields[i].at == None) ==>
              Tabs(trace[..k]) == trace[k].field
  {
    GoodAt(form, values, trace, k);
  }

  /** Nothing is asked after a click, a Tab or a select that missed, nor after the Return, which comes at most once. */
  lemma NothingAfterAMiss(form: Form, values: Values, trace: seq<Exchange>, j: nat, k: nat)
    requires AllGood(form, values, trace) && j < k < |trace|
    ensures !Misses(trace[j]) && trace[j].ask != Press(Return)
  {
    GoodAt(form, values, trace, k);
    assert trace[..k][j] == trace[j];
  }

  /** Fields are handled in order, and each is typed at most once. */
  lemma TypedOnceInOrder(form: Form, values: Values, trace: seq<Exchange>, j: nat, k: nat)
    requires AllGood(form, values, trace) && j < k < |trace|
    ensures trace[j].field <= trace[k].field
    ensures trace[j].ask.Type? && trace[k].ask.Type? ==> trace[j].field < trace[k].field
  {
    GoodAt(form, values, trace, k);
    assert trace[..k][j] == trace[j];
  }
}
