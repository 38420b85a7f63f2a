/**
 Cron expressions rewritten for a parser with another numbering of weekdays.

 People's days run from 0 to 7 with Sunday at both ends; the parser's run from 1, Sunday first, and its ranges only
 go up. Names mean the same to both, so numbers are rewritten as names. `TypedDays` and `CrateDays` give the two
 readings of an item.
 */
module Cron {
  import opened Common
  import opened Texts

  // ----- numbers ---------------------------------------------------------------------------------------------

  predicate IsDigit(c: char) {
    '0' <= c <= '9'
  }

  predicate AllDigits(text: string) {
    forall i :: 0 <= i < |text| ==> IsDigit(text[i])
  }

  predicate HasDigit(text: string) {
    exists i :: 0 <= i < |text| && IsDigit(text[i])
  }

  function Value(text: string): nat
    requires AllDigits(text)
  {
    if text == "" then 0 else Value(text[..|text| - 1]) * 10 + (text[|text| - 1] as int - '0' as int)
  }

  /** A number a day or a step may be: digits alone, 0 to 7. */
  function Number(text: string): (n: Option<nat>)
    ensures n.Some? ==> n.value <= 7
  {
    if text != "" && AllDigits(text) && Value(text) <= 7 then Some(Value(text)) else None
  }

  // ----- an item of the field ------------------------------------------------------------------------------------

  function Base(item: string): string {
    var cut := SplitOnce(item, '/');
    if cut.Some? then cut.value.0 else item
  }

  function Step(item: string): Option<string> {
    var cut := SplitOnce(item, '/');
    if cut.Some? then Some(cut.value.1) else None
  }

  /** `Base(item)` has a digit, so `NameItem` must read it as a range. */
  predicate NumbersADay(item: string) {
    HasDigit(Base(item))
  }

  datatype Range = Range(first: nat, last: nat, every: nat)

  predicate IsRange(r: Range) {
    r.first <= r.last <= 7 && 1 <= r.every <= 7
  }

  /** First, last and step of an item in people's numbering; `a/s` reads as `a-7/s`. */
  function ReadRange(item: string): (r: Option<Range>)
    ensures r.Some? ==> IsRange(r.value)
  {
    var base, step := Base(item), Step(item);
    var ends := SplitOnce(base, '-');
    var first := Number(if ends.Some? then ends.value.0 else base);
    var last := if ends.Some? then Number(ends.value.1) else if step.Some? then Some(7) else first;
    var every := if step.Some? then Number(step.value) else Some(1);
    if first.None? || last.None? || every.None? || first.value > last.value || every.value == 0 then None
    else Some(Range(first.value, last.value, every.value))
  }

  function DayName(n: nat): string
    requires n <= 7
  {
    match n
    case 0 => "SUN"
    case 1 => "MON"
    case 2 => "TUE"
    case 3 => "WED"
    case 4 => "THU"
    case 5 => "FRI"
    case 6 => "SAT"
    case 7 => "SUN"
  }

  function Suffix(step: Option<string>): string {
    if step.Some? then "/" + step.value else ""
  }

  /** One item in names, or two: `SUN` goes separately when 7 is reached by a range that began before it. */
  function NamedRange(r: Range, step: Option<string>): seq<string>
    requires IsRange(r)
  {
    var sunday := r.last == 7 && 1 <= r.first < 7 && (7 - r.first) % r.every == 0;
    var last := if r.first < 7 && r.last > 6 then 6 else r.last;
    [if r.first == last then DayName(r.first) else DayName(r.first) + "-" + DayName(last) + Suffix(step)] +
    if sunday then ["SUN"] else []
  }

  function NamedItem(item: string): Result<seq<string>, string> {
    if !NumbersADay(item) then Ok([item])
    else
      var r := ReadRange(item);
      if r.Some? then Ok(NamedRange(r.value, Step(item))) else Err(item)
  }

  function NamedItems(items: seq<string>): Result<seq<string>, string> {
    if items == [] then Ok([])
    else
      match NamedItems(items[..|items| - 1])
      case Err(item) => Err(item)
      case Ok(before) =>
        match NamedItem(items[|items| - 1])
        case Err(item) => Err(item)
        case Ok(named) => Ok(before + named)
  }

  lemma {:induction false} NamedItemsNonempty(items: seq<string>)
    requires items != [] && NamedItems(items).Ok?
    ensures NamedItems(items).value != []
  {
    hide ReadRange, NumbersADay;
  }

  /** Every comma-separated item named on its own; the first that has no reading refuses the field. */
  function NamedWeekdays(field: string): Result<string, string> {
    var named := NamedItems(Split(field, ','));
    if named.Err? then Err(named.error)
    else
      NamedItemsNonempty(Split(field, ','));
      Ok(Join(named.value, ','))
  }

  /** One item, read and named. */
  method NameItem(item: string) returns (named: Result<seq<string>, string>)
    ensures named == NamedItem(item)
  {
    hide DayName, Number, Base, Step, NumbersADay, Suffix;
    if !NumbersADay(item) {
      return Ok([item]);
    }
    var base, step := Base(item), Step(item);
    var ends := SplitOnce(base, '-');
    var first, last;
    if ends.Some? {
      first, last := Number(ends.value.0), Number(ends.value.1);
    } else {
      first := Number(base);
      last := if step.Some? then Some(7) else first;
    }
    var every := if step.Some? then Number(step.value) else Some(1);
    if first.None? || last.None? || every.None? || first.value > last.value || every.value == 0 {
      return Err(item);
    }
    var sunday := last.value == 7 && 1 <= first.value < 7 && (7 - first.value) % every.value == 0;
    var stop := if first.value < 7 && last.value > 6 then 6 else last.value;
    var out := [if first.value == stop then DayName(first.value)
                else DayName(first.value) + "-" + DayName(stop) + Suffix(step)];
    if sunday {
      out := out + ["SUN"];
    }
    assert NamedRange(Range(first.value, last.value, every.value), step) == out;
    named := Ok(out);
  }

  method NameWeekdays(field: string) returns (named: Result<string, string>)
    ensures named == NamedWeekdays(field)
  {
    hide NamedItem;
    var items := Split(field, ',');
    var out: seq<string> := [];
    for i := 0 to |items|
      invariant NamedItems(items[..i]) == Ok(out)
    {
      assert items[..i + 1][..i] == items[..i];
      var item := NameItem(items[i]);
      if item.Err? {
        RefusedStays(items, i + 1);
        return Err(item.error);
      }
      out := out + item.value;
    }
    assert items[..|items|] == items;
    NamedItemsNonempty(items);
    named := Ok(Join(out, ','));
  }

  /** The first item refused refuses the field. */
  lemma {:induction false} RefusedStays(items: seq<string>, n: nat)
    requires n <= |items| && NamedItems(items[..n]).Err?
    ensures NamedItems(items) == NamedItems(items[..n])
    decreases |items|
  {
    hide NamedItem;
    if n < |items| {
      assert items[..|items| - 1][..n] == items[..n];
      RefusedStays(items[..|items| - 1], n);
    } else {
      assert items[..n] == items;
    }
  }

  // ----- whole expressions -----------------------------------------------------------------------------------------

  /** Five fields are promoted to six, seconds first, with the days named; anything else passes through. */
  function NormalizedCron(expression: string): Result<string, string> {
    var fields := Words(expression);
    if |fields| != 5 then Ok(Trim(expression))
    else
      match NamedWeekdays(fields[4])
      case Err(item) => Err(item)
      case Ok(days) => Ok(Join(["0"] + fields[..4] + [days], ' '))
  }

  predicate AnyNumbered(items: seq<string>) {
    exists i :: 0 <= i < |items| && NumbersADay(items[i])
  }

  /** A six-field expression on the minute, whose days mean the same in five. */
  predicate Displayable(normalized: string) {
    var fields := Words(normalized);
    |fields| == 6 && fields[0] == "0" && !AnyNumbered(Split(fields[5], ','))
  }

  function DisplayCron(normalized: string): string {
    if Displayable(normalized) then Join(Words(normalized)[1..], ' ') else normalized
  }

  /** The first word of the stored form, the seconds, is something other than `0`. */
  predicate UnderAMinute(expression: string) {
    var cron := NormalizedCron(expression);
    cron.Ok? && (Words(cron.value) == [] || Words(cron.value)[0] != "0")
  }

  // ----- what an item means ----------------------------------------------------------------------------------------

  predicate Lands(r: Range, d: int) {
    r.every > 0 && r.first <= d <= r.last && (d - r.first) % r.every == 0
  }

  /** The days of a standard range, Sunday as 0: both 0 and 7 are Sunday. */
  function NumberedDays(r: Range): set<nat> {
    set d: nat | d <= 6 && (Lands(r, d) || (d == 0 && Lands(r, 7)))
  }

  predicate Counts(r: Range, d: nat) {
    Lands(r, d + 1)
  }

  /** The days of a range in the crate's counting, Sunday as 1. */
  function CountedDays(r: Range): set<nat> {
    set d: nat | d <= 6 && Counts(r, d)
  }

  /** A name's number in the crate's counting. */
  function Ordinal(name: string): Option<nat> {
    if name == "SUN" then Some(1)
    else if name == "MON" then Some(2)
    else if name == "TUE" then Some(3)
    else if name == "WED" then Some(4)
    else if name == "THU" then Some(5)
    else if name == "FRI" then Some(6)
    else if name == "SAT" then Some(7)
    else None
  }

  function CrateStep(step: Option<string>): Option<nat> {
    if step.None? then Some(1)
    else if step.value != "" && AllDigits(step.value) && Value(step.value) > 0 then Some(Value(step.value))
    else None
  }

  /** What the crate reads a base as: the whole week, a range that does not wrap, or a day (to the end, if stepped). */
  function CrateEnds(base: string, stepped: bool): Option<(nat, nat)> {
    if base == "*" || base == "?" then Some((1, 7))
    else
      var ends := SplitOnce(base, '-');
      var first := Ordinal(if ends.Some? then ends.value.0 else base);
      var last := if ends.Some? then Ordinal(ends.value.1) else if stepped then Some(7) else first;
      if first.None? || last.None? || first.value > last.value then None else Some((first.value, last.value))
  }

  /** How the crate reads an item this model does not: one without the seven names, or that it refuses. */
  type Reading = string -> Option<set<nat>>

  /** What the crate means by an item, if it takes it. */
  function CrateDays(other: Reading, item: string): Option<set<nat>> {
    var ends, every := CrateEnds(Base(item), Step(item).Some?), CrateStep(Step(item));
    if ends.None? || every.None? then other(item)
    else Some(CountedDays(Range(ends.value.0, ends.value.1, every.value)))
  }

  /** What a person means by an item: standard numbers, and otherwise what the crate means by it. */
  function TypedDays(other: Reading, item: string): Option<set<nat>> {
    if !NumbersADay(item) then CrateDays(other, item)
    else
      var r := ReadRange(item);
      if r.Some? then Some(NumberedDays(r.value)) else None
  }

  function Both(a: Option<set<nat>>, b: Option<set<nat>>): Option<set<nat>> {
    if a.Some? && b.Some? then Some(a.value + b.value) else None
  }

  function TypedField(other: Reading, items: seq<string>): Option<set<nat>> {
    if items == [] then Some({})
    else Both(TypedField(other, items[..|items| - 1]), TypedDays(other, items[|items| - 1]))
  }

  function CrateField(other: Reading, items: seq<string>): Option<set<nat>> {
    if items == [] then Some({})
    else Both(CrateField(other, items[..|items| - 1]), CrateDays(other, items[|items| - 1]))
  }

  // ----- the names mean what the numbers meant ---------------------------------------------------------------------

  lemma NameIsOrdinal(n: nat)
    requires n <= 7
    ensures Ordinal(DayName(n)) == Some(n % 7 + 1)
  {
  }

  lemma NameIsLetters(n: nat)
    requires n <= 7
    ensures |DayName(n)| == 3 && forall i :: 0 <= i < 3 ==> 'A' <= DayName(n)[i] <= 'Z'
  {
  }

  lemma NamesAreDays(n: nat)
    requires n <= 7
    ensures |DayName(n)| == 3 && Ordinal(DayName(n)) == Some(n % 7 + 1)
    ensures '/' !in DayName(n) && '-' !in DayName(n) && ',' !in DayName(n) && !HasDigit(DayName(n))
    ensures IsWord(DayName(n))
  {
    hide DayName, Ordinal;
    NameIsOrdinal(n);
    NameIsLetters(n);
  }

  lemma SplitOnceNot(text: string, c: char)
    requires c !in text
    ensures SplitOnce(text, c) == None
  {
  }

  lemma CrateReadsName(other: Reading, n: nat)
    requires n <= 7
    ensures CrateDays(other, DayName(n)) == Some({n % 7})
  {
    NamesAreDays(n);
    SplitOnceNot(DayName(n), '/');
    SplitOnceNot(DayName(n), '-');
    hide DayName, Ordinal;
    assert DayName(n) != "*" && DayName(n) != "?";
    var o := n % 7 + 1;
    assert CountedDays(Range(o, o, 1)) == {n % 7};
  }

  /** The text of a range of names comes apart as it was put together. */
  lemma RangeText(a: string, b: string, step: Option<string>)
    requires '/' !in a && '/' !in b && '-' !in a
    ensures var item := a + "-" + b + Suffix(step);
            Base(item) == a + "-" + b && Step(item) == step && SplitOnce(a + "-" + b, '-') == Some((a, b))
  {
    SplitOnceAt(a, '-', b);
    var base := a + "-" + b;
    if step.Some? {
      assert base + ("/" + step.value) == base + ['/'] + step.value;
      SplitOnceAt(base, '/', step.value);
    } else {
      assert base + "" == base;
      SplitOnceNot(base, '/');
    }
  }

  lemma EndsOfRange(a: string, b: string, stepped: bool)
    requires |a| == 3 && '-' !in a && Ordinal(a).Some? && Ordinal(b).Some? && Ordinal(a).value <= Ordinal(b).value
    ensures CrateEnds(a + "-" + b, stepped) == Some((Ordinal(a).value, Ordinal(b).value))
  {
    hide Ordinal;
    SplitOnceAt(a, '-', b);
    assert |a + "-" + b| > 1;
  }

  lemma CrateReadsRange(other: Reading, first: nat, last: nat, step: Option<string>)
    requires first < last <= 6 && CrateStep(step).Some?
    ensures CrateDays(other, DayName(first) + "-" + DayName(last) + Suffix(step)) ==
            Some(CountedDays(Range(first + 1, last + 1, CrateStep(step).value)))
  {
    hide DayName, Ordinal, CrateStep, CrateEnds, CountedDays, Suffix, Base, Step;
    NamesAreDays(first);
    NamesAreDays(last);
    RangeText(DayName(first), DayName(last), step);
    EndsOfRange(DayName(first), DayName(last), step.Some?);
  }

  /** The step of a numbered item is one the crate takes, as the same number. */
  lemma StepIsTaken(item: string)
    requires ReadRange(item).Some?
    ensures CrateStep(Step(item)) == Some(ReadRange(item).value.every)
  {
  }

  lemma CountsIsLands(r: Range, last: nat, d: nat)
    requires IsRange(r) && d <= 6 && last == (if r.last > 6 then 6 else r.last)
    ensures Counts(Range(r.first + 1, last + 1, r.every), d) <==> Lands(r, d)
  {
    assert (d + 1) - (r.first + 1) == d - r.first;
  }

  /** Stopping at Saturday, with Sunday after it when the step lands there, is the same days. */
  lemma StoppingAtSaturday(r: Range)
    requires IsRange(r) && r.first < 7
    ensures var last := if r.last > 6 then 6 else r.last;
            var counted := CountedDays(Range(r.first + 1, last + 1, r.every));
            NumberedDays(r) == if r.last == 7 && 1 <= r.first && (7 - r.first) % r.every == 0 then counted + {0}
              else counted
  {
    var last := if r.last > 6 then 6 else r.last;
    var counted := Range(r.first + 1, last + 1, r.every);
    var sunday := r.last == 7 && 1 <= r.first && (7 - r.first) % r.every == 0;
    forall d: nat | d <= 6 ensures d in NumberedDays(r) <==> Counts(counted, d) || (d == 0 && sunday) {
      CountsIsLands(r, last, d);
      if d == 0 && r.first == 0 {
        assert Lands(r, 0) by {
          assert 0 % r.every == 0;
        }
      }
    }
  }

  lemma SingleDay(first: nat, every: nat)
    requires first <= 6 && 1 <= every
    ensures CountedDays(Range(first + 1, first + 1, every)) == {first}
  {
    var r := Range(first + 1, first + 1, every);
    assert forall d: nat :: Counts(r, d) ==> d == first;
    assert Counts(r, first) by {
      assert 0 % every == 0;
    }
  }

  /** What the crate means by the names of a range is what its numbers meant. */
  lemma NamedRangeMeans(other: Reading, r: Range, step: Option<string>)
    requires IsRange(r) && CrateStep(step) == Some(r.every)
    ensures CrateField(other, NamedRange(r, step)) == Some(NumberedDays(r))
  {
    hide CrateDays, CrateStep, NumberedDays, CountedDays, DayName;
    var named := NamedRange(r, step);
    if r.first == 7 {
      SundayAlone(r);
      CrateReadsName(other, 7);
      FieldOfOne(other, named[0]);
      assert named == [named[0]];
    } else {
      var last := if r.last > 6 then 6 else r.last;
      StoppingAtSaturday(r);
      SundayIsZero(other);
      if r.first == last {
        SingleDay(r.first, r.every);
        CrateReadsName(other, r.first);
      } else {
        CrateReadsRange(other, r.first, last, step);
      }
      FieldOfOne(other, named[0]);
      if |named| == 2 {
        FieldOfTwo(other, named[0], "SUN");
        assert named == [named[0], "SUN"];
      } else {
        assert named == [named[0]];
      }
    }
  }

  lemma SundayIsZero(other: Reading)
    ensures CrateDays(other, "SUN") == Some({0})
  {
    assert DayName(0) == "SUN";
    CrateReadsName(other, 0);
  }

  lemma SundayAlone(r: Range)
    requires IsRange(r) && r.first == 7
    ensures NumberedDays(r) == {0}
  {
    assert Lands(r, 7);
  }

  lemma FieldOfOne(other: Reading, item: string)
    ensures CrateField(other, [item]) == CrateDays(other, item)
  {
    hide CrateDays;
    assert [item][..0] == [];
    if CrateDays(other, item).Some? {
      assert {} + CrateDays(other, item).value == CrateDays(other, item).value;
    }
  }

  lemma FieldOfTwo(other: Reading, a: string, b: string)
    ensures CrateField(other, [a, b]) == Both(CrateDays(other, a), CrateDays(other, b))
  {
    hide CrateDays;
    FieldOfOne(other, a);
    assert [a, b][..1] == [a];
  }

  lemma {:induction false} CrateFieldConcat(other: Reading, a: seq<string>, b: seq<string>)
    ensures CrateField(other, a + b) == Both(CrateField(other, a), CrateField(other, b))
    decreases |b|
  {
    hide CrateDays;
    if b == [] {
      assert a + b == a;
      if CrateField(other, a).Some? {
        assert CrateField(other, a).value + {} == CrateField(other, a).value;
      }
    } else {
      assert (a + b)[..|a + b| - 1] == a + b[..|b| - 1];
      CrateFieldConcat(other, a, b[..|b| - 1]);
      var x, y, z := CrateField(other, a), CrateField(other, b[..|b| - 1]), CrateDays(other, b[|b| - 1]);
      if x.Some? && y.Some? && z.Some? {
        assert x.value + y.value + z.value == x.value + (y.value + z.value);
      }
    }
  }

  lemma NamedItemMeans(other: Reading, item: string)
    requires NamedItem(item).Ok?
    ensures CrateField(other, NamedItem(item).value) == TypedDays(other, item)
  {
    hide CrateDays, ReadRange, NamedRange, NumberedDays, NumbersADay;
    if NumbersADay(item) {
      StepIsTaken(item);
      NamedRangeMeans(other, ReadRange(item).value, Step(item));
    } else {
      FieldOfOne(other, item);
    }
  }

  lemma {:induction false} NamedItemsMean(other: Reading, items: seq<string>)
    requires NamedItems(items).Ok?
    ensures CrateField(other, NamedItems(items).value) == TypedField(other, items)
  {
    hide CrateDays, TypedDays, NamedItem;
    if items != [] {
      NamedItemsMean(other, items[..|items| - 1]);
      NamedItemMeans(other, items[|items| - 1]);
      CrateFieldConcat(other, NamedItems(items[..|items| - 1]).value, NamedItem(items[|items| - 1]).value);
    }
  }

  predicate Commaless(items: seq<string>) {
    forall i :: 0 <= i < |items| ==> ',' !in items[i]
  }

  lemma NoCommaInStep(item: string)
    requires ',' !in item
    ensures ',' !in Suffix(Step(item)) &&
            (Step(item).Some? ==> forall i :: 0 <= i < |Step(item).value| ==> Step(item).value[i] in item)
  {
    var cut := SplitOnce(item, '/');
    if cut.Some? {
      var at := |cut.value.0| + 1;
      forall i | 0 <= i < |cut.value.1| ensures cut.value.1[i] in item {
        assert item[at + i] == cut.value.1[i];
      }
    }
  }

  lemma NamedItemCommaless(item: string)
    requires ',' !in item && NamedItem(item).Ok?
    ensures Commaless(NamedItem(item).value)
  {
    if NumbersADay(item) {
      hide DayName, ReadRange, NumbersADay;
      NoCommaInStep(item);
      forall n: nat | n <= 7 ensures ',' !in DayName(n) {
        NamesAreDays(n);
      }
    }
  }

  lemma {:induction false} NamedItemsCommaless(items: seq<string>)
    requires Commaless(items) && NamedItems(items).Ok?
    ensures Commaless(NamedItems(items).value)
  {
    hide NamedItem;
    if items != [] {
      NamedItemsCommaless(items[..|items| - 1]);
      NamedItemCommaless(items[|items| - 1]);
    }
  }

  /**
   For every field accepted, the field stored means to the crate, Sunday-first and without wrapping, exactly the
   days the typed one means with 0 and 7 both Sunday, steps included.
   */
  lemma NamingKeepsTheDays(other: Reading, field: string)
    requires NamedWeekdays(field).Ok?
    ensures CrateField(other, Split(NamedWeekdays(field).value, ',')) == TypedField(other, Split(field, ','))
  {
    hide NamedItems, CrateField, TypedField, Split;
    var items := Split(field, ',');
    NamedItemsNonempty(items);
    NamedItemsCommaless(items);
    NamedItemsMean(other, items);
    SplitJoin(NamedItems(items).value, ',');
  }

  /** A field is accepted exactly when each numbered item is a range that runs forward by a step of 1 to 7. */
  lemma {:induction false} AcceptedIffRanges(items: seq<string>)
    ensures NamedItems(items).Ok? <==> forall i :: 0 <= i < |items| && NumbersADay(items[i]) ==>
            ReadRange(items[i]).Some?
  {
    if items != [] {
      hide ReadRange, NumbersADay, NamedRange;
      var before := items[..|items| - 1];
      AcceptedIffRanges(before);
      assert forall i :: 0 <= i < |before| ==> before[i] == items[i];
    }
  }
}
