/**
 Cron expressions by their text: what an item put together from its parts is read and named as, where each name goes,
 and what an expression is stored and shown as.
 */
module CronReading {
  import opened Common
  import opened Texts
  import opened Cron
  import opened CronForms

  // ----- numbers ---------------------------------------------------------------------------------------------------

  function DigitOf(n: nat): char
    requires n <= 9
  {
    ('0' as int + n) as char
  }

  /** Written out: the digit, with any zeros before it. */
  predicate Writes(text: string, n: nat) {
    n <= 7 && |text| > 0 && text[|text| - 1] == DigitOf(n) && forall i :: 0 <= i < |text| - 1 ==> text[i] == '0'
  }

  lemma {:induction false} ZerosAreZero(text: string)
    requires forall i :: 0 <= i < |text| ==> text[i] == '0'
    ensures AllDigits(text) && Value(text) == 0
  {
    if text != "" {
      ZerosAreZero(text[..|text| - 1]);
    }
  }

  lemma {:induction false} ZeroIsZeros(text: string)
    requires AllDigits(text) && Value(text) == 0
    ensures forall i :: 0 <= i < |text| ==> text[i] == '0'
  {
    if text != "" {
      ZeroIsZeros(text[..|text| - 1]);
      assert forall i :: 0 <= i < |text| - 1 ==> text[..|text| - 1][i] == text[i];
    }
  }

  /** A number is taken exactly when it is written as one of 0 to 7. */
  lemma WhatIsANumber(text: string, n: nat)
    ensures Number(text) == Some(n) <==> Writes(text, n)
  {
    if text != "" {
      var most := text[..|text| - 1];
      assert forall i :: 0 <= i < |most| ==> most[i] == text[i];
      if Writes(text, n) {
        ZerosAreZero(most);
      }
      if Number(text) == Some(n) {
        ZeroIsZeros(most);
      }
    }
  }

  // ----- an item by its parts --------------------------------------------------------------------------------------

  /** An item as it is put together: a first day, perhaps a last one, perhaps a step. */
  function Item(first: string, last: Option<string>, step: Option<string>): string {
    first + (if last.Some? then "-" + last.value else "") + (if step.Some? then "/" + step.value else "")
  }

  predicate IsPart(first: string, last: Option<string>) {
    '-' !in first && '/' !in first && (last.Some? ==> '/' !in last.value)
  }

  lemma PartsComeApart(first: string, last: Option<string>, step: Option<string>)
    requires IsPart(first, last)
    ensures var item, base := Item(first, last, step), first + if last.Some? then "-" + last.value else "";
            && Base(item) == base && Step(item) == step
            && SplitOnce(base, '-') == if last.Some? then Some((first, last.value)) else None
  {
    var base := first + if last.Some? then "-" + last.value else "";
    if last.Some? {
      assert base == first + ['-'] + last.value;
      SplitOnceAt(first, '-', last.value);
    } else {
      assert base == first;
      SplitOnceNot(first, '-');
    }
    assert '/' !in base;
    if step.Some? {
      assert Item(first, last, step) == base + ['/'] + step.value;
      SplitOnceAt(base, '/', step.value);
    } else {
      assert Item(first, last, step) == base;
      SplitOnceNot(base, '/');
    }
  }

  predicate HoldsADigit(text: string) {
    exists c :: c in text && '0' <= c <= '9'
  }

  /** The days an item is read as: a lone number is its day, or runs to 7 when it is stepped. */
  ghost predicate ReadsAs(first: string, last: Option<string>, step: Option<string>, r: Range) {
    && Writes(first, r.first)
    && (if last.Some? then Writes(last.value, r.last) else if step.Some? then r.last == 7 else r.last == r.first)
    && (if step.Some? then Writes(step.value, r.every) else r.every == 1)
    && r.first <= r.last && r.every > 0
  }

  /** An item that holds a digit before its step is read exactly as its parts say; any other is left alone. */
  lemma WhatAnItemReadsAs(first: string, last: Option<string>, step: Option<string>, r: Range)
    requires IsPart(first, last)
    ensures ReadRange(Item(first, last, step)) == Some(r) <==> ReadsAs(first, last, step, r)
    ensures NumbersADay(Item(first, last, step)) <==>
            HoldsADigit(first + if last.Some? then "-" + last.value else "")
  {
    PartsComeApart(first, last, step);
    WhatIsANumber(first, r.first);
    WhatIsANumber(if last.Some? then last.value else "", r.last);
    WhatIsANumber(if step.Some? then step.value else "", r.every);
    var base := first + if last.Some? then "-" + last.value else "";
    assert HasDigit(base) <==> HoldsADigit(base) by {
      if HasDigit(base) {
        var i :| 0 <= i < |base| && IsDigit(base[i]);
        assert base[i] in base;
      }
    }
    assert last.None? ==> base == first;
    hide Number, SplitOnce, Writes;
  }

  // ----- where each name goes --------------------------------------------------------------------------------------

  const WEEKDAYS := ["SUN", "MON", "TUE", "WED", "THU", "FRI", "SAT", "SUN"]

  lemma DayIs(n: nat, step: Option<string>)
    requires n <= 7
    ensures NamedRange(Range(n, n, 1), step) == [WEEKDAYS[n]]
  {
    assert DayName(n) == WEEKDAYS[n];
  }

  /** A lone day is its name; anything without a number stays as it is. */
  lemma WhatAnItemBecomes(item: string, n: nat)
    ensures Writes(item, n) ==> NamedItem(item) == Ok([WEEKDAYS[n]])
    ensures !HoldsADigit(Base(item)) ==> NamedItem(item) == Ok([item])
  {
    if Writes(item, n) {
      assert '-' !in item && '/' !in item;
      WhatAnItemReadsAs(item, None, None, Range(n, n, 1));
      assert Item(item, None, None) == item && item + "" == item;
      assert item[|item| - 1] in item;
      DayIs(n, Cron.Step(item));
    }
    DigitsAre(Base(item));
  }

  lemma NamedSnoc(items: seq<string>, item: string)
    ensures NamedItems(items + [item]).Ok? <==> NamedItems(items).Ok? && NamedItem(item).Ok?
    ensures NamedItems(items + [item]).Ok? ==>
            NamedItems(items + [item]).value == NamedItems(items).value + NamedItem(item).value
  {
    hide NamedItem;
    assert (items + [item])[..|items|] == items;
  }

  /** The items of a list are named in their places, one after the other. */
  lemma {:induction false} NamedInPlace(a: seq<string>, b: seq<string>)
    requires NamedItems(a).Ok? && NamedItems(b).Ok?
    ensures NamedItems(a + b) == Ok(NamedItems(a).value + NamedItems(b).value)
    decreases |b|
  {
    hide NamedItem, NamedItems;
    if b == [] {
      NothingMore(a);
      NothingNamed();
      NothingMore(NamedItems(a).value);
    } else {
      var most, last := b[..|b| - 1], b[|b| - 1];
      LastApart(a, b);
      NamedSnoc(most, last);
      NamedInPlace(a, most);
      NamedSnoc(a + most, last);
      Regroup(NamedItems(a).value, NamedItems(most).value, NamedItem(last).value);
    }
  }

  lemma NothingNamed()
    ensures NamedItems([]) == Ok([])
  {
  }

  lemma NothingMore<T>(a: seq<T>)
    ensures a + [] == a
  {
  }

  lemma LastApart<T>(a: seq<T>, b: seq<T>)
    requires b != []
    ensures b == b[..|b| - 1] + [b[|b| - 1]] && a + b == a + b[..|b| - 1] + [b[|b| - 1]]
  {
  }

  lemma Regroup<T>(x: seq<T>, y: seq<T>, z: seq<T>)
    ensures x + y + z == x + (y + z)
  {
  }

  lemma NamedAlone(item: string)
    ensures NamedItems([item]) == NamedItem(item)
  {
    hide NamedItem;
    assert [item][..0] == [];
    if NamedItem(item).Ok? {
      assert [] + NamedItem(item).value == NamedItem(item).value;
    }
  }

  // ----- what is stored and shown ----------------------------------------------------------------------------------

  /** Five fields are stored behind a `0` with their days named, or refused with them; anything else as it is. */
  lemma WhatIsStored(expression: string)
    ensures var fields := Words(expression);
            && (|fields| != 5 ==> NormalizedCron(expression) == Ok(Trim(expression)))
            && (|fields| == 5 && NamedWeekdays(fields[4]).Err? ==> NormalizedCron(expression).Err?)
            && (|fields| == 5 && NamedWeekdays(fields[4]).Ok? ==>
                  var days := NamedWeekdays(fields[4]).value;
                  NormalizedCron(expression) == Ok(
                    "0" + " " + fields[0] + " " + fields[1] + " " + fields[2] + " " + fields[3] + " " + days))
  {
    hide NamedWeekdays, Words, Trim;
    var fields := Words(expression);
    if |fields| == 5 && NamedWeekdays(fields[4]).Ok? {
      var days := NamedWeekdays(fields[4]).value;
      JoinsSix("0", fields[0], fields[1], fields[2], fields[3], days);
      assert ["0"] + fields[..4] + [days] == ["0", fields[0], fields[1], fields[2], fields[3], days];
    }
  }

  lemma JoinsOn(a: string, rest: seq<string>)
    requires rest != []
    ensures Join([a] + rest, ' ') == a + " " + Join(rest, ' ')
  {
    assert ([a] + rest)[1..] == rest;
  }

  lemma JoinsSix(a: string, b: string, c: string, d: string, e: string, f: string)
    ensures Join([a, b, c, d, e, f], ' ') == a + " " + b + " " + c + " " + d + " " + e + " " + f
  {
    JoinsFive(b, c, d, e, f);
    JoinsOn(a, [b, c, d, e, f]);
    assert [a] + [b, c, d, e, f] == [a, b, c, d, e, f];
    var rest := b + " " + c + " " + d + " " + e + " " + f;
    assert a + " " + rest == a + " " + b + " " + c + " " + d + " " + e + " " + f;
  }

  lemma JoinsFive(b: string, c: string, d: string, e: string, f: string)
    ensures Join([b, c, d, e, f], ' ') == b + " " + c + " " + d + " " + e + " " + f
  {
    assert [b] + [c, d, e, f] == [b, c, d, e, f] && [c] + [d, e, f] == [c, d, e, f] && [d] + [e, f] == [d, e, f];
    assert [e] + [f] == [e, f];
    JoinsOn(e, [f]);
    JoinsOn(d, [e, f]);
    JoinsOn(c, [d, e, f]);
    JoinsOn(b, [c, d, e, f]);
    assert b + " " + (c + " " + (d + " " + (e + " " + f))) == b + " " + c + " " + d + " " + e + " " + f;
  }

  /** Six fields on the minute whose days hold no number before a step are shown without the `0`; others as they are. */
  lemma WhatIsShown(stored: string)
    ensures var fields := Words(stored);
            DisplayCron(stored) ==
            if |fields| == 6 && fields[0] == "0" &&
               (forall item :: item in Split(fields[5], ',') ==> !HoldsADigit(Base(item)))
            then fields[1] + " " + fields[2] + " " + fields[3] + " " + fields[4] + " " + fields[5]
            else stored
  {
    hide Words, Split;
    var fields := Words(stored);
    if |fields| == 6 {
      var items := Split(fields[5], ',');
      forall i | 0 <= i < |items| ensures NumbersADay(items[i]) <==> HoldsADigit(Base(items[i])) {
        DigitsAre(Base(items[i]));
      }
      if AnyNumbered(items) {
        var i :| 0 <= i < |items| && NumbersADay(items[i]);
        assert items[i] in items;
      }
      JoinsFive(fields[1], fields[2], fields[3], fields[4], fields[5]);
      assert fields[1..] == [fields[1], fields[2], fields[3], fields[4], fields[5]];
    }
  }

  lemma DigitsAre(text: string)
    ensures HasDigit(text) <==> HoldsADigit(text)
  {
    if HasDigit(text) {
      var i :| 0 <= i < |text| && IsDigit(text[i]);
      assert text[i] in text;
    }
  }
}
