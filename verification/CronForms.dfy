/**
 The stored form of a cron expression and the form a client reads: what is stored means the same days, is stored
 again as itself, and, displayed and stored again, is itself exactly when its fields stand one space apart.
 */
module CronForms {
  import opened Common
  import opened Texts
  import opened Cron

  predicate NoSpace(text: string) {
    forall i :: 0 <= i < |text| ==> !IsSpace(text[i])
  }

  predicate NoSpaces(items: seq<string>) {
    forall i :: 0 <= i < |items| ==> NoSpace(items[i])
  }

  // ----- a named field is a word, and names itself -----------------------------------------------------------

  lemma {:induction false} SplitNoSpace(text: string, c: char)
    requires NoSpace(text)
    ensures NoSpaces(Split(text, c))
    decreases |text|
  {
    var cut := SplitOnce(text, c);
    if cut.Some? {
      var at := |cut.value.0| + 1;
      assert |text| == at + |cut.value.1|;
      forall i | 0 <= i < |cut.value.0| ensures !IsSpace(cut.value.0[i]) {
        assert text[i] == cut.value.0[i];
      }
      forall i | 0 <= i < |cut.value.1| ensures !IsSpace(cut.value.1[i]) {
        assert text[at + i] == cut.value.1[i];
      }
      SplitNoSpace(cut.value.1, c);
    }
  }

  lemma {:induction false} JoinNoSpace(items: seq<string>)
    requires items != [] && NoSpaces(items)
    ensures NoSpace(Join(items, ',')) && (|items| > 1 ==> Join(items, ',') != "")
  {
    assert NoSpace(items[0]);
    if |items| > 1 {
      JoinNoSpace(items[1..]);
    }
  }

  lemma StepNoSpace(item: string)
    requires NoSpace(item)
    ensures NoSpace(Suffix(Step(item)))
  {
    var cut := SplitOnce(item, '/');
    if cut.Some? {
      var at := |cut.value.0| + 1;
      forall i | 0 <= i < |cut.value.1| ensures !IsSpace(cut.value.1[i]) {
        assert item[at + i] == cut.value.1[i];
      }
    }
  }

  lemma NoSpaceConcat(a: string, b: string)
    requires NoSpace(a) && NoSpace(b)
    ensures NoSpace(a + b)
  {
  }

  lemma NamedRangeNoSpace(r: Range, step: Option<string>)
    requires IsRange(r) && NoSpace(Suffix(step))
    ensures NoSpaces(NamedRange(r, step)) && NamedRange(r, step)[0] != ""
  {
    var last := if r.first < 7 && r.last > 6 then 6 else r.last;
    NamesAreDays(r.first);
    NamesAreDays(last);
    NamesAreDays(0);
    assert DayName(0) == "SUN";
    hide DayName;
    NoSpaceConcat(DayName(r.first), "-");
    NoSpaceConcat(DayName(r.first) + "-", DayName(last));
    NoSpaceConcat(DayName(r.first) + "-" + DayName(last), Suffix(step));
  }

  lemma NamedItemNoSpace(item: string)
    requires NoSpace(item) && NamedItem(item).Ok?
    ensures NoSpaces(NamedItem(item).value) && NamedItem(item).value != []
    ensures item != "" ==> NamedItem(item).value[0] != ""
  {
    hide ReadRange, NumbersADay, NoSpace;
    if NumbersADay(item) {
      StepNoSpace(item);
      NamedRangeNoSpace(ReadRange(item).value, Step(item));
    }
  }

  lemma {:induction false} NamedItemsNoSpace(items: seq<string>)
    requires NoSpaces(items) && NamedItems(items).Ok?
    ensures NoSpaces(NamedItems(items).value)
    ensures |NamedItems(items).value| >= |items|
  {
    hide NamedItem, NoSpace;
    if items != [] {
      NamedItemsNoSpace(items[..|items| - 1]);
      NamedItemNoSpace(items[|items| - 1]);
    }
  }

  lemma NamedFieldIsWord(field: string)
    requires IsWord(field) && NamedWeekdays(field).Ok?
    ensures IsWord(NamedWeekdays(field).value)
  {
    var items := Split(field, ',');
    SplitNoSpace(field, ',');
    NamedItemsNoSpace(items);
    var named := NamedItems(items).value;
    NamedItemsNonempty(items);
    JoinNoSpace(named);
    if |named| == 1 {
      OnlyItem(field);
    }
  }

  lemma OnlyItem(field: string)
    requires field != "" && NoSpace(field) && NamedItems(Split(field, ',')).Ok? &&
            |NamedItems(Split(field, ',')).value| == 1
    ensures NamedItems(Split(field, ',')).value[0] != ""
  {
    hide NamedItem;
    var items := Split(field, ',');
    SplitNoSpace(field, ',');
    NamedItemsNoSpace(items);
    JoinSplit(field, ',');
    assert items == [items[0]] && items[..0] == [];
    NamedItemNoSpace(items[0]);
  }

  lemma BaseOfRange(a: string, b: string, step: Option<string>)
    requires '/' !in a && '/' !in b && '-' !in a && !HasDigit(a) && !HasDigit(b)
    ensures !NumbersADay(a + "-" + b + Suffix(step))
  {
    RangeText(a, b, step);
    var base := a + "-" + b;
    forall i | 0 <= i < |base| ensures !IsDigit(base[i]) {
      assert i < |a| ==> base[i] == a[i];
      assert i > |a| ==> base[i] == b[i - |a| - 1];
    }
  }

  lemma NameNotNumbered(n: nat)
    requires n <= 7
    ensures !NumbersADay(DayName(n))
  {
    NamesAreDays(n);
    hide DayName;
    SplitOnceNot(DayName(n), '/');
  }

  lemma NamedRangeNotNumbered(r: Range, step: Option<string>)
    requires IsRange(r)
    ensures !AnyNumbered(NamedRange(r, step))
  {
    var last := if r.first < 7 && r.last > 6 then 6 else r.last;
    NamesAreDays(r.first);
    NamesAreDays(last);
    NameNotNumbered(r.first);
    NameNotNumbered(0);
    assert DayName(0) == "SUN";
    hide DayName, NumbersADay;
    BaseOfRange(DayName(r.first), DayName(last), step);
  }

  lemma NamedItemNotNumbered(item: string)
    requires NamedItem(item).Ok?
    ensures !AnyNumbered(NamedItem(item).value)
  {
    hide ReadRange, NumbersADay;
    if NumbersADay(item) {
      NamedRangeNotNumbered(ReadRange(item).value, Step(item));
    }
  }

  /** Naming leaves no digit before a step. */
  lemma {:induction false} NamedItemsNotNumbered(items: seq<string>)
    requires NamedItems(items).Ok?
    ensures !AnyNumbered(NamedItems(items).value)
  {
    hide NamedItem, NumbersADay;
    if items != [] {
      NamedItemsNotNumbered(items[..|items| - 1]);
      NamedItemNotNumbered(items[|items| - 1]);
      var a, b := NamedItems(items[..|items| - 1]).value, NamedItem(items[|items| - 1]).value;
      assert NamedItems(items).value == a + b;
      forall i | 0 <= i < |a + b| ensures !NumbersADay((a + b)[i]) {
        assert i < |a| ==> (a + b)[i] == a[i];
        assert i >= |a| ==> (a + b)[i] == b[i - |a|];
      }
    }
  }

  lemma {:induction false} NamesStay(items: seq<string>)
    requires !AnyNumbered(items)
    ensures NamedItems(items) == Ok(items)
  {
    hide NumbersADay;
    if items != [] {
      assert items == items[..|items| - 1] + [items[|items| - 1]];
      NamesStay(items[..|items| - 1]);
    }
  }

  lemma NamedFieldSplits(field: string)
    requires NamedWeekdays(field).Ok?
    ensures Split(NamedWeekdays(field).value, ',') == NamedItems(Split(field, ',')).value
  {
    hide NamedItems, Split;
    NamedItemsNonempty(Split(field, ','));
    NamedItemsCommaless(Split(field, ','));
    SplitJoin(NamedItems(Split(field, ',')).value, ',');
  }

  /** Naming a named field changes nothing. */
  lemma NamesStayNamed(field: string)
    requires !AnyNumbered(Split(field, ','))
    ensures NamedWeekdays(field) == Ok(field)
  {
    hide NamedItems, Split;
    NamesStay(Split(field, ','));
    JoinSplit(field, ',');
  }

  // ----- the stored form ------------------------------------------------------------------------------------------

  function Promoted(fields: seq<string>, days: string): seq<string>
    requires |fields| == 5
  {
    ["0"] + fields[..4] + [days]
  }

  /** What five fields are stored as: six, one space apart, on the minute, with the days named. */
  lemma FiveFieldsStored(expression: string)
    requires |Words(expression)| == 5 && NormalizedCron(expression).Ok?
    ensures var days := NamedWeekdays(Words(expression)[4]);
            && days.Ok? && Words(NormalizedCron(expression).value) == Promoted(Words(expression), days.value)
            && Join(Words(NormalizedCron(expression).value), ' ') == NormalizedCron(expression).value
            && !AnyNumbered(Split(days.value, ','))
  {
    hide NamedWeekdays, AnyNumbered, Words;
    var fields := Words(expression);
    assert IsWord(fields[4]);
    NamedFieldIsWord(fields[4]);
    var days := NamedWeekdays(fields[4]).value;
    PromotedAreWords(fields, days);
    WordsJoin(Promoted(fields, days));
    DaysNotNumbered(fields[4]);
  }

  lemma DaysNotNumbered(field: string)
    requires NamedWeekdays(field).Ok?
    ensures !AnyNumbered(Split(NamedWeekdays(field).value, ','))
  {
    hide Split, NamedItems, AnyNumbered;
    NamedFieldSplits(field);
    NamedItemsNotNumbered(Split(field, ','));
  }

  lemma PromotedAreWords(fields: seq<string>, days: string)
    requires |fields| == 5 && AllWords(fields) && IsWord(days)
    ensures AllWords(Promoted(fields, days))
  {
  }

  /**
   For every five-field expression accepted, what is stored has the same minute, hour, day and month, fires on the
   minute, and means to the crate exactly the days that were typed.
   */
  lemma StoringKeepsTheMeaning(other: Reading, expression: string)
    requires |Words(expression)| == 5 && NormalizedCron(expression).Ok?
    ensures var typed, stored := Words(expression), Words(NormalizedCron(expression).value);
            && |stored| == 6 && stored[0] == "0" && stored[1..5] == typed[..4]
            && CrateField(other, Split(stored[5], ',')) == TypedField(other, Split(typed[4], ','))
  {
    hide NamedWeekdays, CrateField, TypedField, Split, Words, Join;
    FiveFieldsStored(expression);
    NamingKeepsTheDays(other, Words(expression)[4]);
  }

  /** What is stored, stored again, is itself. */
  lemma StoringIsIdempotent(expression: string)
    requires NormalizedCron(expression).Ok?
    ensures NormalizedCron(NormalizedCron(expression).value) == NormalizedCron(expression)
    ensures |Words(NormalizedCron(expression).value)| != 5
  {
    hide NamedWeekdays, Trim, Words, Join;
    var stored := NormalizedCron(expression).value;
    if |Words(expression)| == 5 {
      FiveFieldsStored(expression);
      JoinIsTrimmed(Words(stored));
      TrimOfTrimmed(stored);
    } else {
      WordsTrim(expression);
      TrimTrims(expression);
      TrimOfTrimmed(stored);
    }
  }

  /** The expressions there are to display: those that were stored. */
  ghost predicate Stored(stored: string) {
    NormalizedCron(stored) == Ok(stored) && |Words(stored)| != 5
  }

  lemma DisplayedWords(stored: string)
    requires Displayable(stored)
    ensures var fields := Words(stored);
            Words(DisplayCron(stored)) == fields[1..] && NormalizedCron(DisplayCron(stored)) == Ok(Join(fields, ' '))
  {
    hide Words, AnyNumbered, NamedWeekdays, Split;
    var fields := Words(stored);
    assert AllWords(fields[1..]);
    WordsJoin(fields[1..]);
    NamesStayNamed(fields[5]);
    assert ["0"] + fields[1..][..4] + [fields[5]] == fields;
  }

  /**
   Displayed and stored again, an expression is itself exactly when it has no five-field form or its fields stand
   one space apart. Either way it has the same fields.
   */
  lemma DisplayRoundTrip(stored: string)
    requires Stored(stored)
    ensures NormalizedCron(DisplayCron(stored)) == Ok(stored) <==>
            !Displayable(stored) || stored == Join(Words(stored), ' ')
    ensures NormalizedCron(DisplayCron(stored)).Ok? && Words(NormalizedCron(DisplayCron(stored)).value) == Words(stored)
  {
    if Displayable(stored) {
      hide Words, Join, NormalizedCron, DisplayCron;
      DisplayedWords(stored);
      WordsJoin(Words(stored));
    }
  }

  /** Whatever was typed in five fields, the display of what is stored is stored as it was. */
  lemma FiveFieldsRoundTrip(expression: string)
    requires |Words(expression)| == 5 && NormalizedCron(expression).Ok?
    ensures NormalizedCron(DisplayCron(NormalizedCron(expression).value)) == NormalizedCron(expression)
  {
    hide Words, Join, DisplayCron, Displayable, NormalizedCron;
    StoringIsIdempotent(expression);
    FiveFieldsStored(expression);
    DisplayRoundTrip(NormalizedCron(expression).value);
  }

  /** Fields with two spaces after the first. */
  function TwoSpaces(fields: seq<string>): string
    requires |fields| == 6
  {
    fields[0] + ("  " + Join(fields[1..], ' '))
  }

  lemma TwoSpacesStored(fields: seq<string>)
    requires |fields| == 6 && AllWords(fields)
    ensures Words(TwoSpaces(fields)) == fields && Stored(TwoSpaces(fields)) && TwoSpaces(fields) != Join(fields, ' ')
  {
    hide Words, Join;
    var text, tail := TwoSpaces(fields), Join(fields[1..], ' ');
    JoinIsTrimmed(fields[1..]);
    WordsJoin(fields[1..]);
    assert IsWord(fields[0]);
    WordFirst(fields[0], "  " + tail);
    SpacesFirst(tail);
    assert fields == [fields[0]] + fields[1..];
    assert text[|text| - 1] == tail[|tail| - 1];
    TrimOfTrimmed(text);
    JoinLength(fields);
  }

  lemma SpacesFirst(tail: string)
    ensures Words("  " + tail) == Words(tail)
  {
    assert ("  " + tail)[1..] == " " + tail && (" " + tail)[1..] == tail;
  }

  lemma JoinLength(fields: seq<string>)
    requires |fields| > 1
    ensures |Join(fields, ' ')| == |fields[0]| + 1 + |Join(fields[1..], ' ')|
  {
  }

  lemma NineOnMondays(fields: seq<string>)
    requires fields == ["0", "9", "*", "*", "*", "MON"]
    ensures AllWords(fields) && !AnyNumbered(Split(fields[5], ','))
  {
    NamesAreDays(1);
    NameNotNumbered(1);
    assert DayName(1) == "MON";
    hide NumbersADay;
    SplitOnceNot("MON", ',');
  }

  /** `0  9 * * * MON`, with two spaces, is stored as it is, and comes back from its display with one. */
  lemma RoundTripCanFail(fields: seq<string>)
    requires fields == ["0", "9", "*", "*", "*", "MON"]
    ensures Stored(TwoSpaces(fields)) && NormalizedCron(DisplayCron(TwoSpaces(fields))) != Ok(TwoSpaces(fields))
  {
    hide Words, Join, Stored, NormalizedCron, DisplayCron, AnyNumbered, TwoSpaces;
    NineOnMondays(fields);
    TwoSpacesStored(fields);
    DisplayRoundTrip(TwoSpaces(fields));
  }

  /** Five fields never wake more than once a minute; any other expression does unless its seconds are `0`. */
  lemma FiveFieldsAreSlow(expression: string)
    ensures var fields := Words(expression);
            UnderAMinute(expression) <==> |fields| != 5 && (fields == [] || fields[0] != "0")
  {
    hide NamedWeekdays, Words, Join, Trim;
    if |Words(expression)| == 5 {
      if NormalizedCron(expression).Ok? {
        FiveFieldsStored(expression);
      }
    } else {
      WordsTrim(expression);
    }
  }
}
