/** The text written for a recurrence, spelled out, and the recurrences no text is written for. */
module RecurrenceText {
  import opened Wrappers
  import opened Text
  import opened Days
  import opened Rules
  import opened Recurrence

  // ---- the text -------------------------------------------------------------

  function Upper(c: char): char
    requires 'a' <= c <= 'z'
  {
    (c as int - 32) as char
  }

  predicate IsDayName(name: string) {
    name == "monday" || name == "tuesday" || name == "wednesday" || name == "thursday"
    || name == "friday" || name == "saturday" || name == "sunday"
  }

  /** The first two letters of the name in capitals. */
  function Code(name: string): string
    requires IsDayName(name)
  {
    [Upper(name[0]), Upper(name[1])]
  }

  function Codes(names: seq<string>): string
    requires forall name :: name in names ==> IsDayName(name)
  {
    if |names| == 0 then ""
    else if |names| == 1 then Code(names[0])
    else Code(names[0]) + "," + Codes(names[1..])
  }

  predicate IsPosition(index: string) {
    index == "first" || index == "second" || index == "third" || index == "fourth" || index == "last"
  }

  function PositionText(index: string): string
    requires IsPosition(index)
  {
    if index == "first" then "1"
    else if index == "second" then "2"
    else if index == "third" then "3"
    else if index == "fourth" then "4"
    else "-1"
  }

  predicate HasDays(p: Pattern) {
    p.daysOfWeek.Some? ==> forall name :: name in p.daysOfWeek.value ==> IsDayName(name)
  }

  function DaysText(p: Pattern): string
    requires HasDays(p)
  {
    if p.daysOfWeek.Some? then Codes(p.daysOfWeek.value) else ""
  }

  predicate IsPatternType(patternType: string) {
    patternType == "daily" || patternType == "weekly" || patternType == "absoluteMonthly"
    || patternType == "relativeMonthly" || patternType == "absoluteYearly" || patternType == "relativeYearly"
  }

  /** The keys the branch of the pattern reads are there and hold names the tables know. */
  predicate Readable(p: Pattern) {
    && (p.patternType == "daily"
        || (p.patternType == "weekly" && HasDays(p))
        || (p.patternType == "absoluteMonthly" && p.dayOfMonth.Some?)
        || (p.patternType == "relativeMonthly" && HasDays(p) && p.index.Some? && IsPosition(p.index.value))
        || (p.patternType == "absoluteYearly" && p.month.Some? && p.dayOfMonth.Some?)
        || (p.patternType == "relativeYearly" && p.month.Some? && HasDays(p) && p.index.Some?
          && IsPosition(p.index.value)))
    && (p.firstDayOfWeek.Some? ==> IsDayName(p.firstDayOfWeek.value))
  }

  predicate Translatable(recurrence: GraphRecurrence) {
    var r := recurrence.range;
    Readable(recurrence.pattern)
    && (r.rangeType == "endDate" ==> r.endDate.Some?)
    && (r.rangeType == "numbered" ==> r.numberOfOccurrences.Some?)
  }

  function PatternText(p: Pattern): string
    requires Readable(p)
  {
    if p.patternType == "daily" then "FREQ=DAILY"
    else if p.patternType == "weekly" then
      if DaysText(p) == "" then "FREQ=WEEKLY" else "FREQ=WEEKLY" + (";BYDAY=" + DaysText(p))
    else if p.patternType == "absoluteMonthly" then "FREQ=MONTHLY" + (";BYMONTHDAY=" + IntText(p.dayOfMonth.value))
    else if p.patternType == "relativeMonthly" then
      "FREQ=MONTHLY" + (";BYDAY=" + DaysText(p)) + (";BYSETPOS=" + PositionText(p.index.value))
    else if p.patternType == "absoluteYearly" then
      "FREQ=YEARLY" + (";BYMONTH=" + IntText(p.month.value)) + (";BYMONTHDAY=" + IntText(p.dayOfMonth.value))
    else
      "FREQ=YEARLY" + (";BYMONTH=" + IntText(p.month.value)) + (";BYDAY=" + DaysText(p))
      + (";BYSETPOS=" + PositionText(p.index.value))
  }

  function RangeText(r: Range): string
    requires r.rangeType == "endDate" ==> r.endDate.Some?
    requires r.rangeType == "numbered" ==> r.numberOfOccurrences.Some?
  {
    if r.rangeType == "endDate" then ";UNTIL=" + (Remove(r.endDate.value, '-') + "T235959Z")
    else if r.rangeType == "numbered" then ";COUNT=" + IntText(r.numberOfOccurrences.value)
    else ""
  }

  function RuleText(recurrence: GraphRecurrence): string
    requires Translatable(recurrence)
  {
    var p := recurrence.pattern;
    PatternText(p)
    + (";INTERVAL=" + IntText(if p.interval.Some? then p.interval.value else 1))
    + (";WKST=" + Code(if p.firstDayOfWeek.Some? then p.firstDayOfWeek.value else "sunday"))
    + RangeText(recurrence.range)
  }

  // ---- the tables -----------------------------------------------------------

  lemma DayTable(name: string)
    ensures name in DAY_MAP <==> IsDayName(name)
    ensures name in DAY_MAP ==> DayCode(DAY_MAP[name]) == Code(name)
  {
  }

  lemma PositionTable(index: string)
    ensures index in INDEX_MAP <==> IsPosition(index)
    ensures index in INDEX_MAP ==> IntText(INDEX_MAP[index]) == PositionText(index)
  {
    assert Numeral(1) == "1" && Numeral(2) == "2" && Numeral(3) == "3" && Numeral(4) == "4";
    assert IntText(-1) == "-" + Numeral(1);
  }

  lemma {:induction false} MapDaysExactly(names: seq<string>)
    ensures MapDays(names).Success? <==> forall name :: name in names ==> IsDayName(name)
    ensures MapDays(names).Success? ==>
              |MapDays(names).value| == |names| && Join(DayCodes(MapDays(names).value), ',') == Codes(names)
  {
    if |names| > 0 {
      DayTable(names[0]);
      MapDaysExactly(names[1..]);
      assert names == [names[0]] + names[1..];
      if MapDays(names).Success? {
        var rest := MapDays(names[1..]).value;
        assert MapDays(names).value[1..] == rest;
        assert DayCodes(MapDays(names).value) == [DayCode(DAY_MAP[names[0]])] + DayCodes(rest);
        assert DayCodes(MapDays(names).value)[1..] == DayCodes(rest);
      }
    }
  }

  lemma DaysExactly(p: Pattern)
    ensures DaysField(p).Success? <==> HasDays(p)
    ensures DaysField(p).Success? ==> DaysField(p).value == Field(BYDAY, DaysText(p))
  {
    MapDaysExactly(DayNames(p));
  }

  // ---- the parts ------------------------------------------------------------

  function Joined(fields: seq<Field>): string {
    Join(FieldTexts(fields), ';')
  }

  /** The text of a part after the first. */
  function More(field: Field): string {
    [';'] + FieldText(field)
  }

  lemma JoinedMore(fields: seq<Field>, field: Field)
    requires |fields| >= 1
    ensures Joined(fields + [field]) == Joined(fields) + More(field)
  {
    hide Join, FieldText, FieldTexts;
    Append(fields, field);
    JoinSnoc(FieldTexts(fields), FieldText(field), ';');
    Associates(Joined(fields), [';'], FieldText(field));
  }

  lemma Associates(a: string, b: string, c: string)
    ensures a + b + c == a + (b + c)
  {
  }

  lemma JoinedOne(field: Field)
    ensures Joined([field]) == FieldText(field)
  {
    AppendFirst(field);
  }

  /** The names of the parts. */
  lemma MoreIs(v: string)
    ensures More(Field(BYDAY, v)) == ";BYDAY=" + v && More(Field(BYMONTH, v)) == ";BYMONTH=" + v
    ensures More(Field(BYMONTHDAY, v)) == ";BYMONTHDAY=" + v && More(Field(BYSETPOS, v)) == ";BYSETPOS=" + v
    ensures More(Field(INTERVAL, v)) == ";INTERVAL=" + v && More(Field(WKST, v)) == ";WKST=" + v
    ensures More(Field(UNTIL, v)) == ";UNTIL=" + v && More(Field(COUNT, v)) == ";COUNT=" + v
  {
    hide FieldText;
    MoreNamed(BYDAY, v);
    MoreNamed(BYMONTH, v);
    MoreNamed(BYMONTHDAY, v);
    MoreNamed(BYSETPOS, v);
    MoreNamed(INTERVAL, v);
    MoreNamed(WKST, v);
    MoreNamed(UNTIL, v);
    MoreNamed(COUNT, v);
  }

  lemma MoreNamed(key: Key, v: string)
    ensures More(Field(key, v)) == ([';'] + KeyName(key) + ['=']) + v
  {
  }

  lemma FrequencyIs(v: string)
    ensures FieldText(Field(FREQ, v)) == "FREQ=" + v
  {
  }

  lemma PatternExactly(p: Pattern)
    ensures FirstDay(p) in DAY_MAP ==> (PatternFields(p).Success? <==> Readable(p))
    ensures Readable(p) ==>
              PatternFields(p).Success? && |PatternFields(p).value| >= 1
                && Joined(PatternFields(p).value) == PatternText(p)
  {
    DayTable(FirstDay(p));
    DaysExactly(p);
    if p.index.Some? {
      PositionTable(p.index.value);
    }
    if Readable(p) {
      PatternJoined(p);
    }
  }

  lemma PatternJoined(p: Pattern)
    requires Readable(p)
    ensures PatternFields(p).Success? && |PatternFields(p).value| >= 1
    ensures Joined(PatternFields(p).value) == PatternText(p)
  {
    hide Joined, More, FieldText;
    DaysExactly(p);
    if p.patternType == "daily" {
      JoinedOne(Field(FREQ, "DAILY"));
      FrequencyIs("DAILY");
    } else if p.patternType == "weekly" {
      JoinedOne(Field(FREQ, "WEEKLY"));
      FrequencyIs("WEEKLY");
      JoinedMore([Field(FREQ, "WEEKLY")], DaysField(p).value);
      MoreIs(DaysText(p));
    } else if p.patternType == "absoluteMonthly" || p.patternType == "relativeMonthly" {
      MonthlyJoined(p);
    } else {
      YearlyJoined(p);
    }
  }

  lemma MonthlyJoined(p: Pattern)
    requires Readable(p) && (p.patternType == "absoluteMonthly" || p.patternType == "relativeMonthly")
    ensures PatternFields(p).Success? && |PatternFields(p).value| >= 1
    ensures Joined(PatternFields(p).value) == PatternText(p)
  {
    hide Joined, More, FieldText, RelativeFields, DaysText, IntText, PositionText, HasDays, IsPosition;
    var freq := [Field(FREQ, "MONTHLY")];
    JoinedOne(freq[0]);
    FrequencyIs("MONTHLY");
    if p.patternType == "absoluteMonthly" {
      JoinedMore(freq, Field(BYMONTHDAY, IntText(p.dayOfMonth.value)));
      MoreIs(IntText(p.dayOfMonth.value));
    } else {
      RelativeJoined(p, freq);
    }
  }

  /** What both yearly branches begin with. */
  lemma MonthJoined(p: Pattern)
    requires p.month.Some?
    ensures Joined([Field(FREQ, "YEARLY"), Field(BYMONTH, IntText(p.month.value))])
            == "FREQ=YEARLY" + (";BYMONTH=" + IntText(p.month.value))
  {
    hide Joined, More, FieldText, IntText;
    var freq, month := [Field(FREQ, "YEARLY")], Field(BYMONTH, IntText(p.month.value));
    JoinedOne(freq[0]);
    FrequencyIs("YEARLY");
    JoinedMore(freq, month);
    MoreIs(IntText(p.month.value));
    assert freq + [month] == [freq[0], month];
  }

  lemma YearlyJoined(p: Pattern)
    requires Readable(p) && (p.patternType == "absoluteYearly" || p.patternType == "relativeYearly")
    ensures PatternFields(p).Success? && |PatternFields(p).value| >= 1
    ensures Joined(PatternFields(p).value) == PatternText(p)
  {
    hide Joined, More, FieldText, RelativeFields, DaysText, IntText, PositionText, HasDays, IsPosition;
    var before := [Field(FREQ, "YEARLY"), Field(BYMONTH, IntText(p.month.value))];
    MonthJoined(p);
    if p.patternType == "absoluteYearly" {
      JoinedMore(before, Field(BYMONTHDAY, IntText(p.dayOfMonth.value)));
      MoreIs(IntText(p.dayOfMonth.value));
    } else {
      RelativeJoined(p, before);
    }
  }

  lemma RelativeJoined(p: Pattern, before: seq<Field>)
    requires HasDays(p) && p.index.Some? && IsPosition(p.index.value) && |before| >= 1
    ensures RelativeFields(p).Success?
    ensures Joined(before + RelativeFields(p).value)
            == Joined(before) + (";BYDAY=" + DaysText(p)) + (";BYSETPOS=" + PositionText(p.index.value))
  {
    hide Joined, More, FieldText;
    DaysExactly(p);
    PositionTable(p.index.value);
    var days, position := DaysField(p).value, PositionField(p).value;
    JoinedMore(before, days);
    JoinedMore(before + [days], position);
    MoreIs(DaysText(p));
    MoreIs(PositionText(p.index.value));
    assert before + [days] + [position] == before + [days, position];
  }

  /**
   A text is written exactly for the recurrences whose keys can be read, and it is this one; a pattern
   of another type is an error of its own.
   */
  lemma TextIs(recurrence: GraphRecurrence)
    ensures TextOf(recurrence).Success? <==> Translatable(recurrence)
    ensures Translatable(recurrence) ==> TextOf(recurrence) == Success(RuleText(recurrence))
    ensures var patternType := recurrence.pattern.patternType;
            if IsPatternType(patternType) then TextOf(recurrence).Failure? ==> TextOf(recurrence).error.KeyError?
            else TextOf(recurrence) == Failure(UnsupportedPattern(patternType))
  {
    hide Joined, More, FieldText, PatternText, Readable, PatternFields, RangeFields;
    var p, r := recurrence.pattern, recurrence.range;
    PatternExactly(p);
    RangeExactly(r);
    FirstDayExactly(p);
    PatternErrors(p);
    if Translatable(recurrence) {
      TextJoined(recurrence);
    }
  }

  lemma FirstDayExactly(p: Pattern)
    ensures Readable(p) ==> FirstDay(p) in DAY_MAP
  {
    DayTable(FirstDay(p));
  }

  lemma PatternErrors(p: Pattern)
    ensures if IsPatternType(p.patternType) then PatternFields(p).Failure? ==> PatternFields(p).error.KeyError?
            else PatternFields(p) == Failure(UnsupportedPattern(p.patternType))
  {
    DaysError(DayNames(p));
  }

  lemma {:induction false} DaysError(names: seq<string>)
    ensures MapDays(names).Failure? ==> MapDays(names).error.KeyError?
  {
    if |names| > 0 {
      DaysError(names[1..]);
    }
  }

  lemma RangeExactly(r: Range)
    ensures RangeFields(r).Success? <==>
              (r.rangeType == "endDate" ==> r.endDate.Some?)
                && (r.rangeType == "numbered" ==> r.numberOfOccurrences.Some?)
    ensures RangeFields(r).Failure? ==> RangeFields(r).error.KeyError?
  {
  }

  lemma TextJoined(recurrence: GraphRecurrence)
    requires Translatable(recurrence)
    ensures TextOf(recurrence) == Success(RuleText(recurrence))
  {
    hide Joined, More, FieldText, PatternText, PatternFields;
    var p, r := recurrence.pattern, recurrence.range;
    PatternExactly(p);
    DayTable(FirstDay(p));
    var fields := PatternFields(p).value;
    var interval, wkst := Field(INTERVAL, IntText(Interval(p))), Field(WKST, DayCode(DAY_MAP[FirstDay(p)]));
    JoinedMore(fields, interval);
    JoinedMore(fields + [interval], wkst);
    MoreIs(interval.value);
    MoreIs(wkst.value);
    assert fields + [interval] + [wkst] == fields + [interval, wkst];
    var before := fields + [interval, wkst];
    RangeJoined(r, before);
    FieldsJoined(recurrence, fields, before);
  }

  lemma FieldsJoined(recurrence: GraphRecurrence, fields: seq<Field>, before: seq<Field>)
    requires PatternFields(recurrence.pattern) == Success(fields) && FirstDay(recurrence.pattern) in DAY_MAP
    requires RangeFields(recurrence.range).Success?
    requires var p := recurrence.pattern;
             before == fields + [Field(INTERVAL, IntText(Interval(p))), Field(WKST, DayCode(DAY_MAP[FirstDay(p)]))]
    ensures TextOf(recurrence) == Success(Joined(before + RangeFields(recurrence.range).value))
  {
    hide PatternFields, RangeFields;
  }

  lemma RangeJoined(r: Range, before: seq<Field>)
    requires RangeFields(r).Success? && |before| >= 1
    ensures Joined(before + RangeFields(r).value) == Joined(before) + RangeText(r)
  {
    hide Joined, More, FieldText;
    if r.rangeType == "endDate" {
      JoinedMore(before, Field(UNTIL, Remove(r.endDate.value, '-') + "T235959Z"));
      MoreIs(Remove(r.endDate.value, '-') + "T235959Z");
    } else if r.rangeType == "numbered" {
      JoinedMore(before, Field(COUNT, IntText(r.numberOfOccurrences.value)));
      MoreIs(IntText(r.numberOfOccurrences.value));
    } else {
      assert before + [] == before && Joined(before) + "" == Joined(before);
    }
  }
}
