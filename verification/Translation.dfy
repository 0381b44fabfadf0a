/** `graph_recurrence_to_rrule` (app/conversion/ics.py). */
module Translation {
  import opened Wrappers
  import opened Text
  import opened Days
  import opened Rules
  import opened Recurrence
  import opened RecurrenceText

  /** `",".join(_DAY_MAP[d] for d in ...)`. */
  function JoinDays(p: Pattern): Result<string, Error> {
    match MapDays(DayNames(p))
    case Failure(e) => Failure(e)
    case Success(days) => Success(Join(DayCodes(days), ','))
  }

  function One(field: Result<Field, Error>): Result<seq<Field>, Error> {
    match field
    case Failure(e) => Failure(e)
    case Success(f) => Success([f])
  }

  function Part(key: Key, value: string): string {
    FieldText(Field(key, value))
  }

  /** The parts are those of the fields, or the error is raised. */
  ghost predicate Wrote(fields: Result<seq<Field>, Error>, parts: seq<string>, error: Option<Error>) {
    if fields.Failure? then error == Some(fields.error) else error == None && parts == FieldTexts(fields.value)
  }

  ghost function After(before: seq<Field>, fields: Result<seq<Field>, Error>): Result<seq<Field>, Error> {
    if fields.Failure? then fields else Success(before + fields.value)
  }

  /** The branches that turn the pattern into the first parts of the rule. */
  method AppendPattern(p: Pattern) returns (parts: seq<string>, error: Option<Error>)
    ensures Wrote(PatternFields(p), parts, error)
  {
    parts, error := [], None;
    match KindOf(p.patternType)
    case None => error := Some(UnsupportedPattern(p.patternType));
    case Some(KDaily) =>
      parts := parts + [Part(FREQ, "DAILY")];
      AppendFirst(Field(FREQ, "DAILY"));
    case Some(KWeekly) => parts, error := AppendWeekly(p);
    case Some(KAbsoluteMonthly) => parts, error := AppendMonthly(p, false);
    case Some(KRelativeMonthly) => parts, error := AppendMonthly(p, true);
    case Some(KAbsoluteYearly) => parts, error := AppendYearly(p, false);
    case Some(KRelativeYearly) => parts, error := AppendYearly(p, true);
  }

  /** A weekly pattern writes its weekdays only when it names some. */
  method AppendWeekly(p: Pattern) returns (parts: seq<string>, error: Option<Error>)
    ensures Wrote(WeeklyFields(p), parts, error)
  {
    ghost var freq := Field(FREQ, "WEEKLY");
    parts, error := [Part(FREQ, "WEEKLY")], None;
    AppendFirst(freq);
    var days := JoinDays(p);
    if days.Failure? {
      error := Some(days.error);
    } else if days.value != "" {
      parts := parts + [Part(BYDAY, days.value)];
      Append([freq], Field(BYDAY, days.value));
    }
  }

  method AppendMonthly(p: Pattern, relative: bool) returns (parts: seq<string>, error: Option<Error>)
    ensures Wrote(MonthlyFields(p, relative), parts, error)
  {
    ghost var freq := Field(FREQ, "MONTHLY");
    parts := [Part(FREQ, "MONTHLY")];
    AppendFirst(freq);
    assert parts == FieldTexts([freq]);
    if relative {
      error, parts := AppendRelative(p, parts, [freq]);
    } else {
      error, parts := AppendNumber(BYMONTHDAY, p.dayOfMonth, "dayOfMonth", parts, [freq]);
    }
  }

  /** Both yearly branches begin with the month. */
  method AppendYearly(p: Pattern, relative: bool) returns (parts: seq<string>, error: Option<Error>)
    ensures Wrote(YearlyFields(p, relative), parts, error)
  {
    ghost var freq := Field(FREQ, "YEARLY");
    parts := [Part(FREQ, "YEARLY")];
    AppendFirst(freq);
    error, parts := AppendNumber(BYMONTH, p.month, "month", parts, [freq]);
    if error.Some? {
      return;
    }
    ghost var month := Field(BYMONTH, IntText(p.month.value));
    assert [freq] + [month] == [freq, month];
    if relative {
      error, parts := AppendRelative(p, parts, [freq, month]);
    } else {
      error, parts := AppendNumber(BYMONTHDAY, p.dayOfMonth, "dayOfMonth", parts, [freq, month]);
    }
  }

  method AppendNumber(key: Key, value: Option<int>, name: string, before: seq<string>, ghost fields: seq<Field>)
    returns (error: Option<Error>, parts: seq<string>)
    requires before == FieldTexts(fields)
    ensures Wrote(After(fields, One(NumberField(key, value, name))), parts, error)
  {
    parts, error := before, None;
    if value.None? {
      error := Some(KeyError(name));
    } else {
      parts := parts + [Part(key, IntText(value.value))];
      Append(fields, Field(key, IntText(value.value)));
    }
  }

  /** The weekday list and the position of a relative pattern. */
  method AppendRelative(p: Pattern, before: seq<string>, ghost fields: seq<Field>)
    returns (error: Option<Error>, parts: seq<string>)
    requires before == FieldTexts(fields)
    ensures Wrote(After(fields, RelativeFields(p)), parts, error)
  {
    parts, error := before, None;
    var days := JoinDays(p);
    if days.Failure? {
      return Some(days.error), parts;
    }
    parts := parts + [Part(BYDAY, days.value)];
    ghost var daysField := Field(BYDAY, days.value);
    Append(fields, daysField);
    if p.index.None? {
      return Some(KeyError("index")), parts;
    }
    if p.index.value !in INDEX_MAP {
      return Some(KeyError(p.index.value)), parts;
    }
    parts := parts + [Part(BYSETPOS, IntText(INDEX_MAP[p.index.value]))];
    ghost var position := Field(BYSETPOS, IntText(INDEX_MAP[p.index.value]));
    Append(fields + [daysField], position);
    assert fields + [daysField] + [position] == fields + [daysField, position];
  }

  /** The end condition; a range of any other type adds nothing. */
  method AppendRange(r: Range, before: seq<string>, ghost fields: seq<Field>)
    returns (error: Option<Error>, parts: seq<string>)
    requires before == FieldTexts(fields)
    ensures Wrote(After(fields, RangeFields(r)), parts, error)
  {
    parts, error := before, None;
    if r.rangeType == "endDate" {
      if r.endDate.None? {
        error := Some(KeyError("endDate"));
      } else {
        var endDate := Remove(r.endDate.value, '-');
        parts := parts + [Part(UNTIL, endDate + "T235959Z")];
        Append(fields, Field(UNTIL, endDate + "T235959Z"));
      }
    } else if r.rangeType == "numbered" {
      error, parts := AppendNumber(COUNT, r.numberOfOccurrences, "numberOfOccurrences", parts, fields);
    } else {
      assert fields + [] == fields;
    }
  }

  method GraphRecurrenceToRrule(recurrence: GraphRecurrence) returns (text: Result<string, Error>)
    ensures text == TextOf(recurrence)
    ensures text.Success? <==> Translatable(recurrence)
    ensures Translatable(recurrence) ==> text == Success(RuleText(recurrence))
    ensures Supported(recurrence) ==> text.Success? && ParseRule(text.value) == Some(RuleFor(recurrence))
  {
    hide Supported, Translatable, RuleText, RuleFor, ParseRule, PatternFields, RangeFields, FieldText, IntText;
    TextIs(recurrence);
    if Supported(recurrence) {
      EmittedRule(recurrence);
    }
    var p := recurrence.pattern;
    var parts, error := AppendPattern(p);
    if error.Some? {
      return Failure(error.value);
    }
    ghost var fields := PatternFields(p).value;
    parts := parts + [Part(INTERVAL, IntText(Interval(p)))];
    ghost var interval := Field(INTERVAL, IntText(Interval(p)));
    Append(fields, interval);
    if FirstDay(p) !in DAY_MAP {
      return Failure(KeyError(FirstDay(p)));
    }
    parts := parts + [Part(WKST, DayCode(DAY_MAP[FirstDay(p)]))];
    ghost var wkst := Field(WKST, DayCode(DAY_MAP[FirstDay(p)]));
    Append(fields + [interval], wkst);
    assert fields + [interval] + [wkst] == fields + [interval, wkst];
    error, parts := AppendRange(recurrence.range, parts, fields + [interval, wkst]);
    if error.Some? {
      return Failure(error.value);
    }
    text := Success(Join(parts, ';'));
  }
}
