/** Graph recurrences, their translation to an RRULE and what both mean (app/conversion/ics.py). */
module Recurrence {
  import opened Wrappers
  import opened Text
  import opened Days
  import opened Rules

  /** `recurrence["pattern"]`; absent keys are None. */
  datatype Pattern = Pattern(
    patternType: string,
    interval: Option<int>,
    daysOfWeek: Option<seq<string>>,
    dayOfMonth: Option<int>,
    month: Option<int>,
    index: Option<string>,
    firstDayOfWeek: Option<string>
  )

  /** `recurrence["range"]`. */
  datatype Range = Range(rangeType: string, endDate: Option<string>, numberOfOccurrences: Option<int>)

  datatype GraphRecurrence = GraphRecurrence(pattern: Pattern, range: Range)

  datatype Error = UnsupportedPattern(patternType: string) | KeyError(key: string)

  const DAY_MAP: map<string, Weekday> := map[
    "monday" := Monday, "tuesday" := Tuesday, "wednesday" := Wednesday, "thursday" := Thursday,
    "friday" := Friday, "saturday" := Saturday, "sunday" := Sunday
  ]

  const INDEX_MAP: map<string, int> := map["first" := 1, "second" := 2, "third" := 3, "fourth" := 4, "last" := -1]

  datatype Kind = KDaily | KWeekly | KAbsoluteMonthly | KRelativeMonthly | KAbsoluteYearly | KRelativeYearly

  function KindOf(patternType: string): Option<Kind> {
    if patternType == "daily" then Some(KDaily)
    else if patternType == "weekly" then Some(KWeekly)
    else if patternType == "absoluteMonthly" then Some(KAbsoluteMonthly)
    else if patternType == "relativeMonthly" then Some(KRelativeMonthly)
    else if patternType == "absoluteYearly" then Some(KAbsoluteYearly)
    else if patternType == "relativeYearly" then Some(KRelativeYearly)
    else None
  }

  function Get<T>(value: Option<T>, key: string): Result<T, Error> {
    match value
    case Some(v) => Success(v)
    case None => Failure(KeyError(key))
  }

  /** `_DAY_MAP[d]` for every listed day; the first unknown one is a KeyError. */
  function MapDays(names: seq<string>): Result<seq<Weekday>, Error> {
    if |names| == 0 then Success([])
    else if names[0] !in DAY_MAP then Failure(KeyError(names[0]))
    else
      match MapDays(names[1..])
      case Failure(e) => Failure(e)
      case Success(days) => Success([DAY_MAP[names[0]]] + days)
  }

  function DayNames(p: Pattern): seq<string> {
    if p.daysOfWeek.Some? then p.daysOfWeek.value else []
  }

  // ---- the fields the translation writes ------------------------------------

  function DaysField(p: Pattern): Result<Field, Error> {
    match MapDays(DayNames(p))
    case Failure(e) => Failure(e)
    case Success(days) => Success(Field(BYDAY, Join(DayCodes(days), ',')))
  }

  function NumberField(key: Key, value: Option<int>, name: string): Result<Field, Error> {
    match value
    case None => Failure(KeyError(name))
    case Some(v) => Success(Field(key, IntText(v)))
  }

  function PositionField(p: Pattern): Result<Field, Error> {
    match p.index
    case None => Failure(KeyError("index"))
    case Some(index) =>
      if index in INDEX_MAP then Success(Field(BYSETPOS, IntText(INDEX_MAP[index]))) else Failure(KeyError(index))
  }

  function PatternFields(p: Pattern): Result<seq<Field>, Error> {
    match KindOf(p.patternType)
    case None => Failure(UnsupportedPattern(p.patternType))
    case Some(KDaily) => Success([Field(FREQ, "DAILY")])
    case Some(KWeekly) => WeeklyFields(p)
    case Some(KAbsoluteMonthly) => MonthlyFields(p, false)
    case Some(KRelativeMonthly) => MonthlyFields(p, true)
    case Some(KAbsoluteYearly) => YearlyFields(p, false)
    case Some(KRelativeYearly) => YearlyFields(p, true)
  }

  function RelativeFields(p: Pattern): Result<seq<Field>, Error> {
    var days :- DaysField(p);
    var position :- PositionField(p);
    Success([days, position])
  }

  function WeeklyFields(p: Pattern): Result<seq<Field>, Error> {
    var days :- DaysField(p);
    Success(if days.value == "" then [Field(FREQ, "WEEKLY")] else [Field(FREQ, "WEEKLY")] + [days])
  }

  function MonthlyFields(p: Pattern, relative: bool): Result<seq<Field>, Error> {
    if relative then
      var tail :- RelativeFields(p);
      Success([Field(FREQ, "MONTHLY")] + tail)
    else
      var day :- NumberField(BYMONTHDAY, p.dayOfMonth, "dayOfMonth");
      Success([Field(FREQ, "MONTHLY")] + [day])
  }

  function YearlyFields(p: Pattern, relative: bool): Result<seq<Field>, Error> {
    var month :- NumberField(BYMONTH, p.month, "month");
    if relative then
      var tail :- RelativeFields(p);
      Success([Field(FREQ, "YEARLY"), month] + tail)
    else
      var day :- NumberField(BYMONTHDAY, p.dayOfMonth, "dayOfMonth");
      Success([Field(FREQ, "YEARLY"), month] + [day])
  }

  function Interval(p: Pattern): int {
    if p.interval.Some? then p.interval.value else 1
  }

  function FirstDay(p: Pattern): string {
    if p.firstDayOfWeek.Some? then p.firstDayOfWeek.value else "sunday"
  }

  function RangeFields(r: Range): Result<seq<Field>, Error> {
    if r.rangeType == "endDate" then
      var end :- Get(r.endDate, "endDate");
      Success([Field(UNTIL, Remove(end, '-') + "T235959Z")])
    else if r.rangeType == "numbered" then
      var n :- NumberField(COUNT, r.numberOfOccurrences, "numberOfOccurrences");
      Success([n])
    else Success([])
  }

  function FieldsOf(recurrence: GraphRecurrence): Result<seq<Field>, Error> {
    var p := recurrence.pattern;
    var fields :- PatternFields(p);
    if FirstDay(p) !in DAY_MAP then Failure(KeyError(FirstDay(p)))
    else
      var ending :- RangeFields(recurrence.range);
      var middle := [Field(INTERVAL, IntText(Interval(p))), Field(WKST, DayCode(DAY_MAP[FirstDay(p)]))];
      Success(fields + middle + ending)
  }

  lemma Append(fields: seq<Field>, field: Field)
    ensures FieldTexts(fields + [field]) == FieldTexts(fields) + [FieldText(field)]
  {
    assert (fields + [field])[..|fields|] == fields;
  }

  lemma AppendFirst(field: Field)
    ensures FieldTexts([field]) == [FieldText(field)]
  {
    Append([], field);
    assert [] + [field] == [field];
  }

  function TextOf(recurrence: GraphRecurrence): Result<string, Error> {
    match FieldsOf(recurrence)
    case Failure(e) => Failure(e)
    case Success(fields) => Success(Join(FieldTexts(fields), ';'))
  }

  // ---- supported recurrences ------------------------------------------------

  /** `YYYY-MM-DD`. */
  function IsoDate(s: string): Option<nat> {
    if |s| == 10 && s[4] == '-' && s[7] == '-' then ParseDate(s[..4] + s[5..7] + s[8..]) else None
  }

  predicate NamesWeekdays(p: Pattern) {
    |DayNames(p)| > 0 && forall d :: d in DayNames(p) ==> d in DAY_MAP
  }

  predicate NumberIn(value: Option<int>, lo: int, hi: int) {
    value.Some? && lo <= value.value <= hi
  }

  predicate NamesPosition(p: Pattern) {
    p.index.Some? && p.index.value in INDEX_MAP
  }

  predicate SupportedPattern(p: Pattern) {
    Interval(p) >= 1 && FirstDay(p) in DAY_MAP &&
    match KindOf(p.patternType)
    case None => false
    case Some(KDaily) => true
    case Some(KWeekly) => NamesWeekdays(p)
    case Some(KAbsoluteMonthly) => NumberIn(p.dayOfMonth, 1, 31)
    case Some(KRelativeMonthly) => NamesWeekdays(p) && NamesPosition(p)
    case Some(KAbsoluteYearly) => NumberIn(p.month, 1, 12) && NumberIn(p.dayOfMonth, 1, 31)
    case Some(KRelativeYearly) => NumberIn(p.month, 1, 12) && NamesWeekdays(p) && NamesPosition(p)
  }

  predicate SupportedRange(r: Range) {
    (r.rangeType == "endDate" ==> r.endDate.Some? && IsoDate(r.endDate.value).Some?) &&
    (r.rangeType == "numbered" ==> r.numberOfOccurrences.Some? && r.numberOfOccurrences.value >= 1)
  }

  predicate Supported(recurrence: GraphRecurrence) {
    SupportedPattern(recurrence.pattern) && SupportedRange(recurrence.range)
  }

  function Weekdays(names: seq<string>): seq<Weekday>
    requires forall d :: d in names ==> d in DAY_MAP
  {
    if |names| == 0 then [] else [DAY_MAP[names[0]]] + Weekdays(names[1..])
  }

  function EndingFor(r: Range): Ending
    requires SupportedRange(r)
  {
    if r.rangeType == "endDate" then Until(IsoDate(r.endDate.value).value, DAY_SECONDS - 1)
    else if r.rangeType == "numbered" then Count(r.numberOfOccurrences.value)
    else Forever
  }

  /** The rule a supported recurrence stands for. */
  function RuleFor(recurrence: GraphRecurrence): Rule
    requires Supported(recurrence)
  {
    var p := recurrence.pattern;
    var kind := KindOf(p.patternType).value;
    var relative := kind.KRelativeMonthly? || kind.KRelativeYearly?;
    Rule(
      match kind
      case KDaily => Daily
      case KWeekly => Weekly
      case KAbsoluteMonthly | KRelativeMonthly => Monthly
      case KAbsoluteYearly | KRelativeYearly => Yearly,
      if kind.KAbsoluteYearly? || kind.KRelativeYearly? then Some(p.month.value) else None,
      if kind.KAbsoluteMonthly? || kind.KAbsoluteYearly? then Some(p.dayOfMonth.value) else None,
      if kind.KWeekly? || relative then Some(Weekdays(DayNames(p))) else None,
      if relative then Some(INDEX_MAP[p.index.value]) else None,
      Interval(p),
      DAY_MAP[FirstDay(p)],
      EndingFor(recurrence.range)
    )
  }

  // ---- the emitted rule parses back -----------------------------------------

  lemma {:induction false} MapDaysTotal(names: seq<string>)
    requires forall d :: d in names ==> d in DAY_MAP
    ensures MapDays(names) == Success(Weekdays(names))
    ensures |Weekdays(names)| == |names|
  {
    if |names| > 0 {
      MapDaysTotal(names[1..]);
    }
  }

  lemma {:induction false} JoinPlain(parts: seq<string>, sep: char)
    requires Plain([sep]) && forall part :: part in parts ==> Plain(part)
    ensures Plain(Join(parts, sep))
  {
    if |parts| > 1 {
      var rest := Join(parts[1..], sep);
      JoinPlain(parts[1..], sep);
      assert Plain(parts[0]) && Plain(rest);
      assert Join(parts, sep) == parts[0] + [sep] + rest;
    }
  }

  lemma DaysFieldReads(p: Pattern, draft: Draft)
    requires NamesWeekdays(p) && draft.byDay == None
    ensures DaysField(p).Success? && DaysField(p).value.key == BYDAY
    ensures Plain(DaysField(p).value.value) && DaysField(p).value.value != ""
    ensures AddField(draft, DaysField(p).value) == Some(draft.(byDay := Some(Weekdays(DayNames(p)))))
  {
    var days := Weekdays(DayNames(p));
    MapDaysTotal(DayNames(p));
    DaysRoundTrip(days);
    JoinPlain(DayCodes(days), ',');
    SplitJoinFree(DayCodes(days), ',');
    assert |DayCode(days[0])| == 2;
  }

  lemma NumberReads(value: int)
    ensures Plain(IntText(value)) && ParseInt(IntText(value)) == Some(value)
    ensures value >= 0 ==> ParseNat(IntText(value)) == Some(value)
  {
    IntRoundTrip(value);
  }

  /** The draft after the pattern's own parts. */
  ghost function PatternDraft(p: Pattern): Draft
    requires SupportedPattern(p)
  {
    var rule := RuleFor(GraphRecurrence(p, Range("noEnd", None, None)));
    BLANK.(freq := Some(rule.freq), byMonth := rule.byMonth, byMonthDay := rule.byMonthDay,
           byDay := rule.byDay, bySetPos := rule.bySetPos)
  }

  ghost predicate Reads(fields: seq<Field>, draft: Draft) {
    AddFields(BLANK, fields) == Some(draft) && forall f :: f in fields ==> Plain(f.value)
  }

  lemma ReadsMore(fields: seq<Field>, draft: Draft, field: Field, next: Draft)
    requires Reads(fields, draft) && Plain(field.value) && AddField(draft, field) == Some(next)
    ensures Reads(fields + [field], next)
  {
    AddFieldsConcat(BLANK, fields, [field]);
    assert [field][1..] == [];
  }

  lemma FrequencyReads(value: string, freq: Frequency)
    requires (value, freq) in {("DAILY", Daily), ("WEEKLY", Weekly), ("MONTHLY", Monthly), ("YEARLY", Yearly)}
    ensures Reads([Field(FREQ, value)], BLANK.(freq := Some(freq)))
  {
    ReadsMore([], BLANK, Field(FREQ, value), BLANK.(freq := Some(freq)));
    assert [] + [Field(FREQ, value)] == [Field(FREQ, value)];
  }

  lemma MonthDayReads(p: Pattern, fields: seq<Field>, draft: Draft)
    requires NumberIn(p.dayOfMonth, 1, 31) && Reads(fields, draft) && draft.byMonthDay == None
    ensures Reads(fields + [Field(BYMONTHDAY, IntText(p.dayOfMonth.value))],
                  draft.(byMonthDay := Some(p.dayOfMonth.value)))
  {
    NumberReads(p.dayOfMonth.value);
    ReadsMore(fields, draft, Field(BYMONTHDAY, IntText(p.dayOfMonth.value)),
              draft.(byMonthDay := Some(p.dayOfMonth.value)));
  }

  lemma MonthReads(p: Pattern, fields: seq<Field>, draft: Draft)
    requires NumberIn(p.month, 1, 12) && Reads(fields, draft) && draft.byMonth == None
    ensures Reads(fields + [Field(BYMONTH, IntText(p.month.value))], draft.(byMonth := Some(p.month.value)))
  {
    NumberReads(p.month.value);
    ReadsMore(fields, draft, Field(BYMONTH, IntText(p.month.value)), draft.(byMonth := Some(p.month.value)));
  }

  lemma RelativeReads(p: Pattern, fields: seq<Field>, draft: Draft)
    requires NamesWeekdays(p) && NamesPosition(p) && Reads(fields, draft)
    requires draft.byDay == None && draft.bySetPos == None
    ensures RelativeFields(p).Success?
    ensures Reads(fields + RelativeFields(p).value,
                  draft.(byDay := Some(Weekdays(DayNames(p))), bySetPos := Some(INDEX_MAP[p.index.value])))
  {
    DaysFieldReads(p, draft);
    var days, position := DaysField(p).value, PositionField(p).value;
    var next := draft.(byDay := Some(Weekdays(DayNames(p))));
    ReadsMore(fields, draft, days, next);
    NumberReads(INDEX_MAP[p.index.value]);
    ReadsMore(fields + [days], next, position, next.(bySetPos := Some(INDEX_MAP[p.index.value])));
    assert fields + [days] + [position] == fields + [days, position];
  }

  lemma YearlyReads(p: Pattern, relative: bool, draft: Draft)
    requires NumberIn(p.month, 1, 12)
    requires if relative then NamesWeekdays(p) && NamesPosition(p) else NumberIn(p.dayOfMonth, 1, 31)
    requires draft == BLANK.(freq := Some(Yearly), byMonth := Some(p.month.value))
    ensures YearlyFields(p, relative).Success?
    ensures Reads(YearlyFields(p, relative).value,
                  if relative then
                    draft.(byDay := Some(Weekdays(DayNames(p))), bySetPos := Some(INDEX_MAP[p.index.value]))
                  else draft.(byMonthDay := Some(p.dayOfMonth.value)))
  {
    var freq, month := Field(FREQ, "YEARLY"), Field(BYMONTH, IntText(p.month.value));
    FrequencyReads("YEARLY", Yearly);
    MonthReads(p, [freq], BLANK.(freq := Some(Yearly)));
    assert [freq] + [month] == [freq, month];
    if relative {
      RelativeReads(p, [freq, month], draft);
    } else {
      MonthDayReads(p, [freq, month], draft);
    }
  }

  lemma WeeklyReads(p: Pattern, draft: Draft)
    requires NamesWeekdays(p) && draft == BLANK.(freq := Some(Weekly))
    ensures DaysField(p).Success? && DaysField(p).value.value != ""
    ensures Reads([Field(FREQ, "WEEKLY")] + [DaysField(p).value], draft.(byDay := Some(Weekdays(DayNames(p)))))
  {
    FrequencyReads("WEEKLY", Weekly);
    DaysFieldReads(p, draft);
    ReadsMore([Field(FREQ, "WEEKLY")], draft, DaysField(p).value, draft.(byDay := Some(Weekdays(DayNames(p)))));
  }

  lemma PatternReads(p: Pattern)
    requires SupportedPattern(p)
    ensures PatternFields(p).Success? && Reads(PatternFields(p).value, PatternDraft(p))
  {
    match KindOf(p.patternType).value
    case KDaily => FrequencyReads("DAILY", Daily);
    case KWeekly => WeeklyReads(p, BLANK.(freq := Some(Weekly)));
    case KAbsoluteMonthly =>
      FrequencyReads("MONTHLY", Monthly);
      MonthDayReads(p, [Field(FREQ, "MONTHLY")], BLANK.(freq := Some(Monthly)));
    case KRelativeMonthly =>
      FrequencyReads("MONTHLY", Monthly);
      RelativeReads(p, [Field(FREQ, "MONTHLY")], BLANK.(freq := Some(Monthly)));
    case KAbsoluteYearly => YearlyReads(p, false, BLANK.(freq := Some(Yearly), byMonth := Some(p.month.value)));
    case KRelativeYearly => YearlyReads(p, true, BLANK.(freq := Some(Yearly), byMonth := Some(p.month.value)));
  }

  lemma {:induction false} RemoveConcat(a: string, b: string, c: char)
    ensures Remove(a + b, c) == Remove(a, c) + Remove(b, c)
  {
    if a == "" {
      assert a + b == b;
    } else {
      assert (a + b)[1..] == a[1..] + b;
      RemoveConcat(a[1..], b, c);
    }
  }

  lemma {:induction false} RemoveFree(a: string, c: char)
    requires c !in a
    ensures Remove(a, c) == a
  {
    if a != "" {
      RemoveFree(a[1..], c);
    }
  }

  /** Dropping the hyphens leaves the eight digits of the date. */
  lemma EndDateDigits(s: string)
    requires |s| == 10 && s[4] == '-' && s[7] == '-'
    requires IsNumeral(s[..4]) && IsNumeral(s[5..7]) && IsNumeral(s[8..])
    ensures Remove(s, '-') == s[..4] + (s[5..7] + s[8..])
  {
    SplitOff(s, 4);
    SplitOff(s[5..], 2);
    assert s[4..][1..] == s[5..] && s[5..][2..] == s[7..] && s[5..][..2] == s[5..7] && s[7..][1..] == s[8..];
    NumeralKeeps(s[..4]);
    NumeralKeeps(s[5..7]);
    NumeralKeeps(s[8..]);
    assert Remove(s[4..], '-') == Remove(s[5..], '-') && Remove(s[7..], '-') == Remove(s[8..], '-');
  }

  lemma PlainConcat(a: string, b: string)
    requires Plain(a) && Plain(b)
    ensures Plain(a + b)
  {
  }

  lemma NumeralKeeps(s: string)
    requires IsNumeral(s)
    ensures Remove(s, '-') == s && Plain(s)
  {
    RemoveFree(s, '-');
  }

  lemma IsoShape(s: string)
    requires IsoDate(s).Some?
    ensures |s| == 10 && s[4] == '-' && s[7] == '-'
    ensures IsNumeral(s[..4]) && IsNumeral(s[5..7]) && IsNumeral(s[8..])
  {
    var year, month, day := s[..4], s[5..7], s[8..];
    var digits := year + month + day;
    assert digits[..4] == year && digits[4..6] == month && digits[6..] == day;
  }

  lemma SplitOff(s: string, n: nat)
    requires n <= |s|
    ensures Remove(s, '-') == Remove(s[..n], '-') + Remove(s[n..], '-')
  {
    assert s == s[..n] + s[n..];
    RemoveConcat(s[..n], s[n..], '-');
  }

  lemma UntilPlain(s: string)
    requires IsoDate(s).Some?
    ensures Remove(s, '-') == s[..4] + s[5..7] + s[8..] && Plain(Remove(s, '-') + "T235959Z")
  {
    hide Remove, IsoDate, IsNumeral;
    IsoShape(s);
    EndDateDigits(s);
    var year, month, day := s[..4], s[5..7], s[8..];
    assert year + (month + day) == year + month + day;
    NumeralKeeps(year);
    NumeralKeeps(month);
    NumeralKeeps(day);
    PlainConcat(month, day);
    PlainConcat(year, month + day);
    PlainConcat(Remove(s, '-'), "T235959Z");
  }

  lemma LastSecond()
    ensures ParseTime("235959") == Some(DAY_SECONDS - 1)
  {
    var time := "235959";
    assert time[..2] == "23" && time[2..4] == "59" && time[4..] == "59";
    TwoDigits("23");
    TwoDigits("59");
  }

  lemma UntilReads(s: string)
    requires IsoDate(s).Some?
    ensures Plain(Remove(s, '-') + "T235959Z")
    ensures ParseUntil(Remove(s, '-') + "T235959Z") == Some(Until(IsoDate(s).value, DAY_SECONDS - 1))
  {
    UntilPlain(s);
    LastSecond();
    var value := Remove(s, '-') + "T235959Z";
    assert value[..8] == Remove(s, '-');
    assert value[9..15] == "235959";
  }

  /** The day an end date stands for has the year, month and day of the month that are written. */
  lemma EndDateIsThatDay(s: string)
    requires IsoDate(s).Some?
    ensures var day := IsoDate(s).value;
            ParseNat(s[..4]) == Some(Year(day)) && ParseNat(s[5..7]) == Some(Month(day))
            && ParseNat(s[8..]) == Some(DayOfMonth(day))
  {
    var year, month, day := s[..4], s[5..7], s[8..];
    var digits := year + month + day;
    assert digits[..4] == year && digits[4..6] == month && digits[6..] == day;
    CivilRoundTrip(ParseNat(year).value, ParseNat(month).value, ParseNat(day).value);
  }

  lemma TwoDigits(s: string)
    requires |s| == 2 && IsNumeral(s)
    ensures ParseNat(s) == Some(10 * DigitValue(s[0]) + DigitValue(s[1]))
  {
    assert NumeralValue(s[..1]) == DigitValue(s[0]);
  }

  lemma EmittedRule(recurrence: GraphRecurrence)
    requires Supported(recurrence)
    ensures FieldsOf(recurrence).Success?
    ensures RuleOf(FieldsOf(recurrence).value) == Some(RuleFor(recurrence))
    ensures ParseRule(Join(FieldTexts(FieldsOf(recurrence).value), ';')) == Some(RuleFor(recurrence))
  {
    hide ParseRule, Join, FieldTexts, RuleOf, AddFields, AddField;
    var p, r := recurrence.pattern, recurrence.range;
    var interval, wkst := Field(INTERVAL, IntText(Interval(p))), Field(WKST, DayCode(DAY_MAP[FirstDay(p)]));
    PatternReads(p);
    MiddleReads(p, PatternFields(p).value, PatternDraft(p));
    var draft := PatternDraft(p).(interval := Some(Interval(p)), wkst := Some(DAY_MAP[FirstDay(p)]));
    RangeReads(r, PatternFields(p).value + [interval, wkst], draft);
    TextRoundTrip(FieldsOf(recurrence).value);
    FinishedDraft(recurrence);
  }

  /** The draft after all parts. */
  ghost function FullDraft(recurrence: GraphRecurrence): Draft
    requires Supported(recurrence)
  {
    var p := recurrence.pattern;
    var draft := PatternDraft(p).(interval := Some(Interval(p)), wkst := Some(DAY_MAP[FirstDay(p)]));
    match EndingFor(recurrence.range)
    case Forever => draft
    case Until(_, _) => draft.(until := Some(EndingFor(recurrence.range)))
    case Count(n) => draft.(count := Some(n))
  }

  lemma FinishedDraft(recurrence: GraphRecurrence)
    requires Supported(recurrence) && FieldsOf(recurrence).Success?
    requires AddFields(BLANK, FieldsOf(recurrence).value) == Some(FullDraft(recurrence))
    ensures RuleOf(FieldsOf(recurrence).value) == Some(RuleFor(recurrence))
  {
    hide AddFields, FieldsOf;
  }

  lemma MiddleReads(p: Pattern, fields: seq<Field>, draft: Draft)
    requires SupportedPattern(p) && Reads(fields, draft) && draft.interval == None && draft.wkst == None
    ensures Reads(fields + [Field(INTERVAL, IntText(Interval(p))), Field(WKST, DayCode(DAY_MAP[FirstDay(p)]))],
                  draft.(interval := Some(Interval(p)), wkst := Some(DAY_MAP[FirstDay(p)])))
  {
    hide AddFields, Reads, KindOf;
    var interval, wkst := Field(INTERVAL, IntText(Interval(p))), Field(WKST, DayCode(DAY_MAP[FirstDay(p)]));
    NumberReads(Interval(p));
    ReadsMore(fields, draft, interval, draft.(interval := Some(Interval(p))));
    var next := draft.(interval := Some(Interval(p)));
    DayRoundTrip(DAY_MAP[FirstDay(p)]);
    ReadsMore(fields + [interval], next, wkst, next.(wkst := Some(DAY_MAP[FirstDay(p)])));
    assert fields + [interval] + [wkst] == fields + [interval, wkst];
  }

  lemma RangeReads(r: Range, fields: seq<Field>, draft: Draft)
    requires SupportedRange(r) && Reads(fields, draft) && draft.until == None && draft.count == None
    ensures RangeFields(r).Success?
    ensures Reads(fields + RangeFields(r).value,
                  match EndingFor(r)
                  case Forever => draft
                  case Until(_, _) => draft.(until := Some(EndingFor(r)))
                  case Count(n) => draft.(count := Some(n)))
  {
    if r.rangeType == "endDate" {
      UntilReads(r.endDate.value);
      ReadsMore(fields, draft, RangeFields(r).value[0], draft.(until := Some(EndingFor(r))));
    } else if r.rangeType == "numbered" {
      NumberReads(r.numberOfOccurrences.value);
      ReadsMore(fields, draft, RangeFields(r).value[0], draft.(count := Some(r.numberOfOccurrences.value)));
    } else {
      assert fields + [] == fields;
    }
  }
}
