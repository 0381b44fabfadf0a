/** Recurrence rules of iCalendar: their text and the days they generate (section 3.3.10 of RFC 5545). */
module Rules {
  import opened Wrappers
  import opened Text
  import opened Days

  datatype Frequency = Daily | Weekly | Monthly | Yearly

  /** UNTIL is a day and a second of that day in UTC. */
  datatype Ending = Forever | Until(day: nat, second: nat) | Count(occurrences: nat)

  datatype Rule = Rule(
    freq: Frequency,
    byMonth: Option<nat>,
    byMonthDay: Option<int>,
    byDay: Option<seq<Weekday>>,
    bySetPos: Option<int>,
    interval: nat,
    wkst: Weekday,
    ending: Ending
  )

  // ---- text: NAME=value parts joined by semicolons --------------------------

  datatype Key = FREQ | BYMONTH | BYMONTHDAY | BYDAY | BYSETPOS | INTERVAL | WKST | UNTIL | COUNT

  datatype Field = Field(key: Key, value: string)

  function KeyName(key: Key): string {
    match key
    case FREQ => "FREQ"
    case BYMONTH => "BYMONTH"
    case BYMONTHDAY => "BYMONTHDAY"
    case BYDAY => "BYDAY"
    case BYSETPOS => "BYSETPOS"
    case INTERVAL => "INTERVAL"
    case WKST => "WKST"
    case UNTIL => "UNTIL"
    case COUNT => "COUNT"
  }

  function KeyOf(name: string): Option<Key> {
    if name == "FREQ" then Some(FREQ)
    else if name == "BYMONTH" then Some(BYMONTH)
    else if name == "BYMONTHDAY" then Some(BYMONTHDAY)
    else if name == "BYDAY" then Some(BYDAY)
    else if name == "BYSETPOS" then Some(BYSETPOS)
    else if name == "INTERVAL" then Some(INTERVAL)
    else if name == "WKST" then Some(WKST)
    else if name == "UNTIL" then Some(UNTIL)
    else if name == "COUNT" then Some(COUNT)
    else None
  }

  function FieldText(field: Field): string {
    KeyName(field.key) + ['='] + field.value
  }

  function FieldTexts(fields: seq<Field>): (texts: seq<string>)
    ensures |texts| == |fields|
  {
    if |fields| == 0 then [] else FieldTexts(fields[..|fields| - 1]) + [FieldText(fields[|fields| - 1])]
  }

  function ParseField(text: string): Option<Field> {
    var sides := Split(text, '=');
    if |sides| != 2 then None
    else
      match KeyOf(sides[0])
      case None => None
      case Some(key) => Some(Field(key, sides[1]))
  }

  function ParseFields(texts: seq<string>): Option<seq<Field>> {
    if |texts| == 0 then Some([])
    else
      match (ParseFields(texts[..|texts| - 1]), ParseField(texts[|texts| - 1]))
      case (Some(fields), Some(field)) => Some(fields + [field])
      case _ => None
  }

  function DayCode(day: Weekday): string {
    match day
    case Monday => "MO" case Tuesday => "TU" case Wednesday => "WE" case Thursday => "TH"
    case Friday => "FR" case Saturday => "SA" case Sunday => "SU"
  }

  function ParseDay(code: string): Option<Weekday> {
    if code == "MO" then Some(Monday)
    else if code == "TU" then Some(Tuesday)
    else if code == "WE" then Some(Wednesday)
    else if code == "TH" then Some(Thursday)
    else if code == "FR" then Some(Friday)
    else if code == "SA" then Some(Saturday)
    else if code == "SU" then Some(Sunday)
    else None
  }

  function DayCodes(days: seq<Weekday>): (codes: seq<string>)
    ensures |codes| == |days|
  {
    if |days| == 0 then [] else [DayCode(days[0])] + DayCodes(days[1..])
  }

  function ParseDays(codes: seq<string>): Option<seq<Weekday>> {
    if |codes| == 0 then Some([])
    else
      match (ParseDay(codes[0]), ParseDays(codes[1..]))
      case (Some(day), Some(days)) => Some([day] + days)
      case _ => None
  }

  function ParseFrequency(value: string): Option<Frequency> {
    if value == "DAILY" then Some(Daily)
    else if value == "WEEKLY" then Some(Weekly)
    else if value == "MONTHLY" then Some(Monthly)
    else if value == "YEARLY" then Some(Yearly)
    else None
  }

  /** A DATE-TIME in UTC, `YYYYMMDD "T" HHMMSS "Z"`. */
  function ParseUntil(value: string): Option<Ending> {
    if |value| == 16 && value[8] == 'T' && value[15] == 'Z' then
      match (ParseDate(value[..8]), ParseTime(value[9..15]))
      case (Some(day), Some(second)) => Some(Until(day, second))
      case _ => None
    else None
  }

  function ParseDate(digits: string): Option<nat>
    requires |digits| == 8
  {
    match (ParseNat(digits[..4]), ParseNat(digits[4..6]), ParseNat(digits[6..]))
    case (Some(year), Some(month), Some(day)) =>
      if ValidDate(year, month, day) then Some(DayNumber(year, month, day)) else None
    case _ => None
  }

  function ParseTime(digits: string): Option<nat>
    requires |digits| == 6
  {
    match (ParseNat(digits[..2]), ParseNat(digits[2..4]), ParseNat(digits[4..]))
    case (Some(hour), Some(minute), Some(second)) =>
      if hour < 24 && minute < 60 && second < 60 then Some(3600 * hour + 60 * minute + second) else None
    case _ => None
  }

  /** The parts read so far; each may be given once. */
  datatype Draft = Draft(
    freq: Option<Frequency>,
    byMonth: Option<nat>,
    byMonthDay: Option<int>,
    byDay: Option<seq<Weekday>>,
    bySetPos: Option<int>,
    interval: Option<nat>,
    wkst: Option<Weekday>,
    until: Option<Ending>,
    count: Option<nat>
  )

  const BLANK := Draft(None, None, None, None, None, None, None, None, None)

  function AddField(draft: Draft, field: Field): Option<Draft> {
    match field.key
    case FREQ =>
      var v := ParseFrequency(field.value);
      if draft.freq == None && v.Some? then Some(draft.(freq := v)) else None
    case BYMONTH =>
      var v := ParseNat(field.value);
      if draft.byMonth == None && v.Some? && 1 <= v.value <= 12 then Some(draft.(byMonth := v)) else None
    case BYMONTHDAY =>
      var v := ParseInt(field.value);
      if draft.byMonthDay == None && v.Some? && v.value != 0 && -31 <= v.value <= 31
      then Some(draft.(byMonthDay := v)) else None
    case BYDAY =>
      var v := ParseDays(Split(field.value, ','));
      if draft.byDay == None && v.Some? then Some(draft.(byDay := v)) else None
    case BYSETPOS =>
      var v := ParseInt(field.value);
      if draft.bySetPos == None && v.Some? && v.value != 0 && -366 <= v.value <= 366
      then Some(draft.(bySetPos := v)) else None
    case INTERVAL =>
      var v := ParseNat(field.value);
      if draft.interval == None && v.Some? && v.value >= 1 then Some(draft.(interval := v)) else None
    case WKST =>
      var v := ParseDay(field.value);
      if draft.wkst == None && v.Some? then Some(draft.(wkst := v)) else None
    case UNTIL =>
      var v := ParseUntil(field.value);
      if draft.until == None && draft.count == None && v.Some? then Some(draft.(until := v)) else None
    case COUNT =>
      var v := ParseNat(field.value);
      if draft.until == None && draft.count == None && v.Some? && v.value >= 1
      then Some(draft.(count := v)) else None
  }

  function AddFields(draft: Draft, fields: seq<Field>): Option<Draft>
    decreases |fields|
  {
    if |fields| == 0 then Some(draft)
    else
      match AddField(draft, fields[0])
      case None => None
      case Some(next) => AddFields(next, fields[1..])
  }

  /** FREQ is required; BYSETPOS needs another BY part; the defaults are INTERVAL=1 and WKST=MO. */
  function Finish(draft: Draft): Option<Rule> {
    if draft.freq == None then None
    else if draft.bySetPos != None && draft.byMonth == None && draft.byMonthDay == None && draft.byDay == None then None
    else
      Some(Rule(
        draft.freq.value, draft.byMonth, draft.byMonthDay, draft.byDay, draft.bySetPos,
        if draft.interval.Some? then draft.interval.value else 1,
        if draft.wkst.Some? then draft.wkst.value else Monday,
        if draft.until.Some? then draft.until.value
        else if draft.count.Some? then Count(draft.count.value)
        else Forever
      ))
  }

  function RuleOf(fields: seq<Field>): Option<Rule> {
    match AddFields(BLANK, fields)
    case None => None
    case Some(draft) => Finish(draft)
  }

  function ParseRule(text: string): Option<Rule> {
    match ParseFields(Split(text, ';'))
    case None => None
    case Some(fields) => RuleOf(fields)
  }

  // ---- the text reads back --------------------------------------------------

  predicate Plain(value: string) {
    ';' !in value && '=' !in value
  }

  lemma KeyNames(key: Key)
    ensures KeyOf(KeyName(key)) == Some(key) && Plain(KeyName(key))
  {
    match key
    case FREQ => case BYMONTH => case BYMONTHDAY => case BYDAY => case BYSETPOS =>
    case INTERVAL => case WKST => case UNTIL => case COUNT =>
  }

  lemma FieldRoundTrip(field: Field)
    requires Plain(field.value)
    ensures ParseField(FieldText(field)) == Some(field)
    ensures ';' !in FieldText(field)
  {
    KeyNames(field.key);
    SplitConcat(KeyName(field.key), field.value, '=');
    SplitFree(KeyName(field.key), '=');
    SplitFree(field.value, '=');
  }

  lemma {:induction false} FieldTextsRoundTrip(fields: seq<Field>)
    requires forall f :: f in fields ==> Plain(f.value)
    ensures ParseFields(FieldTexts(fields)) == Some(fields)
    ensures forall text :: text in FieldTexts(fields) ==> ';' !in text
  {
    hide ParseField, FieldText, Split;
    if |fields| > 0 {
      FieldTextsRoundTrip(fields[..|fields| - 1]);
      FieldRoundTrip(fields[|fields| - 1]);
      assert fields == fields[..|fields| - 1] + [fields[|fields| - 1]];
      assert FieldTexts(fields)[..|fields| - 1] == FieldTexts(fields[..|fields| - 1]);
    }
  }

  /** Reading a text gives exactly the fields it was written from. */
  lemma TextRoundTrip(fields: seq<Field>)
    requires |fields| > 0 && forall f :: f in fields ==> Plain(f.value)
    ensures ParseRule(Join(FieldTexts(fields), ';')) == RuleOf(fields)
  {
    FieldTextsRoundTrip(fields);
    SplitJoin(FieldTexts(fields), ';');
  }

  lemma {:induction false} DaysRoundTrip(days: seq<Weekday>)
    ensures ParseDays(DayCodes(days)) == Some(days)
    ensures forall code :: code in DayCodes(days) ==> ',' !in code && Plain(code)
  {
    if |days| > 0 {
      DaysRoundTrip(days[1..]);
      DayRoundTrip(days[0]);
      assert DayCodes(days)[1..] == DayCodes(days[1..]);
      assert [days[0]] + days[1..] == days;
    }
  }

  lemma DayRoundTrip(day: Weekday)
    ensures ParseDay(DayCode(day)) == Some(day)
    ensures ',' !in DayCode(day) && Plain(DayCode(day))
  {
    match day
    case Monday => case Tuesday => case Wednesday => case Thursday =>
    case Friday => case Saturday => case Sunday =>
  }

  lemma {:induction false} AddFieldsConcat(draft: Draft, first: seq<Field>, second: seq<Field>)
    ensures AddFields(draft, first + second)
            == match AddFields(draft, first) case None => None case Some(next) => AddFields(next, second)
    decreases |first|
  {
    if |first| == 0 {
      assert first + second == second;
    } else {
      assert (first + second)[1..] == first[1..] + second;
      match AddField(draft, first[0])
      case None =>
      case Some(next) => AddFieldsConcat(next, first[1..], second);
    }
  }

  // ---- the days a rule generates --------------------------------------------

  /** The numbers of [lo, hi) that satisfy `p`, in order. */
  function Filter(lo: int, hi: int, p: int -> bool): seq<int>
    decreases hi - lo
  {
    if hi <= lo then []
    else Filter(lo, hi - 1, p) + if p(hi - 1) then [hi - 1] else []
  }

  /** The first day of the period that lies `n` periods after the one of `start`. */
  function Edge(rule: Rule, start: nat, n: nat): int {
    match rule.freq
    case Daily => start + n
    case Weekly => WeekStart(start, rule.wkst) + 7 * n
    case Monthly => MonthStart(MonthOf(start) + n)
    case Yearly => MonthStart(12 * (Year(start) + n))
  }

  /** BY parts restrict the days of a period; what they leave open is taken from the start date. */
  predicate Passes(rule: Rule, start: nat, n: int) {
    n >= 0 &&
    (rule.byMonth.Some? ==> Month(n) == rule.byMonth.value) &&
    (rule.byMonthDay.Some? ==>
      if rule.byMonthDay.value > 0 then DayOfMonth(n) == rule.byMonthDay.value
      else DayOfMonth(n) == MonthLength(MonthOf(n)) + 1 + rule.byMonthDay.value) &&
    (rule.byDay.Some? ==> WeekdayOf(n) in rule.byDay.value) &&
    (rule.byDay.None? && rule.byMonthDay.None? ==>
      match rule.freq
      case Daily => true
      case Weekly => WeekdayOf(n) == WeekdayOf(start)
      case Monthly => DayOfMonth(n) == DayOfMonth(start)
      case Yearly => DayOfMonth(n) == DayOfMonth(start) && (rule.byMonth.None? ==> Month(n) == Month(start)))
  }

  function Passing(rule: Rule, start: nat): int -> bool {
    n => Passes(rule, start, n)
  }

  /** BYSETPOS picks one element of a period's days, counted from the front or from the back. */
  function Pick(days: seq<int>, position: Option<int>): seq<int> {
    match position
    case None => days
    case Some(p) =>
      if 1 <= p <= |days| then [days[p - 1]]
      else if 1 <= -p <= |days| then [days[|days| + p]]
      else []
  }

  /** Every INTERVAL-th period counts. */
  function Selected(rule: Rule, start: nat, k: nat): seq<int> {
    var first := k * rule.interval;
    Pick(Filter(Edge(rule, start, first), Edge(rule, start, first + 1), Passing(rule, start)), rule.bySetPos)
  }

  function NotBefore(days: seq<int>, start: nat): seq<int> {
    if |days| == 0 then []
    else
      var last := days[|days| - 1];
      NotBefore(days[..|days| - 1], start) + if last >= start then [last] else []
  }

  /** The days of the first `k` periods, from the start date on. */
  function Generated(rule: Rule, start: nat, k: nat): seq<int> {
    if k == 0 then [] else Generated(rule, start, k - 1) + NotBefore(Selected(rule, start, k - 1), start)
  }

  const DAY_SECONDS := 86400

  /** Whether the occurrence number `i`, at `second` of `day`, comes before the end of the rule. */
  predicate InBounds(ending: Ending, i: nat, day: int, second: nat) {
    match ending
    case Forever => true
    case Until(last, lastSecond) => day * DAY_SECONDS + second <= last * DAY_SECONDS + lastSecond
    case Count(n) => i < n
  }

  /**
   The event starts at `second` of day `start`; `day` is one of the days it recurs on. RFC 5545 leaves
   open what a start means that its own rule does not yield; here it is then no occurrence and not
   counted, and the days of the rule from there on are.
   */
  ghost predicate Occurs(rule: Rule, start: nat, second: nat, day: int) {
    exists k: nat, i: nat | i < |Generated(rule, start, k)| ::
      Generated(rule, start, k)[i] == day && InBounds(rule.ending, i, day, second)
  }

  // ---- filtered ranges ------------------------------------------------------

  lemma {:induction false} FilterSplit(lo: int, mid: int, hi: int, p: int -> bool)
    requires lo <= mid <= hi
    ensures Filter(lo, hi, p) == Filter(lo, mid, p) + Filter(mid, hi, p)
    decreases hi - mid
  {
    if mid < hi {
      FilterSplit(lo, mid, hi - 1, p);
    }
  }

  lemma {:induction false} FilterAgree(lo: int, hi: int, p: int -> bool, q: int -> bool)
    requires forall n :: lo <= n < hi ==> p(n) == q(n)
    ensures Filter(lo, hi, p) == Filter(lo, hi, q)
    decreases hi - lo
  {
    if lo < hi {
      FilterAgree(lo, hi - 1, p, q);
    }
  }

  lemma {:induction false} FilterMember(lo: int, hi: int, p: int -> bool)
    ensures forall n :: n in Filter(lo, hi, p) <==> lo <= n < hi && p(n)
    decreases hi - lo
  {
    if lo < hi {
      FilterMember(lo, hi - 1, p);
    }
  }

  /** An element stands where the number of elements before it says. */
  lemma FilterAt(lo: int, n: int, hi: int, p: int -> bool)
    requires lo <= n < hi && p(n)
    ensures Filter(lo, hi, p) == Filter(lo, n, p) + [n] + Filter(n + 1, hi, p)
  {
    FilterSplit(lo, n + 1, hi, p);
  }

  lemma {:induction false} FilterIndex(lo: int, hi: int, p: int -> bool, i: nat)
    requires i < |Filter(lo, hi, p)|
    ensures lo <= Filter(lo, hi, p)[i] < hi && p(Filter(lo, hi, p)[i])
    ensures |Filter(lo, Filter(lo, hi, p)[i], p)| == i
    decreases hi - lo
  {
    var all := Filter(lo, hi, p);
    var shorter := Filter(lo, hi - 1, p);
    if i < |shorter| {
      assert all[i] == shorter[i];
      FilterIndex(lo, hi - 1, p, i);
    }
  }

  lemma {:induction false} FilterNone(lo: int, hi: int, p: int -> bool)
    requires forall n :: lo <= n < hi ==> !p(n)
    ensures Filter(lo, hi, p) == []
    decreases hi - lo
  {
    if lo < hi {
      FilterNone(lo, hi - 1, p);
    }
  }

  lemma FilterSingle(lo: int, n: int, hi: int, q: int -> bool)
    requires lo <= n < hi && q(n) && forall m :: lo <= m < hi && m != n ==> !q(m)
    ensures Filter(lo, hi, q) == [n]
  {
    FilterAt(lo, n, hi, q);
    FilterNone(lo, n, q);
    FilterNone(n + 1, hi, q);
  }

  lemma {:induction false} NotBeforeFilter(lo: int, hi: int, p: int -> bool, start: nat)
    ensures NotBefore(Filter(lo, hi, p), start) == Filter(if lo < start then start else lo, hi, p)
    decreases hi - lo
  {
    if lo < hi {
      NotBeforeFilter(lo, hi - 1, p, start);
      var all, shorter := Filter(lo, hi, p), Filter(lo, hi - 1, p);
      if p(hi - 1) {
        assert all[..|all| - 1] == shorter;
      } else {
        assert all == shorter;
      }
    }
  }

  /** The place of `n` among the days of [lo, hi), seen from `n` alone. */
  predicate InPosition(position: Option<int>, lo: int, n: int, hi: int, p: int -> bool) {
    match position
    case None => true
    case Some(i) =>
      if i > 0 then |Filter(lo, n, p)| == i - 1 else |Filter(n + 1, hi, p)| == -i - 1
  }

  function Positioned(position: Option<int>, lo: int, hi: int, p: int -> bool): int -> bool {
    n => p(n) && InPosition(position, lo, n, hi, p)
  }

  /** Picking by position is filtering by position. */
  lemma PickIsFilter(position: Option<int>, lo: int, hi: int, p: int -> bool)
    requires position.Some? ==> position.value != 0
    ensures Pick(Filter(lo, hi, p), position) == Filter(lo, hi, Positioned(position, lo, hi, p))
  {
    var days, q := Filter(lo, hi, p), Positioned(position, lo, hi, p);
    match position
    case None => FilterAgree(lo, hi, p, q);
    case Some(i) =>
      var index := if i > 0 then i - 1 else |days| + i;
      forall m | lo <= m < hi && p(m)
        ensures |Filter(lo, m, p)| < |days| && days[|Filter(lo, m, p)|] == m
        ensures q(m) <==> |Filter(lo, m, p)| == index
      {
        FilterAt(lo, m, hi, p);
      }
      if 0 <= index < |days| {
        FilterIndex(lo, hi, p, index);
        FilterSingle(lo, days[index], hi, q);
      } else {
        FilterNone(lo, hi, q);
      }
  }

  // ---- what all periods generate --------------------------------------------

  lemma EdgeGrows(rule: Rule, start: nat, i: nat, j: nat)
    requires i <= j
    ensures Edge(rule, start, i) + (j - i) <= Edge(rule, start, j)
  {
    match rule.freq
    case Daily =>
    case Weekly =>
    case Monthly => MonthStartGrows(MonthOf(start) + i, MonthOf(start) + j);
    case Yearly => MonthStartGrows(12 * (Year(start) + i), 12 * (Year(start) + j));
  }

  /** Where period `k` begins. */
  function PeriodStart(rule: Rule, start: nat, k: nat): int {
    Edge(rule, start, k * rule.interval)
  }

  function PeriodStop(rule: Rule, start: nat, k: nat): int {
    Edge(rule, start, k * rule.interval + 1)
  }

  lemma PeriodsInOrder(rule: Rule, start: nat, k: nat)
    requires rule.interval >= 1
    ensures PeriodStart(rule, start, k) < PeriodStop(rule, start, k) <= PeriodStart(rule, start, k + 1)
  {
    assert (k + 1) * rule.interval == k * rule.interval + rule.interval;
    EdgeGrows(rule, start, k * rule.interval, k * rule.interval + 1);
    EdgeGrows(rule, start, k * rule.interval + 1, (k + 1) * rule.interval);
  }

  lemma {:induction false} PeriodsAdvance(rule: Rule, start: nat, k: nat)
    requires rule.interval >= 1
    ensures PeriodStart(rule, start, 0) + k <= PeriodStart(rule, start, k)
  {
    if k > 0 {
      PeriodsAdvance(rule, start, k - 1);
      PeriodsInOrder(rule, start, k - 1);
    }
  }

  /** The days selected from period `k`, seen from one day. */
  function SelectedFrom(rule: Rule, start: nat, k: nat): int -> bool {
    Positioned(rule.bySetPos, PeriodStart(rule, start, k), PeriodStop(rule, start, k), Passing(rule, start))
  }

  /** From period `k` until the next one `p` holds on the selected days and nowhere else. */
  ghost predicate AgreesIn(rule: Rule, start: nat, k: nat, p: int -> bool) {
    forall n :: PeriodStart(rule, start, k) <= n < PeriodStart(rule, start, k + 1) && n >= start
      ==> (p(n) <==> n < PeriodStop(rule, start, k) && SelectedFrom(rule, start, k)(n))
  }

  ghost predicate Agrees(rule: Rule, start: nat, p: int -> bool) {
    rule.interval >= 1 && (rule.bySetPos.Some? ==> rule.bySetPos.value != 0)
    && PeriodStart(rule, start, 0) <= start < PeriodStop(rule, start, 0)
    && forall k: nat :: AgreesIn(rule, start, k, p)
  }

  lemma FilterCut(from: int, hi: int, next: int, p: int -> bool, q: int -> bool)
    requires from <= hi <= next && forall n :: from <= n < next ==> (p(n) <==> n < hi && q(n))
    ensures Filter(from, hi, q) == Filter(from, next, p)
  {
    FilterAgree(from, hi, q, p);
    FilterNone(hi, next, p);
    FilterSplit(from, hi, next, p);
  }

  lemma PeriodsAfterStart(rule: Rule, start: nat, k: nat, p: int -> bool)
    requires Agrees(rule, start, p)
    ensures start < PeriodStop(rule, start, k)
    ensures k > 0 ==> start < PeriodStart(rule, start, k)
  {
    var n := k * rule.interval;
    assert n >= 0 && (k > 0 ==> n >= 1);
    EdgeGrows(rule, start, 1, n + 1);
    if k > 0 {
      EdgeGrows(rule, start, 1, n);
    }
  }

  lemma PeriodStep(rule: Rule, start: nat, k: nat, p: int -> bool)
    requires Agrees(rule, start, p)
    ensures var lo := PeriodStart(rule, start, k);
            NotBefore(Selected(rule, start, k), start)
            == Filter(if lo < start then start else lo, PeriodStart(rule, start, k + 1), p)
  {
    hide Edge, Passes, Pick, NotBefore, MonthStart, MonthOf, Generated;
    var lo, hi := PeriodStart(rule, start, k), PeriodStop(rule, start, k);
    var from := if lo < start then start else lo;
    PeriodsInOrder(rule, start, k);
    PeriodsAfterStart(rule, start, k, p);
    PickIsFilter(rule.bySetPos, lo, hi, Passing(rule, start));
    NotBeforeFilter(lo, hi, SelectedFrom(rule, start, k), start);
    assert AgreesIn(rule, start, k, p);
    FilterCut(from, hi, PeriodStart(rule, start, k + 1), p, SelectedFrom(rule, start, k));
  }

  lemma {:induction false} GeneratedIsFilter(rule: Rule, start: nat, k: nat, p: int -> bool)
    requires Agrees(rule, start, p)
    ensures Generated(rule, start, k) == Filter(start, PeriodStart(rule, start, k), p)
  {
    hide Edge, Selected, NotBefore, PeriodStart;
    if k > 0 {
      var lo, next := PeriodStart(rule, start, k - 1), PeriodStart(rule, start, k);
      GeneratedIsFilter(rule, start, k - 1, p);
      PeriodStep(rule, start, k - 1, p);
      PeriodsInOrder(rule, start, k - 1);
      if k > 1 {
        PeriodsAfterStart(rule, start, k - 1, p);
        FilterSplit(start, lo, next, p);
      }
    }
  }

  /** A rule whose selected days are those of `p` occurs on these days, in order, until it ends. */
  lemma OccursIff(rule: Rule, start: nat, second: nat, n: int, p: int -> bool)
    requires Agrees(rule, start, p)
    ensures Occurs(rule, start, second, n)
            <==> start <= n && p(n) && InBounds(rule.ending, |Filter(start, n, p)|, n, second)
  {
    if Occurs(rule, start, second, n) {
      var k: nat, i: nat :| i < |Generated(rule, start, k)| && Generated(rule, start, k)[i] == n
                            && InBounds(rule.ending, i, n, second);
      GeneratedIsFilter(rule, start, k, p);
      FilterIndex(start, PeriodStart(rule, start, k), p, i);
    }
    if start <= n && p(n) && InBounds(rule.ending, |Filter(start, n, p)|, n, second) {
      var k: nat := n - PeriodStart(rule, start, 0) + 1;
      PeriodsAdvance(rule, start, k);
      GeneratedIsFilter(rule, start, k, p);
      FilterAt(start, n, PeriodStart(rule, start, k), p);
      assert Generated(rule, start, k)[|Filter(start, n, p)|] == n;
    }
  }
}
