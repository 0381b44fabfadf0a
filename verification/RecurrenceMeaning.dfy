/** The emitted rule generates exactly the days the Graph recurrence denotes. */
module RecurrenceMeaning {
  import opened Wrappers
  import opened Days
  import opened Rules
  import opened Recurrence

  // ---- the days a Graph recurrence denotes ----------------------------------

  /** The day that Graph means by a name. */
  predicate Means(name: string, day: Weekday) {
    match day
    case Monday => name == "monday" case Tuesday => name == "tuesday" case Wednesday => name == "wednesday"
    case Thursday => name == "thursday" case Friday => name == "friday" case Saturday => name == "saturday"
    case Sunday => name == "sunday"
  }

  /** The day falls on one of the weekdays the pattern names. */
  predicate IsOnDays(p: Pattern, n: int)
    requires NamesWeekdays(p)
    ensures IsOnDays(p, n) <==> n >= 0 && WeekdayOf(n) in Weekdays(DayNames(p))
  {
    if n >= 0 then
      WeekdaysMean(DayNames(p), WeekdayOf(n));
      exists name :: name in DayNames(p) && Means(name, WeekdayOf(n))
    else false
  }

  lemma {:induction false} WeekdaysMean(names: seq<string>, day: Weekday)
    requires forall name :: name in names ==> name in DAY_MAP
    ensures day in Weekdays(names) <==> exists name :: name in names && Means(name, day)
  {
    if |names| > 0 {
      NameMeans(names[0], day);
      WeekdaysMean(names[1..], day);
      assert names == [names[0]] + names[1..];
      assert names[0] in names;
    }
  }

  lemma NameMeans(name: string, day: Weekday)
    requires name in DAY_MAP
    ensures DAY_MAP[name] == day <==> Means(name, day)
  {
  }

  /** The day weeks begin on: the one named, or else Sunday. */
  function FirstWeekday(p: Pattern): (day: Weekday)
    requires FirstDay(p) in DAY_MAP
    ensures day == DAY_MAP[FirstDay(p)]
  {
    var name := p.firstDayOfWeek;
    if name == Some("monday") then Monday
    else if name == Some("tuesday") then Tuesday
    else if name == Some("wednesday") then Wednesday
    else if name == Some("thursday") then Thursday
    else if name == Some("friday") then Friday
    else if name == Some("saturday") then Saturday
    else Sunday
  }

  /** How many of the days asked for come before the one at this position. */
  function Before(index: string): int {
    if index == "first" then 0 else if index == "second" then 1 else if index == "third" then 2 else 3
  }

  function OnDays(p: Pattern): int -> bool
    requires NamesWeekdays(p)
  {
    n => IsOnDays(p, n)
  }

  /** `n` is the first, second, third, fourth or last day of its month that falls on a listed weekday. */
  ghost predicate HasIndex(p: Pattern, n: nat)
    requires NamesWeekdays(p) && NamesPosition(p)
  {
    IsOnDays(p, n) &&
    if p.index.value == "last" then forall m :: n < m < MonthStart(MonthOf(n) + 1) ==> !IsOnDays(p, m)
    else |Filter(MonthStart(MonthOf(n)), n, OnDays(p))| == Before(p.index.value)
  }

  /** Every interval-th day, week, month or year, counted from the one of the start date. */
  ghost predicate Matches(p: Pattern, start: nat, n: int)
    requires SupportedPattern(p)
  {
    n >= start &&
    var first := FirstWeekday(p);
    match KindOf(p.patternType).value
    case KDaily => (n - start) % Interval(p) == 0
    case KWeekly => IsOnDays(p, n) && (WeekStart(n, first) - WeekStart(start, first)) / 7 % Interval(p) == 0
    case KAbsoluteMonthly => DayOfMonth(n) == p.dayOfMonth.value && (MonthOf(n) - MonthOf(start)) % Interval(p) == 0
    case KRelativeMonthly => HasIndex(p, n) && (MonthOf(n) - MonthOf(start)) % Interval(p) == 0
    case KAbsoluteYearly =>
      Month(n) == p.month.value && DayOfMonth(n) == p.dayOfMonth.value && (Year(n) - Year(start)) % Interval(p) == 0
    case KRelativeYearly =>
      Month(n) == p.month.value && HasIndex(p, n) && (Year(n) - Year(start)) % Interval(p) == 0
  }

  ghost function Matching(p: Pattern, start: nat): int -> bool
    requires SupportedPattern(p)
  {
    n => Matches(p, start, n)
  }

  /** Matching days up to the end date, or the first so many of them, or all. */
  ghost predicate GraphOccurs(recurrence: GraphRecurrence, start: nat, n: int)
    requires Supported(recurrence)
  {
    var p, r := recurrence.pattern, recurrence.range;
    Matches(p, start, n) &&
    (r.rangeType == "endDate" ==> n <= IsoDate(r.endDate.value).value) &&
    (r.rangeType == "numbered" ==> |Filter(start, n, Matching(p, start))| < r.numberOfOccurrences.value)
  }

  // ---- periods --------------------------------------------------------------

  /** How many days, weeks, months or years after the start date's own `n` lies. */
  function Units(rule: Rule, start: nat, n: nat): int {
    match rule.freq
    case Daily => n - start
    case Weekly => (WeekStart(n, rule.wkst) - WeekStart(start, rule.wkst)) / 7
    case Monthly => MonthOf(n) - MonthOf(start)
    case Yearly => Year(n) - Year(start)
  }

  lemma WeekEdge(start: nat, n: nat, first: Weekday, j: nat)
    ensures n >= WeekStart(start, first) + 7 * j
            <==> (WeekStart(n, first) - WeekStart(start, first)) / 7 >= j
  {
    WeekStartWeekday(start, first);
    WeekStartWeekday(n, first);
    var a, b := WeekStart(start, first) + 5 - first.Number(), WeekStart(n, first) + 5 - first.Number();
    assert a == 7 * (a / 7) && b == 7 * (b / 7);
  }

  lemma MonthEdge(n: nat, index: nat)
    ensures n >= MonthStart(index) <==> MonthOf(n) >= index
  {
    var month := MonthOf(n);
    if month >= index {
      MonthStartGrows(index, month);
    } else {
      MonthStartGrows(month + 1, index);
    }
  }

  lemma EdgeUnits(rule: Rule, start: nat, n: nat, j: nat)
    ensures n >= Edge(rule, start, j) <==> Units(rule, start, n) >= j
  {
    match rule.freq
    case Daily =>
    case Weekly => WeekEdge(start, n, rule.wkst, j);
    case Monthly => MonthEdge(n, MonthOf(start) + j);
    case Yearly => MonthEdge(n, 12 * (Year(start) + j));
  }

  lemma MultipleInRange(u: int, k: nat, interval: nat)
    requires interval >= 1 && k * interval <= u < (k + 1) * interval
    ensures u % interval == 0 <==> u == k * interval
  {
    var q := u / interval;
    assert u == interval * q + u % interval;
    Monotone(interval, q, k + 1);
    Monotone(interval, k + 1, q);
    Monotone(interval, k, q);
    Monotone(interval, q + 1, k);
  }

  lemma Monotone(d: int, a: int, b: int)
    ensures d >= 0 && a >= b ==> d * a >= d * b
  {
  }

  // ---- one period -----------------------------------------------------------

  lemma LastInRange(p: Pattern, n: int, hi: int, q: int -> bool)
    requires NamesWeekdays(p) && forall m :: n < m < hi ==> q(m) == IsOnDays(p, m)
    ensures |Filter(n + 1, hi, q)| == 0 <==> forall m :: n < m < hi ==> !IsOnDays(p, m)
  {
    if forall m :: n < m < hi ==> !IsOnDays(p, m) {
      FilterNone(n + 1, hi, q);
    } else {
      var m :| n < m < hi && IsOnDays(p, m);
      FilterMember(n + 1, hi, q);
      assert m in Filter(n + 1, hi, q);
    }
  }

  /** Within its month, the position of a day is its Graph index. */
  lemma MonthPosition(p: Pattern, n: nat, q: int -> bool)
    requires NamesWeekdays(p) && NamesPosition(p) && IsOnDays(p, n)
    requires forall m :: MonthStart(MonthOf(n)) <= m < MonthStart(MonthOf(n) + 1) ==> q(m) == IsOnDays(p, m)
    ensures HasIndex(p, n)
            <==> InPosition(Some(INDEX_MAP[p.index.value]), MonthStart(MonthOf(n)), n, MonthStart(MonthOf(n) + 1), q)
  {
    if p.index.value == "last" {
      LastInRange(p, n, MonthStart(MonthOf(n) + 1), q);
    } else {
      FilterAgree(MonthStart(MonthOf(n)), n, q, OnDays(p));
    }
  }

  lemma OtherMonth(n: nat, m: nat)
    requires MonthStart(12 * Year(n)) <= m < MonthStart(12 * (Year(n) + 1))
    requires !(MonthStart(MonthOf(n)) <= m < MonthStart(MonthOf(n) + 1))
    ensures Month(m) != Month(n)
  {
    MonthEdge(m, 12 * Year(n));
    MonthEdge(m, 12 * (Year(n) + 1));
    MonthEdge(m, MonthOf(n));
    MonthEdge(m, MonthOf(n) + 1);
    MonthsOfYear(MonthOf(m), MonthOf(n), Year(n));
  }

  lemma MonthsOfYear(a: nat, b: nat, year: nat)
    requires 12 * year <= a < 12 * (year + 1) && 12 * year <= b < 12 * (year + 1) && a != b
    ensures a % 12 != b % 12
  {
    assert a % 12 == a - 12 * year && b % 12 == b - 12 * year;
  }

  lemma MonthInYear(n: nat)
    ensures MonthStart(12 * Year(n)) <= MonthStart(MonthOf(n)) <= n
    ensures n < MonthStart(MonthOf(n) + 1) <= MonthStart(12 * (Year(n) + 1))
  {
    MonthStartGrows(12 * Year(n), MonthOf(n));
    MonthStartGrows(MonthOf(n) + 1, 12 * (Year(n) + 1));
  }

  /** Days of other months of the year do not shift positions when BYMONTH leaves one month. */
  lemma YearPosition(position: Option<int>, n: nat, q: int -> bool)
    requires forall m :: 0 <= m && Month(m) != Month(n) ==> !q(m)
    ensures InPosition(position, MonthStart(MonthOf(n)), n, MonthStart(MonthOf(n) + 1), q)
            <==> InPosition(position, MonthStart(12 * Year(n)), n, MonthStart(12 * (Year(n) + 1)), q)
  {
    var lo, hi := MonthStart(12 * Year(n)), MonthStart(12 * (Year(n) + 1));
    var first, next := MonthStart(MonthOf(n)), MonthStart(MonthOf(n) + 1);
    MonthInYear(n);
    NoOtherMonth(n, q, lo, first);
    NoOtherMonth(n, q, next, hi);
    WiderRange(position, lo, first, n, next, hi, q);
  }

  lemma WiderRange(position: Option<int>, lo: int, first: int, n: int, next: int, hi: int, q: int -> bool)
    requires lo <= first <= n < next <= hi
    requires forall m :: lo <= m < first || next <= m < hi ==> !q(m)
    ensures InPosition(position, first, n, next, q) <==> InPosition(position, lo, n, hi, q)
  {
    FilterNone(lo, first, q);
    FilterSplit(lo, first, n, q);
    FilterNone(next, hi, q);
    FilterSplit(n + 1, next, hi, q);
  }

  lemma NoOtherMonth(n: nat, q: int -> bool, lo: nat, hi: nat)
    requires forall m :: 0 <= m && Month(m) != Month(n) ==> !q(m)
    requires MonthStart(12 * Year(n)) <= lo && hi <= MonthStart(12 * (Year(n) + 1))
    requires hi <= MonthStart(MonthOf(n)) || MonthStart(MonthOf(n) + 1) <= lo
    ensures forall m :: lo <= m < hi ==> !q(m)
  {
    forall m: nat | lo <= m < hi ensures !q(m) {
      OtherMonth(n, m);
    }
  }

  /** What the position adds to the BY parts, period by period. */
  ghost predicate InPeriodPosition(rule: Rule, start: nat, n: nat) {
    match rule.freq
    case Monthly =>
      InPosition(rule.bySetPos, MonthStart(MonthOf(n)), n, MonthStart(MonthOf(n) + 1), Passing(rule, start))
    case Yearly =>
      InPosition(rule.bySetPos, MonthStart(12 * Year(n)), n, MonthStart(12 * (Year(n) + 1)), Passing(rule, start))
    case _ => rule.bySetPos == None
  }

  lemma RelativeMonthlyAgrees(p: Pattern, rule: Rule, start: nat, n: nat)
    requires NamesWeekdays(p) && NamesPosition(p)
    requires rule == Rule(Monthly, None, None, Some(Weekdays(DayNames(p))), Some(INDEX_MAP[p.index.value]),
                          rule.interval, rule.wkst, rule.ending)
    ensures HasIndex(p, n) <==> Passes(rule, start, n) && InPeriodPosition(rule, start, n)
  {
    if IsOnDays(p, n) {
      MonthPosition(p, n, Passing(rule, start));
    }
  }

  lemma RelativeYearlyAgrees(p: Pattern, rule: Rule, start: nat, n: nat)
    requires NamesWeekdays(p) && NamesPosition(p) && NumberIn(p.month, 1, 12)
    requires rule == Rule(Yearly, Some(p.month.value), None, Some(Weekdays(DayNames(p))),
                          Some(INDEX_MAP[p.index.value]), rule.interval, rule.wkst, rule.ending)
    ensures Month(n) == p.month.value && HasIndex(p, n) <==> Passes(rule, start, n) && InPeriodPosition(rule, start, n)
  {
    if IsOnDays(p, n) && Month(n) == p.month.value {
      forall m: nat | MonthStart(MonthOf(n)) <= m < MonthStart(MonthOf(n) + 1)
        ensures Passing(rule, start)(m) == IsOnDays(p, m)
      {
        MonthOfUnique(m, MonthOf(n));
      }
      MonthPosition(p, n, Passing(rule, start));
      YearPosition(rule.bySetPos, n, Passing(rule, start));
    }
  }

  /** Matching is a whole number of intervals, the BY parts and the position. */
  lemma DaysAgree(recurrence: GraphRecurrence, start: nat, n: nat)
    requires Supported(recurrence) && n >= start
    ensures var rule := RuleFor(recurrence);
            Matches(recurrence.pattern, start, n)
            <==> Units(rule, start, n) % rule.interval == 0
                 && Passes(rule, start, n) && InPeriodPosition(rule, start, n)
  {
    var p, rule := recurrence.pattern, RuleFor(recurrence);
    match KindOf(p.patternType).value
    case KDaily =>
    case KWeekly =>
    case KAbsoluteMonthly =>
    case KAbsoluteYearly =>
    case KRelativeMonthly => RelativeMonthlyAgrees(p, rule, start, n);
    case KRelativeYearly => RelativeYearlyAgrees(p, rule, start, n);
  }

  /** In the period a day lies in, its position there is the one the rule asks for. */
  lemma PositionAgrees(rule: Rule, start: nat, k: nat, n: nat)
    requires rule.freq.Daily? || rule.freq.Weekly? ==> rule.bySetPos == None
    requires Units(rule, start, n) == k * rule.interval
    ensures InPeriodPosition(rule, start, n)
            <==> InPosition(rule.bySetPos, PeriodStart(rule, start, k), n, PeriodStop(rule, start, k),
                            Passing(rule, start))
  {
  }

  lemma UnitsInPeriod(rule: Rule, start: nat, k: nat, n: nat)
    requires rule.interval >= 1 && PeriodStart(rule, start, k) <= n < PeriodStart(rule, start, k + 1)
    ensures Units(rule, start, n) % rule.interval == 0 <==> n < PeriodStop(rule, start, k)
    ensures Units(rule, start, n) == k * rule.interval <==> n < PeriodStop(rule, start, k)
  {
    hide Edge, Units;
    var first := k * rule.interval;
    EdgeUnits(rule, start, n, first);
    EdgeUnits(rule, start, n, (k + 1) * rule.interval);
    EdgeUnits(rule, start, n, first + 1);
    MultipleInRange(Units(rule, start, n), k, rule.interval);
  }

  lemma PeriodAgrees(recurrence: GraphRecurrence, rule: Rule, start: nat, k: nat, n: nat)
    requires Supported(recurrence) && n >= start && rule == RuleFor(recurrence)
    requires PeriodStart(rule, start, k) <= n < PeriodStart(rule, start, k + 1)
    ensures Matches(recurrence.pattern, start, n)
            <==> n < PeriodStop(rule, start, k) && SelectedFrom(rule, start, k)(n)
  {
    UnitsInPeriod(rule, start, k, n);
    DaysAgree(recurrence, start, n);
    if n < PeriodStop(rule, start, k) {
      PositionAgrees(rule, start, k, n);
    }
  }

  lemma AllPeriodsAgree(recurrence: GraphRecurrence, start: nat)
    requires Supported(recurrence)
    ensures Agrees(RuleFor(recurrence), start, Matching(recurrence.pattern, start))
  {
    var rule, matching := RuleFor(recurrence), Matching(recurrence.pattern, start);
    EdgeUnits(rule, start, start, 0);
    EdgeUnits(rule, start, start, 1);
    forall k: nat ensures AgreesIn(rule, start, k, matching) {
      forall n | PeriodStart(rule, start, k) <= n < PeriodStart(rule, start, k + 1) && n >= start
        ensures matching(n) <==> n < PeriodStop(rule, start, k) && SelectedFrom(rule, start, k)(n)
      {
        PeriodAgrees(recurrence, rule, start, k, n);
      }
    }
  }

  /** An event at `second` of day `start` recurs, by the emitted rule, on exactly the days of the Graph recurrence. */
  lemma SameDates(recurrence: GraphRecurrence, start: nat, second: nat, n: int)
    requires Supported(recurrence) && second < DAY_SECONDS
    ensures Occurs(RuleFor(recurrence), start, second, n) <==> GraphOccurs(recurrence, start, n)
  {
    AllPeriodsAgree(recurrence, start);
    OccursIff(RuleFor(recurrence), start, second, n, Matching(recurrence.pattern, start));
  }

  /** A start that the pattern yields is the first occurrence, and the first that COUNT counts. */
  lemma StartIsFirst(recurrence: GraphRecurrence, start: nat, second: nat)
    requires Supported(recurrence) && second < DAY_SECONDS && Matches(recurrence.pattern, start, start)
    ensures var r := recurrence.range;
            Occurs(RuleFor(recurrence), start, second, start)
            <==> (r.rangeType == "endDate" ==> start <= IsoDate(r.endDate.value).value)
    ensures forall n: int :: Occurs(RuleFor(recurrence), start, second, n) ==> start <= n
    ensures recurrence.range.rangeType == "numbered" && recurrence.range.numberOfOccurrences == Some(1) ==>
              forall n: int :: Occurs(RuleFor(recurrence), start, second, n) <==> n == start
  {
    hide Matches, Occurs;
    MatchesFromStart(recurrence.pattern, start);
    forall n: int
      ensures Occurs(RuleFor(recurrence), start, second, n) <==> GraphOccurs(recurrence, start, n)
    {
      SameDates(recurrence, start, second, n);
    }
    forall n: int | n > start ensures |Filter(start, n, Matching(recurrence.pattern, start))| >= 1 {
      FilterAt(start, start, n, Matching(recurrence.pattern, start));
    }
  }

  lemma MatchesFromStart(p: Pattern, start: nat)
    requires SupportedPattern(p)
    ensures forall n: int :: Matches(p, start, n) ==> n >= start
  {
  }
}
