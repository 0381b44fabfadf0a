/** The proleptic Gregorian calendar. Days count from 1 January of year 0, months from January of year 0. */
module Days {
  /** Weekdays from Monday = 0 to Sunday = 6. */
  datatype Weekday = Monday | Tuesday | Wednesday | Thursday | Friday | Saturday | Sunday
  {
    function Number(): (n: nat)
      ensures n < 7
    {
      match this
      case Monday => 0 case Tuesday => 1 case Wednesday => 2 case Thursday => 3
      case Friday => 4 case Saturday => 5 case Sunday => 6
    }
  }

  const WEEK: seq<Weekday> := [Monday, Tuesday, Wednesday, Thursday, Friday, Saturday, Sunday]

  predicate IsLeapYear(year: nat) {
    year % 4 == 0 && (year % 100 != 0 || year % 400 == 0)
  }

  function DaysInMonth(year: nat, month: nat): (n: nat)
    requires 1 <= month <= 12
    ensures 28 <= n <= 31
  {
    if month == 2 then (if IsLeapYear(year) then 29 else 28)
    else if month == 4 || month == 6 || month == 9 || month == 11 then 30
    else 31
  }

  function MonthIndex(year: nat, month: nat): nat
    requires 1 <= month <= 12
  {
    12 * year + month - 1
  }

  function MonthLength(index: nat): (n: nat)
    ensures 28 <= n <= 31
  {
    DaysInMonth(index / 12, index % 12 + 1)
  }

  /** The first day of a month. */
  function MonthStart(index: nat): nat {
    if index == 0 then 0 else MonthStart(index - 1) + MonthLength(index - 1)
  }

  function MonthFrom(day: nat, index: nat): (found: nat)
    requires MonthStart(index) <= day
    ensures MonthStart(found) <= day < MonthStart(found + 1)
    decreases day - MonthStart(index)
  {
    if day < MonthStart(index + 1) then index else MonthFrom(day, index + 1)
  }

  /** The month a day lies in. */
  function MonthOf(day: nat): (index: nat)
    ensures MonthStart(index) <= day < MonthStart(index + 1)
  {
    MonthFrom(day, 0)
  }

  function Year(day: nat): nat { MonthOf(day) / 12 }

  function Month(day: nat): nat { MonthOf(day) % 12 + 1 }

  function DayOfMonth(day: nat): nat { day - MonthStart(MonthOf(day)) + 1 }

  /** 1 January of year 0 was a Saturday. */
  function WeekdayOf(day: nat): Weekday { WEEK[(day + 5) % 7] }

  /** The first day of the week that contains `day` when weeks begin on `first`. */
  function WeekStart(day: nat, first: Weekday): (start: int)
    ensures start <= day < start + 7
  {
    day - (day + 5 - first.Number()) % 7
  }

  predicate ValidDate(year: nat, month: nat, day: nat) {
    1 <= month <= 12 && 1 <= day <= DaysInMonth(year, month)
  }

  function DayNumber(year: nat, month: nat, day: nat): nat
    requires ValidDate(year, month, day)
  {
    MonthStart(MonthIndex(year, month)) + day - 1
  }

  lemma {:induction false} MonthStartGrows(i: nat, j: nat)
    requires i <= j
    ensures MonthStart(i) + 28 * (j - i) <= MonthStart(j)
  {
    if i < j {
      MonthStartGrows(i, j - 1);
    }
  }

  /** A day lies in exactly one month. */
  lemma MonthOfUnique(day: nat, index: nat)
    requires MonthStart(index) <= day < MonthStart(index + 1)
    ensures MonthOf(day) == index
  {
    var found := MonthOf(day);
    if found < index {
      MonthStartGrows(found + 1, index);
    } else if index < found {
      MonthStartGrows(index + 1, found);
    }
  }

  /** Year, month and day of the month give a day back, and only that one. */
  lemma CivilRoundTrip(year: nat, month: nat, day: nat)
    requires ValidDate(year, month, day)
    ensures Year(DayNumber(year, month, day)) == year
    ensures Month(DayNumber(year, month, day)) == month
    ensures DayOfMonth(DayNumber(year, month, day)) == day
  {
    var index := MonthIndex(year, month);
    MonthIndexParts(year, month);
    assert MonthStart(index + 1) == MonthStart(index) + MonthLength(index);
    MonthOfUnique(DayNumber(year, month, day), index);
  }

  lemma MonthIndexParts(year: nat, month: nat)
    requires 1 <= month <= 12
    ensures MonthIndex(year, month) / 12 == year && MonthIndex(year, month) % 12 == month - 1
  {
  }

  lemma WeekStartWeekday(day: nat, first: Weekday)
    ensures (WeekStart(day, first) + 5 - first.Number()) % 7 == 0
  {
    var offset := day + 5 - first.Number();
    var weeks := offset / 7;
    assert WeekStart(day, first) + 5 - first.Number() == 7 * weeks;
  }

  /** The first day of a year: 365 days for every year before it, and one for each leap year. */
  lemma {:induction false} YearStart(year: nat)
    ensures MonthStart(12 * year) == 365 * year + (year + 3) / 4 - (year + 99) / 100 + (year + 399) / 400
  {
    hide MonthStart;
    if year == 0 {
      FirstMonth();
    } else {
      YearStart(year - 1);
      YearLength(year - 1);
      LeapYears(year - 1);
    }
  }

  lemma FirstMonth()
    ensures MonthStart(0) == 0
  {
  }

  /** The leap years up to a year, counted by divisors. */
  lemma LeapYears(year: nat)
    ensures (year + 4) / 4 - (year + 100) / 100 + (year + 400) / 400
            == (year + 3) / 4 - (year + 99) / 100 + (year + 399) / 400
               + if year % 4 == 0 && (year % 100 != 0 || year % 400 == 0) then 1 else 0
  {
    NextQuotient(year, 4);
    NextQuotient(year, 100);
    NextQuotient(year, 400);
    LeapDivisors(year);
  }

  lemma NextQuotient(n: nat, d: nat)
    requires d in {4, 100, 400}
    ensures (n + d) / d == (n + d - 1) / d + if n % d == 0 then 1 else 0
  {
  }

  /** Every year that 400 divides 100 divides, and every year that 100 divides 4 divides. */
  lemma LeapDivisors(year: nat)
    ensures year % 400 == 0 ==> year % 100 == 0
    ensures year % 100 == 0 ==> year % 4 == 0
  {
    if year % 400 == 0 {
      Multiple(year, 4 * (year / 400), 100);
    }
    if year % 100 == 0 {
      Multiple(year, 25 * (year / 100), 4);
    }
  }

  lemma Multiple(n: nat, q: nat, d: nat)
    requires d in {4, 100} && n == d * q
    ensures n % d == 0
  {
  }

  /** Where the months of a year begin. */
  lemma YearLength(year: nat)
    ensures var start, leap := MonthStart(12 * year), if year % 4 == 0
            && (year % 100 != 0 || year % 400 == 0) then 1 else 0;
            && MonthStart(12 * year + 1) == start + 31 && MonthStart(12 * year + 2) == start + 59 + leap
            && MonthStart(12 * year + 3) == start + 90 + leap && MonthStart(12 * year + 4) == start + 120 + leap
            && MonthStart(12 * year + 5) == start + 151 + leap && MonthStart(12 * year + 6) == start + 181 + leap
            && MonthStart(12 * year + 7) == start + 212 + leap && MonthStart(12 * year + 8) == start + 243 + leap
            && MonthStart(12 * year + 9) == start + 273 + leap && MonthStart(12 * year + 10) == start + 304 + leap
            && MonthStart(12 * year + 11) == start + 334 + leap && MonthStart(12 * year + 12) == start + 365 + leap
  {
    hide DaysInMonth, MonthStart;
    NextMonth(year, 1);
    NextMonth(year, 2);
    NextMonth(year, 3);
    NextMonth(year, 4);
    NextMonth(year, 5);
    NextMonth(year, 6);
    NextMonth(year, 7);
    NextMonth(year, 8);
    NextMonth(year, 9);
    NextMonth(year, 10);
    NextMonth(year, 11);
    NextMonth(year, 12);
  }

  lemma NextMonth(year: nat, month: nat)
    requires 1 <= month <= 12
    ensures MonthStart(12 * year + month)
            == MonthStart(12 * year + month - 1)
               + if month == 2 then (if year % 4 == 0 && (year % 100 != 0 || year % 400 == 0) then 29 else 28)
                 else if month in {4, 6, 9, 11} then 30
                 else 31
  {
    MonthIndexParts(year, month);
  }

  /** 1 January 1970 was a Thursday. */
  lemma Epoch()
    ensures DayNumber(1970, 1, 1) == 719528 && WeekdayOf(719528) == Thursday
  {
    hide MonthStart;
    YearStart(1970);
  }

  lemma NextWeekday(day: nat)
    ensures WeekdayOf(day + 1) == match WeekdayOf(day)
                                  case Monday => Tuesday case Tuesday => Wednesday case Wednesday => Thursday
                                  case Thursday => Friday case Friday => Saturday case Saturday => Sunday
                                  case Sunday => Monday
  {
  }

  /** A week begins on its first weekday. */
  lemma WeekBegins(day: nat, first: Weekday)
    requires WeekStart(day, first) >= 0
    ensures WeekdayOf(WeekStart(day, first)) == first
  {
    WeekStartWeekday(day, first);
    var start := WeekStart(day, first);
    assert (start + 5) % 7 == first.Number();
  }
}
