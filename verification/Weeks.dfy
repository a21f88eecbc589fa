/** core/src/metrics.ts: ISO 8601 weeks. Instants are milliseconds, days are counted from 1970-01-01, both UTC. */
module Weeks {
  import opened Keys

  const DAY := 86_400_000

  /** Monday is 0. */
  function WeekDay(day: int): nat { (day + 3) % 7 }
  function Monday(day: int): int { day - WeekDay(day) }
  function DayOf(instant: int): int { instant / DAY }

  /** The day number of 1 January, as ECMA-262 defines it (section 21.4.1.3). */
  function GregorianStart(year: int): int {
    365 * (year - 1970) + (year - 1969) / 4 - (year - 1901) / 100 + (year - 1601) / 400
  }

  // Weeks depend on the calendar only through the length of its years.

  predicate YearFits(start: int -> int, year: int) { 365 <= start(year + 1) - start(year) <= 366 }

  /** Where each year starts. */
  type Calendar = start: int -> int | start(1970) == 0 && forall year :: YearFits(start, year)
    witness (year: int) => 365 * (year - 1970)

  lemma Quotients(a: int)
    ensures (a + 1) / 4 - a / 4 == if (a + 1) % 4 == 0 then 1 else 0
    ensures (a + 1) / 100 - a / 100 == if (a + 1) % 100 == 0 then 1 else 0
    ensures (a + 1) / 400 - a / 400 == if (a + 1) % 400 == 0 then 1 else 0
  {
  }

  lemma SameRemainders(year: int)
    ensures (year - 1968) % 4 == year % 4
    ensures (year - 1900) % 100 == year % 100
    ensures (year - 1600) % 400 == year % 400
  {
    var a, b, c := year / 4, year / 100, year / 400;
    assert year - 1968 == 4 * (a - 492) + year % 4;
    assert year - 1900 == 100 * (b - 19) + year % 100;
    assert year - 1600 == 400 * (c - 4) + year % 400;
  }

  lemma CenturiesAreFourth(year: int)
    ensures year % 100 == 0 ==> year % 4 == 0
    ensures year % 400 == 0 ==> year % 100 == 0
  {
    if year % 100 == 0 {
      HundredsAreFours(year / 100);
    }
    if year % 400 == 0 {
      FourHundredsAreHundreds(year / 400);
    }
  }

  lemma HundredsAreFours(k: int)
    ensures 100 * k % 4 == 0
  {
    assert 100 * k == 4 * (25 * k);
  }

  lemma FourHundredsAreHundreds(k: int)
    ensures 400 * k % 100 == 0
  {
    assert 400 * k == 100 * (4 * k);
  }

  /** A year divisible by four, except the centuries that are not divisible by four hundred. */
  predicate Leap(year: int) { year % 4 == 0 && (year % 100 != 0 || year % 400 == 0) }

  /** Every year has its length, counting from 1 January 1970 as day 0. */
  lemma GregorianYear(year: int)
    ensures GregorianStart(1970) == 0
    ensures GregorianStart(year + 1) - GregorianStart(year) == if Leap(year) then 366 else 365
  {
    Quotients(year - 1969);
    Quotients(year - 1901);
    Quotients(year - 1601);
    SameRemainders(year);
    CenturiesAreFourth(year);
  }

  function Gregorian(): Calendar {
    var start := (year: int) => GregorianStart(year);
    assert forall year :: YearFits(start, year) by {
      forall year
        ensures YearFits(start, year)
      {
        GregorianYear(year);
      }
    }
    start
  }

  lemma {:induction false} YearStartsGrow(c: Calendar, a: int, b: int)
    requires a <= b
    ensures c(b) - c(a) >= 365 * (b - a)
    decreases b - a
  {
    if a == b {
    } else {
      assert YearFits(c, a);
      YearStartsGrow(c, a + 1, b);
    }
  }

  /** The year of a day, found by stepping from a year that begins no later. */
  function YearFrom(c: Calendar, day: int, year: int): (y: int)
    requires c(year) <= day
    ensures c(y) <= day < c(y + 1)
    decreases day - c(year)
  {
    assert YearFits(c, year);
    if day < c(year + 1) then year else YearFrom(c, day, year + 1)
  }

  function YearOf(c: Calendar, day: int): (y: int)
    ensures c(y) <= day < c(y + 1)
  {
    var guess := if day >= 0 then 1970 else 1970 + day;
    YearStartsGrow(c, guess, 1970);
    YearFrom(c, day, guess)
  }

  lemma InYear(c: Calendar, day: int, year: int)
    requires c(year) <= day < c(year + 1)
    ensures YearOf(c, day) == year
  {
    var y := YearOf(c, day);
    if y < year {
      YearStartsGrow(c, y + 1, year);
    } else if year < y {
      YearStartsGrow(c, year + 1, y);
    }
  }

  lemma YearsFollowDays(c: Calendar, a: int, b: int)
    requires a <= b
    ensures YearOf(c, a) <= YearOf(c, b)
  {
    if YearOf(c, b) < YearOf(c, a) {
      YearStartsGrow(c, YearOf(c, b) + 1, YearOf(c, a));
    }
  }

  // ----- isoWeekKey and weekStart -----

  function Thursday(day: int): int { day - WeekDay(day) + 3 }

  /** Day 0 is a Thursday, so Thursdays are the multiples of 7. */
  lemma ThursdayIs(day: int) returns (k: int)
    ensures Thursday(day) == 7 * k && Monday(day) == 7 * k - 3 && 7 * k - 3 <= day <= 7 * k + 3
  {
    k := (day + 3) / 7;
  }

  /** The Thursday of the week that holds 4 January. */
  function FirstThursday(c: Calendar, year: int): int { Thursday(c(year) + 3) }

  function WeekYear(c: Calendar, day: int): int { YearOf(c, Thursday(day)) }
  function WeekNumber(c: Calendar, day: int): int { 1 + (Thursday(day) - FirstThursday(c, WeekYear(c, day))) / 7 }

  function Signed(n: int): string { if n < 0 then "-" + Decimal(-n) else Decimal(n) }
  function Padded(n: int): string { if 0 <= n < 10 then "0" + Decimal(n) else Signed(n) }

  function KeyText(year: int, week: int): string { Signed(year) + "-W" + Padded(week) }

  function KeyOfDay(c: Calendar, day: int): string { KeyText(WeekYear(c, day), WeekNumber(c, day)) }

  function IsoWeekKey(instant: int): string { KeyOfDay(Gregorian(), DayOf(instant)) }
  function WeekStart(instant: int): int { Monday(DayOf(instant)) * DAY }

  // ----- Section 2.2.10 of ISO 8601:2004 -----

  /** The week from `monday` includes the first Thursday of that year. */
  predicate IsFirstWeek(c: Calendar, year: int, monday: int) {
    WeekDay(monday) == 0 && YearOf(c, monday + 3) == year && YearOf(c, monday + 3 - 7) < year
  }

  /**
   * Weeks begin on Monday; week 1 of a year is the one with its first Thursday, the weeks after it are
   * numbered in turn, and the last is the one before week 1 of the next year.
   */
  ghost predicate IsWeekDate(c: Calendar, day: int, year: int, number: int) {
    exists first, next {:trigger IsFirstWeek(c, year, first), IsFirstWeek(c, year + 1, next)} ::
      && IsFirstWeek(c, year, first) && IsFirstWeek(c, year + 1, next)
      && first <= day < next
      && first + 7 * (number - 1) <= day < first + 7 * number
  }

  lemma FirstThursdayInYear(c: Calendar, year: int) returns (k: int)
    ensures FirstThursday(c, year) == 7 * k
    ensures c(year) <= FirstThursday(c, year) < c(year) + 7
  {
    k := ThursdayIs(c(year) + 3);
  }

  lemma FirstThursdayYears(c: Calendar, year: int, t: int)
    requires c(year) <= t < c(year) + 7
    ensures YearOf(c, t) == year && YearOf(c, t - 7) == year - 1
  {
    assert YearFits(c, year);
    assert YearFits(c, year - 1);
    InYear(c, t, year);
    InYear(c, t - 7, year - 1);
  }

  lemma ThursdayHasMonday(k: int)
    ensures WeekDay(7 * k - 3) == 0
  {
  }

  lemma FirstThursdayIsFirst(c: Calendar, year: int)
    ensures IsFirstWeek(c, year, FirstThursday(c, year) - 3)
  {
    var k := FirstThursdayInYear(c, year);
    FirstThursdayYears(c, year, FirstThursday(c, year));
    ThursdayHasMonday(k);
  }

  lemma FirstIsNotLater(c: Calendar, year: int, a: int, b: int)
    requires YearOf(c, a) >= year && YearOf(c, b - 7) < year
    ensures b < a + 7
  {
    if a <= b - 7 {
      YearsFollowDays(c, a, b - 7);
    }
  }

  lemma MondaysApart(a: int, b: int)
    requires WeekDay(a) == 0 && WeekDay(b) == 0 && b < a + 7
    ensures b <= a
  {
  }

  lemma FirstWeekIsUnique(c: Calendar, year: int, a: int, b: int)
    requires IsFirstWeek(c, year, a) && IsFirstWeek(c, year, b)
    ensures a == b
  {
    FirstIsNotLater(c, year, a + 3, b + 3);
    FirstIsNotLater(c, year, b + 3, a + 3);
    MondaysApart(a, b);
    MondaysApart(b, a);
  }

  lemma CountWeeks(start: int, end: int, k: int, f: int)
    requires start <= 7 * f < start + 7 && start <= 7 * k < end && end - start <= 366
    ensures 1 <= 1 + (7 * k - 7 * f) / 7 <= 53 && 7 * k == 7 * f + 7 * ((7 * k - 7 * f) / 7)
  {
  }

  lemma WeekNumberRange(c: Calendar, day: int)
    ensures 1 <= WeekNumber(c, day) <= 53
    ensures Thursday(day) == FirstThursday(c, WeekYear(c, day)) + 7 * (WeekNumber(c, day) - 1)
    ensures Thursday(day) < FirstThursday(c, WeekYear(c, day) + 1)
  {
    var year := WeekYear(c, day);
    var k := ThursdayIs(day);
    var f := FirstThursdayInYear(c, year);
    var n := FirstThursdayInYear(c, year + 1);
    assert YearFits(c, year);
    CountWeeks(c(year), c(year + 1), k, f);
  }

  lemma DayInItsWeek(day: int, first: int, next: int, number: int, n: int)
    requires Thursday(day) == first + 3 + 7 * (number - 1) && number >= 1 && Thursday(day) < next + 3 == 7 * n
    ensures first <= day < next && first + 7 * (number - 1) <= day < first + 7 * number
  {
  }

  lemma ComputedDateIsIso(c: Calendar, day: int)
    ensures IsWeekDate(c, day, WeekYear(c, day), WeekNumber(c, day))
  {
    var y := WeekYear(c, day);
    WeekNumberRange(c, day);
    FirstThursdayIsFirst(c, y);
    FirstThursdayIsFirst(c, y + 1);
    var n := FirstThursdayInYear(c, y + 1);
    var first, next := FirstThursday(c, y) - 3, FirstThursday(c, y + 1) - 3;
    DayInItsWeek(day, first, next, WeekNumber(c, day), n);
    MakesWeekDate(c, day, y, first, next, WeekNumber(c, day));
  }

  lemma MakesWeekDate(c: Calendar, day: int, year: int, first: int, next: int, number: int)
    requires IsFirstWeek(c, year, first) && IsFirstWeek(c, year + 1, next)
    requires first <= day < next && first + 7 * (number - 1) <= day < first + 7 * number
    ensures IsWeekDate(c, day, year, number)
  {
  }

  /** A day from a year's first week up to the next year's has its Thursday in that year. */
  lemma IsoYear(c: Calendar, day: int, year: int, first: int, next: int)
    requires IsFirstWeek(c, year, first) && IsFirstWeek(c, year + 1, next) && first <= day < next
    ensures WeekYear(c, day) == year
  {
    MondaysSurround(first, day, next);
    YearsFollowDays(c, first + 3, Thursday(day));
    YearsFollowDays(c, Thursday(day), next + 3 - 7);
  }

  lemma MondaysSurround(first: int, day: int, next: int)
    requires WeekDay(first) == 0 && WeekDay(next) == 0 && first <= day < next
    ensures first + 3 <= Thursday(day) <= next + 3 - 7
  {
  }

  lemma SameWeeks(first: int, m: int, n: int, day: int)
    requires first + 7 * (m - 1) <= day < first + 7 * m && first + 7 * (n - 1) <= day < first + 7 * n
    ensures m == n
  {
  }

  /** The code computes the ISO week date, and no other year and number fit. */
  lemma WeekDateIsIso(c: Calendar, day: int, year: int, number: int)
    ensures IsWeekDate(c, day, year, number) <==> year == WeekYear(c, day) && number == WeekNumber(c, day)
  {
    ComputedDateIsIso(c, day);
    if IsWeekDate(c, day, year, number) {
      var f, n :| IsFirstWeek(c, year, f) && IsFirstWeek(c, year + 1, n) && f <= day < n
                  && f + 7 * (number - 1) <= day < f + 7 * number;
      IsoYear(c, day, year, f, n);
      var f', n' :| IsFirstWeek(c, year, f') && IsFirstWeek(c, year + 1, n') && f' <= day < n'
                  && f' + 7 * (WeekNumber(c, day) - 1) <= day < f' + 7 * WeekNumber(c, day);
      FirstWeekIsUnique(c, year, f, f');
      SameWeeks(f, number, WeekNumber(c, day), day);
    }
  }

  // ----- Keys -----

  lemma SignedInjective(a: int, b: int)
    requires Signed(a) == Signed(b)
    ensures a == b
  {
    assert a < 0 ==> Signed(a)[0] == '-';
    assert b < 0 ==> Signed(b)[0] == '-';
    assert a >= 0 ==> Signed(a)[0] in Decimal(a);
    assert b >= 0 ==> Signed(b)[0] in Decimal(b);
    if a < 0 {
      assert Decimal(-a) == Signed(a)[1..] && Decimal(-b) == Signed(b)[1..];
      DecimalInjective(-a, -b);
    } else {
      DecimalInjective(a, b);
    }
  }

  lemma PaddedDigits(n: int)
    requires 0 <= n < 100
    ensures Padded(n) == [Digit(n / 10), Digit(n % 10)]
  {
    if n >= 10 {
      assert Decimal(n) == Decimal(n / 10) + [Digit(n % 10)];
      assert Decimal(n / 10) == [Digit(n / 10)];
    }
  }

  lemma MondayThenThursday(day: int)
    ensures Thursday(day) == Monday(day) + 3
  {
  }

  lemma SameThursday(c: Calendar, a: int, b: int)
    requires Thursday(a) == Thursday(b)
    ensures WeekYear(c, a) == WeekYear(c, b) && WeekNumber(c, a) == WeekNumber(c, b)
  {
  }

  lemma DateFixesThursday(c: Calendar, a: int, b: int)
    requires WeekYear(c, a) == WeekYear(c, b) && WeekNumber(c, a) == WeekNumber(c, b)
    ensures Thursday(a) == Thursday(b)
  {
    WeekNumberRange(c, a);
    WeekNumberRange(c, b);
  }

  lemma SameWeekDate(c: Calendar, a: int, b: int)
    ensures WeekYear(c, a) == WeekYear(c, b) && WeekNumber(c, a) == WeekNumber(c, b) <==> Monday(a) == Monday(b)
  {
    MondayThenThursday(a);
    MondayThenThursday(b);
    if Monday(a) == Monday(b) {
      SameThursday(c, a, b);
    } else if WeekYear(c, a) == WeekYear(c, b) && WeekNumber(c, a) == WeekNumber(c, b) {
      DateFixesThursday(c, a, b);
    }
  }

  lemma KeyTextInjective(y: int, m: int, y': int, n: int)
    requires 0 <= m < 100 && 0 <= n < 100 && KeyText(y, m) == KeyText(y', n)
    ensures y == y' && m == n
  {
    var s := KeyText(y, m);
    PaddedDigits(m);
    PaddedDigits(n);
    assert s[|s| - 2] == Padded(m)[0] && s[|s| - 2] == Padded(n)[0];
    assert s[|s| - 1] == Padded(m)[1] && s[|s| - 1] == Padded(n)[1];
    assert s[..|s| - 4] == Signed(y) && s[..|s| - 4] == Signed(y');
    SignedInjective(y, y');
    DigitInjective(m / 10, n / 10);
    DigitInjective(m % 10, n % 10);
  }

  lemma DigitInjective(d: nat, e: nat)
    requires d < 10 && e < 10
    ensures Digit(d) < Digit(e) <==> d < e
    ensures Digit(d) == Digit(e) <==> d == e
  {
  }

  /** Two days share a key exactly when they share a Monday. */
  lemma KeyNamesTheWeek(c: Calendar, a: int, b: int)
    ensures KeyOfDay(c, a) == KeyOfDay(c, b) <==> Monday(a) == Monday(b)
  {
    WeekNumberRange(c, a);
    WeekNumberRange(c, b);
    SameWeekDate(c, a, b);
    if KeyOfDay(c, a) == KeyOfDay(c, b) {
      KeyTextInjective(WeekYear(c, a), WeekNumber(c, a), WeekYear(c, b), WeekNumber(c, b));
    }
  }

  /** The order of strings, character by character. */
  predicate Before(s: string, t: string) {
    t != "" && (s == "" || s[0] < t[0] || (s[0] == t[0] && Before(s[1..], t[1..])))
  }

  /** Numbers of the same length compare as numbers, then by what follows them. */
  lemma {:induction false} DecimalOrder(a: nat, b: nat, s: string, t: string)
    requires |Decimal(a)| == |Decimal(b)|
    ensures Before(Decimal(a) + s, Decimal(b) + t) <==> a < b || (a == b && Before(s, t))
  {
    var d, e := Digit(a % 10), Digit(b % 10);
    assert Before([d] + s, [e] + t) <==> d < e || (d == e && Before(s, t)) by {
      assert ([d] + s)[1..] == s && ([e] + t)[1..] == t;
    }
    DigitInjective(a % 10, b % 10);
    if a >= 10 && b >= 10 {
      assert Decimal(a) + s == Decimal(a / 10) + ([d] + s) && Decimal(b) + t == Decimal(b / 10) + ([e] + t);
      DecimalOrder(a / 10, b / 10, [d] + s, [e] + t);
      Tens(a, b);
    }
  }

  lemma Tens(a: nat, b: nat)
    ensures a < b <==> a / 10 < b / 10 || (a / 10 == b / 10 && a % 10 < b % 10)
    ensures a == b <==> a / 10 == b / 10 && a % 10 == b % 10
  {
  }

  lemma FourDigits(year: nat)
    requires 1000 <= year <= 9999
    ensures |Decimal(year)| == 4
  {
    assert |Decimal(year / 1000)| == 1;
    assert |Decimal(year / 100)| == 2 by { assert year / 100 / 10 == year / 1000; }
    assert |Decimal(year / 10)| == 3 by { assert year / 10 / 10 == year / 100; }
  }

  lemma {:induction false} BeforeSamePrefix(p: string, s: string, t: string)
    ensures Before(p + s, p + t) <==> Before(s, t)
  {
    if p == "" {
      assert p + s == s && p + t == t;
    } else {
      BeforeSamePrefix(p[1..], s, t);
      assert (p + s)[1..] == p[1..] + s && (p + t)[1..] == p[1..] + t;
    }
  }

  lemma WeekDatesInOrder(c: Calendar, a: int, b: int)
    ensures Monday(a) < Monday(b) <==>
      WeekYear(c, a) < WeekYear(c, b) || (WeekYear(c, a) == WeekYear(c, b) && WeekNumber(c, a) < WeekNumber(c, b))
  {
    WeekNumberRange(c, a);
    WeekNumberRange(c, b);
    if Monday(a) < Monday(b) {
      YearsFollowDays(c, Thursday(a), Thursday(b));
    } else {
      YearsFollowDays(c, Thursday(b), Thursday(a));
    }
  }

  lemma YearRange(c: Calendar, day: int, low: int, high: int)
    ensures low <= YearOf(c, day) < high <==> c(low) <= day < c(high)
  {
    var y := YearOf(c, day);
    if low <= y {
      YearStartsGrow(c, low, y);
    } else {
      YearStartsGrow(c, y + 1, low);
    }
    if y < high {
      YearStartsGrow(c, y + 1, high);
    } else {
      YearStartsGrow(c, high, y);
    }
  }

  predicate FourDigitYear(day: int) { 1000 <= YearOf(Gregorian(), day) <= 9999 }

  predicate FourDigitWeek(day: int) { 1000 <= WeekYear(Gregorian(), day) <= 9999 }

  /** The ISO year stays within four digits too: 1 January 1000 is a Wednesday and 31 December 9999 a Friday. */
  lemma WeekYearIsFourDigits(day: int)
    requires FourDigitYear(day)
    ensures FourDigitWeek(day)
  {
    var c := Gregorian();
    YearRange(c, day, 1000, 10000);
    YearRange(c, Thursday(day), 1000, 10000);
    FourDigitBounds();
    ThursdayStays(day);
  }

  lemma FourDigitBounds()
    ensures Gregorian()(1000) == -354285 && Gregorian()(10000) == 2932897
  {
  }

  lemma ThursdayStays(day: int)
    requires -354285 <= day < 2932897
    ensures -354285 <= Thursday(day) < 2932897
  {
  }

  lemma TwoDigitsReadBack(n: int)
    requires 0 <= n < 100
    ensures |Padded(n)| == 2 && Value(Padded(n)) == n
  {
    PaddedDigits(n);
    DigitReadsBack(n / 10);
    DigitReadsBack(n % 10);
    var s := Padded(n);
    assert s[..1] == [s[0]] && s[..1][..0] == "" && Value(s[..1]) == n / 10;
  }

  /** A key reads back as the year and the week it was made from: "2024-W07". */
  lemma KeyReadsBack(day: int)
    requires FourDigitWeek(day)
    ensures var c := Gregorian(); var key := KeyOfDay(c, day);
      && |key| == 8 && key[4..6] == "-W"
      && Value(key[..4]) == WeekYear(c, day) && Value(key[6..]) == WeekNumber(c, day)
  {
    var c := Gregorian();
    var year, week := WeekYear(c, day), WeekNumber(c, day);
    WeekNumberRange(c, day);
    FourDigits(year);
    TwoDigitsReadBack(week);
    DecimalReadsBack(year);
    var key := KeyOfDay(c, day);
    assert key == Decimal(year) + "-W" + Padded(week);
    assert key[..4] == Decimal(year) && key[6..] == Padded(week);
  }

  lemma KeyTextOrder(y: nat, m: int, y': nat, n: int)
    requires 1000 <= y <= 9999 && 1000 <= y' <= 9999 && 0 <= m < 100 && 0 <= n < 100
    ensures Before(KeyText(y, m), KeyText(y', n)) <==> y < y' || (y == y' && m < n)
  {
    FourDigits(y);
    FourDigits(y');
    var s, t := Padded(m), Padded(n);
    assert KeyText(y, m) == Decimal(y) + ("-W" + s);
    assert KeyText(y', n) == Decimal(y') + ("-W" + t);
    DecimalOrder(y, y', "-W" + s, "-W" + t);
    BeforeSamePrefix("-W", s, t);
    PaddedOrder(m, n);
  }

  /** Comparing keys as strings orders weeks by time. */
  lemma KeysInOrder(a: int, b: int)
    requires FourDigitWeek(a) && FourDigitWeek(b)
    ensures Before(KeyOfDay(Gregorian(), a), KeyOfDay(Gregorian(), b)) <==> Monday(a) < Monday(b)
  {
    var c := Gregorian();
    WeekNumberRange(c, a);
    WeekNumberRange(c, b);
    WeekDatesInOrder(c, a, b);
    KeyTextOrder(WeekYear(c, a), WeekNumber(c, a), WeekYear(c, b), WeekNumber(c, b));
  }

  lemma PaddedOrder(m: int, n: int)
    requires 0 <= m < 100 && 0 <= n < 100
    ensures Before(Padded(m), Padded(n)) <==> m < n
  {
    PaddedDigits(m);
    PaddedDigits(n);
    DigitInjective(m / 10, n / 10);
    DigitInjective(m % 10, n % 10);
    Tens(m, n);
    var d, e := [Digit(m % 10)], [Digit(n % 10)];
    assert Padded(m)[1..] == d && Padded(n)[1..] == e;
    assert d[1..] == "" && e[1..] == "" && !Before("", "");
    assert Before(d, e) <==> m % 10 < n % 10;
  }

  // ----- Weeks counted from the one of day 0 -----

  const WEEK := 7 * DAY

  function WeekIndex(instant: int): int { (instant + 3 * DAY) / WEEK }

  /** Midnight on its Monday. */
  function WeekTime(index: int): int { index * WEEK - 3 * DAY }

  lemma WeekTimeIndex(index: int)
    ensures WeekIndex(WeekTime(index)) == index
  {
  }

  lemma IndexIsMonday(instant: int)
    ensures Monday(DayOf(instant)) == 7 * WeekIndex(instant) - 3
    ensures WeekStart(instant) == WeekTime(WeekIndex(instant))
  {
  }

  lemma KeyNamesIndex(s: int, t: int)
    ensures IsoWeekKey(s) == IsoWeekKey(t) <==> WeekIndex(s) == WeekIndex(t)
  {
    IndexIsMonday(s);
    IndexIsMonday(t);
    KeyNamesTheWeek(Gregorian(), DayOf(s), DayOf(t));
  }

  predicate FourDigitInstant(instant: int) { FourDigitWeek(DayOf(instant)) }

  lemma KeysFollowIndex(s: int, t: int)
    requires FourDigitInstant(s) && FourDigitInstant(t)
    ensures Before(IsoWeekKey(s), IsoWeekKey(t)) <==> WeekIndex(s) < WeekIndex(t)
  {
    IndexIsMonday(s);
    IndexIsMonday(t);
    KeysInOrder(DayOf(s), DayOf(t));
  }

  /** A week between two with four-digit years is one too. */
  lemma FourDigitBetween(r: int, s: int, t: int)
    requires FourDigitInstant(r) && FourDigitInstant(t) && WeekIndex(r) <= WeekIndex(s) <= WeekIndex(t)
    ensures FourDigitInstant(s)
  {
    IndexIsMonday(r);
    IndexIsMonday(s);
    IndexIsMonday(t);
    YearsFollowDays(Gregorian(), Thursday(DayOf(r)), Thursday(DayOf(s)));
    YearsFollowDays(Gregorian(), Thursday(DayOf(s)), Thursday(DayOf(t)));
  }
}
