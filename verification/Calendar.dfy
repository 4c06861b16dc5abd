/** The Gregorian calendar by day number: day 0 is Monday, 1 January of year 1. */
module Calendar {

  datatype Date = Date(year: nat, month: nat, day: nat)

  predicate Leap(y: nat) {
    y % 4 == 0 && (y % 100 != 0 || y % 400 == 0)
  }

  function YearLen(y: nat): nat {
    if Leap(y) then 366 else 365
  }

  predicate IsMonth(m: nat) {
    1 <= m <= 12
  }

  function MonthLen(y: nat, m: nat): nat {
    if m == 2 then (if Leap(y) then 29 else 28)
    else if m == 4 || m == 6 || m == 9 || m == 11 then 30
    else 31
  }

  /** The date `r` days into month `m` of year `y`, running on into later months. */
  function DateInYear(r: nat, y: nat, m: nat): Date
    requires IsMonth(m)
    decreases 12 - m as int
  {
    if r < MonthLen(y, m) || m == 12 then Date(y, m, r + 1) else DateInYear(r - MonthLen(y, m), y, m + 1)
  }

  /** The date `r` days into year `y`, running on into later years. */
  function DateFrom(r: nat, y: nat): Date {
    if r < YearLen(y) then DateInYear(r, y, 1) else DateFrom(r - YearLen(y), y + 1)
  }

  function DateOf(day: nat): Date {
    DateFrom(day, 1)
  }

  /** The lengths of the months, and which years have a 29 February. */
  lemma MonthTable(y: nat)
    ensures forall m :: m in {1, 3, 5, 7, 8, 10, 12} ==> MonthLen(y, m) == 31
    ensures forall m :: m in {4, 6, 9, 11} ==> MonthLen(y, m) == 30
    ensures MonthLen(y, 2) == 28 || MonthLen(y, 2) == 29
    ensures MonthLen(y, 2) == 29 <==> y % 400 == 0 || (y % 100 != 0 && y % 4 == 0)
  {
  }

  /** 1 January 1970 was a Thursday, and the weekdays follow each other. */
  lemma EpochIsThursday(day: nat)
    ensures DateOf(719162) == Date(1970, 1, 1) && Weekday(719162) == 4
    ensures Weekday(day + 1) == if Weekday(day) == 6 then 0 else Weekday(day) + 1
  {
    EpochDate();
  }

  lemma EpochDate()
    ensures DateOf(719162) == Date(1970, 1, 1)
  {
    assert Span(1, 1969) == 719162 by {
      SpanClosed(1969);
    }
    assert MonthSpan(1970, 1, 1) == 0;
    DayOfYear(1969, 1, 1);
  }

  /** 0 is Sunday. */
  function Weekday(day: nat): (w: nat)
    ensures w < 7
  {
    (day + 1) % 7
  }

  /** The total length of the `n` years from `y` on. */
  function Span(y: nat, n: nat): nat
    decreases n
  {
    if n == 0 then 0 else YearLen(y) + Span(y + 1, n - 1)
  }

  lemma {:induction false} SpanSnoc(y: nat, n: nat)
    ensures Span(y, n + 1) == Span(y, n) + YearLen(y + n)
    decreases n
  {
    if n > 0 {
      SpanSnoc(y + 1, n - 1);
    }
  }

  /** A year has 365 days and every fourth, but not every hundredth, but every four-hundredth one more. */
  lemma {:induction false} SpanClosed(n: nat)
    ensures Span(1, n) == 365 * n + n / 4 - n / 100 + n / 400
  {
    if n > 0 {
      SpanClosed(n - 1);
      SpanSnoc(1, n - 1);
      FoursUpTo(n);
      HundredsUpTo(n);
      FourHundredsUpTo(n);
      CenturiesAreFourths(n);
      assert YearLen(1 + (n - 1)) == 365 + if Leap(n) then 1 else 0;
    }
  }

  lemma FoursUpTo(n: nat)
    requires n > 0
    ensures n / 4 == (n - 1) / 4 + if n % 4 == 0 then 1 else 0
  {
  }

  lemma HundredsUpTo(n: nat)
    requires n > 0
    ensures n / 100 == (n - 1) / 100 + if n % 100 == 0 then 1 else 0
  {
  }

  lemma FourHundredsUpTo(n: nat)
    requires n > 0
    ensures n / 400 == (n - 1) / 400 + if n % 400 == 0 then 1 else 0
  {
  }

  lemma CenturiesAreFourths(n: nat)
    ensures n % 100 == 0 ==> n % 4 == 0
    ensures n % 400 == 0 ==> n % 100 == 0
  {
    if n % 100 == 0 {
      assert n == 4 * (25 * (n / 100));
    }
    if n % 400 == 0 {
      assert n == 100 * (4 * (n / 400));
    }
  }

  /** 29 February is the sixtieth day of a leap year, and of no other. */
  lemma LeapDayIsDay59(k: nat, y: nat)
    ensures DateInYear(k, y, 1).month == 2 && DateInYear(k, y, 1).day == 29 <==> k == 59 && Leap(y)
  {
    if k >= 31 {
      assert DateInYear(k, y, 1) == DateInYear(k - 31, y, 2);
      if k - 31 >= MonthLen(y, 2) {
        LaterMonths(k - 31 - MonthLen(y, 2), y, 3);
      }
    }
  }

  lemma {:induction false} LaterMonths(k: nat, y: nat, m: nat)
    requires IsMonth(m)
    ensures DateInYear(k, y, m).month >= m
    decreases 12 - m as int
  {
    if k >= MonthLen(y, m) && m < 12 {
      LaterMonths(k - MonthLen(y, m), y, m + 1);
    }
  }

  lemma {:induction false} DateInYearAfter(y: nat, n: nat, k: nat)
    requires k < YearLen(y + n)
    ensures DateFrom(Span(y, n) + k, y) == DateInYear(k, y + n, 1)
    decreases n
  {
    if n > 0 {
      DateInYearAfter(y + 1, n - 1, k);
    }
  }

  /** Every day lies some days into some year. */
  lemma {:induction false} YearOfDay(r: nat, y: nat) returns (n: nat, k: nat)
    ensures r == Span(y, n) + k && k < YearLen(y + n)
  {
    if r < YearLen(y) {
      n, k := 0, r;
    } else {
      n, k := YearOfDay(r - YearLen(y), y + 1);
      n := n + 1;
    }
  }

  predicate Real(date: Date) {
    IsMonth(date.month) && 1 <= date.day <= MonthLen(date.year, date.month)
  }

  /** Every day has a month and a day that the month has. */
  lemma DateIsReal(day: nat)
    ensures Real(DateOf(day))
  {
    var n, k := YearOfDay(day, 1);
    assert DateOf(day) == DateInYear(k, 1 + n, 1) by {
      DateInYearAfter(1, n, k);
    }
    WholeYear(1 + n);
    DateInMonth(k, 1 + n, 1);
  }

  lemma WholeYear(y: nat)
    ensures MonthSpan(y, 1, 12) + MonthLen(y, 12) == YearLen(y)
  {
    FromFebruary(y);
  }

  lemma {:induction false} DateInMonth(k: nat, y: nat, m: nat)
    requires IsMonth(m) && k < MonthSpan(y, m, 12) + MonthLen(y, 12)
    ensures Real(DateInYear(k, y, m))
    decreases 12 - m as int
  {
    if k >= MonthLen(y, m) && m < 12 {
      DateInMonth(k - MonthLen(y, m), y, m + 1);
    }
  }

  /** Days from the start of month `from` to the start of month `until`. */
  function MonthSpan(y: nat, from: nat, until: nat): nat
    requires from <= until
    decreases until as int - from
  {
    if from == until then 0 else MonthLen(y, from) + MonthSpan(y, from + 1, until)
  }

  lemma {:induction false} DayOfMonth(y: nat, from: nat, m: nat, d: nat)
    requires 1 <= from <= m <= 12 && 1 <= d <= MonthLen(y, m)
    ensures DateInYear(MonthSpan(y, from, m) + d - 1, y, from) == Date(y, m, d)
    decreases m as int - from
  {
    if from < m {
      var rest := MonthSpan(y, from + 1, m) + d - 1;
      assert MonthSpan(y, from, m) + d - 1 == MonthLen(y, from) + rest;
      NextMonth(rest, y, from);
      DayOfMonth(y, from + 1, m, d);
    } else {
      FirstMonth(d - 1, y, m);
    }
  }

  lemma FirstMonth(r: nat, y: nat, m: nat)
    requires IsMonth(m) && r < MonthLen(y, m)
    ensures DateInYear(r, y, m) == Date(y, m, r + 1)
  {
  }

  lemma NextMonth(r: nat, y: nat, m: nat)
    requires 1 <= m < 12
    ensures DateInYear(MonthLen(y, m) + r, y, m) == DateInYear(r, y, m + 1)
  {
  }

  lemma FromJuly(y: nat)
    ensures MonthSpan(y, 7, 12) == 153
  {
    assert MonthSpan(y, 10, 12) == 61;
  }

  lemma FromFebruary(y: nat)
    ensures MonthSpan(y, 2, 12) == 275 + MonthLen(y, 2)
  {
    FromJuly(y);
    assert MonthSpan(y, 5, 12) == 214;
  }

  lemma YearFits(y: nat, m: nat)
    requires IsMonth(m)
    ensures MonthSpan(y, 1, m) + MonthLen(y, m) <= YearLen(y)
  {
    FromFebruary(y);
    SpanParts(y, 1, m, 12);
    if m < 12 {
      assert MonthSpan(y, m, 12) == MonthLen(y, m) + MonthSpan(y, m + 1, 12);
    }
  }

  lemma {:induction false} SpanParts(y: nat, a: nat, b: nat, c: nat)
    requires a <= b <= c
    ensures MonthSpan(y, a, c) == MonthSpan(y, a, b) + MonthSpan(y, b, c)
    decreases b as int - a
  {
    if a < b {
      SpanParts(y, a + 1, b, c);
    }
  }

  /** `start` is the first of month `m`. */
  ghost predicate MonthBegins(start: nat, m: nat) {
    forall day :: start <= day < start + MonthLen(1, m) ==> DateOf(day).month == m && DateOf(day).day == day - start + 1
  }

  lemma DayOfYear(n: nat, m: nat, d: nat)
    requires IsMonth(m) && 1 <= d <= MonthLen(1 + n, m)
    ensures DateOf(Span(1, n) + MonthSpan(1 + n, 1, m) + d - 1) == Date(1 + n, m, d)
  {
    YearFits(1 + n, m);
    DayOfMonth(1 + n, 1, m, d);
    DateInYearAfter(1, n, MonthSpan(1 + n, 1, m) + d - 1);
  }

  lemma CommonYearIsShortest(y: nat, m: nat)
    ensures MonthLen(1, m) <= MonthLen(y, m)
  {
  }

  lemma MonthOfYear(n: nat, m: nat)
    requires IsMonth(m)
    ensures MonthBegins(Span(1, n) + MonthSpan(1 + n, 1, m), m)
  {
    var start := Span(1, n) + MonthSpan(1 + n, 1, m);
    CommonYearIsShortest(1 + n, m);
    forall day | start <= day < start + MonthLen(1, m)
      ensures DateOf(day).month == m && DateOf(day).day == day - start + 1
    {
      DayOfYear(n, m, day - start + 1);
    }
  }

  /** Every month comes round within two years of any day, with at least the days it has in a common year. */
  lemma ComesRound(today: nat, m: nat) returns (start: nat)
    requires IsMonth(m)
    ensures today < start && start + MonthLen(1, m) <= today + 733 && MonthBegins(start, m)
  {
    var n, k := YearOfDay(today, 1);
    SpanSnoc(1, n);
    YearFits(n + 2, m);
    start := Span(1, n + 1) + MonthSpan(n + 2, 1, m);
    MonthOfYear(n + 1, m);
  }

  /** Any seven days in a row include every weekday. */
  lemma WeekHasAll(day: nat, w: nat) returns (on: nat)
    requires w < 7
    ensures day <= on < day + 7 && Weekday(on) == w
  {
    on := if w >= Weekday(day) then day + (w - Weekday(day)) else day + 7 - (Weekday(day) - w);
  }
}
