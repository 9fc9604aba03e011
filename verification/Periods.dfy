/** Calendar time stamps and `_period_end`: when the billing period that starts at a stamp ends. */
module Periods {
  import opened Totals

  const DAY := 86_400_000_000

  /** A UTC date and the microseconds into that day. */
  datatype Stamp = Stamp(year: int, month: int, day: int, time: int)

  datatype Interval = Month | Year | OneTime

  predicate Leap(year: int) { year % 4 == 0 && (year % 100 != 0 || year % 400 == 0) }

  function DaysIn(year: int, month: int): int {
    if month == 2 then (if Leap(year) then 29 else 28)
    else if month == 4 || month == 6 || month == 9 || month == 11 then 30
    else 31
  }

  predicate Valid(s: Stamp) {
    1 <= s.year <= 9999 && 1 <= s.month <= 12 && 1 <= s.day <= DaysIn(s.year, s.month) && 0 <= s.time < DAY
  }

  /** The order of time. */
  function Ordinal(s: Stamp): int { ((s.year * 12 + s.month) * 31 + s.day) * DAY + s.time }

  predicate Before(a: Stamp, b: Stamp) { Ordinal(a) < Ordinal(b) }

  predicate NotAfter(a: Stamp, b: Stamp) { Ordinal(a) <= Ordinal(b) }

  /** What `datetime.replace` gives; None for its ValueError. */
  function Replaced(s: Stamp): (r: Option<Stamp>)
    ensures r.Some? ==> Valid(r.value)
  {
    if Valid(s) then Some(s) else None
  }

  /** The same time on the next day; None past the last day of the year 9999. */
  function NextDay(s: Stamp): Option<Stamp> {
    if s.day < DaysIn(s.year, s.month) then Some(s.(day := s.day + 1))
    else if s.month < 12 then Some(s.(month := s.month + 1, day := 1))
    else if s.year < 9999 then Some(s.(year := s.year + 1, month := 1, day := 1))
    else None
  }

  /** Adding `timedelta(days=n)`. */
  function AddDays(s: Stamp, n: nat): Option<Stamp> {
    if n == 0 then Some(s)
    else
      var before := AddDays(s, n - 1);
      if before.None? then None else NextDay(before.value)
  }

  /** The start shifted to the next month, its day kept. */
  function NextMonth(s: Stamp): Stamp {
    if s.month == 12 then s.(year := s.year + 1, month := 1) else s.(month := s.month + 1)
  }

  /** `_period_end`; None where it raises. */
  function PeriodEnd(s: Stamp, interval: Interval): Option<Stamp> {
    match interval
    case Year =>
      var same := Replaced(s.(year := s.year + 1));
      if same.Some? then same else Replaced(s.(year := s.year + 1, day := 28))
    case OneTime => AddDays(s, 3650)
    case Month => Replaced(NextMonth(s))
  }

  lemma {:induction false} DaysAdded(s: Stamp, n: nat)
    requires Valid(s) && AddDays(s, n).Some?
    ensures Valid(AddDays(s, n).value) && Ordinal(s) + n * DAY <= Ordinal(AddDays(s, n).value)
  {
    if 0 < n { DaysAdded(s, n - 1); }
  }

  /** A period ends strictly after it starts, at a real date. */
  lemma PeriodEndIsLater(s: Stamp, interval: Interval)
    requires Valid(s) && PeriodEnd(s, interval).Some?
    ensures Valid(PeriodEnd(s, interval).value) && Before(s, PeriodEnd(s, interval).value)
  {
    if interval.OneTime? { DaysAdded(s, 3650); }
  }

  /** a is earlier than b by year, then month, then day, then time of day. */
  predicate Earlier(a: Stamp, b: Stamp) {
    a.year < b.year || (a.year == b.year && (a.month < b.month || (a.month == b.month && (a.day < b.day || (a.day == b.day && a.time < b.time)))))
  }

  /** On real dates the order of time is the order of the calendar, and only equal stamps are at the same time. */
  lemma OrderIsCalendar(a: Stamp, b: Stamp)
    requires Valid(a) && Valid(b)
    ensures Before(a, b) <==> Earlier(a, b)
    ensures NotAfter(a, b) <==> Earlier(a, b) || a == b
  {
    var m, n := a.year * 12 + a.month, b.year * 12 + b.month;
    assert m < n <==> a.year < b.year || (a.year == b.year && a.month < b.month);
    assert m == n <==> a.year == b.year && a.month == b.month;
  }

  // ----- the calendar's own count of days -----

  function DaysBeforeYear(year: int): int
    decreases if year < 1 then 0 else year
  {
    if year <= 1 then 0 else DaysBeforeYear(year - 1) + if Leap(year - 1) then 366 else 365
  }

  function DaysBeforeMonth(year: int, month: int): int
    decreases if month < 1 then 0 else month
  {
    if month <= 1 then 0 else DaysBeforeMonth(year, month - 1) + DaysIn(year, month - 1)
  }

  /** Days since 1 January of the year 1. */
  function DayNumber(s: Stamp): int { DaysBeforeYear(s.year) + DaysBeforeMonth(s.year, s.month) + s.day - 1 }

  lemma Every4(y: int)
    ensures y / 4 == (y - 1) / 4 + if y % 4 == 0 then 1 else 0
  {
  }

  lemma Every100(y: int)
    ensures y / 100 == (y - 1) / 100 + if y % 100 == 0 then 1 else 0
    ensures y % 100 == 0 ==> y % 4 == 0
  {
  }

  lemma Every400(y: int)
    ensures y / 400 == (y - 1) / 400 + if y % 400 == 0 then 1 else 0
    ensures y % 400 == 0 ==> y % 100 == 0
  {
  }

  lemma LeapDays(y: int)
    ensures y / 4 - y / 100 + y / 400 == (y - 1) / 4 - (y - 1) / 100 + (y - 1) / 400 + if Leap(y) then 1 else 0
  {
    Every4(y);
    Every100(y);
    Every400(y);
  }

  /** The Gregorian rule in closed form: 365 days a year, one more every fourth, not every hundredth, but every four hundredth. */
  lemma {:induction false} YearsAreGregorian(year: int)
    requires 1 <= year
    ensures DaysBeforeYear(year) == 365 * (year - 1) + (year - 1) / 4 - (year - 1) / 100 + (year - 1) / 400
  {
    if 1 < year {
      YearsAreGregorian(year - 1);
      LeapDays(year - 1);
    }
  }

  const MONTH_STARTS := [0, 31, 59, 90, 120, 151, 181, 212, 243, 273, 304, 334]

  lemma {:induction false} MonthsAreGregorian(year: int, month: int)
    requires 1 <= month <= 12
    ensures DaysBeforeMonth(year, month) == MONTH_STARTS[month - 1] + if 2 < month && Leap(year) then 1 else 0
    ensures month == 12 ==> DaysIn(year, month) == 31
  {
    if 1 < month { MonthsAreGregorian(year, month - 1); }
  }

  lemma YearLength(year: int)
    ensures DaysBeforeMonth(year, 12) + 31 == if Leap(year) then 366 else 365
  {
    MonthsAreGregorian(year, 12);
  }

  /** The next day has the next number, and the same time of day. */
  lemma NextDayIsNext(s: Stamp)
    requires Valid(s)
    ensures NextDay(s).Some? <==> s.year < 9999 || s.month < 12 || s.day < 31
    ensures NextDay(s).Some? ==> DayNumber(NextDay(s).value) == DayNumber(s) + 1 && NextDay(s).value.time == s.time
  {
    if s.day < DaysIn(s.year, s.month) {
    } else if s.month < 12 {
      assert DaysBeforeMonth(s.year, s.month + 1) == DaysBeforeMonth(s.year, s.month) + DaysIn(s.year, s.month);
    } else {
      YearLength(s.year);
      assert DaysBeforeMonth(s.year + 1, 1) == 0;
      assert DaysBeforeYear(s.year + 1) == DaysBeforeYear(s.year) + if Leap(s.year) then 366 else 365;
    }
  }

  /** n days later is exactly n days later. */
  lemma {:induction false} DaysAreCounted(s: Stamp, n: nat)
    requires Valid(s) && AddDays(s, n).Some?
    ensures Valid(AddDays(s, n).value) && DayNumber(AddDays(s, n).value) == DayNumber(s) + n && AddDays(s, n).value.time == s.time
  {
    if 0 < n {
      DaysAreCounted(s, n - 1);
      DaysAdded(s, n - 1);
      NextDayIsNext(AddDays(s, n - 1).value);
    }
  }

  /** So many days later at the same time of day, or none when that is past the calendar's last day. */
  predicate DaysLater(s: Stamp, days: nat, end: Option<Stamp>) {
    match end
    case Some(e) => Valid(e) && DayNumber(e) == DayNumber(s) + days && e.time == s.time
    case None => DayNumber(Stamp(9999, 12, 31, 0)) < DayNumber(s) + days
  }

  lemma {:induction false} AddDaysIs(s: Stamp, days: nat)
    requires Valid(s)
    ensures DaysLater(s, days, AddDays(s, days))
  {
    if AddDays(s, days).Some? {
      DaysAreCounted(s, days);
    } else {
      AddDaysIs(s, days - 1);
      if AddDays(s, days - 1).Some? {
        DaysAdded(s, days - 1);
        NextDayIsNext(AddDays(s, days - 1).value);
      }
    }
  }

  lemma {:induction false} MonthsInOrder(year: int, a: int, b: int)
    requires 1 <= a < b <= 12
    ensures DaysBeforeMonth(year, a) + DaysIn(year, a) <= DaysBeforeMonth(year, b)
    decreases b
  {
    if a < b - 1 { MonthsInOrder(year, a, b - 1); }
  }

  lemma {:induction false} YearsInOrder(a: int, b: int)
    requires 1 <= a < b
    ensures DaysBeforeYear(a) + (if Leap(a) then 366 else 365) <= DaysBeforeYear(b)
    decreases b
  {
    if a < b - 1 { YearsInOrder(a, b - 1); }
  }

  lemma DayOfYearBounds(s: Stamp)
    requires Valid(s)
    ensures 0 <= DaysBeforeMonth(s.year, s.month) + s.day - 1 < if Leap(s.year) then 366 else 365
  {
    YearLength(s.year);
    if s.month < 12 { MonthsInOrder(s.year, s.month, 12); }
    if 1 < s.month { MonthsInOrder(s.year, 1, s.month); }
  }

  /** A date has its own number: day number and time of day tell stamps apart. */
  lemma NumberedApart(a: Stamp, b: Stamp)
    requires Valid(a) && Valid(b) && DayNumber(a) == DayNumber(b) && a.time == b.time
    ensures a == b
  {
    DayOfYearBounds(a);
    DayOfYearBounds(b);
    if a.year < b.year { YearsInOrder(a.year, b.year); }
    if b.year < a.year { YearsInOrder(b.year, a.year); }
    if a.month < b.month { MonthsInOrder(a.year, a.month, b.month); }
    if b.month < a.month { MonthsInOrder(a.year, b.month, a.month); }
  }

  // ----- the exact ends -----

  /** A month later is the same day and time of the next month; there is no end exactly when that month has no such day. */
  lemma MonthlyEnd(s: Stamp, end: Stamp)
    requires Valid(s)
    ensures PeriodEnd(s, Month) == Some(end) <==>
      (Valid(end) && end.day == s.day && end.time == s.time && end.year * 12 + end.month == s.year * 12 + s.month + 1)
  {
  }

  /** A year later is the same date, or 28 February after a 29th; there is no end exactly in the calendar's last year. */
  lemma YearlyEnd(s: Stamp)
    requires Valid(s)
    ensures PeriodEnd(s, Year) ==
      if s.year == 9999 then None
      else Some(Stamp(s.year + 1, s.month, if s.month == 2 && s.day == 29 then 28 else s.day, s.time))
  {
  }

  /** A single purchase ends exactly 3650 days later, at the same time of day, as far as the calendar goes. */
  lemma OneTimeEnd(s: Stamp)
    requires Valid(s)
    ensures DaysLater(s, 3650, PeriodEnd(s, OneTime))
  {
    AddDaysIs(s, 3650);
  }

  /** n renewals in a row. */
  function Renewed(s: Stamp, interval: Interval, n: nat): Option<Stamp> {
    if n == 0 then Some(s)
    else
      var before := Renewed(s, interval, n - 1);
      if before.None? then None else PeriodEnd(before.value, interval)
  }

  /** n yearly renewals are n years later, as far as the calendar goes, on the same date but for a 29 February. */
  lemma {:induction false} YearlyRenewals(s: Stamp, n: nat)
    requires Valid(s)
    ensures Renewed(s, Year, n) ==
      if 9999 < s.year + n then None
      else Some(Stamp(s.year + n, s.month, if 0 < n && s.month == 2 && s.day == 29 then 28 else s.day, s.time))
  {
    if 0 < n {
      YearlyRenewals(s, n - 1);
      if s.year + n - 1 <= 9999 { YearlyEnd(Renewed(s, Year, n - 1).value); }
    }
  }

  function MonthsFrom(s: Stamp, n: int): Stamp {
    var m := s.month - 1 + n;
    s.(year := s.year + m / 12, month := m % 12 + 1)
  }

  /** Monthly renewals never drift: as long as they are defined they keep the day and move one month each. */
  lemma {:induction false} RenewalsKeepTheDay(s: Stamp, n: nat)
    requires Valid(s)
    ensures Renewed(s, Month, n).Some? ==> Renewed(s, Month, n).value == MonthsFrom(s, n)
    ensures Renewed(s, Month, n).Some? <==> forall k: nat :: k <= n ==> Valid(MonthsFrom(s, k))
  {
    if 0 < n {
      RenewalsKeepTheDay(s, n - 1);
      assert NextMonth(MonthsFrom(s, n - 1)) == MonthsFrom(s, n);
    } else {
      assert MonthsFrom(s, 0) == s;
    }
  }

  lemma EarlyDayIsInEveryMonth(s: Stamp, k: nat, n: nat)
    requires Valid(s) && s.year + n / 12 < 9999 && s.day <= 28 && k <= n
    ensures Valid(MonthsFrom(s, k))
  {
  }

  /** The months of two consecutive Februaries on the way. */
  lemma TwoFebruaries(s: Stamp) returns (k: nat)
    requires Valid(s)
    ensures k <= 11
    ensures MonthsFrom(s, k).month == 2 && MonthsFrom(s, k + 12).month == 2
    ensures MonthsFrom(s, k + 12).year == MonthsFrom(s, k).year + 1
    ensures MonthsFrom(s, k).day == s.day == MonthsFrom(s, k + 12).day
  {
    k := if s.month <= 2 then 2 - s.month else 14 - s.month;
  }

  /** Short of the calendar's last year, monthly renewal goes on for two years or more exactly when the day is at most the 28th. */
  lemma MonthlyRenewalLastsIff(s: Stamp, n: nat)
    requires Valid(s) && 24 <= n && s.year + n / 12 < 9999
    ensures Renewed(s, Month, n).Some? <==> s.day <= 28
  {
    RenewalsKeepTheDay(s, n);
    if s.day <= 28 {
      forall k: nat | k <= n ensures Valid(MonthsFrom(s, k)) { EarlyDayIsInEveryMonth(s, k, n); }
    } else {
      var k := TwoFebruaries(s);
      assert !Valid(MonthsFrom(s, k)) || !Valid(MonthsFrom(s, k + 12));
    }
  }
}
