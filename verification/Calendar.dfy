/**
 * The proleptic Gregorian calendar of years 1 to 9999, as far as `datetime` values need it. Wall
 * times and instants are both counted in whole seconds from 0001-01-01T00:00:00.
 */
module Calendar {

  datatype DateTime = DateTime(year: int, month: int, day: int, hour: int, minute: int, second: int)

  datatype Date = Date(year: int, month: int, day: int)

  function DateOf(t: DateTime): Date { Date(t.year, t.month, t.day) }

  predicate IsLeap(y: int) { y % 4 == 0 && (y % 100 != 0 || y % 400 == 0) }

  function DaysInMonth(y: int, m: int): (d: int)
    ensures 28 <= d <= 31
  {
    if m == 2 then (if IsLeap(y) then 29 else 28)
    else if m == 4 || m == 6 || m == 9 || m == 11 then 30
    else 31
  }

  function DaysInYear(y: int): int { if IsLeap(y) then 366 else 365 }

  function DaysBeforeYear(y: int): (d: int)
    requires y >= 1
    ensures d >= y - 1
  {
    if y == 1 then 0 else DaysBeforeYear(y - 1) + DaysInYear(y - 1)
  }

  function DaysBeforeMonth(y: int, m: int): (d: int)
    requires 1 <= m <= 13
    ensures d >= m - 1
  {
    if m == 1 then 0 else DaysBeforeMonth(y, m - 1) + DaysInMonth(y, m - 1)
  }

  predicate ValidDate(d: Date) {
    1 <= d.year <= 9999 && 1 <= d.month <= 12 && 1 <= d.day <= DaysInMonth(d.year, d.month)
  }

  predicate Valid(t: DateTime) {
    ValidDate(DateOf(t)) && 0 <= t.hour < 24 && 0 <= t.minute < 60 && 0 <= t.second < 60
  }

  function DayNumber(d: Date): int
    requires d.year >= 1 && 1 <= d.month <= 12
  {
    DaysBeforeYear(d.year) + DaysBeforeMonth(d.year, d.month) + d.day - 1
  }

  function Seconds(t: DateTime): int
    requires Valid(t)
  {
    86400 * DayNumber(DateOf(t)) + 3600 * t.hour + 60 * t.minute + t.second
  }

  // The first second that is no longer a `datetime`: midnight of the first of January 10000.
  function End(): int { 86400 * 3652059 }

  lemma {:induction false} LeapYears(y: int)
    requires y >= 1
    ensures DaysBeforeYear(y) == 365 * (y - 1) + (y - 1) / 4 - (y - 1) / 100 + (y - 1) / 400
  {
    if y > 1 {
      LeapYears(y - 1);
      NextMultiple(y - 2, 4);
      NextMultiple(y - 2, 100);
      NextMultiple(y - 2, 400);
      MultiplesNest(y - 1);
    }
  }

  lemma NextMultiple(n: int, k: int)
    requires n >= 0 && k in {4, 100, 400}
    ensures (n + 1) / k == n / k + (if (n + 1) % k == 0 then 1 else 0)
  {
  }

  lemma MultiplesNest(n: int)
    ensures (n % 400 == 0 ==> n % 100 == 0) && (n % 100 == 0 ==> n % 4 == 0)
  {
  }

  lemma EndIsTheLastYear(y: int)
    requires y == 10000
    ensures 86400 * DaysBeforeYear(y) == End()
  {
    LeapYears(y);
  }

  predicate InRange(n: int) { 0 <= n < End() }

  type WallTime = t: DateTime | Valid(t) witness DateTime(1, 1, 1, 0, 0, 0)

  type Instant = n: int | InRange(n)

  // ----- back from seconds -----

  function YearFrom(days: int, y: int): (r: int)
    requires y >= 1 && DaysBeforeYear(y) <= days
    ensures r >= y && DaysBeforeYear(r) <= days < DaysBeforeYear(r + 1)
    decreases days - DaysBeforeYear(y)
  {
    if days < DaysBeforeYear(y + 1) then y else YearFrom(days, y + 1)
  }

  function MonthFrom(y: int, days: int, m: int): (r: int)
    requires 1 <= m <= 12 && DaysBeforeMonth(y, m) <= days < DaysBeforeMonth(y, 13)
    ensures m <= r <= 12 && DaysBeforeMonth(y, r) <= days < DaysBeforeMonth(y, r + 1)
    decreases 12 - m
  {
    if days < DaysBeforeMonth(y, m + 1) then m else MonthFrom(y, days, m + 1)
  }

  lemma YearLength(y: int)
    ensures DaysBeforeMonth(y, 13) == DaysInYear(y)
  {
    assert DaysBeforeMonth(y, 3) == DaysBeforeMonth(y, 2) + DaysInMonth(y, 2) && DaysBeforeMonth(y, 2) == 31;
    assert DaysBeforeMonth(y, 5) == DaysBeforeMonth(y, 4) + 30 == DaysBeforeMonth(y, 3) + 61;
    assert DaysBeforeMonth(y, 7) == DaysBeforeMonth(y, 6) + 30 == DaysBeforeMonth(y, 5) + 61;
    assert DaysBeforeMonth(y, 9) == DaysBeforeMonth(y, 8) + 31 == DaysBeforeMonth(y, 7) + 62;
    assert DaysBeforeMonth(y, 11) == DaysBeforeMonth(y, 10) + 31 == DaysBeforeMonth(y, 9) + 61;
    assert DaysBeforeMonth(y, 13) == DaysBeforeMonth(y, 12) + 31 == DaysBeforeMonth(y, 11) + 61;
  }

  function FromSeconds(n: int): DateTime
    requires n >= 0
  {
    var days, rest := n / 86400, n % 86400;
    var y := YearFrom(days, 1);
    YearLength(y);
    var m := MonthFrom(y, days - DaysBeforeYear(y), 1);
    DateTime(y, m, days - DaysBeforeYear(y) - DaysBeforeMonth(y, m) + 1, rest / 3600, rest % 3600 / 60, rest % 60)
  }

  lemma {:induction false} YearsAscend(y: int, z: int)
    requires 1 <= y < z
    ensures DaysBeforeYear(y) + DaysInYear(y) <= DaysBeforeYear(z)
  {
    if y < z - 1 { YearsAscend(y, z - 1); }
  }

  lemma {:induction false} MonthsAscend(y: int, m: int, k: int)
    requires 1 <= m < k <= 13
    ensures DaysBeforeMonth(y, m) + DaysInMonth(y, m) <= DaysBeforeMonth(y, k)
  {
    if m < k - 1 { MonthsAscend(y, m, k - 1); }
  }

  lemma SplitDay(n: int)
    requires 0 <= n < 86400
    ensures 0 <= n / 3600 < 24 && 0 <= n % 3600 / 60 < 60 && 0 <= n % 60 < 60
    ensures 3600 * (n / 3600) + 60 * (n % 3600 / 60) + n % 60 == n
  {
    assert n % 3600 % 60 == n % 60;
  }

  // Every second in range is a valid wall time, and is that wall time's number.
  lemma FromSecondsIsInverse(n: int)
    requires InRange(n)
    ensures Valid(FromSeconds(n)) && Seconds(FromSeconds(n)) == n
  {
    var days := n / 86400;
    var y := YearFrom(days, 1);
    if y >= 10000 { EndIsTheLastYear(10000); }
    if y > 10000 { YearsAscend(10000, y); }
    YearLength(y);
    SplitDay(n % 86400);
  }

  function NextDay(d: Date): Date {
    if d.day < DaysInMonth(d.year, d.month) then Date(d.year, d.month, d.day + 1)
    else if d.month < 12 then Date(d.year, d.month + 1, 1)
    else Date(d.year + 1, 1, 1)
  }

  lemma NextDayFollows(d: Date)
    requires ValidDate(d)
    ensures DayNumber(NextDay(d)) == DayNumber(d) + 1
    ensures ValidDate(NextDay(d)) <==> d != Date(9999, 12, 31)
  {
    YearLength(d.year);
  }

  // ----- order -----

  predicate DateBefore(a: Date, b: Date) {
    a.year < b.year || (a.year == b.year && (a.month < b.month || (a.month == b.month && a.day < b.day)))
  }

  predicate TimeBefore(a: DateTime, b: DateTime) {
    a.hour < b.hour || (a.hour == b.hour && (a.minute < b.minute || (a.minute == b.minute && a.second < b.second)))
  }

  predicate Before(a: DateTime, b: DateTime) {
    DateBefore(DateOf(a), DateOf(b)) || (DateOf(a) == DateOf(b) && TimeBefore(a, b))
  }

  lemma DatesAscend(a: Date, b: Date)
    requires ValidDate(a) && ValidDate(b) && DateBefore(a, b)
    ensures DayNumber(a) < DayNumber(b)
  {
    MonthsAscend(a.year, a.month, 13);
    YearLength(a.year);
    if a.year < b.year {
      YearsAscend(a.year, b.year);
    } else if a.month < b.month {
      MonthsAscend(a.year, a.month, b.month);
    }
  }

  lemma SecondsAscend(a: DateTime, b: DateTime)
    requires Valid(a) && Valid(b)
    ensures Before(a, b) <==> Seconds(a) < Seconds(b)
    ensures a == b <==> Seconds(a) == Seconds(b)
  {
    if DateBefore(DateOf(a), DateOf(b)) {
      DatesAscend(DateOf(a), DateOf(b));
    } else if DateBefore(DateOf(b), DateOf(a)) {
      DatesAscend(DateOf(b), DateOf(a));
    }
  }

  lemma SecondsInRange(t: DateTime)
    requires Valid(t)
    ensures InRange(Seconds(t))
  {
    MonthsAscend(t.year, t.month, 13);
    YearLength(t.year);
    YearsAscend(t.year, 10000);
    EndIsTheLastYear(10000);
  }

  // The wall time whose number is `n`; there is exactly one.
  ghost function WallOf(n: int): (t: WallTime)
    requires InRange(n)
    ensures Seconds(t) == n
  {
    FromSecondsIsInverse(n);
    var t: WallTime :| Seconds(t) == n;
    t
  }

  lemma OneWallTime(a: WallTime, b: WallTime)
    requires Seconds(a) == Seconds(b)
    ensures a == b
  {
    SecondsAscend(a, b);
  }

  method ToWall(n: int) returns (t: WallTime)
    requires InRange(n)
    ensures t == WallOf(n)
  {
    FromSecondsIsInverse(n);
    t := FromSeconds(n);
    OneWallTime(t, WallOf(n));
  }
}
