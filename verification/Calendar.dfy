// The proleptic Gregorian calendar over ordinals (day 1 is Monday, January 1 of year
// 1), and ISO week numbers (section 3.2.2 of ISO 8601:2004).
module Calendar {
  type Day = d: int | d >= 1 witness 1

  predicate Leap(y: int) { y % 4 == 0 && (y % 100 != 0 || y % 400 == 0) }

  function Jan1(y: int): int {
    365 * (y - 1) + (y - 1) / 4 - (y - 1) / 100 + (y - 1) / 400 + 1
  }

  lemma By4(y: int)
    ensures y / 4 - (y - 1) / 4 == if y % 4 == 0 then 1 else 0
  {
  }

  lemma By100(y: int)
    ensures y / 100 - (y - 1) / 100 == if y % 100 == 0 then 1 else 0
  {
  }

  lemma By400(y: int)
    ensures y / 400 - (y - 1) / 400 == if y % 400 == 0 then 1 else 0
    ensures (y % 400 == 0 ==> y % 100 == 0) && (y % 100 == 0 ==> y % 4 == 0)
  {
  }

  lemma YearLength(y: int)
    ensures Jan1(y + 1) - Jan1(y) == if Leap(y) then 366 else 365
  {
    By4(y);
    By100(y);
    By400(y);
  }

  function YearFrom(y: int, d: int): (r: int)
    requires Jan1(y) <= d
    ensures r >= y && Jan1(r) <= d < Jan1(r + 1)
    decreases d - Jan1(y)
  {
    YearLength(y);
    if d < Jan1(y + 1) then y else YearFrom(y + 1, d)
  }

  function YearOf(d: Day): (y: int)
    ensures y >= 1 && Jan1(y) <= d < Jan1(y + 1)
  {
    YearFrom(1, d)
  }

  lemma {:induction false} YearsApart(y: int, z: int)
    requires y <= z
    ensures Jan1(z) - Jan1(y) >= 365 * (z - y)
    decreases z - y
  {
    if y < z {
      YearsApart(y, z - 1);
      YearLength(z - 1);
    }
  }

  lemma YearUnique(d: Day, y: int)
    requires Jan1(y) <= d < Jan1(y + 1)
    ensures YearOf(d) == y
  {
    var z := YearOf(d);
    if y < z { YearsApart(y + 1, z); } else if z < y { YearsApart(z + 1, y); }
  }

  // Month of the year of the n-th day (from 0) of a year.
  function MonthOfDay(n: int, leap: bool): (m: int)
    ensures 1 <= m <= 12
  {
    var l := if leap then 1 else 0;
    if n < 31 then 1 else if n < 59 + l then 2 else if n < 90 + l then 3 else if n < 120 + l then 4
    else if n < 151 + l then 5 else if n < 181 + l then 6 else if n < 212 + l then 7 else if n < 243 + l then 8
    else if n < 273 + l then 9 else if n < 304 + l then 10 else if n < 334 + l then 11 else 12
  }

  function MonthOf(d: Day): int { MonthOfDay(d - Jan1(YearOf(d)), Leap(YearOf(d))) }

  function Monday(d: Day): (m: Day)
    ensures m <= d < m + 7 && m % 7 == 1
  {
    d - (d - 1) % 7
  }

  // A week belongs to the year of its Thursday.
  function WeekNumber(d: Day): int {
    var thursday := Monday(d) + 3;
    WeekOfYear(thursday, FirstDay(thursday)) + 1
  }

  // The first day of the year of a day.
  function FirstDay(d: Day): int { Jan1(YearOf(d)) }

  // The week of a day, from 0, of a year that starts on `first`.
  function WeekOfYear(d: int, first: int): int { (d - first) / 7 }

  lemma YearStarts(s: Day, t: Day)
    requires s < t
    ensures var gap := FirstDay(t) - FirstDay(s); gap == 0 || gap >= 365
  {
    var y, z := YearOf(s), YearOf(t);
    if z < y { YearsApart(z + 1, y); } else if y < z { YearsApart(y, z); }
  }

  lemma WholeWeeks(m: int, n: int)
    requires m % 7 == 1 && n % 7 == 1
    ensures n - m == 7 * ((n - m) / 7)
  {
  }

  // Two different weeks with the same number are at least 52 weeks apart.
  lemma SameNumberFarApart(a: Day, b: Day)
    requires Monday(a) < Monday(b) && WeekNumber(a) == WeekNumber(b)
    ensures Monday(b) - Monday(a) >= 364
  {
    var s, t := Monday(a) + 3, Monday(b) + 3;
    YearStarts(s, t);
    SameIndexFarApart(Monday(a), Monday(b), FirstDay(s), FirstDay(t));
  }

  // m, n: Mondays; p, q: the first days of the years their weeks belong to.
  lemma SameIndexFarApart(m: int, n: int, p: int, q: int)
    requires m < n && m % 7 == 1 && n % 7 == 1 && (q - p == 0 || q - p >= 365)
    requires WeekOfYear(m + 3, p) == WeekOfYear(n + 3, q)
    ensures n - m >= 364
  {
    WholeWeeks(m, n);
    WeeksApart(m + 3 - p, n + 3 - q, q - p, (n - m) / 7);
  }

  // a, b: days into their years, in the same week of the year; the years start `gap`
  // days apart, the days themselves `weeks` whole weeks.
  lemma WeeksApart(a: int, b: int, gap: int, weeks: int)
    requires a / 7 == b / 7 && b + gap - a == 7 * weeks && weeks > 0
    requires gap == 0 || gap >= 365
    ensures weeks >= 52
  {
    assert -7 < b - a < 7;
  }
}
