// What the calendar's years, months and week numbers mean in dates.
module Dates {
  import opened Calendar

  function DaysIn(y: int, m: int): int
    requires 1 <= m <= 12
  {
    if m == 2 then if Leap(y) then 29 else 28
    else if m == 4 || m == 6 || m == 9 || m == 11 then 30
    else 31
  }

  function DaysBefore(y: int, m: int): int
    requires 1 <= m <= 13
  {
    if m == 1 then 0 else DaysBefore(y, m - 1) + DaysIn(y, m - 1)
  }

  predicate IsDate(y: int, m: int, d: int) { y >= 1 && 1 <= m <= 12 && 1 <= d <= DaysIn(y, m) }

  function Ordinal(y: int, m: int, d: int): int
    requires 1 <= m <= 12
  {
    Jan1(y) + DaysBefore(y, m) + d - 1
  }

  lemma FirstHalf(y: int)
    ensures
      var l := if Leap(y) then 1 else 0;
      && DaysBefore(y, 1) == 0 && DaysBefore(y, 2) == 31 && DaysBefore(y, 3) == 59 + l && DaysBefore(y, 4) == 90 + l
      && DaysBefore(y, 5) == 120 + l && DaysBefore(y, 6) == 151 + l && DaysBefore(y, 7) == 181 + l
  {
    assert DaysBefore(y, 2) == 31;
    assert DaysBefore(y, 3) == 31 + DaysIn(y, 2);
    assert DaysBefore(y, 4) == DaysBefore(y, 3) + 31;
    assert DaysBefore(y, 5) == DaysBefore(y, 4) + 30;
    assert DaysBefore(y, 6) == DaysBefore(y, 5) + 31;
    assert DaysBefore(y, 7) == DaysBefore(y, 6) + 30;
  }

  lemma SecondHalf(y: int)
    ensures
      var l := if Leap(y) then 1 else 0;
      && DaysBefore(y, 8) == 212 + l && DaysBefore(y, 9) == 243 + l && DaysBefore(y, 10) == 273 + l
      && DaysBefore(y, 11) == 304 + l && DaysBefore(y, 12) == 334 + l && DaysBefore(y, 13) == 365 + l
  {
    FirstHalf(y);
    assert DaysBefore(y, 8) == DaysBefore(y, 7) + 31;
    assert DaysBefore(y, 9) == DaysBefore(y, 8) + 31;
    assert DaysBefore(y, 10) == DaysBefore(y, 9) + 30;
    assert DaysBefore(y, 11) == DaysBefore(y, 10) + 31;
    assert DaysBefore(y, 12) == DaysBefore(y, 11) + 30;
    assert DaysBefore(y, 13) == DaysBefore(y, 12) + 31;
  }

  lemma MonthOfDayIff(y: int, n: int, m: int)
    requires 0 <= n < DaysBefore(y, 13) && 1 <= m <= 12
    ensures MonthOfDay(n, Leap(y)) == m <==> DaysBefore(y, m) <= n < DaysBefore(y, m + 1)
  {
    FirstHalf(y);
    SecondHalf(y);
  }

  // Year and month of an ordinal are those of the one date it counts.
  lemma DateIs(y: int, m: int, d: int)
    requires IsDate(y, m, d)
    ensures Ordinal(y, m, d) >= 1 && YearOf(Ordinal(y, m, d)) == y && MonthOf(Ordinal(y, m, d)) == m
  {
    FirstHalf(y);
    SecondHalf(y);
    YearLength(y);
    YearsApart(1, y);
    assert Jan1(1) == 1;
    var n := Ordinal(y, m, d);
    assert Jan1(y) <= n < Jan1(y + 1);
    YearUnique(n, y);
    MonthOfDayIff(y, n - Jan1(y), m);
  }

  lemma HasDate(n: Day) returns (d: int)
    ensures IsDate(YearOf(n), MonthOf(n), d) && Ordinal(YearOf(n), MonthOf(n), d) == n
  {
    var y := YearOf(n);
    FirstHalf(y);
    SecondHalf(y);
    YearLength(y);
    MonthOfDayIff(y, n - Jan1(y), MonthOf(n));
    d := n - Jan1(y) - DaysBefore(y, MonthOf(n)) + 1;
  }

  // Week 1 of a year is the one with January 4 in it.
  lemma WeekOneHasJanuary4(d: Day)
    ensures WeekNumber(d) == 1 <==> Monday(d) <= Ordinal(YearOf(Monday(d) + 3), 1, 4) < Monday(d) + 7
  {
    var t := Monday(d) + 3;
    January4(YearOf(t));
    SevenOn(t, FirstDay(t));
  }

  lemma January4(y: int)
    ensures Ordinal(y, 1, 4) == Jan1(y) + 3
  {
    assert DaysBefore(y, 1) == 0;
  }

  // And the numbers go up by one a week.
  lemma NextWeekNumber(d: Day)
    requires YearOf(Monday(d) + 10) == YearOf(Monday(d) + 3)
    ensures WeekNumber(d + 7) == WeekNumber(d) + 1
  {
    var t := Monday(d) + 3;
    assert Monday(d + 7) == Monday(d) + 7;
    SevenOn(t, FirstDay(t));
  }

  lemma SevenOn(t: int, first: int)
    requires first <= t
    ensures WeekOfYear(t, first) == 0 <==> t < first + 7
    ensures WeekOfYear(t + 7, first) == WeekOfYear(t, first) + 1
  {
  }
}
