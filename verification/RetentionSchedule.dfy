// The schedule by the age of a file, in days: everything young, then one file a week, then
// one a calendar month, and nothing older.
module RetentionSchedule {
  import opened Calendar
  import opened Dates
  import opened Retention
  import opened RetentionTheorems

  function Age(f: LogFile, p: Policy): int { p.today - f.date }

  // In the listing f goes before g: older, or as old and listed first.
  predicate Before(files: seq<LogFile>, j: nat, i: nat)
    requires i < |files| && j < |files|
  {
    files[j].date < files[i].date || (files[j].date == files[i].date && j < i)
  }

  // A file alone is kept exactly when it is younger than the whole schedule.
  lemma LoneFileIff(f: LogFile, p: Policy)
    ensures Kept([f], p, 0) <==>
      || Age(f, p) < p.daily
      || Age(f, p) < p.daily + 7 * p.weekly
      || Age(f, p) < p.daily + 7 * p.weekly + 30 * p.monthly
  {
    assert [f][0] == f;
  }

  lemma YoungIsKept(files: seq<LogFile>, p: Policy, i: nat)
    requires i < |files| && Age(files[i], p) < p.daily
    ensures Kept(files, p, i)
  {
  }

  lemma OldIsGone(files: seq<LogFile>, p: Policy, i: nat)
    requires i < |files| && Age(files[i], p) >= p.daily && Age(files[i], p) >= p.daily + 7 * p.weekly
    requires Age(files[i], p) >= p.daily + 7 * p.weekly + 30 * p.monthly
    ensures !Kept(files, p, i)
  {
  }

  predicate WeeklyAge(f: LogFile, p: Policy) { p.daily <= Age(f, p) < p.daily + 7 * p.weekly }

  predicate MonthlyAge(f: LogFile, p: Policy) {
    p.daily <= Age(f, p) && p.daily + 7 * p.weekly <= Age(f, p) < p.daily + 7 * p.weekly + 30 * p.monthly
  }

  lemma ZonesByAge(f: LogFile, p: Policy)
    ensures ZoneOf(f, p).Weekly? <==> WeeklyAge(f, p)
    ensures ZoneOf(f, p).Monthly? <==> MonthlyAge(f, p)
  {
  }

  // Of the files of an age for the weekly part, the first of each week number is kept.
  lemma WeeklyKeptIff(files: seq<LogFile>, p: Policy, i: nat)
    requires i < |files| && WeeklyAge(files[i], p)
    ensures Kept(files, p, i) <==>
      forall j: nat | j < |files| && WeeklyAge(files[j], p) && WeekNumber(files[j].date) == WeekNumber(files[i].date) ::
        !Before(files, j, i)
  {
    forall j: nat | j < |files|
      ensures SameBucket(files[j], files[i], p) <==>
        WeeklyAge(files[j], p) && WeekNumber(files[j].date) == WeekNumber(files[i].date)
    {
      ZonesByAge(files[j], p);
      ZonesByAge(files[i], p);
    }
  }

  // Both dates fall in one month of one year.
  ghost predicate SameCalendarMonth(a: Day, b: Day) {
    exists y, m, d, e :: IsDate(y, m, d) && IsDate(y, m, e) && Ordinal(y, m, d) == a && Ordinal(y, m, e) == b
  }

  lemma SameMonthIff(a: Day, b: Day)
    ensures SameCalendarMonth(a, b) <==> YearOf(a) == YearOf(b) && MonthOf(a) == MonthOf(b)
  {
    if y, m, d, e :| IsDate(y, m, d) && IsDate(y, m, e) && Ordinal(y, m, d) == a && Ordinal(y, m, e) == b {
      DateIs(y, m, d);
      DateIs(y, m, e);
    }
    if YearOf(a) == YearOf(b) && MonthOf(a) == MonthOf(b) {
      var d := HasDate(a);
      var e := HasDate(b);
      assert Ordinal(YearOf(a), MonthOf(a), d) == a && Ordinal(YearOf(a), MonthOf(a), e) == b;
    }
  }

  // Of the files of an age for the monthly part, the first of each calendar month is kept.
  lemma MonthlyKeptIff(files: seq<LogFile>, p: Policy, i: nat)
    requires i < |files| && MonthlyAge(files[i], p)
    ensures Kept(files, p, i) <==>
      forall j: nat :: j < |files| && MonthlyAge(files[j], p) && SameCalendarMonth(files[j].date, files[i].date) ==>
        !Before(files, j, i)
  {
    forall j: nat | j < |files|
      ensures SameBucket(files[j], files[i], p) <==>
        MonthlyAge(files[j], p) && SameCalendarMonth(files[j].date, files[i].date)
    {
      ZonesByAge(files[j], p);
      ZonesByAge(files[i], p);
      SameMonthIff(files[j].date, files[i].date);
    }
  }

  // ---- How many the monthly part keeps ----

  // Months counted from the year 0.
  function MonthIndex(d: Day): int { 12 * YearOf(d) + MonthOf(d) - 1 }

  function YearStart(y: int): int
    requires y >= 1
    decreases y
  {
    if y == 1 then 1 else YearStart(y - 1) + if Leap(y - 1) then 366 else 365
  }

  lemma {:induction false} YearStartIs(y: int)
    requires y >= 1
    ensures YearStart(y) == Jan1(y)
    decreases y
  {
    if y > 1 {
      YearStartIs(y - 1);
      YearLength(y - 1);
    }
  }

  function MonthStart(y: int, m: int): int
    requires y >= 1 && 1 <= m <= 12
  {
    YearStart(y) + DaysBefore(y, m)
  }

  lemma WithinItsMonth(d: Day)
    ensures var y, m := YearOf(d), MonthOf(d); MonthStart(y, m) <= d < MonthStart(y, m) + DaysIn(y, m)
  {
    var e := HasDate(d);
    YearStartIs(YearOf(d));
  }

  function NextYear(y: int, m: int): int { if m == 12 then y + 1 else y }
  function NextMonthOf(m: int): int { if m == 12 then 1 else m + 1 }

  lemma NextStart(y: int, m: int)
    requires y >= 1 && 1 <= m <= 12
    ensures MonthStart(NextYear(y, m), NextMonthOf(m)) == MonthStart(y, m) + DaysIn(y, m)
  {
    if m == 12 {
      SecondHalf(y);
      assert DaysBefore(y + 1, 1) == 0;
    }
  }

  // How far the start of month m is past 30 days a month.
  function Ahead(y: int, m: int): int
    requires 1 <= m <= 12
  {
    DaysBefore(y, m) - 30 * (m - 1)
  }

  lemma AheadBounds(y: int, m: int, n: int)
    requires 1 <= m <= 12 && 1 <= n <= 12
    ensures -1 <= Ahead(y, m) <= 5
    ensures m <= n ==> Ahead(y, n) - Ahead(y, m) >= if n == m + 1 then -2 else -1
  {
    FirstHalf(y);
    SecondHalf(y);
  }

  lemma {:induction false} YearsLast(y: int, z: int)
    requires 1 <= y <= z
    ensures YearStart(z) - YearStart(y) >= 365 * (z - y)
    decreases z
  {
    if y < z { YearsLast(y, z - 1); }
  }

  // Days short of 30 a month, at most, for so many months in a row.
  function Short(months: int): int { if months == 0 then 0 else if months == 1 then 2 else 1 }

  // Consecutive months have 30 days each on the whole: two days short if it is one month,
  // and one day if there are more.
  lemma MonthsLast(y: int, m: int, z: int, n: int)
    requires y >= 1 && 1 <= m <= 12 && 1 <= n <= 12 && (y < z || (y == z && m <= n))
    ensures var k := 12 * (z - y) + n - m; MonthStart(z, n) - MonthStart(y, m) >= 30 * k - Short(k)
  {
    YearsLast(y, z);
    AheadBounds(y, m, n);
    AheadBounds(z, n, n);
  }

  // From a day of one month to a day of a later one.
  lemma MonthsApart(y: int, m: int, z: int, n: int, a: int, b: int)
    requires y >= 1 && z >= 1 && 1 <= m <= 12 && 1 <= n <= 12
    requires MonthStart(y, m) <= a < MonthStart(y, m) + DaysIn(y, m) && MonthStart(z, n) <= b
    ensures
      var k := 12 * (z - y) + n - m;
      k >= 1 ==> b - a >= 30 * (k - 1) - Short(k - 1) + 1
  {
    var k := 12 * (z - y) + n - m;
    NextStart(y, m);
    if k >= 1 { MonthsLast(NextYear(y, m), NextMonthOf(m), z, n); }
  }

  lemma MonthsInWindow(a: Day, b: Day, days: int)
    requires a <= b && b - a < days
    ensures
      var k := MonthIndex(b) - MonthIndex(a);
      0 <= k && (k >= 2 ==> 30 * (k - 1) - Short(k - 1) <= days - 2)
  {
    WithinItsMonth(a);
    WithinItsMonth(b);
    MonthsApart(YearOf(a), MonthOf(a), YearOf(b), MonthOf(b), a, b);
    MonthsApart(YearOf(b), MonthOf(b), YearOf(a), MonthOf(a), b, a);
  }

  lemma KeptMonthsDiffer(files: seq<LogFile>, p: Policy, i: nat, j: nat)
    requires i < |files| && j < |files| && i != j && Kept(files, p, i) && Kept(files, p, j)
    requires MonthlyAge(files[i], p) && MonthlyAge(files[j], p)
    ensures MonthIndex(files[i].date) != MonthIndex(files[j].date)
  {
    MonthlyKeptIff(files, p, i);
    MonthlyKeptIff(files, p, j);
    SameMonthIff(files[i].date, files[j].date);
    SameMonthIff(files[j].date, files[i].date);
    assert Before(files, i, j) || Before(files, j, i);
  }

  lemma MonthsFit(files: seq<LogFile>, p: Policy, s: set<nat>) returns (lo: int)
    requires s != {} && forall i :: i in s ==> i < |files| && MonthlyAge(files[i], p)
    ensures forall i :: i in s ==> lo <= MonthIndex(files[i].date) <= lo + p.monthly + if p.monthly == 1 then 1 else 0
  {
    var first := Oldest(files, s);
    lo := MonthIndex(files[first].date);
    forall i | i in s
      ensures lo <= MonthIndex(files[i].date) <= lo + p.monthly + if p.monthly == 1 then 1 else 0
    {
      MonthsInWindow(files[first].date, files[i].date, 30 * p.monthly);
    }
  }

  lemma Oldest(files: seq<LogFile>, s: set<nat>) returns (first: nat)
    requires s != {} && forall i :: i in s ==> i < |files|
    ensures first in s && forall i :: i in s ==> files[first].date <= files[i].date
  {
    first :| first in s;
    var rest := s - {first};
    if rest != {} {
      var f := Oldest(files, rest);
      if files[f].date < files[first].date { first := f; }
    }
  }

  // However many files there are, the monthly part keeps at most monthly + 1 of them, or
  // three if it spans a single month's 30 days.
  lemma MonthlyBound(files: seq<LogFile>, p: Policy, s: set<nat>)
    requires forall i :: i in s ==> i < |files| && MonthlyAge(files[i], p) && Kept(files, p, i)
    ensures |s| <= if p.monthly <= 0 then 0 else if p.monthly == 1 then 3 else p.monthly + 1
  {
    if s != {} {
      var lo := MonthsFit(files, p, s);
      var month := map i | i in s :: MonthIndex(files[i].date);
      forall i, j | i in s && j in s && i != j ensures month[i] != month[j] { KeptMonthsDiffer(files, p, i, j); }
      Pigeonhole(s, month, lo, lo + p.monthly + if p.monthly == 1 then 1 else 0);
      var i :| i in s;
      assert MonthlyAge(files[i], p);
    }
  }

  // ---- The cap ----

  // Of the kept files the cap takes the oldest: none of those it takes is younger than one
  // it leaves, and leaving the youngest of them, too, would be over the cap.
  lemma CapTakesOldest(files: seq<LogFile>, p: Policy, cap: int, deleted: seq<nat>)
    requires Pruned(files, p, cap, deleted)
    ensures
      var left := Survivors(files, deleted);
      && (forall i, j :: i in deleted && i < |files| && Kept(files, p, i) && j in left ==> Before(files, i, j))
      && ((exists i :: i in deleted && i < |files| && Kept(files, p, i)) ==>
            exists i :: i in deleted && i < |files| && Kept(files, p, i) && BytesIn(files, left + {i}, |files|) > cap)
  {
    var n, keep := |files|, KeepOf(files, p);
    var order, k: nat :| OldestFirst(files, order, keep) && Cut(files, keep, order, k, cap)
      && deleted == Positions(n, All(n) - keep) + order[..k];
    var first := Positions(n, All(n) - keep);
    PositionsAscend(n, All(n) - keep);
    forall i: nat
      ensures i in deleted <==> i in first || i in order[..k]
    {
    }
    var left := Survivors(files, deleted);
    assert left == LeftOf(keep, order, k);
    forall i, j | i in deleted && i < n && Kept(files, p, i) && j in left
      ensures Before(files, i, j)
    {
      TakenBeforeLeft(files, order, keep, k, i, j);
    }
    if k > 0 {
      var i := order[k-1];
      assert i in order[..k] && i in keep;
      LastTaken(files, keep, order, k);
      assert BytesIn(files, left + {i}, n) > cap;
    } else {
      assert order[..k] == [];
    }
  }

  lemma TakenBeforeLeft(files: seq<LogFile>, order: seq<nat>, keep: set<nat>, k: nat, i: nat, j: nat)
    requires OldestFirst(files, order, keep) && k <= |order| && i < |files| && j < |files|
    requires i in order[..k] && j in LeftOf(keep, order, k)
    ensures Before(files, i, j)
  {
    var a :| 0 <= a < k && order[a] == i;
    var b :| 0 <= b < |order| && order[b] == j;
    assert order == order[..k] + order[k..];
    assert Earlier(files, order[a], order[b]);
  }

  lemma LastTaken(files: seq<LogFile>, keep: set<nat>, order: seq<nat>, k: nat)
    requires OldestFirst(files, order, keep) && 0 < k <= |order|
    ensures LeftOf(keep, order, k) + {order[k-1]} == LeftOf(keep, order, k - 1)
  {
    assert order[..k] == order[..k-1] + [order[k-1]];
    forall a | 0 <= a < k - 1
      ensures order[a] != order[k-1]
    {
      assert Earlier(files, order[a], order[k-1]);
    }
    assert order[k-1] in keep;
  }
}
