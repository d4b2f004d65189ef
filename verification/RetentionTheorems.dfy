// What pruning promises: disjoint halves, a cap, stability, and one file a week.
module RetentionTheorems {
  import opened Calendar
  import opened Retention

  function Select(files: seq<LogFile>, list: seq<nat>): seq<LogFile>
    requires forall a :: 0 <= a < |list| ==> list[a] < |files|
  {
    seq(|list|, a requires 0 <= a < |list| => files[list[a]])
  }

  ghost function Survivors(files: seq<LogFile>, deleted: seq<nat>): set<nat> {
    All(|files|) - Members(deleted)
  }

  ghost function Remaining(files: seq<LogFile>, deleted: seq<nat>): seq<LogFile> {
    PositionsAscend(|files|, Survivors(files, deleted));
    Select(files, Positions(|files|, Survivors(files, deleted)))
  }

  // Every file is either deleted, once, or survives; the survivors are the schedule
  // minus the oldest prefix, and fit the cap.
  lemma PruneSplits(files: seq<LogFile>, p: Policy, cap: int, deleted: seq<nat>)
    requires Pruned(files, p, cap, deleted)
    ensures forall a, b :: 0 <= a < b < |deleted| ==> deleted[a] != deleted[b]
    ensures forall i :: i in deleted ==> i < |files|
    ensures Survivors(files, deleted) <= KeepOf(files, p)
    ensures Survivors(files, deleted) == {} || BytesIn(files, Survivors(files, deleted), |files|) <= cap
    ensures BytesIn(files, KeepOf(files, p), |files|) <= cap ==> Survivors(files, deleted) == KeepOf(files, p)
  {
    var n, keep := |files|, KeepOf(files, p);
    var order, k: nat :| OldestFirst(files, order, keep) && Cut(files, keep, order, k, cap)
      && deleted == Positions(n, All(n) - keep) + order[..k];
    PositionsAscend(n, All(n) - keep);
    var first := Positions(n, All(n) - keep);
    assert Survivors(files, deleted) == LeftOf(keep, order, k) by {
      forall i: nat ensures i in deleted <==> i in first || i in order[..k] { }
    }
    forall a, b | 0 <= a < b < |deleted| ensures deleted[a] != deleted[b] {
      if a >= |first| {
        assert Earlier(files, order[a - |first|], order[b - |first|]);
      } else if b >= |first| {
        assert deleted[a] in first && order[b - |first|] in order;
      }
    }
    if k == |order| { assert order[..k] == order; }
    if BytesIn(files, keep, n) <= cap {
      assert LeftOf(keep, order, 0) == keep;
      assert k == 0;
    }
  }

  lemma {:induction false} BytesSelected(files: seq<LogFile>, s: set<nat>, n: nat, list: seq<nat>, m: nat)
    requires n <= |files| && m <= |list| && forall a :: 0 <= a < |list| ==> list[a] < |files|
    requires list[..m] == Positions(n, s)
    ensures BytesIn(Select(files, list), All(|list|), m) == BytesIn(files, s, n)
  {
    if n > 0 {
      if n - 1 in s {
        assert list[m-1] == n - 1 && list[..m-1] == Positions(n - 1, s);
        BytesSelected(files, s, n - 1, list, m - 1);
      } else {
        BytesSelected(files, s, n - 1, list, m);
      }
    }
  }

  // Every survivor is kept again when only survivors are listed.
  lemma StillKept(files: seq<LogFile>, p: Policy, list: seq<nat>, b: nat)
    requires forall a :: 0 <= a < |list| ==> list[a] < |files|
    requires forall a, c :: 0 <= a < c < |list| ==> list[a] < list[c]
    requires b < |list| && Kept(files, p, list[b])
    ensures Kept(Select(files, list), p, b)
  {
    var rest := Select(files, list);
    if ZoneOf(rest[b], p).Weekly? || ZoneOf(rest[b], p).Monthly? {
      forall a | 0 <= a < |rest| && SameBucket(rest[a], rest[b], p) ensures !Earlier(rest, a, b) {
        assert SameBucket(files[list[a]], files[list[b]], p) && !Earlier(files, list[a], list[b]);
      }
    }
  }

  // A listing the schedule keeps whole: nothing expired, no two files of one bucket.
  predicate Settled(files: seq<LogFile>, p: Policy) {
    && (forall i :: 0 <= i < |files| ==> !ZoneOf(files[i], p).Expired?)
    && (forall i, j :: 0 <= i < j < |files| ==> Apart(files[i], files[j], p))
  }

  predicate Apart(f: LogFile, g: LogFile, p: Policy) { ZoneOf(f, p).Recent? || !SameBucket(f, g, p) }

  lemma KeptAreApart(files: seq<LogFile>, p: Policy, i: nat, j: nat)
    requires i < j < |files| && Kept(files, p, i) && Kept(files, p, j)
    ensures Apart(files[i], files[j], p)
  {
    assert Earlier(files, i, j) || Earlier(files, j, i);
    assert SameBucket(files[i], files[j], p) <==> SameBucket(files[j], files[i], p);
  }

  lemma SettledIsKept(files: seq<LogFile>, p: Policy)
    ensures Settled(files, p) <==> forall i: nat :: i < |files| ==> Kept(files, p, i)
  {
    if Settled(files, p) {
      forall i: nat | i < |files|
        ensures Kept(files, p, i)
      {
        forall j: nat | j < |files| && j != i
          ensures ZoneOf(files[i], p).Recent? || !SameBucket(files[j], files[i], p)
        {
          if j < i { assert Apart(files[j], files[i], p); } else { assert Apart(files[i], files[j], p); }
        }
      }
    }
    if forall i: nat :: i < |files| ==> Kept(files, p, i) {
      forall i: nat | i < |files|
        ensures !ZoneOf(files[i], p).Expired?
      {
        assert Kept(files, p, i);
      }
      forall i: nat, j: nat | i < j < |files|
        ensures Apart(files[i], files[j], p)
      {
        KeptAreApart(files, p, i, j);
      }
    }
  }

  // Two files of a listing stand in any reordering of it, too.
  lemma TwoPlaces(files: seq<LogFile>, f: LogFile, g: LogFile)
    requires multiset{f, g} <= multiset(files)
    ensures exists i, j :: 0 <= i < |files| && 0 <= j < |files| && i != j && files[i] == f && files[j] == g
  {
    assert f in multiset(files);
    var i :| 0 <= i < |files| && files[i] == f;
    var rest := files[..i] + files[i+1..];
    WithoutOne(files, i);
    assert multiset{f, g} == multiset{f} + multiset{g};
    assert multiset(rest)[g] >= 1;
    assert g in multiset(rest);
    var k :| 0 <= k < |rest| && rest[k] == g;
    var j := if k < i then k else k + 1;
    assert files[j] == g;
  }

  lemma SettledPermutes(files: seq<LogFile>, listing: seq<LogFile>, p: Policy)
    requires Settled(files, p) && multiset(listing) == multiset(files)
    ensures Settled(listing, p)
  {
    forall i | 0 <= i < |listing|
      ensures !ZoneOf(listing[i], p).Expired?
    {
      assert listing[i] in multiset(listing);
      assert listing[i] in multiset(files);
      assert listing[i] in files;
    }
    forall i, j | 0 <= i < j < |listing|
      ensures Apart(listing[i], listing[j], p)
    {
      var f, g := listing[i], listing[j];
      assert listing == listing[..i] + ([f] + listing[i+1..j]) + ([g] + listing[j+1..]);
      TwoPlaces(files, f, g);
      var a, b :| 0 <= a < |files| && 0 <= b < |files| && a != b && files[a] == f && files[b] == g;
      assert a < b ==> Apart(files[a], files[b], p);
      assert b < a ==> Apart(files[b], files[a], p);
    }
  }

  function Size(files: seq<LogFile>): nat {
    if files == [] then 0 else Size(files[..|files|-1]) + files[|files|-1].size
  }

  lemma {:induction false} SizeIsBytes(files: seq<LogFile>, n: nat)
    requires n <= |files|
    ensures BytesIn(files, All(|files|), n) == Size(files[..n])
  {
    if n > 0 {
      SizeIsBytes(files, n - 1);
      assert files[..n][..n-1] == files[..n-1];
    }
  }

  lemma {:induction false} SizeJoins(a: seq<LogFile>, b: seq<LogFile>)
    ensures Size(a + b) == Size(a) + Size(b)
  {
    if b == [] {
      assert a + b == a;
    } else {
      assert (a + b)[..|a + b|-1] == a + b[..|b|-1];
      SizeJoins(a, b[..|b|-1]);
    }
  }

  lemma SizeOfMiddle(before: seq<LogFile>, f: LogFile, after: seq<LogFile>)
    ensures Size(before + [f] + after) == Size(before + after) + f.size
  {
    SizeJoins(before + [f], after);
    SizeJoins(before, [f]);
    SizeJoins(before, after);
    assert [f][..0] == [];
  }

  lemma MultisetOfMiddle(before: seq<LogFile>, f: LogFile, after: seq<LogFile>)
    ensures multiset(before + [f] + after) == multiset(before + after) + multiset{f}
  {
    assert multiset(before + [f] + after) == multiset(before) + multiset([f]) + multiset(after);
  }

  lemma Splits(files: seq<LogFile>, i: nat)
    requires i < |files|
    ensures files == files[..i] + [files[i]] + files[i+1..]
  {
  }

  lemma WithoutOne(files: seq<LogFile>, i: nat)
    requires i < |files|
    ensures multiset(files) == multiset(files[..i] + files[i+1..]) + multiset{files[i]}
    ensures Size(files) == Size(files[..i] + files[i+1..]) + files[i].size
  {
    var before, f, after := files[..i], files[i], files[i+1..];
    Splits(files, i);
    SizeOfMiddle(before, f, after);
    MultisetOfMiddle(before, f, after);
  }

  lemma {:induction false} SizePermutes(a: seq<LogFile>, b: seq<LogFile>)
    requires multiset(a) == multiset(b)
    ensures Size(a) == Size(b) && |a| == |b|
  {
    assert |multiset(a)| == |a| && |multiset(b)| == |b|;
    if a != [] {
      var n := |a| - 1;
      assert a[n] in multiset(b);
      var i :| 0 <= i < |b| && b[i] == a[n];
      WithoutOne(a, n);
      WithoutOne(b, i);
      assert a[..n] + a[n+1..] == a[..n];
      assert multiset(a[..n]) == multiset(a) - multiset{a[n]} == multiset(b[..i] + b[i+1..]);
      SizePermutes(a[..n], b[..i] + b[i+1..]);
    }
  }

  // A settled listing within the cap loses nothing.
  lemma NothingToDelete(files: seq<LogFile>, p: Policy, cap: int, deleted: seq<nat>)
    requires Settled(files, p) && (files == [] || Size(files) <= cap) && Pruned(files, p, cap, deleted)
    ensures deleted == []
  {
    var keep := KeepOf(files, p);
    SettledIsKept(files, p);
    assert keep == All(|files|);
    var order, k: nat :| OldestFirst(files, order, keep) && Cut(files, keep, order, k, cap)
      && deleted == Positions(|files|, All(|files|) - keep) + order[..k];
    PositionsAscend(|files|, All(|files|) - keep);
    NoneListed(Positions(|files|, All(|files|) - keep));
    if files == [] {
      NoneListed(order);
    } else {
      SizeIsBytes(files, |files|);
      assert files[..|files|] == files && LeftOf(keep, order, 0) == keep;
    }
  }

  // An immediate second run deletes nothing, in whatever order it lists the files.
  lemma PruneIsStable(files: seq<LogFile>, p: Policy, cap: int, deleted: seq<nat>,
                      listing: seq<LogFile>, again: seq<nat>)
    requires Pruned(files, p, cap, deleted)
    requires multiset(listing) == multiset(Remaining(files, deleted)) && Pruned(listing, p, cap, again)
    ensures again == []
  {
    var s, rest := Survivors(files, deleted), Remaining(files, deleted);
    var list := Positions(|files|, s);
    PruneSplits(files, p, cap, deleted);
    PositionsAscend(|files|, s);
    forall b: nat | b < |rest| ensures Kept(rest, p, b) {
      assert list[b] in s;
      StillKept(files, p, list, b);
    }
    SettledIsKept(rest, p);
    SettledPermutes(rest, listing, p);
    assert list[..|list|] == list && rest[..|rest|] == rest;
    BytesSelected(files, s, |files|, list, |list|);
    SizeIsBytes(rest, |rest|);
    SizePermutes(rest, listing);
    if s == {} { NoneListed(list); }
    NothingToDelete(listing, p, cap, again);
  }

  lemma NoneListed(list: seq<nat>)
    ensures list == [] || exists i: nat :: i in list
  {
    assert list == [] || list[0] in list;
  }

  // ---- One file a week ----

  // With at most 51 weeks of weekly retention the year-less week number never mixes two
  // weeks: the schedule keeps the earliest file of each calendar week.
  lemma OnePerCalendarWeek(files: seq<LogFile>, p: Policy, i: nat)
    requires p.weekly <= 51 && i < |files| && ZoneOf(files[i], p).Weekly?
    ensures Kept(files, p, i) <==>
      forall j: nat :: j < |files| && ZoneOf(files[j], p).Weekly? && Monday(files[j].date) == Monday(files[i].date) ==>
        !Earlier(files, j, i)
  {
    forall j: nat | j < |files| && ZoneOf(files[j], p).Weekly?
      ensures SameBucket(files[j], files[i], p) <==> Monday(files[j].date) == Monday(files[i].date)
    {
      BucketIsWeek(files[j], files[i], p);
    }
  }

  lemma BucketIsWeek(f: LogFile, g: LogFile, p: Policy)
    requires p.weekly <= 51 && ZoneOf(f, p).Weekly? && ZoneOf(g, p).Weekly?
    ensures SameBucket(f, g, p) <==> Monday(f.date) == Monday(g.date)
  {
    if WeekNumber(f.date) == WeekNumber(g.date) {
      if Monday(f.date) < Monday(g.date) { SameNumberFarApart(f.date, g.date); }
      if Monday(g.date) < Monday(f.date) { SameNumberFarApart(g.date, f.date); }
    }
  }

  // From 52 weeks on it does mix them: of Sunday 2025-03-09 and Monday 2026-03-02, both
  // in a week numbered 10 and both inside the weekly window, only the first is kept.
  lemma MixesWeeksFrom52(p: Policy)
    requires p.weekly >= 52 && DailyCutoff(p) == 739677
    ensures var files := [LogFile(739319, 1), LogFile(739677, 1)];
      && Monday(files[0].date) != Monday(files[1].date)
      && ZoneOf(files[0], p).Weekly? && ZoneOf(files[1], p).Weekly?
      && Kept(files, p, 0) && !Kept(files, p, 1)
  {
    BothWeekTen();
    BothWeekly(p);
    LaterOneGoes(LogFile(739319, 1), LogFile(739677, 1), p);
  }

  lemma LaterOneGoes(f: LogFile, g: LogFile, p: Policy)
    requires ZoneOf(f, p).Weekly? && ZoneOf(g, p).Weekly? && f.date < g.date && WeekNumber(f.date) == WeekNumber(g.date)
    ensures Kept([f, g], p, 0) && !Kept([f, g], p, 1)
  {
    var files := [f, g];
    assert SameBucket(files[0], files[1], p) && Earlier(files, 0, 1);
    forall j | 0 <= j < |files| && SameBucket(files[j], files[0], p) ensures !Earlier(files, j, 0) { }
  }

  lemma BothWeekly(p: Policy)
    requires p.weekly >= 52 && DailyCutoff(p) == 739677
    ensures ZoneOf(LogFile(739319, 1), p).Weekly? && ZoneOf(LogFile(739677, 1), p).Weekly?
  {
  }

  lemma BothWeekTen()
    ensures Monday(739319) == 739313 && Monday(739677) == 739677
    ensures WeekNumber(739319) == 10 && WeekNumber(739677) == 10
  {
    NewYears();
    YearUnique(739316, 2025);
    YearUnique(739680, 2026);
  }

  lemma NewYears()
    ensures Jan1(2025) == 739252 && Jan1(2026) == 739617 && Jan1(2027) == 739982
  {
  }

  // However many files there are, the weekly part keeps at most weekly + 1 of them.
  lemma WeeklyBound(files: seq<LogFile>, p: Policy, s: set<nat>)
    requires p.weekly >= 0
    requires forall i :: i in s ==> i < |files| && ZoneOf(files[i], p).Weekly? && Kept(files, p, i)
    ensures |s| <= p.weekly + 1
  {
    var lo, hi := WeeklyCutoff(p) / 7, (DailyCutoff(p) - 1) / 7;
    var week := map i | i in s :: WeekIndex(files[i].date);
    forall i | i in s ensures lo <= week[i] <= hi { IndexBetween(files[i].date, WeeklyCutoff(p), DailyCutoff(p)); }
    forall i, j | i in s && j in s && i != j ensures week[i] != week[j] { KeptWeeksDiffer(files, p, i, j); }
    Pigeonhole(s, week, lo, hi);
    WindowWeeks(DailyCutoff(p), p.weekly);
  }

  function WeekIndex(d: Day): int { (Monday(d) - 1) / 7 }

  lemma IndexBetween(d: Day, after: int, upTo: int)
    requires after < d <= upTo
    ensures after / 7 <= WeekIndex(d) <= (upTo - 1) / 7
  {
    assert WeekIndex(d) == (d - 1) / 7;
  }

  lemma WindowWeeks(upTo: int, weeks: nat)
    ensures (upTo - 1) / 7 - (upTo - 7 * weeks) / 7 <= weeks
  {
  }

  lemma KeptWeeksDiffer(files: seq<LogFile>, p: Policy, i: nat, j: nat)
    requires i < |files| && j < |files| && i != j && Kept(files, p, i) && Kept(files, p, j)
    requires ZoneOf(files[i], p).Weekly? && ZoneOf(files[j], p).Weekly?
    ensures WeekIndex(files[i].date) != WeekIndex(files[j].date)
  {
    var a, b := files[i].date, files[j].date;
    assert Earlier(files, i, j) || Earlier(files, j, i);
    if WeekIndex(a) == WeekIndex(b) {
      SameWeekSameNumber(a, b);
      assert SameBucket(files[i], files[j], p) && SameBucket(files[j], files[i], p);
    }
  }

  lemma SameWeekSameNumber(a: Day, b: Day)
    requires WeekIndex(a) == WeekIndex(b)
    ensures WeekNumber(a) == WeekNumber(b)
  {
    assert Monday(a) == 7 * WeekIndex(a) + 1 && Monday(b) == 7 * WeekIndex(b) + 1;
  }

  lemma {:induction false} Pigeonhole(s: set<nat>, f: map<nat, int>, lo: int, hi: int)
    requires forall i :: i in s ==> i in f && lo <= f[i] <= hi
    requires forall i, j :: i in s && j in s && i != j ==> f[i] != f[j]
    ensures |s| <= if hi < lo then 0 else hi - lo + 1
    decreases hi - lo + 1
  {
    if s == {} {
    } else if exists i :: i in s && f[i] == hi {
      var i :| i in s && f[i] == hi;
      Pigeonhole(s - {i}, f, lo, hi - 1);
    } else {
      var i :| i in s;
      Pigeonhole(s, f, lo, hi - 1);
    }
  }
}
