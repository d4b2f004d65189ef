// Pruning rotated log files: everything recent, then one file a week, then one a
// month, and never more than a hard cap of bytes. A directory listing is a sequence
// of files; a file is named by its position in the listing.
module Retention {
  import opened Calendar

  datatype LogFile = LogFile(date: Day, size: nat)
  datatype Policy = Policy(today: int, daily: int, weekly: int, monthly: int)

  datatype Zone = Recent | Weekly | Monthly | Expired
  datatype Bucket = Week(number: int) | Month(year: int, month: int)

  function DailyCutoff(p: Policy): int { p.today - p.daily }
  function WeeklyCutoff(p: Policy): int { DailyCutoff(p) - 7 * p.weekly }
  function MonthlyCutoff(p: Policy): int { WeeklyCutoff(p) - 30 * p.monthly }

  function ZoneOf(f: LogFile, p: Policy): Zone {
    if f.date > DailyCutoff(p) then Recent
    else if f.date > WeeklyCutoff(p) then Weekly
    else if f.date > MonthlyCutoff(p) then Monthly
    else Expired
  }

  // Earlier by date; files of one date stay in listing order (the sort is stable).
  predicate Earlier(files: seq<LogFile>, j: nat, i: nat)
    requires i < |files| && j < |files|
  {
    files[j].date < files[i].date || (files[j].date == files[i].date && j < i)
  }

  predicate SameBucket(f: LogFile, g: LogFile, p: Policy) {
    && ZoneOf(f, p) == ZoneOf(g, p)
    && (ZoneOf(f, p).Weekly? ==> WeekNumber(f.date) == WeekNumber(g.date))
    && (ZoneOf(f, p).Monthly? ==> YearOf(f.date) == YearOf(g.date) && MonthOf(f.date) == MonthOf(g.date))
  }

  predicate EarliestOfBucket(files: seq<LogFile>, p: Policy, i: nat)
    requires i < |files|
  {
    forall j :: 0 <= j < |files| && SameBucket(files[j], files[i], p) ==> !Earlier(files, j, i)
  }

  // The schedule: every recent file, and the earliest of each week or month bucket.
  predicate Kept(files: seq<LogFile>, p: Policy, i: nat)
    requires i < |files|
  {
    match ZoneOf(files[i], p)
    case Recent => true
    case Expired => false
    case _ => EarliestOfBucket(files, p, i)
  }

  // ---- Oldest first ----

  // `order` lists exactly the positions in s, oldest file first.
  ghost predicate OldestFirst(files: seq<LogFile>, order: seq<nat>, s: set<nat>) {
    && (forall i: nat :: i in s <==> i in order)
    && (forall a :: 0 <= a < |order| ==> order[a] < |files|)
    && (forall a, b :: 0 <= a < b < |order| ==> Earlier(files, order[a], order[b]))
  }

  ghost function Members(list: seq<nat>): set<nat> { set i | i in list }

  // Insertion sort of positions; i comes after every position already placed.
  method InsertByDate(files: seq<LogFile>, order: seq<nat>, ghost s: set<nat>, i: nat) returns (r: seq<nat>)
    requires OldestFirst(files, order, s) && i < |files| && forall j :: j in s ==> j < i
    ensures OldestFirst(files, r, s + {i})
  {
    var k := |order|;
    while k > 0 && files[order[k-1]].date > files[i].date
      invariant 0 <= k <= |order|
      invariant forall a :: k <= a < |order| ==> files[order[a]].date > files[i].date
    {
      k := k - 1;
    }
    r := order[..k] + [i] + order[k..];
    InsertedOrder(files, order, s, i, k);
    InsertedMembers(order, i, k);
  }

  lemma InsertedOrder(files: seq<LogFile>, order: seq<nat>, s: set<nat>, i: nat, k: nat)
    requires OldestFirst(files, order, s) && i < |files| && (forall j :: j in s ==> j < i) && k <= |order|
    requires k > 0 ==> files[order[k-1]].date <= files[i].date
    requires forall a :: k <= a < |order| ==> files[order[a]].date > files[i].date
    ensures var r := order[..k] + [i] + order[k..];
      && (forall a :: 0 <= a < |r| ==> r[a] < |files|)
      && (forall a, b :: 0 <= a < b < |r| ==> Earlier(files, r[a], r[b]))
  {
    var r := order[..k] + [i] + order[k..];
    forall a | 0 <= a < k ensures Earlier(files, order[a], i) {
      assert order[a] in s;
      if a < k - 1 { assert Earlier(files, order[a], order[k-1]); }
    }
    forall a, b | 0 <= a < b < |r| ensures Earlier(files, r[a], r[b]) {
      var x, y := if a < k then a else a - 1, if b < k then b else b - 1;
      if a != k && b != k { assert Earlier(files, order[x], order[y]); }
    }
  }

  lemma InsertedMembers(order: seq<nat>, i: nat, k: nat)
    requires k <= |order|
    ensures forall x: nat :: x in order[..k] + [i] + order[k..] <==> x == i || x in order
  {
    assert order == order[..k] + order[k..];
  }

  // sorted(files, key=log_date) restricted to `list`, whose positions ascend.
  method SortByDate(files: seq<LogFile>, list: seq<nat>) returns (order: seq<nat>)
    requires forall a :: 0 <= a < |list| ==> list[a] < |files|
    requires forall a, b :: 0 <= a < b < |list| ==> list[a] < list[b]
    ensures OldestFirst(files, order, Members(list))
  {
    order := [];
    for n := 0 to |list|
      invariant OldestFirst(files, order, Members(list[..n]))
    {
      assert list[..n+1] == list[..n] + [list[n]];
      assert Members(list[..n+1]) == Members(list[..n]) + {list[n]};
      order := InsertByDate(files, order, Members(list[..n]), list[n]);
    }
    assert list[..|list|] == list;
  }

  // ---- The schedule ----

  method Listing(n: nat) returns (list: seq<nat>)
    ensures |list| == n && forall a :: 0 <= a < n ==> list[a] == a
  {
    list := [];
    for i := 0 to n
      invariant |list| == i && forall a :: 0 <= a < i ==> list[a] == a
    {
      list := list + [i];
    }
  }

  // The file first put under a key is earlier than any other seen with that key.
  ghost predicate WeeksFilled(files: seq<LogFile>, p: Policy, seen: seq<nat>, weekly: map<int, nat>)
    requires forall a :: 0 <= a < |seen| ==> seen[a] < |files|
  {
    && (forall k :: k in weekly ==> weekly[k] in seen && ZoneOf(files[weekly[k]], p).Weekly?
                                    && WeekNumber(files[weekly[k]].date) == k)
    && (forall i :: i in seen && ZoneOf(files[i], p).Weekly? ==>
          var k := WeekNumber(files[i].date); k in weekly && (weekly[k] == i || Earlier(files, weekly[k], i)))
  }

  ghost predicate MonthsFilled(files: seq<LogFile>, p: Policy, seen: seq<nat>, monthly: map<(int, int), nat>)
    requires forall a :: 0 <= a < |seen| ==> seen[a] < |files|
  {
    && (forall k :: k in monthly ==> monthly[k] in seen && ZoneOf(files[monthly[k]], p).Monthly?
                                     && (YearOf(files[monthly[k]].date), MonthOf(files[monthly[k]].date)) == k)
    && (forall i :: i in seen && ZoneOf(files[i], p).Monthly? ==>
          var k := (YearOf(files[i].date), MonthOf(files[i].date));
          k in monthly && (monthly[k] == i || Earlier(files, monthly[k], i)))
  }

  ghost predicate BucketsFilled(files: seq<LogFile>, p: Policy, seen: seq<nat>, weekly: map<int, nat>,
                                monthly: map<(int, int), nat>)
  {
    && (forall a :: 0 <= a < |seen| ==> seen[a] < |files|)
    && WeeksFilled(files, p, seen, weekly) && MonthsFilled(files, p, seen, monthly)
  }

  function PutFirst<K>(m: map<K, nat>, k: K, i: nat): map<K, nat> {
    if k in m then m else m[k := i]
  }

  lemma NextWeek(files: seq<LogFile>, p: Policy, seen: seq<nat>, i: nat, weekly: map<int, nat>)
    requires i < |files| && forall a :: 0 <= a < |seen| ==> seen[a] < |files| && Earlier(files, seen[a], i)
    requires WeeksFilled(files, p, seen, weekly)
    ensures WeeksFilled(files, p, seen + [i],
      if ZoneOf(files[i], p).Weekly? then PutFirst(weekly, WeekNumber(files[i].date), i) else weekly)
  {
    assert forall j :: j in seen + [i] <==> j in seen || j == i;
  }

  lemma NextMonth(files: seq<LogFile>, p: Policy, seen: seq<nat>, i: nat, monthly: map<(int, int), nat>)
    requires i < |files| && forall a :: 0 <= a < |seen| ==> seen[a] < |files| && Earlier(files, seen[a], i)
    requires MonthsFilled(files, p, seen, monthly)
    ensures MonthsFilled(files, p, seen + [i],
      if ZoneOf(files[i], p).Monthly?
      then PutFirst(monthly, (YearOf(files[i].date), MonthOf(files[i].date)), i) else monthly)
  {
    assert forall j :: j in seen + [i] <==> j in seen || j == i;
  }

  method KeepSet(files: seq<LogFile>, p: Policy) returns (keep: set<nat>)
    ensures forall i: nat :: i in keep <==> i < |files| && Kept(files, p, i)
  {
    var list := Listing(|files|);
    var order := SortByDate(files, list);
    keep := {};
    var weekly: map<int, nat>, monthly: map<(int, int), nat> := map[], map[];
    for n := 0 to |order|
      invariant BucketsFilled(files, p, order[..n], weekly, monthly)
      invariant forall i: nat :: i in keep <==> i in order[..n] && ZoneOf(files[i], p).Recent?
    {
      var i := order[n];
      NextWeek(files, p, order[..n], i, weekly);
      NextMonth(files, p, order[..n], i, monthly);
      assert order[..n+1] == order[..n] + [i];
      match ZoneOf(files[i], p) {
        case Recent => keep := keep + {i};
        case Weekly =>
          var k := WeekNumber(files[i].date);
          if k !in weekly { weekly := weekly[k := i]; }
        case Monthly =>
          var k := (YearOf(files[i].date), MonthOf(files[i].date));
          if k !in monthly { monthly := monthly[k := i]; }
        case Expired =>
      }
    }
    assert order[..|order|] == order;
    forall i: nat | i < |files| ensures i in order { assert list[i] in list; }
    forall i: nat ensures i in keep + weekly.Values + monthly.Values <==> i < |files| && Kept(files, p, i) {
      WeeklyHolds(files, p, order, weekly, monthly, i);
      MonthlyHolds(files, p, order, weekly, monthly, i);
    }
    keep := keep + weekly.Values + monthly.Values;
  }

  // The file that fills i's bucket, being first of it in `order`, is i exactly when i
  // is the earliest of its bucket.
  lemma FirstIsEarliest(files: seq<LogFile>, p: Policy, holder: nat, i: nat)
    requires holder < |files| && i < |files| && SameBucket(files[holder], files[i], p)
    requires forall j: nat | j < |files| && SameBucket(files[j], files[i], p) ::
      holder == j || Earlier(files, holder, j)
    ensures holder == i <==> EarliestOfBucket(files, p, i)
  {
    if holder == i {
      forall j | 0 <= j < |files| && SameBucket(files[j], files[i], p) ensures !Earlier(files, j, i) {
        assert holder == j || Earlier(files, holder, j);
      }
    }
  }

  lemma KeyOf<K>(m: map<K, nat>, v: nat) returns (k: K)
    requires v in m.Values
    ensures k in m && m[k] == v
  {
    k :| k in m && m[k] == v;
  }

  lemma WeeklyHolds(files: seq<LogFile>, p: Policy, order: seq<nat>, weekly: map<int, nat>,
                    monthly: map<(int, int), nat>, i: nat)
    requires BucketsFilled(files, p, order, weekly, monthly)
    requires forall j: nat :: j < |files| ==> j in order
    ensures i in weekly.Values <==> i < |files| && ZoneOf(files[i], p).Weekly? && EarliestOfBucket(files, p, i)
  {
    if i in weekly.Values {
      var k := KeyOf(weekly, i);
      FirstIsEarliest(files, p, i, i);
    } else if i < |files| && ZoneOf(files[i], p).Weekly? {
      FirstIsEarliest(files, p, weekly[WeekNumber(files[i].date)], i);
    }
  }

  lemma MonthlyHolds(files: seq<LogFile>, p: Policy, order: seq<nat>, weekly: map<int, nat>,
                     monthly: map<(int, int), nat>, i: nat)
    requires BucketsFilled(files, p, order, weekly, monthly)
    requires forall j: nat :: j < |files| ==> j in order
    ensures i in monthly.Values <==> i < |files| && ZoneOf(files[i], p).Monthly? && EarliestOfBucket(files, p, i)
  {
    if i in monthly.Values {
      var k := KeyOf(monthly, i);
      FirstIsEarliest(files, p, i, i);
    } else if i < |files| && ZoneOf(files[i], p).Monthly? {
      FirstIsEarliest(files, p, monthly[(YearOf(files[i].date), MonthOf(files[i].date))], i);
    }
  }

  // ---- Pruning ----

  // The positions below n that are in s, ascending.
  function Positions(n: nat, s: set<nat>): seq<nat> {
    if n == 0 then [] else Positions(n - 1, s) + if n - 1 in s then [n - 1] else []
  }

  function All(n: nat): (s: set<nat>)
    ensures forall i: nat :: i in s <==> i < n
  {
    if n == 0 then {} else All(n - 1) + {n - 1}
  }

  // Bytes of the files below n that are in s.
  function BytesIn(files: seq<LogFile>, s: set<nat>, n: nat): nat
    requires n <= |files|
  {
    if n == 0 then 0 else BytesIn(files, s, n - 1) + if n - 1 in s then files[n-1].size else 0
  }

  ghost function KeepOf(files: seq<LogFile>, p: Policy): set<nat> {
    set i: nat | i < |files| && Kept(files, p, i)
  }

  // What is left of the schedule once the k oldest kept files are gone.
  ghost function LeftOf(keep: set<nat>, order: seq<nat>, k: nat): set<nat>
    requires k <= |order|
  {
    keep - Members(order[..k])
  }

  // k is the shortest oldest-first prefix whose removal brings the rest to the cap.
  ghost predicate Cut(files: seq<LogFile>, keep: set<nat>, order: seq<nat>, k: nat, cap: int) {
    && k <= |order|
    && (k == |order| || BytesIn(files, LeftOf(keep, order, k), |files|) <= cap)
    && (forall j :: 0 <= j < k ==> BytesIn(files, LeftOf(keep, order, j), |files|) > cap)
  }

  // Deleted: the files outside the schedule, then that prefix of the kept ones.
  ghost predicate Pruned(files: seq<LogFile>, p: Policy, cap: int, deleted: seq<nat>) {
    exists order, k: nat :: OldestFirst(files, order, KeepOf(files, p)) && Cut(files, KeepOf(files, p), order, k, cap)
      && deleted == Positions(|files|, All(|files|) - KeepOf(files, p)) + order[..k]
  }

  lemma {:induction false} PositionsAscend(n: nat, s: set<nat>)
    ensures forall i: nat :: i in Positions(n, s) <==> i < n && i in s
    ensures forall a :: 0 <= a < |Positions(n, s)| ==> Positions(n, s)[a] < n
    ensures forall a, b :: 0 <= a < b < |Positions(n, s)| ==> Positions(n, s)[a] < Positions(n, s)[b]
  {
    if n > 0 { PositionsAscend(n - 1, s); }
  }

  lemma {:induction false} BytesDrop(files: seq<LogFile>, s: set<nat>, n: nat, i: nat)
    requires n <= |files| && i in s
    ensures BytesIn(files, s - {i}, n) == BytesIn(files, s, n) - if i < n then files[i].size else 0
  {
    if n > 0 { BytesDrop(files, s, n - 1, i); }
  }

  method PruneLogs(files: seq<LogFile>, p: Policy, hardCap: int) returns (deleted: seq<nat>)
    ensures Pruned(files, p, hardCap, deleted)
  {
    var keep := KeepSet(files, p);
    assert keep == KeepOf(files, p);
    var survivors, total;
    deleted, survivors, total := SplitBySchedule(files, keep);
    PositionsAscend(|files|, keep);
    assert Members(survivors) == keep;
    var order := SortByDate(files, survivors);
    var k := CutToCap(files, keep, order, total, hardCap);
    deleted := deleted + order[..k];
  }

  method SplitBySchedule(files: seq<LogFile>, keep: set<nat>)
    returns (deleted: seq<nat>, survivors: seq<nat>, total: nat)
    ensures deleted == Positions(|files|, All(|files|) - keep)
    ensures survivors == Positions(|files|, keep) && total == BytesIn(files, keep, |files|)
  {
    deleted, survivors, total := [], [], 0;
    for i := 0 to |files|
      invariant deleted == Positions(i, All(|files|) - keep) && survivors == Positions(i, keep)
      invariant total == BytesIn(files, keep, i)
    {
      if i in keep {
        survivors, total := survivors + [i], total + files[i].size;
      } else {
        deleted := deleted + [i];
      }
    }
  }

  // Deletes kept files oldest first until the total fits; returns how many.
  method CutToCap(files: seq<LogFile>, ghost keep: set<nat>, order: seq<nat>, size: nat, hardCap: int) returns (k: nat)
    requires OldestFirst(files, order, keep) && size == BytesIn(files, keep, |files|)
    ensures Cut(files, keep, order, k, hardCap)
  {
    var total := size;
    k := 0;
    assert LeftOf(keep, order, 0) == keep;
    while k < |order| && total > hardCap
      invariant 0 <= k <= |order|
      invariant total == BytesIn(files, LeftOf(keep, order, k), |files|)
      invariant forall j :: 0 <= j < k ==> BytesIn(files, LeftOf(keep, order, j), |files|) > hardCap
    {
      DropOldest(files, keep, order, k);
      total := total - files[order[k]].size;
      k := k + 1;
    }
  }

  lemma DropOldest(files: seq<LogFile>, keep: set<nat>, order: seq<nat>, k: nat)
    requires OldestFirst(files, order, keep) && k < |order|
    ensures BytesIn(files, LeftOf(keep, order, k + 1), |files|)
         == BytesIn(files, LeftOf(keep, order, k), |files|) - files[order[k]].size
  {
    assert order[..k+1] == order[..k] + [order[k]];
    assert order[k] in LeftOf(keep, order, k) by {
      forall a | 0 <= a < k ensures order[a] != order[k] { assert Earlier(files, order[a], order[k]); }
    }
    assert LeftOf(keep, order, k + 1) == LeftOf(keep, order, k) - {order[k]};
    BytesDrop(files, LeftOf(keep, order, k), |files|, order[k]);
  }
}
