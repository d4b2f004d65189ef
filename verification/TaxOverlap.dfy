// Two refreshes whose transactions overlap: nothing locks the table, so under READ COMMITTED
// the second sees what the first wrote only from the first's commit on.
module TaxOverlap {
  import opened Options
  import opened TaxRules
  import opened TaxHistory

  // A list with a rate to change for the key.
  predicate Changes(rows: seq<TaxRule>, rules: seq<RuleInput>, key: Key) {
    exists k :: 0 <= k < |rules| && rules[k].key == key && !AlreadyCurrent(rows, rules[k])
  }

  // ---- What a batch does to one key ----

  lemma {:induction false} BatchGrows(rows: seq<TaxRule>, rules: seq<RuleInput>, now: int)
    ensures UpsertAll(rows, rules, now).Some? ==> |rows| <= |UpsertAll(rows, rules, now).value.rows|
    ensures |rows| <= |Refresh(rows, rules, now)|
  {
    if rules != [] { BatchGrows(rows, rules[..|rules|-1], now); }
  }

  // The rows of the key are as they were, or closed where they were current.
  predicate ClosedWhere(rows: seq<TaxRule>, t: seq<TaxRule>, key: Key, changes: bool, now: int)
    requires |rows| <= |t|
  {
    forall i :: 0 <= i < |rows| ==>
      && t[i].key == rows[i].key
      && (rows[i].key == key ==> t[i] == if changes then CloseRow(rows[i], key, now) else rows[i])
  }

  predicate AddsOne(h: seq<TaxRule>, key: Key, changes: bool, now: int) {
    if changes then |h| == 1 && h[0].key == key && h[0].from == now && h[0].to.None? else h == []
  }

  predicate Touched(rows: seq<TaxRule>, t: seq<TaxRule>, key: Key, changes: bool, now: int) {
    && |rows| <= |t| && ClosedWhere(rows, t, key, changes, now)
    && AddsOne(History(t[|rows|..], key), key, changes, now)
  }

  lemma ChangesLast(rows: seq<TaxRule>, rules: seq<RuleInput>, key: Key)
    requires rules != []
    ensures
      var front, last := rules[..|rules|-1], rules[|rules|-1];
      Changes(rows, rules, key) <==> Changes(rows, front, key) || (last.key == key && !AlreadyCurrent(rows, last))
  {
    var front, last := rules[..|rules|-1], rules[|rules|-1];
    if k :| 0 <= k < |front| && front[k].key == key && !AlreadyCurrent(rows, front[k]) {
      assert rules[k] == front[k];
    }
    if k :| 0 <= k < |rules| && rules[k].key == key && !AlreadyCurrent(rows, rules[k]) {
      assert k < |front| ==> front[k] == rules[k];
    }
  }

  lemma HistoryJoin(a: seq<TaxRule>, b: seq<TaxRule>, key: Key)
    ensures History(a + b, key) == History(a, key) + History(b, key)
  {
    if b == [] {
      assert a + b == a;
    } else {
      assert (a + b)[..|a + b|-1] == a + b[..|b|-1];
      HistoryJoin(a, b[..|b|-1], key);
    }
  }

  // A row of the key is one of the old ones or one of those added.
  lemma RowsOfKey(rows: seq<TaxRule>, t: seq<TaxRule>, key: Key, i: nat)
    requires |rows| <= i < |t| && t[i].key == key
    ensures t[i] in History(t[|rows|..], key)
  {
    HistoryMember(t[|rows|..], key, t[i]);
    assert t[|rows|..][i - |rows|] == t[i];
  }

  lemma UntouchedIsAsCurrent(rows: seq<TaxRule>, t: seq<TaxRule>, r: RuleInput, now: int)
    requires Touched(rows, t, r.key, false, now)
    ensures AlreadyCurrent(t, r) <==> AlreadyCurrent(rows, r)
    ensures Taken(rows, r.key, now) ==> Taken(t, r.key, now)
  {
    forall i | |rows| <= i < |t|
      ensures t[i].key != r.key
    {
      if t[i].key == r.key { RowsOfKey(rows, t, r.key, i); }
    }
    if i :| 0 <= i < |rows| && IsCurrent(rows[i], r.key) && rows[i].rate == r.rate { assert t[i] == rows[i]; }
    if i :| 0 <= i < |rows| && rows[i].key == r.key && rows[i].from == now { assert t[i] == rows[i]; }
  }

  lemma TouchedIsTaken(rows: seq<TaxRule>, t: seq<TaxRule>, key: Key, now: int)
    requires Touched(rows, t, key, true, now)
    ensures Taken(t, key, now)
  {
    var h := History(t[|rows|..], key);
    HistoryMember(t[|rows|..], key, h[0]);
    var k :| 0 <= k < |t[|rows|..]| && t[|rows|..][k] == h[0];
    assert t[|rows| + k] == h[0];
  }

  // One more rule, of this key or another.
  lemma InsertTouches(rows: seq<TaxRule>, t: seq<TaxRule>, r: RuleInput, now: int, key: Key, changes: bool)
    requires Touched(rows, t, key, changes, now) && (r.key == key ==> !changes)
    ensures Touched(rows, CloseAll(t, r.key, now) + [NewRow(r, now)], key, changes || r.key == key, now)
  {
    var u := CloseAll(t, r.key, now) + [NewRow(r, now)];
    var added := t[|rows|..];
    assert u[|rows|..] == CloseAll(added, r.key, now) + [NewRow(r, now)];
    InsertAdds(added, r, now, key, changes);
    InsertCloses(rows, t, r, now, key, changes);
  }

  lemma InsertAdds(added: seq<TaxRule>, r: RuleInput, now: int, key: Key, changes: bool)
    requires AddsOne(History(added, key), key, changes, now) && (r.key == key ==> !changes)
    ensures AddsOne(History(CloseAll(added, r.key, now) + [NewRow(r, now)], key), key, changes || r.key == key, now)
  {
    HistoryAppend(CloseAll(added, r.key, now), NewRow(r, now), key);
    HistoryClose(added, r.key, now, key);
    if r.key != key {
      HistoryKeys(added, key);
      Untouched(History(added, key), key, r.key, now);
    }
  }

  lemma InsertCloses(rows: seq<TaxRule>, t: seq<TaxRule>, r: RuleInput, now: int, key: Key, changes: bool)
    requires |rows| <= |t| && ClosedWhere(rows, t, key, changes, now) && (r.key == key ==> !changes)
    ensures ClosedWhere(rows, CloseAll(t, r.key, now) + [NewRow(r, now)], key, changes || r.key == key, now)
  {
  }

  // A batch that goes through closes the current rows of exactly the keys it has a rate to
  // change for, and adds one row of each.
  lemma {:induction false} BatchTouches(rows: seq<TaxRule>, rules: seq<RuleInput>, now: int, key: Key)
    requires UpsertAll(rows, rules, now).Some?
    ensures Touched(rows, UpsertAll(rows, rules, now).value.rows, key, Changes(rows, rules, key), now)
    ensures Changes(rows, rules, key) ==> !Taken(rows, key, now)
  {
    if rules != [] {
      var front, last := rules[..|rules|-1], rules[|rules|-1];
      BatchTouches(rows, front, now, key);
      ChangesLast(rows, rules, key);
      LastTouches(rows, UpsertAll(rows, front, now).value, last, now, key, Changes(rows, front, key));
    }
  }

  lemma LastTouches(rows: seq<TaxRule>, o: Outcome, r: RuleInput, now: int, key: Key, changes: bool)
    requires Touched(rows, o.rows, key, changes, now) && UpsertOne(o, r, now).Some?
    ensures
      var anew := r.key == key && !AlreadyCurrent(rows, r);
      && Touched(rows, UpsertOne(o, r, now).value.rows, key, changes || anew, now)
      && (!changes && anew ==> !Taken(rows, key, now))
  {
    if r.key == key {
      if changes { TouchedIsTaken(rows, o.rows, key, now); } else { UntouchedIsAsCurrent(rows, o.rows, r, now); }
    }
    if !AlreadyCurrent(o.rows, r) { InsertTouches(rows, o.rows, r, now, key, changes); }
  }

  lemma CommitTouches(rows: seq<TaxRule>, t: seq<TaxRule>, key: Key, changes: bool, now: int)
    requires AllStorable(rows) && Touched(rows, t, key, changes, now)
    ensures Touched(rows, Commit(t), key, changes, now)
  {
    HistoryCommit(t[|rows|..], key);
    assert Commit(t)[|rows|..] == Commit(t[|rows|..]);
  }

  // ---- The two together ----

  // Where both closed a row the second's UPDATE, made last, stays; both sets of rows are in.
  function Merge(rows: seq<TaxRule>, first: seq<TaxRule>, second: seq<TaxRule>): seq<TaxRule>
    requires |rows| <= |first| && |rows| <= |second|
  {
    seq(|rows|, i requires 0 <= i < |rows| => if second[i] != rows[i] then second[i] else first[i])
    + first[|rows|..] + second[|rows|..]
  }

  // The unique constraint refuses a row the second adds.
  predicate Clash(rows: seq<TaxRule>, first: seq<TaxRule>, second: seq<TaxRule>) {
    exists i :: |rows| <= i < |second| && Taken(first, second[i].key, second[i].from)
  }

  // The first commits when the second is through with m of its rules; None stands for the
  // second's rollback.
  function Overlap(rows: seq<TaxRule>, a: seq<RuleInput>, now: int, b: seq<RuleInput>, later: int, m: nat)
    : Option<seq<TaxRule>>
    requires m <= |b|
  {
    var first := Refresh(rows, a, now);
    BatchGrows(rows, a, now);
    BatchGrows(rows, b[..m], later);
    match UpsertAll(rows, b[..m], later)
    case None => None
    case Some(o) =>
      if Clash(rows, first, o.rows) then None
      else match UpsertAll(Merge(rows, first, o.rows), b[m..], later)
        case None => None
        case Some(p) => Some(Commit(p.rows))
  }

  lemma {:induction false} ClosedHistory(rows: seq<TaxRule>, t: seq<TaxRule>, key: Key, changes: bool, now: int)
    requires |rows| == |t| && ClosedWhere(rows, t, key, changes, now)
    ensures History(t, key) == if changes then CloseAll(History(rows, key), key, now) else History(rows, key)
  {
    if rows != [] { ClosedHistory(rows[..|rows|-1], t[..|t|-1], key, changes, now); }
  }

  lemma MergedHistory(rows: seq<TaxRule>, first: seq<TaxRule>, second: seq<TaxRule>, key: Key,
                      one: bool, now: int, two: bool, later: int)
    requires Touched(rows, first, key, one, now) && Touched(rows, second, key, two, later)
    ensures
      var h := History(rows, key);
      var closed := if two then CloseAll(h, key, later) else if one then CloseAll(h, key, now) else h;
      History(Merge(rows, first, second), key)
        == closed + History(first[|rows|..], key) + History(second[|rows|..], key)
  {
    var before := seq(|rows|, i requires 0 <= i < |rows| => if second[i] != rows[i] then second[i] else first[i]);
    HistoryJoin(before + first[|rows|..], second[|rows|..], key);
    HistoryJoin(before, first[|rows|..], key);
    ClosedHistory(rows, before, key, one || two, if two then later else now);
  }

  lemma TouchedHistory(rows: seq<TaxRule>, t: seq<TaxRule>, key: Key, changes: bool, now: int)
    requires Touched(rows, t, key, changes, now)
    ensures History(t, key)
         == (if changes then CloseAll(History(rows, key), key, now) else History(rows, key)) + History(t[|rows|..], key)
  {
    assert t[..|rows|] + t[|rows|..] == t;
    HistoryJoin(t[..|rows|], t[|rows|..], key);
    ClosedHistory(rows, t[..|rows|], key, changes, now);
  }

  // One row more on a tiled history, from an instant after the last row's.
  lemma OneMoreTiles(h: seq<TaxRule>, key: Key, row: TaxRule)
    requires Tiled(h) && row.to.None? && forall i :: 0 <= i < |h| ==> h[i].key == key
    ensures Tiled(CloseAll(h, key, row.from) + [row]) <==> h == [] || h[|h|-1].from < row.from
  {
    var c := CloseAll(h, key, row.from) + [row];
    if h != [] {
      var n := |h| - 1;
      assert c[n].from == h[n].from && c[n+1] == row;
      if h[n].from < row.from { StartsAscend(h, row.from); Extend(h, key, row); }
    }
  }

  lemma StartsAscend(h: seq<TaxRule>, at: int)
    requires Tiled(h) && h != [] && h[|h|-1].from < at
    ensures forall i :: 0 <= i < |h| ==> h[i].from < at
  {
    if |h| > 1 {
      var g := h[..|h|-1];
      forall i | 0 <= i < |h| - 1
        ensures h[i].from < at
      {
        TilesAscend(h, i, |h| - 1);
        assert h[i].to == Some(h[i+1].from) && h[i].from < h[i+1].from;
      }
    }
  }

  lemma TwoOpenDoNotTile(closed: seq<TaxRule>, a: TaxRule, b: TaxRule)
    requires a.to.None?
    ensures !Tiled(closed + [a] + [b])
  {
    var h := closed + [a] + [b];
    assert h[|h|-2] == a;
  }

  // What the second has left to change once the first has committed.
  predicate ChangesAfter(rows: seq<TaxRule>, a: seq<RuleInput>, now: int, b: seq<RuleInput>, later: int,
                         m: nat, key: Key)
    requires m <= |b| && UpsertAll(rows, b[..m], later).Some?
  {
    BatchGrows(rows, a, now);
    BatchGrows(rows, b[..m], later);
    Changes(Merge(rows, Refresh(rows, a, now), UpsertAll(rows, b[..m], later).value.rows), b[m..], key)
  }

  lemma FirstTouches(rows: seq<TaxRule>, a: seq<RuleInput>, now: int, key: Key)
    requires AllStorable(rows)
    ensures var one := UpsertAll(rows, a, now).Some? && Changes(rows, a, key);
      Touched(rows, Refresh(rows, a, now), key, one, now) && (one ==> !Taken(rows, key, now))
  {
    if UpsertAll(rows, a, now).Some? {
      BatchTouches(rows, a, now, key);
      CommitTouches(rows, UpsertAll(rows, a, now).value.rows, key, Changes(rows, a, key), now);
    } else {
      assert rows[|rows|..] == [];
    }
  }

  lemma HistoryIsBefore(rows: seq<TaxRule>, key: Key, at: int)
    requires NotAfter(rows, at) && !Taken(rows, key, at)
    ensures AddedOn(History(rows, key), key, at, true)
  {
    HistoryKeys(rows, key);
    forall i | 0 <= i < |History(rows, key)|
      ensures History(rows, key)[i].from < at
    {
      FromBefore(rows, key, at, i);
    }
  }

  lemma TiledCommit(h: seq<TaxRule>)
    ensures Tiled(Commit(h)) <==> Tiled(h)
  {
    var c := Commit(h);
    assert forall i :: 0 <= i < |h| ==> c[i].from == h[i].from && c[i].to == h[i].to;
    if Tiled(c) {
      forall i | 0 <= i < |h| - 1
        ensures h[i].to == Some(h[i+1].from) && h[i].from < h[i+1].from
      {
        assert c[i].to == Some(c[i+1].from);
      }
    }
  }

  predicate AddedOn(h: seq<TaxRule>, key: Key, now: int, one: bool) {
    one ==> forall i :: 0 <= i < |h| ==> h[i].from < now
  }

  predicate StandsAt(u: seq<TaxRule>, h: seq<TaxRule>, key: Key, now: int, later: int, one: bool, two: bool) {
    && (Tiled(u) <==> !(one && two))
    && (one && two ==> OpenCount(u, key) == 2)
    && (two ==> u != [] && u[|u|-1].from == later)
    && (one && !two ==> u != [] && u[|u|-1].from == now)
    && (!one && !two ==> u == h)
  }

  lemma BothStandAt(h: seq<TaxRule>, key: Key, now: int, later: int, r: seq<TaxRule>, s: seq<TaxRule>)
    requires AddsOne(r, key, true, now) && AddsOne(s, key, true, later)
    ensures StandsAt(CloseAll(h, key, later) + r + s, h, key, now, later, true, true)
  {
    assert r == [r[0]] && s == [s[0]];
    NoneOpen(h, key, later);
    TwoOpen(CloseAll(h, key, later), key, r[0], s[0]);
    TwoOpenDoNotTile(CloseAll(h, key, later), r[0], s[0]);
  }

  // h, a key's history before; r and s, what the two added to it.
  lemma WrittenAt(h: seq<TaxRule>, key: Key, now: int, later: int, r: seq<TaxRule>, s: seq<TaxRule>,
                  one: bool, two: bool)
    requires Tiled(h) && forall i :: 0 <= i < |h| ==> h[i].key == key
    requires AddsOne(r, key, one, now) && AddsOne(s, key, two, later)
    requires AddedOn(h, key, now, one) && AddedOn(h, key, later, two)
    ensures
      var closed := if two then CloseAll(h, key, later) else if one then CloseAll(h, key, now) else h;
      StandsAt(closed + r + s, h, key, now, later, one, two)
  {
    if one && two {
      BothStandAt(h, key, now, later, r, s);
    } else if one {
      assert r == [r[0]] && CloseAll(h, key, now) + r + s == CloseAll(h, key, now) + [r[0]];
      OneMoreTiles(h, key, r[0]);
    } else if two {
      assert s == [s[0]] && CloseAll(h, key, later) + r + s == CloseAll(h, key, later) + [s[0]];
      OneMoreTiles(h, key, s[0]);
    } else {
      assert h + r + s == h;
    }
  }

  lemma TakenInHistory(rows: seq<TaxRule>, key: Key, at: int)
    ensures Taken(rows, key, at) <==> exists i :: 0 <= i < |History(rows, key)| && History(rows, key)[i].from == at
  {
    var h := History(rows, key);
    HistoryKeys(rows, key);
    if i :| 0 <= i < |rows| && rows[i].key == key && rows[i].from == at {
      HistoryMember(rows, key, rows[i]);
      var k :| 0 <= k < |h| && h[k] == rows[i];
    }
    if i :| 0 <= i < |h| && h[i].from == at {
      var k :| 0 <= k < |rows| && rows[k] == h[i];
    }
  }

  lemma {:induction false} OpenInHistory(rows: seq<TaxRule>, key: Key)
    ensures OpenCount(rows, key) == OpenCount(History(rows, key), key)
  {
    if rows != [] {
      var front, last := rows[..|rows|-1], rows[|rows|-1];
      OpenInHistory(front, key);
      if last.key == key {
        assert History(rows, key) == History(front, key) + [last];
        assert History(rows, key)[..|History(front, key)|] == History(front, key);
      } else {
        assert History(rows, key) == History(front, key);
      }
    }
  }

  lemma {:induction false} NoneOpen(rows: seq<TaxRule>, key: Key, now: int)
    ensures OpenCount(CloseAll(rows, key, now), key) == 0
  {
    if rows != [] {
      var n := |rows| - 1;
      NoneOpen(rows[..n], key, now);
      assert CloseAll(rows, key, now)[..n] == CloseAll(rows[..n], key, now);
    }
  }

  lemma {:induction false} CommitKeepsOpen(rows: seq<TaxRule>, key: Key)
    ensures OpenCount(Commit(rows), key) == OpenCount(rows, key)
  {
    if rows != [] {
      var n := |rows| - 1;
      CommitKeepsOpen(rows[..n], key);
      assert Commit(rows)[..n] == Commit(rows[..n]);
    }
  }

  lemma TwoOpen(closed: seq<TaxRule>, key: Key, a: TaxRule, b: TaxRule)
    requires OpenCount(closed, key) == 0 && IsCurrent(a, key) && IsCurrent(b, key)
    ensures OpenCount(closed + [a] + [b], key) == 2
  {
    assert (closed + [a])[..|closed|] == closed && (closed + [a] + [b])[..|closed|+1] == closed + [a];
  }

  // v, a key's history after the rest of the second's list; h, its history before.
  predicate ContinuedFrom(v: seq<TaxRule>, h: seq<TaxRule>, changes: bool, later: int) {
    && (!changes ==> v == h)
    && (changes && Tiled(h) ==> (Tiled(v) <==> h == [] || h[|h|-1].from < later))
    && (changes ==> forall i :: 0 <= i < |h| ==> h[i].from != later)
  }

  lemma RestTiles(t: seq<TaxRule>, rest: seq<RuleInput>, later: int, key: Key)
    requires UpsertAll(t, rest, later).Some?
    ensures ContinuedFrom(History(UpsertAll(t, rest, later).value.rows, key), History(t, key),
                          Changes(t, rest, key), later)
  {
    var u, changes := UpsertAll(t, rest, later).value.rows, Changes(t, rest, key);
    BatchTouches(t, rest, later, key);
    TouchedHistory(t, u, key, changes, later);
    TakenInHistory(t, key, later);
    HistoryKeys(t, key);
    RestContinues(History(t, key), key, History(u[|t|..], key), changes, later);
  }

  lemma RestContinues(h: seq<TaxRule>, key: Key, added: seq<TaxRule>, changes: bool, later: int)
    requires AddsOne(added, key, changes, later) && forall i :: 0 <= i < |h| ==> h[i].key == key
    requires changes ==> forall i :: 0 <= i < |h| ==> h[i].from != later
    ensures ContinuedFrom((if changes then CloseAll(h, key, later) else h) + added, h, changes, later)
  {
    if changes {
      assert added == [added[0]];
      if Tiled(h) { OneMoreTiles(h, key, added[0]); }
    } else {
      assert h + added == h;
    }
  }

  // The two put together: what the first and the second have refreshed (`one`, `two`) when
  // the first commits, and what the second refreshes after (`three`).
  lemma OverlapAt(v: seq<TaxRule>, h: seq<TaxRule>, before: seq<TaxRule>, key: Key, now: int, later: int,
                  one: bool, two: bool, three: bool)
    requires StandsAt(h, before, key, now, later, one, two) && ContinuedFrom(v, h, three, later)
    requires Tiled(before) && forall i :: 0 <= i < |before| ==> before[i].from <= later
    ensures Tiled(v) <==> !(one && two) && !(one && three && later < now)
    ensures one && two ==> OpenCount(v, key) == 2
  {
    if three && h != [] { assert h[|h|-1].from != later; }
  }

  predicate Refreshes(rows: seq<TaxRule>, rules: seq<RuleInput>, now: int, key: Key) {
    UpsertAll(rows, rules, now).Some? && Changes(rows, rules, key)
  }

  // What the two have made of one key when the first has just committed.
  lemma BothWritten(rows: seq<TaxRule>, a: seq<RuleInput>, now: int, b: seq<RuleInput>, later: int, key: Key)
    requires AllStorable(rows) && NotAfter(rows, now) && NotAfter(rows, later) && Tiled(History(rows, key))
    requires UpsertAll(rows, b, later).Some?
    ensures |rows| <= |Refresh(rows, a, now)| && |rows| <= |UpsertAll(rows, b, later).value.rows|
    ensures StandsAt(History(Merge(rows, Refresh(rows, a, now), UpsertAll(rows, b, later).value.rows), key),
                     History(rows, key), key, now, later, Refreshes(rows, a, now, key), Changes(rows, b, key))
  {
    var one, two := Refreshes(rows, a, now, key), Changes(rows, b, key);
    var first, second := Refresh(rows, a, now), UpsertAll(rows, b, later).value.rows;
    FirstTouches(rows, a, now, key);
    BatchTouches(rows, b, later, key);
    MergedHistory(rows, first, second, key, one, now, two, later);
    HistoryKeys(rows, key);
    if one { HistoryIsBefore(rows, key, now); }
    if two { HistoryIsBefore(rows, key, later); }
    WrittenAt(History(rows, key), key, now, later, History(first[|rows|..], key), History(second[|rows|..], key),
              one, two);
  }

  // The table once both are over: the second's rollback leaves what the first made of it.
  function AfterBoth(rows: seq<TaxRule>, a: seq<RuleInput>, now: int, b: seq<RuleInput>, later: int, m: nat)
    : seq<TaxRule>
    requires m <= |b|
  {
    match Overlap(rows, a, now, b, later, m) { case None => Refresh(rows, a, now) case Some(t) => t }
  }

  // The first refreshes the key, and the second, before the first commits, looks it up with
  // another rate than it finds.
  predicate BothRefresh(rows: seq<TaxRule>, a: seq<RuleInput>, now: int, b: seq<RuleInput>, later: int,
                        m: nat, key: Key)
    requires m <= |b|
  {
    Refreshes(rows, a, now, key) && Changes(rows, b[..m], key)
  }

  // The second does so after the first has committed, with an earlier instant.
  predicate Backdates(rows: seq<TaxRule>, a: seq<RuleInput>, now: int, b: seq<RuleInput>, later: int,
                      m: nat, key: Key)
    requires m <= |b| && UpsertAll(rows, b[..m], later).Some?
  {
    Refreshes(rows, a, now, key) && ChangesAfter(rows, a, now, b, later, m, key) && later < now
  }

  // Two overlapping refreshes, each of any list, the first committing when the second is
  // through with m of its rules. A key's history stays tiled exactly when the second rolls
  // back, or neither of those two happens to the key. In the first case two rows stay open.
  lemma OverlapTilesIff(rows: seq<TaxRule>, a: seq<RuleInput>, now: int, b: seq<RuleInput>, later: int,
                        m: nat, key: Key)
    requires AllStorable(rows) && NotAfter(rows, now) && NotAfter(rows, later) && Tiled(History(rows, key))
    requires m <= |b|
    ensures
      var t, committed := AfterBoth(rows, a, now, b, later, m), Overlap(rows, a, now, b, later, m).Some?;
      && (Tiled(History(t, key)) <==>
            !committed || !(BothRefresh(rows, a, now, b, later, m, key) || Backdates(rows, a, now, b, later, m, key)))
      && (committed && BothRefresh(rows, a, now, b, later, m, key) ==> OpenCount(t, key) == 2)
  {
    if Overlap(rows, a, now, b, later, m).Some? {
      CommittedTilesIff(rows, a, now, b, later, m, key);
    } else {
      BatchKeepsTiles(rows, a, now, key);
      if UpsertAll(rows, a, now).Some? { CommittedAs(UpsertAll(rows, a, now).value.rows, key); }
    }
  }

  lemma CommittedTilesIff(rows: seq<TaxRule>, a: seq<RuleInput>, now: int, b: seq<RuleInput>, later: int,
                          m: nat, key: Key)
    requires AllStorable(rows) && NotAfter(rows, now) && NotAfter(rows, later) && Tiled(History(rows, key))
    requires m <= |b| && Overlap(rows, a, now, b, later, m).Some?
    ensures
      var t := Overlap(rows, a, now, b, later, m).value;
      && (Tiled(History(t, key)) <==>
            !BothRefresh(rows, a, now, b, later, m, key) && !Backdates(rows, a, now, b, later, m, key))
      && (BothRefresh(rows, a, now, b, later, m, key) ==> OpenCount(t, key) == 2)
  {
    BothWritten(rows, a, now, b[..m], later, key);
    var merged := Merge(rows, Refresh(rows, a, now), UpsertAll(rows, b[..m], later).value.rows);
    var u := UpsertAll(merged, b[m..], later).value.rows;
    RestTiles(merged, b[m..], later, key);
    BeforeInHistory(rows, key, later);
    OverlapAt(History(u, key), History(merged, key), History(rows, key), key, now, later,
              Refreshes(rows, a, now, key), Changes(rows, b[..m], key), Changes(merged, b[m..], key));
    CommittedAs(u, key);
  }

  lemma CommittedAs(u: seq<TaxRule>, key: Key)
    ensures Tiled(History(Commit(u), key)) <==> Tiled(History(u, key))
    ensures OpenCount(Commit(u), key) == OpenCount(History(u, key), key)
  {
    HistoryCommit(u, key);
    TiledCommit(History(u, key));
    CommitKeepsOpen(u, key);
    OpenInHistory(u, key);
  }

  lemma BeforeInHistory(rows: seq<TaxRule>, key: Key, at: int)
    requires NotAfter(rows, at)
    ensures forall i :: 0 <= i < |History(rows, key)| ==> History(rows, key)[i].from <= at
  {
    HistoryKeys(rows, key);
    forall i | 0 <= i < |History(rows, key)|
      ensures History(rows, key)[i].from <= at
    {
      var k :| 0 <= k < |rows| && rows[k] == History(rows, key)[i];
    }
  }

  lemma OnEmpty(r: RuleInput, now: int)
    ensures UpsertAll([], [r], now) == Some(Outcome([NewRow(r, now)], Counts(1, 0)))
    ensures Refresh([], [r], now) == [NewRow(r, now).(rate := Stored(r.rate))]
  {
    assert [r][..0] == [] && UpsertAll([], [r][..|[r]|-1], now) == Some(Outcome([], Counts(0, 0)));
    assert CloseAll([], r.key, now) + [NewRow(r, now)] == [NewRow(r, now)];
  }

  // Two first refreshes of one key, side by side, leave two current rates.
  lemma FirstRatesCollide(r: RuleInput, s: RuleInput, now: int, later: int)
    requires r.key == s.key && now != later
    ensures Overlap([], [r], now, [s], later, 1).Some?
    ensures OpenCount(AfterBoth([], [r], now, [s], later, 1), r.key) == 2
  {
    OnEmpty(r, now);
    OnEmpty(s, later);
    ChangesEmpty(r);
    ChangesEmpty(s);
    assert [s][..1] == [s] && [s][1..] == [];
    assert !Clash([], Refresh([], [r], now), [NewRow(s, later)]);
    OverlapTilesIff([], [r], now, [s], later, 1, r.key);
  }

  lemma ChangesEmpty(r: RuleInput)
    ensures Changes([], [r], r.key)
  {
    assert [r][0] == r;
  }
}
