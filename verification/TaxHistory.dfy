// What refreshing the tax rules keeps, over every run of refreshes.
module TaxHistory {
  import opened Options
  import opened TaxRules

  // ---- The history of one key ----

  function History(rows: seq<TaxRule>, key: Key): seq<TaxRule> {
    if rows == [] then []
    else
      var last := rows[|rows|-1];
      History(rows[..|rows|-1], key) + if last.key == key then [last] else []
  }

  // The validity intervals follow each other without gap or overlap; only the last
  // one is open.
  predicate Tiled(h: seq<TaxRule>) {
    && (forall i :: 0 <= i < |h| - 1 ==> h[i].to == Some(h[i+1].from) && h[i].from < h[i+1].from)
    && (h != [] ==> h[|h|-1].to.None?)
  }

  predicate RatesChange(h: seq<TaxRule>) {
    forall i :: 0 <= i < |h| - 1 ==> h[i].rate != h[i+1].rate
  }

  ghost predicate TiledTable(rows: seq<TaxRule>) {
    forall key: Key :: Tiled(History(rows, key))
  }

  predicate NotAfter(rows: seq<TaxRule>, now: int) {
    forall i :: 0 <= i < |rows| ==> rows[i].from <= now
  }

  predicate AllStorable(rows: seq<TaxRule>) {
    forall i :: 0 <= i < |rows| ==> Storable(rows[i].rate)
  }

  lemma {:induction false} HistoryMember(rows: seq<TaxRule>, key: Key, row: TaxRule)
    ensures row in History(rows, key) <==> row in rows && row.key == key
  {
    if rows != [] {
      HistoryMember(rows[..|rows|-1], key, row);
      assert rows == rows[..|rows|-1] + [rows[|rows|-1]];
    }
  }

  lemma HistoryAppend(rows: seq<TaxRule>, row: TaxRule, key: Key)
    ensures History(rows + [row], key) == History(rows, key) + if row.key == key then [row] else []
  {
    assert (rows + [row])[..|rows|] == rows;
  }

  lemma {:induction false} HistoryClose(rows: seq<TaxRule>, closing: Key, now: int, key: Key)
    ensures History(CloseAll(rows, closing, now), key) == CloseAll(History(rows, key), closing, now)
  {
    if rows != [] {
      var n := |rows| - 1;
      HistoryClose(rows[..n], closing, now, key);
      assert CloseAll(rows, closing, now)[..n] == CloseAll(rows[..n], closing, now);
    }
  }

  lemma {:induction false} HistoryCommit(rows: seq<TaxRule>, key: Key)
    ensures History(Commit(rows), key) == Commit(History(rows, key))
  {
    if rows != [] {
      var n := |rows| - 1;
      HistoryCommit(rows[..n], key);
      assert Commit(rows)[..n] == Commit(rows[..n]);
    }
  }

  lemma {:induction false} HistoryKeys(rows: seq<TaxRule>, key: Key)
    ensures forall i :: 0 <= i < |History(rows, key)| ==>
      History(rows, key)[i].key == key && History(rows, key)[i] in rows
  {
    forall i | 0 <= i < |History(rows, key)|
      ensures History(rows, key)[i].key == key && History(rows, key)[i] in rows
    {
      HistoryMember(rows, key, History(rows, key)[i]);
    }
  }

  // ---- Intervals keep tiling ----

  // Closing a tiled history touches its last row only; the new row takes over there.
  lemma Extend(h: seq<TaxRule>, key: Key, row: TaxRule)
    requires Tiled(h) && forall i :: 0 <= i < |h| ==> h[i].key == key && h[i].from < row.from
    requires row.to.None?
    ensures Tiled(CloseAll(h, key, row.from) + [row])
    ensures RatesChange(h) && (h == [] || h[|h|-1].rate != row.rate)
      <==> RatesChange(CloseAll(h, key, row.from) + [row])
  {
    var c := CloseAll(h, key, row.from) + [row];
    assert forall i :: 0 <= i < |h| ==> c[i].rate == h[i].rate;
    if RatesChange(c) {
      forall i | 0 <= i < |h| - 1 ensures h[i].rate != h[i+1].rate { assert c[i].rate != c[i+1].rate; }
      if h != [] { assert c[|h|-1].rate != c[|h|-1+1].rate; }
    }
  }

  lemma Untouched(h: seq<TaxRule>, key: Key, other: Key, now: int)
    requires key != other && forall i :: 0 <= i < |h| ==> h[i].key == key
    ensures CloseAll(h, other, now) == h
  {
  }

  lemma UpsertKeepsTiles(o: Outcome, r: RuleInput, now: int, key: Key)
    requires NotAfter(o.rows, now) && Tiled(History(o.rows, key))
    ensures match UpsertOne(o, r, now) { case None => true case Some(p) =>
      NotAfter(p.rows, now) && Tiled(History(p.rows, key)) }
  {
    if !AlreadyCurrent(o.rows, r) && !Taken(o.rows, r.key, now) { InsertKeepsTiles(o.rows, r, now, key); }
  }

  lemma InsertKeepsTiles(rows: seq<TaxRule>, r: RuleInput, now: int, key: Key)
    requires NotAfter(rows, now) && Tiled(History(rows, key)) && !Taken(rows, r.key, now)
    ensures Tiled(History(CloseAll(rows, r.key, now) + [NewRow(r, now)], key))
  {
    var h := History(rows, key);
    HistoryKeys(rows, key);
    HistoryClose(rows, r.key, now, key);
    HistoryAppend(CloseAll(rows, r.key, now), NewRow(r, now), key);
    if key == r.key {
      forall i | 0 <= i < |h| ensures h[i].from < now { FromBefore(rows, key, now, i); }
      Extend(h, key, NewRow(r, now));
    } else {
      Untouched(h, key, r.key, now);
    }
  }

  lemma {:induction false} BatchKeepsTiles(rows: seq<TaxRule>, rules: seq<RuleInput>, now: int, key: Key)
    requires NotAfter(rows, now) && Tiled(History(rows, key))
    ensures match UpsertAll(rows, rules, now) { case None => true case Some(o) =>
      NotAfter(o.rows, now) && Tiled(History(o.rows, key)) }
  {
    if rules != [] {
      BatchKeepsTiles(rows, rules[..|rules|-1], now, key);
      match UpsertAll(rows, rules[..|rules|-1], now)
      case None =>
      case Some(o) => UpsertKeepsTiles(o, rules[|rules|-1], now, key);
    }
  }

  // A refresh, committed or refused, leaves every key's intervals tiling, whatever it
  // lists and however often it lists a key.
  lemma RefreshKeepsTiles(rows: seq<TaxRule>, rules: seq<RuleInput>, now: int)
    requires NotAfter(rows, now) && TiledTable(rows)
    ensures NotAfter(Refresh(rows, rules, now), now) && TiledTable(Refresh(rows, rules, now))
  {
    forall key: Key ensures Tiled(History(Refresh(rows, rules, now), key)) {
      BatchKeepsTiles(rows, rules, now, key);
      match UpsertAll(rows, rules, now)
      case None =>
      case Some(o) => HistoryCommit(o.rows, key);
    }
    BatchKeepsTiles(rows, rules, now, Key("", "", ""));
  }

  // ---- The past never changes ----

  predicate SameUntil(a: Option<TaxRule>, b: Option<TaxRule>) {
    (a.None? && b.None?) || (a.Some? && b.Some? && b.value == a.value.(to := b.value.to))
  }

  lemma {:induction false} LookupAfterClose(rows: seq<TaxRule>, key: Key, now: int,
                                            j: string, t: string, c: string, at: int)
    requires at < now
    ensures SameUntil(LookupRule(rows, j, t, c, at), LookupRule(CloseAll(rows, key, now), j, t, c, at))
  {
    if rows != [] {
      var n := |rows| - 1;
      LookupAfterClose(rows[..n], key, now, j, t, c, at);
      assert CloseAll(rows, key, now)[..n] == CloseAll(rows[..n], key, now);
    }
  }

  lemma LookupAfterUpsert(o: Outcome, r: RuleInput, now: int, j: string, t: string, c: string, at: int)
    requires at < now && UpsertOne(o, r, now).Some?
    ensures SameUntil(LookupRule(o.rows, j, t, c, at), LookupRule(UpsertOne(o, r, now).value.rows, j, t, c, at))
  {
    LookupAfterClose(o.rows, r.key, now, j, t, c, at);
    var closed := CloseAll(o.rows, r.key, now);
    assert (closed + [NewRow(r, now)])[..|closed|] == closed;
  }

  lemma {:induction false} LookupAfterBatch(rows: seq<TaxRule>, rules: seq<RuleInput>, now: int,
                                            j: string, t: string, c: string, at: int)
    requires at < now && UpsertAll(rows, rules, now).Some?
    ensures SameUntil(LookupRule(rows, j, t, c, at), LookupRule(UpsertAll(rows, rules, now).value.rows, j, t, c, at))
  {
    if rules != [] {
      LookupAfterBatch(rows, rules[..|rules|-1], now, j, t, c, at);
      LookupAfterUpsert(UpsertAll(rows, rules[..|rules|-1], now).value, rules[|rules|-1], now, j, t, c, at);
    }
  }

  lemma {:induction false} LookupAfterCommit(rows: seq<TaxRule>, j: string, t: string, c: string, at: int)
    ensures match LookupRule(rows, j, t, c, at) {
      case None => LookupRule(Commit(rows), j, t, c, at).None?
      case Some(b) => LookupRule(Commit(rows), j, t, c, at) == Some(b.(rate := Stored(b.rate))) }
  {
    if rows != [] {
      var n := |rows| - 1;
      LookupAfterCommit(rows[..n], j, t, c, at);
      assert Commit(rows)[..n] == Commit(rows[..n]);
    }
  }

  lemma {:induction false} LookupMember(rows: seq<TaxRule>, j: string, t: string, c: string, at: int)
    ensures match LookupRule(rows, j, t, c, at) {
      case None => forall row :: row in rows ==> !Applies(row, j, t, c, at)
      case Some(b) => b in rows && Applies(b, j, t, c, at)
                      && forall row :: row in rows && Applies(row, j, t, c, at) ==> !Before(row, b) }
  {
    if rows != [] {
      LookupMember(rows[..|rows|-1], j, t, c, at);
      assert rows == rows[..|rows|-1] + [rows[|rows|-1]];
    }
  }

  // The rate that applied at any instant before a refresh still applies at that instant.
  lemma PastIsImmutable(rows: seq<TaxRule>, rules: seq<RuleInput>, now: int, j: string, t: string, c: string, at: int)
    requires at < now && AllStorable(rows)
    ensures LookupRate(Refresh(rows, rules, now), j, t, c, at) == LookupRate(rows, j, t, c, at)
  {
    LookupMember(rows, j, t, c, at);
    match UpsertAll(rows, rules, now)
    case None =>
    case Some(o) =>
      LookupAfterBatch(rows, rules, now, j, t, c, at);
      LookupAfterCommit(o.rows, j, t, c, at);
  }

  // ---- One rate at a time ----

  // The row of a tiled history in force at t.
  function TileAt(h: seq<TaxRule>, t: int): (i: nat)
    requires Tiled(h) && h != [] && h[0].from <= t
    ensures i < |h| && h[i].from <= t && (h[i].to.Some? ==> h[i].to.value > t)
    decreases |h|
  {
    if |h| == 1 || t < h[1].from then 0 else TileAt(h[1..], t) + 1
  }

  lemma {:induction false} TilesAscend(h: seq<TaxRule>, i: nat, j: nat)
    requires Tiled(h) && i < j < |h|
    ensures h[i].to.Some? && h[i].to.value <= h[j].from
  {
    assert h[i].to == Some(h[i+1].from);
    if i + 1 < j {
      TilesAscend(h, i, j - 1);
      assert h[j-1].from < h[j-1+1].from;
    }
  }

  lemma TilesAscendTo(h: seq<TaxRule>, i: nat, j: nat)
    requires Tiled(h) && i <= j < |h|
    ensures i < j ==> h[i].to.Some? && h[i].to.value <= h[j].from
  {
    if i < j { TilesAscend(h, i, j); }
  }

  lemma OnlyLastOpen(h: seq<TaxRule>, i: nat)
    requires Tiled(h) && i < |h|
    ensures i < |h| - 1 ==> h[i].to.Some?
  {
    if i < |h| - 1 { assert h[i].to == Some(h[i+1].from); }
  }

  // From the first rate of a key on, exactly one row of its history is in force, and
  // that is the row lookup_rate finds: an exact category is never shadowed by "*".
  lemma LookupIsTheTile(rows: seq<TaxRule>, key: Key, t: int)
    requires Tiled(History(rows, key)) && History(rows, key) != [] && History(rows, key)[0].from <= t
    ensures var h := History(rows, key);
      LookupRule(rows, key.jurisdiction, key.taxType, key.category, t) == Some(h[TileAt(h, t)])
  {
    var h := History(rows, key);
    var i := TileAt(h, t);
    HistoryKeys(rows, key);
    LookupMember(rows, key.jurisdiction, key.taxType, key.category, t);
    assert Applies(h[i], key.jurisdiction, key.taxType, key.category, t);
    var b := LookupRule(rows, key.jurisdiction, key.taxType, key.category, t).value;
    HistoryMember(rows, key, b);
    var k :| 0 <= k < |h| && h[k] == b;
    if k < i { TilesAscend(h, k, i); } else if i < k { TilesAscend(h, i, k); }
  }

  // ---- Counting and repeating ----

  function AllOpen(rows: seq<TaxRule>): nat {
    if rows == [] then 0 else AllOpen(rows[..|rows|-1]) + if rows[|rows|-1].to.None? then 1 else 0
  }

  lemma {:induction false} OpenAfterClose(rows: seq<TaxRule>, key: Key, now: int)
    ensures AllOpen(CloseAll(rows, key, now)) + OpenCount(rows, key) == AllOpen(rows)
  {
    if rows != [] {
      var n := |rows| - 1;
      OpenAfterClose(rows[..n], key, now);
      assert CloseAll(rows, key, now)[..n] == CloseAll(rows[..n], key, now);
    }
  }

  lemma {:induction false} OpenAfterCommit(rows: seq<TaxRule>)
    ensures AllOpen(Commit(rows)) == AllOpen(rows)
  {
    if rows != [] {
      var n := |rows| - 1;
      OpenAfterCommit(rows[..n]);
      assert Commit(rows)[..n] == Commit(rows[..n]);
    }
  }

  // The returned counts balance the number of current rows.
  lemma {:induction false} CountsBalance(rows: seq<TaxRule>, rules: seq<RuleInput>, now: int)
    requires UpsertAll(rows, rules, now).Some?
    ensures var o := UpsertAll(rows, rules, now).value;
      AllOpen(Refresh(rows, rules, now)) + o.counts.superseded == AllOpen(rows) + o.counts.inserted
  {
    BatchBalance(rows, rules, now);
    OpenAfterCommit(UpsertAll(rows, rules, now).value.rows);
  }

  lemma {:induction false} BatchBalance(rows: seq<TaxRule>, rules: seq<RuleInput>, now: int)
    requires UpsertAll(rows, rules, now).Some?
    ensures var o := UpsertAll(rows, rules, now).value;
      AllOpen(o.rows) + o.counts.superseded == AllOpen(rows) + o.counts.inserted
  {
    if rules != [] {
      BatchBalance(rows, rules[..|rules|-1], now);
      var o, r := UpsertAll(rows, rules[..|rules|-1], now).value, rules[|rules|-1];
      OpenAfterClose(o.rows, r.key, now);
      var closed := CloseAll(o.rows, r.key, now);
      assert (closed + [NewRow(r, now)])[..|closed|] == closed;
    }
  }

  predicate DistinctKeys(rules: seq<RuleInput>) {
    forall i, j :: 0 <= i < j < |rules| ==> rules[i].key != rules[j].key
  }

  lemma UpsertMakesCurrent(o: Outcome, r: RuleInput, now: int, q: RuleInput)
    requires UpsertOne(o, r, now).Some?
    requires q == r || (q.key != r.key && AlreadyCurrent(o.rows, q))
    ensures AlreadyCurrent(UpsertOne(o, r, now).value.rows, q)
  {
    var p := UpsertOne(o, r, now).value;
    if p != o {
      if q == r {
        assert IsCurrent(p.rows[|o.rows|], q.key);
      } else {
        var i :| 0 <= i < |o.rows| && IsCurrent(o.rows[i], q.key) && o.rows[i].rate == q.rate;
        assert IsCurrent(p.rows[i], q.key) && p.rows[i].rate == q.rate;
      }
    }
  }

  lemma {:induction false} ListedAreCurrent(rows: seq<TaxRule>, rules: seq<RuleInput>, now: int, k: nat)
    requires DistinctKeys(rules) && UpsertAll(rows, rules, now).Some? && k < |rules|
    ensures AlreadyCurrent(UpsertAll(rows, rules, now).value.rows, rules[k])
  {
    var pre, last := rules[..|rules|-1], rules[|rules|-1];
    if k < |pre| { ListedAreCurrent(rows, pre, now, k); }
    UpsertMakesCurrent(UpsertAll(rows, pre, now).value, last, now, rules[k]);
  }

  lemma CommitCurrent(rows: seq<TaxRule>, r: RuleInput)
    requires AlreadyCurrent(rows, r)
    ensures AlreadyCurrent(Commit(rows), r) <==> Storable(r.rate)
    ensures AlreadyCurrent(Commit(rows), r.(rate := Stored(r.rate)))
  {
    var i :| 0 <= i < |rows| && IsCurrent(rows[i], r.key) && rows[i].rate == r.rate;
    var c := Commit(rows);
    assert IsCurrent(c[i], r.key) && c[i].rate == Stored(r.rate);
    if AlreadyCurrent(c, r) {
      var k :| 0 <= k < |c| && IsCurrent(c[k], r.key) && c[k].rate == r.rate;
      StoredTwice(rows[k].rate);
    }
  }

  lemma Scaled(n: int)
    ensures (n as real / 100000.0) * 100000.0 == n as real
    ensures ((n as real / 100000.0) * 100000.0 + 0.5).Floor == n
  {
    var x := n as real / 100000.0;
    assert x * 100000.0 == n as real;
  }

  lemma StoredTwice(rate: real)
    ensures Storable(Stored(rate))
  {
    var n := (rate * 100000.0 + 0.5).Floor;
    Scaled(n);
  }

  // After a refresh the rate in force for every listed key, now and from now on until
  // the next refresh, is the listed one as the column keeps it.
  lemma ListedRateApplies(rows: seq<TaxRule>, rules: seq<RuleInput>, now: int, k: nat, at: int)
    requires NotAfter(rows, now) && TiledTable(rows) && now <= at
    requires DistinctKeys(rules) && UpsertAll(rows, rules, now).Some? && k < |rules|
    ensures var key := rules[k].key;
      LookupRate(Refresh(rows, rules, now), key.jurisdiction, key.taxType, key.category, at)
        == Some(Stored(rules[k].rate))
  {
    var after, key := Refresh(rows, rules, now), rules[k].key;
    RefreshKeepsTiles(rows, rules, now);
    ListedAreCurrent(rows, rules, now, k);
    CommitCurrent(UpsertAll(rows, rules, now).value.rows, rules[k]);
    var i :| 0 <= i < |after| && IsCurrent(after[i], key) && after[i].rate == Stored(rules[k].rate);
    HistoryMember(after, key, after[i]);
    var h := History(after, key);
    var m :| 0 <= m < |h| && h[m] == after[i];
    OnlyLastOpen(h, m);
    HistoryKeys(after, key);
    assert h[0].from <= at by { HistoryMember(after, key, h[0]); }
    LookupIsTheTile(after, key, at);
    var tile := TileAt(h, at);
    TilesAscendTo(h, tile, m);
  }

  // Re-running the same list changes nothing exactly when the column can hold every
  // listed rate. A rate with more than five decimals never equals what was stored,
  // and is superseded again on every run.
  lemma RerunIsNoOp(rows: seq<TaxRule>, rules: seq<RuleInput>, now: int, later: int)
    requires DistinctKeys(rules) && UpsertAll(rows, rules, now).Some?
    ensures var after := Refresh(rows, rules, now);
      UpsertAll(after, rules, later) == Some(Outcome(after, Counts(0, 0)))
      <==> forall k :: 0 <= k < |rules| ==> Storable(rules[k].rate)
  {
    var after := Refresh(rows, rules, now);
    forall k | 0 <= k < |rules| ensures AlreadyCurrent(after, rules[k]) <==> Storable(rules[k].rate) {
      ListedAreCurrent(rows, rules, now, k);
      CommitCurrent(UpsertAll(rows, rules, now).value.rows, rules[k]);
    }
    NoOpIffCurrent(after, rules, later);
  }

  // A rate of six decimals, alone in an empty table, is stored as another and superseded
  // by every re-run.
  lemma SixDecimalsNeverSettle(key: Key, citation: string, now: int, later: int)
    ensures
      var rules := [RuleInput(key, 0.123456, citation)];
      var after := Refresh([], rules, now);
      && UpsertAll([], rules, now).Some?
      && LookupRate(after, key.jurisdiction, key.taxType, key.category, now) == Some(0.12346)
      && UpsertAll(after, rules, later) != Some(Outcome(after, Counts(0, 0)))
  {
    var r := RuleInput(key, 0.123456, citation);
    var rules := [r];
    assert rules[..0] == [];
    assert CloseAll([], key, now) + [NewRow(r, now)] == [NewRow(r, now)];
    assert UpsertAll([], rules[..|rules|-1], now) == Some(Outcome([], Counts(0, 0)));
    assert UpsertAll([], rules, now) == Some(Outcome([NewRow(r, now)], Counts(1, 0)));
    assert Stored(0.123456) == 0.12346 by {
      assert (0.123456 * 100000.0 + 0.5).Floor == 12346;
    }
    RerunIsNoOp([], rules, now, later);
    assert !Storable(rules[0].rate);
    var row := NewRow(r, now).(rate := 0.12346);
    assert Refresh([], rules, now) == [row];
    assert [row][..|[row]|-1] == [];
    assert Applies(row, key.jurisdiction, key.taxType, key.category, now);
    assert LookupRule([row], key.jurisdiction, key.taxType, key.category, now) == Some(row);
  }

  lemma {:induction false} NoOpIffCurrent(rows: seq<TaxRule>, rules: seq<RuleInput>, now: int)
    ensures UpsertAll(rows, rules, now) == Some(Outcome(rows, Counts(0, 0)))
      <==> forall k :: 0 <= k < |rules| ==> AlreadyCurrent(rows, rules[k])
  {
    if rules != [] {
      var pre := rules[..|rules|-1];
      NoOpIffCurrent(rows, pre, now);
      InsertedGrows(rows, pre, now);
      assert forall k :: 0 <= k < |pre| ==> pre[k] == rules[k];
      if forall k :: 0 <= k < |rules| ==> AlreadyCurrent(rows, rules[k]) {
        forall k | 0 <= k < |pre| ensures AlreadyCurrent(rows, pre[k]) { assert AlreadyCurrent(rows, rules[k]); }
      }
    }
  }

  lemma {:induction false} InsertedGrows(rows: seq<TaxRule>, rules: seq<RuleInput>, now: int)
    ensures match UpsertAll(rows, rules, now) { case None => true case Some(o) =>
      o.counts.inserted == 0 ==> o == Outcome(rows, Counts(0, 0)) }
  {
    if rules != [] { InsertedGrows(rows, rules[..|rules|-1], now); }
  }

  // A change of rate is a change in the table exactly when the column tells the two
  // rates apart: 0.123456 after 0.12346 opens a second interval with the same rate.
  lemma AdjacentRatesDiffer(rows: seq<TaxRule>, r: RuleInput, now: int)
    requires NotAfter(rows, now) && AllStorable(rows) && (AlreadyCurrent(rows, r) || !Taken(rows, r.key, now))
    requires Tiled(History(rows, r.key)) && RatesChange(History(rows, r.key))
    ensures var h := History(rows, r.key);
      RatesChange(History(Refresh(rows, [r], now), r.key))
      <==> AlreadyCurrent(rows, r) || h == [] || h[|h|-1].rate != Stored(r.rate)
  {
    if AlreadyCurrent(rows, r) { UnchangedHistory(rows, r, now); } else { NewRateDiffers(rows, r, now); }
  }

  lemma NewRateDiffers(rows: seq<TaxRule>, r: RuleInput, now: int)
    requires NotAfter(rows, now) && AllStorable(rows) && !AlreadyCurrent(rows, r) && !Taken(rows, r.key, now)
    requires Tiled(History(rows, r.key)) && RatesChange(History(rows, r.key))
    ensures var h := History(rows, r.key);
      RatesChange(History(Refresh(rows, [r], now), r.key)) <==> h == [] || h[|h|-1].rate != Stored(r.rate)
  {
    var h := History(rows, r.key);
    ExtendedHistory(rows, r, now);
    HistoryKeys(rows, r.key);
    forall i | 0 <= i < |h| ensures h[i].from < now { FromBefore(rows, r.key, now, i); }
    Extend(h, r.key, NewRow(r, now).(rate := Stored(r.rate)));
  }

  lemma FromBefore(rows: seq<TaxRule>, key: Key, now: int, i: nat)
    requires NotAfter(rows, now) && !Taken(rows, key, now) && i < |History(rows, key)|
    ensures History(rows, key)[i].from < now
  {
    HistoryKeys(rows, key);
    var k :| 0 <= k < |rows| && rows[k] == History(rows, key)[i];
  }

  lemma StorableHistory(rows: seq<TaxRule>, key: Key)
    requires AllStorable(rows)
    ensures Commit(History(rows, key)) == History(rows, key)
  {
    HistoryKeys(rows, key);
    var h := History(rows, key);
    forall i | 0 <= i < |h| ensures Stored(h[i].rate) == h[i].rate {
      var k :| 0 <= k < |rows| && rows[k] == h[i];
    }
  }

  lemma UnchangedHistory(rows: seq<TaxRule>, r: RuleInput, now: int)
    requires AllStorable(rows) && AlreadyCurrent(rows, r)
    ensures History(Refresh(rows, [r], now), r.key) == History(rows, r.key)
  {
    assert [r][..0] == [] && UpsertAll(rows, [], now) == Some(Outcome(rows, Counts(0, 0)));
    HistoryCommit(rows, r.key);
    StorableHistory(rows, r.key);
  }

  lemma ExtendedHistory(rows: seq<TaxRule>, r: RuleInput, now: int)
    requires AllStorable(rows) && !AlreadyCurrent(rows, r) && !Taken(rows, r.key, now)
    ensures History(Refresh(rows, [r], now), r.key)
         == CloseAll(History(rows, r.key), r.key, now) + [NewRow(r, now).(rate := Stored(r.rate))]
  {
    assert [r][..0] == [] && UpsertAll(rows, [], now) == Some(Outcome(rows, Counts(0, 0)));
    var closed, h := CloseAll(rows, r.key, now), History(rows, r.key);
    HistoryCommit(closed + [NewRow(r, now)], r.key);
    HistoryAppend(closed, NewRow(r, now), r.key);
    HistoryClose(rows, r.key, now, r.key);
    StorableHistory(rows, r.key);
    forall i | 0 <= i < |h| ensures CloseAll(h, r.key, now)[i].rate == Stored(h[i].rate) {
      assert Commit(h)[i] == h[i];
    }
    assert Commit(CloseAll(h, r.key, now) + [NewRow(r, now)])
        == CloseAll(h, r.key, now) + [NewRow(r, now).(rate := Stored(r.rate))];
  }

  lemma UpsertKeepsRates(o: Outcome, r: RuleInput, now: int, key: Key)
    requires NotAfter(o.rows, now) && Tiled(History(o.rows, key)) && RatesChange(History(o.rows, key))
    ensures match UpsertOne(o, r, now) { case None => true case Some(p) => RatesChange(History(p.rows, key)) }
  {
    var h := History(o.rows, key);
    HistoryKeys(o.rows, key);
    HistoryClose(o.rows, r.key, now, key);
    HistoryAppend(CloseAll(o.rows, r.key, now), NewRow(r, now), key);
    if !AlreadyCurrent(o.rows, r) && !Taken(o.rows, r.key, now) {
      if key == r.key {
        forall i | 0 <= i < |h| ensures h[i].from < now { FromBefore(o.rows, key, now, i); }
        if h != [] { HistoryMember(o.rows, key, h[|h|-1]); }
        Extend(h, key, NewRow(r, now));
      } else {
        Untouched(h, key, r.key, now);
      }
    }
  }

  lemma UpsertKeepsStorable(o: Outcome, r: RuleInput, now: int)
    requires AllStorable(o.rows) && Storable(r.rate)
    ensures match UpsertOne(o, r, now) { case None => true case Some(p) => AllStorable(p.rows) }
  {
  }

  lemma {:induction false} BatchKeepsStorable(rows: seq<TaxRule>, rules: seq<RuleInput>, now: int)
    requires AllStorable(rows) && forall r :: r in rules ==> Storable(r.rate)
    ensures match UpsertAll(rows, rules, now) { case None => true case Some(o) => AllStorable(o.rows) }
  {
    if rules != [] {
      BatchKeepsStorable(rows, rules[..|rules|-1], now);
      match UpsertAll(rows, rules[..|rules|-1], now)
      case None =>
      case Some(o) => UpsertKeepsStorable(o, rules[|rules|-1], now);
    }
  }

  lemma {:induction false} BatchKeepsRates(rows: seq<TaxRule>, rules: seq<RuleInput>, now: int, key: Key)
    requires NotAfter(rows, now) && Tiled(History(rows, key)) && RatesChange(History(rows, key))
    ensures match UpsertAll(rows, rules, now) { case None => true case Some(o) => RatesChange(History(o.rows, key)) }
  {
    if rules != [] {
      BatchKeepsRates(rows, rules[..|rules|-1], now, key);
      BatchKeepsTiles(rows, rules[..|rules|-1], now, key);
      match UpsertAll(rows, rules[..|rules|-1], now)
      case None =>
      case Some(o) => UpsertKeepsRates(o, rules[|rules|-1], now, key);
    }
  }

  // With rates the column can hold, no two adjacent intervals of a key ever carry the
  // same rate.
  lemma RefreshKeepsRatesChanging(rows: seq<TaxRule>, rules: seq<RuleInput>, now: int, key: Key)
    requires NotAfter(rows, now) && Tiled(History(rows, key)) && RatesChange(History(rows, key)) && AllStorable(rows)
    requires forall r :: r in rules ==> Storable(r.rate)
    ensures RatesChange(History(Refresh(rows, rules, now), key))
  {
    BatchKeepsRates(rows, rules, now, key);
    BatchKeepsStorable(rows, rules, now);
    match UpsertAll(rows, rules, now)
    case None =>
    case Some(o) =>
      HistoryCommit(o.rows, key);
      StorableHistory(o.rows, key);
  }

  // ---- Runs of refreshes ----

  datatype Batch = Batch(rules: seq<RuleInput>, now: int)

  function Refreshes(rows: seq<TaxRule>, bs: seq<Batch>): seq<TaxRule> {
    if bs == [] then rows else Refresh(Refreshes(rows, bs[..|bs|-1]), bs[|bs|-1].rules, bs[|bs|-1].now)
  }

  // The clock never goes back, and starts no earlier than the newest row.
  predicate Clock(rows: seq<TaxRule>, bs: seq<Batch>) {
    && (forall i :: 0 <= i < |bs| ==> NotAfter(rows, bs[i].now))
    && (forall i, j :: 0 <= i < j < |bs| ==> bs[i].now <= bs[j].now)
  }

  lemma RefreshStorable(rows: seq<TaxRule>, rules: seq<RuleInput>, now: int)
    requires AllStorable(rows)
    ensures AllStorable(Refresh(rows, rules, now))
  {
    match UpsertAll(rows, rules, now)
    case None =>
    case Some(o) =>
      forall i | 0 <= i < |o.rows| ensures Storable(Commit(o.rows)[i].rate) { StoredTwice(o.rows[i].rate); }
  }

  // Over any run of refreshes every key's intervals stay tiled, and the rate at any
  // instant before the run started is what it was.
  lemma {:induction false} RunsKeepHistory(rows: seq<TaxRule>, bs: seq<Batch>, j: string, t: string, c: string, at: int)
    requires Clock(rows, bs) && TiledTable(rows) && AllStorable(rows)
    requires forall i :: 0 <= i < |bs| ==> at < bs[i].now
    ensures TiledTable(Refreshes(rows, bs)) && AllStorable(Refreshes(rows, bs))
    ensures LookupRate(Refreshes(rows, bs), j, t, c, at) == LookupRate(rows, j, t, c, at)
    ensures bs != [] ==> NotAfter(Refreshes(rows, bs), bs[|bs|-1].now)
  {
    if bs != [] {
      var pre, last := bs[..|bs|-1], bs[|bs|-1];
      RunsKeepHistory(rows, pre, j, t, c, at);
      var mid := Refreshes(rows, pre);
      assert NotAfter(mid, last.now) by {
        if pre != [] { assert pre[|pre|-1] == bs[|bs|-2]; } else { assert NotAfter(rows, bs[0].now); }
      }
      RefreshKeepsTiles(mid, last.rules, last.now);
      RefreshStorable(mid, last.rules, last.now);
      PastIsImmutable(mid, last.rules, last.now, j, t, c, at);
    }
  }
}
