// What looking a rate up means, and what a refresh writes, in terms of the rows themselves.
module TaxLookup {
  import opened Options
  import opened TaxRules
  import opened TaxHistory

  predicate InForce(row: TaxRule, at: int) { row.from <= at && (row.to.Some? ==> at < row.to.value) }

  predicate NoneInForce(h: seq<TaxRule>, at: int) { forall i :: 0 <= i < |h| ==> !InForce(h[i], at) }

  lemma OneInForce(h: seq<TaxRule>, at: int, i: nat, j: nat)
    requires Tiled(h) && i < |h| && j < |h| && InForce(h[i], at) && InForce(h[j], at)
    ensures i == j
  {
    if i < j { TilesAscendTo(h, i, j); } else { TilesAscendTo(h, j, i); }
  }

  lemma InHistory(rows: seq<TaxRule>, row: TaxRule) returns (i: nat)
    requires row in rows
    ensures i < |History(rows, row.key)| && History(rows, row.key)[i] == row
  {
    HistoryMember(rows, row.key, row);
    var k :| 0 <= k < |History(rows, row.key)| && History(rows, row.key)[k] == row;
    i := k;
  }

  lemma OwnRate(rows: seq<TaxRule>, j: string, t: string, c: string, at: int, i: nat)
    requires Tiled(History(rows, Key(j, t, c))) && i < |History(rows, Key(j, t, c))|
    requires InForce(History(rows, Key(j, t, c))[i], at)
    ensures LookupRate(rows, j, t, c, at) == Some(History(rows, Key(j, t, c))[i].rate)
  {
    var own := History(rows, Key(j, t, c));
    HistoryKeys(rows, Key(j, t, c));
    LookupMember(rows, j, t, c, at);
    assert own[i] in rows && Applies(own[i], j, t, c, at);
    var b := LookupRule(rows, j, t, c, at).value;
    var k := InHistory(rows, b);
    assert b.key == Key(j, t, c);
    OneInForce(own, at, i, k);
  }

  lemma AnyRate(rows: seq<TaxRule>, j: string, t: string, c: string, at: int, i: nat)
    requires Tiled(History(rows, Key(j, t, "*"))) && i < |History(rows, Key(j, t, "*"))|
    requires NoneInForce(History(rows, Key(j, t, c)), at) && InForce(History(rows, Key(j, t, "*"))[i], at)
    ensures LookupRate(rows, j, t, c, at) == Some(History(rows, Key(j, t, "*"))[i].rate)
  {
    var any := History(rows, Key(j, t, "*"));
    HistoryKeys(rows, Key(j, t, "*"));
    LookupMember(rows, j, t, c, at);
    assert any[i] in rows && Applies(any[i], j, t, c, at);
    var b := LookupRule(rows, j, t, c, at).value;
    var k := InHistory(rows, b);
    assert b.key == Key(j, t, "*");
    OneInForce(any, at, i, k);
  }

  lemma NoRate(rows: seq<TaxRule>, j: string, t: string, c: string, at: int)
    requires NoneInForce(History(rows, Key(j, t, c)), at) && NoneInForce(History(rows, Key(j, t, "*")), at)
    ensures LookupRate(rows, j, t, c, at) == None
  {
    LookupMember(rows, j, t, c, at);
    if LookupRule(rows, j, t, c, at).Some? {
      var b := LookupRule(rows, j, t, c, at).value;
      var k := InHistory(rows, b);
      assert InForce(History(rows, b.key)[k], at);
    }
  }

  // The rate of a category at an instant is that of its own row in force; where it has none,
  // that of the row of the catch-all "*" in force; and where there is neither, there is none.
  lemma CategoryBeforeCatchAll(rows: seq<TaxRule>, j: string, t: string, c: string, at: int)
    requires Tiled(History(rows, Key(j, t, c))) && Tiled(History(rows, Key(j, t, "*")))
    ensures
      var own, any, rate := History(rows, Key(j, t, c)), History(rows, Key(j, t, "*")), LookupRate(rows, j, t, c, at);
      && (forall i :: 0 <= i < |own| && InForce(own[i], at) ==> rate == Some(own[i].rate))
      && (forall i :: 0 <= i < |any| && InForce(any[i], at) && NoneInForce(own, at) ==> rate == Some(any[i].rate))
      && (NoneInForce(own, at) && NoneInForce(any, at) ==> rate == None)
  {
    var own, any := History(rows, Key(j, t, c)), History(rows, Key(j, t, "*"));
    forall i | 0 <= i < |own| && InForce(own[i], at)
      ensures LookupRate(rows, j, t, c, at) == Some(own[i].rate)
    {
      OwnRate(rows, j, t, c, at, i);
    }
    forall i | 0 <= i < |any| && InForce(any[i], at) && NoneInForce(own, at)
      ensures LookupRate(rows, j, t, c, at) == Some(any[i].rate)
    {
      AnyRate(rows, j, t, c, at, i);
    }
    if NoneInForce(own, at) && NoneInForce(any, at) { NoRate(rows, j, t, c, at); }
  }

  // ---- What a refresh writes ----

  // The stored rate is the nearest with five decimals, the upper one at a half.
  lemma StoredIsNearest(rate: real) returns (n: int)
    ensures Stored(rate) == n as real / 100000.0
    ensures -0.000005 < Stored(rate) - rate <= 0.000005
  {
    n := (rate * 100000.0 + 0.5).Floor;
  }

  predicate FromList(row: TaxRule, rules: seq<RuleInput>, now: int) {
    && row.from == now
    && exists k :: 0 <= k < |rules| && rules[k].key == row.key && rules[k].rate == row.rate
                   && rules[k].citation == row.citation
  }

  // A batch that goes through leaves the old rows where they were, closing some at its
  // instant, and puts behind them as many rows as it reports, each one of the list.
  lemma {:induction false} BatchWrites(rows: seq<TaxRule>, rules: seq<RuleInput>, now: int)
    requires UpsertAll(rows, rules, now).Some?
    ensures
      var o := UpsertAll(rows, rules, now).value;
      && |o.rows| == |rows| + o.counts.inserted
      && (forall i :: 0 <= i < |rows| ==>
            o.rows[i] == rows[i] || (rows[i].to.None? && o.rows[i] == rows[i].(to := Some(now))))
      && (forall i :: |rows| <= i < |o.rows| ==> FromList(o.rows[i].(to := None), rules, now))
  {
    if rules != [] {
      var front, last := rules[..|rules|-1], rules[|rules|-1];
      BatchWrites(rows, front, now);
      var o, p := UpsertAll(rows, front, now).value, UpsertAll(rows, rules, now).value;
      forall i | |rows| <= i < |o.rows|
        ensures FromList(o.rows[i].(to := None), rules, now)
      {
        StillFromList(o.rows[i].(to := None), front, last, now);
        assert front + [last] == rules;
      }
      if p != o {
        assert rules[|rules|-1] == last;
        assert FromList(NewRow(last, now), rules, now);
        forall i | |rows| <= i < |p.rows|
          ensures FromList(p.rows[i].(to := None), rules, now)
        {
          if i < |o.rows| { assert p.rows[i].(to := None) == o.rows[i].(to := None); }
        }
      }
    }
  }

  lemma StillFromList(row: TaxRule, front: seq<RuleInput>, last: RuleInput, now: int)
    requires FromList(row, front, now)
    ensures FromList(row, front + [last], now)
  {
    var k :| 0 <= k < |front| && front[k].key == row.key && front[k].rate == row.rate
             && front[k].citation == row.citation;
    assert (front + [last])[k] == front[k];
  }
}
