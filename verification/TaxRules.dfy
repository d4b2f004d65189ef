// Effective-dated tax rates: rows are appended and closed, never rewritten, so an
// old invoice can be audited against the rate that was live when it was issued.
module TaxRules {
  import opened Options

  datatype Key = Key(jurisdiction: string, taxType: string, category: string)
  // Valid from `from` (inclusive) until `to` (exclusive); no `to` means current.
  datatype TaxRule = TaxRule(key: Key, rate: real, citation: string, from: int, to: Option<int>)
  datatype RuleInput = RuleInput(key: Key, rate: real, citation: string)

  // The rate column is Numeric(8, 5): five decimals, halves rounded up (rates are
  // never negative).
  function Stored(rate: real): real {
    (rate * 100000.0 + 0.5).Floor as real / 100000.0
  }

  predicate Storable(rate: real) { Stored(rate) == rate }

  predicate IsCurrent(row: TaxRule, key: Key) { row.key == key && row.to.None? }

  function CloseRow(row: TaxRule, key: Key, now: int): TaxRule {
    if IsCurrent(row, key) then row.(to := Some(now)) else row
  }

  function CloseAll(rows: seq<TaxRule>, key: Key, now: int): (r: seq<TaxRule>)
    ensures |r| == |rows| && forall i :: 0 <= i < |r| ==> r[i] == CloseRow(rows[i], key, now)
  {
    seq(|rows|, i requires 0 <= i < |rows| => CloseRow(rows[i], key, now))
  }

  function OpenCount(rows: seq<TaxRule>, key: Key): nat {
    if rows == [] then 0
    else OpenCount(rows[..|rows|-1], key) + if IsCurrent(rows[|rows|-1], key) then 1 else 0
  }

  predicate AlreadyCurrent(rows: seq<TaxRule>, r: RuleInput) {
    exists i :: 0 <= i < |rows| && IsCurrent(rows[i], r.key) && rows[i].rate == r.rate
  }

  // The unique constraint on (jurisdiction, tax_type, category, effective_from).
  predicate Taken(rows: seq<TaxRule>, key: Key, from: int) {
    exists i :: 0 <= i < |rows| && rows[i].key == key && rows[i].from == from
  }

  datatype Counts = Counts(inserted: nat, superseded: nat)
  datatype Outcome = Outcome(rows: seq<TaxRule>, counts: Counts)

  function NewRow(r: RuleInput, now: int): TaxRule { TaxRule(r.key, r.rate, r.citation, now, None) }

  // _upsert_one_rule; None stands for the IntegrityError of a duplicate row.
  function UpsertOne(o: Outcome, r: RuleInput, now: int): Option<Outcome> {
    if AlreadyCurrent(o.rows, r) then Some(o)
    else if Taken(o.rows, r.key, now) then None
    else Some(Outcome(CloseAll(o.rows, r.key, now) + [NewRow(r, now)],
                      Counts(o.counts.inserted + 1, o.counts.superseded + OpenCount(o.rows, r.key))))
  }

  // upsert_rules within one session. Rows added by this session still carry the
  // rate as given: the column rounds it only for later sessions (see Commit).
  function UpsertAll(rows: seq<TaxRule>, rules: seq<RuleInput>, now: int): Option<Outcome> {
    if rules == [] then Some(Outcome(rows, Counts(0, 0)))
    else match UpsertAll(rows, rules[..|rules|-1], now)
      case None => None
      case Some(o) => UpsertOne(o, rules[|rules|-1], now)
  }

  function Commit(rows: seq<TaxRule>): (r: seq<TaxRule>)
    ensures |r| == |rows| && forall i :: 0 <= i < |r| ==> r[i] == rows[i].(rate := Stored(rows[i].rate))
  {
    seq(|rows|, i requires 0 <= i < |rows| => rows[i].(rate := Stored(rows[i].rate)))
  }

  // One refresh of the table: committed as a whole, or rolled back as a whole.
  function Refresh(rows: seq<TaxRule>, rules: seq<RuleInput>, now: int): seq<TaxRule> {
    match UpsertAll(rows, rules, now)
    case None => rows
    case Some(o) => Commit(o.rows)
  }

  // ---- Looking a rate up ----

  predicate Applies(row: TaxRule, jurisdiction: string, taxType: string, category: string, at: int) {
    && row.key.jurisdiction == jurisdiction && row.key.taxType == taxType
    && (row.key.category == category || row.key.category == "*")
    && row.from <= at && (row.to.Some? ==> row.to.value > at)
  }

  // An exact category before the "*" catch-all, then the most recent.
  predicate Before(a: TaxRule, b: TaxRule) {
    if (a.key.category == "*") != (b.key.category == "*") then b.key.category == "*" else a.from > b.from
  }

  // lookup_rate: the first applicable row in that order.
  function LookupRule(rows: seq<TaxRule>, jurisdiction: string, taxType: string, category: string, at: int)
    : Option<TaxRule>
  {
    if rows == [] then None
    else
      var last := rows[|rows|-1];
      match LookupRule(rows[..|rows|-1], jurisdiction, taxType, category, at)
      case None => if Applies(last, jurisdiction, taxType, category, at) then Some(last) else None
      case Some(best) =>
        if Applies(last, jurisdiction, taxType, category, at) && Before(last, best) then Some(last) else Some(best)
  }

  function LookupRate(rows: seq<TaxRule>, jurisdiction: string, taxType: string, category: string, at: int)
    : Option<real>
  {
    match LookupRule(rows, jurisdiction, taxType, category, at)
    case None => None
    case Some(row) => Some(row.rate)
  }

  // ---- The table, updated in place ----

  datatype AddResult = Added(row: TaxRule) | NotGovernment | InternalError | DuplicateRow

  class TaxRuleTable {
    var rows: seq<TaxRule>

    constructor ()
      ensures rows == []
    {
      rows := [];
    }

    // The current rows of r's key: is its rate already among them, is its slot in
    // time taken, and how many are there.
    method Scan(r: RuleInput, now: int) returns (already: bool, taken: bool, open: nat)
      ensures already == AlreadyCurrent(rows, r)
      ensures taken == Taken(rows, r.key, now)
      ensures open == OpenCount(rows, r.key)
    {
      already, taken, open := false, false, 0;
      for i := 0 to |rows|
        invariant already == exists j :: 0 <= j < i && IsCurrent(rows[j], r.key) && rows[j].rate == r.rate
        invariant taken == exists j :: 0 <= j < i && rows[j].key == r.key && rows[j].from == now
        invariant open == OpenCount(rows[..i], r.key)
      {
        assert rows[..i+1][..i] == rows[..i];
        already := already || (IsCurrent(rows[i], r.key) && rows[i].rate == r.rate);
        taken := taken || (rows[i].key == r.key && rows[i].from == now);
        if IsCurrent(rows[i], r.key) { open := open + 1; }
      }
      assert rows[..|rows|] == rows;
    }

    method CloseCurrent(key: Key, now: int)
      modifies this
      ensures rows == CloseAll(old(rows), key, now)
    {
      ghost var was := rows;
      for i := 0 to |rows|
        invariant |rows| == |was|
        invariant forall j :: 0 <= j < i ==> rows[j] == CloseRow(was[j], key, now)
        invariant forall j :: i <= j < |rows| ==> rows[j] == was[j]
      {
        if IsCurrent(rows[i], key) { rows := rows[i := rows[i].(to := Some(now))]; }
      }
    }

    method UpsertOneRule(r: RuleInput, now: int) returns (row: Option<TaxRule>, closed: nat, duplicate: bool)
      modifies this
      ensures duplicate == (!AlreadyCurrent(old(rows), r) && Taken(old(rows), r.key, now))
      ensures row.Some? == (!AlreadyCurrent(old(rows), r) && !duplicate)
      ensures row.Some? ==> row.value == NewRow(r, now) && closed == OpenCount(old(rows), r.key)
      ensures rows == if row.Some? then CloseAll(old(rows), r.key, now) + [NewRow(r, now)] else old(rows)
    {
      var already, taken, open := Scan(r, now);
      if already { return None, 0, false; }
      if taken { return None, 0, true; }
      CloseCurrent(r.key, now);
      rows := rows + [NewRow(r, now)];
      return Some(NewRow(r, now)), open, false;
    }

    // Some(counts) when the batch commits; None when it is rolled back.
    method UpsertRules(rules: seq<RuleInput>, now: int) returns (result: Option<Counts>)
      modifies this
      ensures rows == Refresh(old(rows), rules, now)
      ensures result == match UpsertAll(old(rows), rules, now) { case None => None case Some(o) => Some(o.counts) }
    {
      var was := rows;
      var inserted, superseded := 0, 0;
      for i := 0 to |rules|
        invariant UpsertAll(was, rules[..i], now) == Some(Outcome(rows, Counts(inserted, superseded)))
      {
        assert rules[..i+1][..i] == rules[..i];
        var row, closed, duplicate := UpsertOneRule(rules[i], now);
        if duplicate {
          rows := was;
          Doomed(was, rules, now, i + 1);
          return None;
        }
        if row.Some? {
          inserted := inserted + 1;
          superseded := superseded + closed;
        }
      }
      assert rules[..|rules|] == rules;
      rows := Commit(rows);
      return Some(Counts(inserted, superseded));
    }

    // add_tax_rule for one admin-entered rule; `government` is the verdict on its citation.
    method AddTaxRule(r: RuleInput, government: bool, now: int) returns (result: AddResult)
      modifies this
      ensures !result.InternalError?
      ensures result.NotGovernment? <==> !government
      ensures rows == if government then Refresh(old(rows), [r], now) else old(rows)
      ensures result.DuplicateRow? <==> government && !AlreadyCurrent(old(rows), r) && Taken(old(rows), r.key, now)
      ensures result.Added? && !AlreadyCurrent(old(rows), r) ==>
        result.row == TaxRule(r.key, r.rate, r.citation, now, None)
      ensures result.Added? && (forall key :: OpenCount(old(rows), key) <= 1) ==>
        result.row.key == r.key && result.row.rate == r.rate && result.row.to.None?
    {
      if !government { return NotGovernment; }
      var was := rows;
      assert [r][..0] == [] && UpsertAll(rows, [], now) == Some(Outcome(rows, Counts(0, 0)));
      var row, closed, duplicate := UpsertOneRule(r, now);
      if duplicate { return DuplicateRow; }
      if row.None? {
        var i := 0;
        while i < |rows| && !IsCurrent(rows[i], r.key)
          invariant i <= |rows|
          invariant forall j :: 0 <= j < i ==> !IsCurrent(rows[j], r.key)
        {
          i := i + 1;
        }
        if i == |rows| { return InternalError; }
        ghost var k :| 0 <= k < |was| && IsCurrent(was[k], r.key) && was[k].rate == r.rate;
        if k != i { TwoOpen(was, r.key, if i < k then i else k, if i < k then k else i); }
        row := Some(rows[i]);
      }
      rows := Commit(rows);
      return Added(row.value);
    }
  }

  // A batch that fails on a prefix fails.
  lemma {:induction false} Doomed(rows: seq<TaxRule>, rules: seq<RuleInput>, now: int, i: nat)
    requires i <= |rules| && UpsertAll(rows, rules[..i], now).None?
    ensures UpsertAll(rows, rules, now).None?
    decreases |rules| - i
  {
    if i == |rules| {
      assert rules[..i] == rules;
    } else {
      assert rules[..i+1][..i] == rules[..i];
      Doomed(rows, rules, now, i + 1);
    }
  }

  lemma {:induction false} TwoOpen(rows: seq<TaxRule>, key: Key, i: nat, j: nat)
    requires i < j < |rows| && IsCurrent(rows[i], key) && IsCurrent(rows[j], key)
    ensures OpenCount(rows, key) >= 2
  {
    var pre := rows[..|rows|-1];
    if j < |pre| { TwoOpen(pre, key, i, j); } else { OneOpen(pre, key, i); }
  }

  lemma {:induction false} OneOpen(rows: seq<TaxRule>, key: Key, i: nat)
    requires i < |rows| && IsCurrent(rows[i], key)
    ensures OpenCount(rows, key) >= 1
  {
    var pre := rows[..|rows|-1];
    if i < |pre| { OneOpen(pre, key, i); }
  }
}
