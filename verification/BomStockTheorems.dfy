// What any sequence of calls keeps of the mock inventory.
module BomStockTheorems {
  import opened Options
  import opened BomStock

  // ---- One line per item ----

  predicate Distinct(ls: seq<Line>) {
    forall i, j :: 0 <= i < j < |ls| ==> ls[i].item != ls[j].item
  }

  predicate OneLineEach(s: Stock) { forall bom :: bom in s.lines ==> Distinct(s.lines[bom]) }

  lemma {:induction false} WithoutIsDistinct(ls: seq<Line>, item: nat)
    requires Distinct(ls)
    ensures Distinct(Without(ls, item)) && forall l :: l in Without(ls, item) <==> l in ls && l.item != item
  {
    if ls != [] {
      var front, last := ls[..|ls|-1], ls[|ls|-1];
      WithoutIsDistinct(front, item);
      assert ls == front + [last];
      assert forall l :: l in Without(front, item) ==> l.item != last.item;
    }
  }

  lemma {:induction false} TakenKeepsLines(s: Stock, ls: seq<Line>, build: int)
    requires forall i :: 0 <= i < |ls| ==> ls[i].item in s.quantity
    ensures var r := Taken(s, ls, build);
      && r.lines == s.lines && r.boms == s.boms && r.nextId == s.nextId
      && r.listed == s.listed && r.changes == s.changes
  {
    if ls != [] {
      TakenKeepsLines(s, ls[..|ls|-1], build);
    }
  }

  lemma ConsumedIsTaken(s: Stock, bom: nat, build: int)
    requires Handle(s, Consume(bom, build)).1.Ok?
    ensures forall i :: 0 <= i < |Lines(s, bom)| ==> Enough(s, Lines(s, bom)[i], build)
    ensures Handle(s, Consume(bom, build)).0 == Taken(s, Lines(s, bom), build)
  {
  }

  lemma CallKeepsOneLineEach(s: Stock, c: Call)
    requires OneLineEach(s)
    ensures OneLineEach(Handle(s, c).0)
  {
    match c
    case RemoveLine(bom, item) =>
      if bom in s.lines {
        WithoutIsDistinct(s.lines[bom], item);
      }
    case Consume(bom, build) =>
      if Handle(s, c).1.Ok? {
        ConsumedIsTaken(s, bom, build);
        TakenKeepsLines(s, Lines(s, bom), build);
      }
    case _ =>
  }

  // Adding refuses a second line for an item, and nothing else can make one.
  lemma {:induction false} RunKeepsOneLineEach(s: Stock, cs: seq<Call>)
    requires OneLineEach(s)
    ensures OneLineEach(Run(s, cs))
  {
    if cs != [] {
      RunKeepsOneLineEach(s, cs[..|cs|-1]);
      CallKeepsOneLineEach(Run(s, cs[..|cs|-1]), cs[|cs|-1]);
    }
  }

  // ---- Consuming a bill ----

  // What a list of lines takes of an item.
  function NeedOf(ls: seq<Line>, item: nat, build: int): int {
    if ls == [] then 0
    else NeedOf(ls[..|ls|-1], item, build) + if ls[|ls|-1].item == item then Need(ls[|ls|-1], build) else 0
  }

  // Lines with repeated items included.
  lemma {:induction false} TakenTakesNeeds(s: Stock, ls: seq<Line>, build: int, item: nat)
    requires forall i :: 0 <= i < |ls| ==> ls[i].item in s.quantity
    requires item in s.quantity
    ensures Taken(s, ls, build).quantity[item] == s.quantity[item] - NeedOf(ls, item, build)
  {
    if ls != [] {
      TakenTakesNeeds(s, ls[..|ls|-1], build, item);
    }
  }

  lemma {:induction false} NoLineNoNeed(ls: seq<Line>, item: nat, build: int)
    requires forall i :: 0 <= i < |ls| ==> ls[i].item != item
    ensures NeedOf(ls, item, build) == 0
  {
    if ls != [] {
      NoLineNoNeed(ls[..|ls|-1], item, build);
    }
  }

  lemma {:induction false} OneLineOneNeed(ls: seq<Line>, k: nat, build: int)
    requires Distinct(ls) && k < |ls|
    ensures NeedOf(ls, ls[k].item, build) == Need(ls[k], build)
  {
    var n := |ls| - 1;
    if k < n {
      OneLineOneNeed(ls[..n], k, build);
    } else {
      NoLineNoNeed(ls[..n], ls[k].item, build);
    }
  }

  lemma MovedHistory(s: Stock, item: nat, delta: int, other: nat)
    requires item in s.quantity
    ensures History(Moved(s, item, delta), other) ==
      if other == item
      then [Adjustment(delta, s.quantity[item], s.quantity[item] + delta)] + History(s, item)
      else History(s, other)
  {
  }

  lemma {:induction false} UntouchedHistory(s: Stock, ls: seq<Line>, build: int, item: nat)
    requires forall i :: 0 <= i < |ls| ==> ls[i].item in s.quantity && ls[i].item != item
    ensures History(Taken(s, ls, build), item) == History(s, item)
  {
    if ls != [] {
      var front, last := ls[..|ls|-1], ls[|ls|-1];
      UntouchedHistory(s, front, build, item);
      MovedHistory(Taken(s, front, build), last.item, -Need(last, build), item);
    }
  }

  // One new record of what a line takes, on top of the old ones.
  predicate Recorded(s: Stock, line: Line, build: int, after: Stock) {
    line.item in s.quantity &&
    var before, need := s.quantity[line.item], Need(line, build);
    History(after, line.item) == [Adjustment(-need, before, before - need)] + History(s, line.item)
  }

  lemma LastLineRecords(s: Stock, front: seq<Line>, last: Line, build: int)
    requires forall i :: 0 <= i < |front| ==> front[i].item in s.quantity && front[i].item != last.item
    requires last.item in s.quantity
    ensures Recorded(s, last, build, Moved(Taken(s, front, build), last.item, -Need(last, build)))
  {
    UntouchedHistory(s, front, build, last.item);
    TakenTakesNeeds(s, front, build, last.item);
    NoLineNoNeed(front, last.item, build);
    MovedHistory(Taken(s, front, build), last.item, -Need(last, build), last.item);
  }

  lemma {:induction false} TakenRecords(s: Stock, ls: seq<Line>, build: int, k: nat)
    requires forall i :: 0 <= i < |ls| ==> ls[i].item in s.quantity
    requires Distinct(ls) && k < |ls|
    ensures Recorded(s, ls[k], build, Taken(s, ls, build))
  {
    var front, last := ls[..|ls|-1], ls[|ls|-1];
    if k < |front| {
      TakenRecords(s, front, build, k);
      MovedKeepsRecord(s, ls[k], build, Taken(s, front, build), last.item, -Need(last, build));
    } else {
      LastLineRecords(s, front, last, build);
    }
  }

  lemma MovedKeepsRecord(s: Stock, line: Line, build: int, t: Stock, item: nat, delta: int)
    requires Recorded(s, line, build, t) && item in t.quantity && item != line.item
    ensures Recorded(s, line, build, Moved(t, item, delta))
  {
    MovedHistory(t, item, delta, line.item);
  }

  // A build happens exactly when every line can be covered, and is all or nothing: each
  // line's item is left with what it had less the need, never below zero and with one new
  // record of exactly that; every other item, and a refusal, leave no trace.
  lemma ConsumeIsAllOrNothing(s: Stock, bom: nat, build: int)
    requires OneLineEach(s) && bom in s.boms
    ensures
      var r := Handle(s, Consume(bom, build));
      var ls := Lines(s, bom);
      && (r.1.Ok? <==> forall k :: 0 <= k < |ls| ==> Enough(s, ls[k], build))
      && (!r.1.Ok? ==> r.0 == s)
      && (r.1.Ok? ==> Consumed(s, ls, build, r.0))
  {
    var r, ls := Handle(s, Consume(bom, build)), Lines(s, bom);
    if r.1.Ok? {
      ConsumedIsTaken(s, bom, build);
      forall k | 0 <= k < |ls|
        ensures LineConsumed(s, ls[k], build, r.0)
      {
        assert Enough(s, ls[k], build);
        TakenTakesNeeds(s, ls, build, ls[k].item);
        OneLineOneNeed(ls, k, build);
        TakenRecords(s, ls, build, k);
      }
      forall item | item in s.quantity && forall k :: 0 <= k < |ls| ==> ls[k].item != item
        ensures r.0.quantity[item] == s.quantity[item] && History(r.0, item) == History(s, item)
      {
        TakenTakesNeeds(s, ls, build, item);
        NoLineNoNeed(ls, item, build);
        UntouchedHistory(s, ls, build, item);
      }
    }
  }

  predicate LineConsumed(s: Stock, line: Line, build: int, after: Stock) {
    var need := Need(line, build);
    && line.item in s.quantity && line.item in after.quantity
    && after.quantity[line.item] == s.quantity[line.item] - need >= 0
    && Recorded(s, line, build, after)
  }

  predicate Consumed(s: Stock, ls: seq<Line>, build: int, after: Stock) {
    && after.quantity.Keys == s.quantity.Keys
    && (forall k :: 0 <= k < |ls| ==> LineConsumed(s, ls[k], build, after))
    && forall item :: item in s.quantity && (forall k :: 0 <= k < |ls| ==> ls[k].item != item) ==>
         after.quantity[item] == s.quantity[item] && History(after, item) == History(s, item)
  }

  // Were an item on two lines, each could pass the check and the two together take the
  // stock below zero: the rule of one line per item is what makes the check enough.
  lemma TwoLinesOversell() returns (s: Stock, bom: nat, build: int)
    ensures bom in s.boms && !Distinct(Lines(s, bom)) && forall item :: item in s.quantity ==> s.quantity[item] >= 0
    ensures Handle(s, Consume(bom, build)).1.Ok?
    ensures var after := Handle(s, Consume(bom, build)).0.quantity;
      exists item :: item in after && after[item] < 0
  {
    var ls := [Line(7, 1), Line(7, 1)];
    s, bom, build := Stock(map[7 := 1], multiset{7}, map[], {3}, map[3 := ls], [], 10), 3, 1;
    assert ls[0].item == ls[1].item;
    ConsumedIsTaken(s, bom, build);
    TakenTakesNeeds(s, ls, build, 7);
    assert NeedOf(ls, 7, build) == 2 by {
      assert ls[..1] == [Line(7, 1)] && [Line(7, 1)][..0] == [];
    }
    assert Handle(s, Consume(bom, build)).0.quantity[7] == -1;
  }

  // ---- Totals ----

  function TotalNeed(ls: seq<Line>, build: int): int {
    if ls == [] then 0 else TotalNeed(ls[..|ls|-1], build) + Need(ls[|ls|-1], build)
  }

  function StockOf(s: Stock, items: seq<nat>): int {
    if items == [] then 0
    else StockOf(s, items[..|items|-1]) + if items[|items|-1] in s.quantity then s.quantity[items[|items|-1]] else 0
  }

  predicate NoRepeats(items: seq<nat>) { forall i, j :: 0 <= i < j < |items| ==> items[i] != items[j] }

  lemma {:induction false} MovedTotal(s: Stock, item: nat, delta: int, items: seq<nat>)
    requires item in s.quantity && NoRepeats(items)
    ensures StockOf(Moved(s, item, delta), items) == StockOf(s, items) + if item in items then delta else 0
  {
    if items != [] {
      var front, last := items[..|items|-1], items[|items|-1];
      MovedTotal(s, item, delta, front);
      assert items == front + [last];
    }
  }

  // What leaves the stock is the sum of the needs, counted over any list of items that
  // includes those on the bill.
  lemma {:induction false} TotalTaken(s: Stock, ls: seq<Line>, build: int, items: seq<nat>)
    requires forall i :: 0 <= i < |ls| ==> ls[i].item in s.quantity && ls[i].item in items
    requires NoRepeats(items)
    ensures StockOf(Taken(s, ls, build), items) == StockOf(s, items) - TotalNeed(ls, build)
  {
    if ls != [] {
      var front, last := ls[..|ls|-1], ls[|ls|-1];
      TotalTaken(s, front, build, items);
      MovedTotal(Taken(s, front, build), last.item, -Need(last, build), items);
    }
  }

  // ---- The audit trail ----

  predicate Linked(h: seq<Adjustment>) {
    && (forall i :: 0 <= i < |h| ==> h[i].after == h[i].before + h[i].delta)
    && (forall i :: 0 <= i < |h| - 1 ==> h[i].before == h[i + 1].after)
  }

  // An item's records explain each other, and the newest ends at what is in stock.
  predicate Trail(s: Stock, item: nat) {
    && Linked(History(s, item))
    && (item in s.quantity && History(s, item) != [] ==> s.quantity[item] == History(s, item)[0].after)
  }

  ghost predicate Trails(s: Stock) {
    && (forall item: nat :: Trail(s, item))
    && (forall item :: item in s.quantity || item in s.history ==> item < s.nextId)
  }

  lemma MovedKeepsTrails(s: Stock, item: nat, delta: int)
    requires Trails(s) && item in s.quantity
    ensures Trails(Moved(s, item, delta))
  {
    var r := Moved(s, item, delta);
    forall other: nat
      ensures Trail(r, other)
    {
      assert Trail(s, other);
      assert other != item ==> History(r, other) == History(s, other);
    }
  }

  lemma {:induction false} TakenKeepsTrails(s: Stock, ls: seq<Line>, build: int)
    requires Trails(s) && forall i :: 0 <= i < |ls| ==> ls[i].item in s.quantity
    ensures Trails(Taken(s, ls, build))
  {
    if ls != [] {
      var front, last := ls[..|ls|-1], ls[|ls|-1];
      TakenKeepsTrails(s, front, build);
      MovedKeepsTrails(Taken(s, front, build), last.item, -Need(last, build));
    }
  }

  // The quantity a call puts in place of an item's: by a plain edit, by the data browser, or
  // by taking an edit of the data browser back.
  function OverwriteOf(s: Stock, c: Call): Option<(nat, int)> {
    match c
    case PatchQuantity(item, q) => if Listed(s, item) && q.Some? then Some((item, q.value)) else None
    case EditRow(item, q) => if Listed(s, item) && q.Some? then Some((item, q.value)) else None
    case Revert(change) =>
      var found := FindChange(s.changes, change);
      if found.Some? && !found.value.deleted && Listed(s, found.value.target)
      then Some((found.value.target, found.value.before)) else None
    case _ => None
  }

  // A call breaks the trail exactly when it overwrites, by another, the quantity of an item
  // that already has records.
  predicate Unaudited(s: Stock, c: Call) {
    var o := OverwriteOf(s, c);
    o.Some? && o.value.0 in s.quantity && History(s, o.value.0) != [] && o.value.1 != s.quantity[o.value.0]
  }

  lemma OldRecords(s: Stock, r: Stock)
    requires Trails(s) && r.history == s.history
    ensures forall item: nat :: History(r, item) == History(s, item) && Trail(s, item)
  {
  }

  lemma TypedTrails(s: Stock, r: Stock, item: nat, q: int)
    requires Trails(s) && item in s.quantity
    requires r.history == s.history && r.quantity == s.quantity[item := q] && r.nextId >= s.nextId
    ensures Trails(r) <==> History(s, item) == [] || q == s.quantity[item]
  {
    OldRecords(s, r);
    if History(s, item) != [] && q != s.quantity[item] {
      assert !Trail(r, item);
    }
  }

  lemma OverwritesOne(s: Stock, c: Call)
    requires OverwriteOf(s, c).Some?
    ensures
      var r, o := Handle(s, c).0, OverwriteOf(s, c).value;
      o.0 in s.quantity && r.quantity == s.quantity[o.0 := o.1] && r.history == s.history && r.nextId >= s.nextId
  {
  }

  lemma OverwritesNone(s: Stock, c: Call)
    requires OverwriteOf(s, c).None? && !c.AddItem? && !c.Adjust? && !c.Consume?
    ensures var r := Handle(s, c).0; r.quantity == s.quantity && r.history == s.history && r.nextId >= s.nextId
  {
    match c
    case Revert(change) => RevertOverwritesNone(s, change);
    case EditRow(item, q) => RowOverwritesNone(s, c);
    case DeleteRow(item) => RowOverwritesNone(s, c);
    case PatchQuantity(item, q) => ItemOverwritesNone(s, c);
    case DeleteItem(item) => ItemOverwritesNone(s, c);
    case _ => BomOverwritesNone(s, c);
  }

  lemma ItemOverwritesNone(s: Stock, c: Call)
    requires OverwriteOf(s, c).None? && (c.PatchQuantity? || c.DeleteItem?)
    ensures var r := Handle(s, c).0; r.quantity == s.quantity && r.history == s.history && r.nextId >= s.nextId
  {
  }

  lemma BomOverwritesNone(s: Stock, c: Call)
    requires c.AddBom? || c.DeleteBom? || c.AddLine? || c.RemoveLine?
    ensures var r := Handle(s, c).0; r.quantity == s.quantity && r.history == s.history && r.nextId >= s.nextId
  {
  }

  lemma RevertOverwritesNone(s: Stock, change: nat)
    requires OverwriteOf(s, Revert(change)).None?
    ensures var r := Handle(s, Revert(change)).0;
      r.quantity == s.quantity && r.history == s.history && r.nextId >= s.nextId
  {
    if FindChange(s.changes, change).Some? {
      assert Handle(s, Revert(change)).0 == Reverted(s, FindChange(s.changes, change).value);
    }
  }

  lemma RowOverwritesNone(s: Stock, c: Call)
    requires OverwriteOf(s, c).None? && (c.EditRow? || c.DeleteRow?)
    ensures var r := Handle(s, c).0; r.quantity == s.quantity && r.history == s.history && r.nextId >= s.nextId
  {
  }

  lemma TrailsIff(s: Stock, c: Call)
    requires Trails(s)
    ensures Trails(Handle(s, c).0) <==> !Unaudited(s, c)
  {
    var r := Handle(s, c).0;
    if c.Adjust? {
      if Handle(s, c).1.Ok? {
        MovedKeepsTrails(s, c.item, c.delta);
      }
    } else if c.Consume? {
      if Handle(s, c).1.Ok? {
        ConsumedIsTaken(s, c.bom, c.build);
        assert forall i :: 0 <= i < |Lines(s, c.bom)| ==> Enough(s, Lines(s, c.bom)[i], c.build);
        TakenKeepsTrails(s, Lines(s, c.bom), c.build);
      }
    } else if c.AddItem? {
      OldRecords(s, r);
    } else if OverwriteOf(s, c).Some? {
      OverwritesOne(s, c);
      TypedTrails(s, r, OverwriteOf(s, c).value.0, OverwriteOf(s, c).value.1);
    } else {
      OverwritesNone(s, c);
      SameTrails(s, r);
    }
  }

  lemma SameTrails(s: Stock, r: Stock)
    requires Trails(s) && r.history == s.history && r.quantity == s.quantity && r.nextId >= s.nextId
    ensures Trails(r)
  {
    OldRecords(s, r);
  }

  // Taking back an edit of the data browser after an adjustment does so: the adjustment's
  // record stays, and what it recorded is gone.
  lemma RevertLosesAdjustment(s: Stock, item: nat, delta: int)
    requires Trails(s) && Listed(s, item) && delta != 0 && s.quantity[item] + delta >= 0
    requires forall i :: 0 <= i < |s.changes| ==> s.changes[i].id < s.nextId
    ensures
      var edited := Handle(s, EditRow(item, None)).0;
      var adjusted := Handle(edited, Adjust(item, delta)).0;
      var reverted := Handle(adjusted, Revert(s.nextId)).0;
      && Trails(adjusted) && reverted.quantity[item] == s.quantity[item]
      && History(reverted, item) == History(adjusted, item) && !Trails(reverted)
  {
    var edited := Handle(s, EditRow(item, None)).0;
    TrailsIff(s, EditRow(item, None));
    var adjusted := Handle(edited, Adjust(item, delta)).0;
    MovedKeepsTrails(edited, item, delta);
    var entry := Change(s.nextId, item, false, s.quantity[item]);
    assert adjusted.changes[0] == entry;
    TypedTrails(adjusted, Handle(adjusted, Revert(s.nextId)).0, item, s.quantity[item]);
  }

  lemma {:induction false} RunKeepsTrails(s: Stock, cs: seq<Call>)
    requires Trails(s)
    requires forall i :: 0 <= i < |cs| ==> !Unaudited(Run(s, cs[..i]), cs[i])
    ensures Trails(Run(s, cs))
  {
    if cs != [] {
      var n := |cs| - 1;
      forall i | 0 <= i < n
        ensures !Unaudited(Run(s, cs[..n][..i]), cs[..n][i])
      {
        assert cs[..n][..i] == cs[..i];
      }
      RunKeepsTrails(s, cs[..n]);
      TrailsIff(Run(s, cs[..n]), cs[n]);
    }
  }

  function Deltas(h: seq<Adjustment>): int {
    if h == [] then 0 else h[0].delta + Deltas(h[1..])
  }

  // Replaying an item's records from where the oldest began gives what is in stock.
  lemma {:induction false} ReplayedTrail(h: seq<Adjustment>)
    requires Linked(h) && h != []
    ensures h[|h|-1].before + Deltas(h) == h[0].after
  {
    if |h| > 1 {
      assert forall i :: 0 <= i < |h[1..]| ==> h[1..][i] == h[i + 1];
      ReplayedTrail(h[1..]);
    } else {
      assert h[1..] == [];
    }
  }

  lemma StockIsExplained(s: Stock, item: nat)
    requires Trails(s) && item in s.quantity && History(s, item) != []
    ensures var h := History(s, item); s.quantity[item] == h[|h|-1].before + Deltas(h)
  {
    assert Trail(s, item);
    ReplayedTrail(History(s, item));
  }

  // ---- Never below zero ----

  // No item is short, listed or not, and none was when its row was edited.
  predicate InStock(s: Stock) {
    && (forall item :: item in s.quantity ==> s.quantity[item] >= 0)
    && (forall i :: 0 <= i < |s.changes| ==> s.changes[i].before >= 0)
  }

  // Only typing a negative quantity can make stock negative: into a new item, a plain edit,
  // or the data browser.
  predicate Negative(s: Stock, c: Call) {
    match c
    case AddItem(initial) => initial < 0
    case PatchQuantity(item, q) => Listed(s, item) && q.Some? && q.value < 0
    case EditRow(item, q) => Listed(s, item) && q.Some? && q.value < 0
    case _ => false
  }

  lemma ConsumeStaysInStock(s: Stock, bom: nat, build: int)
    requires OneLineEach(s) && InStock(s) && Handle(s, Consume(bom, build)).1.Ok?
    ensures InStock(Handle(s, Consume(bom, build)).0)
  {
    var r, ls := Handle(s, Consume(bom, build)).0, Lines(s, bom);
    ConsumeIsAllOrNothing(s, bom, build);
    ConsumedIsTaken(s, bom, build);
    assert forall i :: 0 <= i < |ls| ==> Enough(s, ls[i], build);
    TakenKeepsLines(s, ls, build);
    forall item | item in r.quantity
      ensures r.quantity[item] >= 0
    {
      if k :| 0 <= k < |ls| && ls[k].item == item {
        assert LineConsumed(s, ls[k], build, r);
      }
    }
  }

  lemma InStockIff(s: Stock, c: Call)
    requires OneLineEach(s) && InStock(s)
    ensures InStock(Handle(s, c).0) <==> !Negative(s, c)
  {
    var r := Handle(s, c);
    match c
    case AddItem(initial) =>
      assert r.0.quantity[s.nextId] == initial;
    case PatchQuantity(item, q) =>
      if Listed(s, item) && q.Some? {
        assert r.0.quantity[item] == q.value;
      }
    case EditRow(item, q) =>
      if Listed(s, item) && q.Some? {
        assert r.0.quantity[item] == q.value;
      }
    case Consume(bom, build) =>
      if r.1.Ok? {
        ConsumeStaysInStock(s, bom, build);
      }
    case _ =>
  }

  lemma {:induction false} RunStaysInStock(s: Stock, cs: seq<Call>)
    requires OneLineEach(s) && InStock(s)
    requires forall i :: 0 <= i < |cs| ==> !Negative(Run(s, cs[..i]), cs[i])
    ensures InStock(Run(s, cs))
  {
    if cs != [] {
      var n := |cs| - 1;
      forall i | 0 <= i < n
        ensures !Negative(Run(s, cs[..n][..i]), cs[..n][i])
      {
        assert cs[..n][..i] == cs[..i];
      }
      RunStaysInStock(s, cs[..n]);
      RunKeepsOneLineEach(s, cs[..n]);
      InStockIff(Run(s, cs[..n]), cs[n]);
    }
  }
}
