// Inventory and bills of materials of the mock backend: audited adjustments of stock, and
// builds that consume every line of a bill or none.
module BomStock {
  import opened Options

  datatype Adjustment = Adjustment(delta: int, before: int, after: int)
  datatype Line = Line(item: nat, perUnit: int)

  // An edit or deletion in the data browser, with the quantity it found.
  datatype Change = Change(id: nat, target: nat, deleted: bool, before: int)

  // `quantity` holds every item ever made, whether listed or taken off the list: putting a
  // deleted item back puts back the same one, and can list it twice. Items are looked up by
  // id only. An item without an entry in `history` has none, and a bill without an entry in
  // `lines` has no lines. `changes` has the newest first.
  datatype Stock = Stock(quantity: map<nat, int>, listed: multiset<nat>, history: map<nat, seq<Adjustment>>,
                         boms: set<nat>, lines: map<nat, seq<Line>>, changes: seq<Change>, nextId: nat)

  datatype Call =
    | AddItem(initial: int)
    | PatchQuantity(item: nat, newQuantity: Option<int>)
    | DeleteItem(item: nat)
    | Adjust(item: nat, delta: int)
    | AddBom
    | DeleteBom(bom: nat)
    | AddLine(bom: nat, item: nat, perUnit: int)
    | RemoveLine(bom: nat, item: nat)
    | Consume(bom: nat, build: int)
    | EditRow(item: nat, newQuantity: Option<int>)
    | DeleteRow(item: nat)
    | Revert(change: nat)
  datatype Reply = Ok | NotFound | Conflict | Unprocessable

  predicate Listed(s: Stock, item: nat) { item in s.listed && item in s.quantity }

  function History(s: Stock, item: nat): seq<Adjustment> {
    if item in s.history then s.history[item] else []
  }

  function Lines(s: Stock, bom: nat): seq<Line> {
    if bom in s.lines then s.lines[bom] else []
  }

  // The one way stock moves with a record: newest entry first.
  function Moved(s: Stock, item: nat, delta: int): Stock
    requires item in s.quantity
    ensures Moved(s, item, delta).quantity.Keys == s.quantity.Keys
  {
    var before := s.quantity[item];
    s.(quantity := s.quantity[item := before + delta],
       history := s.history[item := [Adjustment(delta, before, before + delta)] + History(s, item)])
  }

  function Need(line: Line, build: int): int { line.perUnit * build }

  predicate Enough(s: Stock, line: Line, build: int) {
    Listed(s, line.item) && s.quantity[line.item] >= Need(line, build)
  }

  function Taken(s: Stock, ls: seq<Line>, build: int): (r: Stock)
    requires forall i :: 0 <= i < |ls| ==> ls[i].item in s.quantity
    ensures r.quantity.Keys == s.quantity.Keys
  {
    if ls == [] then s
    else
      var last := ls[|ls|-1];
      Moved(Taken(s, ls[..|ls|-1], build), last.item, -Need(last, build))
  }

  function Without(ls: seq<Line>, item: nat): seq<Line> {
    if ls == [] then []
    else
      var last := ls[|ls|-1];
      Without(ls[..|ls|-1], item) + if last.item != item then [last] else []
  }

  function FindChange(changes: seq<Change>, id: nat): (r: Option<Change>)
    ensures r.None? ==> forall i :: 0 <= i < |changes| ==> changes[i].id != id
    ensures r.Some? ==> exists i :: 0 <= i < |changes| && changes[i] == r.value && r.value.id == id
                                    && forall j :: 0 <= j < i ==> changes[j].id != id
  {
    if changes == [] then None
    else
      var found := FindChange(changes[..|changes|-1], id);
      if found.Some? then found else if changes[|changes|-1].id == id then Some(changes[|changes|-1]) else None
  }

  function Logged(s: Stock, item: nat, deleted: bool): Stock
    requires item in s.quantity
  {
    s.(changes := [Change(s.nextId, item, deleted, s.quantity[item])] + s.changes, nextId := s.nextId + 1)
  }

  function Typed(s: Stock, item: nat, q: Option<int>): Stock {
    if q.Some? then s.(quantity := s.quantity[item := q.value]) else s
  }

  function Reverted(s: Stock, c: Change): Stock {
    if c.deleted then s.(listed := s.listed + multiset{c.target})
    else if Listed(s, c.target) then Typed(s, c.target, Some(c.before))
    else s
  }

  function Handle(s: Stock, c: Call): (Stock, Reply) {
    match c
    case AddItem(initial) =>
      (s.(quantity := s.quantity[s.nextId := initial], listed := s.listed + multiset{s.nextId},
          nextId := s.nextId + 1), Ok)
    case PatchQuantity(item, q) => if !Listed(s, item) then (s, NotFound) else (Typed(s, item, q), Ok)
    case DeleteItem(item) =>
      if !Listed(s, item) then (s, NotFound) else (s.(listed := s.listed - multiset{item}), Ok)
    case EditRow(item, q) => if !Listed(s, item) then (s, NotFound) else (Typed(Logged(s, item, false), item, q), Ok)
    case DeleteRow(item) =>
      if !Listed(s, item) then (s, NotFound)
      else (Logged(s, item, true).(listed := s.listed - multiset{item}), Ok)
    case Revert(change) =>
      var found := FindChange(s.changes, change);
      if found.None? then (s, NotFound) else (Reverted(s, found.value), Ok)
    case Adjust(item, delta) =>
      if !Listed(s, item) then (s, NotFound)
      else if s.quantity[item] + delta < 0 then (s, Unprocessable)
      else (Moved(s, item, delta), Ok)
    case AddBom => (s.(boms := s.boms + {s.nextId}, lines := s.lines[s.nextId := []], nextId := s.nextId + 1), Ok)
    case DeleteBom(bom) =>
      if bom !in s.boms then (s, NotFound) else (s.(boms := s.boms - {bom}, lines := s.lines - {bom}), Ok)
    case AddLine(bom, item, perUnit) =>
      if bom !in s.boms || !Listed(s, item) then (s, NotFound)
      else if exists l :: l in Lines(s, bom) && l.item == item then (s, Conflict)
      else (s.(lines := s.lines[bom := Lines(s, bom) + [Line(item, perUnit)]]), Ok)
    case RemoveLine(bom, item) =>
      if bom !in s.lines then (s, NotFound)
      else
        var next := Without(s.lines[bom], item);
        if |next| == |s.lines[bom]| then (s, NotFound) else (s.(lines := s.lines[bom := next]), Ok)
    case Consume(bom, build) =>
      if bom !in s.boms then (s, NotFound)
      else if exists i :: 0 <= i < |Lines(s, bom)| && !Enough(s, Lines(s, bom)[i], build) then (s, Unprocessable)
      else
        assert forall i :: 0 <= i < |Lines(s, bom)| ==> Enough(s, Lines(s, bom)[i], build);
        (Taken(s, Lines(s, bom), build), Ok)
  }

  function Run(s: Stock, cs: seq<Call>): Stock {
    if cs == [] then s else Handle(Run(s, cs[..|cs|-1]), cs[|cs|-1]).0
  }

  class MockInventory {
    var quantity: map<nat, int>
    var listed: multiset<nat>
    var history: map<nat, seq<Adjustment>>
    var boms: set<nat>
    var lines: map<nat, seq<Line>>
    var changes: seq<Change>
    var nextId: nat

    function Now(): Stock
      reads this
    {
      Stock(quantity, listed, history, boms, lines, changes, nextId)
    }

    constructor (s: Stock)
      ensures Now() == s
    {
      quantity, listed, history, boms := s.quantity, s.listed, s.history, s.boms;
      lines, changes, nextId := s.lines, s.changes, s.nextId;
    }

    // inventoryItems.find
    predicate IsListed(item: nat)
      reads this
    {
      item in listed && item in quantity
    }

    method RecordAdjustment(item: nat, delta: int)
      requires item in quantity
      modifies this`quantity, this`history
      ensures Now() == Moved(old(Now()), item, delta)
    {
      var adjustment := Adjustment(delta, quantity[item], quantity[item] + delta);
      quantity := quantity[item := quantity[item] + delta];
      var past := if item in history then history[item] else [];
      history := history[item := [adjustment] + past];
    }

    method AdjustItem(item: nat, delta: int) returns (r: Reply)
      modifies this
      ensures (Now(), r) == Handle(old(Now()), Adjust(item, delta))
    {
      if !IsListed(item) { return NotFound; }
      var quantityAfter := quantity[item] + delta;
      if quantityAfter < 0 { return Unprocessable; }
      RecordAdjustment(item, delta);
      return Ok;
    }

    method LogChange(item: nat, deleted: bool)
      requires item in quantity
      modifies this`changes, this`nextId
      ensures Now() == Logged(old(Now()), item, deleted)
    {
      changes := [Change(nextId, item, deleted, quantity[item])] + changes;
      nextId := nextId + 1;
    }

    method EditDataRow(item: nat, newQuantity: Option<int>) returns (r: Reply)
      modifies this
      ensures (Now(), r) == Handle(old(Now()), EditRow(item, newQuantity))
    {
      if !IsListed(item) { return NotFound; }
      LogChange(item, false);
      if newQuantity.Some? { quantity := quantity[item := newQuantity.value]; }
      return Ok;
    }

    method DeleteDataRow(item: nat) returns (r: Reply)
      modifies this
      ensures (Now(), r) == Handle(old(Now()), DeleteRow(item))
    {
      if !IsListed(item) { return NotFound; }
      LogChange(item, true);
      listed := listed - multiset{item};
      return Ok;
    }

    method RevertChange(change: nat) returns (r: Reply)
      modifies this
      ensures (Now(), r) == Handle(old(Now()), Revert(change))
    {
      var found := FindChange(changes, change);
      if found.None? { return NotFound; }
      var entry := found.value;
      if entry.deleted {
        listed := listed + multiset{entry.target};
      } else if IsListed(entry.target) {
        quantity := quantity[entry.target := entry.before];
      }
      return Ok;
    }

    method AddMaterialLine(bom: nat, item: nat, perUnit: int) returns (r: Reply)
      modifies this
      ensures (Now(), r) == Handle(old(Now()), AddLine(bom, item, perUnit))
    {
      if bom !in boms { return NotFound; }
      if !IsListed(item) { return NotFound; }
      var ls := if bom in lines then lines[bom] else [];
      for i := 0 to |ls|
        invariant forall j :: 0 <= j < i ==> ls[j].item != item
      {
        if ls[i].item == item { return Conflict; }
      }
      lines := lines[bom := ls + [Line(item, perUnit)]];
      return Ok;
    }

    method RemoveMaterialLine(bom: nat, item: nat) returns (r: Reply)
      modifies this
      ensures (Now(), r) == Handle(old(Now()), RemoveLine(bom, item))
    {
      if bom !in lines { return NotFound; }
      var ls, next := lines[bom], [];
      for i := 0 to |ls|
        invariant next == Without(ls[..i], item)
      {
        assert ls[..i+1][..i] == ls[..i];
        if ls[i].item != item {
          next := next + [ls[i]];
        }
      }
      assert ls[..|ls|] == ls;
      if |next| == |ls| { return NotFound; }
      lines := lines[bom := next];
      return Ok;
    }

    // Every line is checked before any is applied.
    method ConsumeBom(bom: nat, build: int) returns (r: Reply)
      modifies this
      ensures (Now(), r) == Handle(old(Now()), Consume(bom, build))
    {
      if bom !in boms { return NotFound; }
      var ls := if bom in lines then lines[bom] else [];
      for i := 0 to |ls|
        invariant forall j :: 0 <= j < i ==> Enough(Now(), ls[j], build)
      {
        if !IsListed(ls[i].item) || quantity[ls[i].item] < Need(ls[i], build) {
          assert !Enough(Now(), ls[i], build);
          return Unprocessable;
        }
      }
      ApplyLines(ls, build);
      return Ok;
    }

    method ApplyLines(ls: seq<Line>, build: int)
      requires forall i :: 0 <= i < |ls| ==> ls[i].item in quantity
      modifies this`quantity, this`history
      ensures forall i :: 0 <= i < |ls| ==> ls[i].item in old(quantity)
      ensures Now() == Taken(old(Now()), ls, build)
    {
      ghost var before := Now();
      for i := 0 to |ls|
        invariant forall j :: 0 <= j < |ls| ==> ls[j].item in before.quantity
        invariant Now() == Taken(before, ls[..i], build)
      {
        assert ls[..i+1][..i] == ls[..i] && ls[..i+1][i] == ls[i];
        RecordAdjustment(ls[i].item, -Need(ls[i], build));
      }
      assert ls[..|ls|] == ls;
    }
  }
}
