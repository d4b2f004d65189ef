// What each call to the mock backend does: its answer, and the ledger or the stock after it,
// from the one before.
module MockLedgerEffects {
  import opened Options
  import opened MockLedger

  // The first invoice of this id, and the first payment of this id on it.
  predicate IsInvoice(l: Ledger, id: nat, k: nat) {
    k < |l.invoices| && l.invoices[k].id == id && forall i :: 0 <= i < k ==> l.invoices[i].id != id
  }

  predicate IsPayment(i: Invoice, id: nat, j: nat) {
    j < |i.payments| && i.payments[j].id == id && forall m :: 0 <= m < j ==> i.payments[m].id != id
  }

  predicate NoInvoice(l: Ledger, id: nat) { forall i :: 0 <= i < |l.invoices| ==> l.invoices[i].id != id }

  function Amounts(i: Invoice): int { Sum(Map((p: Payment) => p.amount, i.payments)) }

  function Refunded(p: Payment): int { Sum(p.refunds) }

  function AllRefunded(ps: seq<Payment>): int {
    if ps == [] then 0 else AllRefunded(ps[..|ps|-1]) + Refunded(ps[|ps|-1])
  }

  lemma {:induction false} AllRefundedIs(i: Invoice)
    ensures RefundedSoFar(i) == AllRefunded(i.payments)
    decreases |i.payments|
  {
    if i.payments != [] {
      var n := |i.payments| - 1;
      var f := (p: Payment) => RefundedOf(p);
      AllRefundedIs(i.(payments := i.payments[..n]));
      assert Map(f, i.payments)[..n] == Map(f, i.payments[..n]);
    }
  }

  lemma FoundIs(l: Ledger, id: nat, k: nat)
    ensures IsInvoice(l, id, k) <==> FindInvoice(l.invoices, id) == Some(k)
    ensures NoInvoice(l, id) <==> FindInvoice(l.invoices, id) == None
  {
  }

  lemma NotFoundDoes(l: Ledger, c: Call)
    requires !c.Create? && NoInvoice(l, c.invoiceId)
    ensures Handle(l, c) == (l, NotFound)
  {
    FoundIs(l, c.invoiceId, 0);
  }

  // A new invoice is a draft without payments under the next id; sending and voiding set the
  // status, from whatever it was.
  lemma CreateDoes(l: Ledger, amountTotal: int)
    ensures Handle(l, Create(amountTotal)) ==
      (Ledger(l.invoices + [Invoice(l.nextId, Draft, amountTotal, [], false)], l.nextId + 1), Created(l.nextId))
  {
  }

  lemma StatusDoes(l: Ledger, id: nat, k: nat)
    requires IsInvoice(l, id, k)
    ensures Handle(l, Send(id)) == (l.(invoices := l.invoices[k := l.invoices[k].(status := Sent)]), Done)
    ensures Handle(l, Void(id)) == (l.(invoices := l.invoices[k := l.invoices[k].(status := Voided)]), Done)
  {
    FoundIs(l, id, k);
  }

  // A manual payment is taken exactly for a sent or overdue invoice. It is appended as a
  // succeeded payment under the next id, and the invoice is marked paid exactly if its
  // payments now come to its total or more.
  lemma ManualDoes(l: Ledger, id: nat, k: nat, means: string, amount: int)
    requires IsInvoice(l, id, k)
    ensures
      var (m, r) := Handle(l, Manual(id, means, amount));
      var i := l.invoices[k];
      && (r == Conflict <==> i.status != Sent && i.status != Overdue)
      && (r == Created(l.nextId) <==> i.status == Sent || i.status == Overdue)
      && (r == Conflict ==> m == l)
      && (r != Conflict ==>
            var j := m.invoices[k];
            && m == Ledger(l.invoices[k := j], l.nextId + 1)
            && j.payments == i.payments + [Payment(l.nextId, means, amount, Succeeded, [], Undisputed)]
            && j.id == i.id && j.amountTotal == i.amountTotal
            && (if Amounts(j) >= i.amountTotal then j.status == Paid && j.everPaid
                else j.status == i.status && j.everPaid == i.everPaid))
  {
    FoundIs(l, id, k);
  }

  // A refund is refused, in this order: for a payment not on the invoice, for another payment
  // in the body, for a payment that is not collected or is refunded, and for an amount that
  // is not positive or more than is left. The amount left out stands for all that is left.
  lemma RefundAnswers(l: Ledger, id: nat, k: nat, payment: nat, body: nat, requested: Option<int>, j: nat)
    requires IsInvoice(l, id, k) && IsPayment(l.invoices[k], payment, j)
    ensures
      var r := Handle(l, Refund(id, payment, body, requested)).1;
      var p := l.invoices[k].payments[j];
      var left := p.amount - Refunded(p);
      var amount := if requested == None then left else requested.value;
      var open := p.status == Succeeded || p.status == PartiallyRefunded;
      && (r == Conflict <==> body == payment && !open)
      && (r == Unprocessable <==> body != payment || (open && (amount <= 0 || amount > left)))
      && (r == Created(l.nextId) <==> body == payment && open && 0 < amount <= left)
  {
    FoundIs(l, id, k);
  }

  lemma RefundNotFound(l: Ledger, id: nat, k: nat, payment: nat, body: nat, requested: Option<int>)
    requires IsInvoice(l, id, k)
    requires forall j :: 0 <= j < |l.invoices[k].payments| ==> l.invoices[k].payments[j].id != payment
    ensures Handle(l, Refund(id, payment, body, requested)) == (l, NotFound)
  {
    FoundIs(l, id, k);
  }

  // What an accepted refund makes of a payment, and of its invoice.
  function Less(p: Payment, amount: int): Payment {
    p.(refunds := p.refunds + [amount],
       status := if Refunded(p) + amount == p.amount then PaymentStatus.Refunded else PartiallyRefunded)
  }

  function With(i: Invoice, j: nat, after: Payment): Invoice
    requires j < |i.payments|
  {
    var payments := i.payments[j := after];
    i.(payments := payments,
       status := if i.status == Paid && AllRefunded(payments) >= i.amountTotal then Reversed else i.status)
  }

  // A refund accepted is appended to the payment's, which is refunded exactly if they now come
  // to its amount and else partially so; a paid invoice becomes refunded exactly if all its
  // refunds come to its total. A refund refused changes nothing.
  lemma RefundDoes(l: Ledger, id: nat, k: nat, payment: nat, body: nat, requested: Option<int>, j: nat)
    requires IsInvoice(l, id, k) && IsPayment(l.invoices[k], payment, j)
    ensures
      var (m, r) := Handle(l, Refund(id, payment, body, requested));
      var i, p := l.invoices[k], l.invoices[k].payments[j];
      var amount := if requested == None then p.amount - Refunded(p) else requested.value;
      m == if r.Created? then Ledger(l.invoices[k := With(i, j, Less(p, amount))], l.nextId + 1) else l
  {
    FoundIs(l, id, k);
    var p := l.invoices[k].payments[j];
    var amount := if requested == None then p.amount - Refunded(p) else requested.value;
    RefundAnswers(l, id, k, payment, body, requested, j);
    if 0 < amount <= p.amount - Refunded(p) { RefundsMake(l, k, j, amount); }
  }

  lemma RefundsMake(l: Ledger, k: nat, j: nat, amount: int)
    requires k < |l.invoices| && j < |l.invoices[k].payments|
    requires amount <= l.invoices[k].payments[j].amount - Refunded(l.invoices[k].payments[j])
    ensures Refunds(l, k, j, amount)
         == Ledger(l.invoices[k := With(l.invoices[k], j, Less(l.invoices[k].payments[j], amount))], l.nextId + 1)
  {
    var i, p := l.invoices[k], l.invoices[k].payments[j];
    assert Refunding(p, amount) == Less(p, amount);
    AllRefundedIs(i.(payments := i.payments[j := Less(p, amount)]));
  }

  // ---- The dashboard's parts ----

  // What counts as collected, by whom, and what as owed.
  lemma PartsAre(p: Payment, i: Invoice)
    ensures CollectedOf()(p) ==
      match p.status {
        case Succeeded => p.amount
        case PartiallyRefunded => p.amount
        case Refunded => p.amount
        case Uncollected => 0
      }
    ensures NetOf()(p) == CollectedOf()(p) - Sum(p.refunds) && RefundsOf()(p) == Sum(p.refunds)
  {
  }
}

module BomStockEffects {
  import opened Options
  import opened BomStock

  predicate Known(s: Stock, item: nat) { item in s.listed && item in s.quantity }

  function Records(s: Stock, item: nat): seq<Adjustment> { if item in s.history then s.history[item] else [] }

  function Bill(s: Stock, bom: nat): seq<Line> { if bom in s.lines then s.lines[bom] else [] }

  // A new item is listed with what is typed in; editing one types another quantity in, if
  // any; deleting takes it off the list.
  lemma ItemsDo(s: Stock, item: nat, q: Option<int>, initial: int)
    ensures Handle(s, AddItem(initial)) ==
      (s.(quantity := s.quantity[s.nextId := initial], listed := s.listed + multiset{s.nextId},
          nextId := s.nextId + 1), Ok)
    ensures !Known(s, item) ==>
      Handle(s, PatchQuantity(item, q)) == (s, NotFound) && Handle(s, DeleteItem(item)) == (s, NotFound)
    ensures Known(s, item) ==>
      && Handle(s, PatchQuantity(item, q)) == (if q == None then s else s.(quantity := s.quantity[item := q.value]), Ok)
      && Handle(s, DeleteItem(item)) == (s.(listed := s.listed - multiset{item}), Ok)
  {
  }

  // An adjustment is refused exactly if it would leave less than nothing; else it moves the
  // quantity and puts a record of it before the others.
  lemma AdjustDoes(s: Stock, item: nat, delta: int)
    ensures
      var (t, r) := Handle(s, Adjust(item, delta));
      && (r == NotFound <==> !Known(s, item))
      && (r == Unprocessable <==> Known(s, item) && s.quantity[item] + delta < 0)
      && (r == Ok <==> Known(s, item) && s.quantity[item] + delta >= 0)
      && (r != Ok ==> t == s)
      && (r == Ok ==>
            var q := s.quantity[item];
            t == s.(quantity := s.quantity[item := q + delta],
                    history := s.history[item := [Adjustment(delta, q, q + delta)] + Records(s, item)]))
  {
  }

  lemma BillsDo(s: Stock, bom: nat)
    ensures Handle(s, AddBom) ==
      (s.(boms := s.boms + {s.nextId}, lines := s.lines[s.nextId := []], nextId := s.nextId + 1), Ok)
    ensures Handle(s, DeleteBom(bom)) ==
      if bom in s.boms then (s.(boms := s.boms - {bom}, lines := s.lines - {bom}), Ok) else (s, NotFound)
  {
  }

  // A line is appended, with the amount per unit given, to a bill that exists, for an item
  // that does and has no line on it yet.
  lemma AddLineDoes(s: Stock, bom: nat, item: nat, perUnit: int)
    ensures
      var (t, r) := Handle(s, AddLine(bom, item, perUnit));
      var there := exists i :: 0 <= i < |Bill(s, bom)| && Bill(s, bom)[i].item == item;
      && (r == NotFound <==> bom !in s.boms || !Known(s, item))
      && (r == Conflict <==> bom in s.boms && Known(s, item) && there)
      && (r == Ok <==> bom in s.boms && Known(s, item) && !there)
      && t == if r == Ok then s.(lines := s.lines[bom := Bill(s, bom) + [Line(item, perUnit)]]) else s
  {
    if l :| l in Lines(s, bom) && l.item == item {
      var i :| 0 <= i < |Bill(s, bom)| && Bill(s, bom)[i] == l;
    }
    if i :| 0 <= i < |Bill(s, bom)| && Bill(s, bom)[i].item == item { assert Bill(s, bom)[i] in Lines(s, bom); }
  }

  lemma {:induction false} WithoutIs(ls: seq<Line>, item: nat)
    ensures forall l :: l in Without(ls, item) <==> l in ls && l.item != item
    ensures |Without(ls, item)| <= |ls|
    ensures |Without(ls, item)| == |ls| <==> forall l :: l in ls ==> l.item != item
  {
    if ls != [] {
      var front, last := ls[..|ls|-1], ls[|ls|-1];
      WithoutIs(front, item);
      assert ls == front + [last];
    }
  }

  // Removing an item's line keeps the other lines and drops all of that item; there must be
  // one.
  lemma RemoveLineDoes(s: Stock, bom: nat, item: nat)
    ensures
      var (t, r) := Handle(s, RemoveLine(bom, item));
      var there := bom in s.lines && exists l :: l in s.lines[bom] && l.item == item;
      && (r == Ok <==> there) && (r == NotFound <==> !there)
      && (r != Ok ==> t == s)
      && (r == Ok ==>
            && t == s.(lines := t.lines) && t.lines.Keys == s.lines.Keys
            && (forall b :: b in s.lines && b != bom ==> t.lines[b] == s.lines[b])
            && (forall l :: l in t.lines[bom] <==> l in s.lines[bom] && l.item != item))
  {
    if bom in s.lines { WithoutIs(s.lines[bom], item); }
  }

  predicate Lacks(s: Stock, line: Line, build: int) {
    !Known(s, line.item) || s.quantity[line.item] < line.perUnit * build
  }

  // A build is refused exactly if some line's item is gone or there is less of it than the
  // line takes for so many units.
  lemma ConsumeAnswers(s: Stock, bom: nat, build: int)
    ensures
      var r := Handle(s, Consume(bom, build)).1;
      var short := exists i :: 0 <= i < |Bill(s, bom)| && Lacks(s, Bill(s, bom)[i], build);
      && (r == NotFound <==> bom !in s.boms)
      && (r == Unprocessable <==> bom in s.boms && short)
      && (r == Ok <==> bom in s.boms && !short)
  {
    assert Lines(s, bom) == Bill(s, bom);
    forall i | 0 <= i < |Bill(s, bom)|
      ensures Enough(s, Bill(s, bom)[i], build) <==> !Lacks(s, Bill(s, bom)[i], build)
    {
    }
    if i :| 0 <= i < |Bill(s, bom)| && Lacks(s, Bill(s, bom)[i], build) { assert !Enough(s, Lines(s, bom)[i], build); }
  }

  // The data browser logs what it finds before it types over it or takes it off the list.
  lemma BrowserDoes(s: Stock, item: nat, q: Option<int>)
    ensures !Known(s, item) ==>
      Handle(s, EditRow(item, q)) == (s, NotFound) && Handle(s, DeleteRow(item)) == (s, NotFound)
    ensures Known(s, item) ==>
      && Handle(s, EditRow(item, q)) ==
           (s.(quantity := if q == None then s.quantity else s.quantity[item := q.value],
               changes := [Change(s.nextId, item, false, s.quantity[item])] + s.changes, nextId := s.nextId + 1), Ok)
      && Handle(s, DeleteRow(item)) ==
           (s.(listed := s.listed - multiset{item},
               changes := [Change(s.nextId, item, true, s.quantity[item])] + s.changes, nextId := s.nextId + 1), Ok)
  {
  }

  // Taking a change back puts a deleted item on the list again, or the quantity found back
  // on an item still listed, and records nothing.
  lemma RevertDoes(s: Stock, id: nat, i: nat)
    requires i < |s.changes| && s.changes[i].id == id && forall j :: 0 <= j < i ==> s.changes[j].id != id
    ensures
      var c := s.changes[i];
      Handle(s, Revert(id)) ==
        (if c.deleted then s.(listed := s.listed + multiset{c.target})
         else if Known(s, c.target) then s.(quantity := s.quantity[c.target := c.before]) else s, Ok)
  {
    assert FindChange(s.changes, id) == Some(s.changes[i]);
  }

  lemma RevertNotFound(s: Stock, id: nat)
    requires forall j :: 0 <= j < |s.changes| ==> s.changes[j].id != id
    ensures Handle(s, Revert(id)) == (s, NotFound)
  {
  }
}
