// The in-memory ledger of the mock backend: invoices, their payments and refunds. Amounts
// are whole cents, of any sign: the handlers do not check them.
module MockLedger {
  import opened Options

  datatype InvoiceStatus = Draft | Sent | Paid | Overdue | Voided | Reversed
  datatype PaymentStatus = Succeeded | PartiallyRefunded | Refunded | Uncollected
  datatype Dispute = Undisputed | NeedsResponse | UnderReview | Won | Lost
  datatype Payment = Payment(
    id: nat, method_: string, amount: int, status: PaymentStatus, refunds: seq<int>, dispute: Dispute)
  datatype Invoice = Invoice(id: nat, status: InvoiceStatus, amountTotal: int, payments: seq<Payment>, everPaid: bool)
  datatype Ledger = Ledger(invoices: seq<Invoice>, nextId: nat)

  datatype Call =
    | Create(amountTotal: int)
    | Send(invoiceId: nat)
    | Void(invoiceId: nat)
    | Manual(invoiceId: nat, method_: string, amount: int)
    | Refund(invoiceId: nat, paymentId: nat, bodyPaymentId: nat, requested: Option<int>)
  datatype Reply = Done | Created(id: nat) | NotFound | Conflict | Unprocessable

  // ---- Looking up ----

  // Array.find: the first match.
  function FindInvoice(invoices: seq<Invoice>, id: nat): Option<nat> {
    FirstIndex(invoices, (i: Invoice) => i.id == id, 0)
  }

  function FindPayment(payments: seq<Payment>, id: nat): Option<nat> {
    FirstIndex(payments, (p: Payment) => p.id == id, 0)
  }

  function FirstIndex<T>(xs: seq<T>, p: T -> bool, from: nat): (r: Option<nat>)
    requires from <= |xs|
    ensures r.None? ==> forall i :: from <= i < |xs| ==> !p(xs[i])
    ensures r.Some? ==> from <= r.value < |xs| && p(xs[r.value]) && forall i :: from <= i < r.value ==> !p(xs[i])
    decreases |xs| - from
  {
    if from == |xs| then None else if p(xs[from]) then Some(from) else FirstIndex(xs, p, from + 1)
  }

  // ---- Sums ----

  function Sum(s: seq<int>): int {
    if s == [] then 0 else Sum(s[..|s|-1]) + s[|s|-1]
  }

  function Map<T, U>(f: T -> U, xs: seq<T>): seq<U> {
    seq(|xs|, i requires 0 <= i < |xs| => f(xs[i]))
  }

  function RefundedOf(p: Payment): int { Sum(p.refunds) }

  function PaidSoFar(i: Invoice): int { Sum(Map((p: Payment) => p.amount, i.payments)) }

  function RefundedSoFar(i: Invoice): int { Sum(Map((p: Payment) => RefundedOf(p), i.payments)) }

  // ---- The handlers ----

  function Settled(i: Invoice): Invoice {
    if PaidSoFar(i) >= i.amountTotal then i.(status := Paid, everPaid := true) else i
  }

  function Refunding(p: Payment, amount: int): Payment {
    p.(refunds := p.refunds + [amount],
       status := if RefundedOf(p) + amount >= p.amount then Refunded else PartiallyRefunded)
  }

  function Replace(l: Ledger, k: nat, invoice: Invoice, ids: nat): Ledger
    requires k < |l.invoices|
  {
    Ledger(l.invoices[k := invoice], l.nextId + ids)
  }

  function RecordManual(l: Ledger, k: nat, method_: string, amount: int): (Ledger, Reply)
    requires k < |l.invoices|
  {
    var invoice := l.invoices[k];
    if !invoice.status.Sent? && !invoice.status.Overdue? then (l, Conflict)
    else
      var payment := Payment(l.nextId, method_, amount, Succeeded, [], Undisputed);
      var paid := invoice.(payments := invoice.payments + [payment]);
      (Replace(l, k, Settled(paid), 1), Created(l.nextId))
  }

  function Remaining(p: Payment): int { p.amount - RefundedOf(p) }

  predicate Refundable(p: Payment) { p.status.Succeeded? || p.status.PartiallyRefunded? }

  function Reversing(i: Invoice): Invoice {
    if i.status.Paid? && RefundedSoFar(i) >= i.amountTotal then i.(status := Reversed) else i
  }

  // The refund of payment j of invoice k, once everything has been checked.
  function Refunds(l: Ledger, k: nat, j: nat, amount: int): Ledger
    requires k < |l.invoices| && j < |l.invoices[k].payments|
  {
    var invoice := l.invoices[k];
    Replace(l, k, Reversing(invoice.(payments := invoice.payments[j := Refunding(invoice.payments[j], amount)])), 1)
  }

  function RecordRefund(l: Ledger, k: nat, paymentId: nat, bodyPaymentId: nat, requested: Option<int>): (Ledger, Reply)
    requires k < |l.invoices|
  {
    var at := FindPayment(l.invoices[k].payments, paymentId);
    if at.None? then (l, NotFound)
    else
      var payment := l.invoices[k].payments[at.value];
      var amount := if requested.Some? then requested.value else Remaining(payment);
      if bodyPaymentId != paymentId then (l, Unprocessable)
      else if !Refundable(payment) then (l, Conflict)
      else if amount <= 0 || amount > Remaining(payment) then (l, Unprocessable)
      else (Refunds(l, k, at.value, amount), Created(l.nextId))
  }

  function Handle(l: Ledger, c: Call): (Ledger, Reply) {
    if c.Create? then
      (Ledger(l.invoices + [Invoice(l.nextId, Draft, c.amountTotal, [], false)], l.nextId + 1), Created(l.nextId))
    else
      var found := FindInvoice(l.invoices, c.invoiceId);
      if found.None? then (l, NotFound)
      else
        match c
        case Send(_) => (Replace(l, found.value, l.invoices[found.value].(status := Sent), 0), Done)
        case Void(_) => (Replace(l, found.value, l.invoices[found.value].(status := Voided), 0), Done)
        case Manual(_, method_, amount) => RecordManual(l, found.value, method_, amount)
        case Refund(_, paymentId, bodyPaymentId, requested) =>
          RecordRefund(l, found.value, paymentId, bodyPaymentId, requested)
  }

  function Run(l: Ledger, cs: seq<Call>): Ledger {
    if cs == [] then l else Handle(Run(l, cs[..|cs|-1]), cs[|cs|-1]).0
  }

  // ---- The dashboard ----

  predicate Counts(p: Payment) { !p.status.Uncollected? }

  function Tally(f: Payment -> int, invoices: seq<Invoice>): int {
    Sum(Map((i: Invoice) => Sum(Map(f, i.payments)), invoices))
  }

  function CollectedOf(): Payment -> int { (p: Payment) => if Counts(p) then p.amount else 0 }

  function RefundsOf(): Payment -> int { (p: Payment) => RefundedOf(p) }

  function NetOf(): Payment -> int { (p: Payment) => (if Counts(p) then p.amount else 0) - RefundedOf(p) }

  function NetCollected(l: Ledger): int { Tally(CollectedOf(), l.invoices) - Tally(RefundsOf(), l.invoices) }

  class MockBackend {
    var invoices: seq<Invoice>
    var nextId: nat

    function Now(): Ledger
      reads this
    {
      Ledger(invoices, nextId)
    }

    constructor (l: Ledger)
      ensures Now() == l
    {
      invoices, nextId := l.invoices, l.nextId;
    }

    method MockId() returns (id: nat)
      modifies this`nextId
      ensures id == old(nextId) && nextId == old(nextId) + 1
    {
      id := nextId;
      nextId := nextId + 1;
    }

    method CreateInvoice(amountTotal: int) returns (r: Reply)
      modifies this
      ensures (Now(), r) == Handle(old(Now()), Create(amountTotal))
    {
      var id := MockId();
      invoices := invoices + [Invoice(id, Draft, amountTotal, [], false)];
      return Created(id);
    }

    method SendInvoice(id: nat) returns (r: Reply)
      modifies this
      ensures (Now(), r) == Handle(old(Now()), Send(id))
    {
      var k := FindInvoice(invoices, id);
      if k.None? { return NotFound; }
      invoices := invoices[k.value := invoices[k.value].(status := Sent)];
      return Done;
    }

    method VoidInvoice(id: nat) returns (r: Reply)
      modifies this
      ensures (Now(), r) == Handle(old(Now()), Void(id))
    {
      var k := FindInvoice(invoices, id);
      if k.None? { return NotFound; }
      invoices := invoices[k.value := invoices[k.value].(status := Voided)];
      return Done;
    }

    method RecordManualPayment(invoiceId: nat, method_: string, amount: int) returns (r: Reply)
      modifies this
      ensures (Now(), r) == Handle(old(Now()), Manual(invoiceId, method_, amount))
    {
      var k := FindInvoice(invoices, invoiceId);
      if k.None? { return NotFound; }
      var invoice := invoices[k.value];
      if invoice.status != Sent && invoice.status != Overdue { return Conflict; }
      var paymentId := MockId();
      var payment := Payment(paymentId, method_, amount, Succeeded, [], Undisputed);
      invoice := invoice.(payments := invoice.payments + [payment]);
      var paidSoFar := SumAmounts(invoice.payments);
      if paidSoFar >= invoice.amountTotal {
        invoice := invoice.(status := Paid, everPaid := true);
      }
      invoices := invoices[k.value := invoice];
      return Created(paymentId);
    }

    method RefundPayment(invoiceId: nat, paymentId: nat, bodyPaymentId: nat, requested: Option<int>) returns (r: Reply)
      modifies this
      ensures (Now(), r) == Handle(old(Now()), Refund(invoiceId, paymentId, bodyPaymentId, requested))
    {
      var k := FindInvoice(invoices, invoiceId);
      if k.None? { return NotFound; }
      var invoice := invoices[k.value];
      var at := FindPayment(invoice.payments, paymentId);
      if at.None? { return NotFound; }
      var payment := invoice.payments[at.value];
      if bodyPaymentId != paymentId { return Unprocessable; }
      if payment.status != Succeeded && payment.status != PartiallyRefunded { return Conflict; }
      var refundedSoFar := SumAll(payment.refunds);
      var remaining := payment.amount - refundedSoFar;
      var amount := if requested.Some? then requested.value else remaining;
      if amount <= 0 { return Unprocessable; }
      if amount > remaining { return Unprocessable; }
      var refundId := MockId();
      payment := payment.(refunds := payment.refunds + [amount]);
      payment := payment.(status := if refundedSoFar + amount >= payment.amount then Refunded else PartiallyRefunded);
      assert payment == Refunding(invoice.payments[at.value], amount);
      invoice := invoice.(payments := invoice.payments[at.value := payment]);
      ghost var refunded := invoice;
      if invoice.status == Paid {
        var totalRefunded := SumRefunds(invoice.payments);
        if totalRefunded >= invoice.amountTotal {
          invoice := invoice.(status := Reversed);
        }
      }
      assert invoice == Reversing(refunded);
      invoices := invoices[k.value := invoice];
      return Created(refundId);
    }
  }

  // ---- The folds, as loops ----

  method SumAll(s: seq<int>) returns (total: int)
    ensures total == Sum(s)
  {
    total := 0;
    for i := 0 to |s|
      invariant total == Sum(s[..i])
    {
      assert s[..i+1][..i] == s[..i];
      total := total + s[i];
    }
    assert s[..|s|] == s;
  }

  method SumAmounts(payments: seq<Payment>) returns (total: int)
    ensures total == Sum(Map((p: Payment) => p.amount, payments))
  {
    ghost var s := Map((p: Payment) => p.amount, payments);
    total := 0;
    for i := 0 to |payments|
      invariant total == Sum(s[..i])
    {
      assert s[..i+1][..i] == s[..i];
      total := total + payments[i].amount;
    }
    assert s[..|payments|] == s;
  }

  method SumRefunds(payments: seq<Payment>) returns (total: int)
    ensures total == Sum(Map((p: Payment) => RefundedOf(p), payments))
  {
    ghost var s := Map((p: Payment) => RefundedOf(p), payments);
    total := 0;
    for i := 0 to |payments|
      invariant total == Sum(s[..i])
    {
      assert s[..i+1][..i] == s[..i];
      var refunded := SumAll(payments[i].refunds);
      total := total + refunded;
    }
    assert s[..|payments|] == s;
  }
}
