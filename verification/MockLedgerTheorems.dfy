// What any sequence of calls keeps of the mock ledger.
module MockLedgerTheorems {
  import opened Options
  import opened MockLedger

  // ---- Sums ----

  lemma {:induction false} SumAppend(s: seq<int>, t: seq<int>)
    ensures Sum(s + t) == Sum(s) + Sum(t)
  {
    if t == [] {
      assert s + t == s;
    } else {
      SumAppend(s, t[..|t|-1]);
      assert (s + t)[..|s + t|-1] == s + t[..|t|-1];
    }
  }

  lemma SumOne(x: int)
    ensures Sum([x]) == x
  {
    assert [x][..0] == [];
  }

  lemma {:induction false} SumUpdate(s: seq<int>, i: nat, x: int)
    requires i < |s|
    ensures Sum(s[i := x]) == Sum(s) - s[i] + x
  {
    var n := |s| - 1;
    if i < n {
      SumUpdate(s[..n], i, x);
      assert s[i := x][..n] == s[..n][i := x];
    } else {
      assert s[i := x][..n] == s[..n];
    }
  }

  lemma {:induction false} SumIsNotNegative(s: seq<int>)
    requires forall i :: 0 <= i < |s| ==> s[i] >= 0
    ensures Sum(s) >= 0
  {
    if s != [] {
      SumIsNotNegative(s[..|s|-1]);
    }
  }

  lemma {:induction false} SumOfDifferences(s: seq<int>, t: seq<int>, u: seq<int>)
    requires |s| == |t| == |u| && forall i :: 0 <= i < |s| ==> u[i] == s[i] - t[i]
    ensures Sum(u) == Sum(s) - Sum(t)
  {
    if s != [] {
      var n := |s| - 1;
      SumOfDifferences(s[..n], t[..n], u[..n]);
    }
  }

  // ---- Tallies ----

  lemma TallyUpdate(f: Payment -> int, invoices: seq<Invoice>, k: nat, invoice: Invoice)
    requires k < |invoices|
    ensures Tally(f, invoices[k := invoice])
         == Tally(f, invoices) - Sum(Map(f, invoices[k].payments)) + Sum(Map(f, invoice.payments))
  {
    var g := (i: Invoice) => Sum(Map(f, i.payments));
    assert Map(g, invoices[k := invoice]) == Map(g, invoices)[k := g(invoice)];
    SumUpdate(Map(g, invoices), k, g(invoice));
  }

  lemma TallyAppend(f: Payment -> int, invoices: seq<Invoice>, invoice: Invoice)
    ensures Tally(f, invoices + [invoice]) == Tally(f, invoices) + Sum(Map(f, invoice.payments))
  {
    var g := (i: Invoice) => Sum(Map(f, i.payments));
    assert Map(g, invoices + [invoice]) == Map(g, invoices) + [g(invoice)];
    SumAppend(Map(g, invoices), [g(invoice)]);
    SumOne(g(invoice));
  }

  lemma PaymentsAppend(f: Payment -> int, payments: seq<Payment>, p: Payment)
    ensures Sum(Map(f, payments + [p])) == Sum(Map(f, payments)) + f(p)
  {
    assert Map(f, payments + [p]) == Map(f, payments) + [f(p)];
    SumAppend(Map(f, payments), [f(p)]);
    SumOne(f(p));
  }

  lemma PaymentsUpdate(f: Payment -> int, payments: seq<Payment>, j: nat, p: Payment)
    requires j < |payments|
    ensures Sum(Map(f, payments[j := p])) == Sum(Map(f, payments)) - f(payments[j]) + f(p)
  {
    assert Map(f, payments[j := p]) == Map(f, payments)[j := f(p)];
    SumUpdate(Map(f, payments), j, f(p));
  }

  // ---- Every payment, in every reachable ledger ----

  // Refunds are positive, never exceed the payment, and the status says how much of it
  // they return: nothing, a part, or all.
  predicate Sound(p: Payment) {
    && (forall i :: 0 <= i < |p.refunds| ==> p.refunds[i] > 0)
    && (RefundedOf(p) != 0 ==> RefundedOf(p) <= p.amount)
    && (p.status.Succeeded? ==> RefundedOf(p) == 0)
    && (p.status.PartiallyRefunded? ==> 0 < RefundedOf(p) < p.amount)
    && (p.status.Refunded? ==> 0 < RefundedOf(p) == p.amount)
    && (p.status.Uncollected? ==> RefundedOf(p) == 0)
  }

  // Ids are handed out once; a paid invoice is covered, and a reversed one given back.
  predicate SoundInvoice(i: Invoice, nextId: nat) {
    && i.id < nextId
    && (forall j :: 0 <= j < |i.payments| ==> Sound(i.payments[j]) && i.payments[j].id < nextId)
    && (forall j, k :: 0 <= j < k < |i.payments| ==> i.payments[j].id != i.payments[k].id)
    && (i.status.Paid? ==> PaidSoFar(i) >= i.amountTotal && i.everPaid)
    && (i.status.Reversed? ==> RefundedSoFar(i) >= i.amountTotal)
  }

  predicate SoundLedger(l: Ledger) {
    && (forall k :: 0 <= k < |l.invoices| ==> SoundInvoice(l.invoices[k], l.nextId))
    && (forall j, k :: 0 <= j < k < |l.invoices| ==> l.invoices[j].id != l.invoices[k].id)
  }

  lemma RefundingIsSound(p: Payment, amount: int)
    requires Sound(p) && Refundable(p)
    requires 0 < amount <= Remaining(p)
    ensures Sound(Refunding(p, amount)) && RefundedOf(Refunding(p, amount)) == RefundedOf(p) + amount
  {
    SumAppend(p.refunds, [amount]);
    SumOne(amount);
    SumIsNotNegative(p.refunds);
  }

  lemma ManualIsSound(invoice: Invoice, p: Payment, nextId: nat)
    requires SoundInvoice(invoice, nextId) && (invoice.status.Sent? || invoice.status.Overdue?)
    requires p.id == nextId && p.status.Succeeded? && p.refunds == []
    ensures SoundInvoice(Settled(invoice.(payments := invoice.payments + [p])), nextId + 1)
  {
  }

  lemma RefundIsSound(invoice: Invoice, j: nat, amount: int, nextId: nat)
    requires SoundInvoice(invoice, nextId) && j < |invoice.payments|
    requires var p := invoice.payments[j];
      Refundable(p) && 0 < amount <= Remaining(p)
    ensures
      var after := invoice.(payments := invoice.payments[j := Refunding(invoice.payments[j], amount)]);
      && SoundInvoice(after, nextId)
      && PaidSoFar(after) == PaidSoFar(invoice) && RefundedSoFar(after) == RefundedSoFar(invoice) + amount
  {
    RefundingIsSound(invoice.payments[j], amount);
    PaymentsUpdate((p: Payment) => p.amount, invoice.payments, j, Refunding(invoice.payments[j], amount));
    PaymentsUpdate((p: Payment) => RefundedOf(p), invoice.payments, j, Refunding(invoice.payments[j], amount));
  }

  lemma ReplaceIsSound(l: Ledger, k: nat, invoice: Invoice, ids: nat)
    requires SoundLedger(l) && k < |l.invoices|
    requires invoice.id == l.invoices[k].id && SoundInvoice(invoice, l.nextId + ids)
    ensures SoundLedger(Replace(l, k, invoice, ids))
  {
  }

  lemma RefundsAreSound(l: Ledger, k: nat, j: nat, amount: int)
    requires SoundLedger(l) && k < |l.invoices| && j < |l.invoices[k].payments|
    requires Refundable(l.invoices[k].payments[j]) && 0 < amount <= Remaining(l.invoices[k].payments[j])
    ensures SoundLedger(Refunds(l, k, j, amount))
  {
    var invoice := l.invoices[k];
    var after := invoice.(payments := invoice.payments[j := Refunding(invoice.payments[j], amount)]);
    RefundIsSound(invoice, j, amount, l.nextId);
    assert SoundInvoice(Reversing(after), l.nextId + 1);
    ReplaceIsSound(l, k, Reversing(after), 1);
  }

  lemma CallKeepsSound(l: Ledger, c: Call)
    requires SoundLedger(l)
    ensures SoundLedger(Handle(l, c).0)
  {
    if c.Create? {
      return;
    }
    var found := FindInvoice(l.invoices, c.invoiceId);
    if found.None? {
      return;
    }
    var k, invoice := found.value, l.invoices[found.value];
    match c
    case Send(_) => ReplaceIsSound(l, k, invoice.(status := Sent), 0);
    case Void(_) => ReplaceIsSound(l, k, invoice.(status := Voided), 0);
    case Manual(_, method_, amount) =>
      if invoice.status.Sent? || invoice.status.Overdue? {
        var p := Payment(l.nextId, method_, amount, Succeeded, [], Undisputed);
        ManualIsSound(invoice, p, l.nextId);
        ReplaceIsSound(l, k, Settled(invoice.(payments := invoice.payments + [p])), 1);
      }
    case Refund(_, paymentId, bodyPaymentId, requested) =>
      var at := FindPayment(invoice.payments, paymentId);
      if at.Some? && Handle(l, c).1.Created? {
        var payment := invoice.payments[at.value];
        RefundsAreSound(l, k, at.value, if requested.Some? then requested.value else Remaining(payment));
      }
  }

  // Whatever the calls, and whatever the amounts in them.
  lemma {:induction false} RunKeepsSound(l: Ledger, cs: seq<Call>)
    requires SoundLedger(l)
    ensures SoundLedger(Run(l, cs))
  {
    if cs != [] {
      RunKeepsSound(l, cs[..|cs|-1]);
      CallKeepsSound(Run(l, cs[..|cs|-1]), cs[|cs|-1]);
    }
  }

  // ---- Money ----

  lemma NetIsATally(l: Ledger)
    ensures NetCollected(l) == Tally(NetOf(), l.invoices)
  {
    var c, r, n := CollectedOf(), RefundsOf(), NetOf();
    var cs := Map((i: Invoice) => Sum(Map(c, i.payments)), l.invoices);
    var rs := Map((i: Invoice) => Sum(Map(r, i.payments)), l.invoices);
    var ns := Map((i: Invoice) => Sum(Map(n, i.payments)), l.invoices);
    forall k | 0 <= k < |l.invoices|
      ensures ns[k] == cs[k] - rs[k]
    {
      var ps := l.invoices[k].payments;
      SumOfDifferences(Map(c, ps), Map(r, ps), Map(n, ps));
    }
    SumOfDifferences(cs, rs, ns);
  }

  lemma RefundsMoveTally(f: Payment -> int, l: Ledger, k: nat, j: nat, amount: int)
    requires k < |l.invoices| && j < |l.invoices[k].payments|
    ensures var p := l.invoices[k].payments[j];
      Tally(f, Refunds(l, k, j, amount).invoices) == Tally(f, l.invoices) - f(p) + f(Refunding(p, amount))
  {
    var invoice := l.invoices[k];
    var p := Refunding(invoice.payments[j], amount);
    TallyUpdate(f, l.invoices, k, Reversing(invoice.(payments := invoice.payments[j := p])));
    PaymentsUpdate(f, invoice.payments, j, p);
  }

  // A refund that is accepted takes exactly its amount off the net, and leaves the money
  // collected as it was.
  lemma RefundMovesMoney(l: Ledger, k: nat, j: nat, amount: int)
    requires SoundLedger(l) && k < |l.invoices| && j < |l.invoices[k].payments|
    requires Refundable(l.invoices[k].payments[j]) && 0 < amount <= Remaining(l.invoices[k].payments[j])
    ensures NetCollected(Refunds(l, k, j, amount)) == NetCollected(l) - amount
    ensures Tally(CollectedOf(), Refunds(l, k, j, amount).invoices) == Tally(CollectedOf(), l.invoices)
  {
    RefundingIsSound(l.invoices[k].payments[j], amount);
    RefundsMoveTally(CollectedOf(), l, k, j, amount);
    RefundsMoveTally(RefundsOf(), l, k, j, amount);
  }

  lemma ManualMovesTally(f: Payment -> int, l: Ledger, k: nat, method_: string, amount: int)
    requires k < |l.invoices| && RecordManual(l, k, method_, amount).1.Created?
    ensures Tally(f, RecordManual(l, k, method_, amount).0.invoices)
         == Tally(f, l.invoices) + f(Payment(l.nextId, method_, amount, Succeeded, [], Undisputed))
  {
    var invoice := l.invoices[k];
    var p := Payment(l.nextId, method_, amount, Succeeded, [], Undisputed);
    TallyUpdate(f, l.invoices, k, Settled(invoice.(payments := invoice.payments + [p])));
    PaymentsAppend(f, invoice.payments, p);
  }

  // What a call takes in: a manual payment its amount, a refund minus its amount, anything
  // refused or not about money nothing.
  function TakenIn(l: Ledger, c: Call): int {
    if !Handle(l, c).1.Created? then 0
    else
      match c
      case Manual(_, _, amount) => amount
      case Refund(_, _, _, Some(amount)) => -amount
      case Refund(invoiceId, paymentId, _, None) =>
        var k := FindInvoice(l.invoices, invoiceId).value;
        -Remaining(l.invoices[k].payments[FindPayment(l.invoices[k].payments, paymentId).value])
      case _ => 0
  }

  lemma MoneyIsConserved(l: Ledger, c: Call)
    requires SoundLedger(l)
    ensures NetCollected(Handle(l, c).0) == NetCollected(l) + TakenIn(l, c)
  {
    if c.Create? {
      TallyAppend(CollectedOf(), l.invoices, Invoice(l.nextId, Draft, c.amountTotal, [], false));
      TallyAppend(RefundsOf(), l.invoices, Invoice(l.nextId, Draft, c.amountTotal, [], false));
      return;
    }
    var found := FindInvoice(l.invoices, c.invoiceId);
    if found.None? {
      return;
    }
    var k, invoice := found.value, l.invoices[found.value];
    match c
    case Send(_) =>
      TallyUpdate(CollectedOf(), l.invoices, k, invoice.(status := Sent));
      TallyUpdate(RefundsOf(), l.invoices, k, invoice.(status := Sent));
    case Void(_) =>
      TallyUpdate(CollectedOf(), l.invoices, k, invoice.(status := Voided));
      TallyUpdate(RefundsOf(), l.invoices, k, invoice.(status := Voided));
    case Manual(_, method_, amount) =>
      if Handle(l, c).1.Created? {
        ManualMovesTally(CollectedOf(), l, k, method_, amount);
        ManualMovesTally(RefundsOf(), l, k, method_, amount);
      }
    case Refund(_, paymentId, _, requested) =>
      if Handle(l, c).1.Created? {
        var j := FindPayment(invoice.payments, paymentId).value;
        RefundMovesMoney(l, k, j, if requested.Some? then requested.value else Remaining(invoice.payments[j]));
      }
  }

  function TakenInBy(l: Ledger, cs: seq<Call>): int {
    if cs == [] then 0
    else TakenInBy(l, cs[..|cs|-1]) + TakenIn(Run(l, cs[..|cs|-1]), cs[|cs|-1])
  }

  // Over any run the reported net is what it was, plus what came in, minus what went out.
  lemma {:induction false} RunConservesMoney(l: Ledger, cs: seq<Call>)
    requires SoundLedger(l)
    ensures NetCollected(Run(l, cs)) == NetCollected(l) + TakenInBy(l, cs)
  {
    if cs != [] {
      RunConservesMoney(l, cs[..|cs|-1]);
      RunKeepsSound(l, cs[..|cs|-1]);
      MoneyIsConserved(Run(l, cs[..|cs|-1]), cs[|cs|-1]);
    }
  }

  // ---- Is the net ever negative? ----

  // The part of a collected payment no refund can give back.
  function FloorOf(): Payment -> int {
    (p: Payment) => if Counts(p) && p.amount < 0 then p.amount else 0
  }

  predicate NoNegativePayment(l: Ledger) {
    forall k, j :: 0 <= k < |l.invoices| && 0 <= j < |l.invoices[k].payments| && Counts(l.invoices[k].payments[j]) ==>
      l.invoices[k].payments[j].amount >= 0
  }

  predicate OnlyRefunds(cs: seq<Call>) { forall i :: 0 <= i < |cs| ==> cs[i].Refund? }

  lemma {:induction false} SumAtLeast(s: seq<int>, t: seq<int>)
    requires |s| == |t| && forall i :: 0 <= i < |s| ==> s[i] >= t[i]
    ensures Sum(s) >= Sum(t)
    ensures Sum(s) == Sum(t) <==> s == t
  {
    if s != [] {
      var n := |s| - 1;
      SumAtLeast(s[..n], t[..n]);
      assert s == s[..n] + [s[n]] && t == t[..n] + [t[n]];
    }
  }

  lemma TallyAtLeast(f: Payment -> int, g: Payment -> int, invoices: seq<Invoice>)
    requires forall k, j :: 0 <= k < |invoices| && 0 <= j < |invoices[k].payments| ==>
      f(invoices[k].payments[j]) >= g(invoices[k].payments[j])
    ensures Tally(f, invoices) >= Tally(g, invoices)
    ensures Tally(f, invoices) == Tally(g, invoices) <==>
      forall k, j :: 0 <= k < |invoices| && 0 <= j < |invoices[k].payments| ==>
        f(invoices[k].payments[j]) == g(invoices[k].payments[j])
  {
    var fs := Map((i: Invoice) => Sum(Map(f, i.payments)), invoices);
    var gs := Map((i: Invoice) => Sum(Map(g, i.payments)), invoices);
    forall k | 0 <= k < |invoices|
      ensures fs[k] >= gs[k]
      ensures fs[k] == gs[k] <==> forall j :: 0 <= j < |invoices[k].payments| ==>
        f(invoices[k].payments[j]) == g(invoices[k].payments[j])
    {
      var ps := invoices[k].payments;
      SumAtLeast(Map(f, ps), Map(g, ps));
      if Map(f, ps) == Map(g, ps) {
        forall j | 0 <= j < |ps|
          ensures f(ps[j]) == g(ps[j])
        {
          assert Map(f, ps)[j] == Map(g, ps)[j];
        }
      }
    }
    SumAtLeast(fs, gs);
    if fs == gs {
      forall k, j | 0 <= k < |invoices| && 0 <= j < |invoices[k].payments|
        ensures f(invoices[k].payments[j]) == g(invoices[k].payments[j])
      {
        assert fs[k] == gs[k];
      }
    }
  }

  // Something can still be given back.
  function OwedOf(): Payment -> int {
    (p: Payment) => if Refundable(p) && Remaining(p) > 0 then 1 else 0
  }

  lemma NetAboveFloor(l: Ledger)
    requires SoundLedger(l)
    ensures NetCollected(l) >= Tally(FloorOf(), l.invoices)
    ensures Tally(OwedOf(), l.invoices) >= 0
    ensures Tally(OwedOf(), l.invoices) == 0 ==> NetCollected(l) == Tally(FloorOf(), l.invoices)
  {
    NetIsATally(l);
    forall k, j | 0 <= k < |l.invoices| && 0 <= j < |l.invoices[k].payments|
      ensures var p := l.invoices[k].payments[j];
        NetOf()(p) >= FloorOf()(p) && OwedOf()(p) >= 0 && (OwedOf()(p) == 0 ==> NetOf()(p) == FloorOf()(p))
    {
      assert Sound(l.invoices[k].payments[j]);
    }
    TallyAtLeast(NetOf(), FloorOf(), l.invoices);
    TallyAtLeast(OwedOf(), (p: Payment) => 0, l.invoices);
    TallyOfZero(l.invoices);
  }

  lemma {:induction false} SumOfZeros(s: seq<int>)
    requires forall i :: 0 <= i < |s| ==> s[i] == 0
    ensures Sum(s) == 0
  {
    if s != [] {
      SumOfZeros(s[..|s|-1]);
    }
  }

  lemma TallyOfZero(invoices: seq<Invoice>)
    ensures Tally((p: Payment) => 0, invoices) == 0
  {
    var zero := (p: Payment) => 0;
    forall k | 0 <= k < |invoices|
      ensures Sum(Map(zero, invoices[k].payments)) == 0
    {
      SumOfZeros(Map(zero, invoices[k].payments));
    }
    SumOfZeros(Map((i: Invoice) => Sum(Map(zero, i.payments)), invoices));
  }

  lemma FloorIsZero(l: Ledger)
    ensures Tally(FloorOf(), l.invoices) <= 0
    ensures NoNegativePayment(l) <==> Tally(FloorOf(), l.invoices) == 0
  {
    TallyAtLeast((p: Payment) => 0, FloorOf(), l.invoices);
    TallyOfZero(l.invoices);
    if NoNegativePayment(l) {
      forall k, j | 0 <= k < |l.invoices| && 0 <= j < |l.invoices[k].payments|
        ensures FloorOf()(l.invoices[k].payments[j]) == 0
      {
      }
    } else {
      var k, j :| 0 <= k < |l.invoices| && 0 <= j < |l.invoices[k].payments| && Counts(l.invoices[k].payments[j]) &&
        l.invoices[k].payments[j].amount < 0;
      assert FloorOf()(l.invoices[k].payments[j]) != 0;
    }
  }

  // No refund moves the floor.
  lemma {:induction false} RefundsKeepFloor(l: Ledger, cs: seq<Call>)
    requires SoundLedger(l) && OnlyRefunds(cs)
    ensures SoundLedger(Run(l, cs)) && Tally(FloorOf(), Run(l, cs).invoices) == Tally(FloorOf(), l.invoices)
  {
    if cs != [] {
      var before, c := Run(l, cs[..|cs|-1]), cs[|cs|-1];
      RefundsKeepFloor(l, cs[..|cs|-1]);
      CallKeepsSound(before, c);
      if Handle(before, c).1.Created? {
        var k := FindInvoice(before.invoices, c.invoiceId).value;
        var j := FindPayment(before.invoices[k].payments, c.paymentId).value;
        var payment := before.invoices[k].payments[j];
        RefundsMoveTally(FloorOf(), before, k, j, if c.requested.Some? then c.requested.value else Remaining(payment));
      }
    }
  }

  lemma {:induction false} RunJoin(l: Ledger, c: Call, cs: seq<Call>)
    ensures Run(l, [c] + cs) == Run(Handle(l, c).0, cs)
  {
    if cs == [] {
      assert [c] + cs == [c] && [c][..0] == [];
    } else {
      RunJoin(l, c, cs[..|cs|-1]);
      assert ([c] + cs)[..|[c] + cs|-1] == [c] + cs[..|cs|-1];
    }
  }

  predicate Owed(l: Ledger, k: nat, j: nat) {
    && k < |l.invoices| && j < |l.invoices[k].payments|
    && Refundable(l.invoices[k].payments[j]) && Remaining(l.invoices[k].payments[j]) > 0
  }

  // The call that gives back what remains of a payment.
  lemma FullRefund(l: Ledger, k: nat, j: nat) returns (c: Call)
    requires SoundLedger(l) && k < |l.invoices| && j < |l.invoices[k].payments|
    requires Refundable(l.invoices[k].payments[j]) && Remaining(l.invoices[k].payments[j]) > 0
    ensures c.Refund? && Handle(l, c).0 == Refunds(l, k, j, Remaining(l.invoices[k].payments[j]))
    ensures SoundLedger(Handle(l, c).0)
    ensures Tally(OwedOf(), Handle(l, c).0.invoices) == Tally(OwedOf(), l.invoices) - 1
  {
    var p := l.invoices[k].payments[j];
    c := Refund(l.invoices[k].id, p.id, p.id, None);
    assert FindInvoice(l.invoices, l.invoices[k].id) == Some(k);
    assert FindPayment(l.invoices[k].payments, p.id) == Some(j);
    CallKeepsSound(l, c);
    RefundsMoveTally(OwedOf(), l, k, j, Remaining(p));
  }

  // Refunding everything that can be refunded brings the net down to the floor.
  lemma {:induction false} Drain(l: Ledger) returns (cs: seq<Call>)
    requires SoundLedger(l)
    ensures OnlyRefunds(cs) && NetCollected(Run(l, cs)) == Tally(FloorOf(), l.invoices)
    decreases Tally(OwedOf(), l.invoices)
  {
    NetAboveFloor(l);
    if k: nat, j: nat :| Owed(l, k, j) {
      var c := FullRefund(l, k, j);
      NetAboveFloor(Handle(l, c).0);
      var rest := Drain(Handle(l, c).0);
      RunJoin(l, c, rest);
      RefundsKeepFloor(l, [c]);
      RunJoin(l, c, []);
      cs := [c] + rest;
    } else {
      NothingOwed(l);
      cs := [];
    }
  }

  lemma NothingOwed(l: Ledger)
    requires SoundLedger(l) && forall k: nat, j: nat :: !Owed(l, k, j)
    ensures Tally(OwedOf(), l.invoices) <= 0
  {
    forall k, j | 0 <= k < |l.invoices| && 0 <= j < |l.invoices[k].payments|
      ensures OwedOf()(l.invoices[k].payments[j]) == 0
    {
      assert !Owed(l, k, j);
    }
    TallyAtLeast(OwedOf(), (p: Payment) => 0, l.invoices);
    TallyOfZero(l.invoices);
  }

  // The reported net can be refunded below zero exactly when a negative payment has been
  // recorded.
  lemma NetNeverNegative(l: Ledger)
    requires SoundLedger(l)
    ensures NoNegativePayment(l) <==> forall cs :: OnlyRefunds(cs) ==> NetCollected(Run(l, cs)) >= 0
  {
    FloorIsZero(l);
    if NoNegativePayment(l) {
      forall cs | OnlyRefunds(cs)
        ensures NetCollected(Run(l, cs)) >= 0
      {
        RefundsKeepFloor(l, cs);
        NetAboveFloor(Run(l, cs));
      }
    } else {
      var cs := Drain(l);
    }
  }

  // The ledger takes manual payments for an invoice it finds sent or overdue.
  predicate TakesManual(l: Ledger, invoiceId: nat) {
    var found := FindInvoice(l.invoices, invoiceId);
    found.Some? && (l.invoices[found.value].status.Sent? || l.invoices[found.value].status.Overdue?)
  }

  // And a call records one exactly when it is a manual payment of less than nothing for
  // such an invoice: the amount is not looked at.
  lemma NegativePaymentIsAccepted(l: Ledger, c: Call)
    requires SoundLedger(l) && NoNegativePayment(l)
    ensures NoNegativePayment(Handle(l, c).0) <==> !(c.Manual? && c.amount < 0 && TakesManual(l, c.invoiceId))
  {
    var after := Handle(l, c).0;
    FloorIsZero(l);
    FloorIsZero(after);
    if c.Create? {
      TallyAppend(FloorOf(), l.invoices, Invoice(l.nextId, Draft, c.amountTotal, [], false));
    } else if FindInvoice(l.invoices, c.invoiceId).Some? {
      var k := FindInvoice(l.invoices, c.invoiceId).value;
      match c
      case Send(_) => TallyUpdate(FloorOf(), l.invoices, k, l.invoices[k].(status := Sent));
      case Void(_) => TallyUpdate(FloorOf(), l.invoices, k, l.invoices[k].(status := Voided));
      case Manual(_, method_, amount) =>
        if Handle(l, c).1.Created? {
          ManualMovesTally(FloorOf(), l, k, method_, amount);
        }
      case Refund(_, _, _, _) =>
        RefundsKeepFloor(l, [c]);
        RunJoin(l, c, []);
    }
  }

  // Such a call, on an invoice just sent: the dashboard then reports five cents less than
  // nothing.
  lemma NetBelowZero()
    ensures
      var l := Ledger([Invoice(1, Sent, 100, [], false)], 2);
      var r := Handle(l, Manual(1, "zelle", -5));
      SoundLedger(l) && NetCollected(l) == 0 && r.1.Created? && NetCollected(r.0) == -5
  {
    var invoice := Invoice(1, Sent, 100, [], false);
    var l, c := Ledger([invoice], 2), Manual(1, "zelle", -5);
    assert FindInvoice(l.invoices, 1) == Some(0);
    assert SoundLedger(l);
    assert Map(CollectedOf(), invoice.payments) == [] && Map(RefundsOf(), invoice.payments) == [];
    assert Map((i: Invoice) => Sum(Map(CollectedOf(), i.payments)), l.invoices) == [0];
    assert Map((i: Invoice) => Sum(Map(RefundsOf(), i.payments)), l.invoices) == [0];
    SumOne(0);
    MoneyIsConserved(l, c);
  }

  // So, with no negative amount among the calls, the net is never negative.
  lemma {:induction false} RunKeepsNet(l: Ledger, cs: seq<Call>)
    requires SoundLedger(l) && NoNegativePayment(l)
    requires forall i :: 0 <= i < |cs| && cs[i].Manual? ==> cs[i].amount >= 0
    ensures SoundLedger(Run(l, cs)) && NoNegativePayment(Run(l, cs)) && NetCollected(Run(l, cs)) >= 0
  {
    RunKeepsSound(l, cs);
    if cs != [] {
      RunKeepsNet(l, cs[..|cs|-1]);
      NegativePaymentIsAccepted(Run(l, cs[..|cs|-1]), cs[|cs|-1]);
    }
    FloorIsZero(Run(l, cs));
    NetAboveFloor(Run(l, cs));
  }
}
