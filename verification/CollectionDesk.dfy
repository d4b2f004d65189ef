// The invoice as the routes, the webhook and the scheduler update it in place.
module CollectionDesk {
  import opened Options
  import opened Collection

  class InvoiceDesk {
    const total: int
    var status: InvoiceStatus
    var paidAt: Option<nat>
    var needsReview: bool
    var current: Option<nat>
    var payments: seq<Payment>
    var intents: seq<Intent>
    var captures: seq<nat>
    var paypal: map<nat, Captured>    // kept by PayPal
    var jobs: nat                     // kept by the overdue jobs

    function Now(): World
      reads this
    {
      World(total, status, paidAt, needsReview, current, payments, intents, captures, paypal, jobs)
    }

    // A freshly sent invoice, nothing collected yet.
    constructor (amount: int)
      ensures Now() == World(amount, Sent, None, false, None, [], [], [], map[], 0)
    {
      total, status, paidAt, needsReview := amount, Sent, None, false;
      current, payments, intents, captures, paypal, jobs := None, [], [], [], map[], 0;
    }

    // A provider call is awaited: the outside world runs.
    method Await(es: seq<Env>)
      modifies this
      ensures Now() == EnvRun(old(Now()), es)
    {
      var i := 0;
      while i < |es|
        invariant i <= |es|
        invariant Now() == EnvRun(old(Now()), es[..i])
      {
        assert es[..i+1][..i] == es[..i];
        match es[i] {
          case Confirm(n) =>
            if n < |intents| && intents[n].status.Live? && intents[n].handedOut {
              intents := intents[n := intents[n].(status := Confirmed)];
            }
          case Expire(n) =>
            if n < |intents| && intents[n].status.Live? {
              intents := intents[n := intents[n].(status := Canceled)];
            }
          case ReviewDeclined(o) =>
            var k := FindRow(PayPalOrder(o));
            if k < |payments| && payments[k].status.Pending? {
              payments := payments[k := payments[k].(status := Failed)];
            }
        }
        i := i + 1;
      }
      assert es[..i] == es;
    }

    method FindRow(r: Reference) returns (k: nat)
      ensures k == IndexOf(payments, r)
    {
      k := 0;
      while k < |payments| && payments[k].reference != r
        invariant k <= |payments|
        invariant forall i :: 0 <= i < k ==> payments[i].reference != r
      {
        k := k + 1;
      }
    }

    method IsPending() returns (b: bool)
      ensures b == HasPending(payments)
    {
      b := false;
      for i := 0 to |payments|
        invariant b == exists j :: 0 <= j < i && payments[j].status.Pending?
      {
        b := b || payments[i].status.Pending?;
      }
    }

    method GetPaidSoFar() returns (paid: int)
      ensures paid == PaidSoFar(payments)
    {
      paid := 0;
      for i := 0 to |payments|
        invariant paid == PaidSoFar(payments[..i])
      {
        assert payments[..i+1][..i] == payments[..i];
        if payments[i].status.Succeeded? { paid := paid + payments[i].amount; }
      }
      assert payments[..|payments|] == payments;
    }

    method GetAmountDue() returns (due: int)
      ensures due == AmountDue(Now())
    {
      var paid := GetPaidSoFar();
      due := if total - paid > 0 then total - paid else 0;
    }

    method FlagNeedsReview()
      modifies this`needsReview
      ensures Now() == Flag(old(Now()))
    {
      needsReview := true;
    }

    method SettleIfPaid(now: nat) returns (settled: bool)
      modifies this`status, this`paidAt
      ensures Now() == Settle(old(Now()), now)
      ensures settled <==> !old(status).Paid? && status.Paid?
    {
      if status.Paid? { return false; }
      var paid := GetPaidSoFar();
      if paid >= total {
        status, paidAt := Paid, Some(now);
        return true;
      }
      return false;
    }

    method CreateIntent(due: int, p: PayScript) returns (r: Response)
      modifies this
      ensures (Now(), r) == Collection.CreateIntent(old(Now()), due, p)
    {
      Await(p.beforeCreate);
      if p.create.Down? { return Refused(ProviderDown); }
      var id := |intents|;
      intents := intents + [Intent(due, Live, false)];
      if p.create.Lost? { return Refused(ProviderDown); }
      Await(p.beforeCommit);
      if !p.commits { return Refused(ServerError); }
      if id < |intents| {
        current := Some(id);
        intents := intents[id := intents[id].(handedOut := true)];
      }
      return Secret(id);
    }

    method PayInvoice(p: PayScript) returns (r: Response)
      modifies this
      ensures (Now(), r) == Collection.PayInvoice(old(Now()), p)
    {
      if !status.Sent? && !status.Overdue? { return Refused(NotPayable); }
      var pending := IsPending();
      if pending { return Refused(UnderReview); }
      var due := GetAmountDue();
      if due <= 0 { return Refused(AlreadyCovered); }
      if !p.configured { return Refused(NotConfigured); }
      if current.Some? {
        var id := current.value;
        Await(p.beforeRetrieve);
        if !p.retrieve.Answered? || id >= |intents| { return Refused(ProviderDown); }
        var seen := intents[id];
        if seen.status.Confirmed? { return Refused(AlreadyPaid); }
        if !seen.status.Canceled? {
          if seen.amount == due {
            Await(p.beforeCommit);
            return Secret(id);
          }
          Await(p.beforeCancel);
          if p.cancel.Down? || id >= |intents| || !intents[id].status.Live? { return Refused(ProviderDown); }
          intents := intents[id := intents[id].(status := Canceled)];
          if p.cancel.Lost? { return Refused(ProviderDown); }
        }
      }
      r := CreateIntent(due, p);
    }

    method PayViaPayPal(p: PayScript) returns (r: Response)
      modifies this
      ensures (Now(), r) == StartPayPal(old(Now()), p)
    {
      if !status.Sent? && !status.Overdue? { return Refused(NotPayable); }
      var pending := IsPending();
      if pending { return Refused(UnderReview); }
      var due := GetAmountDue();
      if due <= 0 { return Refused(AlreadyCovered); }
      if current.Some? {
        var id := current.value;
        Await(p.beforeRetrieve);
        if !p.retrieve.Answered? || id >= |intents| { return Refused(ProviderDown); }
        if intents[id].status.Confirmed? { return Refused(AlreadyPaid); }
        if !intents[id].status.Canceled? { return Refused(CardInProgress); }
      }
      if !p.configured { return Refused(NotConfigured); }
      Await(p.beforeCreate);
      return if p.create.Answered? then OrderOffered(due) else Refused(ProviderDown);
    }

    // INSERT into payments; false when a constraint of the table refuses the row.
    method AddPayment(p: Payment) returns (ok: bool)
      modifies this`payments
      ensures ok == Insertable(old(payments), p)
      ensures Now() == if ok then Insert(old(Now()), p) else old(Now())
    {
      var k := FindRow(p.reference);
      ok := p.amount > 0 && (p.reference.ByHand? || k == |payments|);
      if ok { payments := payments + [p]; }
    }

    method CaptureOrder(c: CaptureScript) returns (r: Response)
      modifies this
      ensures (Now(), r) == Collection.CaptureOrder(old(Now()), c)
    {
      var k := FindRow(PayPalOrder(c.order));
      if k < |payments| && payments[k].status.Succeeded? { return CapturedOk; }
      if k < |payments| && payments[k].status.Pending? { return CapturePending; }
      if k < |payments| { return Refused(AttemptFailed); }
      var pending := IsPending();
      if pending { return Refused(UnderReview); }
      if !status.Sent? && !status.Overdue? { return Refused(NotPayable); }
      Await(c.during);
      var answer := AskPayPal(c);
      if !c.net.Answered? { return Refused(ProviderDown); }
      r := Record(c, answer);
    }

    // The call of paypal.capture_order, under the order's idempotency key: an order captured
    // before is answered as it was then, or looked up anew.
    method AskPayPal(c: CaptureScript) returns (answer: Captured)
      modifies this`captures, this`paypal
      ensures answer == AnswerOf(old(Now()), c) && Now() == CallPayPal(old(Now()), c)
    {
      if c.order in paypal {
        answer := paypal[c.order];
        if answer.status.PENDING? && c.review.Some? { answer := answer.(status := c.review.value); }
      } else {
        answer := c.first;
      }
      captures := captures + [c.order];
      if !c.net.Down? { paypal := paypal[c.order := answer]; }
    }

    method Record(c: CaptureScript, answer: Captured) returns (r: Response)
      modifies this
      ensures (Now(), r) == RecordCapture(old(Now()), c, answer)
    {
      if !answer.ours { return Refused(WrongInvoice); }
      if answer.status.DECLINED? { return Refused(NotCompleted); }
      if !answer.sameCurrency { return Refused(WrongCurrency); }
      if !c.commits { return Refused(ServerError); }
      if answer.status.PENDING? {
        var ok := AddPayment(Payment(PayPalOrder(c.order), answer.amount, Pending, None, None));
        return if ok then CapturePending else Refused(ServerError);
      }
      var expected := GetAmountDue();
      var overpaid := expected <= 0 || answer.amount != expected;
      var ok := AddPayment(Payment(PayPalOrder(c.order), answer.amount, Succeeded, None, None));
      if !ok { return Refused(ServerError); }
      if overpaid { FlagNeedsReview(); }
      var settled := SettleIfPaid(c.now);
      return CapturedOk;
    }

    method SettleStripeSuccess(now: nat)
      modifies this`needsReview, this`status, this`paidAt
      ensures Now() == AfterSuccess(old(Now()), now)
    {
      var pending := IsPending();
      if pending { FlagNeedsReview(); }
      var settled := SettleIfPaid(now);
      var paid := GetPaidSoFar();
      if paid > total { FlagNeedsReview(); }
    }

    method HandlePaymentIntentEvent(d: Delivery)
      modifies this
      ensures Now() == Webhook(old(Now()), d)
    {
      if current != Some(d.intent) { return; }
      var k := FindRow(StripeIntent(d.intent));
      if k < |payments| {
        if !d.success && payments[k].status.Succeeded? { return; }
        payments := payments[k := payments[k].(status := if d.success then Succeeded else Failed)];
        if d.success { SettleStripeSuccess(d.now); }
        return;
      }
      var ok := AddPayment(Payment(StripeIntent(d.intent), d.amount, if d.success then Succeeded else Failed,
                                   d.charge, if d.success then d.zip else None));
      if ok && d.success { SettleStripeSuccess(d.now); }
    }

    method ReconcilePendingCapture(order: nat, v: Verdict, now: nat)
      modifies this
      ensures Now() == ReconcileOrder(old(Now()), order, v, now)
    {
      var k := FindRow(PayPalOrder(order));
      if k == |payments| || !payments[k].status.Pending? || v.StatusError? || v.StillPending? { return; }
      if v.Declined? {
        payments := payments[k := payments[k].(status := Failed)];
        return;
      }
      payments := payments[k := payments[k].(status := Succeeded)];
      var paid := GetPaidSoFar();
      if paid > total { FlagNeedsReview(); }
      var settled := SettleIfPaid(now);
    }

    method RecordManualPayment(amount: int, now: nat) returns (r: Response)
      modifies this
      ensures (Now(), r) == ManualPayment(old(Now()), amount, now)
    {
      if amount <= 0 { return Refused(InvalidAmount); }
      if !status.Sent? && !status.Overdue? { return Refused(NotPayable); }
      var pending := IsPending();
      if pending { return Refused(UnderReview); }
      payments := payments + [Payment(ByHand, amount, Succeeded, None, None)];
      var settled := SettleIfPaid(now);
      return Done;
    }

    method Void() returns (r: Response)
      modifies this
      ensures (Now(), r) == Step(old(Now()), VoidInvoice)
    {
      if !status.Sent? && !status.Overdue? { return Refused(NotPayable); }
      status := InvoiceStatus.Void;
      return Done;
    }

    // mark_overdue_invoices: the SELECT takes no lock, the UPDATE is by primary key.
    method FindOverdue(pastDue: bool) returns (found: bool)
      modifies this`jobs
      ensures Now() == ReadSent(old(Now()), pastDue)
      ensures found <==> jobs == old(jobs) + 1
    {
      found := status.Sent? && pastDue;
      if found { jobs := jobs + 1; }
    }

    method WriteOverdue(commits: bool)
      requires jobs > 0
      modifies this`jobs, this`status
      ensures Now() == MarkOverdue(old(Now()), commits)
    {
      jobs := jobs - 1;
      if commits { status := Overdue; }
    }
  }
}
