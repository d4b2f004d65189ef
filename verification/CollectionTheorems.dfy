// The collection protocol's promises, over every run of its steps.
module CollectionTheorems {
  import opened Options
  import opened Collection
  import opened CollectionProofs

  lemma {:induction false} RunAppend(w: World, a: seq<Op>, b: seq<Op>)
    ensures Run(w, a + b) == Run(Run(w, a), b)
  {
    if b == [] {
      assert a + b == a;
    } else {
      assert (a + b)[..|a + b|-1] == a + b[..|b|-1];
      RunAppend(w, a, b[..|b|-1]);
    }
  }

  // ---- One card charge per invoice ----

  // In every run at most one intent is ever confirmed, it is the one the webhook
  // looks up, and everything else a customer still holds is dead.
  lemma AtMostOneCharge(w: World, ops: seq<Op>, i: nat, j: nat)
    requires Inv(w)
    ensures var v := Run(w, ops);
      && (i < |v.intents| && j < |v.intents| && v.intents[i].status.Confirmed? && v.intents[j].status.Confirmed? ==>
            i == j && v.current == Some(i))
      && (i < |v.intents| && v.intents[i].handedOut && v.current != Some(i) ==> v.intents[i].status.Canceled?)
  {
    RunKeeps(w, ops);
  }

  // Once charged, the invoice keeps naming that intent whatever happens next, so no
  // later delivery about it can miss.
  lemma ChargedIntentStaysCurrent(w: World, ops: seq<Op>, i: nat)
    requires Inv(w) && i < |w.intents| && w.intents[i].status.Confirmed?
    ensures Run(w, ops).current == Some(i)
  {
    RunKeeps(w, ops);
    var v := Run(w, ops);
    assert IntentLater(w.intents[i], v.intents[i]);
  }

  // A delivered success always ends up as a succeeded row of the charged amount:
  // either it was there, or it is added, or the failed row is turned. Whatever the
  // table then holds, the invoice is paid if covered and flagged if it must be.
  lemma ChargeIsRecorded(w: World, d: Delivery)
    requires Inv(w) && Authentic(w, d) && d.success
    ensures var v := Webhook(w, d); var k := IndexOf(v.payments, StripeIntent(d.intent));
      && k < |v.payments| && v.payments[k].status.Succeeded? && v.payments[k].amount == w.intents[d.intent].amount
      && Quiescent(v) && (HasPending(w.payments) ==> v.needsReview)
  {
    var k := IndexOf(w.payments, StripeIntent(d.intent));
    if k < |w.payments| {
      assert RowOk(w, w.payments[k]);
      TurnRow(w, k, d);
    } else {
      AddRow(w, d);
    }
  }

  lemma TurnRow(w: World, k: nat, d: Delivery)
    requires RowInv(w) && k < |w.payments| && w.payments[k].reference == StripeIntent(d.intent)
    ensures var v := AfterSuccess(SetStatus(w, k, Succeeded), d.now);
      && Quiescent(v) && (HasPending(w.payments) ==> v.needsReview)
      && v.payments == w.payments[k := w.payments[k].(status := Succeeded)]
      && IndexOf(v.payments, StripeIntent(d.intent)) == k
  {
    var u := SetStatus(w, k, Succeeded);
    AfterSuccessQuiescent(u, d.now);
    assert RowOk(w, w.payments[k]);
    PendingElsewhere(w.payments, u.payments, k);
    forall i, j | 0 <= i < j < |u.payments| ensures Apart(u.payments[i], u.payments[j]) {
      assert Apart(w.payments[i], w.payments[j]);
    }
    IndexFound(u.payments, k);
  }

  lemma AddRow(w: World, d: Delivery)
    requires IndexOf(w.payments, StripeIntent(d.intent)) == |w.payments|
    ensures var v := AfterSuccess(Insert(w, Receipt(d, Succeeded)), d.now);
      && Quiescent(v) && (HasPending(w.payments) ==> v.needsReview)
      && v.payments == w.payments + [Receipt(d, Succeeded)]
      && IndexOf(v.payments, StripeIntent(d.intent)) == |w.payments|
  {
    var u := Insert(w, Receipt(d, Succeeded));
    AfterSuccessQuiescent(u, d.now);
    PendingElsewhere(w.payments, u.payments, |w.payments|);
    IndexAtEnd(w.payments, Receipt(d, Succeeded));
  }

  lemma PendingElsewhere(ps: seq<Payment>, qs: seq<Payment>, k: nat)
    requires k < |qs| && |ps| <= |qs| <= |ps| + 1
    requires forall i :: 0 <= i < |ps| && i != k ==> ps[i] == qs[i]
    requires k < |ps| ==> !ps[k].status.Pending?
    ensures HasPending(ps) ==> HasPending(qs)
  {
    if HasPending(ps) {
      var i :| 0 <= i < |ps| && ps[i].status.Pending?;
      assert qs[i].status.Pending?;
    }
  }

  // A secret given out is for the intent the invoice now names, and that intent bills
  // exactly what is still due.
  lemma SecretBillsAmountDue(w: World, p: PayScript)
    requires Inv(w)
    ensures var (v, r) := PayInvoice(w, p);
      r.Secret? ==> v.current == Some(r.intent) && r.intent < |v.intents| && v.intents[r.intent].handedOut
                    && v.intents[r.intent].amount == AmountDue(v) > 0
  {
    PayKeeps(w, p);
    var due := AmountDue(w);
    if Payable(w) && !HasPending(w.payments) && due > 0 && p.configured {
      if w.current.None? {
        CreateBills(w, due, p);
      } else {
        var id := w.current.value;
        EnvRunKeeps(w, p.beforeRetrieve);
        var w1 := EnvRun(w, p.beforeRetrieve);
        EnvRunKeeps(w1, p.beforeCommit);
        assert IntentLater(w1.intents[id], EnvRun(w1, p.beforeCommit).intents[id]);
        CreateBills(w1, due, p);
        ReplaceBills(w1, id, due, p);
      }
    }
  }

  lemma ReplaceBills(w: World, id: nat, due: int, p: PayScript)
    requires Inv(w) && due > 0 && w.current == Some(id)
    ensures var (v, r) := ReplaceIntent(w, id, due, p);
      r.Secret? ==> v.current == Some(r.intent) && r.intent < |v.intents| && v.intents[r.intent].amount == due
  {
    EnvRunKeeps(w, p.beforeCancel);
    var w1 := EnvRun(w, p.beforeCancel);
    if w1.intents[id].status.Live? {
      IntentStep(w1, CancelIntent(w1, id), id);
      CreateBills(CancelIntent(w1, id), due, p);
    }
  }

  lemma CreateBills(w: World, due: int, p: PayScript)
    requires Inv(w) && due > 0
    ensures var (v, r) := CreateIntent(w, due, p);
      r.Secret? ==> v.current == Some(r.intent) && r.intent < |v.intents| && v.intents[r.intent].amount == due
  {
    EnvRunKeeps(w, p.beforeCreate);
    var w1 := EnvRun(w, p.beforeCreate);
    AppendIntent(w1, due);
    var w2 := w1.(intents := w1.intents + [Intent(due, Live, false)]);
    EnvRunKeeps(w2, p.beforeCommit);
    assert IntentLater(w2.intents[|w1.intents|], EnvRun(w2, p.beforeCommit).intents[|w1.intents|]);
  }

  // PayPal is offered, for exactly what is due, only when every card intent a customer
  // holds is already dead: the two providers are never open side by side.
  lemma OrderOnlyWithoutLiveCard(w: World, p: PayScript, i: nat)
    requires Inv(w)
    ensures var (v, r) := StartPayPal(w, p);
      r.OrderOffered? ==>
        && r.amount == AmountDue(v) > 0
        && (i < |v.intents| && v.intents[i].handedOut ==> v.intents[i].status.Canceled?)
  {
    StartKeeps(w, p);
    var v := StartPayPal(w, p).0;
    if w.current.Some? {
      EnvRunKeeps(w, p.beforeRetrieve);
      var w1 := EnvRun(w, p.beforeRetrieve);
      EnvRunKeeps(w1, p.beforeCreate);
      var id := w.current.value;
      assert IntentLater(w1.intents[id], EnvRun(w1, p.beforeCreate).intents[id]);
    } else {
      EnvRunKeeps(w, p.beforeCreate);
    }
  }

  // ---- Overpayment never goes unnoticed ----

  // No step of the run is the one that escapes the flag (see StepKeeps for why
  // exactly that step does).
  predicate NoUnflaggedOverpayment(w: World, ops: seq<Op>) {
    forall i :: 0 <= i < |ops| ==> !UnflaggedOverpayment(Run(w, ops[..i]), ops[i])
  }

  lemma {:induction false} OverpaymentIsFlagged(w: World, ops: seq<Op>)
    requires Inv(w) && FlagSound(w) && NoUnflaggedOverpayment(w, ops)
    ensures FlagSound(Run(w, ops))
  {
    if ops != [] {
      var pre := ops[..|ops|-1];
      forall i | 0 <= i < |pre| ensures !UnflaggedOverpayment(Run(w, pre[..i]), pre[i]) {
        assert pre[..i] == ops[..i] && !UnflaggedOverpayment(Run(w, ops[..i]), ops[i]);
      }
      OverpaymentIsFlagged(w, pre);
      RunKeeps(w, pre);
      StepKeeps(Run(w, pre), ops[|ops|-1]);
    }
  }

  function FreshInvoice(total: int): World {
    World(total, Sent, None, false, None, [], [], [], map[], 0)
  }

  // The escape is real: 150 recorded by hand against a total of 100.
  lemma ManualOverpaymentEscapes()
    ensures Inv(FreshInvoice(100))
    ensures var v := Run(FreshInvoice(100), [RecordManual(150, 0)]);
      PaidSoFar(v.payments) == 150 && v.status.Paid? && !v.needsReview
  {
    FreshIsSound(100);
    RunOne(FreshInvoice(100), RecordManual(150, 0));
    PaidByHandOnce(100, 150, 0);
  }

  lemma FreshIsSound(total: int)
    requires total > 0
    ensures Inv(FreshInvoice(total)) && PaidUp(FreshInvoice(total)) && !HasPending(FreshInvoice(total).payments)
    ensures AmountDue(FreshInvoice(total)) == total
  {
  }

  lemma RunOne(w: World, op: Op)
    ensures Run(w, [op]) == Step(w, op).0
  {
    assert [op][..0] == [];
  }

  function ReceivedByHand(amount: int): Payment { Payment(ByHand, amount, Succeeded, None, None) }

  lemma PaidByHandOnce(total: int, amount: int, now: nat)
    requires 0 < total <= amount
    ensures PaidSoFar([ReceivedByHand(amount)]) == amount
    ensures ManualPayment(FreshInvoice(total), amount, now).0
         == FreshInvoice(total).(status := Paid, paidAt := Some(now), payments := [ReceivedByHand(amount)])
  {
    var row := ReceivedByHand(amount);
    PaidAppend([], row);
    assert [] + [row] == [row];
  }

  // A Stripe success that lands while a PayPal capture is under review leaves the
  // invoice flagged for good.
  lemma RaceIsFlagged(w: World, before: seq<Op>, d: Delivery, after: seq<Op>)
    requires Inv(w)
    requires Authentic(Run(w, before), d) && d.success && HasPending(Run(w, before).payments)
    ensures Run(w, before + [Deliver(d)] + after).needsReview
  {
    var u := Run(w, before);
    RunKeeps(w, before);
    ChargeIsRecorded(u, d);
    RunAppend(w, before, [Deliver(d)]);
    assert [Deliver(d)][..0] == [] && Run(u, []) == u;
    var v := Webhook(u, d);
    assert Run(u, [Deliver(d)]) == v;
    WebhookKeeps(u, d);
    RunAppend(w, before + [Deliver(d)], after);
    RunKeeps(v, after);
  }

  // ---- Duplicated and reordered webhooks ----

  function Deliveries(w: World, ds: seq<Delivery>): World {
    if ds == [] then w else Webhook(Deliveries(w, ds[..|ds|-1]), ds[|ds|-1])
  }

  predicate About(d: Delivery, id: nat, amount: int) { d.intent == id && d.amount == amount }

  function Receipt(d: Delivery, s: PaymentStatus): Payment {
    Payment(StripeIntent(d.intent), d.amount, s, d.charge, if d.success then d.zip else None)
  }

  predicate EqualButReceipt(a: World, b: World, k: nat) {
    && k < |a.payments| && k < |b.payments|
    && a == b.(payments := b.payments[k := b.payments[k].(charge := a.payments[k].charge, zip := a.payments[k].zip)])
  }

  // Nothing left to do about the money in the table.
  predicate Quiescent(w: World) {
    && (HasPending(w.payments) ==> w.needsReview) && FlagSound(w)
    && (PaidSoFar(w.payments) >= w.total ==> w.status.Paid?)
  }

  lemma Absorbed(w: World, d: Delivery)
    requires Quiescent(w)
    requires var k := IndexOf(w.payments, StripeIntent(d.intent)); k < |w.payments| && w.payments[k].status.Succeeded?
    ensures Webhook(w, d) == w
  {
    var k := IndexOf(w.payments, StripeIntent(d.intent));
    assert w.payments[k := w.payments[k].(status := Succeeded)] == w.payments;
  }

  lemma AfterSuccessQuiescent(w: World, now: nat)
    ensures Quiescent(AfterSuccess(w, now)) && AfterSuccess(w, now).payments == w.payments
  {
  }

  // Settling and flagging look at the table only through its sum and its pending rows.
  lemma AfterSuccessSees(u: World, v: World, now: nat)
    requires u == v.(payments := u.payments)
    requires PaidSoFar(u.payments) == PaidSoFar(v.payments) && HasPending(u.payments) == HasPending(v.payments)
    ensures AfterSuccess(u, now) == AfterSuccess(v, now).(payments := u.payments)
  {
  }

  lemma IndexAtEnd(ps: seq<Payment>, p: Payment)
    requires IndexOf(ps, p.reference) == |ps|
    ensures IndexOf(ps + [p], p.reference) == |ps|
  {
    assert (ps + [p])[..|ps|] == ps;
  }

  lemma {:induction false} OnlyFailures(w: World, id: nat, amount: int, ds: seq<Delivery>)
    requires Unrecorded(w, id) && amount > 0
    requires forall d :: d in ds ==> About(d, id, amount) && !d.success
    ensures Deliveries(w, ds) == if ds == [] then w else Insert(w, Receipt(ds[0], Failed))
  {
    if ds != [] {
      var pre := ds[..|ds|-1];
      OnlyFailures(w, id, amount, pre);
      if pre != [] {
        var u := Insert(w, Receipt(ds[0], Failed));
        IndexAtEnd(w.payments, Receipt(ds[0], Failed));
        assert About(ds[0], id, amount);
        var k := |w.payments|;
        assert u.payments[k := u.payments[k].(status := Failed)] == u.payments;
      }
    }
  }

  lemma PendingAppend(ps: seq<Payment>, p: Payment)
    requires !p.status.Pending?
    ensures HasPending(ps + [p]) == HasPending(ps)
  {
    if HasPending(ps) {
      var i :| 0 <= i < |ps| && ps[i].status.Pending?;
      assert (ps + [p])[i].status.Pending?;
    }
  }

  // A failed row turned by a success: as if the success had come alone.
  lemma FailureThenSuccess(w: World, e: Delivery, d: Delivery)
    requires IndexOf(w.payments, StripeIntent(d.intent)) == |w.payments|
    requires e.intent == d.intent && e.amount == d.amount && !e.success && d.success
    ensures var u := SetStatus(Insert(w, Receipt(e, Failed)), |w.payments|, Succeeded);
      EqualButReceipt(AfterSuccess(u, d.now), AfterSuccess(Insert(w, Receipt(d, Succeeded)), d.now), |w.payments|)
  {
    var k, row := |w.payments|, Receipt(e, Failed).(status := Succeeded);
    var u, alone := SetStatus(Insert(w, Receipt(e, Failed)), k, Succeeded), Insert(w, Receipt(d, Succeeded));
    assert u.payments == w.payments + [row];
    PaidAppend(w.payments, row);
    PaidAppend(w.payments, Receipt(d, Succeeded));
    PendingAppend(w.payments, row);
    PendingAppend(w.payments, Receipt(d, Succeeded));
    AfterSuccessSees(u, alone, d.now);
    AfterSuccessQuiescent(alone, d.now);
    assert u.payments == alone.payments[k := alone.payments[k].(charge := row.charge, zip := row.zip)];
  }

  // The first success, after failures only, has the effect it would have had alone.
  lemma FirstSuccess(w: World, id: nat, amount: int, ds: seq<Delivery>, d: Delivery)
    requires Unrecorded(w, id) && amount > 0
    requires forall e :: e in ds ==> About(e, id, amount) && !e.success
    requires About(d, id, amount) && d.success
    ensures EqualButReceipt(Webhook(Deliveries(w, ds), d), Webhook(w, d), |w.payments|)
    ensures OneReceipt(w, Webhook(Deliveries(w, ds), d), id, amount)
  {
    if ds == [] {
      SuccessAlone(w, id, amount, d);
    } else {
      OnlyFailures(w, id, amount, ds);
      assert About(ds[0], id, amount);
      SuccessAfterFailure(w, id, amount, ds[0], d);
    }
  }

  lemma SuccessAlone(w: World, id: nat, amount: int, d: Delivery)
    requires Unrecorded(w, id) && amount > 0 && About(d, id, amount) && d.success
    ensures EqualButReceipt(Webhook(w, d), Webhook(w, d), |w.payments|)
    ensures OneReceipt(w, Webhook(w, d), id, amount)
  {
    AddRow(w, d);
  }

  lemma SuccessAfterFailure(w: World, id: nat, amount: int, e: Delivery, d: Delivery)
    requires Unrecorded(w, id) && amount > 0
    requires About(e, id, amount) && !e.success && About(d, id, amount) && d.success
    ensures var v := Webhook(Insert(w, Receipt(e, Failed)), d);
      EqualButReceipt(v, Webhook(w, d), |w.payments|) && OneReceipt(w, v, id, amount)
  {
    var row := Receipt(e, Failed).(status := Succeeded);
    var u := SetStatus(Insert(w, Receipt(e, Failed)), |w.payments|, Succeeded);
    IndexAtEnd(w.payments, Receipt(e, Failed));
    FailureThenSuccess(w, e, d);
    AfterSuccessQuiescent(u, d.now);
    assert u.payments == w.payments + [row];
    IndexAtEnd(w.payments, row);
  }

  predicate Unrecorded(w: World, id: nat) {
    w.current == Some(id) && IndexOf(w.payments, StripeIntent(id)) == |w.payments|
  }

  // v is w with exactly one more row: the succeeded payment of this intent.
  predicate OneReceipt(w: World, v: World, id: nat, amount: int) {
    && Quiescent(v) && v.current == w.current
    && |v.payments| == |w.payments| + 1 && v.payments[..|w.payments|] == w.payments
    && IndexOf(v.payments, StripeIntent(id)) == |w.payments|
    && v.payments[|w.payments|].status.Succeeded? && v.payments[|w.payments|].amount == amount
  }

  // However often and in whatever order Stripe delivers the events of one intent,
  // once a success is among them the result is that of the first success alone, up to
  // the charge id and postal code kept on the row: one succeeded row of the amount.
  lemma {:induction false} DeliveriesCollapse(w: World, id: nat, amount: int, ds: seq<Delivery>, f: nat)
    requires Unrecorded(w, id) && amount > 0
    requires forall d :: d in ds ==> About(d, id, amount)
    requires f < |ds| && ds[f].success && forall i :: 0 <= i < f ==> !ds[i].success
    ensures EqualButReceipt(Deliveries(w, ds), Webhook(w, ds[f]), |w.payments|)
    ensures OneReceipt(w, Deliveries(w, ds), id, amount)
  {
    var pre, last := ds[..|ds|-1], ds[|ds|-1];
    assert About(last, id, amount);
    if f == |ds| - 1 {
      FirstSuccess(w, id, amount, pre, last);
    } else {
      assert pre[f] == ds[f];
      DeliveriesCollapse(w, id, amount, pre, f);
      Absorbed(Deliveries(w, pre), last);
    }
  }
}
