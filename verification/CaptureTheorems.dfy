// PayPal orders: asked for once, recorded once, and what becomes of captured money, over
// every run of the collection protocol.
module CaptureTheorems {
  import opened Options
  import opened Collection
  import opened CollectionProofs
  import opened CollectionTheorems

  // ---- PayPal orders ----

  // What the route answers for an order already in the table.
  function RecordedAnswer(p: Payment): Response {
    match p.status
    case Succeeded => CapturedOk
    case Pending => CapturePending
    case Failed => Refused(AttemptFailed)
  }

  function CallsFor(log: seq<nat>, order: nat): nat {
    if log == [] then 0 else CallsFor(log[..|log|-1], order) + if log[|log|-1] == order then 1 else 0
  }

  // Once an order is in the table, in whatever state, PayPal is never asked to
  // capture it again; every retry changes nothing and is answered from the row, and
  // an answer of captured or failed is final.
  lemma {:induction false} RecordedOrderIsFinal(w: World, ops: seq<Op>, k: nat, c: CaptureScript)
    requires Inv(w) && k < |w.payments| && w.payments[k].reference == PayPalOrder(c.order)
    ensures var v := Run(w, ops);
      && k < |v.payments| && CaptureOrder(v, c) == (v, RecordedAnswer(v.payments[k]))
      && CallsFor(v.captures, c.order) == CallsFor(w.captures, c.order)
      && (!w.payments[k].status.Pending? ==> RecordedAnswer(v.payments[k]) == RecordedAnswer(w.payments[k]))
  {
    RunKeeps(w, ops);
    var v := Run(w, ops);
    assert RowLater(w.payments[k], v.payments[k]);
    IndexFound(v.payments, k);
    if ops != [] {
      var u := Run(w, ops[..|ops|-1]);
      RecordedOrderIsFinal(w, ops[..|ops|-1], k, c);
      RunKeeps(w, ops[..|ops|-1]);
      assert RowLater(w.payments[k], u.payments[k]);
      IndexFound(u.payments, k);
      StepCalls(u, ops[|ops|-1], c.order);
    }
  }

  lemma StepCalls(w: World, op: Op, order: nat)
    requires IndexOf(w.payments, PayPalOrder(order)) < |w.payments|
    ensures CallsFor(Step(w, op).0.captures, order) == CallsFor(w.captures, order)
  {
    if op.Capture? {
      CaptureCalls(w, op.capture, order);
    } else if !op.JobReads? && !op.JobWrites? {
      MostStepsOutside(w, op);
    }
  }

  lemma CaptureCalls(w: World, c: CaptureScript, order: nat)
    requires IndexOf(w.payments, PayPalOrder(order)) < |w.payments|
    ensures CallsFor(CaptureOrder(w, c).0.captures, order) == CallsFor(w.captures, order)
  {
    if IndexOf(w.payments, PayPalOrder(c.order)) == |w.payments| && !HasPending(w.payments) && Payable(w) {
      CaptureOutside(w, c);
      assert CallPayPal(w, c).captures[..|w.captures|] == w.captures;
    }
  }

  // ---- Captured money ----

  // An answer the route takes as this invoice's money.
  predicate Collectable(a: Captured) { a.ours && a.sameCurrency && !a.status.DECLINED? && a.amount > 0 }

  // Every PayPal row is money PayPal answered for, of that amount, and stays so.
  lemma PayPalRowsAreCaptured(w: World, ops: seq<Op>, k: nat)
    requires Inv(w)
    ensures var v := Run(w, ops);
      k < |v.payments| && v.payments[k].reference.PayPalOrder? ==>
        var order := v.payments[k].reference.order;
        order in v.paypal && Collectable(v.paypal[order]) && v.payments[k].amount == v.paypal[order].amount
  {
    RunKeeps(w, ops);
    var v := Run(w, ops);
    if k < |v.payments| { assert RowOk(v, v.payments[k]); }
  }

  // A capture of an order not yet in the table, first try or retry, that is answered and
  // commits puts the money PayPal has captured into the table exactly when the invoice is
  // payable and nothing is under review; otherwise PayPal is not asked and nothing is kept.
  lemma CaptureRecordsIff(w: World, c: CaptureScript)
    requires IndexOf(w.payments, PayPalOrder(c.order)) == |w.payments|
    requires Collectable(AnswerOf(w, c)) && c.net.Answered? && c.commits
    ensures var v := CaptureOrder(w, c).0;
      if Payable(w) && !HasPending(w.payments)
      then v.payments == w.payments + [CapturedRow(c.order, AnswerOf(w, c))]
      else v == w
  {
    if Payable(w) && !HasPending(w.payments) {
      EnvNoPending(w, c.during);
      EnvOutside(w, c.during);
    }
  }

  // ---- Stranded money ----

  // PayPal holds the customer's money and the table has no row of it.
  predicate Stranded(w: World, order: nat) {
    && order in w.paypal && Collectable(w.paypal[order])
    && IndexOf(w.payments, PayPalOrder(order)) == |w.payments|
  }

  // The capture gets past the route's guards, and PayPal is asked.
  predicate Asks(w: World, c: CaptureScript) {
    IndexOf(w.payments, PayPalOrder(c.order)) == |w.payments| && !HasPending(w.payments) && Payable(w)
  }

  // PayPal captures the order, and its answer is lost or the transaction does not commit.
  predicate Strands(w: World, op: Op, order: nat) {
    && op.Capture? && op.capture.order == order && Asks(w, op.capture) && Collectable(AnswerOf(w, op.capture))
    && (op.capture.net.Lost? || (op.capture.net.Answered? && !op.capture.commits))
  }

  // A capture of the order gets to the call, and either is answered and commits or learns
  // that PayPal has declined it after all.
  predicate Resolves(w: World, op: Op, order: nat) {
    && op.Capture? && op.capture.order == order && Asks(w, op.capture)
    && ((op.capture.net.Answered? && op.capture.commits)
        || (!op.capture.net.Down? && AnswerOf(w, op.capture).status.DECLINED?))
  }

  lemma IndexStays(w: World, v: World, r: Reference)
    requires Later(w, v) && IndexOf(w.payments, r) < |w.payments|
    ensures IndexOf(v.payments, r) < |v.payments|
  {
    var k := IndexOf(w.payments, r);
    assert RowLater(w.payments[k], v.payments[k]);
  }

  predicate NewRowsAreNot(w: World, v: World, r: Reference) {
    |w.payments| <= |v.payments| && forall i :: |w.payments| <= i < |v.payments| ==> v.payments[i].reference != r
  }

  lemma IndexStaysOut(w: World, v: World, r: Reference)
    requires Later(w, v) && NewRowsAreNot(w, v, r)
    ensures IndexOf(v.payments, r) == |v.payments| <==> IndexOf(w.payments, r) == |w.payments|
  {
    forall i | 0 <= i < |w.payments|
      ensures v.payments[i].reference == w.payments[i].reference
    {
      assert RowLater(w.payments[i], v.payments[i]);
    }
    if IndexOf(w.payments, r) < |w.payments| { IndexStays(w, v, r); }
  }

  // Nothing but its own capture brings a row of an order into the table.
  lemma OthersAddNoOrder(w: World, op: Op, order: nat)
    requires Inv(w) && !(op.Capture? && op.capture.order == order)
    ensures NewRowsAreNot(w, Step(w, op).0, PayPalOrder(order))
  {
    match op
    case Pay(p) => PayKeeps(w, p);
    case StartOrder(p) => StartKeeps(w, p);
    case Capture(c) => CaptureAddsOwn(w, c, order);
    case Deliver(d) => WebhookAddsCard(w, d, order);
    case Outside(e) => EnvStepKeeps(w, e);
    case _ => AdminAddsByHand(w, op, order);
  }

  lemma AdminAddsByHand(w: World, op: Op, order: nat)
    requires op.Reconcile? || op.RecordManual? || op.VoidInvoice? || op.JobReads? || op.JobWrites?
    ensures NewRowsAreNot(w, Step(w, op).0, PayPalOrder(order))
  {
  }

  lemma CaptureAddsOwn(w: World, c: CaptureScript, order: nat)
    requires Inv(w) && c.order != order
    ensures NewRowsAreNot(w, CaptureOrder(w, c).0, PayPalOrder(order))
  {
    if Asks(w, c) { EnvNoPending(w, c.during); }
  }

  lemma WebhookAddsCard(w: World, d: Delivery, order: nat)
    ensures NewRowsAreNot(w, Webhook(w, d), PayPalOrder(order))
  {
  }

  lemma OtherOrders(w: World, c: CaptureScript, order: nat)
    requires c.order != order
    ensures order in CaptureOrder(w, c).0.paypal <==> order in w.paypal
    ensures order in w.paypal ==> CaptureOrder(w, c).0.paypal[order] == w.paypal[order]
  {
    if Asks(w, c) { CaptureOutside(w, c); }
  }

  lemma OthersStrandNothing(w: World, op: Op, order: nat)
    requires Inv(w) && !(op.Capture? && op.capture.order == order)
    ensures Stranded(Step(w, op).0, order) <==> Stranded(w, order)
  {
    StepKeeps(w, op);
    OthersAddNoOrder(w, op, order);
    IndexStaysOut(w, Step(w, op).0, PayPalOrder(order));
    OthersHold(w, op, order);
  }

  lemma OthersHold(w: World, op: Op, order: nat)
    requires !(op.Capture? && op.capture.order == order)
    ensures var r := Step(w, op).0;
      (order in r.paypal <==> order in w.paypal) && (order in w.paypal ==> r.paypal[order] == w.paypal[order])
  {
    if op.Capture? {
      OtherOrders(w, op.capture, order);
    } else if !op.JobReads? && !op.JobWrites? {
      MostStepsOutside(w, op);
    }
  }

  // The capture of an order that gets through to the call.
  lemma AskedStrandsIff(w: World, c: CaptureScript)
    requires Inv(w) && Asks(w, c)
    ensures var r := CaptureOrder(w, c).0;
      Stranded(r, c.order) <==>
        if c.net.Down? then Stranded(w, c.order)
        else Collectable(AnswerOf(w, c)) && (c.net.Lost? || !c.commits)
  {
    EnvNoPending(w, c.during);
    EnvOutside(w, c.during);
    CaptureOutside(w, c);
    if c.net.Answered? && c.commits && Collectable(AnswerOf(w, c)) {
      CaptureRecordsIff(w, c);
      LastIsFound(w.payments, CapturedRow(c.order, AnswerOf(w, c)));
    }
  }

  lemma LastIsFound(ps: seq<Payment>, p: Payment)
    ensures IndexOf(ps + [p], p.reference) < |ps + [p]|
  {
    assert (ps + [p])[|ps|] == p;
  }

  // One step: money is stranded by a capture that reaches PayPal and is not recorded, and
  // stays so until a capture of the same order gets past the guards and either is answered
  // and commits or finds that PayPal has declined it.
  lemma StepStrands(w: World, op: Op, order: nat)
    requires Inv(w)
    ensures Stranded(Step(w, op).0, order) <==>
      if Stranded(w, order) then !Resolves(w, op, order) else Strands(w, op, order)
  {
    if op.Capture? && op.capture.order == order {
      if Asks(w, op.capture) { AskedStrandsIff(w, op.capture); }
    } else {
      OthersStrandNothing(w, op, order);
    }
  }

  predicate StrandedAt(w: World, ops: seq<Op>, order: nat, i: nat)
    requires i < |ops|
  {
    && Strands(Run(w, ops[..i]), ops[i], order)
    && forall j :: i < j < |ops| ==> !Resolves(Run(w, ops[..j]), ops[j], order)
  }

  lemma StrandedBefore(w: World, ops: seq<Op>, order: nat, i: nat)
    requires i < |ops| - 1
    ensures
      var pre := ops[..|ops|-1];
      StrandedAt(w, ops, order, i) <==>
        StrandedAt(w, pre, order, i) && !Resolves(Run(w, pre), ops[|ops|-1], order)
  {
    var pre := ops[..|ops|-1];
    assert forall j :: 0 <= j <= |pre| ==> pre[..j] == ops[..j];
    if StrandedAt(w, pre, order, i) && !Resolves(Run(w, pre), ops[|ops|-1], order) {
      forall j | i < j < |ops|
        ensures !Resolves(Run(w, ops[..j]), ops[j], order)
      {
        if j < |pre| { assert !Resolves(Run(w, pre[..j]), pre[j], order); }
      }
    }
    if StrandedAt(w, ops, order, i) {
      forall j | i < j < |pre|
        ensures !Resolves(Run(w, pre[..j]), pre[j], order)
      {
        assert !Resolves(Run(w, ops[..j]), ops[j], order);
      }
    }
  }

  lemma StrandedLast(w: World, ops: seq<Op>, order: nat)
    requires ops != []
    ensures StrandedAt(w, ops, order, |ops| - 1) <==> Strands(Run(w, ops[..|ops|-1]), ops[|ops|-1], order)
  {
  }

  predicate EverStranded(w: World, ops: seq<Op>, order: nat) {
    exists i :: 0 <= i < |ops| && StrandedAt(w, ops, order, i)
  }

  lemma StrandedSince(w: World, ops: seq<Op>, order: nat)
    requires ops != [] && EverStranded(w, ops, order)
    ensures
      var pre, last := ops[..|ops|-1], ops[|ops|-1];
      Strands(Run(w, pre), last, order) || (EverStranded(w, pre, order) && !Resolves(Run(w, pre), last, order))
  {
    var i :| 0 <= i < |ops| && StrandedAt(w, ops, order, i);
    if i < |ops| - 1 {
      StrandedBefore(w, ops, order, i);
      assert StrandedAt(w, ops[..|ops|-1], order, i);
    } else {
      StrandedLast(w, ops, order);
    }
  }

  lemma StrandedStill(w: World, ops: seq<Op>, order: nat)
    requires ops != []
    requires
      var pre, last := ops[..|ops|-1], ops[|ops|-1];
      Strands(Run(w, pre), last, order) || (EverStranded(w, pre, order) && !Resolves(Run(w, pre), last, order))
    ensures EverStranded(w, ops, order)
  {
    var pre, last := ops[..|ops|-1], ops[|ops|-1];
    if Strands(Run(w, pre), last, order) {
      StrandedLast(w, ops, order);
      assert StrandedAt(w, ops, order, |ops| - 1);
    } else {
      var i :| 0 <= i < |pre| && StrandedAt(w, pre, order, i);
      StrandedBefore(w, ops, order, i);
      assert StrandedAt(w, ops, order, i);
    }
  }

  // Over every run, PayPal holds money the table does not know of exactly when some capture
  // of the order reached PayPal and its answer was lost or its transaction did not commit,
  // and no later one resolved it.
  lemma {:induction false} StrandedIff(w: World, ops: seq<Op>, order: nat)
    requires Inv(w) && !Stranded(w, order)
    ensures Stranded(Run(w, ops), order) <==> EverStranded(w, ops, order)
  {
    if ops != [] {
      var pre, last := ops[..|ops|-1], ops[|ops|-1];
      StrandedIff(w, pre, order);
      RunKeeps(w, pre);
      StepStrands(Run(w, pre), last, order);
      if EverStranded(w, ops, order) { StrandedSince(w, ops, order); }
      if Stranded(Run(w, ops), order) { StrandedStill(w, ops, order); }
    }
  }

  function LostCapture(order: nat, total: int, now: nat): CaptureScript {
    CaptureScript(order, [], Lost, Captured(true, COMPLETED, true, total), None, now, true)
  }

  // Captured by PayPal, answer lost, then paid by hand.
  function PaidByHand(order: nat, total: int, now: nat): World {
    World(total, Paid, Some(now), false, None, [Payment(ByHand, total, Succeeded, None, None)], [], [order],
          map[order := Captured(true, COMPLETED, true, total)], 0)
  }

  lemma StrandedIsReached(order: nat, total: int, now: nat)
    requires total > 0
    ensures Run(FreshInvoice(total), [Capture(LostCapture(order, total, now)), RecordManual(total, now)])
         == PaidByHand(order, total, now)
  {
    var w := FreshInvoice(total);
    var lost, byHand := Capture(LostCapture(order, total, now)), RecordManual(total, now);
    assert [lost, byHand] == [lost] + [byHand];
    RunAppend(w, [lost], [byHand]);
    RunOne(w, lost);
    LostCaptureLeaves(order, total, now);
    RunOne(CapturedUnseen(order, total), byHand);
    PaidByHandOnce(total, total, now);
  }

  // Captured by PayPal, answer lost.
  function CapturedUnseen(order: nat, total: int): World {
    FreshInvoice(total).(captures := [order], paypal := map[order := Captured(true, COMPLETED, true, total)])
  }

  lemma LostCaptureLeaves(order: nat, total: int, now: nat)
    requires total > 0
    ensures CaptureOrder(FreshInvoice(total), LostCapture(order, total, now)).0 == CapturedUnseen(order, total)
  {
    assert EnvRun(FreshInvoice(total), []) == FreshInvoice(total) && [] + [order] == [order];
  }

  // So money can be stranded: PayPal captures an order but the answer is lost, the invoice
  // is then paid by hand, and the retry is refused without asking. PayPal holds the money;
  // the table has no row of it and the invoice is not flagged.
  lemma LostAnswerStrandsMoney(order: nat, total: int, now: nat)
    requires total > 0
    ensures
      var capture := LostCapture(order, total, now);
      var w := FreshInvoice(total);
      var v := Run(w, [Capture(capture), RecordManual(total, now)]);
      && Inv(w) && Payable(w) && AmountDue(w) == total
      && Step(v, Capture(capture.(net := Answered))) == (v, Refused(NotPayable))
      && Stranded(v, order) && v.paypal[order] == capture.first
      && PaidSoFar(v.payments) == v.total && v.status.Paid? && !v.needsReview
  {
    StrandedIsReached(order, total, now);
    var row := Payment(ByHand, total, Succeeded, None, None);
    PaidAppend([], row);
    assert [] + [row] == [row];
    IndexOfNone([row], PayPalOrder(order));
  }

  lemma IndexOfNone(ps: seq<Payment>, r: Reference)
    requires forall i :: 0 <= i < |ps| ==> ps[i].reference != r
    ensures IndexOf(ps, r) == |ps|
  {
    var k := IndexOf(ps, r);
  }

  // The table never holds two rows for one order, nor two payments under review.
  lemma OrdersAreRecordedOnce(w: World, ops: seq<Op>, i: nat, j: nat)
    requires Inv(w)
    ensures var ps := Run(w, ops).payments;
      i < j < |ps| ==>
        && (ps[i].reference.PayPalOrder? ==> ps[i].reference != ps[j].reference)
        && !(ps[i].status.Pending? && ps[j].status.Pending?)
  {
    RunKeeps(w, ops);
    var ps := Run(w, ops).payments;
    if i < j < |ps| { assert Apart(ps[i], ps[j]); }
  }
}
