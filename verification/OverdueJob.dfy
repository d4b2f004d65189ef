// The daily job that marks invoices overdue, against the handlers that collect them. It
// selects the sent invoices past their date without locking them, and writes each by
// primary key when its transaction gets to it: whatever was committed in between is lost.
module OverdueJob {
  import opened Options
  import opened Collection
  import opened CollectionProofs
  import opened CollectionTheorems

  // ---- What no run undoes ----

  // A recorded payment keeps its reference and amount; a succeeded one stays succeeded; an
  // invoice that is covered stays covered and keeps a time of payment; a flag stays; and
  // only a covered invoice is ever marked paid.
  lemma RecordedMoneyIsPermanent(w: World, ops: seq<Op>)
    requires Inv(w)
    ensures var v := Run(w, ops);
      && (forall k :: 0 <= k < |w.payments| ==> k < |v.payments| && RowLater(w.payments[k], v.payments[k]))
      && (w.paidAt.Some? ==> v.paidAt.Some? && PaidSoFar(v.payments) >= v.total == w.total)
      && (w.needsReview ==> v.needsReview)
      && (v.status.Paid? ==> v.paidAt.Some? && PaidSoFar(v.payments) >= v.total)
  {
    RunKeeps(w, ops);
    var v := Run(w, ops);
    forall k | 0 <= k < |w.payments| ensures k < |v.payments| && RowLater(w.payments[k], v.payments[k]) {
      assert RowLater(w.payments[k], v.payments[k]);
    }
  }

  // ---- Paid is final, but for the job ----

  predicate NoStaleWrite(w: World, ops: seq<Op>) {
    forall i :: 0 <= i < |ops| ==> !StaleWrite(Run(w, ops[..i]), ops[i])
  }

  predicate PaidIsFinal(w: World, ops: seq<Op>) {
    forall i, j :: 0 <= i <= j <= |ops| ==> StaysPaid(Run(w, ops[..i]), Run(w, ops[..j]))
  }

  lemma RunStep(w: World, ops: seq<Op>, i: nat)
    requires i < |ops|
    ensures Run(w, ops[..i+1]) == Step(Run(w, ops[..i]), ops[i]).0
  {
    assert ops[..i+1][..i] == ops[..i];
  }

  lemma {:induction false} StaysPaidTo(w: World, ops: seq<Op>, i: nat, j: nat)
    requires Inv(w) && NoStaleWrite(w, ops) && i <= j <= |ops|
    ensures StaysPaid(Run(w, ops[..i]), Run(w, ops[..j]))
  {
    if i < j {
      StaysPaidTo(w, ops, i, j - 1);
      RunKeeps(w, ops[..j-1]);
      StepKeeps(Run(w, ops[..j-1]), ops[j-1]);
      RunStep(w, ops, j - 1);
    }
  }

  // Once paid, an invoice stays paid, since the same instant, exactly as long as no overdue
  // job that read it before writes it after.
  lemma PaidIsFinalIff(w: World, ops: seq<Op>)
    requires Inv(w)
    ensures PaidIsFinal(w, ops) <==> NoStaleWrite(w, ops)
  {
    if NoStaleWrite(w, ops) {
      forall i, j | 0 <= i <= j <= |ops|
        ensures StaysPaid(Run(w, ops[..i]), Run(w, ops[..j]))
      {
        StaysPaidTo(w, ops, i, j);
      }
    } else {
      var i :| 0 <= i < |ops| && StaleWrite(Run(w, ops[..i]), ops[i]);
      RunKeeps(w, ops[..i]);
      StepKeeps(Run(w, ops[..i]), ops[i]);
      RunStep(w, ops, i);
      assert !StaysPaid(Run(w, ops[..i]), Run(w, ops[..i+1]));
    }
  }

  // Then, too, an invoice is marked paid exactly when it is covered, and the time of
  // payment is written once.
  lemma {:induction false} PaidAtIsWrittenOnce(w: World, ops: seq<Op>)
    requires Inv(w) && PaidUp(w) && NoStaleWrite(w, ops)
    ensures var v := Run(w, ops);
      && (v.status.Paid? <==> Covered(v))
      && (w.paidAt.Some? ==> v.paidAt == w.paidAt)
  {
    if ops == [] {
    } else {
      var pre := ops[..|ops|-1];
      forall i | 0 <= i < |pre|
        ensures !StaleWrite(Run(w, pre[..i]), pre[i])
      {
        assert pre[..i] == ops[..i];
      }
      PaidAtIsWrittenOnce(w, pre);
      RunKeeps(w, pre);
      StepKeeps(Run(w, pre), ops[|ops|-1]);
    }
  }

  // A paid or void invoice becomes payable again only by such a write, and always by one.
  lemma ReopensIff(w: World, op: Op)
    requires Inv(w) && (w.status.Paid? || w.status.Void?)
    ensures Payable(Step(w, op).0) <==> op.JobWrites? && op.commits && w.jobs > 0
  {
    if !op.JobWrites? { ClosedStaysClosed(w, op); }
  }

  lemma ClosedStaysClosed(w: World, op: Op)
    requires Inv(w) && (w.status.Paid? || w.status.Void?) && !op.JobWrites?
    ensures !Payable(Step(w, op).0)
  {
    match op
    case Outside(e) => EnvStepKeeps(w, e);
    case Deliver(d) => ClosedToStripe(w, d);
    case Reconcile(o, v, now) => ClosedToReview(w, o, v, now);
    case _ =>
  }

  lemma ClosedToStripe(w: World, d: Delivery)
    requires w.status.Paid? || w.status.Void?
    ensures !Payable(Webhook(w, d))
  {
  }

  lemma ClosedToReview(w: World, o: nat, v: Verdict, now: nat)
    requires w.status.Paid? || w.status.Void?
    ensures !Payable(ReconcileOrder(w, o, v, now))
  {
  }

  lemma HeldIsPaidAgain(w: World, k: nat, now: nat)
    requires Inv(w) && Covered(w) && Payable(w) && k < |w.payments| && w.payments[k].status.Pending?
    ensures w.payments[k].reference.PayPalOrder?
    ensures var r := ReconcileOrder(w, w.payments[k].reference.order, Completed, now);
      r.status.Paid? && r.paidAt == Some(now)
  {
    assert RowOk(w, w.payments[k]);
    IndexFound(w.payments, k);
    PaidUpdate(w.payments, k, w.payments[k].(status := Succeeded));
  }

  lemma ByHandIsPaidAgain(w: World, now: nat)
    requires Covered(w) && Payable(w) && !HasPending(w.payments)
    ensures var r := ManualPayment(w, 1, now).0; r.status.Paid? && r.paidAt == Some(now)
  {
    PaidAppend(w.payments, Payment(ByHand, 1, Succeeded, None, None));
  }

  // An invoice reopened though covered is settled anew by the next payment to succeed, and
  // its time of payment is rewritten: there is always a step that does so.
  lemma ReopenedIsPaidAgain(w: World, now: nat) returns (op: Op)
    requires Inv(w) && Covered(w) && Payable(w)
    ensures op.RecordManual? || op.Reconcile?
    ensures var r := Step(w, op).0; r.status.Paid? && r.paidAt == Some(now)
  {
    if HasPending(w.payments) {
      var k :| 0 <= k < |w.payments| && w.payments[k].status.Pending?;
      HeldIsPaidAgain(w, k, now);
      op := Reconcile(w.payments[k].reference.order, Completed, now);
    } else {
      ByHandIsPaidAgain(w, now);
      op := RecordManual(1, now);
    }
  }

  // ---- The job's own run ----

  // A job nothing comes between marks exactly the sent invoices past their date.
  lemma JobAlone(w: World, pastDue: bool)
    requires w.jobs == 0
    ensures Run(w, [JobReads(pastDue), JobWrites(true)])
         == if w.status.Sent? && pastDue then w.(status := Overdue) else w
  {
    var ops := [JobReads(pastDue), JobWrites(true)];
    RunStep(w, ops, 0);
    RunStep(w, ops, 1);
    assert ops[..0] == [] && ops[..2] == ops;
  }

  lemma JobsCount(w: World, op: Op)
    requires Step(w, op).0.jobs > w.jobs
    ensures op == JobReads(true) && w.status.Sent?
  {
    match op
    case Capture(c) => CaptureLeavesJobs(w, c);
    case JobReads(pastDue) =>
    case JobWrites(commits) =>
    case _ => MostStepsOutside(w, op);
  }

  lemma CaptureLeavesJobs(w: World, c: CaptureScript)
    ensures CaptureOrder(w, c).0.jobs == w.jobs
  {
    if IndexOf(w.payments, PayPalOrder(c.order)) == |w.payments| && !HasPending(w.payments) && Payable(w) {
      CaptureOutside(w, c);
    }
  }

  // Behind every stale write there is a read that found the invoice sent: it was paid
  // between the two.
  lemma {:induction false} StaleWriteHasOldRead(w: World, ops: seq<Op>, j: nat) returns (i: nat)
    requires w.jobs == 0 && j <= |ops| && Run(w, ops[..j]).jobs > 0
    ensures i < j && ops[i] == JobReads(true) && Run(w, ops[..i]).status.Sent?
  {
    i := j - 1;
    RunStep(w, ops, i);
    if Run(w, ops[..i]).jobs > 0 {
      i := StaleWriteHasOldRead(w, ops, i);
    } else {
      JobsCount(Run(w, ops[..i]), ops[i]);
    }
  }

  // ---- The failing run ----

  // An invoice whose card payment the customer has just confirmed.
  function CardConfirmed(total: int): World {
    FreshInvoice(total).(current := Some(0), intents := [Intent(total, Confirmed, true)])
  }

  function PlainPay(): PayScript { PayScript(true, [], Answered, [], Answered, [], Answered, [], true) }

  function Success(total: int, now: nat): Delivery { Delivery(0, true, total, None, None, now) }

  function Charged(): seq<Op> { [Pay(PlainPay()), Outside(Confirm(0))] }

  lemma ConfirmedIsReached(total: int)
    requires total > 0
    ensures Run(FreshInvoice(total), Charged()) == CardConfirmed(total)
    ensures Inv(CardConfirmed(total)) && PaidUp(CardConfirmed(total))
  {
    var w, ops := FreshInvoice(total), Charged();
    RunStep(w, ops, 0);
    RunStep(w, ops, 1);
    assert ops[..0] == [] && ops[..2] == ops;
    assert EnvRun(w, []) == w && [] + [Intent(total, Live, false)] == [Intent(total, Live, false)];
  }

  function Late(total: int, first: nat, again: nat): seq<Op> {
    [JobReads(true), Deliver(Success(total, first)), JobWrites(true), Deliver(Success(total, again))]
  }

  function ReceivedAt(total: int, at: nat): Payment { Receipt(Success(total, at), Succeeded) }

  // The success of that payment, delivered to the invoice.
  lemma FirstDelivery(total: int, at: nat)
    requires total > 0
    ensures
      var w := CardConfirmed(total).(jobs := 1);
      Webhook(w, Success(total, at)) == w.(status := Paid, paidAt := Some(at), payments := [ReceivedAt(total, at)])
  {
    var row := ReceivedAt(total, at);
    PaidAppend([], row);
    assert [] + [row] == [row];
  }

  lemma SecondDelivery(w: World, total: int, first: nat, again: nat)
    requires total > 0
    requires w == CardConfirmed(total).(status := Overdue, paidAt := w.paidAt, payments := [ReceivedAt(total, first)])
    ensures PaidSoFar(w.payments) == w.total
    ensures Webhook(w, Success(total, again)) == w.(status := Paid, paidAt := Some(again))
  {
    var row := ReceivedAt(total, first);
    PaidAppend([], row);
    IndexAtEnd([], row);
    assert [] + [row] == [row] && [row][0 := row.(status := Succeeded)] == [row];
  }

  function PaidAt(total: int, at: nat): World {
    CardConfirmed(total).(status := Paid, paidAt := Some(at), payments := [ReceivedAt(total, at)], jobs := 1)
  }

  lemma PaidInBetween(total: int, first: nat, again: nat)
    requires total > 0
    ensures Run(CardConfirmed(total), Late(total, first, again)[..2]) == PaidAt(total, first)
  {
    var w, ops := CardConfirmed(total), Late(total, first, again);
    RunStep(w, ops, 0);
    RunStep(w, ops, 1);
    assert ops[..0] == [] && Run(w, ops[..1]) == w.(jobs := 1);
    FirstDelivery(total, first);
  }

  // The customer pays by card. The job reads the invoice as sent; Stripe's success is delivered and the invoice is
  // paid at `first`; the job writes overdue over it; the success is delivered again, and
  // the invoice is paid at `again`.
  lemma StaleWriteReopensPaid(total: int, first: nat, again: nat)
    requires total > 0
    ensures
      var w, ops := FreshInvoice(total), Charged() + Late(total, first, again);
      var paid, reopened := Run(w, ops[..4]), Run(w, ops[..5]);
      && Inv(w) && PaidUp(w)
      && paid.status.Paid? && paid.paidAt == Some(first) && StaleWrite(paid, ops[4])
      && Payable(reopened) && PaidSoFar(reopened.payments) == reopened.total
      && Run(w, ops).status.Paid? && Run(w, ops).paidAt == Some(again)
  {
    var late := Late(total, first, again);
    ConfirmedIsReached(total);
    FreshIsSound(total);
    ChargedThen(total, late, 2);
    ChargedThen(total, late, 3);
    ChargedThen(total, late, 4);
    LateRun(total, first, again);
  }

  lemma ChargedThen(total: int, late: seq<Op>, k: nat)
    requires total > 0 && k <= |late|
    ensures Run(FreshInvoice(total), (Charged() + late)[..k+2]) == Run(CardConfirmed(total), late[..k])
    ensures k == |late| ==> (Charged() + late)[..k+2] == Charged() + late && late[..k] == late
  {
    ConfirmedIsReached(total);
    assert (Charged() + late)[..k+2] == Charged() + late[..k];
    RunAppend(FreshInvoice(total), Charged(), late[..k]);
  }

  lemma LateRun(total: int, first: nat, again: nat)
    requires total > 0
    ensures
      var w, ops := CardConfirmed(total), Late(total, first, again);
      && Run(w, ops[..2]) == PaidAt(total, first)
      && Run(w, ops[..3]) == PaidAt(total, first).(status := Overdue, jobs := 0)
      && PaidSoFar(Run(w, ops[..3]).payments) == total
      && Run(w, ops[..4]).status.Paid? && Run(w, ops[..4]).paidAt == Some(again)
  {
    var w, ops := CardConfirmed(total), Late(total, first, again);
    PaidInBetween(total, first, again);
    var reopened := PaidAt(total, first).(status := Overdue, jobs := 0);
    RunStep(w, ops, 2);
    assert Run(w, ops[..3]) == reopened;
    SecondDelivery(reopened, total, first, again);
    RunStep(w, ops, 3);
  }
}
