// What the other steps of collecting an invoice do to it, each from the invoice before it: the
// capture of a PayPal order, Stripe's events, the reconciler, and the admin.
module CollectionEffects {
  import opened Options
  import opened Collection
  import opened CollectionProofs
  import opened CollectionTheorems
  import opened CollectionAnswers

  function WithRow(w: World, row: Payment): seq<Payment> { w.payments + [row] }

  // Marked paid at `now` if what is recorded covers the total, and else as it was.
  predicate MarkedIfCovered(w: World, v: World, now: nat) {
    if w.status != Paid && PaidSoFar(v.payments) >= w.total
    then v.status == Paid && v.paidAt == Some(now)
    else v.status == w.status && v.paidAt == w.paidAt
  }

  // The flag is raised exactly in this case, and never lowered.
  predicate FlaggedIf(w: World, v: World, raise: bool) { v.needsReview <==> w.needsReview || raise }

  predicate OnlyMoney(w: World, v: World) {
    v == w.(payments := v.payments, status := v.status, paidAt := v.paidAt, needsReview := v.needsReview)
  }

  // ---- Capturing an order ----

  predicate Known(w: World, order: nat) {
    exists i :: 0 <= i < |w.payments| && w.payments[i].reference == PayPalOrder(order)
  }

  lemma KnownIff(w: World, order: nat)
    ensures Known(w, order) <==> IndexOf(w.payments, PayPalOrder(order)) < |w.payments|
  {
  }

  // The answers to the capture of an order that is not in the table yet.
  lemma CaptureAnswers(w: World, c: CaptureScript)
    requires !Known(w, c.order)
    ensures
      var r := CaptureOrder(w, c).1;
      var a := AnswerOf(w, c);
      var asked := Open(w) && !UnderReviewNow(w);
      var answered := asked && c.net == Answered;
      && (r == Refused(UnderReview) <==> UnderReviewNow(w))
      && (r == Refused(NotPayable) <==> !UnderReviewNow(w) && !Open(w))
      && (r == Refused(ProviderDown) <==> asked && c.net != Answered)
      && (r == Refused(WrongInvoice) <==> answered && !a.ours)
      && (r == Refused(NotCompleted) <==> answered && a.ours && a.status == DECLINED)
      && (r == Refused(WrongCurrency) <==> answered && a.ours && a.status != DECLINED && !a.sameCurrency)
      && (r == Refused(ServerError) <==>
            answered && a.ours && a.status != DECLINED && a.sameCurrency && (a.amount <= 0 || !c.commits))
      && (r == CapturedOk <==>
            answered && a.ours && a.status == COMPLETED && a.sameCurrency && a.amount > 0 && c.commits)
      && (r == CapturePending <==>
            answered && a.ours && a.status == PENDING && a.sameCurrency && a.amount > 0 && c.commits)
  {
    KnownIff(w, c.order);
    ToPayIs(w);
    if Open(w) && !UnderReviewNow(w) {
      EnvNoPending(w, c.during);
      EnvOutside(w, c.during);
    }
  }

  // A capture recorded as done adds its row, raises the flag unless the amount is exactly
  // what was owed, and marks the invoice paid if that covers it; one held for review adds a
  // pending row and nothing else. Any other answer leaves the payments alone.
  lemma CaptureRecords(w: World, c: CaptureScript)
    requires !Known(w, c.order)
    ensures
      var (v, r) := CaptureOrder(w, c);
      var a := AnswerOf(w, c);
      && (r == CapturedOk ==>
            && v.payments == WithRow(w, Payment(PayPalOrder(c.order), a.amount, Succeeded, None, None))
            && FlaggedIf(w, v, a.amount != Owed(w)) && MarkedIfCovered(w, v, c.now))
      && (r == CapturePending ==>
            && v.payments == WithRow(w, Payment(PayPalOrder(c.order), a.amount, Pending, None, None))
            && v.needsReview == w.needsReview && v.status == w.status && v.paidAt == w.paidAt)
      && (r.Refused? ==>
            v.payments == w.payments && v.needsReview == w.needsReview && v.status == w.status && v.paidAt == w.paidAt)
  {
    KnownIff(w, c.order);
    ToPayIs(w);
    if Open(w) && !UnderReviewNow(w) { AskedRecords(w, c); }
  }

  lemma AskedRecords(w: World, c: CaptureScript)
    requires IndexOf(w.payments, PayPalOrder(c.order)) == |w.payments| && !HasPending(w.payments) && Payable(w)
    ensures
      var (v, r) := CaptureOrder(w, c);
      var a := AnswerOf(w, c);
      && (r == CapturedOk ==>
            && v.payments == WithRow(w, Payment(PayPalOrder(c.order), a.amount, Succeeded, None, None))
            && FlaggedIf(w, v, a.amount != Owed(w)) && MarkedIfCovered(w, v, c.now))
      && (r == CapturePending ==>
            && v.payments == WithRow(w, Payment(PayPalOrder(c.order), a.amount, Pending, None, None))
            && v.needsReview == w.needsReview && v.status == w.status && v.paidAt == w.paidAt)
      && (r.Refused? ==>
            v.payments == w.payments && v.needsReview == w.needsReview && v.status == w.status && v.paidAt == w.paidAt)
  {
    var w1 := EnvRun(w, c.during);
    EnvNoPending(w, c.during);
    EnvOutside(w, c.during);
    EnvLeavesMarks(w, c.during);
    RecordDoes(CallPayPal(w1, c), c, AnswerOf(w, c));
    assert AnswerOf(w1, c) == AnswerOf(w, c);
  }

  lemma {:induction false} EnvLeavesMarks(w: World, es: seq<Env>)
    ensures var v := EnvRun(w, es);
      v.needsReview == w.needsReview && v.status == w.status && v.paidAt == w.paidAt && v.total == w.total
  {
    if es != [] { EnvLeavesMarks(w, es[..|es|-1]); }
  }

  lemma RecordDoes(w: World, c: CaptureScript, a: Captured)
    ensures
      var (v, r) := RecordCapture(w, c, a);
      && (r == CapturedOk ==>
            && v.payments == WithRow(w, Payment(PayPalOrder(c.order), a.amount, Succeeded, None, None))
            && FlaggedIf(w, v, a.amount != Owed(w)) && MarkedIfCovered(w, v, c.now))
      && (r == CapturePending ==>
            v == w.(payments := WithRow(w, Payment(PayPalOrder(c.order), a.amount, Pending, None, None))))
      && (r.Refused? ==> v == w)
  {
  }

  // An order in the table is answered from its row, and nothing changes.
  lemma KnownOrderAnswers(w: World, c: CaptureScript, k: nat)
    requires Inv(w) && k < |w.payments| && w.payments[k].reference == PayPalOrder(c.order)
    ensures CaptureOrder(w, c).0 == w
    ensures
      var r, s := CaptureOrder(w, c).1, w.payments[k].status;
      && (r == CapturedOk <==> s == Succeeded) && (r == CapturePending <==> s == Pending)
      && (r == Refused(AttemptFailed) <==> s == Failed)
  {
    IndexFound(w.payments, k);
  }

  // ---- Stripe's events ----

  // A success recorded: the flag is raised exactly if a capture is under review or the
  // payments exceed the total, and the invoice is marked paid if they cover it.
  lemma SuccessDoes(w: World, now: nat)
    ensures
      var v := AfterSuccess(w, now);
      && v.payments == w.payments && OnlyMoney(w, v) && MarkedIfCovered(w, v, now)
      && FlaggedIf(w, v, UnderReviewNow(w) || PaidSoFar(w.payments) > w.total)
  {
    ToPayIs(w);
  }

  // An event about any intent but the current one changes nothing. The first event about it
  // adds a row with the event's amount and charge and, for a success, its postal code; a
  // failure does no more than that, and is ignored once the intent has succeeded.
  lemma EventDoes(w: World, d: Delivery)
    requires Inv(w) && Authentic(w, d)
    ensures
      var v, k := Webhook(w, d), IndexOf(w.payments, StripeIntent(d.intent));
      && (w.current != Some(d.intent) ==> v == w)
      && (w.current == Some(d.intent) && k == |w.payments| ==>
            v.payments == WithRow(w, Payment(StripeIntent(d.intent), d.amount, if d.success then Succeeded else Failed,
                                             d.charge, if d.success then d.zip else None)))
      && (w.current == Some(d.intent) && k < |w.payments| ==>
            v.payments == w.payments[k := w.payments[k].(status :=
              if d.success || w.payments[k].status == Succeeded then Succeeded else Failed)])
      && OnlyMoney(w, v)
      && (w.current == Some(d.intent) && d.success ==>
            && MarkedIfCovered(w, v, d.now)
            && FlaggedIf(w, v, UnderReviewNow(v) || PaidSoFar(v.payments) > w.total))
      && (!d.success ==> v.needsReview == w.needsReview && v.status == w.status && v.paidAt == w.paidAt)
  {
    var k := IndexOf(w.payments, StripeIntent(d.intent));
    if w.current == Some(d.intent) {
      if k < |w.payments| {
        assert RowOk(w, w.payments[k]);
        SuccessDoes(SetStatus(w, k, Succeeded), d.now);
        assert w.payments[k := w.payments[k].(status := w.payments[k].status)] == w.payments;
      } else {
        SuccessDoes(Insert(w, Receipt(d, Succeeded)), d.now);
      }
    }
  }

  // ---- The reconciler ----

  // A capture under review that PayPal reports completed becomes a succeeded payment, flagged
  // exactly if the payments now exceed the total, and settles the invoice if they cover it;
  // one it reports declined becomes a failed payment; on any other report, and for any other
  // payment, nothing happens.
  lemma ReconcileDoes(w: World, o: nat, verdict: Verdict, now: nat, k: nat)
    requires Inv(w) && k < |w.payments| && w.payments[k].reference == PayPalOrder(o)
    ensures
      var v := ReconcileOrder(w, o, verdict, now);
      var review := w.payments[k].status == Pending;
      && (review && verdict == Completed ==>
            && v.payments == w.payments[k := w.payments[k].(status := Succeeded)]
            && MarkedIfCovered(w, v, now) && FlaggedIf(w, v, PaidSoFar(v.payments) > w.total) && OnlyMoney(w, v))
      && (review && verdict == Declined ==>
            v == w.(payments := w.payments[k := w.payments[k].(status := Failed)]))
      && (!review || verdict == StatusError || verdict == StillPending ==> v == w)
  {
    IndexFound(w.payments, k);
  }

  lemma UnknownOrderIsLeft(w: World, o: nat, verdict: Verdict, now: nat)
    requires !Known(w, o)
    ensures ReconcileOrder(w, o, verdict, now) == w
  {
    KnownIff(w, o);
  }

  // ---- The admin ----

  // A payment by hand of any positive amount is taken exactly while the invoice is open and
  // nothing is under review; it is one more succeeded row, settles the invoice if covered,
  // and never raises the flag.
  lemma ManualDoes(w: World, amount: int, now: nat)
    ensures
      var (v, r) := ManualPayment(w, amount, now);
      && (r == Refused(InvalidAmount) <==> amount <= 0)
      && (r == Refused(NotPayable) <==> amount > 0 && !Open(w))
      && (r == Refused(UnderReview) <==> amount > 0 && Open(w) && UnderReviewNow(w))
      && (r == Done <==> amount > 0 && Open(w) && !UnderReviewNow(w))
      && (r != Done ==> v == w)
      && (r == Done ==>
            && v.payments == WithRow(w, Payment(ByHand, amount, Succeeded, None, None))
            && MarkedIfCovered(w, v, now) && OnlyMoney(w, v) && v.needsReview == w.needsReview)
  {
    ToPayIs(w);
  }

  // An open invoice can be voided, and only an open one; its payments stay.
  lemma VoidDoes(w: World)
    ensures
      var (v, r) := Step(w, VoidInvoice);
      && (r == Done <==> Open(w)) && (r == Refused(NotPayable) <==> !Open(w))
      && v == if Open(w) then w.(status := Void) else w
  {
  }

  // ---- The providers ----

  // A customer confirms a live intent they were handed, Stripe cancels a live one, and the
  // reconciler declines a capture under review; nothing else of the invoice moves meanwhile.
  lemma ProvidersDo(w: World, i: nat, k: nat, order: nat)
    requires Inv(w) && i < |w.intents|
    ensures
      var live := w.intents[i].status == Live;
      && EnvStep(w, Confirm(i)) ==
           (if live && w.intents[i].handedOut
            then w.(intents := w.intents[i := w.intents[i].(status := Confirmed)]) else w)
      && EnvStep(w, Expire(i)) ==
           (if live then w.(intents := w.intents[i := w.intents[i].(status := Canceled)]) else w)
    ensures k < |w.payments| && w.payments[k].reference == PayPalOrder(order) ==>
      EnvStep(w, ReviewDeclined(order)) ==
        if w.payments[k].status == Pending
        then w.(payments := w.payments[k := w.payments[k].(status := Failed)]) else w
  {
    if k < |w.payments| && w.payments[k].reference == PayPalOrder(order) { IndexFound(w.payments, k); }
  }
}
