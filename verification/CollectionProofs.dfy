// What every run of the collection protocol keeps.
module CollectionProofs {
  import opened Options
  import opened Collection

  // ---- Invariants of one invoice ----

  // Only the invoice's current intent can still take money: every other intent a
  // customer was ever handed is canceled, and nobody can confirm an intent whose
  // secret was never handed out.
  predicate IntentInv(w: World) {
    && (w.current.Some? ==> w.current.value < |w.intents| && w.intents[w.current.value].handedOut)
    && (forall i :: 0 <= i < |w.intents| ==>
          && w.intents[i].amount > 0
          && (w.intents[i].handedOut && w.current != Some(i) ==> w.intents[i].status.Canceled?)
          && (w.intents[i].status.Confirmed? ==> w.intents[i].handedOut))
  }

  predicate RowOk(w: World, p: Payment) {
    && p.amount > 0
    && (p.status.Pending? ==> p.reference.PayPalOrder?)
    && (p.reference.StripeIntent? ==>
          && p.reference.intent < |w.intents|
          && p.amount == w.intents[p.reference.intent].amount
          && (p.status.Succeeded? ==> w.intents[p.reference.intent].status.Confirmed?))
    && (p.reference.PayPalOrder? ==>
          && p.reference.order in w.paypal
          && BackedBy(p, w.paypal[p.reference.order]))
  }

  // The row is money PayPal answered it has captured, or holds for review.
  predicate BackedBy(p: Payment, a: Captured) {
    && a.ours && a.sameCurrency && !a.status.DECLINED? && p.amount == a.amount
    && (a.status.COMPLETED? ==> p.status.Succeeded?)
  }

  predicate Apart(p: Payment, q: Payment) {
    (p.reference == q.reference ==> p.reference.ByHand?) && !(p.status.Pending? && q.status.Pending?)
  }

  // Rows are backed by their provider; a provider reference names one row; at most
  // one row is pending.
  predicate RowInv(w: World) {
    && (forall i :: 0 <= i < |w.payments| ==> RowOk(w, w.payments[i]))
    && (forall i, j :: 0 <= i < j < |w.payments| ==> Apart(w.payments[i], w.payments[j]))
  }

  predicate Covered(w: World) { PaidSoFar(w.payments) > 0 && PaidSoFar(w.payments) >= w.total }

  predicate SettleInv(w: World) {
    (w.paidAt.Some? <==> Covered(w)) && (w.status.Paid? ==> Covered(w))
  }

  predicate Inv(w: World) { IntentInv(w) && RowInv(w) && SettleInv(w) }

  // Whatever is covered says so.
  predicate PaidUp(w: World) { Covered(w) ==> w.status.Paid? }

  predicate FlagSound(w: World) { PaidSoFar(w.payments) > w.total ==> w.needsReview }

  // ---- What only ever moves one way ----

  predicate IntentLater(a: Intent, b: Intent) {
    && a.amount == b.amount && (a.handedOut ==> b.handedOut)
    && (a.status.Canceled? ==> b.status.Canceled?) && (a.status.Confirmed? ==> b.status.Confirmed?)
  }

  predicate RowLater(p: Payment, q: Payment) {
    && p.(status := q.status) == q
    && (p.status.Succeeded? ==> q.status.Succeeded?)
    && (p.status.Failed? && p.reference.PayPalOrder? ==> q.status.Failed?)
  }

  // Only a capture held for review is ever answered differently.
  predicate AnswerLater(a: Captured, b: Captured) {
    b == a.(status := b.status) && (b.status == a.status || a.status.PENDING?)
  }

  predicate Later(w: World, v: World) {
    && v.total == w.total
    && (w.needsReview ==> v.needsReview)
    && (w.paidAt.Some? ==> v.paidAt.Some?)
    && (forall o :: o in w.paypal ==> o in v.paypal && AnswerLater(w.paypal[o], v.paypal[o]))
    && |w.intents| <= |v.intents| && (forall i :: 0 <= i < |w.intents| ==> IntentLater(w.intents[i], v.intents[i]))
    && |w.payments| <= |v.payments| && (forall i :: 0 <= i < |w.payments| ==> RowLater(w.payments[i], v.payments[i]))
  }

  predicate StaysPaid(w: World, v: World) {
    w.status.Paid? ==> v.status.Paid? && v.paidAt == w.paidAt
  }

  // What every step keeps but the overdue job's.
  predicate Keeps(w: World, v: World) {
    Inv(v) && Later(w, v) && StaysPaid(w, v) && (PaidUp(w) ==> PaidUp(v))
  }

  predicate KeepsFlag(w: World, v: World) { FlagSound(w) ==> FlagSound(v) }

  lemma KeepsTrans(a: World, b: World, c: World)
    requires Keeps(a, b) && Keeps(b, c)
    ensures Keeps(a, c)
  {
    LaterTrans(a, b, c);
  }

  lemma KeepsRefl(w: World)
    requires Inv(w)
    ensures Keeps(w, w)
  {
    LaterRefl(w);
  }

  lemma LaterTrans(a: World, b: World, c: World)
    requires Later(a, b) && Later(b, c)
    ensures Later(a, c)
  {
    forall i | 0 <= i < |a.intents| ensures IntentLater(a.intents[i], c.intents[i]) {
      assert IntentLater(a.intents[i], b.intents[i]) && IntentLater(b.intents[i], c.intents[i]);
    }
    forall i | 0 <= i < |a.payments| ensures RowLater(a.payments[i], c.payments[i]) {
      assert RowLater(a.payments[i], b.payments[i]) && RowLater(b.payments[i], c.payments[i]);
    }
  }

  // ---- Sums over the payments table ----

  lemma PaidAppend(ps: seq<Payment>, p: Payment)
    ensures PaidSoFar(ps + [p]) == PaidSoFar(ps) + Credit(p)
  {
    assert (ps + [p])[..|ps|] == ps;
  }

  lemma {:induction false} PaidUpdate(ps: seq<Payment>, k: nat, p: Payment)
    requires k < |ps|
    ensures PaidSoFar(ps[k := p]) == PaidSoFar(ps) - Credit(ps[k]) + Credit(p)
  {
    var n := |ps| - 1;
    if k == n {
      assert ps[k := p][..n] == ps[..n];
    } else {
      assert ps[k := p][..n] == ps[..n][k := p];
      PaidUpdate(ps[..n], k, p);
    }
  }

  lemma {:induction false} PaidNonNegative(ps: seq<Payment>)
    requires forall i :: 0 <= i < |ps| ==> ps[i].amount > 0
    ensures PaidSoFar(ps) >= 0
    ensures (exists i :: 0 <= i < |ps| && ps[i].status.Succeeded?) ==> PaidSoFar(ps) > 0
  {
    if ps != [] { PaidNonNegative(ps[..|ps|-1]); }
  }

  lemma IndexFound(ps: seq<Payment>, k: nat)
    requires k < |ps| && !ps[k].reference.ByHand?
    requires forall i, j :: 0 <= i < j < |ps| ==> Apart(ps[i], ps[j])
    ensures IndexOf(ps, ps[k].reference) == k
  {
    var m := IndexOf(ps, ps[k].reference);
    assert m < k ==> Apart(ps[m], ps[k]);
  }

  // ---- The providers' moves ----

  lemma StatusStep(w: World, k: nat, s: PaymentStatus)
    requires IntentInv(w) && RowInv(w) && k < |w.payments|
    requires !w.payments[k].status.Succeeded? && !s.Pending?
    requires w.payments[k].status.Failed? ==> w.payments[k].reference.StripeIntent?
    requires w.payments[k].reference.StripeIntent? && s.Succeeded? ==>
      w.intents[w.payments[k].reference.intent].status.Confirmed?
    ensures var v := SetStatus(w, k, s);
      IntentInv(v) && RowInv(v) && Later(w, v)
      && PaidSoFar(v.payments) == PaidSoFar(w.payments) + (if s.Succeeded? then w.payments[k].amount else 0)
  {
    var v := SetStatus(w, k, s);
    PaidUpdate(w.payments, k, v.payments[k]);
    assert RowOk(w, w.payments[k]);
    forall i | 0 <= i < |v.payments| ensures RowOk(v, v.payments[i]) {
      assert RowOk(w, w.payments[i]);
    }
    forall i, j | 0 <= i < j < |v.payments| ensures Apart(v.payments[i], v.payments[j]) {
      assert Apart(w.payments[i], w.payments[j]);
    }
  }

  predicate SameIntentsButStatus(w: World, v: World, k: nat) {
    && |v.intents| == |w.intents| && k < |w.intents|
    && v == w.(intents := w.intents[k := v.intents[k]])
    && v.intents[k] == w.intents[k].(status := v.intents[k].status)
  }

  // A live intent is confirmed by the customer holding it, or canceled.
  lemma IntentStep(w: World, v: World, k: nat)
    requires IntentInv(w) && RowInv(w) && SameIntentsButStatus(w, v, k) && w.intents[k].status.Live?
    requires v.intents[k].status.Confirmed? ==> w.intents[k].handedOut
    requires !v.intents[k].status.Live?
    ensures IntentInv(v) && RowInv(v) && Later(w, v)
  {
    forall i | 0 <= i < |v.payments| ensures RowOk(v, v.payments[i]) {
      assert RowOk(w, w.payments[i]);
    }
    forall i, j | 0 <= i < j < |v.payments| ensures Apart(v.payments[i], v.payments[j]) {
      assert Apart(w.payments[i], w.payments[j]);
    }
  }

  // Rows are about the intents and what PayPal remembers, and nothing else.
  lemma RowsStand(w: World, v: World)
    requires RowInv(w) && v.payments == w.payments && v.intents == w.intents
    requires forall o :: o in w.paypal ==>
      o in v.paypal && (v.paypal[o] == w.paypal[o] || IndexOf(w.payments, PayPalOrder(o)) == |w.payments|)
    ensures RowInv(v)
  {
    forall i | 0 <= i < |v.payments|
      ensures RowOk(v, v.payments[i])
    {
      assert RowOk(w, w.payments[i]);
      if w.payments[i].reference.PayPalOrder? { assert IndexOf(w.payments, w.payments[i].reference) <= i; }
    }
  }

  predicate EnvFrame(w: World, v: World) {
    && Inv(v) && Later(w, v) && v.current == w.current && |v.intents| == |w.intents|
    && PaidSoFar(v.payments) == PaidSoFar(w.payments) && v.status == w.status
    && v.needsReview == w.needsReview && v.paidAt == w.paidAt && |v.payments| == |w.payments| && v.paypal == w.paypal
  }

  lemma DeclineKeeps(w: World, o: nat)
    requires Inv(w)
    ensures EnvFrame(w, EnvStep(w, ReviewDeclined(o)))
  {
    var k := IndexOf(w.payments, PayPalOrder(o));
    LaterRefl(w);
    if k < |w.payments| && w.payments[k].status.Pending? { StatusStep(w, k, Failed); }
  }

  lemma StripeKeeps(w: World, e: Env)
    requires Inv(w) && !e.ReviewDeclined?
    ensures EnvFrame(w, EnvStep(w, e))
  {
    var v := EnvStep(w, e);
    LaterRefl(w);
    if v != w { IntentStep(w, v, e.intent); }
  }

  lemma EnvStepKeeps(w: World, e: Env)
    requires Inv(w)
    ensures EnvFrame(w, EnvStep(w, e))
  {
    match e
    case ReviewDeclined(o) => DeclineKeeps(w, o);
    case _ => StripeKeeps(w, e);
  }

  lemma {:induction false} EnvRunKeeps(w: World, es: seq<Env>)
    requires Inv(w)
    ensures EnvFrame(w, EnvRun(w, es))
  {
    if es != [] {
      var u := EnvRun(w, es[..|es|-1]);
      EnvRunKeeps(w, es[..|es|-1]);
      EnvStepKeeps(u, es[|es|-1]);
      LaterTrans(w, u, EnvRun(w, es));
    }
  }

  // ---- The pay route ----

  predicate PayFrame(w: World, v: World) {
    && Inv(v) && Later(w, v) && PaidSoFar(v.payments) == PaidSoFar(w.payments) && v.status == w.status
    && v.needsReview == w.needsReview && v.paidAt == w.paidAt
    && |v.payments| == |w.payments| && |w.intents| <= |v.intents|
  }

  lemma FrameTrans(a: World, b: World, c: World)
    requires PayFrame(a, b) && PayFrame(b, c)
    ensures PayFrame(a, c)
  {
    LaterTrans(a, b, c);
  }

  lemma FrameRefl(w: World)
    requires Inv(w)
    ensures PayFrame(w, w)
  {
    LaterRefl(w);
  }

  lemma FrameKeeps(w: World, v: World)
    requires Inv(w) && PayFrame(w, v)
    ensures Keeps(w, v) && KeepsFlag(w, v)
  {
  }

  // No intent is left that could still take money.
  predicate NoneCollectable(w: World) {
    w.current.Some? && w.current.value < |w.intents| ==> w.intents[w.current.value].status.Canceled?
  }

  lemma AppendIntent(w: World, due: int)
    requires Inv(w) && due > 0
    ensures PayFrame(w, w.(intents := w.intents + [Intent(due, Live, false)]))
  {
    var v := w.(intents := w.intents + [Intent(due, Live, false)]);
    forall i | 0 <= i < |v.payments| ensures RowOk(v, v.payments[i]) {
      assert RowOk(w, w.payments[i]);
    }
    forall i, j | 0 <= i < j < |v.payments| ensures Apart(v.payments[i], v.payments[j]) {
      assert Apart(w.payments[i], w.payments[j]);
    }
  }

  lemma HandOutKeeps(w: World, id: nat)
    requires Inv(w) && NoneCollectable(w) && id < |w.intents| && !w.intents[id].handedOut
    ensures PayFrame(w, HandOut(w, id))
  {
    var v := HandOut(w, id);
    forall i | 0 <= i < |v.payments| ensures RowOk(v, v.payments[i]) {
      assert RowOk(w, w.payments[i]);
    }
    forall i, j | 0 <= i < j < |v.payments| ensures Apart(v.payments[i], v.payments[j]) {
      assert Apart(w.payments[i], w.payments[j]);
    }
  }

  lemma CreateKeeps(w: World, due: int, p: PayScript)
    requires Inv(w) && NoneCollectable(w) && due > 0
    ensures PayFrame(w, CreateIntent(w, due, p).0)
  {
    var w1 := EnvRun(w, p.beforeCreate);
    EnvRunKeeps(w, p.beforeCreate);
    EnvPays(w, p.beforeCreate);
    if !p.create.Down? {
      CreatedKeeps(w1, due, p);
      FrameTrans(w, w1, CreateIntent(w, due, p).0);
    }
  }

  // From the moment Stripe has created the intent.
  lemma CreatedKeeps(w: World, due: int, p: PayScript)
    requires Inv(w) && NoneCollectable(w) && due > 0
    ensures
      var v := w.(intents := w.intents + [Intent(due, Live, false)]);
      var u := EnvRun(v, p.beforeCommit);
      PayFrame(w, v) && PayFrame(w, u) && PayFrame(w, HandOut(u, |w.intents|))
  {
    var v := w.(intents := w.intents + [Intent(due, Live, false)]);
    var u := EnvRun(v, p.beforeCommit);
    AppendIntent(w, due);
    EnvRunKeeps(v, p.beforeCommit);
    EnvPays(v, p.beforeCommit);
    EnvHandsOutNothing(v, p.beforeCommit, |w.intents|);
    FrameTrans(w, v, u);
    StillNoneCollectable(w, due, v, u);
    HandOutKeeps(u, |w.intents|);
    FrameTrans(w, u, HandOut(u, |w.intents|));
  }

  lemma StillNoneCollectable(w: World, due: int, v: World, u: World)
    requires Inv(w) && NoneCollectable(w) && v == w.(intents := w.intents + [Intent(due, Live, false)])
    requires EnvFrame(v, u)
    ensures NoneCollectable(u)
  {
    if w.current.Some? {
      var i := w.current.value;
      assert v.intents[i] == w.intents[i] && IntentLater(v.intents[i], u.intents[i]);
    }
  }

  lemma {:induction false} EnvHandsOutNothing(w: World, es: seq<Env>, id: nat)
    requires id < |w.intents| && !w.intents[id].handedOut
    ensures id < |EnvRun(w, es).intents| && !EnvRun(w, es).intents[id].handedOut
  {
    if es != [] { EnvHandsOutNothing(w, es[..|es|-1], id); }
  }

  lemma CancelKeeps(w: World, id: nat)
    requires Inv(w) && id < |w.intents| && w.intents[id].status.Live?
    ensures PayFrame(w, CancelIntent(w, id))
  {
    IntentStep(w, CancelIntent(w, id), id);
  }

  lemma ReplaceKeeps(w: World, id: nat, due: int, p: PayScript)
    requires Inv(w) && w.current == Some(id) && due > 0
    ensures PayFrame(w, ReplaceIntent(w, id, due, p).0)
  {
    EnvRunKeeps(w, p.beforeCancel);
    EnvPays(w, p.beforeCancel);
    var w1 := EnvRun(w, p.beforeCancel);
    if !p.cancel.Down? && w1.intents[id].status.Live? {
      var w2 := CancelIntent(w1, id);
      CancelKeeps(w1, id);
      FrameTrans(w, w1, w2);
      CreateKeeps(w2, due, p);
      FrameTrans(w, w2, CreateIntent(w2, due, p).0);
    }
  }

  lemma ResumeKeeps(w: World, id: nat, due: int, p: PayScript)
    requires Inv(w) && w.current == Some(id) && due > 0
    ensures PayFrame(w, ResumeIntent(w, id, due, p).0)
  {
    EnvRunKeeps(w, p.beforeRetrieve);
    EnvPays(w, p.beforeRetrieve);
    var w1, r := EnvRun(w, p.beforeRetrieve), ResumeIntent(w, id, due, p).0;
    if p.retrieve.Answered? && !w1.intents[id].status.Confirmed? {
      if w1.intents[id].status.Canceled? {
        CreateKeeps(w1, due, p);
      } else if w1.intents[id].amount == due {
        EnvPays(w1, p.beforeCommit);
      } else {
        ReplaceKeeps(w1, id, due, p);
      }
      FrameTrans(w, w1, r);
    }
  }

  lemma PayKeeps(w: World, p: PayScript)
    requires Inv(w)
    ensures PayFrame(w, PayInvoice(w, p).0)
  {
    FrameRefl(w);
    if AmountDue(w) > 0 {
      if w.current.None? {
        CreateKeeps(w, AmountDue(w), p);
      } else {
        ResumeKeeps(w, w.current.value, AmountDue(w), p);
      }
    }
  }

  lemma LaterRefl(w: World)
    ensures Later(w, w)
  {
  }

  lemma EnvPays(w: World, es: seq<Env>)
    requires Inv(w)
    ensures PayFrame(w, EnvRun(w, es))
  {
    EnvRunKeeps(w, es);
  }

  lemma OrderKeeps(w: World, id: nat, due: int, p: PayScript)
    requires Inv(w)
    ensures PayFrame(w, OrderAfterCard(w, id, due, p).0)
  {
    var w1 := EnvRun(w, p.beforeRetrieve);
    EnvPays(w, p.beforeRetrieve);
    EnvPays(w1, p.beforeCreate);
    FrameTrans(w, w1, EnvRun(w1, p.beforeCreate));
  }

  lemma StartKeeps(w: World, p: PayScript)
    requires Inv(w)
    ensures PayFrame(w, StartPayPal(w, p).0)
  {
    FrameRefl(w);
    if w.current.Some? {
      OrderKeeps(w, w.current.value, AmountDue(w), p);
    } else {
      EnvPays(w, p.beforeCreate);
    }
  }

  // ---- Recording money ----

  lemma InsertKeeps(w: World, p: Payment)
    requires IntentInv(w) && RowInv(w) && RowOk(w, p) && Insertable(w.payments, p)
    requires p.status.Pending? ==> !HasPending(w.payments)
    ensures var v := Insert(w, p);
      IntentInv(v) && RowInv(v) && Later(w, v) && PaidSoFar(v.payments) == PaidSoFar(w.payments) + Credit(p)
  {
    var v := Insert(w, p);
    PaidAppend(w.payments, p);
    forall i | 0 <= i < |v.payments| ensures RowOk(v, v.payments[i]) {
      if i < |w.payments| { assert RowOk(w, w.payments[i]); }
    }
    forall i, j | 0 <= i < j < |v.payments| ensures Apart(v.payments[i], v.payments[j]) {
      if j < |w.payments| { assert Apart(w.payments[i], w.payments[j]); }
    }
  }

  // v: the state after the money was recorded, before settling. Settling marks what is
  // covered, and neither an earlier paid_at of a paid invoice nor a flag anew.
  lemma SettleKeeps(w: World, v: World, now: nat)
    requires Inv(w) && IntentInv(v) && RowInv(v) && Later(w, v)
    requires v.status == w.status && v.paidAt == w.paidAt
    requires PaidSoFar(w.payments) <= PaidSoFar(v.payments) && PaidSoFar(v.payments) > 0
    ensures Keeps(w, Settle(v, now)) && Settle(v, now).needsReview == v.needsReview && PaidUp(Settle(v, now))
  {
    RowsStand(v, Settle(v, now));
  }

  lemma NothingNegative(w: World)
    requires RowInv(w)
    ensures PaidSoFar(w.payments) >= 0
    ensures (exists i :: 0 <= i < |w.payments| && w.payments[i].status.Succeeded?) ==> PaidSoFar(w.payments) > 0
  {
    forall i | 0 <= i < |w.payments| ensures w.payments[i].amount > 0 { assert RowOk(w, w.payments[i]); }
    PaidNonNegative(w.payments);
  }

  // A row that adds nothing leaves the invoice as covered as it was.
  lemma SameSumKeeps(w: World, v: World)
    requires Inv(w) && IntentInv(v) && RowInv(v) && Later(w, v)
    requires v.status == w.status && v.paidAt == w.paidAt && v.needsReview == w.needsReview
    requires PaidSoFar(w.payments) == PaidSoFar(v.payments)
    ensures Keeps(w, v) && KeepsFlag(w, v)
  {
  }

  lemma FlagKeeps(w: World, v: World)
    requires IntentInv(v) && RowInv(v) && Later(w, v)
    ensures IntentInv(Flag(v)) && RowInv(Flag(v)) && Later(w, Flag(v))
  {
    RowsStand(v, Flag(v));
  }

  lemma AfterSuccessKeeps(w: World, v: World, now: nat)
    requires Inv(w) && IntentInv(v) && RowInv(v) && Later(w, v)
    requires v.status == w.status && v.paidAt == w.paidAt
    requires PaidSoFar(w.payments) <= PaidSoFar(v.payments) && PaidSoFar(v.payments) > 0
    ensures var r := AfterSuccess(v, now); Keeps(w, r) && FlagSound(r) && r.payments == v.payments
  {
    RaceKeeps(w, v, now);
    var s := Settle(FlagIfPending(v), now);
    FlagInv(w, s);
  }

  lemma RaceKeeps(w: World, v: World, now: nat)
    requires Inv(w) && IntentInv(v) && RowInv(v) && Later(w, v)
    requires v.status == w.status && v.paidAt == w.paidAt
    requires PaidSoFar(w.payments) <= PaidSoFar(v.payments) && PaidSoFar(v.payments) > 0
    ensures var s := Settle(FlagIfPending(v), now); Keeps(w, s) && s.payments == v.payments
  {
    if HasPending(v.payments) {
      FlagKeeps(w, v);
      SettleKeeps(w, Flag(v), now);
    } else {
      SettleKeeps(w, v, now);
    }
  }

  lemma FlagInv(w: World, v: World)
    requires Keeps(w, v)
    ensures Keeps(w, Flag(v))
  {
    FlagKeeps(w, v);
  }

  lemma PendingRowKeeps(w: World, row: Payment)
    requires Inv(w) && !HasPending(w.payments) && RowOk(w, row) && Insertable(w.payments, row) && row.status.Pending?
    ensures Keeps(w, Insert(w, row)) && KeepsFlag(w, Insert(w, row))
  {
    InsertKeeps(w, row);
    SameSumKeeps(w, Insert(w, row));
  }

  // The captured amount is flagged unless it is exactly what was due.
  lemma CapturedRowKeeps(w: World, row: Payment, now: nat)
    requires Inv(w) && RowOk(w, row) && Insertable(w.payments, row) && row.status.Succeeded?
    ensures
      var overpaid := AmountDue(w) <= 0 || row.amount != AmountDue(w);
      var r := Settle(if overpaid then Flag(Insert(w, row)) else Insert(w, row), now);
      Keeps(w, r) && KeepsFlag(w, r)
  {
    var v := Insert(w, row);
    InsertKeeps(w, row);
    NothingNegative(w);
    assert v.status == w.status && v.paidAt == w.paidAt && v.total == w.total;
    if AmountDue(w) <= 0 || row.amount != AmountDue(w) {
      FlagKeeps(w, v);
      SettleKeeps(w, Flag(v), now);
    } else {
      SettleKeeps(w, v, now);
    }
  }

  lemma RecordCaptureKeeps(w: World, c: CaptureScript, a: Captured)
    requires Inv(w) && !HasPending(w.payments) && c.order in w.paypal && w.paypal[c.order] == a
    ensures var r := RecordCapture(w, c, a).0; Keeps(w, r) && KeepsFlag(w, r)
  {
    KeepsRefl(w);
    if a.ours && !a.status.DECLINED? && a.sameCurrency {
      var row := CapturedRow(c.order, a);
      if Insertable(w.payments, row) && c.commits {
        if row.status.Pending? { PendingRowKeeps(w, row); } else { CapturedRowKeeps(w, row, c.now); }
      }
    }
  }

  lemma CaptureKeeps(w: World, c: CaptureScript)
    requires Inv(w)
    ensures var r := CaptureOrder(w, c).0; Keeps(w, r) && KeepsFlag(w, r)
  {
    KeepsRefl(w);
    if IndexOf(w.payments, PayPalOrder(c.order)) == |w.payments| && !HasPending(w.payments) && Payable(w) {
      var w1 := EnvRun(w, c.during);
      var w2 := CallPayPal(w1, c);
      EnvPays(w, c.during);
      FrameKeeps(w, w1);
      EnvNoPending(w, c.during);
      CallKeeps(w1, c);
      KeepsTrans(w, w1, w2);
      if c.net.Answered? {
        RecordCaptureKeeps(w2, c, AnswerOf(w1, c));
        KeepsTrans(w, w2, RecordCapture(w2, c, AnswerOf(w1, c)).0);
      }
    }
  }

  // PayPal never changes its answer about an order in the table.
  lemma CallKeeps(w: World, c: CaptureScript)
    requires Inv(w) && IndexOf(w.payments, PayPalOrder(c.order)) == |w.payments|
    ensures Keeps(w, CallPayPal(w, c)) && KeepsFlag(w, CallPayPal(w, c))
  {
    RowsStand(w, CallPayPal(w, c));
    LaterRefl(w);
    SameSumKeeps(w, CallPayPal(w, c));
  }

  lemma {:induction false} EnvNoPending(w: World, es: seq<Env>)
    requires !HasPending(w.payments)
    ensures EnvRun(w, es).payments == w.payments
  {
    if es != [] { EnvNoPending(w, es[..|es|-1]); }
  }

  lemma TurnedRowKeeps(w: World, k: nat, d: Delivery)
    requires Inv(w) && Authentic(w, d) && k < |w.payments| && w.payments[k].reference == StripeIntent(d.intent)
    requires !w.payments[k].status.Succeeded?
    ensures
      var v := SetStatus(w, k, if d.success then Succeeded else Failed);
      var r := if d.success then AfterSuccess(v, d.now) else v;
      Keeps(w, r) && KeepsFlag(w, r)
  {
    assert RowOk(w, w.payments[k]);
    var s := if d.success then Succeeded else Failed;
    StatusStep(w, k, s);
    NothingNegative(w);
    if d.success { AfterSuccessKeeps(w, SetStatus(w, k, s), d.now); } else { SameSumKeeps(w, SetStatus(w, k, s)); }
  }

  lemma NewRowKeeps(w: World, row: Payment, d: Delivery)
    requires Inv(w) && RowOk(w, row) && Insertable(w.payments, row) && !row.status.Pending?
    requires row.status.Succeeded? <==> d.success
    ensures
      var r := if d.success then AfterSuccess(Insert(w, row), d.now) else Insert(w, row);
      Keeps(w, r) && KeepsFlag(w, r)
  {
    InsertKeeps(w, row);
    NothingNegative(w);
    if d.success { AfterSuccessKeeps(w, Insert(w, row), d.now); } else { SameSumKeeps(w, Insert(w, row)); }
  }

  lemma WebhookKeeps(w: World, d: Delivery)
    requires Inv(w) && Authentic(w, d)
    ensures var r := Webhook(w, d); Keeps(w, r) && KeepsFlag(w, r)
  {
    KeepsRefl(w);
    if w.current == Some(d.intent) {
      var k := IndexOf(w.payments, StripeIntent(d.intent));
      if k < |w.payments| {
        if !w.payments[k].status.Succeeded? {
          TurnedRowKeeps(w, k, d);
        } else if d.success {
          RedeliveryKeeps(w, k, d);
        }
      } else {
        var row := Payment(StripeIntent(d.intent), d.amount, if d.success then Succeeded else Failed, d.charge,
                           if d.success then d.zip else None);
        if Insertable(w.payments, row) { NewRowKeeps(w, row, d); }
      }
    }
  }

  // A second success for an intent already recorded adds no row; it can raise the flag, and
  // settles an invoice that is covered but not marked paid.
  lemma RedeliveryKeeps(w: World, k: nat, d: Delivery)
    requires Inv(w) && k < |w.payments| && w.payments[k].status.Succeeded?
    ensures var r := AfterSuccess(SetStatus(w, k, Succeeded), d.now); Keeps(w, r) && KeepsFlag(w, r)
  {
    assert w.payments[k := w.payments[k].(status := Succeeded)] == w.payments;
    NothingNegative(w);
    LaterRefl(w);
    AfterSuccessKeeps(w, w, d.now);
  }

  lemma ReviewedRowKeeps(w: World, k: nat, s: PaymentStatus, now: nat)
    requires Inv(w) && k < |w.payments| && w.payments[k].status.Pending? && !s.Pending?
    ensures
      var u := SetStatus(w, k, s);
      var r := if s.Succeeded? then Settle(FlagIfOverpaid(u), now) else u;
      Keeps(w, r) && KeepsFlag(w, r)
  {
    assert RowOk(w, w.payments[k]);
    var u := SetStatus(w, k, s);
    StatusStep(w, k, s);
    NothingNegative(w);
    if s.Succeeded? {
      FlagKeeps(w, u);
      SettleKeeps(w, FlagIfOverpaid(u), now);
    } else {
      SameSumKeeps(w, u);
    }
  }

  lemma ReconcileKeeps(w: World, o: nat, v: Verdict, now: nat)
    requires Inv(w)
    ensures var r := ReconcileOrder(w, o, v, now); Keeps(w, r) && KeepsFlag(w, r)
  {
    KeepsRefl(w);
    var k := IndexOf(w.payments, PayPalOrder(o));
    if k < |w.payments| && w.payments[k].status.Pending? {
      ReviewedRowKeeps(w, k, Failed, now);
      ReviewedRowKeeps(w, k, Succeeded, now);
    }
  }

  lemma ManualKeeps(w: World, amount: int, now: nat)
    requires Inv(w)
    ensures var r := ManualPayment(w, amount, now).0;
      && Keeps(w, r)
      && (FlagSound(w) ==> (FlagSound(r) <==> !UnflaggedOverpayment(w, RecordManual(amount, now))))
  {
    KeepsRefl(w);
    if amount > 0 && Payable(w) && !HasPending(w.payments) {
      var row := Payment(ByHand, amount, Succeeded, None, None);
      InsertKeeps(w, row);
      NothingNegative(w);
      SettleKeeps(w, Insert(w, row), now);
    }
  }

  lemma StatusKeeps(w: World, v: World)
    requires Inv(w) && v == w.(status := v.status, jobs := v.jobs) && !v.status.Paid?
    ensures Inv(v) && Later(w, v) && KeepsFlag(w, v)
  {
    RowsStand(w, v);
    LaterRefl(w);
  }

  lemma JobsKeeps(w: World, v: World)
    requires Inv(w) && v == w.(jobs := v.jobs)
    ensures Keeps(w, v) && KeepsFlag(w, v)
  {
    RowsStand(w, v);
    LaterRefl(w);
  }

  lemma VoidKeeps(w: World)
    requires Inv(w) && Payable(w)
    ensures Keeps(w, w.(status := Void)) && KeepsFlag(w, w.(status := Void))
  {
    StatusKeeps(w, w.(status := Void));
  }

  // The overdue job may find the invoice paid when it comes to write.
  lemma MarkKeeps(w: World, commits: bool)
    requires Inv(w)
    ensures var r := MarkOverdue(w, commits);
      && Inv(r) && Later(w, r) && KeepsFlag(w, r)
      && (w.status.Paid? ==> (StaysPaid(w, r) <==> !StaleWrite(w, JobWrites(commits))))
      && (PaidUp(w) ==> (PaidUp(r) <==> !StaleWrite(w, JobWrites(commits))))
  {
    var r := MarkOverdue(w, commits);
    if w.jobs > 0 && commits {
      StatusKeeps(w, r);
    } else {
      JobsKeeps(w, r);
    }
  }

  // ---- Every step, every run ----

  // The one step that can break the promise of the flag: an admin records by hand
  // more than is due, on an invoice not flagged yet.
  predicate UnflaggedOverpayment(w: World, op: Op) {
    op.RecordManual? && op.amount > w.total - PaidSoFar(w.payments) && op.amount > 0
    && Payable(w) && !HasPending(w.payments) && !w.needsReview
  }

  // The one step that can break the promise that paid is for good: the overdue job writes
  // what it read before the invoice was paid.
  predicate StaleWrite(w: World, op: Op) { op.JobWrites? && op.commits && w.jobs > 0 && w.status.Paid? }

  lemma MostStepsKeep(w: World, op: Op)
    requires Inv(w) && !op.RecordManual? && !op.JobWrites?
    ensures Keeps(w, Step(w, op).0) && KeepsFlag(w, Step(w, op).0)
  {
    KeepsRefl(w);
    match op
    case Pay(p) => PayKeeps(w, p); FrameKeeps(w, PayInvoice(w, p).0);
    case StartOrder(p) => StartKeeps(w, p); FrameKeeps(w, StartPayPal(w, p).0);
    case Capture(c) => CaptureKeeps(w, c);
    case Deliver(d) => if Authentic(w, d) { WebhookKeeps(w, d); }
    case Reconcile(o, v, now) => ReconcileKeeps(w, o, v, now);
    case VoidInvoice => if Payable(w) { VoidKeeps(w); }
    case JobReads(pastDue) => JobsKeeps(w, ReadSent(w, pastDue));
    case Outside(e) => OutsideKeeps(w, e);
  }

  lemma OutsideKeeps(w: World, e: Env)
    requires Inv(w)
    ensures Keeps(w, EnvStep(w, e)) && KeepsFlag(w, EnvStep(w, e))
  {
    EnvStepKeeps(w, e);
    FrameKeeps(w, EnvStep(w, e));
  }

  lemma StepKeeps(w: World, op: Op)
    requires Inv(w)
    ensures var r := Step(w, op).0;
      && Inv(r) && Later(w, r)
      && (FlagSound(w) ==> (FlagSound(r) <==> !UnflaggedOverpayment(w, op)))
      && (w.status.Paid? ==> (r.status.Paid? && r.paidAt == w.paidAt <==> !StaleWrite(w, op)))
      && (PaidUp(w) ==> (PaidUp(r) <==> !StaleWrite(w, op)))
  {
    if op.RecordManual? {
      ManualKeeps(w, op.amount, op.now);
    } else if op.JobWrites? {
      MarkKeeps(w, op.commits);
    } else {
      MostStepsKeep(w, op);
    }
  }

  lemma {:induction false} RunKeeps(w: World, ops: seq<Op>)
    requires Inv(w)
    ensures Inv(Run(w, ops)) && Later(w, Run(w, ops))
  {
    if ops != [] {
      var u := Run(w, ops[..|ops|-1]);
      RunKeeps(w, ops[..|ops|-1]);
      StepKeeps(u, ops[|ops|-1]);
      LaterTrans(w, u, Run(w, ops));
    }
  }

  // ---- What only a capture and the overdue job touch ----

  predicate SameOutside(w: World, v: World) {
    v.captures == w.captures && v.paypal == w.paypal && v.jobs == w.jobs
  }

  lemma {:induction false} EnvOutside(w: World, es: seq<Env>)
    ensures SameOutside(w, EnvRun(w, es))
  {
    if es != [] { EnvOutside(w, es[..|es|-1]); }
  }

  lemma CreateOutside(w: World, due: int, p: PayScript)
    ensures SameOutside(w, CreateIntent(w, due, p).0)
  {
    EnvOutside(w, p.beforeCreate);
    var w1 := EnvRun(w, p.beforeCreate);
    EnvOutside(w1.(intents := w1.intents + [Intent(due, Live, false)]), p.beforeCommit);
  }

  lemma ReplaceOutside(w: World, id: nat, due: int, p: PayScript)
    ensures SameOutside(w, ReplaceIntent(w, id, due, p).0)
  {
    EnvOutside(w, p.beforeCancel);
    var w1 := EnvRun(w, p.beforeCancel);
    if id < |w1.intents| { CreateOutside(CancelIntent(w1, id), due, p); }
  }

  lemma ResumeOutside(w: World, id: nat, due: int, p: PayScript)
    ensures SameOutside(w, ResumeIntent(w, id, due, p).0)
  {
    EnvOutside(w, p.beforeRetrieve);
    var w1 := EnvRun(w, p.beforeRetrieve);
    EnvOutside(w1, p.beforeCommit);
    CreateOutside(w1, due, p);
    ReplaceOutside(w1, id, due, p);
  }

  lemma PayOutside(w: World, p: PayScript)
    ensures SameOutside(w, PayInvoice(w, p).0)
  {
    CreateOutside(w, AmountDue(w), p);
    if w.current.Some? { ResumeOutside(w, w.current.value, AmountDue(w), p); }
  }

  lemma OrderOutside(w: World, id: nat, due: int, p: PayScript)
    ensures SameOutside(w, OrderAfterCard(w, id, due, p).0)
  {
    EnvOutside(w, p.beforeRetrieve);
    EnvOutside(EnvRun(w, p.beforeRetrieve), p.beforeCreate);
  }

  lemma StartOutside(w: World, p: PayScript)
    ensures SameOutside(w, StartPayPal(w, p).0)
  {
    EnvOutside(w, p.beforeCreate);
    if w.current.Some? { OrderOutside(w, w.current.value, AmountDue(w), p); }
  }

  lemma SuccessOutside(w: World, now: nat)
    ensures SameOutside(w, AfterSuccess(w, now))
  {
  }

  lemma WebhookOutside(w: World, d: Delivery)
    ensures SameOutside(w, Webhook(w, d))
  {
    var k, row := IndexOf(w.payments, StripeIntent(d.intent)),
        Payment(StripeIntent(d.intent), d.amount, Succeeded, d.charge, d.zip);
    SuccessOutside(Insert(w, row), d.now);
    if k < |w.payments| { SuccessOutside(SetStatus(w, k, Succeeded), d.now); }
  }

  lemma MostStepsOutside(w: World, op: Op)
    requires !op.Capture? && !op.JobReads? && !op.JobWrites?
    ensures SameOutside(w, Step(w, op).0)
  {
    match op
    case Pay(p) => PayOutside(w, p);
    case StartOrder(p) => StartOutside(w, p);
    case Deliver(d) => WebhookOutside(w, d);
    case _ =>
  }

  lemma RecordOutside(w: World, c: CaptureScript, a: Captured)
    ensures SameOutside(w, RecordCapture(w, c, a).0)
  {
  }

  // A capture that gets past the guards asks PayPal, once, and leaves the rest alone.
  lemma CaptureOutside(w: World, c: CaptureScript)
    requires IndexOf(w.payments, PayPalOrder(c.order)) == |w.payments| && !HasPending(w.payments) && Payable(w)
    ensures SameOutside(CallPayPal(w, c), CaptureOrder(w, c).0)
  {
    EnvOutside(w, c.during);
    var w1 := EnvRun(w, c.during);
    RecordOutside(CallPayPal(w1, c), c, AnswerOf(w1, c));
  }
}
