// What the routes of a collected invoice answer, and when, in terms of the invoice before the
// call and of what the providers do meanwhile.
module CollectionAnswers {
  import opened Options
  import opened Collection
  import opened CollectionProofs
  import opened CollectionTheorems

  predicate Open(w: World) { w.status == Sent || w.status == Overdue }

  predicate UnderReviewNow(w: World) { exists i :: 0 <= i < |w.payments| && w.payments[i].status == Pending }

  // What the customer still owes, were the invoice billed now.
  function Owed(w: World): int { w.total - PaidSoFar(w.payments) }

  // Open, nothing under review, something owed: there is something to pay.
  predicate ToPay(w: World) { Open(w) && !UnderReviewNow(w) && Owed(w) > 0 }

  lemma ToPayIs(w: World)
    ensures Payable(w) <==> Open(w)
    ensures HasPending(w.payments) <==> UnderReviewNow(w)
    ensures AmountDue(w) > 0 <==> Owed(w) > 0
    ensures AmountDue(w) > 0 ==> AmountDue(w) == Owed(w)
    ensures AmountDue(w) >= 0
  {
  }

  // ---- The guards ----

  // The answers given before Stripe is asked, whatever the script; they change nothing.
  lemma PayGuards(w: World, p: PayScript)
    ensures var (v, r) := PayInvoice(w, p);
      && (r == Refused(NotPayable) <==> !Open(w))
      && (r == Refused(UnderReview) <==> Open(w) && UnderReviewNow(w))
      && (r == Refused(AlreadyCovered) <==> Open(w) && !UnderReviewNow(w) && Owed(w) <= 0)
      && (r == Refused(NotConfigured) <==> ToPay(w) && !p.configured)
      && (!ToPay(w) || !p.configured ==> v == w)
  {
    ToPayIs(w);
    if ToPay(w) && p.configured {
      CreateAnswers(w, AmountDue(w), p);
      if w.current.Some? { ResumeAnswers(w, w.current.value, AmountDue(w), p); }
    }
  }

  predicate FromStripe(r: Response) {
    r.Secret? || r == Refused(AlreadyPaid) || r == Refused(ProviderDown) || r == Refused(ServerError)
  }

  lemma CreateAnswers(w: World, due: int, p: PayScript)
    ensures FromStripe(CreateIntent(w, due, p).1)
    ensures CreateIntent(w, due, p).1 != Refused(AlreadyPaid)
  {
  }

  lemma ResumeAnswers(w: World, id: nat, due: int, p: PayScript)
    ensures FromStripe(ResumeIntent(w, id, due, p).1)
  {
  }

  // ---- The card route ----

  // The current intent as Stripe reports it to the route.
  function SeenByPay(w: World, p: PayScript): World { EnvRun(w, p.beforeRetrieve) }

  function CardSeen(w: World, seen: World): Option<IntentStatus> {
    if w.current.Some? && w.current.value < |seen.intents| then Some(seen.intents[w.current.value].status) else None
  }

  predicate Reusable(w: World, seen: World) {
    && w.current.Some? && w.current.value < |seen.intents|
    && seen.intents[w.current.value].status == Live && seen.intents[w.current.value].amount == Owed(w)
  }

  // However Stripe and the customer move meanwhile: the intent whose secret is handed out is
  // the old one only if that was seen live and for the amount owed; otherwise it was created
  // by this call, and the old one, if any, is canceled. So no dead intent's secret is given.
  lemma SecretIsAlive(w: World, p: PayScript)
    requires Inv(w)
    ensures var (v, r) := PayInvoice(w, p);
      r.Secret? ==>
        && ToPay(w) && r.intent < |v.intents| && v.intents[r.intent].amount == Owed(w)
        && (r.intent < |w.intents| <==> Reusable(w, SeenByPay(w, p)))
        && (Reusable(w, SeenByPay(w, p)) ==> w.current == Some(r.intent))
        && (!Reusable(w, SeenByPay(w, p)) && w.current.Some? ==> v.intents[w.current.value].status == Canceled)
  {
    ToPayIs(w);
    if ToPay(w) && p.configured {
      SecretBillsAmountDue(w, p);
      PayKeeps(w, p);
      if w.current.None? {
        CreatedIsNew(w, AmountDue(w), p);
      } else {
        ResumedIsAlive(w, w.current.value, AmountDue(w), p);
      }
    }
  }

  lemma CreatedIsNew(w: World, due: int, p: PayScript)
    requires Inv(w)
    ensures CreateIntent(w, due, p).1.Secret? ==> CreateIntent(w, due, p).1.intent == |w.intents|
  {
    EnvRunKeeps(w, p.beforeCreate);
  }

  lemma CreateCancels(w: World, due: int, p: PayScript, i: nat)
    requires Inv(w) && due > 0 && NoneCollectable(w) && i < |w.intents| && w.intents[i].status.Canceled?
    ensures var v := CreateIntent(w, due, p).0; i < |v.intents| && v.intents[i].status.Canceled?
  {
    CreateKeeps(w, due, p);
    assert IntentLater(w.intents[i], CreateIntent(w, due, p).0.intents[i]);
  }

  lemma ResumedIsAlive(w: World, id: nat, due: int, p: PayScript)
    requires Inv(w) && w.current == Some(id) && due > 0
    ensures
      var seen, (v, r) := SeenByPay(w, p), ResumeIntent(w, id, due, p);
      var reuse := id < |seen.intents| && seen.intents[id].status == Live && seen.intents[id].amount == due;
      r.Secret? ==>
        && (reuse ==> r.intent == id)
        && (!reuse ==> r.intent >= |w.intents| && id < |v.intents| && v.intents[id].status == Canceled)
  {
    EnvRunKeeps(w, p.beforeRetrieve);
    var seen := SeenByPay(w, p);
    if p.retrieve.Answered? && !seen.intents[id].status.Confirmed? {
      if seen.intents[id].status.Canceled? {
        CreatedIsNew(seen, due, p);
        CreateCancels(seen, due, p, id);
      } else if seen.intents[id].amount != due {
        ReplacedIsNew(seen, id, due, p);
      }
    }
  }

  lemma ReplacedIsNew(w: World, id: nat, due: int, p: PayScript)
    requires Inv(w) && w.current == Some(id) && due > 0
    ensures var (v, r) := ReplaceIntent(w, id, due, p);
      r.Secret? ==> r.intent >= |w.intents| && id < |v.intents| && v.intents[id].status == Canceled
  {
    EnvRunKeeps(w, p.beforeCancel);
    var w1 := EnvRun(w, p.beforeCancel);
    if w1.intents[id].status.Live? {
      CancelKeeps(w1, id);
      CreatedIsNew(CancelIntent(w1, id), due, p);
      CreateCancels(CancelIntent(w1, id), due, p, id);
    }
  }

  // A payment already made is reported exactly when Stripe reports the current intent
  // confirmed.
  lemma AlreadyPaidIff(w: World, p: PayScript)
    requires Inv(w)
    ensures PayInvoice(w, p).1 == Refused(AlreadyPaid) <==>
      ToPay(w) && p.configured && p.retrieve == Answered && CardSeen(w, SeenByPay(w, p)) == Some(Confirmed)
  {
    ToPayIs(w);
    EnvRunKeeps(w, p.beforeRetrieve);
    if ToPay(w) && p.configured {
      if w.current.None? {
        CreateAnswers(w, AmountDue(w), p);
      } else {
        NotPaidElsewhere(w, w.current.value, AmountDue(w), p);
      }
    }
  }

  lemma NotPaidElsewhere(w: World, id: nat, due: int, p: PayScript)
    requires Inv(w) && w.current == Some(id)
    ensures
      var seen := SeenByPay(w, p);
      ResumeIntent(w, id, due, p).1 == Refused(AlreadyPaid) <==>
        p.retrieve == Answered && id < |seen.intents| && seen.intents[id].status == Confirmed
  {
  }

  // The two failures: a new intent was created and its transaction did not commit; or a call
  // went unanswered, or the intent to be replaced was no longer live when it came to that.
  lemma PayFailures(w: World, p: PayScript)
    requires Inv(w)
    ensures var (v, r) := PayInvoice(w, p);
      && (r == Refused(ServerError) ==> !p.commits && |v.intents| > |w.intents| && v.current == w.current)
      && (r == Refused(ProviderDown) ==>
            || p.retrieve != Answered || p.cancel != Answered || p.create != Answered
            || CardSeen(w, EnvRun(SeenByPay(w, p), p.beforeCancel)) != Some(Live))
      && (r.Secret? && r.intent >= |w.intents| ==> p.create == Answered && p.commits)
  {
    ToPayIs(w);
    if ToPay(w) && p.configured {
      if w.current.None? {
        CreateFails(w, AmountDue(w), p);
      } else {
        ResumeFails(w, w.current.value, AmountDue(w), p);
      }
    }
  }

  lemma CreateFails(w: World, due: int, p: PayScript)
    requires Inv(w) && due > 0
    ensures var (v, r) := CreateIntent(w, due, p);
      && (r == Refused(ServerError) <==> p.create == Answered && !p.commits)
      && (r == Refused(ProviderDown) <==> p.create != Answered)
      && (r == Refused(ServerError) ==> |v.intents| > |w.intents| && v.current == w.current)
  {
    EnvRunKeeps(w, p.beforeCreate);
    var w1 := EnvRun(w, p.beforeCreate);
    AppendIntent(w1, due);
    EnvRunKeeps(w1.(intents := w1.intents + [Intent(due, Live, false)]), p.beforeCommit);
  }

  lemma ResumeFails(w: World, id: nat, due: int, p: PayScript)
    requires Inv(w) && w.current == Some(id) && due > 0
    ensures var (v, r) := ResumeIntent(w, id, due, p);
      && (r == Refused(ServerError) ==> !p.commits && |v.intents| > |w.intents| && v.current == w.current)
      && (r == Refused(ProviderDown) ==>
            || p.retrieve != Answered || p.cancel != Answered || p.create != Answered
            || CardSeen(w, EnvRun(SeenByPay(w, p), p.beforeCancel)) != Some(Live))
      && (r.Secret? && r.intent >= |w.intents| ==> p.create == Answered && p.commits)
  {
    EnvRunKeeps(w, p.beforeRetrieve);
    var seen := SeenByPay(w, p);
    CreateFails(seen, due, p);
    ReplaceFails(seen, id, due, p);
  }

  lemma ReplaceFails(w: World, id: nat, due: int, p: PayScript)
    requires Inv(w) && w.current == Some(id) && due > 0
    ensures var (v, r) := ReplaceIntent(w, id, due, p);
      && (r == Refused(ServerError) ==> !p.commits && |v.intents| > |w.intents| && v.current == w.current)
      && (r == Refused(ProviderDown) ==>
            || p.cancel != Answered || p.create != Answered
            || CardSeen(w, EnvRun(w, p.beforeCancel)) != Some(Live))
      && (r.Secret? ==> p.create == Answered && p.commits)
      && r != Refused(AlreadyPaid)
  {
    EnvRunKeeps(w, p.beforeCancel);
    var w1 := EnvRun(w, p.beforeCancel);
    if w1.intents[id].status.Live? {
      CancelKeeps(w1, id);
      CreateFails(CancelIntent(w1, id), due, p);
    }
  }

  // ---- The card route left alone ----

  // Every call is answered, nobody moves meanwhile, and the transaction commits.
  predicate Quiet(p: PayScript) {
    && p.configured && p.commits && p.retrieve == p.cancel == p.create == Answered
    && p.beforeRetrieve == p.beforeCancel == p.beforeCreate == p.beforeCommit == []
  }

  // Left alone, the route gives a secret exactly when there is something to pay and the
  // current intent is not confirmed. It is that of a live intent for what is owed, now the
  // invoice's own: the old one exactly if that was one already, and otherwise a new one, the
  // old one being canceled. Nothing else changes.
  lemma QuietPay(w: World, p: PayScript)
    requires Inv(w) && Quiet(p)
    ensures
      var (v, r) := PayInvoice(w, p);
      var was := w.current;
      && (r.Secret? <==> ToPay(w) && !(was.Some? && w.intents[was.value].status == Confirmed))
      && (!r.Secret? ==> v == w)
      && (r.Secret? ==>
            && r.intent < |v.intents| && v.intents[r.intent] == Intent(Owed(w), Live, true)
            && v.current == Some(r.intent)
            && (was == Some(r.intent) <==>
                  was.Some? && w.intents[was.value].status == Live && w.intents[was.value].amount == Owed(w))
            && (was != Some(r.intent) ==> r.intent == |w.intents| == |v.intents| - 1)
            && (was.Some? && was != Some(r.intent) ==>
                  v.intents[was.value] == w.intents[was.value].(status := Canceled))
            && (forall i :: 0 <= i < |w.intents| && was != Some(i) ==> v.intents[i] == w.intents[i])
            && v == w.(current := v.current, intents := v.intents))
  {
    ToPayIs(w);
    if ToPay(w) {
      if w.current.None? {
        QuietCreate(w, AmountDue(w), p);
      } else {
        QuietResume(w, w.current.value, AmountDue(w), p);
      }
    }
  }

  lemma QuietCreate(w: World, due: int, p: PayScript)
    requires Quiet(p)
    ensures CreateIntent(w, due, p)
         == (w.(current := Some(|w.intents|), intents := w.intents + [Intent(due, Live, true)]), Secret(|w.intents|))
  {
    var created := w.intents + [Intent(due, Live, false)];
    assert EnvRun(w, []) == w;
    assert created[|w.intents| := Intent(due, Live, true)] == w.intents + [Intent(due, Live, true)];
  }

  lemma QuietResume(w: World, id: nat, due: int, p: PayScript)
    requires Inv(w) && Quiet(p) && w.current == Some(id)
    ensures
      var i, made := w.intents[id], Intent(due, Live, true);
      ResumeIntent(w, id, due, p) ==
        if i.status == Confirmed then (w, Refused(AlreadyPaid))
        else if i.status == Live && i.amount == due then (w, Secret(id))
        else
          (w.(current := Some(|w.intents|), intents := w.intents[id := i.(status := Canceled)] + [made]),
           Secret(|w.intents|))
  {
    assert EnvRun(w, []) == w;
    if w.intents[id].status.Canceled? {
      QuietCreate(w, due, p);
      assert w.intents[id := w.intents[id].(status := Canceled)] == w.intents;
    } else if w.intents[id].status.Live? && w.intents[id].amount != due {
      QuietCreate(CancelIntent(w, id), due, p);
    }
  }

  // ---- The PayPal start route ----

  // The order route's answers, whatever the script. It writes nothing of its own.
  lemma OrderAnswers(w: World, p: PayScript)
    requires Inv(w)
    ensures
      var (v, r) := StartPayPal(w, p);
      var seen := EnvRun(w, p.beforeRetrieve);
      var card := CardSeen(w, seen);
      var asked := ToPay(w) && (w.current.Some? ==> p.retrieve == Answered);
      && (r == Refused(NotPayable) <==> !Open(w))
      && (r == Refused(UnderReview) <==> Open(w) && UnderReviewNow(w))
      && (r == Refused(AlreadyCovered) <==> Open(w) && !UnderReviewNow(w) && Owed(w) <= 0)
      && (r == Refused(AlreadyPaid) <==> asked && card == Some(Confirmed))
      && (r == Refused(CardInProgress) <==> asked && card == Some(Live))
      && (r == Refused(NotConfigured) <==> asked && (card == None || card == Some(Canceled)) && !p.configured)
      && (r.OrderOffered? <==>
            asked && (card == None || card == Some(Canceled)) && p.configured && p.create == Answered)
      && (r.OrderOffered? ==> r.amount == Owed(w))
      && (r == Refused(ProviderDown) <==>
            || (ToPay(w) && !asked)
            || (asked && (card == None || card == Some(Canceled)) && p.configured && p.create != Answered))
  {
    ToPayIs(w);
    EnvRunKeeps(w, p.beforeRetrieve);
  }
}
