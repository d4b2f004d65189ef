// Collecting one invoice through Stripe and PayPal: the customer pay and capture
// routes, the Stripe webhook, the PayPal reconciler and the admin's manual
// payment. One invoice row and its payments; the providers move on their own
// between the steps of a handler. Handlers on the same invoice exclude each other
// because each holds the row lock (SELECT ... FOR UPDATE) until it commits, so
// only the actions in `Env` interleave with a running handler. The daily job that marks
// invoices overdue reads the row without the lock and writes it later.
module Collection {
  import opened Options

  datatype InvoiceStatus = Draft | Sent | Overdue | Paid | Void
  datatype PaymentStatus = Pending | Succeeded | Failed
  datatype Reference = StripeIntent(intent: nat) | PayPalOrder(order: nat) | ByHand
  datatype Payment = Payment(reference: Reference, amount: int, status: PaymentStatus,
                             charge: Option<nat>, zip: Option<nat>)

  // Stripe's view of a PaymentIntent. `Live` is every status from which it can
  // still be confirmed; `handedOut` says a committed response carried its secret.
  datatype IntentStatus = Live | Confirmed | Canceled
  datatype Intent = Intent(amount: int, status: IntentStatus, handedOut: bool)

  datatype CaptureStatus = COMPLETED | PENDING | DECLINED
  // PayPal's answer to a capture: is the order this invoice's, and in its currency.
  datatype Captured = Captured(ours: bool, status: CaptureStatus, sameCurrency: bool, amount: int)

  // Money is in the currency's minor units. `intents` is indexed by intent id, so
  // a created intent has a fresh id; `captures` logs calls to PayPal's capture, and
  // `paypal` is what PayPal remembers of those that reached it: a retry carries the
  // same idempotency key and is answered like the first, or as the order stands by then. `jobs` counts the overdue jobs
  // that have read the row as sent and not written it yet.
  datatype World = World(
    total: int, status: InvoiceStatus, paidAt: Option<nat>, needsReview: bool,
    current: Option<nat>, payments: seq<Payment>, intents: seq<Intent>, captures: seq<nat>,
    paypal: map<nat, Captured>, jobs: nat)

  // What happens at a provider call: answered, answer lost after the call took
  // effect, or never reached the provider. The last two raise in the handler.
  datatype Net = Answered | Lost | Down

  datatype Env =
    | Confirm(intent: nat)          // the customer confirms an intent they hold
    | Expire(intent: nat)           // Stripe cancels a live intent
    | ReviewDeclined(order: nat)    // the reconciler commits a declined capture, lock-free

  datatype PayScript = PayScript(
    configured: bool, beforeRetrieve: seq<Env>, retrieve: Net, beforeCancel: seq<Env>, cancel: Net,
    beforeCreate: seq<Env>, create: Net, beforeCommit: seq<Env>, commits: bool)

  // `first` is PayPal's answer should the order not have been captured before; `review` what
  // a capture held for review has come to, should PayPal look a captured order up anew.
  datatype CaptureScript = CaptureScript(
    order: nat, during: seq<Env>, net: Net, first: Captured, review: Option<CaptureStatus>, now: nat, commits: bool)

  datatype Delivery = Delivery(intent: nat, success: bool, amount: int,
                               charge: Option<nat>, zip: Option<nat>, now: nat)

  datatype Verdict = StatusError | StillPending | Completed | Declined

  datatype Refusal =
    | NotPayable | UnderReview | AlreadyCovered | NotConfigured | ProviderDown | AlreadyPaid
    | CardInProgress | AttemptFailed | WrongInvoice | NotCompleted | WrongCurrency | InvalidAmount | ServerError
  datatype Response =
    | Secret(intent: nat) | OrderOffered(amount: int) | CapturedOk | CapturePending | Done | Refused(why: Refusal)

  datatype Op =
    | Pay(pay: PayScript)
    | StartOrder(start: PayScript)
    | Capture(capture: CaptureScript)
    | Deliver(delivery: Delivery)
    | Reconcile(order: nat, verdict: Verdict, now: nat)
    | RecordManual(amount: int, now: nat)
    | VoidInvoice
    | JobReads(pastDue: bool)       // the overdue job looks for sent invoices past their date
    | JobWrites(commits: bool)      // and writes what it found, by primary key
    | Outside(env: Env)

  // ---- The payments table ----

  function Credit(p: Payment): int {
    if p.status.Succeeded? then p.amount else 0
  }

  // get_paid_so_far: the sum of the succeeded payments.
  function PaidSoFar(ps: seq<Payment>): int {
    if ps == [] then 0 else PaidSoFar(ps[..|ps|-1]) + Credit(ps[|ps|-1])
  }

  predicate HasPending(ps: seq<Payment>) {
    exists i :: 0 <= i < |ps| && ps[i].status.Pending?
  }

  // The row carrying reference r, or |ps| when there is none.
  function IndexOf(ps: seq<Payment>, r: Reference): (k: nat)
    ensures k <= |ps|
    ensures k < |ps| ==> ps[k].reference == r
    ensures forall i :: 0 <= i < k ==> ps[i].reference != r
  {
    if ps == [] then 0
    else
      var k := IndexOf(ps[..|ps|-1], r);
      if k < |ps| - 1 then k else if ps[|ps|-1].reference == r then k else k + 1
  }

  // The table's constraints: a positive amount, and unique provider references.
  predicate Insertable(ps: seq<Payment>, p: Payment) {
    p.amount > 0 && (p.reference.ByHand? || IndexOf(ps, p.reference) == |ps|)
  }

  function AmountDue(w: World): int {
    if w.total - PaidSoFar(w.payments) > 0 then w.total - PaidSoFar(w.payments) else 0
  }

  predicate Payable(w: World) { w.status.Sent? || w.status.Overdue? }

  // ---- Shared steps ----

  function Flag(w: World): World { w.(needsReview := true) }

  function Settle(w: World, now: nat): World {
    if !w.status.Paid? && PaidSoFar(w.payments) >= w.total
    then w.(status := Paid, paidAt := Some(now)) else w
  }

  function FlagIfPending(w: World): World {
    if HasPending(w.payments) then Flag(w) else w
  }

  function FlagIfOverpaid(w: World): World {
    if PaidSoFar(w.payments) > w.total then Flag(w) else w
  }

  function AfterSuccess(w: World, now: nat): World {
    FlagIfOverpaid(Settle(FlagIfPending(w), now))
  }

  function SetStatus(w: World, k: nat, s: PaymentStatus): World
    requires k < |w.payments|
  {
    w.(payments := w.payments[k := w.payments[k].(status := s)])
  }

  // ---- The providers' own moves ----

  function EnvStep(w: World, e: Env): World {
    match e
    case Confirm(i) =>
      if i < |w.intents| && w.intents[i].status.Live? && w.intents[i].handedOut
      then w.(intents := w.intents[i := w.intents[i].(status := Confirmed)]) else w
    case Expire(i) =>
      if i < |w.intents| && w.intents[i].status.Live?
      then w.(intents := w.intents[i := w.intents[i].(status := Canceled)]) else w
    case ReviewDeclined(o) =>
      var k := IndexOf(w.payments, PayPalOrder(o));
      if k < |w.payments| && w.payments[k].status.Pending? then SetStatus(w, k, Failed) else w
  }

  function EnvRun(w: World, es: seq<Env>): World {
    if es == [] then w else EnvStep(EnvRun(w, es[..|es|-1]), es[|es|-1])
  }

  // ---- The handlers ----

  function HandOut(w: World, id: nat): World {
    if id < |w.intents|
    then w.(current := Some(id), intents := w.intents[id := w.intents[id].(handedOut := true)]) else w
  }

  function CreateIntent(w: World, due: int, p: PayScript): (World, Response) {
    var w1 := EnvRun(w, p.beforeCreate);
    if p.create.Down? then (w1, Refused(ProviderDown))
    else
      var id := |w1.intents|;
      var w2 := w1.(intents := w1.intents + [Intent(due, Live, false)]);
      if p.create.Lost? then (w2, Refused(ProviderDown))
      else
        var w3 := EnvRun(w2, p.beforeCommit);
        if !p.commits then (w3, Refused(ServerError)) else (HandOut(w3, id), Secret(id))
  }

  // Stripe cancels only a live intent; for any other it answers with an error.
  function CancelIntent(w: World, id: nat): World
    requires id < |w.intents|
  {
    w.(intents := w.intents[id := w.intents[id].(status := Canceled)])
  }

  // The invoice already has a current intent that was not canceled when seen, for
  // another amount: cancel it, then create a fresh one.
  function ReplaceIntent(w: World, id: nat, due: int, p: PayScript): (World, Response) {
    var w1 := EnvRun(w, p.beforeCancel);
    if p.cancel.Down? || id >= |w1.intents| || !w1.intents[id].status.Live? then (w1, Refused(ProviderDown))
    else if p.cancel.Lost? then (CancelIntent(w1, id), Refused(ProviderDown))
    else CreateIntent(CancelIntent(w1, id), due, p)
  }

  function ResumeIntent(w: World, id: nat, due: int, p: PayScript): (World, Response) {
    var w1 := EnvRun(w, p.beforeRetrieve);
    if !p.retrieve.Answered? || id >= |w1.intents| then (w1, Refused(ProviderDown))
    else if w1.intents[id].status.Confirmed? then (w1, Refused(AlreadyPaid))
    else if w1.intents[id].status.Canceled? then CreateIntent(w1, due, p)
    else if w1.intents[id].amount == due then (EnvRun(w1, p.beforeCommit), Secret(id))
    else ReplaceIntent(w1, id, due, p)
  }

  // POST /{invoice}/pay.
  function PayInvoice(w: World, p: PayScript): (World, Response) {
    if !Payable(w) then (w, Refused(NotPayable))
    else if HasPending(w.payments) then (w, Refused(UnderReview))
    else if AmountDue(w) <= 0 then (w, Refused(AlreadyCovered))
    else if !p.configured then (w, Refused(NotConfigured))
    else if w.current.None? then CreateIntent(w, AmountDue(w), p)
    else ResumeIntent(w, w.current.value, AmountDue(w), p)
  }

  function OfferOrder(w: World, due: int, p: PayScript): (World, Response) {
    var w1 := EnvRun(w, p.beforeCreate);
    if p.create.Answered? then (w1, OrderOffered(due)) else (w1, Refused(ProviderDown))
  }

  // The invoice has a card intent: an order is offered once that is canceled.
  function OrderAfterCard(w: World, id: nat, due: int, p: PayScript): (World, Response) {
    var w1 := EnvRun(w, p.beforeRetrieve);
    if !p.retrieve.Answered? || id >= |w1.intents| then (w1, Refused(ProviderDown))
    else if w1.intents[id].status.Confirmed? then (w1, Refused(AlreadyPaid))
    else if !w1.intents[id].status.Canceled? then (w1, Refused(CardInProgress))
    else if !p.configured then (w1, Refused(NotConfigured))
    else OfferOrder(w1, due, p)
  }

  // POST /{invoice}/pay/paypal: offers a PayPal order, unless a card payment is open.
  function StartPayPal(w: World, p: PayScript): (World, Response) {
    if !Payable(w) then (w, Refused(NotPayable))
    else if HasPending(w.payments) then (w, Refused(UnderReview))
    else if AmountDue(w) <= 0 then (w, Refused(AlreadyCovered))
    else if w.current.Some? then OrderAfterCard(w, w.current.value, AmountDue(w), p)
    else if !p.configured then (w, Refused(NotConfigured))
    else OfferOrder(w, AmountDue(w), p)
  }

  function Insert(w: World, p: Payment): World { w.(payments := w.payments + [p]) }

  function CapturedRow(order: nat, a: Captured): Payment {
    Payment(PayPalOrder(order), a.amount, if a.status.PENDING? then Pending else Succeeded, None, None)
  }

  // What the capture route records once PayPal has answered a.
  function RecordCapture(w: World, c: CaptureScript, a: Captured): (World, Response) {
    if !a.ours then (w, Refused(WrongInvoice))
    else if a.status.DECLINED? then (w, Refused(NotCompleted))
    else if !a.sameCurrency then (w, Refused(WrongCurrency))
    else if !Insertable(w.payments, CapturedRow(c.order, a)) || !c.commits then (w, Refused(ServerError))
    else
      var w1 := Insert(w, CapturedRow(c.order, a));
      if a.status.PENDING? then (w1, CapturePending)
      else
        var overpaid := AmountDue(w) <= 0 || a.amount != AmountDue(w);
        (Settle(if overpaid then Flag(w1) else w1, c.now), CapturedOk)
  }

  function LookedUp(a: Captured, review: Option<CaptureStatus>): Captured {
    if a.status.PENDING? && review.Some? then a.(status := review.value) else a
  }

  function AnswerOf(w: World, c: CaptureScript): Captured {
    if c.order in w.paypal then LookedUp(w.paypal[c.order], c.review) else c.first
  }

  function CallPayPal(w: World, c: CaptureScript): World {
    var w1 := w.(captures := w.captures + [c.order]);
    if c.net.Down? then w1 else w1.(paypal := w1.paypal[c.order := AnswerOf(w, c)])
  }

  // POST /{invoice}/pay/paypal/capture.
  function CaptureOrder(w: World, c: CaptureScript): (World, Response) {
    var k := IndexOf(w.payments, PayPalOrder(c.order));
    if k < |w.payments| then
      match w.payments[k].status
      case Succeeded => (w, CapturedOk)
      case Pending => (w, CapturePending)
      case Failed => (w, Refused(AttemptFailed))
    else if HasPending(w.payments) then (w, Refused(UnderReview))
    else if !Payable(w) then (w, Refused(NotPayable))
    else
      var w1 := EnvRun(w, c.during);
      var w2 := CallPayPal(w1, c);
      if !c.net.Answered? then (w2, Refused(ProviderDown)) else RecordCapture(w2, c, AnswerOf(w1, c))
  }

  // The payment_intent.succeeded / payment_intent.payment_failed webhook.
  function Webhook(w: World, d: Delivery): World {
    if w.current != Some(d.intent) then w
    else
      var k := IndexOf(w.payments, StripeIntent(d.intent));
      var s := if d.success then Succeeded else Failed;
      if k < |w.payments| then
        if !d.success && w.payments[k].status.Succeeded? then w
        else if d.success then AfterSuccess(SetStatus(w, k, s), d.now) else SetStatus(w, k, s)
      else
        var row := Payment(StripeIntent(d.intent), d.amount, s, d.charge, if d.success then d.zip else None);
        if !Insertable(w.payments, row) then w
        else if d.success then AfterSuccess(Insert(w, row), d.now) else Insert(w, row)
  }

  // One payment of reconcile_pending_paypal_captures.
  function ReconcileOrder(w: World, o: nat, v: Verdict, now: nat): World {
    var k := IndexOf(w.payments, PayPalOrder(o));
    if k == |w.payments| || !w.payments[k].status.Pending? || v.StatusError? || v.StillPending? then w
    else if v.Declined? then SetStatus(w, k, Failed)
    else Settle(FlagIfOverpaid(SetStatus(w, k, Succeeded)), now)
  }

  // record_manual_payment: nothing here flags an overpayment.
  function ManualPayment(w: World, amount: int, now: nat): (World, Response) {
    if amount <= 0 then (w, Refused(InvalidAmount))
    else if !Payable(w) then (w, Refused(NotPayable))
    else if HasPending(w.payments) then (w, Refused(UnderReview))
    else (Settle(Insert(w, Payment(ByHand, amount, Succeeded, None, None)), now), Done)
  }

  // ---- The overdue job ----

  function ReadSent(w: World, pastDue: bool): World {
    if w.status.Sent? && pastDue then w.(jobs := w.jobs + 1) else w
  }

  // The write does not look at the status again.
  function MarkOverdue(w: World, commits: bool): World {
    if w.jobs == 0 then w
    else if !commits then w.(jobs := w.jobs - 1)
    else w.(jobs := w.jobs - 1, status := Overdue)
  }

  // ---- Whole runs ----

  // Stripe signs only events about its own intents: a success only for an intent
  // that was confirmed, always with the intent's own amount.
  predicate Authentic(w: World, d: Delivery) {
    && d.intent < |w.intents| && w.intents[d.intent].handedOut
    && d.amount == w.intents[d.intent].amount
    && (d.success ==> w.intents[d.intent].status.Confirmed?)
  }

  function Step(w: World, op: Op): (World, Response) {
    match op
    case Pay(p) => PayInvoice(w, p)
    case StartOrder(p) => StartPayPal(w, p)
    case Capture(c) => CaptureOrder(w, c)
    case Deliver(d) => (if Authentic(w, d) then Webhook(w, d) else w, Done)
    case Reconcile(o, v, now) => (ReconcileOrder(w, o, v, now), Done)
    case RecordManual(a, now) => ManualPayment(w, a, now)
    case VoidInvoice => if Payable(w) then (w.(status := Void), Done) else (w, Refused(NotPayable))
    case JobReads(pastDue) => (ReadSent(w, pastDue), Done)
    case JobWrites(commits) => (MarkOverdue(w, commits), Done)
    case Outside(e) => (EnvStep(w, e), Done)
  }

  function Run(w: World, ops: seq<Op>): World {
    if ops == [] then w else Step(Run(w, ops[..|ops|-1]), ops[|ops|-1]).0
  }
}
