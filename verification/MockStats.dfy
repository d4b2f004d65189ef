// The dashboard of the mock backend, derived afresh from the ledger on every call.
module MockStats {
  import opened Options
  import opened MockLedger
  import opened MockLedgerTheorems

  datatype MethodTotal = MethodTotal(method_: string, count: int, amount: int)
  datatype StatusTotal = StatusTotal(status: InvoiceStatus, count: int, amount: int)
  datatype Disputes = Disputes(needsResponse: int, underReview: int, won: int, lost: int)
  datatype Stats = Stats(byStatus: seq<StatusTotal>, totalCollected: int, totalRefunded: int, netCollected: int,
                         outstanding: int, byMethod: seq<MethodTotal>, openDisputes: int, disputes: Disputes)

  const STATUSES: seq<InvoiceStatus> := [Draft, Sent, Paid, Overdue, Voided, Reversed]

  function AllPayments(invoices: seq<Invoice>): seq<Payment> {
    if invoices == [] then [] else AllPayments(invoices[..|invoices|-1]) + invoices[|invoices|-1].payments
  }

  predicate Outstanding(i: Invoice) { i.status.Sent? || i.status.Overdue? }

  function OutstandingOf(): Invoice -> int { (i: Invoice) => if Outstanding(i) then i.amountTotal else 0 }

  function AmountBy(m: string): Payment -> int { (p: Payment) => if Counts(p) && p.method_ == m then p.amount else 0 }

  function CountBy(m: string): Payment -> int { (p: Payment) => if Counts(p) && p.method_ == m then 1 else 0 }

  function EntryAmount(): MethodTotal -> int { (e: MethodTotal) => e.amount }

  predicate Distinct(entries: seq<MethodTotal>) {
    forall i, j :: 0 <= i < j < |entries| ==> entries[i].method_ != entries[j].method_
  }

  predicate Right(e: MethodTotal, payments: seq<Payment>) {
    && e.amount == Sum(Map(AmountBy(e.method_), payments))
    && e.count == Sum(Map(CountBy(e.method_), payments))
  }

  predicate Has(entries: seq<MethodTotal>, m: string) {
    exists i :: 0 <= i < |entries| && entries[i].method_ == m
  }

  // One entry for each method of a collected payment, holding what came in by it; together
  // they hold everything collected.
  predicate Breakdown(entries: seq<MethodTotal>, payments: seq<Payment>) {
    && Distinct(entries)
    && (forall e :: e in entries ==> Right(e, payments))
    && (forall p :: p in payments && Counts(p) ==> Has(entries, p.method_))
    && Sum(Map(EntryAmount(), entries)) == Sum(Map(CollectedOf(), payments))
  }

  function Tallied(entries: seq<MethodTotal>, p: Payment): seq<MethodTotal> {
    var at := FirstIndex(entries, (e: MethodTotal) => e.method_ == p.method_, 0);
    if at.None? then entries + [MethodTotal(p.method_, 1, p.amount)]
    else
      var e := entries[at.value];
      entries[at.value := MethodTotal(p.method_, e.count + 1, e.amount + p.amount)]
  }

  lemma {:induction false} NoneOfMethod(m: string, payments: seq<Payment>)
    requires forall p :: p in payments && Counts(p) ==> p.method_ != m
    ensures Sum(Map(AmountBy(m), payments)) == 0 == Sum(Map(CountBy(m), payments))
  {
    SumOfZeros(Map(AmountBy(m), payments));
    SumOfZeros(Map(CountBy(m), payments));
  }

  lemma EntriesSum(entries: seq<MethodTotal>, p: Payment)
    ensures Sum(Map(EntryAmount(), Tallied(entries, p))) == Sum(Map(EntryAmount(), entries)) + p.amount
  {
    var f := EntryAmount();
    var at := FirstIndex(entries, (e: MethodTotal) => e.method_ == p.method_, 0);
    if at.None? {
      var e := MethodTotal(p.method_, 1, p.amount);
      assert Map(f, entries + [e]) == Map(f, entries) + [p.amount];
      SumAppend(Map(f, entries), [p.amount]);
      SumOne(p.amount);
    } else {
      var i := at.value;
      var e := MethodTotal(p.method_, entries[i].count + 1, entries[i].amount + p.amount);
      assert Map(f, entries[i := e]) == Map(f, entries)[i := e.amount];
      SumUpdate(Map(f, entries), i, e.amount);
    }
  }

  lemma RightAppend(e: MethodTotal, payments: seq<Payment>, p: Payment, after: MethodTotal)
    requires Right(e, payments) && after.method_ == e.method_
    requires after.amount == e.amount + AmountBy(e.method_)(p) && after.count == e.count + CountBy(e.method_)(p)
    ensures Right(after, payments + [p])
  {
    PaymentsAppend(AmountBy(e.method_), payments, p);
    PaymentsAppend(CountBy(e.method_), payments, p);
  }

  lemma TalliedIsDistinct(entries: seq<MethodTotal>, p: Payment)
    requires Distinct(entries)
    ensures Distinct(Tallied(entries, p))
    ensures Has(Tallied(entries, p), p.method_)
    ensures forall m :: Has(entries, m) ==> Has(Tallied(entries, p), m)
  {
    var next := Tallied(entries, p);
    var at := FirstIndex(entries, (e: MethodTotal) => e.method_ == p.method_, 0);
    assert next[if at.None? then |entries| else at.value].method_ == p.method_;
    forall m | Has(entries, m)
      ensures Has(next, m)
    {
      var i :| 0 <= i < |entries| && entries[i].method_ == m;
      assert next[i].method_ == m;
    }
  }

  lemma TalliedIsRight(entries: seq<MethodTotal>, payments: seq<Payment>, p: Payment, e: MethodTotal)
    requires Distinct(entries) && Counts(p) && e in Tallied(entries, p)
    requires forall e :: e in entries ==> Right(e, payments)
    requires forall p :: p in payments && Counts(p) ==> Has(entries, p.method_)
    ensures Right(e, payments + [p])
  {
    var next := Tallied(entries, p);
    var at := FirstIndex(entries, (e: MethodTotal) => e.method_ == p.method_, 0);
    var i :| 0 <= i < |next| && next[i] == e;
    if i == |entries| {
      NoneOfMethod(p.method_, payments);
      RightAppend(MethodTotal(p.method_, 0, 0), payments, p, e);
    } else {
      assert entries[i] in entries && Right(entries[i], payments);
      RightAppend(entries[i], payments, p, e);
    }
  }

  lemma TalliedKeepsBreakdown(entries: seq<MethodTotal>, payments: seq<Payment>, p: Payment)
    requires Breakdown(entries, payments)
    ensures Breakdown(if Counts(p) then Tallied(entries, p) else entries, payments + [p])
  {
    PaymentsAppend(CollectedOf(), payments, p);
    if Counts(p) {
      EntriesSum(entries, p);
      TalliedIsDistinct(entries, p);
      forall e | e in Tallied(entries, p)
        ensures Right(e, payments + [p])
      {
        TalliedIsRight(entries, payments, p, e);
      }
    } else {
      forall e | e in entries
        ensures Right(e, payments + [p])
      {
        RightAppend(e, payments, p, e);
      }
    }
  }

  lemma {:induction false} FlattenedTally(f: Payment -> int, invoices: seq<Invoice>)
    ensures Sum(Map(f, AllPayments(invoices))) == Tally(f, invoices)
  {
    var g := (i: Invoice) => Sum(Map(f, i.payments));
    if invoices != [] {
      var front, last := invoices[..|invoices|-1], invoices[|invoices|-1];
      FlattenedTally(f, front);
      assert Map(f, AllPayments(invoices)) == Map(f, AllPayments(front)) + Map(f, last.payments);
      SumAppend(Map(f, AllPayments(front)), Map(f, last.payments));
      assert Map(g, invoices)[..|invoices|-1] == Map(g, front);
    }
  }

  method FlatMapPayments(invoices: seq<Invoice>) returns (all: seq<Payment>)
    ensures all == AllPayments(invoices)
  {
    all := [];
    for k := 0 to |invoices|
      invariant all == AllPayments(invoices[..k])
    {
      assert invoices[..k+1][..k] == invoices[..k];
      all := all + invoices[k].payments;
    }
    assert invoices[..|invoices|] == invoices;
  }

  method GroupByMethod(payments: seq<Payment>) returns (entries: seq<MethodTotal>)
    ensures Breakdown(entries, payments)
  {
    entries := [];
    for i := 0 to |payments|
      invariant Breakdown(entries, payments[..i])
    {
      TalliedKeepsBreakdown(entries, payments[..i], payments[i]);
      if Counts(payments[i]) {
        entries := Tallied(entries, payments[i]);
      }
      assert payments[..i+1] == payments[..i] + [payments[i]];
    }
    assert payments[..|payments|] == payments;
  }

  method SumOver<T>(f: T -> int, xs: seq<T>) returns (total: int)
    ensures total == Sum(Map(f, xs))
  {
    total := 0;
    for i := 0 to |xs|
      invariant total == Sum(Map(f, xs)[..i])
    {
      assert Map(f, xs)[..i+1][..i] == Map(f, xs)[..i];
      total := total + f(xs[i]);
    }
    assert Map(f, xs)[..|xs|] == Map(f, xs);
  }

  // ---- By status ----

  function CountIn(status: InvoiceStatus): Invoice -> int { (i: Invoice) => if i.status == status then 1 else 0 }

  function AmountIn(status: InvoiceStatus): Invoice -> int {
    (i: Invoice) => if i.status == status then i.amountTotal else 0
  }

  function TotalOf(): Invoice -> int { (i: Invoice) => i.amountTotal }

  function StatusTotals(invoices: seq<Invoice>): seq<StatusTotal> {
    seq(|STATUSES|, k requires 0 <= k < |STATUSES| =>
      StatusTotal(STATUSES[k], Sum(Map(CountIn(STATUSES[k]), invoices)), Sum(Map(AmountIn(STATUSES[k]), invoices))))
  }

  lemma {:induction false} SumLast<T>(f: T -> int, xs: seq<T>)
    requires xs != []
    ensures Sum(Map(f, xs)) == Sum(Map(f, xs[..|xs|-1])) + f(xs[|xs|-1])
  {
    assert Map(f, xs)[..|xs|-1] == Map(f, xs[..|xs|-1]);
  }

  function CountsUpTo(invoices: seq<Invoice>, k: nat): int {
    if k == 0 || k > |STATUSES| then 0 else CountsUpTo(invoices, k - 1) + Sum(Map(CountIn(STATUSES[k-1]), invoices))
  }

  function AmountsUpTo(invoices: seq<Invoice>, k: nat): int {
    if k == 0 || k > |STATUSES| then 0 else AmountsUpTo(invoices, k - 1) + Sum(Map(AmountIn(STATUSES[k-1]), invoices))
  }

  predicate Among(status: InvoiceStatus, k: nat)
    requires k <= |STATUSES|
  {
    status in STATUSES[..k]
  }

  lemma {:induction false} OneMoreInvoice(invoices: seq<Invoice>, k: nat)
    requires invoices != [] && k <= |STATUSES|
    ensures
      var front, last := invoices[..|invoices|-1], invoices[|invoices|-1];
      && CountsUpTo(invoices, k) == CountsUpTo(front, k) + (if Among(last.status, k) then 1 else 0)
      && AmountsUpTo(invoices, k) == AmountsUpTo(front, k) + (if Among(last.status, k) then last.amountTotal else 0)
  {
    if k > 0 {
      OneMoreInvoice(invoices, k - 1);
      OneMoreOf(invoices, STATUSES[k-1]);
      AmongGrows(invoices[|invoices|-1].status, k);
    }
  }

  lemma OneMoreOf(invoices: seq<Invoice>, status: InvoiceStatus)
    requires invoices != []
    ensures
      var front, last := invoices[..|invoices|-1], invoices[|invoices|-1];
      && Sum(Map(CountIn(status), invoices))
         == Sum(Map(CountIn(status), front)) + (if last.status == status then 1 else 0)
      && Sum(Map(AmountIn(status), invoices))
         == Sum(Map(AmountIn(status), front)) + (if last.status == status then last.amountTotal else 0)
  {
    SumLast(CountIn(status), invoices);
    SumLast(AmountIn(status), invoices);
  }

  // No status is listed twice.
  lemma AmongGrows(status: InvoiceStatus, k: nat)
    requires 0 < k <= |STATUSES|
    ensures Among(status, k) <==> Among(status, k - 1) || status == STATUSES[k-1]
    ensures status == STATUSES[k-1] ==> !Among(status, k - 1)
  {
    assert STATUSES[..k] == STATUSES[..k-1] + [STATUSES[k-1]];
  }

  // The statuses are all there are: every invoice is counted once, and every amount.
  lemma {:induction false} EveryInvoiceIsCounted(invoices: seq<Invoice>)
    ensures CountsUpTo(invoices, |STATUSES|) == |invoices|
    ensures AmountsUpTo(invoices, |STATUSES|) == Sum(Map(TotalOf(), invoices))
  {
    if invoices == [] {
      NothingCounted(|STATUSES|);
    } else {
      EveryInvoiceIsCounted(invoices[..|invoices|-1]);
      OneMoreInvoice(invoices, |STATUSES|);
      SumLast(TotalOf(), invoices);
      assert STATUSES[..|STATUSES|] == STATUSES;
      InStatuses(invoices[|invoices|-1].status);
    }
  }

  function StatusCount(): StatusTotal -> int { (t: StatusTotal) => t.count }

  function StatusAmount(): StatusTotal -> int { (t: StatusTotal) => t.amount }

  lemma {:induction false} StatusTotalsSum(invoices: seq<Invoice>, k: nat)
    requires k <= |STATUSES|
    ensures Sum(Map(StatusCount(), StatusTotals(invoices)[..k])) == CountsUpTo(invoices, k)
    ensures Sum(Map(StatusAmount(), StatusTotals(invoices)[..k])) == AmountsUpTo(invoices, k)
  {
    if k > 0 {
      var totals := StatusTotals(invoices);
      StatusTotalsSum(invoices, k - 1);
      assert totals[..k][..k-1] == totals[..k-1];
      SumLast(StatusCount(), totals[..k]);
      SumLast(StatusAmount(), totals[..k]);
    }
  }

  lemma InStatuses(status: InvoiceStatus)
    ensures status in STATUSES
  {
    match status
    case Draft => assert STATUSES[0] == status;
    case Sent => assert STATUSES[1] == status;
    case Paid => assert STATUSES[2] == status;
    case Overdue => assert STATUSES[3] == status;
    case Voided => assert STATUSES[4] == status;
    case Reversed => assert STATUSES[5] == status;
  }

  lemma {:induction false} NothingCounted(k: nat)
    requires k <= |STATUSES|
    ensures CountsUpTo([], k) == 0 && AmountsUpTo([], k) == 0
  {
    if k > 0 {
      NothingCounted(k - 1);
    }
  }

  // What is outstanding is what is sent and what is overdue.
  lemma {:induction false} OutstandingIsSentAndOverdue(invoices: seq<Invoice>)
    ensures Sum(Map(OutstandingOf(), invoices))
         == Sum(Map(AmountIn(Sent), invoices)) + Sum(Map(AmountIn(Overdue), invoices))
  {
    if invoices != [] {
      OutstandingIsSentAndOverdue(invoices[..|invoices|-1]);
      SumLast(OutstandingOf(), invoices);
      SumLast(AmountIn(Sent), invoices);
      SumLast(AmountIn(Overdue), invoices);
    }
  }

  method TotalByStatus(invoices: seq<Invoice>) returns (byStatus: seq<StatusTotal>)
    ensures byStatus == StatusTotals(invoices)
  {
    byStatus := [];
    for k := 0 to |STATUSES|
      invariant byStatus == StatusTotals(invoices)[..k]
    {
      var count := SumOver(CountIn(STATUSES[k]), invoices);
      var amount := SumOver(AmountIn(STATUSES[k]), invoices);
      byStatus := byStatus + [StatusTotal(STATUSES[k], count, amount)];
    }
  }

  // ---- Disputes ----

  function DisputedAs(d: Dispute): Payment -> int { (p: Payment) => if p.dispute == d then 1 else 0 }

  function Disputed(payments: seq<Payment>): Disputes {
    Disputes(Sum(Map(DisputedAs(NeedsResponse), payments)), Sum(Map(DisputedAs(UnderReview), payments)),
             Sum(Map(DisputedAs(Won), payments)), Sum(Map(DisputedAs(Lost), payments)))
  }

  method CountDisputes(payments: seq<Payment>) returns (d: Disputes)
    ensures d == Disputed(payments)
  {
    d := Disputes(0, 0, 0, 0);
    for i := 0 to |payments|
      invariant d == Disputed(payments[..i])
    {
      forall s: Dispute
        ensures Sum(Map(DisputedAs(s), payments[..i+1]))
             == Sum(Map(DisputedAs(s), payments[..i])) + DisputedAs(s)(payments[i])
      {
        SumLast(DisputedAs(s), payments[..i+1]);
        assert payments[..i+1][..i] == payments[..i];
      }
      match payments[i].dispute {
        case NeedsResponse => d := d.(needsResponse := d.needsResponse + 1);
        case UnderReview => d := d.(underReview := d.underReview + 1);
        case Won => d := d.(won := d.won + 1);
        case Lost => d := d.(lost := d.lost + 1);
        case Undisputed =>
      }
    }
    assert payments[..|payments|] == payments;
  }

  // Each payment counts once, under its own dispute if it has one.
  lemma {:induction false} EveryPaymentCountsOnce(payments: seq<Payment>)
    ensures
      var d := Disputed(payments);
      d.needsResponse + d.underReview + d.won + d.lost + Sum(Map(DisputedAs(Undisputed), payments)) == |payments|
    ensures forall s: Dispute, p: Payment :: DisputedAs(s)(p) == 1 <==> p.dispute == s
  {
    if payments != [] {
      EveryPaymentCountsOnce(payments[..|payments|-1]);
      forall s: Dispute
        ensures Sum(Map(DisputedAs(s), payments))
             == Sum(Map(DisputedAs(s), payments[..|payments|-1])) + DisputedAs(s)(payments[|payments|-1])
      {
        SumLast(DisputedAs(s), payments);
      }
    }
  }

  function TalliedDisputes(l: Ledger): Disputes {
    Disputes(Tally(DisputedAs(NeedsResponse), l.invoices), Tally(DisputedAs(UnderReview), l.invoices),
             Tally(DisputedAs(Won), l.invoices), Tally(DisputedAs(Lost), l.invoices))
  }

  // computeInvoiceStats: the totals are the ledger's, the amounts by method add up to what
  // was collected, and the invoices by status to all there are.
  method ComputeInvoiceStats(l: Ledger) returns (s: Stats)
    ensures s.totalCollected == Tally(CollectedOf(), l.invoices) && s.totalRefunded == Tally(RefundsOf(), l.invoices)
    ensures s.netCollected == NetCollected(l)
    ensures s.outstanding == Sum(Map(AmountIn(Sent), l.invoices)) + Sum(Map(AmountIn(Overdue), l.invoices))
    ensures Breakdown(s.byMethod, AllPayments(l.invoices))
    ensures Sum(Map(EntryAmount(), s.byMethod)) == s.totalCollected
    ensures s.byStatus == StatusTotals(l.invoices)
    ensures Sum(Map(StatusCount(), s.byStatus)) == |l.invoices|
    ensures Sum(Map(StatusAmount(), s.byStatus)) == Sum(Map(TotalOf(), l.invoices))
    ensures s.disputes == TalliedDisputes(l) && s.openDisputes == s.disputes.needsResponse + s.disputes.underReview
  {
    var byStatus := TotalByStatus(l.invoices);
    var all := FlatMapPayments(l.invoices);
    var collected := SumOver(CollectedOf(), all);
    var refunded := SumOver(RefundsOf(), all);
    var outstanding := SumOver(OutstandingOf(), l.invoices);
    var byMethod := GroupByMethod(all);
    var disputes := CountDisputes(all);
    FlattenedTally(CollectedOf(), l.invoices);
    FlattenedTally(RefundsOf(), l.invoices);
    FlattenedTally(DisputedAs(NeedsResponse), l.invoices);
    FlattenedTally(DisputedAs(UnderReview), l.invoices);
    FlattenedTally(DisputedAs(Won), l.invoices);
    FlattenedTally(DisputedAs(Lost), l.invoices);
    OutstandingIsSentAndOverdue(l.invoices);
    EveryInvoiceIsCounted(l.invoices);
    StatusTotalsSum(l.invoices, |STATUSES|);
    assert StatusTotals(l.invoices)[..|STATUSES|] == StatusTotals(l.invoices);
    s := Stats(byStatus, collected, refunded, collected - refunded, outstanding, byMethod,
               disputes.needsResponse + disputes.underReview, disputes);
  }
}
