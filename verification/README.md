# Billing, accounts and ASCII rendering: a verified model

Dafny models of the parts of this repository where money, history, identity and arithmetic
have to come out right, with machine-checked proofs about them. `dafny verify
dfyconfig.toml` checks everything.

Code that changes things in place is modelled by methods (of classes where the source
keeps state) proved against a specification function of the old state; the promises are
lemmas about that function, over every run. Code made of expressions is modelled by
functions and lemmas.

| files | what they model |
|---|---|
| `Collection`, `CollectionDesk`, `CollectionProofs`, `CollectionTheorems`, `CollectionAnswers`, `CollectionEffects`, `CaptureTheorems` | collecting one invoice through Stripe and PayPal: pay, PayPal start and capture, the Stripe webhook, the PayPal reconciler, manual payments, voiding |
| `OverdueJob` | the daily job that marks invoices overdue, against all of these |
| `TaxRules`, `TaxHistory`, `TaxLookup`, `TaxOverlap` | effective-dated tax rates: append, close, look up; two batches at once |
| `RateLimit` | the request limiter: sliding window, Redis counter, and the switch between them |
| `Calendar`, `Dates`, `Retention`, `RetentionTheorems`, `RetentionSchedule` | pruning rotated logs by schedule and by size |
| `Tokens`, `TokenEffects`, `TokenTransactions`, `RedeemOverlap`, `MintOverlap` | emailed tokens and account activation, one transaction after another and overlapping |
| `Sessions` | session expiry and CSRF |
| `Quaternions`, `ZBuffer`, `ZBufferTheorems`, `ShapeLook` | the spinning shape: orientation, projection, z-buffer |
| `PixelGrid`, `PixelGridTheorems`, `ShippedCurve`, `Packing` | downsampling an image to characters, and the bytes between WebAssembly and the page |
| `Rain` | falling characters and particles, frame by frame |
| `MockLedger`, `MockLedgerTheorems`, `MockStats`, `BomStock`, `BomStockTheorems`, `MockEffects` | the mock backend's invoices, refunds, dashboard, inventory and bills of materials |
| `Options` | optional values |

## How the world is modelled

- Collection: one invoice row, its payments, and the providers' own state. Handlers on one
  invoice exclude each other through the row lock, so what interleaves with a handler,
  at each of its provider calls and before its commit, is any sequence of provider moves
  (a customer confirms an intent, Stripe cancels one, the reconciler commits a decline
  without the lock). A provider call can be answered, take effect with its answer lost, or
  never arrive. A commit and the response go together. PayPal remembers its answer about an
  order, and a retry under the same idempotency key gets it again, or what a capture held
  for review has come to. Only events Stripe has
  reason to sign are delivered, in any order and any number. The overdue job selects the
  row without a lock, its UPDATE waits for the lock and does not look at the status again;
  any number of jobs may be between the two. Money is in minor units; the invoice total is
  constant.
- Tax rates: a session sees rates as given until they are committed, when the
  Numeric(8, 5) column rounds them to five decimals. Instants are integers; a clock never
  goes back. In `TaxHistory` refreshes follow one another: nothing locks the table, and
  `TaxOverlap` says what two at once do, in whichever order they took their instants.
- Limiter: Redis and the process share one clock, INCR with EXPIRE is atomic, and a failing
  call fails before the increment. Calls follow one another, and every worker process has
  a local window of its own. The bounds are about limits of at least one; with any
  other nothing is admitted.
- Retention: a file is its position in the directory listing. `sorted` is a stable sort,
  modelled by insertion.
- Tokens are known by an injective hash of their value. In `Tokens` transactions follow one
  another; in `TokenTransactions` they interleave under READ COMMITTED. A statement sees
  what was committed when it started; an UPDATE that comes to a locked row waits for the
  lock, and looks at that row again as it then is. Accounts are also written by contact
  creation, password resets and the seeding of the admin at start-up.
- Sessions: the requests of one session follow one another. A session's creation time is the
  clock of the call that created it.
- The administrator's data browser of the real backend writes any column of any table but
  sessions and password hashes, at will; every promise is about runs without it.
- Numbers: floating point is exact real arithmetic; square roots, sines and `Math.hypot` are
  results given with their defining equations; `pow`, `atan2` and the shading curves are
  parameters. Amounts of the mock backend are whole cents of either sign.

## Where the code and its own words differ

- The review flag is documented as raised on overpayment. A manual payment never raises it:
  `CollectionProofs.StepKeeps` shows it is the only step that does not, and exactly when.
- A refreshed tax list is meant to be idempotent. It is not for rates with more than five
  decimals: the column rounds them and the comparison does not. `TaxHistory.RerunIsNoOp`,
  `SixDecimalsNeverSettle`.
- The year-less week key of the log schedule merges weeks of different years as soon as
  `keep_weekly` reaches 52. `RetentionTheorems.MixesWeeksFrom52`.
- The Redis limiter's comment allows for twice the limit in one window's length. The exact
  bound is one less, and is reached. `RateLimitBounds.AdmissionBounds`, `BoundsAreReached`.
- `paid_at` is documented as set exactly once and paid as final. Both hold exactly as long as
  no overdue job writes an invoice that was paid after the job had read it as sent.
  `OverdueJob.PaidIsFinalIff`, `PaidAtIsWrittenOnce`, `StaleWriteReopensPaid`.
- A captured PayPal payment is meant never to be discarded. It is stranded when the answer
  of the capture is lost, or its transaction does not commit, and every retry finds the
  invoice no longer payable or another capture under review, or fails likewise.
  `CaptureTheorems.StrandedIff`, `LostAnswerStrandsMoney`.
- An active account's password is meant never to be rewritten by a token. It is when one
  redemption looks at the account after another of the same user has looked and before that
  one has ended, and both finish; or when the admin is seeded after the look.
  `RedeemOverlap.OneActivationIff`, `ActiveIsNotRewrittenIff`, `BothPurposesActivate`.
- Minting is meant to leave one live token of a purpose. Two mints that overlap leave two,
  even when the second waits for the first.
  `MintOverlap.OneLiveIff`, `OverlappingMintsLeaveTwo`, `ResendTwiceLeavesTwo`.
- A key of the tax table is meant to have one current rate. Two overlapping refreshes can
  leave two. `TaxOverlap.OverlapTilesIff`, `FirstRatesCollide`.
- The compiled rasteriser says it mirrors the fallback exactly. Brightness agrees for a
  complete image and a grid that has cells; for a grid of no cells the compiled one still
  makes at least one. Glyphs agree only where the fallback's gamma curve changes nothing,
  which for the shipped curve is black and white.
  `PixelGridTheorems.RastersAgree`, `GlyphsAgreeIff`, `ShippedCurve.ShippedLookIff`,
  `MiddleGreyDiffers`.
- The byte packing expects ASCII ramps; a glyph of code 256 or more comes back as another.
  `Packing.CellRoundTrip`, `FullBlockIsLost`.
- A particle's fall depends on the frame rate. `Rain.FallAgrees`, `HalvedFrameFallsFarther`.
- The mock's manual payment accepts amounts of zero and less.
  `MockLedgerTheorems.NetNeverNegative`, `NetBelowZero`.
- The mock's audited stock is overwritten without a record by the data browser and its
  revert. `BomStockTheorems.TrailsIff`, `RevertLosesAdjustment`.

## Model

| member | source | states |
|---|---|---|
| `CollectionDesk.InvoiceDesk.PayInvoice` | backend/src/logand_backend/api/invoices_public.py:565-679 | the pay route, early exit by early exit, takes the row to the state and answer of the protocol's pay step, whatever the providers do between its calls |
| `CollectionDesk.InvoiceDesk.PayViaPayPal` | backend/src/logand_backend/api/invoices_public.py:275-355 | the PayPal start route refines the protocol's order step: it answers with an order only past every guard |
| `CollectionDesk.InvoiceDesk.CaptureOrder` | backend/src/logand_backend/api/invoices_public.py:359-463 | the capture route refines the protocol's capture step: a known order is answered from its row; the guards come before the provider call |
| `CollectionDesk.InvoiceDesk.AskPayPal` | backend/src/logand_backend/domain/payments/providers/paypal.py:191-246 | the provider call under the order's idempotency key: an order captured before, whether or not the first answer arrived, is answered as before or as it stands by then |
| `CollectionDesk.InvoiceDesk.Record` | backend/src/logand_backend/api/invoices_public.py:465-561 | what the route does with the provider's answer: reject, keep for review, or record, flag and settle |
| `CollectionDesk.InvoiceDesk.HandlePaymentIntentEvent` | backend/src/logand_backend/api/webhooks.py:196-340 | the webhook handler refines the protocol's delivery step, existing row and new row alike |
| `CollectionDesk.InvoiceDesk.SettleStripeSuccess` | backend/src/logand_backend/api/webhooks.py:99-154 | after a success: flag a pending race, settle, flag an overpayment |
| `CollectionDesk.InvoiceDesk.ReconcilePendingCapture` | backend/src/logand_backend/domain/invoices/service.py:464-589 | one payment of the reconciler refines the protocol's reconcile step |
| `CollectionDesk.InvoiceDesk.RecordManualPayment` | backend/src/logand_backend/domain/invoices/service.py:329-380 | the admin's manual payment refines the protocol's manual step |
| `CollectionDesk.InvoiceDesk.SettleIfPaid` | backend/src/logand_backend/domain/invoices/service.py:444-461 | settling marks the invoice paid, once, and says whether it did |
| `CollectionDesk.InvoiceDesk.GetPaidSoFar` | backend/src/logand_backend/domain/invoices/service.py:383-429 | the loop over the payments returns the sum of the succeeded ones |
| `CollectionDesk.InvoiceDesk.GetAmountDue` | backend/src/logand_backend/domain/invoices/service.py:432-441 | the total less that sum, never below zero |
| `CollectionDesk.InvoiceDesk.IsPending` | backend/src/logand_backend/domain/invoices/service.py:293-309 | true exactly when some payment is pending |
| `CollectionDesk.InvoiceDesk.FindOverdue` | backend/src/logand_backend/domain/invoices/recurrence.py:168-187 | the overdue job's SELECT, without a lock: it finds the invoice if and only if it is sent and past due |
| `CollectionDesk.InvoiceDesk.WriteOverdue` | backend/src/logand_backend/domain/invoices/recurrence.py:188-195 | its UPDATE, by primary key: overdue, whatever the row has become since |
| `CollectionProofs.StepKeeps` | backend/src/logand_backend/api/invoices_public.py:274-679 | every step, under any interleaved provider moves, keeps the invariant and moves facts one way; it keeps the overpayment flag sound if and only if it is not an unflagged manual overpayment, and a paid invoice paid since the same instant if and only if it is not a stale write of the overdue job |
| `CollectionProofs.RunKeeps` | backend/src/logand_backend/api/invoices_public.py:274-679 | the invariant and the one-way facts over every run, the overdue job's steps included |
| `CollectionTheorems.AtMostOneCharge` | backend/src/logand_backend/api/invoices_public.py:564-679 | in every run at most one intent is ever confirmed, it is the invoice's current one, and every other handed-out intent is canceled |
| `CollectionTheorems.ChargedIntentStaysCurrent` | backend/src/logand_backend/api/webhooks.py:214-226 | after a charge the invoice keeps naming that intent, so the webhook's lookup by current id never misses it |
| `CollectionTheorems.ChargeIsRecorded` | backend/src/logand_backend/api/webhooks.py:228-335 | a delivered success always leaves a succeeded row of the charged amount, the invoice paid if covered and flagged if overpaid or racing a pending capture |
| `CollectionTheorems.SecretBillsAmountDue` | backend/src/logand_backend/api/invoices_public.py:633-679 | a client secret is only ever handed out for the current intent, and that intent bills exactly what is due |
| `CollectionTheorems.OrderOnlyWithoutLiveCard` | backend/src/logand_backend/api/invoices_public.py:314-343 | a PayPal order is offered, for exactly the amount due, only when every handed-out card intent is dead |
| `CollectionAnswers.PayGuards` | backend/src/logand_backend/api/invoices_public.py:583-632 | the pay route's refusals before Stripe is asked, each with the exact invoice it is for; they change nothing |
| `CollectionAnswers.QuietPay` | backend/src/logand_backend/api/invoices_public.py:633-679 | left alone and answered, the pay route gives a secret if and only if there is something to pay and the current intent is not confirmed: the old intent's exactly if that is live for what is owed, else that of a new live one, the old one being canceled |
| `CollectionAnswers.SecretIsAlive` | backend/src/logand_backend/api/invoices_public.py:640-679 | under any interleaving a secret is the old intent's exactly if Stripe reported that live and for what is owed; otherwise the intent is new and the old one canceled |
| `CollectionAnswers.AlreadyPaidIff` | backend/src/logand_backend/api/invoices_public.py:640-655 | a payment already made is reported if and only if Stripe reports the current intent confirmed |
| `CollectionAnswers.PayFailures` | backend/src/logand_backend/api/invoices_public.py:640-679 | the two failures only come from a call not answered, an intent no longer live when it is to be replaced, or a commit that fails after a new intent was made |
| `CollectionAnswers.OrderAnswers` | backend/src/logand_backend/api/invoices_public.py:290-355 | the answers of the PayPal start route, each if and only if, from the invoice and the card intent Stripe reports |
| `CollectionEffects.CaptureAnswers` | backend/src/logand_backend/api/invoices_public.py:383-561 | the answers to a capture of an order not in the table, each if and only if, from the invoice and PayPal's answer |
| `CollectionEffects.CaptureRecords` | backend/src/logand_backend/api/invoices_public.py:498-561 | a capture done adds one succeeded row of the captured amount, flags the invoice exactly if that is not what was owed, and marks it paid exactly if covered; one held adds a pending row only; a refusal none |
| `CollectionEffects.KnownOrderAnswers` | backend/src/logand_backend/api/invoices_public.py:383-407 | an order in the table is answered from its row and changes nothing |
| `CollectionEffects.EventDoes` | backend/src/logand_backend/api/webhooks.py:196-340 | a Stripe event: the row it adds or turns, with charge and postal code; a success flags exactly if a capture is under review or the total is exceeded, and marks paid exactly if covered; a failure does neither |
| `CollectionEffects.ReconcileDoes` | backend/src/logand_backend/domain/invoices/service.py:500-589 | a capture under review becomes succeeded, with flag and settling exactly as due, or failed, or is left, by PayPal's report |
| `CollectionEffects.ManualDoes` | backend/src/logand_backend/domain/invoices/service.py:329-380 | the manual payment's answers, each if and only if, and the one row it adds |
| `CollectionEffects.VoidDoes` | backend/src/logand_backend/domain/invoices/service.py:280-291 | an open invoice can be voided, and only an open one |
| `CollectionTheorems.OverpaymentIsFlagged` | backend/src/logand_backend/api/invoices_public.py:529-541 | over every run without an unflagged manual overpayment, succeeded payments above the total imply the review flag |
| `CollectionTheorems.ManualOverpaymentEscapes` | backend/src/logand_backend/domain/invoices/service.py:329-380 | a concrete manual payment above the total leaves the invoice overpaid and not flagged |
| `CollectionTheorems.RaceIsFlagged` | backend/src/logand_backend/api/webhooks.py:99-123 | a Stripe success recorded while a PayPal row is pending leaves the invoice flagged through any continuation of the run |
| `OverdueJob.RecordedMoneyIsPermanent` | backend/src/logand_backend/db/models/invoices.py:104-124 | over every run rows keep reference and amount, succeeded stays succeeded, covered stays covered and keeps a paid_at, the flag is never cleared, and paid means covered |
| `OverdueJob.PaidIsFinalIff` | backend/src/logand_backend/db/models/invoices.py:104-112 | over every run paid stays paid, with the same paid_at, if and only if no overdue job writes a paid row it read as sent |
| `OverdueJob.PaidAtIsWrittenOnce` | backend/src/logand_backend/db/models/invoices.py:104-112 | without such a write an invoice is marked paid exactly when covered, and paid_at is written once |
| `OverdueJob.ReopensIff` | backend/src/logand_backend/domain/invoices/recurrence.py:178-195 | a paid or void invoice becomes payable again if and only if an overdue job that read it before writes it |
| `OverdueJob.ReopenedIsPaidAgain` | backend/src/logand_backend/domain/invoices/service.py:444-461 | from every invoice so reopened though covered there is a step that settles it anew and rewrites paid_at |
| `OverdueJob.StaleWriteReopensPaid` | backend/src/logand_backend/domain/invoices/recurrence.py:178-195 | a run of a new invoice: paid by card, read by the job, Stripe's success recorded, written by the job, the success redelivered and paid_at rewritten |
| `OverdueJob.StaleWriteHasOldRead` | backend/src/logand_backend/domain/invoices/recurrence.py:178-195 | behind every such write there is a read that found the invoice sent: it was paid in between |
| `OverdueJob.JobAlone` | backend/src/logand_backend/domain/invoices/recurrence.py:168-195 | a job nothing comes between marks exactly the sent invoices past due |
| `CollectionTheorems.DeliveriesCollapse` | backend/src/logand_backend/api/webhooks.py:228-335 | any duplicated and reordered deliveries for one intent that contain a success equal the first success alone, up to charge id and postal code: one succeeded row of the amount |
| `CaptureTheorems.RecordedOrderIsFinal` | backend/src/logand_backend/api/invoices_public.py:383-419 | once an order is in the table every later retry changes nothing, is answered from its row and never reaches PayPal; a failed or captured answer is final |
| `CaptureTheorems.OrdersAreRecordedOnce` | backend/src/logand_backend/db/models/invoices.py:237-272 | over every run at most one row per PayPal order and at most one pending row per invoice |
| `CaptureTheorems.PayPalRowsAreCaptured` | backend/src/logand_backend/api/invoices_public.py:436-496 | over every run each PayPal row is money PayPal answered for, of that amount, this invoice's and in its currency |
| `CaptureTheorems.CaptureRecordsIff` | backend/src/logand_backend/api/invoices_public.py:408-423 | an answered capture of an order not in the table, first try or retry, records the captured money if and only if the invoice is payable and nothing is pending; else PayPal is not asked and nothing changes |
| `CaptureTheorems.StepStrands` | backend/src/logand_backend/api/invoices_public.py:408-523 | one step: money is stranded by a capture that reaches PayPal and whose answer is lost or whose transaction does not commit; it stays so until a capture of the order gets past the guards and is answered and commits, or finds that PayPal has declined it |
| `CaptureTheorems.StrandedIff` | backend/src/logand_backend/api/invoices_public.py:408-523 | over every run PayPal holds money without a row in the table if and only if some capture stranded it and no later one resolved it |
| `CaptureTheorems.LostAnswerStrandsMoney` | backend/src/logand_backend/api/invoices_public.py:498-509 | a run in which captured money gets neither a row nor a flag: the answer is lost, the invoice is paid by hand, and the retry is refused |
| `TaxRules.TaxRuleTable.UpsertOneRule` | backend/src/logand_backend/scripts/fetch_tax_rules.py:224-263 | upserts one rule in place: nothing when its rate is current, an error on a taken slot, else closes the current rows and appends one |
| `TaxRules.TaxRuleTable.UpsertRules` | backend/src/logand_backend/scripts/fetch_tax_rules.py:266-281 | the loop over a batch equals the batch function, rolled back as a whole on a duplicate |
| `TaxRules.TaxRuleTable.AddTaxRule` | backend/src/logand_backend/scripts/fetch_tax_rules.py:284-342 | a single rule: refused unless its citation is governmental, and never the internal error; the returned row carries the requested rate |
| `TaxHistory.RefreshKeepsTiles` | backend/src/logand_backend/scripts/fetch_tax_rules.py:224-281 | every batch keeps each key's intervals gap-free and disjoint with exactly one open row at the end |
| `TaxHistory.PastIsImmutable` | backend/src/logand_backend/scripts/fetch_tax_rules.py:224-281 | the as-of rate at every instant before a refresh is the same after it |
| `TaxHistory.LookupIsTheTile` | backend/src/logand_backend/domain/invoices/tax/knowledge_base.py:18-54 | the as-of lookup returns exactly the row whose interval contains the instant |
| `TaxLookup.CategoryBeforeCatchAll` | backend/src/logand_backend/domain/invoices/tax/knowledge_base.py:18-54 | the rate of a category at an instant is that of its own row in force, else that of the "*" row in force, else there is none |
| `TaxLookup.BatchWrites` | backend/src/logand_backend/scripts/fetch_tax_rules.py:224-281 | a batch puts as many rows behind the old ones as it reports, each with key, rate and citation of one of the list and its instant, and otherwise only closes current rows |
| `TaxLookup.StoredIsNearest` | backend/src/logand_backend/db/models/tax.py:59 | the rate column keeps the nearest value with five decimals |
| `TaxHistory.CountsBalance` | backend/src/logand_backend/scripts/fetch_tax_rules.py:266-281 | open rows after plus superseded equal open rows before plus inserted |
| `TaxHistory.ListedRateApplies` | backend/src/logand_backend/scripts/fetch_tax_rules.py:266-281 | from the refresh on, every listed key's rate is the listed one as the column stores it |
| `TaxHistory.RerunIsNoOp` | backend/src/logand_backend/scripts/fetch_tax_rules.py:247-263 | re-running a list inserts and closes nothing if and only if every rate fits the five decimals of the column |
| `TaxHistory.SixDecimalsNeverSettle` | backend/src/logand_backend/scripts/fetch_tax_rules.py:247-263 | the rate 0.123456 is stored as 0.12346 and superseded by every re-run |
| `TaxHistory.AdjacentRatesDiffer` | backend/src/logand_backend/scripts/fetch_tax_rules.py:247-263 | neighbouring intervals keep different rates if and only if the stored rate differs from the one it supersedes |
| `TaxHistory.RefreshKeepsRatesChanging` | backend/src/logand_backend/scripts/fetch_tax_rules.py:266-281 | a batch of storable rates keeps neighbouring rates different |
| `TaxHistory.RunsKeepHistory` | backend/src/logand_backend/scripts/fetch_tax_rules.py:224-281 | over any run of refreshes under a clock that never goes back, histories stay tiled and every earlier as-of rate stays as it was |
| `TaxOverlap.OverlapTilesIff` | backend/src/logand_backend/scripts/fetch_tax_rules.py:266-342 | two overlapping batches, the first committing at any point of the second: a key's history stays tiled if and only if the second rolls back, or neither looks the key up with a changed rate before the commit when the first refreshed it, nor after it at an earlier instant; in the one case two rows stay open |
| `TaxOverlap.BatchTouches` | backend/src/logand_backend/scripts/fetch_tax_rules.py:224-281 | a batch that goes through closes the current rows of exactly the keys it has a rate to change for, and adds one row of each |
| `TaxOverlap.FirstRatesCollide` | backend/src/logand_backend/scripts/fetch_tax_rules.py:224-281 | two first rates of one key, refreshed side by side, are both current |
| `RateLimit.RateLimiter.Check` | backend/src/logand_backend/auth/rate_limit.py:72-86 | one request: what every key sees afterwards is one step of its own state, and the verdict is that step's; with a limit of zero or less the local branch fails on its empty list |
| `RateLimit.RateLimiter.CheckLocal` | backend/src/logand_backend/auth/rate_limit.py:88-100 | admits exactly when fewer than the limit of the key's hits are younger than the window, and forgets the older ones |
| `RateLimit.RateLimiter.CheckRedis` | backend/src/logand_backend/auth/rate_limit.py:102-127 | increments the key's counter, restarting an expired one, and admits up to the limit |
| `RateLimitBounds.LocalIsSlidingWindow` | backend/src/logand_backend/auth/rate_limit.py:88-100 | for every run, the local limiter admits if and only if fewer than limit admissions of the key lie in the preceding window |
| `RateLimitBounds.AdmissionBounds` | backend/src/logand_backend/auth/rate_limit.py:72-127 | no window-long interval holds more than limit local, 2*limit-1 Redis, or 3*limit-1 admissions in all |
| `RateLimitBounds.BoundsAreReached` | backend/src/logand_backend/auth/rate_limit.py:72-127 | for every limit and window a run reaches both bounds at once |
| `RateLimitBounds.SwitchIsOneWay` | backend/src/logand_backend/auth/rate_limit.py:72-86 | once Redis has failed it is never consulted again |
| `RateLimitBounds.NothingAdmitted` | backend/src/logand_backend/auth/rate_limit.py:62-66 | a limit of zero or less admits nothing |
| `RateLimitBounds.WaitIsClose` | backend/src/logand_backend/auth/rate_limit.py:88-127 | a refused client is told to wait at least a second, no longer than is left unless that is less, and less than a second short of it |
| `Retention.KeepSet` | backend/src/logand_backend/logging/retention.py:55-85 | the bucket loops keep exactly the recent files and the earliest file of each week and month bucket |
| `Retention.PruneLogs` | backend/src/logand_backend/logging/retention.py:88-125 | deletes what the schedule drops and then the shortest oldest-first prefix of the rest that brings the total to the cap |
| `RetentionSchedule.LoneFileIff` | backend/src/logand_backend/logging/retention.py:63-80 | a file alone is kept if and only if it is younger than daily, daily + 7 weekly, or daily + 7 weekly + 30 monthly days |
| `RetentionSchedule.WeeklyKeptIff` | backend/src/logand_backend/logging/retention.py:69-76 | of the files of an age for the weekly part, exactly the first of each ISO week number is kept |
| `RetentionSchedule.MonthlyKeptIff` | backend/src/logand_backend/logging/retention.py:77-80 | of the files older than that and younger than the schedule, exactly the first of each calendar month of a year is kept |
| `RetentionSchedule.MonthlyBound` | backend/src/logand_backend/logging/retention.py:77-80 | at most keep_monthly + 1 of them are, or three for a single month |
| `RetentionSchedule.CapTakesOldest` | backend/src/logand_backend/logging/retention.py:116-123 | the cap takes no kept file that is younger than one it leaves, and not one more than it must |
| `Dates.DateIs` | backend/src/logand_backend/logging/retention.py:77-80 | year and month of a day are those of the one Gregorian date it counts |
| `Dates.WeekOneHasJanuary4` | backend/src/logand_backend/logging/retention.py:73-75 | week 1 of a year is the one with January 4 in it |
| `RetentionTheorems.PruneSplits` | backend/src/logand_backend/logging/retention.py:103-125 | each file is deleted once or survives; survivors are on the schedule, fit the cap unless none is left, and are the whole schedule when it fits |
| `RetentionTheorems.PruneIsStable` | backend/src/logand_backend/logging/retention.py:88-125 | a second run on the same day deletes nothing, in whatever order it lists the files |
| `RetentionTheorems.OnePerCalendarWeek` | backend/src/logand_backend/logging/retention.py:69-76 | with at most 51 weekly weeks the year-less week number never merges two calendar weeks |
| `RetentionTheorems.MixesWeeksFrom52` | backend/src/logand_backend/logging/retention.py:69-76 | from 52 on it does: two files a year apart share a bucket and one is lost |
| `RetentionTheorems.WeeklyBound` | backend/src/logand_backend/logging/retention.py:69-76 | at most keep_weekly + 1 files survive in the weekly zone |
| `Calendar.SameNumberFarApart` | backend/src/logand_backend/logging/retention.py:69-76 | two different weeks of the same ISO week number (section 3.2.2 of ISO 8601:2004) lie at least 52 weeks apart |
| `Tokens.AccountStore.MintToken` | backend/src/logand_backend/domain/auth/email_verification.py:47-82 | minting takes the user's other live tokens of the purpose out of service and adds one |
| `Tokens.AccountStore.ClaimToken` | backend/src/logand_backend/domain/auth/email_verification.py:85-124 | claiming marks a live token of the purpose used and names its user, or changes nothing |
| `Tokens.AccountStore.RedeemAndActivate` | backend/src/logand_backend/domain/auth/email_verification.py:161-204 | redeeming equals the transaction's step: any error rolls the claim back |
| `Tokens.OneLiveToken` | backend/src/logand_backend/domain/auth/email_verification.py:56-77 | over every run of transactions that follow one another a user has at most one redeemable token of each purpose |
| `Tokens.OneActivation` | backend/src/logand_backend/domain/auth/email_verification.py:95-204 | when transactions follow one another, no account is activated twice and no token redeems twice, across both purposes |
| `Tokens.ActiveAccountIsOwned` | backend/src/logand_backend/domain/auth/email_verification.py:177-204 | when transactions follow one another, no token ever touches an account that is already active |
| `Tokens.VerifiedImpliesPassword` | backend/src/logand_backend/domain/auth/email_verification.py:177-204 | a verified account has a password, over every run |
| `Tokens.TokenSurvives` | backend/src/logand_backend/domain/auth/email_verification.py:85-124 | previews, refused redemptions and resets do not use a token up |
| `Tokens.SurvivorRedeems` | backend/src/logand_backend/domain/auth/email_verification.py:161-204 | a token still in service redeems for any password of valid length before it expires |
| `Tokens.TokenLifetime` | backend/src/logand_backend/domain/auth/email_verification.py:43-82 | from its minting a token redeems exactly until its purpose's time to live is over |
| `TokenEffects.RedeemDoes` | backend/src/logand_backend/domain/auth/email_verification.py:161-204 | when a redemption activates, by password of 8 to 128 characters, purpose, use, expiry and account; the password, verification and use it then writes; nothing otherwise |
| `TokenEffects.MintDoes` | backend/src/logand_backend/domain/auth/email_verification.py:47-82 | the token a mint adds, good for a day or thirty days, and exactly the rivals it uses up |
| `TokenEffects.PreviewDoes` | backend/src/logand_backend/domain/auth/email_verification.py:235-273 | a claim preview succeeds exactly for a claim token in service of an account that exists, and changes nothing |
| `TokenEffects.PreviewedCanBeClaimed` | backend/src/logand_backend/domain/auth/email_verification.py:235-300 | what is shown can be claimed, unless the account is active already |
| `TokenTransactions.SerialRedeem` | backend/src/logand_backend/domain/auth/email_verification.py:161-204 | a redemption that nothing comes between is the serial one |
| `TokenTransactions.SerialRedeemAnswers` | backend/src/logand_backend/domain/auth/email_verification.py:161-204 | and it is answered as there, by the statement that ends it |
| `TokenTransactions.SerialMint` | backend/src/logand_backend/domain/auth/email_verification.py:47-82 | so is a mint, in whatever order its UPDATE comes to the rows |
| `TokenTransactions.TokenRedeemsOnce` | backend/src/logand_backend/domain/auth/email_verification.py:88-107 | however transactions overlap, no token redeems twice |
| `TokenTransactions.RunKeepsSound` | backend/src/logand_backend/domain/auth/email_verification.py:88-107 | however they overlap, a claimed token stays unused and one transaction's own, and active accounts stay active and keep a password |
| `RedeemOverlap.OneActivationIff` | backend/src/logand_backend/domain/auth/email_verification.py:186-201 | at no point of a run can two redemptions of one user both finish and activate, if and only if no look at the account finds it inactive while another redemption of the user has had its look and not ended |
| `RedeemOverlap.OneActivationUnlessOvertaken` | backend/src/logand_backend/domain/auth/email_verification.py:186-201 | over any run without such a look an account is activated at most once, whatever else overlaps |
| `RedeemOverlap.ActiveIsNotRewrittenIff` | backend/src/logand_backend/domain/auth/email_verification.py:173-201 | at no point can a redemption finish on an account already active, if and only if there is no such look and no admin is seeded under one |
| `RedeemOverlap.BothPurposesActivate` | backend/src/logand_backend/domain/auth/email_verification.py:186-203 | such a run: one redemption of each purpose, the second looking before the first has ended, both activate the account and the later password stays |
| `MintOverlap.OneLiveWithoutOverlap` | backend/src/logand_backend/domain/auth/email_verification.py:56-77 | as long as mints for one user and purpose do not overlap, at most one of their tokens is redeemable |
| `MintOverlap.OverlappingMintsLeaveTwo` | backend/src/logand_backend/domain/auth/email_verification.py:56-77 | from every state in which a mint starts while another of the user and purpose runs, waiting or not, both can commit and leave two redeemable tokens until the first expires |
| `MintOverlap.ResendTwiceLeavesTwo` | backend/src/logand_backend/domain/auth/email_verification.py:56-77 | a run: with one live token, the second of two mints waits for the first to commit, finds that token used, and leaves the first's in service beside its own |
| `MintOverlap.OneLiveIff` | backend/src/logand_backend/domain/auth/email_verification.py:56-77 | however the transactions running at any point of a run end, a user has at most one token of a purpose redeemable at an instant, if and only if no two mints of the run whose tokens are good then overlap, waiting ones included |
| `Sessions.SessionRow.ValidateSession` | backend/src/logand_backend/auth/sessions.py:71-125 | accepts exactly a live session of an enabled, verified user and slides its expiry under the cap |
| `Sessions.SessionRow.Handle` | backend/src/logand_backend/app/app.py:186-261 | the middleware: a failed CSRF check rolls the slide back |
| `Sessions.SessionRow.constructor` | backend/src/logand_backend/auth/sessions.py:40-68 | a new session expires after the idle timeout of its role |
| `Sessions.SessionLifetime` | backend/src/logand_backend/auth/sessions.py:87-115 | accepted at t if and only if every gap between uses since creation is below the role's idle timeout and t is within seven days of creation; requests that failed CSRF or rolled back do not count as uses |
| `Sessions.AnswersIff` | backend/src/logand_backend/app/app.py:200-261 | over every run a request is authenticated if and only if it is in time and safe or passed the CSRF check, rejected by the check if and only if in time and neither, and unauthenticated otherwise; in time means gaps below 30 minutes, or 12 hours for an admin, and seven days in all |
| `Quaternions.Associative` | frontend/src/ascii/shapes.ts:172-179 | the product of quaternions is associative |
| `Quaternions.NormMultiplies` | frontend/src/ascii/shapes.ts:172-179 | the norm is multiplicative |
| `Quaternions.SandwichRotates` | frontend/src/ascii/shapes.ts:228-240 | the cross-product form of the rotation is conjugation by the unit quaternion |
| `Quaternions.Composition` | frontend/src/ascii/shapes.ts:171-179 | rotating by b and then by a is rotating by the product of a and b, as its doc comment says, and the product is a unit |
| `Quaternions.RotationIsProper` | frontend/src/ascii/shapes.ts:228-240 | a unit quaternion preserves dot products, hence lengths and angles, and orientation |
| `Quaternions.RotationInverts` | frontend/src/ascii/shapes.ts:228-240 | the conjugate turns back |
| `Quaternions.NormalizedUnit` | frontend/src/ascii/shapes.ts:181-184 | normalising gives a unit if and only if the quaternion is not zero |
| `Quaternions.IncrementIsUnit` | frontend/src/ascii/shapes.ts:220-225 | the increment of a frame is a unit |
| `Quaternions.IncrementTurns` | frontend/src/ascii/shapes.ts:220-225 | the increment keeps its axis and turns the viewing direction over it by its angle |
| `Quaternions.OrientationStaysUnit` | frontend/src/ascii/SpinningShape.tsx:194-208 | any accumulated sequence of normalised left-multiplications stays a unit if no increment is zero, and is zero otherwise |
| `Quaternions.OrientationIsTheMotion` | frontend/src/ascii/SpinningShape.tsx:194-208 | the accumulated orientation turns a point as the start and then every increment in order do |
| `ZBuffer.RasterizeShape` | frontend/src/ascii/shapes.ts:531-614 | every cell shows the earliest of the nearest points projecting into it, and is blank if and only if none does |
| `ZBuffer.Buffers.Plot` | frontend/src/ascii/shapes.ts:553-603 | one point: skipped behind the camera, outside the grid or no nearer; else it takes its cell and no other |
| `ZBufferTheorems.PictureIsUnique` | frontend/src/ascii/shapes.ts:531-614 | every point cloud has exactly one such picture |
| `ZBufferTheorems.OrderIrrelevantIff` | frontend/src/ascii/shapes.ts:574-576 | the order of the points is irrelevant if and only if no cell has two nearest points that look different |
| `ZBufferTheorems.SpherePictureComposes` | frontend/src/ascii/shapes.ts:566-603 | with view-facing light, drawing at the product of two rotations is drawing the turned cloud at the first |
| `ZBufferTheorems.OneCellPerLineOfSight` | frontend/src/ascii/shapes.ts:553-576 | points of one line of sight share a cell and the greater 1/z is the nearer |
| `ZBufferTheorems.ScreenDirections` | frontend/src/ascii/shapes.ts:560-571 | at one depth right is not left, up is not down, and straight ahead is the middle |
| `ShapeLook.PictureLooks` | frontend/src/ascii/shapes.ts:566-603 | a cell no point falls into is blank; any other holds the outline's character for the turned normal inside the silhouette band and the ramp's for its brightness outside, and the brightness its light, edge and occlusion give |
| `ShapeLook.TurningKeepsBrightness` | frontend/src/ascii/shapes.ts:518-530 | turning a shape other than the sphere leaves the brightness of its points alone |
| `ShapeLook.FacingBrightens` | frontend/src/ascii/shapes.ts:520-530 | a sphere's point does not get darker by facing the viewer more |
| `ShapeLook.FallsWhere` | frontend/src/ascii/shapes.ts:547-562 | which cell a point falls into, to half a cell, and when it is behind the camera |
| `ShapeLook.ShapeFits` | frontend/src/ascii/shapes.ts:547-562 | a shape within the cube around its middle is never cut off |
| `PixelGrid.RasterizeGrid` | wasm-ascii/src/rasterize.rs:10-53 | the compiled rasteriser's loops give, in row-major order, each cell's mean luminance and glyph |
| `PixelGrid.RasterizeFallback` | frontend/src/ascii/fallback.ts:64-100 | so do the fallback's, row by row; a cell with a pixel past the end of the buffer is not a number and has no glyph |
| `PixelGrid.CellBounds` | wasm-ascii/src/rasterize.rs:30-33 | the floored fractional bounds are exact integer quotients, and min never bites |
| `PixelGridTheorems.CellsPartitionTheImage` | wasm-ascii/src/rasterize.rs:28-38 | every pixel lies in exactly one cell, for all sizes |
| `PixelGridTheorems.EmptyCells` | frontend/src/ascii/fallback.ts:76-82 | no cell of a side is empty if and only if there are no more cells than pixels |
| `PixelGridTheorems.Conservation` | wasm-ascii/src/rasterize.rs:28-50 | any quantity summed over the cells is its sum over the image |
| `PixelGridTheorems.PixelsAreCounted` | wasm-ascii/src/rasterize.rs:28-50 | the cells of a complete image count width times height pixels |
| `PixelGridTheorems.BrightnessIsTheMean` | wasm-ascii/src/rasterize.rs:35-48 | a brightness lies in [0, 1] and times the count it gives back the cell's light |
| `PixelGridTheorems.OutputAt` | wasm-ascii/src/rasterize.rs:22-62 | the compiled program's cells come row by row, each with the mean of its own block and the glyph of that mean |
| `PixelGridTheorems.FallbackAt` | frontend/src/ascii/fallback.ts:40-90 | so do the page's, of a complete image |
| `PixelGridTheorems.ColoursAdd` | frontend/src/ascii/fallback.ts:20-26 | each colour adds its share of the light: 0.299, 0.587 and 0.114 of full white |
| `PixelGridTheorems.PixelOfRow` | wasm-ascii/src/rasterize.rs:33-45 | a pixel's bytes are those of its place in its row of the buffer, four a pixel |
| `PixelGridTheorems.RastersAgree` | wasm-ascii/src/rasterize.rs:7-9 | what the two programs return has the same brightness, cell for cell, if and only if the grid asked for has cells and the buffer holds every pixel |
| `PixelGridTheorems.GlyphsAgreeIff` | wasm-ascii/src/ramp.rs:7-13 | the two programs draw a brightness with the same glyph of every non-empty ramp if and only if the gamma curve leaves it where it is |
| `PixelGridTheorems.SameLookIff` | wasm-ascii/src/rasterize.rs:7-9 | an image looks the same in both on every non-empty ramp if and only if the curve fixes the brightness of each of its cells |
| `ShippedCurve.MiddleGreyDiffers` | frontend/src/ascii/fallback.ts:25-39 | one cell over two middle grey pixels is a t in one and a U in the other, on the ramp both ship with |
| `ShippedCurve.GammaAtHalf` | frontend/src/ascii/fallback.ts:30-33 | the power 0.6 of one half lies between 0.65 and 0.67 |
| `ShippedCurve.CurveBrightens` | frontend/src/ascii/fallback.ts:28-33 | the power 0.6 brightens every brightness but black and white, which it keeps |
| `ShippedCurve.ShippedLookIff` | frontend/src/ascii/fallback.ts:25-39 | with the shipped curve the two programs draw a complete image alike on every ramp if and only if each cell is wholly black or wholly white |
| `PixelGridTheorems.EmptyRampDiffers` | wasm-ascii/src/ramp.rs:8 | on the empty ramp only the compiled program has a glyph |
| `PixelGridTheorems.RungClimbs` | wasm-ascii/src/ramp.rs:7-13 | the ramp index stays in range and never falls as brightness rises |
| `PixelGridTheorems.GlyphIs` | frontend/src/ascii/fallback.ts:25-39 | a brightness draws the glyph of the highest of the ramp's equal steps it reaches, in the fallback after the curve |
| `PixelGridTheorems.BrighterIsNotEarlier` | frontend/src/ascii/fallback.ts:32-39 | nor does it under any gamma curve that climbs from 0 to 1 |
| `Packing.Pack` | wasm-ascii/src/lib.rs:23-30 | two bytes per cell, in order |
| `Packing.DecodeWasmGrid` | frontend/src/ascii/AsciiCanvas.tsx:26-47 | the decoder's grid, row after row, is the pairs of bytes in order; past the end of the array come characters of code 0 without a brightness |
| `Packing.CellRoundTrip` | frontend/src/ascii/AsciiCanvas.tsx:36-41 | a glyph survives if and only if its code is below 256; brightness is rounded down by less than 1/255, once |
| `Packing.PackedAt` | wasm-ascii/src/lib.rs:22-30 | of the two bytes of a cell the first is the low byte of its glyph's code, the second its brightness rounded down |
| `Packing.PastTheEnd` | frontend/src/ascii/AsciiCanvas.tsx:26-47 | what the page reads where the bytes end |
| `Packing.FullBlockIsLost` | wasm-ascii/src/lib.rs:11-13 | a full block, code 2588 in hexadecimal, is read back as code 88 |
| `Packing.GridRoundTrip` | frontend/src/ascii/AsciiCanvas.tsx:26-47 | what is decoded is what was packed, cell by cell in its place |
| `Rain.StepStream` | frontend/src/ascii/matrixRain.ts:338-372 | the inner loop ends and drops the column by exactly the whole intervals elapsed; a column past the bottom respawns |
| `Rain.StepStreams` | frontend/src/ascii/matrixRain.ts:338-372 | every column is stepped, in order |
| `Rain.FallenTwice` | frontend/src/ascii/matrixRain.ts:345-354 | falling twice is falling for the sum, with a remainder below the interval |
| `Rain.FrameRateIndependent` | frontend/src/ascii/matrixRain.ts:338-372 | however the elapsed time is cut into frames, a column ends in the same place with the same remainder, and has respawned if and only if one frame of the whole time would respawn it |
| `Rain.FallenIs` | frontend/src/ascii/matrixRain.ts:338-350 | a column that has waited k whole intervals, and not one more, has dropped k cells and keeps the rest of the wait |
| `Rain.GoneIff` | frontend/src/ascii/matrixRain.ts:360-372 | a column is replaced exactly when everything from its head to its last character is below the bottom edge |
| `Rain.StepParticles` | frontend/src/ascii/matrixRain.ts:152-163 | keeps the particles still alive, stepped, in order |
| `Rain.Flight` | frontend/src/ascii/matrixRain.ts:129-149 | age, horizontal position and velocity after any frames depend only on the total time; the fall exceeds or falls short by half of gravity times the sum of the squared frames |
| `Rain.Lifetime` | frontend/src/ascii/matrixRain.ts:129-130 | a particle expires if and only if its age plus the total time reaches its lifetime |
| `Rain.FallAgrees` | frontend/src/ascii/matrixRain.ts:134-136 | two ways of cutting the same time agree on the fall if and only if there is no gravity or the squares of the frames have the same sum |
| `Rain.HalvedFrameFallsFarther` | frontend/src/ascii/matrixRain.ts:134-136 | one frame of a time and two of half of it end a quarter of gravity times its square apart, for every living particle |
| `Rain.TimerIsFrameRateIndependent` | frontend/src/ascii/matrixRain.ts:140-147 | the timer's remainder depends only on the total time |
| `Rain.DrawnByCells` | frontend/src/ascii/matrixRain.ts:138-147 | a particle is drawn where it was until its timer runs out, then at the grid point nearest to it |
| `MockLedger.MockBackend.RecordManualPayment` | frontend/src/mocks/handlers.ts:508-539 | the handler's state and reply are those of the call |
| `MockLedger.MockBackend.RefundPayment` | frontend/src/mocks/handlers.ts:545-625 | so are the refund handler's, with its checks in order |
| `MockLedgerEffects.ManualDoes` | frontend/src/mocks/handlers.ts:508-539 | a manual payment's answers, each if and only if; the payment it appends; the invoice is marked paid exactly if its payments come to its total |
| `MockLedgerEffects.RefundAnswers` | frontend/src/mocks/handlers.ts:545-593 | the refund's answers, each if and only if, in the handler's order |
| `MockLedgerEffects.RefundDoes` | frontend/src/mocks/handlers.ts:594-625 | the refund it appends, and when payment and invoice become refunded |
| `MockLedgerEffects.StatusDoes` | frontend/src/mocks/handlers.ts:490-506 | sending and voiding set the status, whatever it was |
| `MockLedgerTheorems.RunKeepsSound` | frontend/src/mocks/handlers.ts:508-625 | whatever the calls and amounts, refunds of a payment are positive and never exceed it, its status is succeeded, partially_refunded or refunded exactly as they sum to nothing, a part or all, and a paid invoice is covered |
| `MockLedgerTheorems.RunConservesMoney` | frontend/src/mocks/handlers.ts:508-625 | over any run net collected is what it was, plus accepted manual payments, minus accepted refunds |
| `MockLedgerTheorems.RefundMovesMoney` | frontend/src/mocks/handlers.ts:594-611 | an accepted refund takes exactly its amount off the net and leaves the collected total |
| `MockLedgerTheorems.NetNeverNegative` | frontend/src/mocks/handlers.ts:220-252 | net collected can be refunded below zero if and only if a negative payment has been recorded |
| `MockLedgerTheorems.NegativePaymentIsAccepted` | frontend/src/mocks/handlers.ts:511-532 | a call records one if and only if it is a manual payment of a negative amount for an invoice found sent or overdue |
| `MockLedgerTheorems.NetBelowZero` | frontend/src/mocks/handlers.ts:519-532 | such a call on an invoice just sent brings net collected to minus five cents |
| `MockLedgerTheorems.RunKeepsNet` | frontend/src/mocks/handlers.ts:508-625 | without negative amounts among the calls net collected is never negative |
| `MockStats.ComputeInvoiceStats` | frontend/src/mocks/handlers.ts:208-258 | the dashboard's loops report the ledger's sums and dispute counts; the amounts by method add up to what was collected, and the invoices by status to all there are |
| `MockStats.GroupByMethod` | frontend/src/mocks/handlers.ts:233-240 | one entry per method of a collected payment, with its exact count and amount |
| `MockStats.EveryPaymentCountsOnce` | frontend/src/mocks/handlers.ts:208-258 | each payment counts once among the disputes, or among those without one |
| `BomStock.MockInventory.AdjustItem` | frontend/src/mocks/handlers.ts:826-857 | the audited adjustment's state and reply are those of the call |
| `BomStock.MockInventory.AddMaterialLine` | frontend/src/mocks/handlers.ts:926-947 | a second line for an item is refused |
| `BomStock.MockInventory.RemoveMaterialLine` | frontend/src/mocks/handlers.ts:949-960 | every line of the item goes, or it is not found |
| `BomStock.MockInventory.ConsumeBom` | frontend/src/mocks/handlers.ts:1007-1049 | checks every line, then applies every line |
| `BomStock.MockInventory.EditDataRow` | frontend/src/mocks/handlers.ts:1104-1126 | the data browser types a quantity over an item's and logs the one it found |
| `BomStock.MockInventory.DeleteDataRow` | frontend/src/mocks/handlers.ts:1128-1147 | takes an item off the list and logs it |
| `BomStock.MockInventory.RevertChange` | frontend/src/mocks/handlers.ts:1155-1173 | puts the logged quantity, or the item, back, without a record |
| `BomStockEffects.AdjustDoes` | frontend/src/mocks/handlers.ts:826-857 | an adjustment's answers, each if and only if, the quantity and the record it leaves |
| `BomStockEffects.AddLineDoes` | frontend/src/mocks/handlers.ts:926-947 | a line is appended with the amount per unit given, exactly to a bill and for an item that exist, and that has no line yet |
| `BomStockEffects.RemoveLineDoes` | frontend/src/mocks/handlers.ts:949-960 | every line of the item goes and no other |
| `BomStockEffects.ConsumeAnswers` | frontend/src/mocks/handlers.ts:1007-1028 | a build is refused exactly if some line lacks its item or enough of it |
| `BomStockEffects.BrowserDoes` | frontend/src/mocks/handlers.ts:1104-1147 | what the data browser writes and logs |
| `BomStockEffects.RevertDoes` | frontend/src/mocks/handlers.ts:1153-1173 | what taking a change back restores |
| `BomStockTheorems.RunKeepsOneLineEach` | frontend/src/mocks/handlers.ts:936-946 | over every run each bill has at most one line per item |
| `BomStockTheorems.ConsumeIsAllOrNothing` | frontend/src/mocks/handlers.ts:1017-1048 | a build happens if and only if every line is covered; each item is left with what it had less the need, never below zero, with one matching record; a refusal or another item leaves no trace |
| `BomStockTheorems.TwoLinesOversell` | frontend/src/mocks/handlers.ts:1019-1033 | with two lines for one item the check would pass and the stock go below zero |
| `BomStockTheorems.TotalTaken` | frontend/src/mocks/handlers.ts:1029-1046 | the stock removed is the sum of the needs |
| `BomStockTheorems.TrailsIff` | frontend/src/mocks/handlers.ts:798-1173 | a call keeps every item's records linked up to its quantity if and only if it does not overwrite, by another, the quantity of an item with records: in a plain edit, in the data browser, or by taking one of its edits back |
| `BomStockTheorems.RevertLosesAdjustment` | frontend/src/mocks/handlers.ts:1164-1168 | taking an edit back after an adjustment does so |
| `BomStockTheorems.RunKeepsTrails` | frontend/src/mocks/handlers.ts:781-1173 | over any run without such a call |
| `BomStockTheorems.StockIsExplained` | frontend/src/mocks/handlers.ts:841-854 | replaying an item's records gives what is in stock |
| `BomStockTheorems.InStockIff` | frontend/src/mocks/handlers.ts:781-1173 | a call makes stock negative if and only if it types a negative quantity into a new item, a plain edit or the data browser |
| `BomStockTheorems.RunStaysInStock` | frontend/src/mocks/handlers.ts:781-1173 | so over any run without one stock is never negative |

## Left out

- Refunds and disputes of the real backend, their webhooks, and payment states beyond pending, succeeded and failed: the collection protocol ends at the money received. A refund can take a paid invoice to refunded; every promise is about runs without one.
- The recurring invoices the overdue job's script creates in the same transaction: they touch no payment, status or paid_at of the parent.
- The data browser of the real backend (backend/src/logand_backend/domain/admin_data/service.py): it can write anything into any of the tables modelled.
- The total of an invoice is constant: editing line items, and creating, sending and listing invoices, would only add easy members.
- The reason text stored with the review flag, and a webhook's failed postal-code lookup: the postal code is part of the delivery.
- HTTP, SQL, email, hashing, and the Stripe and PayPal wire formats: answers and tokens are abstract values.
- Numeric(8, 5) overflow of a tax rate, and the parsing of rule files and tariff tables.
- CollectionDesk.InvoiceDesk.ReconcilePendingCapture: one payment at a time; the loop over all pending payments is a run of these steps.
- RateLimit.RateLimiter.Check: the bucket and client names form one key.
- Retention.PruneLogs: reading and deleting files is not modelled; files whose names do not parse never reach it.
- Sessions.SessionLifetime: the role, the disabled flag and the verification do not change during the run, and its requests do not overlap: a request that reads the row before an earlier one has committed its slide can still be refused. Revocation is not modelled.
- The generators of the shapes' point clouds, the silhouette glyph tables and the shading curves: parameters of `ZBuffer.RasterizeShape`.
- Random glyphs of the rain, and what a respawned column looks like: the respawned column is a parameter.
- Rain.StepStream: requires a positive interval; the source draws it between 60 and 140 milliseconds.
- The mock's role checks, request parsing, and rounding of amounts with fractions of a cent. Disputes only occur in the starting data.
- BomStock.MockInventory.EditDataRow: of the fields an edit can change only the quantity is modelled; one that changes an item's id is not.
- BomStock.MockInventory.ConsumeBom: quantities are whole numbers; the reason text, author and time of a record, and the cost estimate of a bill, are not modelled.
- Floating-point rounding everywhere: laws hold of the exact values.
- React components, canvas drawing, routing and API client wrappers.
- Upload helpers, health checks, deployment scripts, the release watcher and the ring-buffer logger.
