# chargeflow: the billing engine

This project models the billing engine of chargeflow and proves what its services promise
together: subscriptions, invoices, payment attempts, webhook events and the provider's
receipt ledger as one state machine. Nothing here was executed; every claim below is a Dafny
contract.

## How it is organised

Tables are sequences of rows, a primary key is a position, and amounts are whole cents. Each
`@transaction.atomic` service call is one step. A step reads the rows it needs, decides, and
writes; a refused step rolls back. The gateway call is a step of its own between prepare and
settle, so crashes, lost responses, lost or redelivered tasks and manual retries can fall
between any two steps. Time is a clock in microseconds that never runs backwards, and a
transaction reads it once.

| file | content |
|---|---|
| `Tables`, `Services` | rows, foreign keys, the two status machines; the services as functions on the database, steps and runs |
| `Calendar` | `_add_months` and `_compute_period_end` over day numbers |
| `Invariant`, `Preservation`, `Counting` | the joint invariant and its preservation by every step |
| `History` | what no later step can undo |
| `Renewals`, `DunningBound`, `Webhooks`, `ClientKeys`, `SettlementOrder` | billed periods, retry bounds, deduplication, client keys, order of settlements |
| `LifecycleLaws`, `PaymentLaws`, `CycleLaws` | what each transaction and cycle answers and writes, column by column, in terms of the rows alone |
| `Ledger`, `Truthful`, `Money` | the receipt ledger against the attempts, exactly-once capture, conservation of money |
| `Freshness`, `Progress`, `Recovery`, `DunningRounds` | attempts of the issue under way, the worker, the recovery sweep, dunning progress |
| `LockSteps`, `LockInvariant`, `LockPrograms`, `LockCommits`, `Serializability`, `LockProgress`, `HonestRaces` | the same transactions one lock and one query at a time, with aborts: serial order, no deadlock, an end, and a truthful provider under races |
| `ExampleRun` | short runs from the empty database, used as witnesses |
| `OrgScope` | subscription creation against customer and plan moves, one lock, read or write at a time |
| `Gateway`, `Engine` | the imperative form: objects whose methods update the tables in place |

`Engine.BillingEngine` follows the services statement by statement: compare-and-set status
moves, the branches of `_prepare` and `settle` in their order, the savepoint around the charge
id, and the loops of the batch tasks. Every method is proved equal to the step functions of
`Services`, and the object's invariant is that its rows are those of a run of steps from the
empty database. So each theorem about runs is a theorem about every sequence of calls of the
transaction methods, which are those that require and ensure `Valid()`.

## Environments

* Adversarial: webhooks and settlements may carry any outcome and any charge id for any
  attempt, in any order. This holds wherever nothing else is said.
* Truthful (`Truthful.HonestRun`): a settlement carries the ledger's own result for the
  attempt's provider key. Used by exactly-once capture, conservation and dunning progress.
* Moving clock of one invoice (`Freshness.StrictRun`): the clock has moved between its last
  attempt and its next dunning. No main result assumes it; `Recovery.MovingClockIsRecoverable`
  shows that it is enough for recovery, because `attempted_at >= issued_at` cannot tell two
  issues of one instant apart.

Four promises do not hold without a condition, and the exact condition is proved for each:

* Dropping the later occurrences of a webhook event is sound for repeats of well-formed
  deliveries. A malformed delivery is rejected before it is recorded
  (`Webhooks.DropIsSoundIff`, witness `Webhooks.MalformedFirstIsNotRecorded`).
* A decline and a success for one charge, delivered in either order, agree on every row but
  perhaps the status of the attempt. They differ there exactly when the attempt is in flight,
  its success can no longer be applied, and its charge id is empty or not stored elsewhere; it
  then ends flagged, FAILED in one order and PENDING in the other
  (`SettlementOrder.OrderDoesNotMatter`, witness `SettlementOrder.OrderShowsOnLateCharge`).
* A reissued invoice with nothing in flight is charged by the worker exactly when all its
  attempts are older than the reissue (`Freshness.ReissueIsChargedIff`, witness
  `Freshness.ReissueIsLost`).
* The recovery sweep resolves a stuck invoice exactly when it has an attempt in flight or no
  attempt since its issue (`Recovery.NothingStaysStranded`, witness `Recovery.StrandedRun`, a
  truthful run).

## Model

| member | source | states |
|---|---|---|
| Preservation.Reachable | subscriptions/application/services.py:78-152 | in every run, with any webhooks, the joint invariant holds: statuses of subscription and invoices fit together; organizations agree; PAID means one SUCCESS attempt; keys and charge ids are unique; billed periods are disjoint |
| Preservation.ExecKeeps | payments/application/services.py:48-269 | each single step keeps that joint invariant |
| Preservation.SettledOutcome | payments/application/services.py:175-269 | a settlement touches the attempt only, or pays, or declines with or without effect on invoice and subscription; a flagged attempt is frozen and a stored charge id stays |
| Preservation.SettleKeeps | payments/application/services.py:154-269 | settle keeps the joint invariant; it changes one subscription and one invoice at most in their status, the attempt in its status, charge id and flag, and nothing else |
| Preservation.PrepareInserts | payments/application/services.py:55-131 | `_prepare` inserts only for a payable invoice of a live subscription with no open attempt, both keys unused, nothing attempted since the issue, and for the worker only while ISSUED |
| Preservation.DunCases | invoices/tasks.py:51-68 | dunning skips, reissues, or gives up and cancels in one transaction; under the invariant the subscription is never already canceled |
| Preservation.GiveUpKeeps | invoices/tasks.py:63-67 | giving up on an invoice with enough declines, which closes the others and cancels the subscription for NON_PAYMENT, keeps the joint invariant |
| Preservation.GenerateKeeps | invoices/application/services.py:12-41 | a database that lacks at most the invoice of this subscription's current period satisfies the joint invariant after generation, so the new invoice overlaps no earlier one |
| Preservation.StartPeriodKeeps | subscriptions/application/services.py:80-95 | activating a trial or renewing a due subscription keeps the joint invariant, so the new period starts after every billed one |
| Preservation.CancelKeeps | subscriptions/application/services.py:122-132 | a voluntary cancellation keeps the joint invariant: no open invoice is left under it |
| Preservation.NoOpenAttempt | payments/application/services.py:107-109 | the lookup for an open attempt is empty exactly when no attempt is PENDING or SUCCESS |
| History.RunLater | payments/application/services.py:175-261 | over any steps SUCCESS is never left, a flagged attempt is frozen, a stored charge id is never replaced, no attempt becomes PENDING again, PAID, CANCELED and OVERDUE invoices stay |
| History.JointStatuses | invoices/domain/models.py:16-32 | in every run, with any webhooks: a TRIAL has no invoice, ACTIVE has only ISSUED or PAID, OVERDUE only ISSUED, FAILED or PAID and not all PAID, CANCELED only PAID, CANCELED or OVERDUE |
| History.CancellationIsFinal | subscriptions/application/services.py:122-132 | after CANCELED no steps change the row, add an invoice, change one of its invoices, create an attempt or make one succeed |
| History.LateSuccessOnlyFlags | payments/application/services.py:228-250 | a success arriving after cancellation only sets the flag and may store its charge id |
| History.PaidIffOneSuccess | payments/domain/models.py:52-56 | an invoice is PAID exactly when an attempt succeeded; never two successes and never two attempts in flight, from the branches and not from the constraint |
| History.EndedForNonPayment | invoices/tasks.py:57-67 | the reason is NON_PAYMENT exactly when an invoice is OVERDUE; that invoice is the only one, its subscription is CANCELED, and it keeps its status and at least MAX_DUNNING_ATTEMPTS declines forever |
| Renewals.DisjointBilling | subscriptions/application/services.py:134-152 | no instant is billed twice to a subscription, and an ACTIVE one has exactly one invoice for its current period |
| Renewals.CyclesIdempotent | subscriptions/tasks.py:17-66 | running a renewal or activation cycle twice at one instant equals running it once, and leaves nothing due |
| Renewals.BatchSettles | subscriptions/tasks.py:41-52 | a batch settles each listed subscription and makes no other due |
| CycleLaws.RenewalCycle | subscriptions/tasks.py:18-27 | the renewal cycle moves exactly the ACTIVE subscriptions whose period end has come into a calendar period from now, with one new invoice each, queued once; every other row is unchanged and unbilled |
| CycleLaws.ActivationCycle | subscriptions/tasks.py:30-38 | the activation cycle does the same to exactly the TRIAL subscriptions whose end has come; a running trial is neither changed nor billed |
| CycleLaws.BatchBills | subscriptions/tasks.py:41-83 | over any list of ids, in any order and with repetitions, each listed subscription whose time has come is moved and billed once and no other |
| CycleLaws.TrialIsBilledAtItsEnd | subscriptions/application/services.py:50-65 | a run from the empty database: a plan with fourteen trial days bills nothing at creation, the cycle leaves it alone until they are over, and then bills the first period |
| LifecycleLaws.CreationReply | subscriptions/application/services.py:43-47 | creation is refused for a missing parent, two organizations or an inactive plan, in this order, for nothing else and without effect |
| LifecycleLaws.CreatedOnTrial | subscriptions/application/services.py:49-62 | with trial days the one new row is TRIAL from now for that many days, in its parents' organization; no invoice, no task |
| LifecycleLaws.CreatedActive | subscriptions/application/services.py:49-65 | without them it is ACTIVE for one calendar interval and exactly one invoice is added: ISSUED now, the plan's price and currency, the row's period, its own id queued |
| LifecycleLaws.GenerationIssuesOnce | invoices/application/services.py:12-41 | an ACTIVE subscription gets an invoice for its period unless it has one; a second call does nothing |
| LifecycleLaws.PeriodReplies | subscriptions/application/services.py:80-90 | activation is accepted exactly for TRIAL, renewal exactly for ACTIVE with its end reached; each refusal has its error and no effect |
| LifecycleLaws.ActivationBills | subscriptions/application/services.py:80-95 | an activated trial has had no invoice; it enters a calendar period from now with exactly one, and nothing else changes |
| LifecycleLaws.RenewalBills | subscriptions/application/services.py:136-152 | a renewed subscription enters a calendar period from now with exactly one new invoice, and nothing else changes |
| LifecycleLaws.CancellationCloses | subscriptions/application/services.py:124-132 | cancellation sets status and reason, cancels exactly the DRAFT, ISSUED and FAILED invoices of the subscription, and is refused only for a missing or canceled row |
| LifecycleLaws.DunningReissuesOrGivesUp | invoices/tasks.py:52-68 | a FAILED invoice with fewer than three declined attempts is ISSUED again now and queued, with three it is OVERDUE and its subscription canceled for NON_PAYMENT with its open invoices; any other is left alone |
| LifecycleLaws.StepsMoveAlong | invoices/domain/models.py:25-32 | from any database every step moves the statuses of stored rows along nine invoice moves and six subscription moves only |
| LifecycleLaws.TablesAllow | subscriptions/domain/models.py:21-26 | the two transition tables are those moves and three more that no step makes on a stored row |
| LifecycleLaws.ParentsMoveFreely | accounts/models.py:121-131 | a customer or plan with subscriptions cannot change organization; every other save changes that row alone |
| DunningBound.IssueBound | invoices/tasks.py:57-68 | an invoice enters ISSUED at most MAX_DUNNING_ATTEMPTS times, covered by its declined attempts |
| DunningBound.WorkerBound | payments/application/services.py:93-131 | the worker path creates at most one attempt an issue, so at most MAX_DUNNING_ATTEMPTS, however often its task is delivered |
| DunningBound.ExecIssue | payments/application/services.py:225-269 | any step moves an invoice from ISSUED to FAILED only with one more declined attempt, and to ISSUED only as the dunning of that invoice |
| Webhooks.Deduplication | payments/application/services.py:331-344 | any run ends as the run without the repeated deliveries of each event, whatever happens between them |
| Webhooks.NoEffectIff | payments/application/services.py:302-334 | a delivery has no effect exactly when it is malformed or its event is recorded |
| PaymentLaws.WebhookAccepts | payments/application/services.py:302-329 | which providers, ids, types, payloads, outcomes and charge ids are accepted, as an equivalence over the payload; any other delivery is refused without effect |
| PaymentLaws.WebhookSettlesNamed | payments/application/services.py:331-362 | a new event that names attempt n is the settlement of exactly attempt n with its outcome and charge id, recorded under that attempt's organization |
| PaymentLaws.WebhookTouchesNamed | payments/application/services.py:346-362 | all other attempts, invoices and subscriptions stay as they are |
| PaymentLaws.WebhookOutcome | payments/application/services.py:346-362 | a reported success pays the invoice of attempt n while it is owed, and a reported failure declines attempt n |
| PaymentLaws.WebhookRecordsOnly | payments/application/services.py:331-352 | a recorded event is ignored, and one that names no stored attempt is recorded and does nothing else |
| Webhooks.DropIsSoundIff | payments/application/services.py:303-344 | after any run a delivery may be dropped exactly when it is malformed or its event was delivered in good form before |
| Webhooks.MalformedFirstIsNotRecorded | payments/application/services.py:303-329 | a rejected first delivery does not consume the event id |
| Webhooks.ChargePaysOnce | payments/domain/models.py:61-65 | no nonempty charge id is bound to two attempts, so one charge never pays two invoices |
| ClientKeys.KeyBinding | payments/application/services.py:67-84 | after any run in which an attempt stores a key, every later request with it in that organization gets that attempt for the same invoice and a conflict for another, and creates nothing |
| ClientKeys.KeysDoNotCross | payments/domain/models.py:51 | a request behaves the same when the keys of all other organizations are erased |
| PaymentLaws.FirstRequestBinds | payments/application/services.py:67-131 | from the first request on: one with a client key that inserts an attempt binds it, and after any further steps the key returns that attempt for its invoice, conflicts for any other invoice of the organization, and writes nothing |
| PaymentLaws.PrepareInsertsIff | payments/application/services.py:55-131 | an attempt is inserted exactly for a payable invoice of a live subscription with a free client key, no attempt of its issue and none PENDING or SUCCESS; every column of it is stated, and otherwise nothing is written |
| PaymentLaws.PrepareReplaysKey | payments/application/services.py:67-84 | the first attempt with the client key is returned, or refused for another invoice, before the invoice's own state counts |
| PaymentLaws.PrepareNotPayable | payments/application/services.py:86-92 | a DRAFT, PAID or CANCELED invoice returns its first PENDING attempt or is refused |
| PaymentLaws.PrepareSameIssue | payments/application/services.py:93-105 | the first attempt since the issue is returned, and refused for a request with another client key |
| PaymentLaws.PrepareStillOpen | payments/application/services.py:107-114 | otherwise the first PENDING or SUCCESS attempt is returned |
| PaymentLaws.PrepareRefuses | payments/application/services.py:116-131 | otherwise a canceled subscription or a provider key in use refuses |
| PaymentLaws.PrepareLeavesAlone | payments/application/services.py:55-65 | a missing invoice is an error, and the worker leaves one alone that is not ISSUED |
| PaymentLaws.CallAnswers | payments/infrastructure/mock_gateway.py:28-54 | the first receipt under the provider key answers if it is for the same request, else the call fails; without one the draw is recorded under a new charge id |
| PaymentLaws.ChargeCallsThenSettles | payments/application/services.py:134-152 | only an unflagged PENDING attempt is charged, and it is settled with the gateway's own answer |
| PaymentLaws.PaymentRunsThrough | payments/application/services.py:38-152 | a first payment call with new ids leaves one receipt, one settled attempt with the request's key, and the invoice PAID or FAILED |
| PaymentLaws.PaymentReplays | payments/application/services.py:38-84 | a repeated call with a stored key writes nothing once that attempt is settled or flagged, nor does one for another invoice |
| PaymentLaws.SettlementIgnored | payments/application/services.py:175-194 | a settled or flagged attempt ignores a decline, and a success without another charge id |
| PaymentLaws.SettlementFlags | payments/application/services.py:180-223 | a second charge id for one attempt, or the charge id of another attempt, sets the flag and nothing else |
| PaymentLaws.SuccessPaysOrFlags | payments/application/services.py:228-257 | a success pays a payable invoice of a live subscription with no other success, reactivates an OVERDUE subscription without other arrears, and otherwise only flags |
| PaymentLaws.DeclineFails | payments/application/services.py:225-269 | a decline fails the attempt, an owed ISSUED invoice and its ACTIVE subscription, and touches no other status |
| SettlementOrder.OrderDoesNotMatter | payments/application/services.py:175-269 | a decline and a success with one charge id agree in either order on everything but perhaps the attempt's status, and differ there exactly when the attempt is in flight, its success cannot be applied and its charge id can be stored; it is then flagged, FAILED in one order and PENDING in the other |
| SettlementOrder.OrderShowsOnLateCharge | payments/application/services.py:228-269 | a run on which the order shows: a charge under way, a cancellation, and both outcomes |
| SettlementOrder.RepeatDoesNothing | payments/application/services.py:175-226 | repeating a settlement changes nothing |
| SettlementOrder.RowsCommute | subscriptions/application/services.py:105-120 | the order argument on the three rows, including reactivation |
| Ledger.ReachableBooks | payments/domain/models.py:150-164 | receipts are unique by key and by charge id and each answers the request of some attempt, in every run |
| Ledger.ReceiptMatches | payments/domain/models.py:74-100 | the receipt under an attempt's key answers exactly that attempt's stored request |
| Ledger.FingerprintNeverMismatches | payments/infrastructure/mock_gateway.py:48-49 | the fingerprint error is unreachable, even with edited customers and plans and dishonest webhooks |
| Truthful.CapturedAtMostOnce | payments/application/services.py:107-152 | with a truthful provider an invoice has at most one successful receipt |
| Truthful.ReachableTruth | payments/application/services.py:145-151 | an attempt's stored state agrees with its receipt, at most one attempt is not declined, and flags stand only on canceled subscriptions |
| Truthful.BackedSettle | payments/application/services.py:228-269 | a truthful settlement changes only an unflagged PENDING attempt: it pays, fails, or flags after a cancellation |
| Money.MoneyConserved | payments/application/services.py:133-269 | captured money equals the totals of PAID invoices plus flagged attempts plus unsettled successes, in every truthful run |
| Money.ExecConserves | payments/application/services.py:228-269 | each step of a truthful run keeps the balance |
| Freshness.ReachableFresh | payments/application/services.py:93-105 | if the clock moved before each dunning of an invoice, every attempt made since its current issue is PENDING |
| Freshness.ReissueIsChargedIff | payments/application/services.py:93-105 | after a reissue with nothing in flight the worker starts a charge exactly when every earlier attempt is older than the reissue; otherwise it changes nothing |
| Freshness.ReissueIsLost | invoices/domain/models.py:87-89 | a truthful run on which decline, settlement and dunning share an instant: the worker finds the declined attempt and starts nothing |
| Progress.DrainResolves | payments/application/services.py:271-278 | draining the queue with a responding gateway takes every delivered invoice with no settled attempt of its issue out of ISSUED, or flags its attempt |
| Progress.WorkIsCharging | payments/tasks.py:10-12 | a worker run changes at most the invoice it was handed, and that only from ISSUED to PAID or FAILED; exactly one more decline is counted when it becomes FAILED and none otherwise |
| Progress.ChargeResolves | payments/application/services.py:133-152 | one answered charge resolves its invoice |
| Progress.GatewayAnswers | payments/infrastructure/mock_gateway.py:28-54 | with a fresh charge id the gateway answers every attempt with its own receipt |
| Recovery.NothingStaysStranded | invoices/tasks.py:71-103 | after the sweep and a drained queue an invoice issued ten minutes ago with no younger attempt has left ISSUED, or its attempt is flagged, exactly when before the sweep it had an attempt in flight or none since its issue; in any run |
| Recovery.StrandedRun | invoices/tasks.py:89-96 | ten minutes later that invoice is stuck, neither query of the sweep finds it, and it stays ISSUED |
| Recovery.MovingClockIsRecoverable | invoices/tasks.py:73-96 | that condition holds for every ISSUED invoice that was dunned only when the clock had moved since its last attempt |
| Recovery.SweepLeaves | invoices/tasks.py:89-96 | an ISSUED invoice charged since its issue with nothing in flight is found by neither query and stays |
| Recovery.RecoverResolves | payments/application/services.py:280-291 | the first loop resolves the invoice of every listed attempt that is in flight and leaves all attempts that are not listed alone |
| Recovery.AfterFirstLoop | invoices/tasks.py:73-96 | after the first loop a stuck invoice that meets the condition is resolved or the second query finds it |
| Recovery.Abandoned | invoices/tasks.py:73-79 | exactly the unflagged PENDING attempts of at least ten minutes |
| Recovery.Uncharged | invoices/tasks.py:89-96 | exactly the ISSUED invoices of at least ten minutes with no attempt since their issue |
| Recovery.SweepFinds | invoices/tasks.py:72-103 | the sweep charges no attempt younger than ten minutes, settled or flagged, and hands over, once each, exactly the ISSUED invoices of ten minutes with no attempt since their issue |
| DunningRounds.DunningFinishes | invoices/tasks.py:32-68 | from any state of a truthful run, three dunning rounds with drained queues leave a FAILED invoice PAID, CANCELED or OVERDUE, whatever the provider answers, in any order of dunning and delivery, and with any other steps between the rounds and between dunning and delivery that neither dun the invoice nor lose its task |
| DunningRounds.RoundAdvances | invoices/tasks.py:57-68 | one round settles a FAILED invoice or lowers its measure |
| Serializability.InterleavingsAreSerial | payments/application/services.py:162-170 | every interleaving of single locks, queries and aborts, from any state, ends as a serial run of its transactions in the order of their commits (of its lookup for one that found no row), and each of them answers or refuses as it would there |
| Serializability.NeverStuck | invoices/tasks.py:53-56 | while a transaction is unfinished, some transaction can take its next step |
| Serializability.RacesKeepInvariant | payments/application/services.py:55-75 | from any reachable state the joint invariant and the ledger's hold after every interleaving, and its serial order continues the run that led there |
| LockProgress.GoLowers | payments/application/services.py:162-170 | each step a transaction takes lowers a well-founded measure of remaining operations and invoice locks |
| LockProgress.OthersDoNotRaise | payments/application/services.py:162-170 | the clock, the provider, the broker and aborts never raise that measure |
| LockProgress.AllCanFinish | tests/test_synchronous_core.py:200-253 | from every reachable point all transactions under way can be brought to their end |
| HonestRaces.RacesAreHonest | payments/application/services.py:145-151 | after any truthful run, if every settlement is on the ledger when it begins, the serial order of any interleaving continues that run truthfully |
| HonestRaces.RacesConserveMoney | payments/application/services.py:133-269 | so money is conserved, no invoice is captured twice and flags stand only on canceled subscriptions, however the transactions race |
| HonestRaces.CapturedChargeIsPaid | payments/application/services.py:228-257 | such an interleaving with captured money: from a captured charge a settlement begins, goes through its locks and queries, commits and pays the invoice |
| LockPrograms.TakenInOrder | tests/test_synchronous_core.py:200-253 | every transaction takes its event, subscription, plan, organization, charge and key locks in one order |
| LockPrograms.TakenBelowSub | tests/test_synchronous_core.py:200-253 | invoices and attempts are locked only after their subscription, and an attempt only after its invoice |
| LockInvariant.FineStays | payments/application/services.py:162-170 | a commit under other locks leaves everything a transaction has read true |
| LockCommits.CommitIsSerial | payments/application/services.py:58-131 | a commit does what the whole transaction would do at that moment and changes only rows it has locked |
| LockCommits.LifecycleAnswer | subscriptions/application/services.py:86-145 | cancel, activate and renew refuse from what they have read exactly as the whole service would |
| LockCommits.PrepareCommit | payments/application/services.py:55-131 | prepare decides from its separate queries as from one snapshot, and gives the same answer |
| LockCommits.CancelCommit | invoices/application/services.py:61-74 | closing the invoices listed and locked one by one equals closing all open ones at commit |
| LockSteps.NextOpen | invoices/application/services.py:66-73 | the next invoice to lock is listed and not yet locked, and when there is none all listed ones are locked |
| OrgScope.ScopeSurvivesRaces | subscriptions/domain/models.py:59-93 | in every interleaving of creations, re-parenting, customer and plan moves and aborts each subscription's organization equals its customer's and its plan's |
| OrgScope.CommitRespects | accounts/models.py:121-131 | a parent move never commits while another transaction relies on what it read of that parent |
| OrgScope.SomeoneCanStep | plans/models.py:31-41 | these transactions never deadlock |
| OrgScope.CreateAlone | subscriptions/application/services.py:43-62 | undisturbed, a subscription is inserted exactly for a customer and a plan of one organization, and in it |
| OrgScope.ReparentAlone | subscriptions/domain/models.py:59-93 | it gets other parents exactly when both are of its own organization |
| OrgScope.MoveAlone | accounts/models.py:121-131 | a customer or a plan changes its organization exactly when no subscription uses it |
| Calendar.OneMonthAdvance | subscriptions/application/services.py:20-26 | one added month advances 28 to 31 days |
| Calendar.TwelveMonthAdvance | subscriptions/application/services.py:36-37 | twelve added months advance 365 or 366 days |
| Calendar.AddMonthsMonotone | subscriptions/application/services.py:21-26 | adding months keeps the order of dates |
| Calendar.AddMonthsCompose | subscriptions/application/services.py:21-25 | adding a then b lands in the month of a + b, never later, and on the same day exactly when the halfway clamp loses nothing |
| Calendar.DateRoundTrip | subscriptions/application/services.py:26 | a date is determined by its day number |
| Calendar.MonthLengths | subscriptions/application/services.py:25 | 30 days in months 4, 6, 9 and 11, 31 in seven months, and in month 2 the Gregorian leap rule |
| Calendar.NextDay | subscriptions/application/services.py:21-26 | day 0 is 1 January of year 1 and each number is the next day of the calendar |
| Calendar.PeriodEndFollowsCalendar | subscriptions/application/services.py:29-38 | every computed end is a day, 7 days, 30 days, or the same time of day one or twelve calendar months later on the same day or the month's last |
| Calendar.PeriodEndIsUnique | subscriptions/application/services.py:29-38 | no other instant meets that description |
| Calendar.PeriodEnd | subscriptions/application/services.py:29-38 | bounds of every period: 7 days, 28 to 31 days, 365 or 366 days, and always at least one; PeriodEndFollowsCalendar gives the exact end |
| Calendar.PeriodEndKeepsTime | subscriptions/application/services.py:29-38 | billing keeps the time of day |
| Tables.First | payments/application/services.py:72-75 | the matching row with the smallest primary key, or none matches |
| Services.FindReceipt | payments/infrastructure/mock_gateway.py:28-30 | a receipt with this key, or no receipt has it |
| Services.CloseOpenCloses | invoices/application/services.py:66-74 | afterwards nothing is open on the subscription; exactly the rows open on it have changed, by a move the table allows; closing again or in another order makes no difference |
| Renewals.ReadyIds | subscriptions/tasks.py:20-37 | exactly the ACTIVE, or TRIAL, subscriptions whose period end is not after now |
| DunningRounds.FailedIds | invoices/tasks.py:35-37 | exactly the FAILED invoices |
| GatewayLedger.Gateway.Charge | payments/infrastructure/mock_gateway.py:15-54 | lookup, insert and re-read on conflict: a racing call gives the outcome of that call having come first |
| GatewayLedger.Gateway.Insert | payments/domain/models.py:151-164 | receipts are only added, refused by either unique index |
| GatewayLedger.ChargeReplays | payments/infrastructure/mock_gateway.py:28-54 | a repeated request gets the first answer and the ledger does not grow |
| GatewayLedger.RacersAgree | payments/infrastructure/mock_gateway.py:34-46 | two racing calls for one request get one receipt |
| Engine.BillingEngine.MoveSubscription | subscriptions/domain/models.py:98-113 | the compare-and-set moves the row exactly when the table allows it and the row has not moved |
| Engine.BillingEngine.MoveInvoice | invoices/domain/models.py:81-98 | the same for invoices; entering ISSUED stores the time |
| Engine.BillingEngine.GenerateForSubscription | invoices/application/services.py:12-41 | draft, issue and hand-off amount to one ISSUED invoice for a new period of an ACTIVE subscription |
| Engine.BillingEngine.MarkPaid | invoices/application/services.py:45-49 | PAID from a payable status, no change when already PAID |
| Engine.BillingEngine.MarkFailed | invoices/application/services.py:53-59 | FAILED from ISSUED only |
| Engine.BillingEngine.MarkOverdue | invoices/application/services.py:78-82 | OVERDUE from FAILED only |
| Engine.BillingEngine.CancelOpenForSubscription | invoices/application/services.py:63-74 | the loop closes exactly the open invoices of the subscription |
| Engine.BillingEngine.ReissueForRetry | invoices/application/services.py:86-93 | FAILED becomes ISSUED now and is handed to the worker; other statuses stay |
| Engine.BillingEngine.CreateSubscription | subscriptions/application/services.py:42-65 | the create step of CreationReply, CreatedOnTrial and CreatedActive |
| Engine.BillingEngine.ActivateSubscription | subscriptions/application/services.py:80-95 | the activate step, for a TRIAL subscription only |
| Engine.BillingEngine.RenewSubscription | subscriptions/application/services.py:136-152 | the renew step of PeriodReplies and RenewalBills |
| Engine.BillingEngine.MarkSubscriptionOverdue | subscriptions/application/services.py:99-103 | OVERDUE from ACTIVE only |
| Engine.BillingEngine.Reactivate | subscriptions/application/services.py:107-120 | OVERDUE becomes ACTIVE exactly when no invoice is FAILED or OVERDUE |
| Engine.BillingEngine.CancelSubscription | subscriptions/application/services.py:124-132 | the cancel step, refused when already CANCELED |
| Engine.BillingEngine.DunInvoice | invoices/tasks.py:52-68 | the dunning step of one invoice |
| Engine.BillingEngine.RunDunningCycle | invoices/tasks.py:33-48 | the loop over the snapshot, in the order the database returns it, equals the dunning steps in that order |
| Engine.BillingEngine.SaveAttempt | payments/domain/models.py:68-106 | clean, the immutable snapshot and the unique constraints: no save changes an attempt's request, invoice, organization or client key |
| Engine.BillingEngine.ChooseAttempt | payments/application/services.py:59-117 | the branches of `_prepare` in their order make the decision of the specification |
| Engine.BillingEngine.PrepareCharge | payments/application/services.py:50-131 | the prepare step and its answer, as PaymentLaws states them |
| Engine.BillingEngine.BindCharge | payments/application/services.py:198-223 | the charge id is stored, or the attempt flagged when another attempt has it |
| Engine.BillingEngine.ApplySuccess | payments/application/services.py:228-257 | a success pays and perhaps reactivates, or only flags |
| Engine.BillingEngine.ApplyDecline | payments/application/services.py:259-269 | a decline fails the attempt, and the invoice and subscription where they may still move |
| Engine.BillingEngine.SettleAttempt | payments/application/services.py:156-269 | the sequence of saves and service calls amounts to the settle step |
| Engine.BillingEngine.ChargeAttempt | payments/application/services.py:134-152 | gateway call and settlement of its own answer |
| Engine.BillingEngine.AttemptPayment | payments/application/services.py:38-46 | prepare, then charge when told to |
| Engine.BillingEngine.DeliverTask | payments/application/services.py:272-278 | one worker delivery, acknowledged at its end |
| Engine.BillingEngine.HandleWebhook | payments/application/services.py:295-362 | the webhook step, as PaymentLaws states it; accepted exactly when well formed |
| Engine.BillingEngine.RecoverPending | invoices/tasks.py:73-86 | the first recovery loop |
| Engine.BillingEngine.StuckIds | invoices/tasks.py:89-96 | the query for issued invoices nobody charges |
| Engine.BillingEngine.ReconcileStuck | invoices/tasks.py:72-103 | both recovery loops |
| Engine.BillingEngine.RunBatch | subscriptions/tasks.py:41-52 | the batch loop over the snapshot, equal to the cycle of RenewalCycle and ActivationCycle |
| Engine.BillingEngine.SaveCustomerRow | accounts/models.py:121-131 | a customer changes organization only without subscriptions |
| Engine.BillingEngine.SavePlanRow | plans/models.py:31-41 | a plan changes organization only without subscriptions |
| Engine.EngineFacts | payments/application/services.py:36-362 | after any sequence of the transaction methods the object's rows satisfy the joint invariant and the ledger's |
| Engine.InvCanSave | payments/domain/models.py:50-66 | under the invariant an attempt saved with its stored charge id and its status, a flag or a status other than SUCCESS passes the organization check and the unique constraints; BindCharge states when storing a new charge id is refused |
| Engine.SaveRefuses | payments/domain/models.py:50-106 | a save is refused exactly for another organization, a changed snapshot, a charge id of another attempt or a second SUCCESS of one invoice |

## Left out

- HTTP views, serializers, permissions, throttling, tokens, API keys, memberships and invitations: thin adapters.
- Webhook signatures, HMAC and hashing: the stored request fingerprint is taken as an injective image of the request.
- Broker and database internals: the queue is a multiset of invoice ids with loss and redelivery; a task is acknowledged when it ends.
- `provider_response`, `paid_at`, `canceled_at`, `updated_at`, event types, invoice lines and their descriptions: stored but read by no modelled decision.
- uuid generation and the provider's random draw: parameters of the steps; a theorem that needs new ids says so.
- A clock read twice within one transaction: every transaction happens at one instant.
- Years beyond 9999, where Python raises an error instead of computing a period end.
- Errors of the database and time limits, which end a batch early: an early end is a run that stops there.
- Calendar.AddMonthsMonotone: is about dates; two instants whose dates are clamped to the same day keep the order of their times of day, which can be the reverse of their own order.
- Serializability.InterleavingsAreSerial: existing customers and plans do not change there (`OrgScope` has their moves; new ones may appear); creation and the gateway's insert are single moves; foreign-key share locks and the share locks of a creation are not modelled; the early lookup of a recorded webhook event is merged with the one under its unique index.
- DunningRounds.DunningFinishes: each round's queue is drained in one go, as a sequence of whole deliveries.
- OrgScope.ScopeSurvivesRaces: customers and plans are only their organization, and deletion of rows is not modelled.
- Engine.BillingEngine.ReconcileStuck: takes one provider draw for each listed attempt as a parameter, and the rows do not change between its two loops by other hands.
- Engine.BillingEngine.SaveAttempt: the insert of a new attempt is part of PrepareCharge, with the key constraint that can fail there.
- Whether one row's transition table allows a move, on its own: used inside the joint results.
