/** The service transactions as functions on the database. Each `...Rows` or `...Choice`
    function is the decision a service takes from the rows it has read; the transaction
    reads those rows, decides, and writes. */
module Services {
  import opened Calendar
  import opened Tables

  const MAX_DUNNING_ATTEMPTS: nat := 3

  function Committed(s: Db, r: Reply<Db>): Db {
    if r.Ok? then r.value else s
  }

  // ---- Invoices ----

  function NewInvoice(x: nat, sub: Subscription, plan: Plan, now: Time): Invoice {
    Invoice(sub.org, x, Issued, plan.price, plan.currency, sub.periodStart, sub.periodEnd, Some(now))
  }

  /** generate_for_subscription */
  function Generate(s: Db, x: nat): Db
    requires x < |s.subs|
  {
    var sub := s.subs[x];
    if !sub.status.Active? || HasPeriodInvoice(s.invoices, x, sub.periodStart, sub.periodEnd) then s
    else s.(invoices := s.invoices + [NewInvoice(x, sub, s.plans[sub.plan], s.clock)],
            queue := s.queue + multiset{|s.invoices|})
  }

  predicate OpenOn(inv: Invoice, x: nat) {
    inv.subscription == x && Open(inv.status)
  }

  function Closing(inv: Invoice, x: nat): Invoice {
    if OpenOn(inv, x) then inv.(status := Canceled) else inv
  }

  /** cancel_open_for_subscription */
  function CloseOpen(invoices: seq<Invoice>, x: nat): (r: seq<Invoice>)
    ensures |r| == |invoices|
    ensures forall k :: 0 <= k < |r| ==> r[k] == Closing(invoices[k], x)
  {
    seq(|invoices|, k requires 0 <= k < |invoices| => Closing(invoices[k], x))
  }

  /** Afterwards nothing is open on the subscription; a row has changed exactly when it was open
      on it, by a move the status table allows; closing again, or in another order with another
      subscription, makes no difference. */
  lemma CloseOpenCloses(invoices: seq<Invoice>, x: nat, y: nat)
    ensures
      var r := CloseOpen(invoices, x);
      && (forall k :: 0 <= k < |r| ==> !OpenOn(r[k], x))
      && (forall k :: 0 <= k < |r| ==> (r[k] != invoices[k] <==> OpenOn(invoices[k], x)))
      && (forall k :: 0 <= k < |r| && OpenOn(invoices[k], x) ==>
            InvoiceMayMove(invoices[k].status, Canceled) && r[k] == invoices[k].(status := Canceled))
      && CloseOpen(r, x) == r
      && CloseOpen(r, y) == CloseOpen(CloseOpen(invoices, y), x)
  {
    assert forall k :: 0 <= k < |invoices| && OpenOn(invoices[k], x) ==> invoices[k].status != Canceled;
  }

  /** The open invoices of a subscription with a primary key below `n`, in order. */
  function OpenOnes(invoices: seq<Invoice>, x: nat, n: nat): (ids: seq<nat>)
    requires n <= |invoices|
    ensures forall k: nat :: k in ids <==> k < n && OpenOn(invoices[k], x)
  {
    if n == 0 then []
    else if OpenOn(invoices[n - 1], x) then OpenOnes(invoices, x, n - 1) + [n - 1]
    else OpenOnes(invoices, x, n - 1)
  }

  function Closed(inv: Invoice, listed: bool): Invoice {
    if listed then inv.(status := Canceled) else inv
  }

  function CloseListed(invoices: seq<Invoice>, ids: seq<nat>): (r: seq<Invoice>)
    ensures |r| == |invoices|
    ensures forall k :: 0 <= k < |r| ==> r[k] == Closed(invoices[k], k in ids)
  {
    seq(|invoices|, k requires 0 <= k < |invoices| => Closed(invoices[k], k in ids))
  }

  lemma CloseListedOpen(invoices: seq<Invoice>, x: nat, ids: seq<nat>)
    requires forall k: nat :: k < |invoices| ==> (k in ids <==> OpenOn(invoices[k], x))
    ensures CloseListed(invoices, ids) == CloseOpen(invoices, x)
  {
  }

  /** Closing one more listed invoice. */
  lemma CloseNext(invoices: seq<Invoice>, ids: seq<nat>, k: nat)
    requires k < |ids| && ids[k] < |invoices|
    ensures CloseListed(invoices, ids[..k + 1])
         == CloseListed(invoices, ids[..k])[ids[k] := invoices[ids[k]].(status := Canceled)]
  {
    assert ids[..k + 1] == ids[..k] + [ids[k]];
  }

  // ---- Subscriptions ----

  function NewSubscription(c: nat, p: nat, customer: Customer, plan: Plan, now: Time): Subscription {
    if plan.trialDays > 0
    then Subscription(customer.org, c, p, Trial, now, now + plan.trialDays * DAY, None)
    else Subscription(customer.org, c, p, Active, now, PeriodEnd(now, plan.interval), None)
  }

  /** SubscriptionService.create */
  function Create(s: Db, c: nat, p: nat): Reply<Db> {
    if c >= |s.customers| || p >= |s.plans| then Err(NotFound)
    else if s.customers[c].org != s.plans[p].org then Err(WrongOrganization)
    else if !s.plans[p].active then Err(PlanNotActive)
    else Ok(Generate(s.(subs := s.subs + [NewSubscription(c, p, s.customers[c], s.plans[p], s.clock)]), |s.subs|))
  }

  function InNewPeriod(sub: Subscription, plan: Plan, now: Time): Subscription {
    sub.(status := Active, periodStart := now, periodEnd := PeriodEnd(now, plan.interval))
  }

  function StartPeriod(s: Db, x: nat): Db
    requires x < |s.subs|
  {
    Generate(s.(subs := s.subs[x := InNewPeriod(s.subs[x], s.plans[s.subs[x].plan], s.clock)]), x)
  }

  /** SubscriptionService.activate */
  function Activate(s: Db, x: nat): Reply<Db> {
    if x >= |s.subs| then Err(NotFound)
    else if !s.subs[x].status.Trial? then Err(WrongStatus)
    else Ok(StartPeriod(s, x))
  }

  predicate IsDue(sub: Subscription, now: Time) {
    sub.status.Active? && sub.periodEnd <= now
  }

  /** SubscriptionService.renew */
  function Renew(s: Db, x: nat): Reply<Db> {
    if x >= |s.subs| then Err(NotFound)
    else if !s.subs[x].status.Active? then Err(WrongStatus)
    else if !IsDue(s.subs[x], s.clock) then Err(NotDue)
    else Ok(StartPeriod(s, x))
  }

  /** SubscriptionService.cancel */
  function Cancel(s: Db, x: nat, reason: Reason): Reply<Db> {
    if x >= |s.subs| then Err(NotFound)
    else if s.subs[x].status.SubCanceled? then Err(InvalidTransition)
    else Ok(s.(subs := s.subs[x := s.subs[x].(status := SubCanceled, reason := Some(reason))],
               invoices := CloseOpen(s.invoices, x)))
  }

  // ---- Dunning ----

  /** _dun_invoice */
  function Dun(s: Db, i: nat): Reply<Db> {
    if i >= |s.invoices| then Err(NotFound)
    else if !s.invoices[i].status.Failed? then Ok(s)
    else if Count(s.attempts, i, Declined) >= MAX_DUNNING_ATTEMPTS then
      var x := s.invoices[i].subscription;
      var given := s.(invoices := s.invoices[i := s.invoices[i].(status := Overdue)]);
      Ok(if s.subs[x].status.SubCanceled? then given else Cancel(given, x, NonPayment).value)
    else Ok(s.(invoices := s.invoices[i := s.invoices[i].(status := Issued, issuedAt := Some(s.clock))],
               queue := s.queue + multiset{i}))
  }

  // ---- Payments: prepare ----

  datatype Prepared = Prepared(attempt: Option<nat>, charge: bool)

  datatype Found = Found(id: nat, row: Attempt)

  /** What the client key is bound to. */
  datatype Replay = NoReplay | SameInvoice(found: Found) | OtherInvoice

  datatype Choice = Nothing | Reuse(found: Found) | Insert | Refuse(error: Error)

  /** What _prepare has read: the locked rows and the first match of each lookup. */
  datatype PrepareFacts = PrepareFacts(
    sub: SubscriptionStatus, invoice: Invoice,
    replay: Replay, pending: Option<Found>, sinceIssue: Option<Found>, live: Option<Found>)

  function PrepareChoice(key: string, issuedOnly: bool, f: PrepareFacts): Choice {
    var inv := f.invoice;
    if issuedOnly && !inv.status.Issued? then Nothing
    else if key != "" && f.replay.OtherInvoice? then Refuse(KeyConflict)
    else if key != "" && f.replay.SameInvoice? then Reuse(f.replay.found)
    else if !Payable(inv.status) then
      if f.pending.Some? then Reuse(f.pending.value) else Refuse(NotPayable)
    else if inv.status.Issued? && inv.issuedAt.Some? && f.sinceIssue.Some? then
      if key != "" && f.sinceIssue.value.row.clientKey != Some(key) then Refuse(KeyConflict)
      else Reuse(f.sinceIssue.value)
    else if f.live.Some? then Reuse(f.live.value)
    else if f.sub.SubCanceled? then Refuse(NotPayable)
    else Insert
  }

  function Lookup(rows: seq<Attempt>, q: Query): Option<Found> {
    var k := First(rows, q);
    if k.Some? then Some(Found(k.value, rows[k.value])) else None
  }

  function LookupReplay(rows: seq<Attempt>, org: nat, key: string, i: nat): Replay {
    var k := First(rows, ByClientKey(org, key));
    if k.None? then NoReplay
    else if rows[k.value].invoice == i then SameInvoice(Found(k.value, rows[k.value]))
    else OtherInvoice
  }

  function IssueTime(inv: Invoice): Time {
    if inv.issuedAt.Some? then inv.issuedAt.value else 0
  }

  function PrepareRead(s: Db, i: nat, key: string): PrepareFacts
    requires i < |s.invoices|
  {
    var inv := s.invoices[i];
    PrepareFacts(
      s.subs[inv.subscription].status, inv,
      LookupReplay(s.attempts, inv.org, key, i),
      Lookup(s.attempts, PendingOf(i)),
      Lookup(s.attempts, SinceIssue(i, IssueTime(inv))),
      Lookup(s.attempts, OpenOf(i)))
  }

  function NewAttempt(i: nat, inv: Invoice, customer: Customer, key: string, providerKey: string, now: Time): Attempt {
    Attempt(inv.org, i,
            ChargeRequest(inv.total, inv.currency, customer.customerToken, customer.methodToken, providerKey),
            if key == "" then None else Some(key), Pending, "", now, false)
  }

  predicate MayCharge(a: Attempt) {
    a.status.Pending? && !a.flagged
  }

  function CustomerOf(s: Db, i: nat): Customer
    requires i < |s.invoices|
  {
    s.customers[s.subs[s.invoices[i].subscription].customer]
  }

  /** Carries out the choice; `taken` says that the generated provider key is in use. */
  function Carry(s: Db, choice: Choice, taken: bool, row: Attempt): (Db, Reply<Prepared>)
    requires row.invoice < |s.invoices|
  {
    match choice
    case Nothing => (s, Ok(Prepared(None, false)))
    case Refuse(e) => (s, Err(e))
    case Reuse(found) => (s, Ok(Prepared(Some(found.id), MayCharge(found.row))))
    case Insert =>
      if taken then (s, Err(UniqueViolation))
      else (s.(attempts := s.attempts + [row]), Ok(Prepared(Some(|s.attempts|), true)))
  }

  /** PaymentService._prepare; `providerKey` is the generated provider idempotency key. */
  function Prepare(s: Db, i: nat, key: string, issuedOnly: bool, providerKey: string): (Db, Reply<Prepared>) {
    if i >= |s.invoices| then (s, Err(NotFound))
    else Carry(s, PrepareChoice(key, issuedOnly, PrepareRead(s, i, key)),
               Exists(s.attempts, ByProviderKey(providerKey)),
               NewAttempt(i, s.invoices[i], CustomerOf(s, i), key, providerKey, s.clock))
  }

  // ---- Payments: the provider ----

  function FindReceipt(ledger: seq<Receipt>, key: string): (r: Option<nat>)
    ensures r.Some? ==> r.value < |ledger| && ledger[r.value].request.key == key
    ensures r.None? ==> forall k :: 0 <= k < |ledger| ==> ledger[k].request.key != key
  {
    if ledger == [] then None
    else
      var before := FindReceipt(ledger[..|ledger| - 1], key);
      if before.Some? then before
      else if ledger[|ledger| - 1].request.key == key then Some(|ledger| - 1)
      else None
  }

  predicate ChargeIdUsed(ledger: seq<Receipt>, chargeId: string) {
    exists k :: 0 <= k < |ledger| && ledger[k].chargeId == chargeId
  }

  /** MockPaymentGateway.charge; `success` is the provider's draw, `chargeId` its generated id. */
  function GatewayCharge(ledger: seq<Receipt>, request: ChargeRequest, success: bool, chargeId: string)
    : (seq<Receipt>, Reply<Receipt>)
  {
    var found := FindReceipt(ledger, request.key);
    if found.None? then
      if ChargeIdUsed(ledger, chargeId) then (ledger, Err(NotFound))
      else (ledger + [Receipt(request, success, chargeId)], Ok(Receipt(request, success, chargeId)))
    else if ledger[found.value].request != request then (ledger, Err(FingerprintMismatch))
    else (ledger, Ok(ledger[found.value]))
  }

  /** The gateway call of one attempt, between prepare and settle. */
  function Call(s: Db, a: nat, success: bool, chargeId: string): (Db, Reply<Receipt>) {
    if a >= |s.attempts| then (s, Err(NotFound))
    else
      var (ledger, reply) := GatewayCharge(s.receipts, s.attempts[a].request, success, chargeId);
      (s.(receipts := ledger), reply)
  }

  // ---- Payments: settle ----

  datatype SettleFacts = SettleFacts(
    sub: Subscription, invoice: Invoice, payment: Attempt,
    taken: bool, otherSuccess: bool, otherArrears: bool)

  datatype SettleRows = SettleRows(sub: Subscription, invoice: Invoice, payment: Attempt)

  /** The settlement stores the charge id, and may hit the unique index on it. */
  predicate Binds(p: Attempt, charge: string) {
    !p.status.Success? && !p.flagged && charge != "" && p.chargeId == ""
  }

  function Settled(f: SettleFacts, success: bool, charge: string): (r: SettleRows)
    ensures r.sub == f.sub.(status := r.sub.status)
    ensures r.invoice == f.invoice.(status := r.invoice.status)
    ensures r.payment == f.payment.(status := r.payment.status, chargeId := r.payment.chargeId,
        flagged := r.payment.flagged)
  {
    var p := f.payment;
    var same := SettleRows(f.sub, f.invoice, p);
    if !success && (p.status.Success? || p.flagged) then same
    else if p.chargeId != "" && charge != "" && p.chargeId != charge then same.(payment := p.(flagged := true))
    else if p.status.Success? || p.flagged then same
    else if Binds(p, charge) && f.taken then same.(payment := p.(flagged := true))
    else
      var bound := if Binds(p, charge) then p.(chargeId := charge) else p;
      if success then
        if f.sub.status.SubCanceled? || !Payable(f.invoice.status) || f.otherSuccess
        then same.(payment := bound.(flagged := true))
        else SettleRows(
          if f.sub.status.SubOverdue? && !f.otherArrears then f.sub.(status := Active) else f.sub,
          f.invoice.(status := Paid),
          bound.(status := Success))
      else if p.status.Declined? then same.(payment := bound)
      else if f.sub.status.SubCanceled? || !Payable(f.invoice.status) || f.otherSuccess
      then same.(payment := bound.(status := Declined))
      else SettleRows(
        if f.sub.status.Active? then f.sub.(status := SubOverdue) else f.sub,
        if f.invoice.status.Issued? then f.invoice.(status := Failed) else f.invoice,
        bound.(status := Declined))
  }

  function SettleRead(s: Db, a: nat, charge: string): SettleFacts
    requires a < |s.attempts|
  {
    var i := s.attempts[a].invoice;
    var x := OwnerOf(s, a);
    SettleFacts(s.subs[x], s.invoices[i], s.attempts[a],
                Exists(s.attempts, BoundToOther(charge, a)),
                Exists(s.attempts, SuccessOfOther(i, a)),
                OtherArrears(s.invoices, x, i))
  }

  /** Writes back the three locked rows. */
  function Write(s: Db, a: nat, r: SettleRows): Db
    requires a < |s.attempts|
    requires r.payment.invoice == s.attempts[a].invoice
    requires r.invoice.subscription == OwnerOf(s, a)
    requires r.sub.customer < |s.customers| && r.sub.plan < |s.plans|
  {
    s.(subs := s.subs[OwnerOf(s, a) := r.sub],
       invoices := s.invoices[s.attempts[a].invoice := r.invoice],
       attempts := s.attempts[a := r.payment])
  }

  /** PaymentService.settle */
  function Settle(s: Db, a: nat, success: bool, charge: string): Db
    requires a < |s.attempts|
  {
    Write(s, a, Settled(SettleRead(s, a, charge), success, charge))
  }

  /** PaymentService._charge: the gateway call and its settlement, with nothing in between. */
  function Charge(s: Db, a: nat, success: bool, chargeId: string): Db {
    if a >= |s.attempts| || !MayCharge(s.attempts[a]) then s
    else
      var (called, reply) := Call(s, a, success, chargeId);
      if reply.Err? then called else Settle(called, a, reply.value.success, reply.value.chargeId)
  }

  /** What the provider draws when it is asked, and the generated ids of one worker run. */
  datatype Draw = Draw(providerKey: string, success: bool, chargeId: string)

  /** PaymentService.charge_issued and .attempt */
  function AttemptCharge(s: Db, i: nat, key: string, issuedOnly: bool, d: Draw): Db {
    var (prepared, reply) := Prepare(s, i, key, issuedOnly, d.providerKey);
    if reply.Ok? && reply.value.charge && reply.value.attempt.Some?
    then Charge(prepared, reply.value.attempt.value, d.success, d.chargeId)
    else prepared
  }

  // ---- Payments: webhooks ----

  datatype Json = Null | Bool(b: bool) | Number(n: int) | Text(t: string) | OtherJson

  datatype Payload = NotObject | Payload(paymentId: Json, status: Json, chargeId: Json)

  datatype Delivery = Delivery(provider: string, eventId: Json, eventType: Json, payload: Payload)

  predicate Name(j: Json) {
    j.Text? && j.t != "" && |j.t| <= 255
  }

  predicate WellFormed(d: Delivery) {
    && d.provider == "mock"
    && Name(d.eventId) && Name(d.eventType)
    && d.payload.Payload?
    && (!d.payload.paymentId.Null? ==>
        && d.payload.paymentId.Number? && d.payload.paymentId.n > 0
        && (d.payload.status == Text("success") || d.payload.status == Text("failed"))
        && Name(d.payload.chargeId))
  }

  predicate EventSeen(events: seq<WebhookEvent>, provider: string, eventId: string) {
    exists k :: 0 <= k < |events| && events[k].provider == provider && events[k].eventId == eventId
  }

  /** Primary keys in a payload count from 1. */
  function PaymentOf(s: Db, d: Delivery): (r: Option<nat>)
    requires WellFormed(d)
    ensures r.Some? ==> r.value < |s.attempts|
  {
    if d.payload.paymentId.Number? && d.payload.paymentId.n <= |s.attempts|
    then Some(d.payload.paymentId.n - 1) else None
  }

  function Recorded(s: Db, d: Delivery): Db
    requires WellFormed(d)
  {
    var p := PaymentOf(s, d);
    s.(events := s.events + [WebhookEvent(
      d.provider, d.eventId.t, if p.Some? then Some(s.attempts[p.value].org) else None, true)])
  }

  /** PaymentService.handle_webhook */
  function Webhook(s: Db, d: Delivery): Reply<Db> {
    if !WellFormed(d) then Err(BadRequest)
    else if EventSeen(s.events, d.provider, d.eventId.t) then Ok(s)
    else
      var p := PaymentOf(s, d);
      if p.None? then Ok(Recorded(s, d))
      else Ok(Settle(Recorded(s, d), p.value, d.payload.status == Text("success"), d.payload.chargeId.t))
  }

  // ---- Parents ----

  /** Customer.save; saving at the end of the table inserts. */
  function SaveCustomer(s: Db, c: nat, row: Customer): Reply<Db> {
    if c > |s.customers| then Err(NotFound)
    else if c == |s.customers| then Ok(s.(customers := s.customers + [row]))
    else if row.org != s.customers[c].org && (exists x :: 0 <= x < |s.subs| && s.subs[x].customer == c)
    then Err(WrongOrganization)
    else Ok(s.(customers := s.customers[c := row]))
  }

  /** Plan.save */
  function SavePlan(s: Db, p: nat, row: Plan): Reply<Db> {
    if p > |s.plans| then Err(NotFound)
    else if p == |s.plans| then Ok(s.(plans := s.plans + [row]))
    else if row.org != s.plans[p].org && (exists x :: 0 <= x < |s.subs| && s.subs[x].plan == p)
    then Err(WrongOrganization)
    else Ok(s.(plans := s.plans[p := row]))
  }

  // ---- Steps and runs ----

  datatype Step =
    | Tick(now: Time)
    | SaveCustomerStep(customer: nat, customerRow: Customer)
    | SavePlanStep(plan: nat, planRow: Plan)
    | CreateStep(customer: nat, plan: nat)
    | ActivateStep(sub: nat)
    | RenewStep(sub: nat)
    | CancelStep(sub: nat)
    | DunStep(invoice: nat)
    | PrepareStep(invoice: nat, key: string, issuedOnly: bool, providerKey: string)
    | CallStep(attempt: nat, success: bool, chargeId: string)
    | SettleStep(attempt: nat, success: bool, chargeId: string)
    | WebhookStep(delivery: Delivery)
    | LoseTask(invoice: nat)
    | RedeliverTask(invoice: nat)

  /** One transaction, or one move of the environment. A refused transaction rolls back. */
  function Exec(s: Db, step: Step): Db {
    match step
    case Tick(now) => if s.clock <= now then s.(clock := now) else s
    case SaveCustomerStep(c, row) => Committed(s, SaveCustomer(s, c, row))
    case SavePlanStep(p, row) => Committed(s, SavePlan(s, p, row))
    case CreateStep(c, p) => Committed(s, Create(s, c, p))
    case ActivateStep(x) => Committed(s, Activate(s, x))
    case RenewStep(x) => Committed(s, Renew(s, x))
    case CancelStep(x) => Committed(s, Cancel(s, x, Voluntary))
    case DunStep(i) => Committed(s, Dun(s, i))
    case PrepareStep(i, key, issuedOnly, providerKey) => Prepare(s, i, key, issuedOnly, providerKey).0
    case CallStep(a, success, chargeId) => Call(s, a, success, chargeId).0
    case SettleStep(a, success, chargeId) => if a < |s.attempts| then Settle(s, a, success, chargeId) else s
    case WebhookStep(d) => Committed(s, Webhook(s, d))
    case LoseTask(i) => s.(queue := s.queue - multiset{i})
    case RedeliverTask(i) => s.(queue := s.queue + multiset{i})
  }

  lemma ExecCall(s: Db, a: nat, success: bool, chargeId: string)
    ensures Exec(s, CallStep(a, success, chargeId)) == Call(s, a, success, chargeId).0
  {
  }

  lemma ExecSettle(s: Db, a: nat, success: bool, charge: string)
    requires a < |s.attempts|
    ensures Exec(s, SettleStep(a, success, charge)) == Settle(s, a, success, charge)
  {
  }

  lemma ExecRedeliver(s: Db, i: nat)
    ensures Exec(s, RedeliverTask(i)) == s.(queue := s.queue + multiset{i})
  {
  }

  lemma ExecLose(s: Db, i: nat)
    ensures Exec(s, LoseTask(i)) == s.(queue := s.queue - multiset{i})
  {
  }

  lemma ExecWebhook(s: Db, d: Delivery)
    ensures Exec(s, WebhookStep(d)) == Committed(s, Webhook(s, d))
  {
  }

  lemma ExecPrepare(s: Db, i: nat, key: string, issuedOnly: bool, providerKey: string)
    ensures Exec(s, PrepareStep(i, key, issuedOnly, providerKey)) == Prepare(s, i, key, issuedOnly, providerKey).0
  {
  }

  lemma ExecNoAttempt(s: Db, a: nat, success: bool, charge: string)
    requires a >= |s.attempts|
    ensures Exec(s, SettleStep(a, success, charge)) == s
  {
  }

  lemma ExecDun(s: Db, i: nat)
    ensures Exec(s, DunStep(i)) == Committed(s, Dun(s, i))
  {
  }

  function Run(s: Db, steps: seq<Step>): Db {
    if steps == [] then s else Exec(Run(s, steps[..|steps| - 1]), steps[|steps| - 1])
  }

  lemma RunAppend(start: Db, log: seq<Step>, step: Step)
    ensures Run(start, log + [step]) == Exec(Run(start, log), step)
  {
    assert (log + [step])[..|log|] == log;
  }
}
