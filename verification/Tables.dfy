/** The rows of the billing tables, their foreign keys and their status machines.
    Tables are sequences: a row's primary key is its position, rows are only appended. */
module Tables {
  import opened Calendar

  datatype Option<+T> = None | Some(value: T)

  datatype Error =
    | NotFound | InvalidTransition | WrongOrganization | PlanNotActive | WrongStatus | NotDue
    | NotPayable | KeyConflict | UniqueViolation | FingerprintMismatch | BadRequest
    | SnapshotChanged | ChargeTaken | SecondSuccess

  datatype Reply<+T> = Ok(value: T) | Err(error: Error)

  // SubOverdue and SubCanceled are OVERDUE and CANCELED; Declined is the attempt status FAILED.
  datatype SubscriptionStatus = Trial | Active | SubOverdue | SubCanceled
  datatype InvoiceStatus = Draft | Issued | Paid | Failed | Overdue | Canceled
  datatype PaymentStatus = Pending | Success | Declined
  datatype Reason = Voluntary | NonPayment

  datatype Customer = Customer(org: nat, customerToken: string, methodToken: string)

  datatype Plan = Plan(org: nat, price: int, currency: string, active: bool, interval: Interval, trialDays: int)

  datatype Subscription = Subscription(
    org: nat, customer: nat, plan: nat, status: SubscriptionStatus,
    periodStart: Time, periodEnd: Time, reason: Option<Reason>)

  datatype Invoice = Invoice(
    org: nat, subscription: nat, status: InvoiceStatus, total: int, currency: string,
    periodStart: Time, periodEnd: Time, issuedAt: Option<Time>)

  /** What is sent to the provider; amounts are in cents. */
  datatype ChargeRequest = ChargeRequest(
    amount: int, currency: string, customerToken: string, methodToken: string, key: string)

  datatype Attempt = Attempt(
    org: nat, invoice: nat, request: ChargeRequest, clientKey: Option<string>,
    status: PaymentStatus, chargeId: string, attemptedAt: Time, flagged: bool)

  /** A ledger entry. The stored fingerprint is an injective image of the request, so the
      request itself stands for it. */
  datatype Receipt = Receipt(request: ChargeRequest, success: bool, chargeId: string)

  datatype WebhookEvent = WebhookEvent(provider: string, eventId: string, org: Option<nat>, processed: bool)

  datatype State = State(
    clock: Time,
    customers: seq<Customer>,
    plans: seq<Plan>,
    subs: seq<Subscription>,
    invoices: seq<Invoice>,
    attempts: seq<Attempt>,
    events: seq<WebhookEvent>,
    receipts: seq<Receipt>,
    queue: multiset<nat>)

  predicate ForeignKeys(s: State) {
    && (forall x :: 0 <= x < |s.subs| ==> s.subs[x].customer < |s.customers| && s.subs[x].plan < |s.plans|)
    && (forall i :: 0 <= i < |s.invoices| ==> s.invoices[i].subscription < |s.subs|)
    && (forall a :: 0 <= a < |s.attempts| ==> s.attempts[a].invoice < |s.invoices|)
  }

  type Db = s: State | ForeignKeys(s) witness Empty()

  function Empty(): State {
    State(0, [], [], [], [], [], [], [], multiset{})
  }

  /** The subscription an attempt is charged for. */
  function OwnerOf(s: Db, a: nat): (x: nat)
    requires a < |s.attempts|
    ensures x < |s.subs|
  {
    s.invoices[s.attempts[a].invoice].subscription
  }

  predicate SubscriptionMayMove(from: SubscriptionStatus, to: SubscriptionStatus) {
    match from
    case Trial => to.Active? || to.SubCanceled?
    case Active => to.SubOverdue? || to.SubCanceled?
    case SubOverdue => to.Active? || to.SubCanceled?
    case SubCanceled => false
  }

  predicate InvoiceMayMove(from: InvoiceStatus, to: InvoiceStatus) {
    match from
    case Draft => to.Issued? || to.Canceled?
    case Issued => to.Paid? || to.Failed? || to.Overdue? || to.Canceled?
    case Failed => to.Issued? || to.Paid? || to.Overdue? || to.Canceled?
    case Overdue => to.Paid? || to.Canceled?
    case Paid => false
    case Canceled => false
  }

  predicate Payable(status: InvoiceStatus) {
    status.Issued? || status.Failed? || status.Overdue?
  }

  predicate Open(status: InvoiceStatus) {
    status.Draft? || status.Issued? || status.Failed?
  }

  // ---- Row lookups: the filters the services put on the attempts table ----

  datatype Query =
    | ByClientKey(org: nat, key: string)
    | PendingOf(invoice: nat)
    | OpenOf(invoice: nat)
    | SinceIssue(invoice: nat, issuedAt: Time)
    | SuccessOfOther(invoice: nat, except: nat)
    | BoundToOther(chargeId: string, except: nat)
    | ByProviderKey(key: string)

  predicate Matches(q: Query, a: Attempt, id: nat) {
    match q
    case ByClientKey(org, key) => a.org == org && a.clientKey == Some(key)
    case PendingOf(i) => a.invoice == i && a.status.Pending?
    case OpenOf(i) => a.invoice == i && (a.status.Pending? || a.status.Success?)
    case SinceIssue(i, t) => a.invoice == i && a.attemptedAt >= t
    case SuccessOfOther(i, except) => a.invoice == i && a.status.Success? && id != except
    case BoundToOther(c, except) => a.chargeId == c && id != except
    case ByProviderKey(key) => a.request.key == key
  }

  /** `.first()`: the matching row with the smallest primary key. */
  function First(rows: seq<Attempt>, q: Query): (r: Option<nat>)
    ensures r.Some? ==> r.value < |rows| && Matches(q, rows[r.value], r.value)
    ensures r.Some? ==> forall k :: 0 <= k < r.value ==> !Matches(q, rows[k], k)
    ensures r.None? ==> forall k :: 0 <= k < |rows| ==> !Matches(q, rows[k], k)
  {
    if rows == [] then None
    else
      var before := First(rows[..|rows| - 1], q);
      if before.Some? then before
      else if Matches(q, rows[|rows| - 1], |rows| - 1) then Some(|rows| - 1)
      else None
  }

  predicate Exists(rows: seq<Attempt>, q: Query)
    ensures Exists(rows, q) <==> exists k :: 0 <= k < |rows| && Matches(q, rows[k], k)
  {
    First(rows, q).Some?
  }

  /** `.filter(status=...).count()` over one invoice's attempts. */
  function Count(rows: seq<Attempt>, invoice: nat, status: PaymentStatus): nat {
    if rows == [] then 0
    else
      Count(rows[..|rows| - 1], invoice, status) + One(rows[|rows| - 1], invoice, status)
  }

  function One(a: Attempt, invoice: nat, status: PaymentStatus): nat {
    if a.invoice == invoice && a.status == status then 1 else 0
  }

  predicate InArrears(i: Invoice, x: nat) {
    i.subscription == x && (i.status.Failed? || i.status.Overdue?)
  }

  /** Another invoice of the subscription is FAILED or OVERDUE. */
  predicate OtherArrears(invoices: seq<Invoice>, x: nat, except: nat) {
    exists k :: 0 <= k < |invoices| && k != except && InArrears(invoices[k], x)
  }

  predicate HasPeriodInvoice(invoices: seq<Invoice>, x: nat, start: Time, end: Time) {
    exists k :: 0 <= k < |invoices| && invoices[k].subscription == x
             && invoices[k].periodStart == start && invoices[k].periodEnd == end
  }
}
