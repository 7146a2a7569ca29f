/** The service transactions one lock and one query at a time. Reads see committed rows,
    a transaction's writes appear together when it commits, and locks are held until then.
    Unique indexes act as locks on the key being inserted. */
module LockSteps {
  import opened Calendar
  import opened Tables
  import opened Services

  datatype Lock =
    | EventLock(provider: string, eventId: string)   // unique_provider_event
    | SubLock(sub: nat)
    | PlanLock(plan: nat)
    | InvoiceLock(invoice: nat)
    | OrgLock(org: nat)
    | AttemptLock(attempt: nat)
    | ChargeLock(charge: string)                     // unique_provider_charge
    | KeyLock(key: string)                           // unique_provider_payment_key

  /** Invoice and attempt rows are locked only below the lock on their subscription. */
  predicate Child(l: Lock) {
    l.InvoiceLock? || l.AttemptLock?
  }

  function Rank(l: Lock): nat {
    match l
    case EventLock(_, _) => 0
    case SubLock(_) => 1
    case PlanLock(_) => 2
    case OrgLock(_) => 3
    case ChargeLock(_) => 4
    case KeyLock(_) => 5
    case _ => 6
  }

  datatype Question =
    | Seen | SubRow | InvoiceRow | AttemptRow | Replayed | PendingRow | SinceRow | LiveRow | KeyUsed
    | Taken | OtherSuccess | Arrears | DeclinedCount | OpenIds | Spans

  datatype Op = Resolve | Take(lock: Lock) | TakeOpen | Ask(question: Question) | Finish

  /** Foreign keys, which no service changes: the subscription, invoice and attempt a
      transaction works on, their organization and the plan. */
  datatype Ids = Ids(x: nat, i: nat, a: nat, org: nat, plan: nat)

  /** What a transaction has read so far; the fields not yet read hold a default. */
  datatype Notes = Notes(
    seen: bool, sub: Subscription, plan: Plan, invoice: Invoice, customer: Customer, payment: Attempt,
    replay: Replay, pending: Option<Found>, since: Option<Found>, live: Option<Found>, keyUsed: bool,
    taken: bool, otherSuccess: bool, arrears: bool, declined: nat, openIds: seq<nat>, spans: set<(Time, Time)>)

  /** `position` is the place in the serial order. A transaction about a row that does not exist
      takes its place where it looks for the row, and leaves later: until then it keeps its
      locks, so nobody can see what it has written. */
  datatype Ending =
    | Running
    | Leaving(position: nat, reply: Reply<Prepared>)
    | Ended(position: nat, reply: Reply<Prepared>)
    | Aborted

  datatype Thread = Thread(
    job: Step, pc: nat, held: set<Lock>, ids: Option<Ids>, asked: set<Question>, notes: Notes, ending: Ending)

  /** `log` is the serial order: the commits, and the lookups that found no row. */
  datatype World = World(db: Db, threads: seq<Thread>, log: seq<Step>)

  // ---- Programs ----

  function ChargeOf(job: Step): string {
    match job
    case SettleStep(_, _, charge) => charge
    case WebhookStep(d) => if d.payload.Payload? && d.payload.chargeId.Text? then d.payload.chargeId.t else ""
    case _ => ""
  }

  predicate SuccessOf(job: Step) {
    match job
    case SettleStep(_, success, _) => success
    case WebhookStep(d) => d.payload.Payload? && d.payload.status == Text("success")
    case _ => false
  }

  function SettleOp(ids: Ids, charge: string, n: int): Op {
    match n
    case 0 => Resolve
    case 1 => Take(SubLock(ids.x))
    case 2 => Ask(SubRow)
    case 3 => Take(InvoiceLock(ids.i))
    case 4 => Ask(InvoiceRow)
    case 5 => Take(AttemptLock(ids.a))
    case 6 => Ask(AttemptRow)
    case 7 => Take(ChargeLock(charge))
    case 8 => Ask(Taken)
    case 9 => Ask(OtherSuccess)
    case 10 => Ask(Arrears)
    case _ => Finish
  }

  function PrepareOp(ids: Ids, providerKey: string, n: nat): Op {
    match n
    case 0 => Resolve
    case 1 => Take(SubLock(ids.x))
    case 2 => Ask(SubRow)
    case 3 => Take(InvoiceLock(ids.i))
    case 4 => Ask(InvoiceRow)
    case 5 => Take(OrgLock(ids.org))
    case 6 => Ask(Replayed)
    case 7 => Ask(PendingRow)
    case 8 => Ask(SinceRow)
    case 9 => Ask(LiveRow)
    case 10 => Take(KeyLock(providerKey))
    case 11 => Ask(KeyUsed)
    case _ => Finish
  }

  function DunOp(ids: Ids, n: nat): Op {
    match n
    case 0 => Resolve
    case 1 => Take(SubLock(ids.x))
    case 2 => Ask(SubRow)
    case 3 => Take(InvoiceLock(ids.i))
    case 4 => Ask(InvoiceRow)
    case 5 => Ask(DeclinedCount)
    case 6 => Ask(OpenIds)
    case 7 => TakeOpen
    case _ => Finish
  }

  function CancelOp(ids: Ids, n: nat): Op {
    match n
    case 0 => Resolve
    case 1 => Take(SubLock(ids.x))
    case 2 => Ask(SubRow)
    case 3 => Ask(OpenIds)
    case 4 => TakeOpen
    case _ => Finish
  }

  function PeriodOp(ids: Ids, n: nat): Op {
    match n
    case 0 => Resolve
    case 1 => Take(SubLock(ids.x))
    case 2 => Take(PlanLock(ids.plan))
    case 3 => Ask(SubRow)
    case 4 => Ask(Spans)
    case _ => Finish
  }

  /** The n-th operation of a transaction. */
  function OpAt(job: Step, ids: Ids, n: nat): Op {
    match job
    case CancelStep(_) => CancelOp(ids, n)
    case ActivateStep(_) => PeriodOp(ids, n)
    case RenewStep(_) => PeriodOp(ids, n)
    case DunStep(_) => DunOp(ids, n)
    case PrepareStep(_, _, _, providerKey) => PrepareOp(ids, providerKey, n)
    case SettleStep(_, _, charge) => SettleOp(ids, charge, n)
    case WebhookStep(d) =>
      if !WellFormed(d) then Finish
      else if n == 0 then Take(EventLock(d.provider, d.eventId.t))
      else if n == 1 then Ask(Seen)
      else SettleOp(ids, ChargeOf(job), n - 2)
    case _ => Finish
  }

  function FactsOf(f: Notes): PrepareFacts {
    PrepareFacts(f.sub.status, f.invoice, f.replay, f.pending, f.since, f.live)
  }

  function ChoiceOf(job: Step, f: Notes): Choice {
    if job.PrepareStep? then PrepareChoice(job.key, job.issuedOnly, FactsOf(f)) else Nothing
  }

  /** Dunning gives up on the invoice, or a cancellation goes through. */
  predicate Closes(job: Step, f: Notes) {
    match job
    case CancelStep(_) => !f.sub.status.SubCanceled?
    case DunStep(_) => f.invoice.status.Failed? && f.declined >= MAX_DUNNING_ATTEMPTS && !f.sub.status.SubCanceled?
    case _ => false
  }

  /** The branch taken so far makes the operation unnecessary. */
  predicate Skips(job: Step, f: Notes, op: Op) {
    match op
    case Take(EventLock(_, _)) => false
    case Ask(Seen) => false
    case Take(OrgLock(_)) => NoReplayLookup(job, f)
    case Ask(Replayed) => NoReplayLookup(job, f)
    case Take(KeyLock(_)) => !ChoiceOf(job, f).Insert?
    case Ask(KeyUsed) => !ChoiceOf(job, f).Insert?
    case Take(ChargeLock(_)) => f.seen || !Binds(f.payment, ChargeOf(job))
    case Ask(Taken) => f.seen || !Binds(f.payment, ChargeOf(job))
    case TakeOpen => !Closes(job, f)
    case _ => f.seen
  }

  predicate NoReplayLookup(job: Step, f: Notes) {
    job.PrepareStep? && (job.key == "" || (job.issuedOnly && !f.invoice.status.Issued?))
  }

  // ---- Queries ----

  function FindIds(s: Db, job: Step): Option<Ids> {
    match job
    case CancelStep(x) => SubIds(s, x)
    case ActivateStep(x) => SubIds(s, x)
    case RenewStep(x) => SubIds(s, x)
    case DunStep(i) => InvoiceIds(s, i)
    case PrepareStep(i, _, _, _) => InvoiceIds(s, i)
    case SettleStep(a, _, _) => AttemptIds(s, a)
    case WebhookStep(d) =>
      if WellFormed(d) && PaymentOf(s, d).Some? then AttemptIds(s, PaymentOf(s, d).value) else None
    case _ => None
  }

  function SubIds(s: Db, x: nat): Option<Ids> {
    if x < |s.subs| then Some(Ids(x, 0, 0, 0, s.subs[x].plan)) else None
  }

  function InvoiceIds(s: Db, i: nat): Option<Ids> {
    if i < |s.invoices| then Some(Ids(s.invoices[i].subscription, i, 0, s.invoices[i].org, 0)) else None
  }

  function AttemptIds(s: Db, a: nat): Option<Ids> {
    if a < |s.attempts|
    then Some(Ids(OwnerOf(s, a), s.attempts[a].invoice, a, s.invoices[s.attempts[a].invoice].org, 0)) else None
  }

  function SpansOf(invoices: seq<Invoice>, x: nat): set<(Time, Time)> {
    set k: nat | k < |invoices| && invoices[k].subscription == x :: (invoices[k].periodStart, invoices[k].periodEnd)
  }

  /** The rows that the ids point to are there. */
  predicate Sited(s: Db, job: Step, ids: Ids) {
    && ids.x < |s.subs|
    && (job.DunStep? || job.PrepareStep? || job.SettleStep? || job.WebhookStep? ==>
          ids.i < |s.invoices| && s.invoices[ids.i].subscription == ids.x && s.invoices[ids.i].org == ids.org)
    && (job.SettleStep? || job.WebhookStep? ==> ids.a < |s.attempts| && s.attempts[ids.a].invoice == ids.i)
  }

  /** One query, against the committed rows. */
  function Read(s: Db, job: Step, ids: Ids, q: Question, f: Notes): Notes {
    match q
    case Seen => if job.WebhookStep? && WellFormed(job.delivery)
      then f.(seen := EventSeen(s.events, job.delivery.provider, job.delivery.eventId.t)) else f
    case SubRow => if ids.x < |s.subs| then f.(sub := s.subs[ids.x], plan := s.plans[s.subs[ids.x].plan]) else f
    case InvoiceRow => if ids.i < |s.invoices|
      then f.(invoice := s.invoices[ids.i], customer := CustomerOf(s, ids.i)) else f
    case AttemptRow => if ids.a < |s.attempts| then f.(payment := s.attempts[ids.a]) else f
    case Replayed => if job.PrepareStep? then f.(replay := LookupReplay(s.attempts, ids.org, job.key, ids.i)) else f
    case PendingRow => f.(pending := Lookup(s.attempts, PendingOf(ids.i)))
    case SinceRow => f.(since := Lookup(s.attempts, SinceIssue(ids.i, IssueTime(f.invoice))))
    case LiveRow => f.(live := Lookup(s.attempts, OpenOf(ids.i)))
    case KeyUsed => if job.PrepareStep? then f.(keyUsed := Exists(s.attempts, ByProviderKey(job.providerKey))) else f
    case Taken => f.(taken := Exists(s.attempts, BoundToOther(ChargeOf(job), ids.a)))
    case OtherSuccess => f.(otherSuccess := Exists(s.attempts, SuccessOfOther(ids.i, ids.a)))
    case Arrears => f.(arrears := OtherArrears(s.invoices, ids.x, ids.i))
    case DeclinedCount => f.(declined := Count(s.attempts, ids.i, Declined))
    case OpenIds => f.(openIds := OpenOnes(s.invoices, ids.x, |s.invoices|))
    case Spans => f.(spans := SpansOf(s.invoices, ids.x))
  }

  // ---- Commits ----

  function CancelEffect(s: Db, x: nat, reason: Reason, openIds: seq<nat>): Db {
    if x < |s.subs|
    then s.(subs := s.subs[x := s.subs[x].(status := SubCanceled, reason := Some(reason))],
            invoices := CloseListed(s.invoices, openIds))
    else s
  }

  function PeriodEffect(s: Db, x: nat, f: Notes): Db {
    if x >= |s.subs| then s
    else
      var row := InNewPeriod(f.sub, f.plan, s.clock);
      var moved := s.(subs := s.subs[x := s.subs[x].(status := Active, periodStart := row.periodStart,
          periodEnd := row.periodEnd)]);
      if (row.periodStart, row.periodEnd) in f.spans then moved
      else moved.(invoices := s.invoices + [NewInvoice(x, row, f.plan, s.clock)],
          queue := s.queue + multiset{|s.invoices|})
  }

  function DunEffect(s: Db, ids: Ids, f: Notes): Db {
    if ids.i >= |s.invoices| || !f.invoice.status.Failed? then s
    else if f.declined >= MAX_DUNNING_ATTEMPTS then
      var given := s.(invoices := s.invoices[ids.i := s.invoices[ids.i].(status := Overdue)]);
      if f.sub.status.SubCanceled? then given
      else CancelEffect(given, ids.x, NonPayment, Without(f.openIds, ids.i))
    else s.(invoices := s.invoices[ids.i := s.invoices[ids.i].(status := Issued, issuedAt := Some(s.clock))],
            queue := s.queue + multiset{ids.i})
  }

  /** The open invoices listed after the given one has left the list. */
  function Without(ids: seq<nat>, i: nat): (r: seq<nat>)
    ensures forall k :: k in r <==> k in ids && k != i
  {
    if ids == [] then []
    else if ids[|ids| - 1] == i then Without(ids[..|ids| - 1], i)
    else Without(ids[..|ids| - 1], i) + [ids[|ids| - 1]]
  }

  function PrepareEffect(s: Db, job: Step, ids: Ids, f: Notes): (Db, Reply<Prepared>)
    requires job.PrepareStep?
  {
    if ids.i >= |s.invoices| then (s, Err(NotFound))
    else Carry(s, ChoiceOf(job, f), f.keyUsed,
               NewAttempt(ids.i, f.invoice, f.customer, job.key, job.providerKey, s.clock))
  }

  function SettleEffect(s: Db, ids: Ids, f: Notes, success: bool, charge: string): Db {
    var r := Settled(SettleFacts(f.sub, f.invoice, f.payment, f.taken, f.otherSuccess, f.arrears), success, charge);
    if ids.x < |s.subs| && ids.i < |s.invoices| && ids.a < |s.attempts| then
      s.(subs := s.subs[ids.x := s.subs[ids.x].(status := r.sub.status)],
         invoices := s.invoices[ids.i := s.invoices[ids.i].(status := r.invoice.status)],
         attempts := s.attempts[ids.a := s.attempts[ids.a].(
           status := r.payment.status, chargeId := r.payment.chargeId, flagged := r.payment.flagged)])
    else s
  }

  function EventRow(d: Delivery, org: Option<nat>): WebhookEvent
    requires WellFormed(d)
  {
    WebhookEvent(d.provider, d.eventId.t, org, true)
  }

  /** What a transaction writes, from its notes; `s` is only where it is written to. */
  function Effect(s: Db, t: Thread): Db {
    if t.job.WebhookStep? then
      var d := t.job.delivery;
      if !WellFormed(d) || t.notes.seen then s
      else if t.ids.None? then s.(events := s.events + [EventRow(d, None)])
      else
        SettleEffect(s.(events := s.events + [EventRow(d, Some(t.notes.payment.org))]), t.ids.value, t.notes,
                     SuccessOf(t.job), ChargeOf(t.job))
    else if t.ids.None? then s
    else
      match t.job
      case CancelStep(_) =>
        if t.notes.sub.status.SubCanceled? then s else CancelEffect(s, t.ids.value.x, Voluntary, t.notes.openIds)
      case ActivateStep(_) => if t.notes.sub.status.Trial? then PeriodEffect(s, t.ids.value.x, t.notes) else s
      case RenewStep(_) => if IsDue(t.notes.sub, s.clock) then PeriodEffect(s, t.ids.value.x, t.notes) else s
      case DunStep(_) => DunEffect(s, t.ids.value, t.notes)
      case PrepareStep(_, _, _, _) => PrepareEffect(s, t.job, t.ids.value, t.notes).0
      case SettleStep(_, success, charge) => SettleEffect(s, t.ids.value, t.notes, success, charge)
      case _ => s
  }

  /** The answer of a service that returns nothing. */
  function Done(): Reply<Prepared> {
    Ok(Prepared(None, false))
  }

  /** What the caller gets: a result, or the refusal it raises. */
  function Answer(s: Db, t: Thread): Reply<Prepared> {
    if t.job.WebhookStep? then (if WellFormed(t.job.delivery) then Done() else Err(BadRequest))
    else if t.ids.None? then Err(NotFound)
    else
      match t.job
      case CancelStep(_) => if t.notes.sub.status.SubCanceled? then Err(InvalidTransition) else Done()
      case ActivateStep(_) => if !t.notes.sub.status.Trial? then Err(WrongStatus) else Done()
      case RenewStep(_) =>
        if !t.notes.sub.status.Active? then Err(WrongStatus)
        else if !IsDue(t.notes.sub, s.clock) then Err(NotDue) else Done()
      case PrepareStep(_, _, _, _) => PrepareEffect(s, t.job, t.ids.value, t.notes).1
      case _ => Done()
  }

  function ReplyOf(r: Reply<Db>): Reply<Prepared> {
    if r.Ok? then Done() else Err(r.error)
  }

  /** What the caller of the whole service gets. */
  function SerialAnswer(s: Db, job: Step): Reply<Prepared> {
    match job
    case CancelStep(x) => ReplyOf(Cancel(s, x, Voluntary))
    case ActivateStep(x) => ReplyOf(Activate(s, x))
    case RenewStep(x) => ReplyOf(Renew(s, x))
    case DunStep(i) => ReplyOf(Dun(s, i))
    case PrepareStep(i, key, issuedOnly, providerKey) => Prepare(s, i, key, issuedOnly, providerKey).1
    case SettleStep(a, _, _) => if a < |s.attempts| then Done() else Err(NotFound)
    case WebhookStep(d) => ReplyOf(Webhook(s, d))
    case _ => Done()
  }

  // ---- Moves ----

  /** Abort is a crash or a database error: the locks are released and nothing is written. A
      transaction that has found no row only has its commit left; to abort it there is to abort
      it before the lookup, whose outcome nobody has seen. */
  datatype Move = Begin(job: Step) | Go(thread: nat) | Abort(thread: nat) | Outside(step: Step)

  predicate Transaction(job: Step) {
    job.CancelStep? || job.ActivateStep? || job.RenewStep? || job.DunStep? || job.PrepareStep? || job.SettleStep? ||
        job.WebhookStep?
  }

  /** The clock, the gateway, the broker, creations and new parents: no existing billing row is
      locked or changed. */
  predicate Unlocked(s: Db, step: Step) {
    || step.Tick? || step.CallStep? || step.LoseTask? || step.RedeliverTask? || step.CreateStep?
    || (step.SaveCustomerStep? && step.customer >= |s.customers|)
    || (step.SavePlanStep? && step.plan >= |s.plans|)
  }

  function BlankNotes(): Notes {
    var sub := Subscription(0, 0, 0, Trial, 0, 0, None);
    Notes(false, sub, Plan(0, 0, "", false, OtherInterval, 0),
          Invoice(0, 0, Draft, 0, "", 0, 0, None), Customer(0, "", ""),
          Attempt(0, 0, ChargeRequest(0, "", "", "", ""), None, Pending, "", 0, false),
          NoReplay, None, None, None, false, false, false, false, 0, [], {})
  }

  function NewThread(job: Step): Thread {
    Thread(job, 0, {}, None, {}, BlankNotes(), Running)
  }

  function IdsOf(t: Thread): Ids {
    if t.ids.Some? then t.ids.value else Ids(0, 0, 0, 0, 0)
  }

  function NextOp(t: Thread): Op {
    OpAt(t.job, IdsOf(t), t.pc)
  }

  /** No other transaction holds the lock. */
  predicate Available(w: World, k: nat, l: Lock) {
    forall j :: 0 <= j < |w.threads| && j != k ==> l !in w.threads[j].held
  }

  /** The first listed invoice whose lock is still to be taken. */
  function NextOpen(ids: seq<nat>, held: set<Lock>): (r: Option<nat>)
    ensures r.Some? ==> r.value in ids && InvoiceLock(r.value) !in held
    ensures r.None? ==> forall k :: k in ids ==> InvoiceLock(k) in held
  {
    if ids == [] then None
    else
      var before := NextOpen(ids[..|ids| - 1], held);
      if before.Some? then before
      else if InvoiceLock(ids[|ids| - 1]) !in held then Some(ids[|ids| - 1])
      else None
  }

  /** The transaction takes its place in the serial order: it commits, or it has found no row. */
  function Placed(w: World, t: Thread): Thread {
    if NextOp(t).Finish? then t.(held := {}, ending := Ended(|w.log|, Answer(w.db, t)))
    else t.(ending := Leaving(|w.log|, Answer(w.db, t)))
  }

  function Committing(w: World, k: nat): World
    requires k < |w.threads|
  {
    var t := w.threads[k];
    World(Effect(w.db, t), w.threads[k := Placed(w, t)], w.log + [t.job])
  }

  /** The commit of a transaction that found no row. */
  function Left(t: Thread): Thread
    requires t.ending.Leaving?
  {
    t.(held := {}, ending := Ended(t.ending.position, t.ending.reply))
  }

  /** Not over yet. */
  predicate Live(t: Thread) {
    t.ending.Running? || t.ending.Leaving?
  }

  function Holding(t: Thread, l: Lock): Thread {
    t.(held := t.held + {l})
  }

  /** The thread after an operation that does not end it. */
  function After(s: Db, t: Thread): Thread {
    var op := NextOp(t);
    if Skips(t.job, t.notes, op) then t.(pc := t.pc + 1)
    else
      match op
      case Resolve => t.(pc := t.pc + 1, ids := FindIds(s, t.job))
      case Take(l) => Holding(t, l).(pc := t.pc + 1)
      case TakeOpen =>
        var next := NextOpen(t.notes.openIds, t.held);
        if next.None? then t.(pc := t.pc + 1) else Holding(t, InvoiceLock(next.value))
      case Ask(q) => t.(pc := t.pc + 1, asked := t.asked + {q}, notes := Read(s, t.job, IdsOf(t), q, t.notes))
      case Finish => t
  }

  /** The transaction takes its place in the serial order now: its program is over, or the row it
      is about does not exist. */
  predicate Ends(s: Db, t: Thread) {
    var op := NextOp(t);
    op.Finish? || (op.Resolve? && !Skips(t.job, t.notes, op) && FindIds(s, t.job).None?)
  }

  /** The lock the thread is about to take. */
  function Wanted(t: Thread): Option<Lock> {
    var op := NextOp(t);
    if Skips(t.job, t.notes, op) then None
    else if op.Take? then Some(op.lock)
    else if op.TakeOpen? && NextOpen(t.notes.openIds, t.held).Some?
    then Some(InvoiceLock(NextOpen(t.notes.openIds, t.held).value))
    else None
  }

  predicate CanGo(w: World, k: nat) {
    k < |w.threads| && Live(w.threads[k])
    && (w.threads[k].ending.Running? && Wanted(w.threads[k]).Some? ==> Available(w, k, Wanted(w.threads[k]).value))
  }

  function Make(w: World, m: Move): World {
    match m
    case Begin(job) => if Transaction(job) then w.(threads := w.threads + [NewThread(job)]) else w
    case Outside(step) => if Unlocked(w.db, step) then w.(db := Exec(w.db, step), log := w.log + [step]) else w
    case Abort(k) =>
      if k < |w.threads| && w.threads[k].ending.Running?
      then w.(threads := w.threads[k := w.threads[k].(held := {}, ending := Aborted)]) else w
    case Go(k) =>
      if !CanGo(w, k) then w
      else if w.threads[k].ending.Leaving? then w.(threads := w.threads[k := Left(w.threads[k])])
      else if Ends(w.db, w.threads[k]) then Committing(w, k)
      else w.(threads := w.threads[k := After(w.db, w.threads[k])])
  }

  function Play(start: Db, moves: seq<Move>): World {
    if moves == [] then World(start, [], [])
    else Make(Play(start, moves[..|moves| - 1]), moves[|moves| - 1])
  }
}
