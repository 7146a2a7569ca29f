/** What creation, billing, activation, renewal, cancellation and dunning do to the rows, column
    by column. The laws are about `Exec` and the replies alone and use none of the functions
    those are built from. */
module LifecycleLaws {
  import opened Calendar
  import opened Tables
  import opened Services
  import opened Counting
  import opened Invariant

  // ---- Creation ----

  /** A creation is refused for a missing parent, for parents of two organizations and for a
      plan that is not active, in this order, and for nothing else. */
  lemma CreationReply(s: Db, c: nat, p: nat)
    ensures c >= |s.customers| || p >= |s.plans| ==> Create(s, c, p) == Err(NotFound)
    ensures c < |s.customers| && p < |s.plans| ==>
              (s.customers[c].org != s.plans[p].org ==> Create(s, c, p) == Err(WrongOrganization))
              && (s.customers[c].org == s.plans[p].org && !s.plans[p].active ==> Create(s, c, p) == Err(PlanNotActive))
              && (s.customers[c].org == s.plans[p].org && s.plans[p].active ==> Create(s, c, p).Ok?)
    ensures Create(s, c, p).Err? ==> Exec(s, CreateStep(c, p)) == s
  {
  }

  /** With trial days the new row is on TRIAL for that many days and nothing is billed. */
  lemma CreatedOnTrial(s: Db, c: nat, p: nat)
    requires Create(s, c, p).Ok? && s.plans[p].trialDays > 0
    ensures Exec(s, CreateStep(c, p)) ==
            s.(subs := s.subs + [Subscription(s.customers[c].org, c, p, Trial, s.clock,
                                              s.clock + s.plans[p].trialDays * 86_400_000_000, None)])
  {
  }

  /** Without them it is ACTIVE for one interval of the plan and billed for exactly that period
      at once. */
  lemma CreatedActive(s: Db, c: nat, p: nat)
    requires Create(s, c, p).Ok? && s.plans[p].trialDays <= 0
    ensures
      var t := Exec(s, CreateStep(c, p));
      var (org, plan, x) := (s.customers[c].org, s.plans[p], |s.subs|);
      && |t.subs| == x + 1
      && var end := t.subs[x].periodEnd;
      && EndsPeriod(s.clock, plan.interval, end)
      && t == s.(subs := s.subs + [Subscription(org, c, p, Active, s.clock, end, None)],
                 invoices := s.invoices +
                             [Invoice(org, x, Issued, plan.price, plan.currency, s.clock, end, Some(s.clock))],
                 queue := s.queue + multiset{|s.invoices|})
  {
    PeriodEndFollowsCalendar(s.clock, s.plans[p].interval);
    hide PeriodEnd, EndsPeriod;
    forall i | 0 <= i < |s.invoices|
      ensures s.invoices[i].subscription != |s.subs|
    {
    }
  }

  // ---- Billing ----

  /** An invoice of subscription `x` for exactly this period. */
  ghost predicate Billed(invoices: seq<Invoice>, x: nat, start: Time, end: Time) {
    exists i :: 0 <= i < |invoices| && invoices[i].subscription == x
                && invoices[i].periodStart == start && invoices[i].periodEnd == end
  }

  /** Generation issues an invoice, for the plan's price and the row's own period, when the
      subscription is ACTIVE and that period is not billed yet; the new id goes to the worker.
      Otherwise it does nothing, so calling it again does nothing. */
  lemma GenerationIssuesOnce(s: Db, x: nat)
    requires x < |s.subs|
    ensures
      var (t, row, plan) := (Generate(s, x), s.subs[x], s.plans[s.subs[x].plan]);
      && (row.status != Active || Billed(s.invoices, x, row.periodStart, row.periodEnd) ==> t == s)
      && (row.status == Active && !Billed(s.invoices, x, row.periodStart, row.periodEnd) ==>
            t == s.(invoices := s.invoices + [Invoice(row.org, x, Issued, plan.price, plan.currency,
                                                      row.periodStart, row.periodEnd, Some(s.clock))],
                    queue := s.queue + multiset{|s.invoices|}))
      && x < |t.subs| && Generate(t, x) == t
  {
    var t := Generate(s, x);
    if t != s {
      assert t.invoices[|s.invoices|] == NewInvoice(x, s.subs[x], s.plans[s.subs[x].plan], s.clock);
    }
  }

  // ---- Activation and renewal ----

  /** A trial may be activated at any time, a renewal needs an ACTIVE row whose period has ended;
      nothing else is refused. */
  lemma PeriodReplies(s: Db, x: nat)
    ensures x >= |s.subs| ==> Activate(s, x) == Err(NotFound) && Renew(s, x) == Err(NotFound)
    ensures x < |s.subs| ==>
              && Activate(s, x).Ok? == (s.subs[x].status == Trial)
              && Renew(s, x).Ok? == (s.subs[x].status == Active && s.subs[x].periodEnd <= s.clock)
              && (s.subs[x].status != Trial ==> Activate(s, x) == Err(WrongStatus))
              && (s.subs[x].status != Active ==> Renew(s, x) == Err(WrongStatus))
              && (s.subs[x].status == Active && s.clock < s.subs[x].periodEnd ==> Renew(s, x) == Err(NotDue))
    ensures Activate(s, x).Err? ==> Exec(s, ActivateStep(x)) == s
    ensures Renew(s, x).Err? ==> Exec(s, RenewStep(x)) == s
  {
  }

  /** The row with a period of its plan's interval that begins now. */
  ghost predicate BeginsPeriod(s: Db, x: nat, row: Subscription)
    requires x < |s.subs|
  {
    && row == s.subs[x].(status := Active, periodStart := s.clock, periodEnd := row.periodEnd)
    && EndsPeriod(s.clock, s.plans[s.subs[x].plan].interval, row.periodEnd)
  }

  /** The invoice issued now for the row's period, at the plan's price. */
  function BillOf(s: Db, x: nat, row: Subscription): Invoice
    requires x < |s.subs|
  {
    Invoice(row.org, x, Issued, s.plans[s.subs[x].plan].price, s.plans[s.subs[x].plan].currency,
            row.periodStart, row.periodEnd, Some(s.clock))
  }

  /** One subscription enters a new period, its one new invoice is issued, and nothing else
      changes. */
  ghost predicate EntersPeriod(s: Db, t: Db, x: nat)
    requires x < |s.subs|
  {
    && |t.subs| == |s.subs|
    && BeginsPeriod(s, x, t.subs[x])
    && t == s.(subs := s.subs[x := t.subs[x]],
               invoices := s.invoices + [BillOf(s, x, t.subs[x])],
               queue := s.queue + multiset{|s.invoices|})
  }

  lemma StartPeriodEnters(s: Db, x: nat)
    requires x < |s.subs|
    requires forall i :: 0 <= i < |s.invoices| && s.invoices[i].subscription == x ==> s.invoices[i].periodEnd <= s.clock
    ensures EntersPeriod(s, StartPeriod(s, x), x)
  {
    PeriodEndFollowsCalendar(s.clock, s.plans[s.subs[x].plan].interval);
    assert PeriodEnd(s.clock, s.plans[s.subs[x].plan].interval) > s.clock;
    hide PeriodEnd, EndsPeriod;
  }

  /** Activating a trial, even before its end, bills the first period; no invoice stands yet. */
  lemma ActivationBills(s: Db, x: nat)
    requires Inv(s) && x < |s.subs| && s.subs[x].status == Trial
    ensures EntersPeriod(s, Exec(s, ActivateStep(x)), x)
    ensures forall i :: 0 <= i < |s.invoices| ==> s.invoices[i].subscription != x
  {
    hide Scoped, Timed, Tallies, Charges, Reasons, Periods;
    forall i | 0 <= i < |s.invoices|
      ensures s.invoices[i].subscription != x
    {
      assert Allowed(s.subs[s.invoices[i].subscription].status, s.invoices[i].status);
    }
    StartPeriodEnters(s, x);
    hide StartPeriod, EntersPeriod;
  }

  /** Renewing bills the new period, whatever was billed before. */
  lemma RenewalBills(s: Db, x: nat)
    requires Inv(s) && x < |s.subs| && s.subs[x].status == Active && s.subs[x].periodEnd <= s.clock
    ensures EntersPeriod(s, Exec(s, RenewStep(x)), x)
  {
    hide Scoped, Statuses, Tallies, Charges, Reasons;
    forall i | 0 <= i < |s.invoices| && s.invoices[i].subscription == x
      ensures s.invoices[i].periodEnd <= s.clock
    {
      assert CurrentOrPast(s.invoices[i], s.subs[x]);
    }
    StartPeriodEnters(s, x);
    hide StartPeriod, EntersPeriod;
  }

  // ---- Cancellation ----

  /** DRAFT, ISSUED and FAILED invoices of the subscription are canceled; all else is left. */
  ghost predicate ClosesOpen(before: seq<Invoice>, after: seq<Invoice>, x: nat) {
    && |after| == |before|
    && forall i :: 0 <= i < |before| ==>
         after[i] == if before[i].subscription == x && before[i].status in {Draft, Issued, Failed}
                     then before[i].(status := Canceled) else before[i]
  }

  /** Cancellation is refused only for a missing or a canceled subscription. */
  lemma CancellationCloses(s: Db, x: nat)
    ensures
      var (t, reply) := (Exec(s, CancelStep(x)), Cancel(s, x, Voluntary));
      && (x >= |s.subs| ==> reply == Err(NotFound) && t == s)
      && (x < |s.subs| && s.subs[x].status == SubCanceled ==> reply == Err(InvalidTransition) && t == s)
      && (x < |s.subs| && s.subs[x].status != SubCanceled ==>
            && reply.Ok?
            && ClosesOpen(s.invoices, t.invoices, x)
            && t == s.(subs := s.subs[x := s.subs[x].(status := SubCanceled, reason := Some(Voluntary))],
                       invoices := t.invoices))
  {
  }

  // ---- Dunning ----

  function Declines(s: Db, i: nat): set<nat> {
    set a: nat | a < |s.attempts| && s.attempts[a].invoice == i && s.attempts[a].status == Declined
  }

  /** A FAILED invoice with fewer than three declined attempts is issued again, now, and handed to
      the worker. With three it is given up: OVERDUE, and its subscription is canceled for
      NON_PAYMENT with the other open invoices. Any other invoice is left alone. */
  lemma DunningReissuesOrGivesUp(s: Db, i: nat)
    ensures
      var (t, reply) := (Exec(s, DunStep(i)), Dun(s, i));
      && (reply == Err(NotFound) <==> i >= |s.invoices|)
      && (i >= |s.invoices| || s.invoices[i].status != Failed ==> t == s)
      && (i < |s.invoices| && s.invoices[i].status == Failed ==>
            var (inv, x) := (s.invoices[i], s.invoices[i].subscription);
            if |Declines(s, i)| < 3 then
              t == s.(invoices := s.invoices[i := inv.(status := Issued, issuedAt := Some(s.clock))],
                      queue := s.queue + multiset{i})
            else if s.subs[x].status == SubCanceled then
              t == s.(invoices := s.invoices[i := inv.(status := Overdue)])
            else
              && ClosesOpen(s.invoices[i := inv.(status := Overdue)], t.invoices, x)
              && t == s.(subs := s.subs[x := s.subs[x].(status := SubCanceled, reason := Some(NonPayment))],
                         invoices := t.invoices))
  {
    CountIsCardinality(s.attempts, i, Declined);
    assert Declines(s, i) == Positions(s.attempts, i, Declined);
    hide Count, Declines, Positions;
  }

  // ---- Status moves ----

  const SubscriptionMoves := {
    (Trial, Active), (Trial, SubCanceled), (Active, SubOverdue), (Active, SubCanceled),
    (SubOverdue, Active), (SubOverdue, SubCanceled)
  }

  const InvoiceMoves := {
    (Draft, Canceled), (Issued, Paid), (Issued, Failed), (Issued, Canceled), (Failed, Issued),
    (Failed, Paid), (Failed, Overdue), (Failed, Canceled), (Overdue, Paid)
  }

  /** The moves the status tables allow; the last three are made by no step on a stored row. */
  lemma TablesAllow(from: SubscriptionStatus, to: SubscriptionStatus, before: InvoiceStatus, after: InvoiceStatus)
    ensures SubscriptionMayMove(from, to) <==> (from, to) in SubscriptionMoves
    ensures InvoiceMayMove(before, after) <==>
            (before, after) in InvoiceMoves + {(Draft, Issued), (Issued, Overdue), (Overdue, Canceled)}
  {
  }

  ghost predicate MovesAlong(s: Db, t: Db) {
    && |s.subs| <= |t.subs| && |s.invoices| <= |t.invoices|
    && (forall x :: 0 <= x < |s.subs| && t.subs[x].status != s.subs[x].status ==>
          (s.subs[x].status, t.subs[x].status) in SubscriptionMoves)
    && (forall i :: 0 <= i < |s.invoices| && t.invoices[i].status != s.invoices[i].status ==>
          (s.invoices[i].status, t.invoices[i].status) in InvoiceMoves)
  }

  /** Every step, from any database, moves the statuses of stored rows along these pairs. */
  lemma StepsMoveAlong(s: Db, step: Step)
    ensures MovesAlong(s, Exec(s, step))
  {
    hide Exec, MovesAlong, Settle, Webhook, Dun;
    match step
    case SettleStep(a, success, charge) =>
      if a < |s.attempts| {
        SettleMovesAlong(s, a, success, charge);
        ExecSettle(s, a, success, charge);
      } else {
        ExecNoAttempt(s, a, success, charge);
        StaysAlong(s);
      }
    case WebhookStep(d) =>
      WebhookMovesAlong(s, d);
      ExecWebhook(s, d);
    case DunStep(i) =>
      DunMovesAlong(s, i);
      ExecDun(s, i);
    case CancelStep(x) => CancelMovesAlong(s, x);
    case _ => RestMovesAlong(s, step);
  }

  lemma StaysAlong(s: Db)
    ensures MovesAlong(s, s)
  {
  }

  lemma RestMovesAlong(s: Db, step: Step)
    requires !step.SettleStep? && !step.WebhookStep? && !step.DunStep? && !step.CancelStep?
    ensures MovesAlong(s, Exec(s, step))
  {
    hide PrepareChoice, PrepareRead, HasPeriodInvoice, PeriodEnd, Settle, Webhook, Dun, Cancel, GatewayCharge;
  }

  lemma CancelMovesAlong(s: Db, x: nat)
    ensures MovesAlong(s, Exec(s, CancelStep(x)))
  {
  }

  lemma DunMovesAlong(s: Db, i: nat)
    ensures MovesAlong(s, Committed(s, Dun(s, i)))
  {
    hide Count;
  }

  lemma WebhookMovesAlong(s: Db, d: Delivery)
    ensures MovesAlong(s, Committed(s, Webhook(s, d)))
  {
    hide Settle, EventSeen;
    if WellFormed(d) && !EventSeen(s.events, d.provider, d.eventId.t) && PaymentOf(s, d).Some? {
      SettleMovesAlong(Recorded(s, d), PaymentOf(s, d).value,
        d.payload.status == Text("success"), d.payload.chargeId.t);
    }
  }

  lemma SettleMovesAlong(s: Db, a: nat, success: bool, charge: string)
    requires a < |s.attempts|
    ensures MovesAlong(s, Settle(s, a, success, charge))
  {
  }

  // ---- Parents and the environment ----

  /** A customer or plan with subscriptions cannot change its organization; every other save is
      accepted and changes that row alone. */
  lemma ParentsMoveFreely(s: Db, c: nat, customer: Customer, p: nat, plan: Plan)
    ensures
      var bound := c < |s.customers| && s.customers[c].org != customer.org
                   && exists x :: 0 <= x < |s.subs| && s.subs[x].customer == c;
      Exec(s, SaveCustomerStep(c, customer)) ==
      if c > |s.customers| || bound then s
      else if c == |s.customers| then s.(customers := s.customers + [customer])
      else s.(customers := s.customers[c := customer])
    ensures
      var bound := p < |s.plans| && s.plans[p].org != plan.org
                   && exists x :: 0 <= x < |s.subs| && s.subs[x].plan == p;
      Exec(s, SavePlanStep(p, plan)) ==
      if p > |s.plans| || bound then s
      else if p == |s.plans| then s.(plans := s.plans + [plan])
      else s.(plans := s.plans[p := plan])
  {
  }

  /** The clock never runs backwards, and the broker may lose or repeat a task. */
  lemma EnvironmentMoves(s: Db, now: Time, i: nat)
    ensures Exec(s, Tick(now)) == s.(clock := if now < s.clock then s.clock else now)
    ensures Exec(s, LoseTask(i)) == s.(queue := s.queue - multiset{i})
    ensures Exec(s, RedeliverTask(i)) == s.(queue := s.queue + multiset{i})
  {
  }
}
