/** The joint invariant of the billing tables. It holds in every state reachable by any
    steps, under webhooks and settlements with arbitrary outcomes and charge ids. */
module Invariant {
  import opened Tables
  import opened Services

  /** Organizations agree along foreign keys, and an attempt is a snapshot of its invoice. */
  ghost predicate Scoped(s: Db) {
    && (forall x :: 0 <= x < |s.subs| ==>
          s.subs[x].org == s.customers[s.subs[x].customer].org == s.plans[s.subs[x].plan].org)
    && (forall i :: 0 <= i < |s.invoices| ==> s.invoices[i].org == s.subs[s.invoices[i].subscription].org)
    && (forall a :: 0 <= a < |s.attempts| ==> Snapshot(s.attempts[a], s.invoices[s.attempts[a].invoice]))
  }

  predicate Snapshot(a: Attempt, inv: Invoice) {
    a.org == inv.org && a.request.amount == inv.total && a.request.currency == inv.currency
  }

  ghost predicate Timed(s: Db) {
    && (forall x :: 0 <= x < |s.subs| ==>
          s.subs[x].periodStart < s.subs[x].periodEnd && s.subs[x].periodStart <= s.clock)
    && (forall i :: 0 <= i < |s.invoices| ==>
          s.invoices[i].periodStart < s.invoices[i].periodEnd
          && s.invoices[i].issuedAt.Some? && s.invoices[i].issuedAt.value <= s.clock)
    && (forall a :: 0 <= a < |s.attempts| ==> s.attempts[a].attemptedAt <= s.clock)
  }

  /** The invoice statuses that may stand beside a subscription status. */
  predicate Allowed(sub: SubscriptionStatus, inv: InvoiceStatus) {
    match sub
    case Trial => false
    case Active => inv.Issued? || inv.Paid?
    case SubOverdue => inv.Issued? || inv.Failed? || inv.Paid?
    case SubCanceled => inv.Paid? || inv.Canceled? || inv.Overdue?
  }

  predicate Unpaid(inv: Invoice, x: nat) {
    inv.subscription == x && (inv.status.Issued? || inv.status.Failed?)
  }

  ghost predicate HasUnpaid(invoices: seq<Invoice>, x: nat) {
    exists i :: 0 <= i < |invoices| && Unpaid(invoices[i], x)
  }

  ghost predicate Statuses(s: Db) {
    && (forall i :: 0 <= i < |s.invoices| ==>
          Allowed(s.subs[s.invoices[i].subscription].status, s.invoices[i].status))
    && (forall x :: 0 <= x < |s.subs| && s.subs[x].status.SubOverdue? ==> HasUnpaid(s.invoices, x))
  }

  /** PAID means exactly one SUCCESS attempt, and at most one attempt is PENDING. */
  predicate TallyOk(rows: seq<Attempt>, i: nat, status: InvoiceStatus) {
    && Count(rows, i, Success) == (if status.Paid? then 1 else 0)
    && Count(rows, i, Pending) <= 1
    && (status.Failed? ==> Count(rows, i, Declined) >= 1)
    && (status.Overdue? ==> Count(rows, i, Declined) >= MAX_DUNNING_ATTEMPTS)
  }

  ghost predicate Tallies(s: Db) {
    forall i :: 0 <= i < |s.invoices| ==> TallyOk(s.attempts, i, s.invoices[i].status)
  }

  /** No charge id, provider key or client key belongs to two attempts. */
  predicate Apart(a: Attempt, b: Attempt) {
    && (a.chargeId != "" ==> a.chargeId != b.chargeId)
    && a.request.key != b.request.key
    && (a.clientKey.Some? && a.org == b.org ==> a.clientKey != b.clientKey)
  }

  ghost predicate Charges(s: Db) {
    && (forall a :: 0 <= a < |s.attempts| && MayCharge(s.attempts[a]) ==> s.attempts[a].chargeId == "")
    && (forall a, b :: 0 <= a < |s.attempts| && 0 <= b < |s.attempts| && a != b ==> Apart(s.attempts[a], s.attempts[b]))
    && (forall a :: 0 <= a < |s.attempts| ==> s.attempts[a].clientKey != Some(""))
  }

  predicate GivenUp(inv: Invoice, x: nat) {
    inv.subscription == x && inv.status.Overdue?
  }

  predicate BothGivenUp(i: Invoice, j: Invoice) {
    i.status.Overdue? && j.status.Overdue? && i.subscription == j.subscription
  }

  /** The cancellation reason is NON_PAYMENT exactly when an invoice was given up on. */
  ghost predicate Reasons(s: Db) {
    && (forall x :: 0 <= x < |s.subs| ==> (s.subs[x].reason.Some? <==> s.subs[x].status.SubCanceled?))
    && (forall x :: 0 <= x < |s.subs| && s.subs[x].reason == Some(NonPayment) ==> HasGivenUp(s.invoices, x))
    && (forall i :: 0 <= i < |s.invoices| && s.invoices[i].status.Overdue? ==>
          s.subs[s.invoices[i].subscription].reason == Some(NonPayment))
    && (forall i, j :: 0 <= i < |s.invoices| && 0 <= j < |s.invoices| && i != j
          ==> !BothGivenUp(s.invoices[i], s.invoices[j]))
  }

  ghost predicate HasGivenUp(invoices: seq<Invoice>, x: nat) {
    exists i :: 0 <= i < |invoices| && GivenUp(invoices[i], x)
  }

  predicate Disjoint(i: Invoice, j: Invoice) {
    i.subscription == j.subscription ==> i.periodEnd <= j.periodStart || j.periodEnd <= i.periodStart
  }

  predicate CurrentOrPast(inv: Invoice, sub: Subscription) {
    (inv.periodStart == sub.periodStart && inv.periodEnd == sub.periodEnd) || inv.periodEnd <= sub.periodStart
  }

  ghost predicate Periods(s: Db) {
    && (forall i, j :: 0 <= i < |s.invoices| && 0 <= j < |s.invoices| && i != j ==>
          Disjoint(s.invoices[i], s.invoices[j]))
    && (forall i :: 0 <= i < |s.invoices| ==> CurrentOrPast(s.invoices[i], s.subs[s.invoices[i].subscription]))
    && (forall x :: 0 <= x < |s.subs| && (s.subs[x].status.Active? || s.subs[x].status.SubOverdue?) ==>
          HasPeriodInvoice(s.invoices, x, s.subs[x].periodStart, s.subs[x].periodEnd))
  }

  ghost predicate Inv(s: Db) {
    Scoped(s) && Timed(s) && Statuses(s) && Tallies(s) && Charges(s) && Reasons(s) && Periods(s)
  }
}
