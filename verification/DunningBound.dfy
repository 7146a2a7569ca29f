/** How often an invoice is issued, and how often the worker starts a charge for it. */
module DunningBound {
  import opened Calendar
  import opened Tables
  import opened Services
  import opened Counting
  import opened Invariant
  import opened Preservation
  import opened History

  predicate IsIssued(s: Db, i: nat) {
    i < |s.invoices| && s.invoices[i].status.Issued?
  }

  /** How many steps of the run brought invoice `i` into ISSUED. */
  function Issues(steps: seq<Step>, i: nat): nat {
    if steps == [] then 0
    else
      var before := steps[..|steps| - 1];
      Issues(before, i)
      + if IsIssued(Run(Empty(), steps), i) && !IsIssued(Run(Empty(), before), i) then 1 else 0
  }

  /** The step is a worker run of charge_issued for invoice `i` that inserts an attempt. */
  predicate WorkerInserts(s: Db, step: Step, i: nat) {
    step.PrepareStep? && step.issuedOnly && step.invoice == i && |Exec(s, step).attempts| > |s.attempts|
  }

  /** How many attempts the worker path created for invoice `i`. */
  function WorkerAttempts(steps: seq<Step>, i: nat): nat {
    if steps == [] then 0
    else
      var before := steps[..|steps| - 1];
      WorkerAttempts(before, i) + if WorkerInserts(Run(Empty(), before), steps[|steps| - 1], i) then 1 else 0
  }

  // ---- One step ----

  /** How one step moves an invoice in and out of ISSUED, against its declined attempts. */
  predicate IssueMove(before: InvoiceStatus, after: InvoiceStatus, declinedBefore: nat, declinedAfter: nat) {
    && (after.Issued? && !before.Issued? ==>
          before.Failed? && declinedBefore < MAX_DUNNING_ATTEMPTS && declinedAfter == declinedBefore)
    && (after.Issued? && before.Issued? ==> declinedAfter >= declinedBefore)
    && (after.Failed? && before.Issued? ==> declinedAfter >= declinedBefore + 1)
    && (after.Failed? && !before.Issued? ==> before.Failed? && declinedAfter >= declinedBefore)
  }

  ghost predicate IssueMoves(s: Db, t: Db, i: nat)
    requires i < |s.invoices| && i < |t.invoices|
  {
    IssueMove(s.invoices[i].status, t.invoices[i].status, Count(s.attempts, i, Declined),
        Count(t.attempts, i, Declined))
  }

  lemma SettleIssue(s: Db, a: nat, success: bool, charge: string, i: nat)
    requires a < |s.attempts| && i < |s.invoices|
    ensures IssueMoves(s, Settle(s, a, success, charge), i)
  {
    var r := Settled(SettleRead(s, a, charge), success, charge);
    SettledOutcome(SettleRead(s, a, charge), success, charge);
    CountUpdate(s.attempts, a, r.payment, i, Declined);
  }

  lemma DunIssue(s: Db, k: nat, i: nat)
    requires Statuses(s) && i < |s.invoices|
    ensures IssueMoves(s, Committed(s, Dun(s, k)), i)
  {
    DunCases(s, k);
  }

  lemma PrepareIssue(s: Db, k: nat, key: string, issuedOnly: bool, providerKey: string, i: nat)
    requires i < |s.invoices|
    ensures IssueMoves(s, Prepare(s, k, key, issuedOnly, providerKey).0, i)
  {
    PrepareInserts(s, k, key, issuedOnly, providerKey);
    if Prepare(s, k, key, issuedOnly, providerKey).0 != s {
      CountAppend(s.attempts, NewAttempt(k, s.invoices[k], CustomerOf(s, k), key, providerKey, s.clock), i, Declined);
    }
  }

  lemma LifecycleIssue(s: Db, step: Step, i: nat)
    requires i < |s.invoices|
    requires step.CreateStep? || step.ActivateStep? || step.RenewStep? || step.CancelStep?
    ensures IssueMoves(s, Exec(s, step), i)
  {
    hide PeriodEnd, HasPeriodInvoice, Count;
  }

  lemma NoIssue(s: Db, step: Step, i: nat)
    requires i < |s.invoices|
    requires step.Tick? || step.SaveCustomerStep? || step.SavePlanStep? || step.CallStep? || step.LoseTask? ||
        step.RedeliverTask?
    ensures i < |Exec(s, step).invoices| && IssueMoves(s, Exec(s, step), i)
  {
  }

  /** Nothing but dunning brings an invoice back to ISSUED. */
  lemma OnlyDunningIssues(s: Db, step: Step, i: nat)
    requires Statuses(s) && i < |s.invoices| && !s.invoices[i].status.Issued?
    ensures IsIssued(Exec(s, step), i) ==> step == DunStep(i)
  {
    if step.DunStep? {
      DunCases(s, step.invoice);
      hide Dun;
    } else if step.CreateStep? || step.ActivateStep? || step.RenewStep? || step.CancelStep? {
      LifecycleIssuesNone(s, step, i);
    } else if step.SettleStep? || step.WebhookStep? {
      SettleIssuesNone(s, step, i);
    } else {
      hide Settle, Dun, PrepareChoice, Exists;
    }
  }

  lemma LifecycleIssuesNone(s: Db, step: Step, i: nat)
    requires i < |s.invoices| && !s.invoices[i].status.Issued?
    requires step.CreateStep? || step.ActivateStep? || step.RenewStep? || step.CancelStep?
    ensures !IsIssued(Exec(s, step), i)
  {
    hide PeriodEnd, HasPeriodInvoice;
  }

  lemma SettleIssuesNone(s: Db, step: Step, i: nat)
    requires i < |s.invoices| && !s.invoices[i].status.Issued? && (step.SettleStep? || step.WebhookStep?)
    ensures !IsIssued(Exec(s, step), i)
  {
    hide Exists, OtherArrears, EventSeen, WellFormed;
  }

  lemma ExecIssue(s: Db, step: Step, i: nat)
    requires Statuses(s) && i < |s.invoices| && |s.invoices| <= |Exec(s, step).invoices|
    ensures IssueMoves(s, Exec(s, step), i)
    ensures !IsIssued(s, i) && IsIssued(Exec(s, step), i) ==> step == DunStep(i)
  {
    if !IsIssued(s, i) { OnlyDunningIssues(s, step, i); }
    hide Settle, Dun, Prepare, Count;
    match step
    case CreateStep(_, _) => LifecycleIssue(s, step, i);
    case ActivateStep(_) => LifecycleIssue(s, step, i);
    case RenewStep(_) => LifecycleIssue(s, step, i);
    case CancelStep(_) => LifecycleIssue(s, step, i);
    case DunStep(k) => DunIssue(s, k, i);
    case PrepareStep(k, key, issuedOnly, providerKey) => PrepareIssue(s, k, key, issuedOnly, providerKey, i);
    case SettleStep(a, success, charge) => if a < |s.attempts| { SettleIssue(s, a, success, charge, i); }
    case WebhookStep(d) =>
      if WellFormed(d) && !EventSeen(s.events, d.provider, d.eventId.t) && PaymentOf(s, d).Some? {
        SettleIssue(Recorded(s, d), PaymentOf(s, d).value,
          d.payload.status == Text("success"), d.payload.chargeId.t, i);
      }
    case _ => NoIssue(s, step, i);
  }

  // ---- The bound on issues ----

  /** Issues never outrun the declined attempts by more than the issue under way. */
  predicate IssuesCovered(s: Db, i: nat, issues: nat) {
    && issues <= MAX_DUNNING_ATTEMPTS
    && (i >= |s.invoices| ==> issues == 0)
    && (IsIssued(s, i) ==> issues <= Count(s.attempts, i, Declined) + 1)
    && (i < |s.invoices| && s.invoices[i].status.Failed? ==> issues <= Count(s.attempts, i, Declined))
  }

  lemma NewInvoicesAreIssued(s: Db, step: Step)
    ensures forall i :: |s.invoices| <= i < |Exec(s, step).invoices| ==> Exec(s, step).invoices[i].status.Issued?
  {
  }

  lemma CoveredStep(s: Db, t: Db, i: nat, issues: nat)
    requires IssuesCovered(s, i, issues) && |s.invoices| <= |t.invoices|
    requires i < |s.invoices| ==> IssueMoves(s, t, i)
    requires |s.invoices| <= i < |t.invoices| ==> IsIssued(t, i)
    ensures IssuesCovered(t, i, issues + if IsIssued(t, i) && !IsIssued(s, i) then 1 else 0)
  {
  }

  lemma {:induction false} IssueBound(steps: seq<Step>, i: nat)
    ensures IssuesCovered(Run(Empty(), steps), i, Issues(steps, i))
  {
    if steps != [] {
      var before, step := steps[..|steps| - 1], steps[|steps| - 1];
      var s := Run(Empty(), before);
      IssueBound(before, i);
      Reachable(before);
      ExecLater(s, step);
      if i < |s.invoices| { ExecIssue(s, step, i); }
      NewInvoicesAreIssued(s, step);
      CoveredStep(s, Exec(s, step), i, Issues(before, i));
    }
  }

  // ---- The bound on worker attempts ----

  /** ISSUED, and nobody has started to charge this issue. */
  predicate Waiting(s: Db, i: nat) {
    IsIssued(s, i) && s.invoices[i].issuedAt.Some? && !Exists(s.attempts, SinceIssue(i, s.invoices[i].issuedAt.value))
  }

  lemma InsertEndsWaiting(s: Db, step: Step, i: nat)
    requires Inv(s) && WorkerInserts(s, step, i)
    ensures Waiting(s, i) && !Waiting(Exec(s, step), i) && IsIssued(Exec(s, step), i)
  {
    var t := Exec(s, step);
    PrepareInserts(s, i, step.key, true, step.providerKey);
    assert Matches(SinceIssue(i, s.invoices[i].issuedAt.value), t.attempts[|s.attempts|], |s.attempts|);
  }

  lemma SinceKept(s: Db, t: Db, i: nat, issuedAt: Time)
    requires RowsLater(s, t)
    ensures Exists(s.attempts, SinceIssue(i, issuedAt)) ==> Exists(t.attempts, SinceIssue(i, issuedAt))
  {
    if Exists(s.attempts, SinceIssue(i, issuedAt)) {
      var a := First(s.attempts, SinceIssue(i, issuedAt)).value;
      assert AttemptLater(s.attempts[a], t.attempts[a]);
      assert Matches(SinceIssue(i, issuedAt), t.attempts[a], a);
    }
  }

  /** While an invoice stays ISSUED its issue time stays, so it does not start waiting again. */
  lemma WaitingIsOld(s: Db, step: Step, i: nat)
    requires Inv(s) && IsIssued(s, i) && Waiting(Exec(s, step), i)
    ensures Waiting(s, i)
  {
    ExecLater(s, step);
    SameIssueTime(s, step, i);
    SinceKept(s, Exec(s, step), i, s.invoices[i].issuedAt.value);
  }

  lemma SameIssueTime(s: Db, step: Step, i: nat)
    requires Statuses(s) && IsIssued(s, i) && IsIssued(Exec(s, step), i)
    ensures Exec(s, step).invoices[i].issuedAt == s.invoices[i].issuedAt
  {
    if step.DunStep? {
      DunCases(s, step.invoice);
      hide Dun;
    } else if step.CreateStep? || step.ActivateStep? || step.RenewStep? || step.CancelStep? {
      SameTimeLifecycle(s, step, i);
    } else {
      SameTimeOther(s, step, i);
    }
  }

  lemma SameTimeLifecycle(s: Db, step: Step, i: nat)
    requires i < |s.invoices| && (step.CreateStep? || step.ActivateStep? || step.RenewStep? || step.CancelStep?)
    ensures |s.invoices| <= |Exec(s, step).invoices| && Exec(s, step).invoices[i].issuedAt == s.invoices[i].issuedAt
  {
    hide PeriodEnd, HasPeriodInvoice;
  }

  lemma SameTimeOther(s: Db, step: Step, i: nat)
    requires i < |s.invoices| && !step.CreateStep? && !step.ActivateStep? && !step.RenewStep? && !step.CancelStep? &&
        !step.DunStep?
    ensures |s.invoices| == |Exec(s, step).invoices| && Exec(s, step).invoices[i].issuedAt == s.invoices[i].issuedAt
  {
    hide Settled, PrepareChoice, Exists, OtherArrears;
  }

  /** The worker creates at most one attempt an issue, however often its task is delivered:
      an invoice enters ISSUED at most MAX_DUNNING_ATTEMPTS times and the worker starts at
      most that many charges for it. */
  lemma {:induction false} WorkerBound(steps: seq<Step>, i: nat)
    ensures WorkerAttempts(steps, i) <= Issues(steps, i) <= MAX_DUNNING_ATTEMPTS
    ensures Waiting(Run(Empty(), steps), i) ==> WorkerAttempts(steps, i) < Issues(steps, i)
  {
    IssueBound(steps, i);
    if steps != [] {
      var before, step := steps[..|steps| - 1], steps[|steps| - 1];
      var s := Run(Empty(), before);
      WorkerBound(before, i);
      Reachable(before);
      if WorkerInserts(s, step, i) {
        InsertEndsWaiting(s, step, i);
      } else if Waiting(Exec(s, step), i) && IsIssued(s, i) {
        WaitingIsOld(s, step, i);
      }
    }
  }
}
