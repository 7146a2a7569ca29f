/** The services as they run: one object whose methods update the tables in place. `steps`
    records the transactions it has carried out, so its rows are always those of a run. */
module Engine {
  import opened Calendar
  import opened Tables
  import opened Services
  import opened Counting
  import opened Invariant
  import opened Preservation
  import opened Ledger
  import opened Renewals
  import opened Progress
  import opened Recovery
  import opened DunningRounds
  import opened GatewayLedger

  // ---- PaymentAttempt.save ----

  function Normalized(row: Attempt): Attempt {
    row.(clientKey := if row.clientKey == Some("") then None else row.clientKey)
  }

  predicate SuccessIn(rows: seq<Attempt>, i: nat) {
    exists k :: 0 <= k < |rows| && rows[k].invoice == i && rows[k].status.Success?
  }

  /** The refusals of clean and of the unique constraints when an existing attempt is saved. */
  function SaveError(rows: seq<Attempt>, org: nat, a: nat, row: Attempt): Option<Error>
    requires a < |rows|
  {
    if row.org != org then Some(WrongOrganization)
    else if !AttemptKept(rows[a], Normalized(row)) then Some(SnapshotChanged)
    else if row.chargeId != "" && Exists(rows, BoundToOther(row.chargeId, a)) then Some(ChargeTaken)
    else if row.status.Success? && Exists(rows, SuccessOfOther(row.invoice, a)) then Some(SecondSuccess)
    else None
  }

  /** A save is refused exactly for another organization, for a changed snapshot, for a charge id
      that another attempt stores, or for a second SUCCESS of one invoice. */
  lemma SaveRefuses(rows: seq<Attempt>, org: nat, a: nat, row: Attempt)
    requires a < |rows|
    ensures
      var snapshot := row.org == rows[a].org && row.invoice == rows[a].invoice && row.request == rows[a].request
                      && row.attemptedAt == rows[a].attemptedAt
                      && rows[a].clientKey == (if row.clientKey == Some("") then None else row.clientKey);
      var taken := row.chargeId != "" && exists b :: 0 <= b < |rows| && b != a && rows[b].chargeId == row.chargeId;
      var second := row.status == Success
                    && exists b :: 0 <= b < |rows| && b != a
                                   && rows[b].invoice == row.invoice && rows[b].status == Success;
      SaveError(rows, org, a, row) ==
      if row.org != org then Some(WrongOrganization)
      else if !snapshot then Some(SnapshotChanged)
      else if taken then Some(ChargeTaken)
      else if second then Some(SecondSuccess)
      else None
  {
  }

  /** The next listed invoice is still open, or already closed. */
  lemma OpenToClose(invoices: seq<Invoice>, ids: seq<nat>, x: nat, k: nat)
    requires k < |ids| && forall i: nat :: i in ids ==> i < |invoices| && OpenOn(invoices[i], x)
    ensures ids[k] < |invoices|
    ensures
      var (now, next) := (CloseListed(invoices, ids[..k]), CloseListed(invoices, ids[..k + 1]));
      if InvoiceMayMove(now[ids[k]].status, Canceled) then next == now[ids[k] := now[ids[k]].(status := Canceled)]
          else next == now
  {
    assert ids[k] in ids;
    CloseNext(invoices, ids, k);
  }

  /** Once the invoice is paid, the arrears left are those of the other invoices. */
  lemma PaidArrears(before: seq<Invoice>, x: nat, i: nat)
    requires i < |before|
    ensures
      var after := before[i := before[i].(status := Paid)];
      OtherArrears(before, x, i) <==> exists k :: 0 <= k < |after| && InArrears(after[k], x)
  {
    var after := before[i := before[i].(status := Paid)];
    if OtherArrears(before, x, i) {
      var k :| 0 <= k < |before| && k != i && InArrears(before[k], x);
      assert InArrears(after[k], x);
    }
  }

  /** Once the attempt is declined, the successes left are those of other attempts. */
  lemma DeclinedIsNoSuccess(before: seq<Attempt>, after: seq<Attempt>, i: nat, a: nat)
    requires a < |before| && after == before[a := before[a].(status := Declined)]
    ensures SuccessIn(after, i) <==> Exists(before, SuccessOfOther(i, a))
  {
    if SuccessIn(after, i) {
      var k :| 0 <= k < |after| && after[k].invoice == i && after[k].status.Success?;
      assert Matches(SuccessOfOther(i, a), before[k], k);
    }
    if Exists(before, SuccessOfOther(i, a)) {
      var k := First(before, SuccessOfOther(i, a)).value;
      assert after[k] == before[k];
    }
  }

  /** Saving the attempt with a new flag or status other than SUCCESS is not refused. */
  predicate CanSave(subs: seq<Subscription>, invoices: seq<Invoice>, rows: seq<Attempt>, a: nat) {
    && a < |rows| && rows[a].invoice < |invoices| && invoices[rows[a].invoice].subscription < |subs|
    && rows[a].org == invoices[rows[a].invoice].org && rows[a].clientKey != Some("")
    && (rows[a].chargeId != "" ==> !Exists(rows, BoundToOther(rows[a].chargeId, a)))
    && (rows[a].status.Success? ==> !Exists(rows, SuccessOfOther(rows[a].invoice, a)))
  }

  lemma InvCanSave(s: Db, a: nat)
    requires Scoped(s) && Tallies(s) && Charges(s) && a < |s.attempts|
    ensures CanSave(s.subs, s.invoices, s.attempts, a)
  {
    var row := s.attempts[a];
    assert Snapshot(row, s.invoices[row.invoice]);
    assert forall b :: 0 <= b < |s.attempts| && b != a ==> Apart(row, s.attempts[b]);
    assert TallyOk(s.attempts, row.invoice, s.invoices[row.invoice].status);
    var other := First(s.attempts, SuccessOfOther(row.invoice, a));
    if row.status.Success? && other.Some? {
      TwoSuccesses(s.attempts, row.invoice, a, other.value);
    }
  }

  lemma TwoSuccesses(rows: seq<Attempt>, i: nat, a: nat, b: nat)
    requires a < |rows| && b < |rows| && a != b
    requires rows[a].invoice == i && rows[a].status.Success? && rows[b].invoice == i && rows[b].status.Success?
    ensures Count(rows, i, Success) >= 2
  {
    if a < b { CountTwo(rows, i, Success, a, b); } else { CountTwo(rows, i, Success, b, a); }
  }

  /** The branches of a settlement up to the storing of the charge id. */
  lemma SettledEarly(f: SettleFacts, success: bool, charge: string)
    ensures
      var (p, r) := (f.payment, Settled(f, success, charge));
      var same := SettleRows(f.sub, f.invoice, p);
      && (!success && (p.status.Success? || p.flagged) ==> r == same)
      && ((success || !(p.status.Success? || p.flagged)) && p.chargeId != "" && charge != "" && p.chargeId != charge ==>
            r == same.(payment := p.(flagged := true)))
      && (!(p.chargeId != "" && charge != "" && p.chargeId != charge) && (p.status.Success? || p.flagged) ==> r == same)
      && (Binds(p, charge) && f.taken ==> r == same.(payment := p.(flagged := true)))
  {
  }

  predicate Reaches(p: Attempt, charge: string, taken: bool) {
    && !p.status.Success? && !p.flagged
    && !(p.chargeId != "" && charge != "" && p.chargeId != charge)
    && !(Binds(p, charge) && taken)
  }

  /** The branches of a settlement after that. */
  lemma SettledLate(f: SettleFacts, success: bool, charge: string)
    ensures
      var r := Settled(f, success, charge);
      var bound := if Binds(f.payment, charge) then f.payment.(chargeId := charge) else f.payment;
      Reaches(f.payment, charge, f.taken) ==>
        if success then
          if Blocked(f) then r == SettleRows(f.sub, f.invoice, bound.(flagged := true))
          else
            && r.sub == (if f.sub.status.SubOverdue? && !f.otherArrears then f.sub.(status := Active) else f.sub)
            && r.invoice == f.invoice.(status := Paid) && r.payment == bound.(status := Success)
        else if bound.status.Declined? then r == SettleRows(f.sub, f.invoice, bound)
        else if Blocked(f) then r == SettleRows(f.sub, f.invoice, bound.(status := Declined))
        else
          && r.sub == (if f.sub.status.Active? then f.sub.(status := SubOverdue) else f.sub)
          && r.invoice == (if f.invoice.status.Issued? then f.invoice.(status := Failed) else f.invoice)
          && r.payment == bound.(status := Declined)
  {
  }

  class BillingEngine {
    var clock: Time
    var customers: seq<Customer>
    var plans: seq<Plan>
    var subs: seq<Subscription>
    var invoices: seq<Invoice>
    var attempts: seq<Attempt>
    var events: seq<WebhookEvent>
    var queue: multiset<nat>
    const gateway: Gateway
    ghost var steps: seq<Step>

    ghost function Rows(): State
      reads this, gateway
    {
      State(clock, customers, plans, subs, invoices, attempts, events, gateway.receipts, queue)
    }

    ghost predicate Linked()
      reads this, gateway
    {
      ForeignKeys(Rows())
    }

    ghost function Data(): Db
      requires Linked()
      reads this, gateway
    {
      Rows()
    }

    /** The rows are those of a run of whole transactions from the empty database. */
    ghost predicate Valid()
      reads this, gateway
    {
      Linked() && Rows() == Run(Empty(), steps)
    }

    constructor ()
      ensures Valid() && fresh(gateway) && steps == [] && Data() == Empty()
    {
      clock, customers, plans, subs, invoices, attempts, events, queue := 0, [], [], [], [], [], [], multiset{};
      gateway := new Gateway();
      steps := [];
    }

    /** Ends a transaction. */
    ghost method Commit(step: Step)
      requires Linked() && Rows() == Exec(Run(Empty(), steps), step)
      modifies this`steps
      ensures Valid() && steps == old(steps) + [step]
    {
      hide Exec;
      RunAppend(Empty(), steps, step);
      steps := steps + [step];
    }

    // ---- Status transitions (compare-and-set) ----

    /** Subscription.transition_to; `from` is the status the caller has read. */
    method MoveSubscription(x: nat, from: SubscriptionStatus, to: SubscriptionStatus) returns (moved: bool)
      requires x < |subs|
      modifies this`subs
      ensures moved == (SubscriptionMayMove(from, to) && old(subs)[x].status == from)
      ensures subs == if moved then old(subs)[x := old(subs)[x].(status := to)] else old(subs)
    {
      moved := SubscriptionMayMove(from, to) && subs[x].status == from;
      if moved {
        subs := subs[x := subs[x].(status := to)];
      }
    }

    /** Invoice.transition_to */
    method MoveInvoice(i: nat, from: InvoiceStatus, to: InvoiceStatus) returns (moved: bool)
      requires i < |invoices|
      modifies this`invoices
      ensures moved == (InvoiceMayMove(from, to) && old(invoices)[i].status == from)
      ensures invoices ==
              if !moved then old(invoices)
              else if to.Issued? then old(invoices)[i := old(invoices)[i].(status := to, issuedAt := Some(clock))]
              else old(invoices)[i := old(invoices)[i].(status := to)]
    {
      moved := InvoiceMayMove(from, to) && invoices[i].status == from;
      if moved {
        invoices := invoices[i := invoices[i].(status := to)];
        if to.Issued? {
          invoices := invoices[i := invoices[i].(issuedAt := Some(clock))];
        }
      }
    }

    // ---- InvoiceService ----

    method GenerateForSubscription(x: nat)
      requires Linked() && x < |subs|
      modifies this`invoices, this`queue
      ensures Linked() && Data() == Generate(old(Data()), x)
    {
      var sub := subs[x];
      if !sub.status.Active? || HasPeriodInvoice(invoices, x, sub.periodStart, sub.periodEnd) {
        return;
      }
      var plan, i := plans[sub.plan], |invoices|;
      invoices := invoices + [Invoice(sub.org, x, Draft, plan.price, plan.currency, sub.periodStart, sub.periodEnd,
          None)];
      var issued := MoveInvoice(i, Draft, Issued);
      queue := queue + multiset{i};
      assert invoices == old(invoices) + [NewInvoice(x, sub, plan, clock)];
    }

    method MarkPaid(i: nat) returns (ok: bool)
      requires i < |invoices|
      modifies this`invoices
      ensures ok == (old(invoices)[i].status.Paid? || Payable(old(invoices)[i].status))
      ensures invoices == if ok then old(invoices)[i := old(invoices)[i].(status := Paid)] else old(invoices)
    {
      if invoices[i].status.Paid? {
        return true;
      }
      ok := MoveInvoice(i, invoices[i].status, Paid);
    }

    method MarkFailed(i: nat)
      requires i < |invoices|
      modifies this`invoices
      ensures invoices ==
              if old(invoices)[i].status.Issued? then old(invoices)[i := old(invoices)[i].(status := Failed)]
                  else old(invoices)
    {
      if invoices[i].status.Issued? {
        var moved := MoveInvoice(i, Issued, Failed);
      }
    }

    method MarkOverdue(i: nat)
      requires i < |invoices|
      modifies this`invoices
      ensures invoices ==
              if old(invoices)[i].status.Failed? then old(invoices)[i := old(invoices)[i].(status := Overdue)]
                  else old(invoices)
    {
      if invoices[i].status.Failed? {
        var moved := MoveInvoice(i, Failed, Overdue);
      }
    }

    method CancelOpenForSubscription(x: nat)
      modifies this`invoices
      ensures invoices == CloseOpen(old(invoices), x)
    {
      hide CloseOpen, CloseListed, OpenOn;
      var openIds := OpenOnes(invoices, x, |invoices|);
      ghost var before := invoices;
      CloseListedOpen(before, x, openIds);
      var k := 0;
      while k < |openIds|
        invariant k <= |openIds| && invoices == CloseListed(before, openIds[..k])
      {
        var i := openIds[k];
        OpenToClose(before, openIds, x, k);
        var moved := MoveInvoice(i, invoices[i].status, Canceled);
        k := k + 1;
      }
      assert openIds[..k] == openIds;
    }

    method ReissueForRetry(i: nat)
      requires i < |invoices|
      modifies this`invoices, this`queue
      ensures old(invoices)[i].status.Failed? ==>
                invoices == old(invoices)[i := old(invoices)[i].(status := Issued, issuedAt := Some(clock))]
                && queue == old(queue) + multiset{i}
      ensures !old(invoices)[i].status.Failed? ==> invoices == old(invoices) && queue == old(queue)
    {
      if !invoices[i].status.Failed? {
        return;
      }
      var moved := MoveInvoice(i, Failed, Issued);
      queue := queue + multiset{i};
    }

    // ---- SubscriptionService ----

    method CreateSubscription(c: nat, p: nat) returns (reply: Reply<nat>)
      requires Valid()
      modifies this`subs, this`invoices, this`queue, this`steps
      ensures Valid() && steps == old(steps) + [CreateStep(c, p)]
      ensures Data() == Committed(old(Data()), Create(old(Data()), c, p))
      ensures if Create(old(Data()), c, p).Ok? then reply == Ok(|old(subs)|)
              else reply == Err(Create(old(Data()), c, p).error)
    {
      if c >= |customers| || p >= |plans| {
        reply := Err(NotFound);
      } else if customers[c].org != plans[p].org {
        reply := Err(WrongOrganization);
      } else if !plans[p].active {
        reply := Err(PlanNotActive);
      } else {
        var x := |subs|;
        subs := subs + [NewSubscription(c, p, customers[c], plans[p], clock)];
        GenerateForSubscription(x);
        reply := Ok(x);
      }
      Commit(CreateStep(c, p));
    }

    /** The common tail of activate and renew: the new period starts now and is billed. */
    method BeginPeriod(x: nat)
      requires Linked() && x < |subs|
      modifies this`subs, this`invoices, this`queue
      ensures Linked()
      ensures Data() == Generate(old(Data()).(subs := old(subs)[x := old(subs)[x].(
                periodStart := clock, periodEnd := PeriodEnd(clock, plans[old(subs)[x].plan].interval))]), x)
    {
      var plan := plans[subs[x].plan];
      subs := subs[x := subs[x].(periodStart := clock, periodEnd := PeriodEnd(clock, plan.interval))];
      GenerateForSubscription(x);
    }

    method ActivateSubscription(x: nat) returns (reply: Reply<bool>)
      requires Valid()
      modifies this`subs, this`invoices, this`queue, this`steps
      ensures Valid() && steps == old(steps) + [ActivateStep(x)]
      ensures Data() == Committed(old(Data()), Activate(old(Data()), x))
      ensures reply.Ok? <==> x < |old(subs)| && old(subs)[x].status.Trial?
    {
      hide Run, HasPeriodInvoice, PeriodEnd;
      if x >= |subs| {
        reply := Err(NotFound);
      } else if !subs[x].status.Trial? {
        reply := Err(WrongStatus);
      } else {
        var moved := MoveSubscription(x, Trial, Active);
        BeginPeriod(x);
        reply := Ok(true);
      }
      Commit(ActivateStep(x));
    }

    method RenewSubscription(x: nat) returns (reply: Reply<bool>)
      requires Valid()
      modifies this`subs, this`invoices, this`queue, this`steps
      ensures Valid() && steps == old(steps) + [RenewStep(x)]
      ensures Data() == Committed(old(Data()), Renew(old(Data()), x))
      ensures reply.Ok? <==> x < |old(subs)| && IsDue(old(subs)[x], clock)
    {
      hide Run, HasPeriodInvoice, PeriodEnd;
      if x >= |subs| {
        reply := Err(NotFound);
      } else if !subs[x].status.Active? {
        reply := Err(WrongStatus);
      } else if !IsDue(subs[x], clock) {
        reply := Err(NotDue);
      } else {
        BeginPeriod(x);
        reply := Ok(true);
      }
      Commit(RenewStep(x));
    }

    method MarkSubscriptionOverdue(x: nat)
      requires x < |subs|
      modifies this`subs
      ensures subs == if old(subs)[x].status.Active? then old(subs)[x := old(subs)[x].(status := SubOverdue)]
          else old(subs)
    {
      if subs[x].status.Active? {
        var moved := MoveSubscription(x, Active, SubOverdue);
      }
    }

    /** OVERDUE goes back to ACTIVE once no invoice is FAILED or OVERDUE. */
    method Reactivate(x: nat)
      requires x < |subs|
      modifies this`subs
      ensures subs ==
              if old(subs)[x].status.SubOverdue? && !(exists k :: 0 <= k < |invoices| && InArrears(invoices[k], x))
              then old(subs)[x := old(subs)[x].(status := Active)] else old(subs)
    {
      if !subs[x].status.SubOverdue? {
        return;
      }
      if exists k :: 0 <= k < |invoices| && InArrears(invoices[k], x) {
        return;
      }
      var moved := MoveSubscription(x, SubOverdue, Active);
    }

    /** SubscriptionService.cancel, within the caller's transaction. */
    method EndSubscription(x: nat, reason: Reason) returns (ok: bool)
      requires Linked() && x < |subs|
      modifies this`subs, this`invoices
      ensures Linked() && ok == Cancel(old(Data()), x, reason).Ok?
      ensures Data() == Committed(old(Data()), Cancel(old(Data()), x, reason))
    {
      ok := MoveSubscription(x, subs[x].status, SubCanceled);
      if ok {
        subs := subs[x := subs[x].(reason := Some(reason))];
        CancelOpenForSubscription(x);
      }
    }

    method CancelSubscription(x: nat) returns (ok: bool)
      requires Valid()
      modifies this`subs, this`invoices, this`steps
      ensures Valid() && steps == old(steps) + [CancelStep(x)]
      ensures ok == Cancel(old(Data()), x, Voluntary).Ok?
      ensures Data() == Committed(old(Data()), Cancel(old(Data()), x, Voluntary))
    {
      ok := false;
      if x < |subs| {
        ok := EndSubscription(x, Voluntary);
      }
      Commit(CancelStep(x));
    }

    // ---- Dunning ----

    /** _dun_invoice */
    method DunInvoice(i: nat)
      requires Valid()
      modifies this`subs, this`invoices, this`queue, this`steps
      ensures Valid() && steps == old(steps) + [DunStep(i)]
      ensures Data() == Committed(old(Data()), Dun(old(Data()), i))
    {
      hide Run, Exec, Count, CloseOpen;
      ExecDun(Data(), i);
      if i < |invoices| && invoices[i].status.Failed? {
        var x := invoices[i].subscription;
        if Count(attempts, i, Declined) >= MAX_DUNNING_ATTEMPTS {
          MarkOverdue(i);
          if !subs[x].status.SubCanceled? {
            var ended := EndSubscription(x, NonPayment);
          }
        } else {
          ReissueForRetry(i);
        }
      }
      Commit(DunStep(i));
    }

    /** run_dunning; `failedIds` is the query's result, in the order the database returns it. */
    method RunDunningCycle(failedIds: seq<nat>)
      requires Valid() && IsFailedIds(invoices, failedIds)
      modifies this`subs, this`invoices, this`queue, this`steps
      ensures Valid() && Data() == DunAll(old(Data()), failedIds)
    {
      hide Run, Exec, Dun;
      ghost var before := Data();
      var k := 0;
      while k < |failedIds|
        invariant k <= |failedIds| && Valid() && Data() == DunAll(before, failedIds[..k])
      {
        DunInvoice(failedIds[k]);
        assert failedIds[..k + 1][..k] == failedIds[..k];
        k := k + 1;
      }
      assert failedIds[..k] == failedIds;
    }

    // ---- PaymentService ----

    method SaveAttempt(a: nat, row: Attempt) returns (refused: Option<Error>)
      requires a < |attempts| && row.invoice < |invoices|
      modifies this`attempts
      ensures refused == SaveError(old(attempts), invoices[row.invoice].org, a, row)
      ensures attempts == if refused.None? then old(attempts)[a := Normalized(row)] else old(attempts)
      ensures |attempts| == |old(attempts)| && forall b :: 0 <= b < |attempts| ==>
          AttemptKept(old(attempts)[b], attempts[b])
    {
      refused := SaveError(attempts, invoices[row.invoice].org, a, row);
      if refused.None? {
        attempts := attempts[a := Normalized(row)];
      }
    }

    /** PaymentService._prepare */
    method PrepareCharge(i: nat, key: string, issuedOnly: bool, providerKey: string) returns (reply: Reply<Prepared>)
      requires Valid()
      modifies this`attempts, this`steps
      ensures Valid() && steps == old(steps) + [PrepareStep(i, key, issuedOnly, providerKey)]
      ensures (Data(), reply) == Prepare(old(Data()), i, key, issuedOnly, providerKey)
    {
      hide PrepareChoice, PrepareRead, Run;
      if i >= |invoices| {
        reply := Err(NotFound);
      } else {
        var choice := ChooseAttempt(i, key, issuedOnly);
        match choice
        case Nothing => reply := Ok(Prepared(None, false));
        case Refuse(error) => reply := Err(error);
        case Reuse(found) => reply := Ok(Prepared(Some(found.id), MayCharge(found.row)));
        case Insert =>
          if Exists(attempts, ByProviderKey(providerKey)) {
            reply := Err(UniqueViolation);
          } else {
            var customer := customers[subs[invoices[i].subscription].customer];
            attempts := attempts + [NewAttempt(i, invoices[i], customer, key, providerKey, clock)];
            reply := Ok(Prepared(Some(|attempts| - 1), true));
          }
      }
      Commit(PrepareStep(i, key, issuedOnly, providerKey));
    }

    /** The branches of _prepare, in their order. */
    method ChooseAttempt(i: nat, key: string, issuedOnly: bool) returns (choice: Choice)
      requires Linked() && i < |invoices|
      ensures choice == PrepareChoice(key, issuedOnly, PrepareRead(Data(), i, key))
    {
      var inv := invoices[i];
      var sub := subs[inv.subscription];
      if issuedOnly && !inv.status.Issued? {
        return Nothing;
      }
      if key != "" {
        var replay := First(attempts, ByClientKey(inv.org, key));
        if replay.Some? {
          if attempts[replay.value].invoice != i {
            return Refuse(KeyConflict);
          }
          return Reuse(Found(replay.value, attempts[replay.value]));
        }
      }
      if !Payable(inv.status) {
        var pending := First(attempts, PendingOf(i));
        if pending.Some? {
          return Reuse(Found(pending.value, attempts[pending.value]));
        }
        return Refuse(NotPayable);
      }
      if inv.status.Issued? && inv.issuedAt.Some? {
        var thisIssue := First(attempts, SinceIssue(i, inv.issuedAt.value));
        if thisIssue.Some? {
          if key != "" && attempts[thisIssue.value].clientKey != Some(key) {
            return Refuse(KeyConflict);
          }
          return Reuse(Found(thisIssue.value, attempts[thisIssue.value]));
        }
      }
      var existing := First(attempts, OpenOf(i));
      if existing.Some? {
        return Reuse(Found(existing.value, attempts[existing.value]));
      }
      if sub.status.SubCanceled? {
        return Refuse(NotPayable);
      }
      return Insert;
    }

    ghost predicate Savable(a: nat)
      reads this
    {
      CanSave(subs, invoices, attempts, a)
    }

    method SetFlag(a: nat)
      requires Savable(a)
      modifies this`attempts
      ensures attempts == old(attempts)[a := old(attempts)[a].(flagged := true)]
    {
      var refused := SaveAttempt(a, attempts[a].(flagged := true));
    }

    /** The end of settle for a success. */
    method ApplySuccess(a: nat)
      requires Savable(a) && !attempts[a].status.Success?
      modifies this`subs, this`invoices, this`attempts
      ensures
        var (i, x) := (old(attempts)[a].invoice, old(invoices)[old(attempts)[a].invoice].subscription);
        if old(subs)[x].status.SubCanceled? || !Payable(old(invoices)[i].status) ||
            Exists(old(attempts), SuccessOfOther(i, a))
        then attempts == old(attempts)[a := old(attempts)[a].(flagged := true)] && invoices == old(invoices) &&
            subs == old(subs)
        else
          && attempts == old(attempts)[a := old(attempts)[a].(status := Success)]
          && invoices == old(invoices)[i := old(invoices)[i].(status := Paid)]
          && subs == if old(subs)[x].status.SubOverdue? && !OtherArrears(old(invoices), x, i)
                     then old(subs)[x := old(subs)[x].(status := Active)] else old(subs)
    {
      var i := attempts[a].invoice;
      var x := invoices[i].subscription;
      var anotherSuccess := Exists(attempts, SuccessOfOther(i, a));
      if subs[x].status.SubCanceled? || !Payable(invoices[i].status) || anotherSuccess {
        SetFlag(a);
        return;
      }
      var refused := SaveAttempt(a, attempts[a].(status := Success));
      var paid := MarkPaid(i);
      PaidArrears(old(invoices), x, i);
      Reactivate(x);
    }

    /** The end of settle for a decline. */
    method ApplyDecline(a: nat)
      requires Savable(a) && !attempts[a].status.Success?
      modifies this`subs, this`invoices, this`attempts
      ensures
        var (i, x) := (old(attempts)[a].invoice, old(invoices)[old(attempts)[a].invoice].subscription);
        && attempts == old(attempts)[a := old(attempts)[a].(status := Declined)]
        && if old(subs)[x].status.SubCanceled? || !Payable(old(invoices)[i].status) ||
           Exists(old(attempts), SuccessOfOther(i, a))
           then invoices == old(invoices) && subs == old(subs)
           else
             && invoices == (if old(invoices)[i].status.Issued?
                             then old(invoices)[i := old(invoices)[i].(status := Failed)] else old(invoices))
             && subs == if old(subs)[x].status.Active? then old(subs)[x := old(subs)[x].(status := SubOverdue)]
                else old(subs)
    {
      var i := attempts[a].invoice;
      var x := invoices[i].subscription;
      var refused := SaveAttempt(a, attempts[a].(status := Declined));
      DeclinedIsNoSuccess(old(attempts), attempts, i, a);
      if Payable(invoices[i].status) && !subs[x].status.SubCanceled? && !SuccessIn(attempts, i) {
        MarkFailed(i);
        MarkSubscriptionOverdue(x);
      }
    }

    /** Stores the charge id; when the unique index refuses it the attempt is flagged instead. */
    method BindCharge(a: nat, charge: string) returns (bound: bool)
      requires Savable(a) && !attempts[a].status.Success? && attempts[a].chargeId == "" && charge != ""
      modifies this`attempts
      ensures bound == !Exists(old(attempts), BoundToOther(charge, a))
      ensures bound ==> attempts == old(attempts)[a := old(attempts)[a].(chargeId := charge)] && Savable(a)
      ensures bound ==> forall i: nat ::
                Exists(attempts, SuccessOfOther(i, a)) == Exists(old(attempts), SuccessOfOther(i, a))
      ensures !bound ==> attempts == old(attempts)[a := old(attempts)[a].(flagged := true)]
    {
      var refused := SaveAttempt(a, attempts[a].(chargeId := charge));
      bound := refused.None?;
      if !bound {
        SetFlag(a);
      } else {
        OthersSame(old(attempts), attempts, a, BoundToOther(charge, a));
        forall i: nat
          ensures Exists(attempts, SuccessOfOther(i, a)) == Exists(old(attempts), SuccessOfOther(i, a))
        {
          OthersSame(old(attempts), attempts, a, SuccessOfOther(i, a));
        }
      }
    }

    /** PaymentService.settle, on the three locked rows. */
    method SettleLocked(a: nat, success: bool, charge: string)
      requires Savable(a)
      modifies this`subs, this`invoices, this`attempts
      ensures
        var (i, x) := (old(attempts)[a].invoice, old(invoices)[old(attempts)[a].invoice].subscription);
        var r := Settled(SettleFacts(
                   old(subs)[x], old(invoices)[i], old(attempts)[a], Exists(old(attempts), BoundToOther(charge, a)),
                   Exists(old(attempts), SuccessOfOther(i, a)), OtherArrears(old(invoices), x, i)), success, charge);
        subs == old(subs)[x := r.sub] && invoices == old(invoices)[i := r.invoice] &&
            attempts == old(attempts)[a := r.payment]
    {
      hide Exists, OtherArrears;
      assert a < |attempts| && attempts[a].invoice < |invoices| && invoices[attempts[a].invoice].subscription < |subs|;
      hide CanSave, Payable, Settled;
      ghost var (i, x) := (attempts[a].invoice, invoices[attempts[a].invoice].subscription);
      ghost var f := SettleFacts(
        subs[x], invoices[i], attempts[a], Exists(attempts, BoundToOther(charge, a)),
        Exists(attempts, SuccessOfOther(i, a)), OtherArrears(invoices, x, i));
      SettledEarly(f, success, charge);
      SettledLate(f, success, charge);
      var payment := attempts[a];
      if !success && (payment.status.Success? || payment.flagged) {
        return;
      }
      if payment.chargeId != "" && charge != "" && payment.chargeId != charge {
        SetFlag(a);
        return;
      }
      if payment.status.Success? || payment.flagged {
        return;
      }
      if charge != "" && payment.chargeId == "" {
        var bound := BindCharge(a, charge);
        if !bound {
          return;
        }
      }
      if !success && payment.status.Declined? {
        return;
      }
      if success {
        ApplySuccess(a);
      } else {
        ApplyDecline(a);
      }
    }

    method SettleAttempt(a: nat, success: bool, charge: string)
      requires Linked() && a < |attempts| && Inv(Data())
      modifies this`subs, this`invoices, this`attempts
      ensures Linked() && Data() == Settle(old(Data()), a, success, charge)
    {
      InvCanSave(Data(), a);
      hide Inv, Settled;
      SettleLocked(a, success, charge);
    }

    /** _charge: the gateway call and the settlement of its answer. */
    method ChargeAttempt(a: nat, success: bool, chargeId: string)
      requires Valid()
      modifies this`subs, this`invoices, this`attempts, this`steps, gateway
      ensures Valid() && Data() == Charge(old(Data()), a, success, chargeId)
    {
      if a >= |attempts| || !MayCharge(attempts[a]) {
        return;
      }
      hide Exec, Run, Inv, Settle, GatewayCharge;
      ExecCall(Data(), a, success, chargeId);
      var reply := gateway.Charge(attempts[a].request, success, chargeId, None);
      Commit(CallStep(a, success, chargeId));
      if reply.Err? {
        return;
      }
      Reachable(steps);
      ExecSettle(Data(), a, reply.value.success, reply.value.chargeId);
      SettleAttempt(a, reply.value.success, reply.value.chargeId);
      Commit(SettleStep(a, reply.value.success, reply.value.chargeId));
    }

    /** PaymentService.attempt, and charge_issued when `issuedOnly` is set. */
    method AttemptPayment(i: nat, key: string, issuedOnly: bool, d: Draw) returns (reply: Reply<Prepared>)
      requires Valid()
      modifies this`subs, this`invoices, this`attempts, this`steps, gateway
      ensures Valid() && Data() == AttemptCharge(old(Data()), i, key, issuedOnly, d)
      ensures reply == Prepare(old(Data()), i, key, issuedOnly, d.providerKey).1
    {
      reply := PrepareCharge(i, key, issuedOnly, d.providerKey);
      if reply.Ok? && reply.value.charge && reply.value.attempt.Some? {
        ChargeAttempt(reply.value.attempt.value, d.success, d.chargeId);
      }
    }

    /** charge_invoice: one delivery of a queued task, acknowledged when it ends. */
    method DeliverTask(i: nat, d: Draw)
      requires Valid()
      modifies this`subs, this`invoices, this`attempts, this`queue, this`steps, gateway
      ensures Valid() && Data() == Work(old(Data()), i, d)
    {
      hide Run, Exec, AttemptCharge, Prepare;
      var reply := AttemptPayment(i, "", true, d);
      ExecLose(Data(), i);
      queue := queue - multiset{i};
      Commit(LoseTask(i));
    }

    method HandleWebhook(d: Delivery) returns (accepted: bool)
      requires Valid()
      modifies this`subs, this`invoices, this`attempts, this`events, this`steps
      ensures Valid() && steps == old(steps) + [WebhookStep(d)]
      ensures Data() == Committed(old(Data()), Webhook(old(Data()), d))
      ensures accepted == WellFormed(d)
    {
      hide Exec, Run, Inv, Settle;
      ExecWebhook(Data(), d);
      accepted := WellFormed(d);
      if accepted && !EventSeen(events, d.provider, d.eventId.t) {
        var known := d.payload.paymentId.Number? && d.payload.paymentId.n <= |attempts|;
        Reachable(steps);
        ghost var before := Data();
        if known {
          var a := d.payload.paymentId.n - 1;
          events := events + [WebhookEvent(d.provider, d.eventId.t, Some(attempts[a].org), true)];
          InvSame(before, Data());
          SettleAttempt(a, d.payload.status == Text("success"), d.payload.chargeId.t);
        } else {
          events := events + [WebhookEvent(d.provider, d.eventId.t, None, true)];
        }
      }
      Commit(WebhookStep(d));
    }

    // ---- Recovery ----

    /** reconcile_stuck, first loop: recover_pending for every abandoned attempt. */
    method RecoverPending(draws: seq<Draw>)
      requires Valid() && |draws| == |Abandoned(attempts, clock, |attempts|)|
      modifies this`subs, this`invoices, this`attempts, this`steps, gateway
      ensures Valid() && Data() == RecoverAll(old(Data()), Abandoned(old(attempts), clock, |old(attempts)|), draws)
    {
      hide Charge, Run;
      var pendingIds := Abandoned(attempts, clock, |attempts|);
      ghost var before := Data();
      var k := 0;
      while k < |pendingIds|
        invariant k <= |pendingIds| && Valid() && Data() == RecoverAll(before, pendingIds[..k], draws[..k])
      {
        ChargeAttempt(pendingIds[k], draws[k].success, draws[k].chargeId);
        assert pendingIds[..k + 1][..k] == pendingIds[..k] && draws[..k + 1][..k] == draws[..k];
        k := k + 1;
      }
      assert pendingIds[..k] == pendingIds && draws[..k] == draws;
    }

    /** reconcile_stuck, second loop: charge_invoice.delay for every issued invoice nobody charges. */
    method HandOverStuck()
      requires Valid()
      modifies this`queue, this`steps
      ensures Valid() && Data() == HandOver(old(Data()), Uncharged(old(Data()), |invoices|))
    {
      hide Run, Exec, Uncharged;
      ghost var before := Data();
      var stuckIds := StuckIds();
      var k := 0;
      while k < |stuckIds|
        invariant k <= |stuckIds| && Valid() && Data() == HandOver(before, stuckIds[..k])
      {
        ExecRedeliver(Data(), stuckIds[k]);
        queue := queue + multiset{stuckIds[k]};
        Commit(RedeliverTask(stuckIds[k]));
        assert stuckIds[..k + 1][..k] == stuckIds[..k];
        k := k + 1;
      }
      assert stuckIds[..k] == stuckIds;
    }

    method ReconcileStuck(draws: seq<Draw>)
      requires Valid() && |draws| == |Abandoned(attempts, clock, |attempts|)|
      modifies this`subs, this`invoices, this`attempts, this`queue, this`steps, gateway
      ensures Valid() && Data() == Reconcile(old(Data()), draws)
    {
      hide RecoverAll, HandOver, Run;
      RecoverPending(draws);
      HandOverStuck();
    }

    /** The query for issued invoices that nobody charges. */
    method StuckIds() returns (ids: seq<nat>)
      requires Linked()
      ensures ids == Uncharged(Data(), |invoices|)
    {
      ids := [];
      var n := 0;
      while n < |invoices|
        invariant n <= |invoices| && ids == Uncharged(Data(), n)
      {
        var inv := invoices[n];
        if inv.status.Issued? && inv.issuedAt.Some? && inv.issuedAt.value + STUCK_CHARGE_AFTER <= clock
           && !Exists(attempts, SinceIssue(n, inv.issuedAt.value)) {
          ids := ids + [n];
        }
        n := n + 1;
      }
    }

    // ---- Renewal and activation cycles ----

    /** _renew_if_still_due, _activate_if_still_expired */
    method HandleOneSubscription(h: Handler, x: nat)
      requires Valid()
      modifies this`subs, this`invoices, this`queue, this`steps
      ensures Valid() && Data() == Handle(old(Data()), h, x)
    {
      if x < |subs| && Ready(h, subs[x], clock) {
        match h
        case RenewIfStillDue => var reply := RenewSubscription(x);
        case ActivateIfStillExpired => var reply := ActivateSubscription(x);
      }
    }

    /** run_renewals, run_trial_activations and _run_batch */
    method RunBatch(h: Handler)
      requires Valid()
      modifies this`subs, this`invoices, this`queue, this`steps
      ensures Valid() && Data() == RunCycle(old(Data()), h)
    {
      hide Run, Exec, Handle;
      var ids := ReadyIds(h, subs, clock, |subs|);
      ghost var before := Data();
      var k := 0;
      while k < |ids|
        invariant k <= |ids| && Valid() && Data() == Batch(before, h, ids[..k])
      {
        HandleOneSubscription(h, ids[k]);
        assert ids[..k + 1][..k] == ids[..k];
        k := k + 1;
      }
      assert ids[..k] == ids;
    }

    // ---- Parents ----

    method SaveCustomerRow(c: nat, row: Customer) returns (ok: bool)
      requires Valid()
      modifies this`customers, this`steps
      ensures Valid() && steps == old(steps) + [SaveCustomerStep(c, row)]
      ensures ok == SaveCustomer(old(Data()), c, row).Ok?
      ensures Data() == Committed(old(Data()), SaveCustomer(old(Data()), c, row))
    {
      ok := true;
      if c == |customers| {
        customers := customers + [row];
      } else if c > |customers| ||
          (row.org != customers[c].org && exists x :: 0 <= x < |subs| && subs[x].customer == c) {
        ok := false;
      } else {
        customers := customers[c := row];
      }
      Commit(SaveCustomerStep(c, row));
    }

    method SavePlanRow(p: nat, row: Plan) returns (ok: bool)
      requires Valid()
      modifies this`plans, this`steps
      ensures Valid() && steps == old(steps) + [SavePlanStep(p, row)]
      ensures ok == SavePlan(old(Data()), p, row).Ok?
      ensures Data() == Committed(old(Data()), SavePlan(old(Data()), p, row))
    {
      ok := true;
      if p == |plans| {
        plans := plans + [row];
      } else if p > |plans| || (row.org != plans[p].org && exists x :: 0 <= x < |subs| && subs[x].plan == p) {
        ok := false;
      } else {
        plans := plans[p := row];
      }
      Commit(SavePlanStep(p, row));
    }

    method AdvanceClock(now: Time)
      requires Valid()
      modifies this`clock, this`steps
      ensures Valid() && steps == old(steps) + [Tick(now)]
      ensures clock == if old(clock) <= now then now else old(clock)
    {
      if clock <= now {
        clock := now;
      }
      Commit(Tick(now));
    }
  }

  /** After any sequence of the transaction methods, which are those that require and ensure
      Valid(), the rows satisfy the joint invariant and every receipt answers the request of one
      of the attempts. */
  lemma EngineFacts(e: BillingEngine)
    requires e.Valid()
    ensures Inv(e.Data()) && Books(e.Data())
  {
    Reachable(e.steps);
    ReachableBooks(e.steps);
  }
}
