/** What a run can never undo. */
module History {
  import opened Tables
  import opened Services
  import opened Counting
  import opened Invariant
  import opened Preservation

  /** A successful attempt stays successful, a flagged one is never touched again, nothing
      becomes PENDING again, a stored charge id is never replaced, the request never changes. */
  predicate AttemptLater(u: Attempt, v: Attempt) {
    && AttemptKept(u, v)
    && (u.status.Success? ==> v.status.Success?)
    && (v.status.Pending? ==> u.status.Pending?)
    && (v.status.Declined? ==> !u.status.Success?)
    && (u.flagged ==> v == u)
    && (u.chargeId != "" ==> v.chargeId == u.chargeId)
  }

  /** PAID, CANCELED and OVERDUE are final for an invoice. */
  predicate InvoiceLater(u: Invoice, v: Invoice) {
    && InvoiceKept(u, v)
    && (u.status.Paid? || u.status.Canceled? || u.status.Overdue? ==> v == u)
  }

  /** CANCELED is final for a subscription; its period and reason stay too. */
  predicate SubLater(u: Subscription, v: Subscription) {
    && u.org == v.org && u.customer == v.customer && u.plan == v.plan
    && (u.status.SubCanceled? ==> v == u)
    && (v.status.Trial? ==> u.status.Trial?)
    && u.periodStart <= v.periodStart
  }

  ghost predicate RowsLater(s: Db, t: Db) {
    && s.clock <= t.clock && s.events <= t.events && s.receipts <= t.receipts
    && |s.subs| <= |t.subs| && |s.invoices| <= |t.invoices| && |s.attempts| <= |t.attempts|
    && (forall x :: 0 <= x < |s.subs| ==> SubLater(s.subs[x], t.subs[x]))
    && (forall i :: 0 <= i < |s.invoices| ==> InvoiceLater(s.invoices[i], t.invoices[i]))
    && (forall a :: 0 <= a < |s.attempts| ==> AttemptLater(s.attempts[a], t.attempts[a]))
  }

  predicate CanceledIn(s: Db, x: nat) {
    x < |s.subs| && s.subs[x].status.SubCanceled?
  }

  /** A canceled subscription gets no new invoice, no new attempt and no new success, and
      its invoices keep their status. */
  ghost predicate Frozen(s: Db, t: Db)
    requires |s.invoices| <= |t.invoices| && |s.attempts| <= |t.attempts|
  {
    && (forall i :: |s.invoices| <= i < |t.invoices| ==> !CanceledIn(s, t.invoices[i].subscription))
    && (forall a :: |s.attempts| <= a < |t.attempts| ==> !CanceledIn(s, OwnerOf(t, a)))
    && (forall i :: 0 <= i < |s.invoices| && CanceledIn(s, s.invoices[i].subscription) ==>
          t.invoices[i] == s.invoices[i])
    && (forall a :: 0 <= a < |s.attempts| && CanceledIn(s, OwnerOf(s, a)) && t.attempts[a].status.Success?
          ==> s.attempts[a].status.Success?)
  }

  ghost predicate Later(s: Db, t: Db) {
    RowsLater(s, t) && Frozen(s, t)
  }

  lemma LaterTransitive(s: Db, t: Db, u: Db)
    requires Later(s, t) && Later(t, u)
    ensures Later(s, u)
  {
    assert forall x :: 0 <= x < |s.subs| ==> SubLater(s.subs[x], t.subs[x]) && SubLater(t.subs[x], u.subs[x]);
    forall i | 0 <= i < |s.invoices|
      ensures InvoiceLater(s.invoices[i], u.invoices[i])
    {
      assert InvoiceLater(s.invoices[i], t.invoices[i]) && InvoiceLater(t.invoices[i], u.invoices[i]);
    }
    forall a | 0 <= a < |s.attempts|
      ensures AttemptLater(s.attempts[a], u.attempts[a])
    {
      assert AttemptLater(s.attempts[a], t.attempts[a]) && AttemptLater(t.attempts[a], u.attempts[a]);
    }
    FrozenTransitive(s, t, u);
  }

  lemma FrozenTransitive(s: Db, t: Db, u: Db)
    requires Later(s, t) && Later(t, u)
    ensures |s.invoices| <= |u.invoices| && |s.attempts| <= |u.attempts| && Frozen(s, u)
  {
    assert forall x :: 0 <= x < |s.subs| ==> SubLater(s.subs[x], t.subs[x]);
    assert forall i :: 0 <= i < |t.invoices| ==> InvoiceLater(t.invoices[i], u.invoices[i]);
    assert forall i :: 0 <= i < |s.invoices| ==> InvoiceLater(s.invoices[i], t.invoices[i]);
    assert forall a :: 0 <= a < |t.attempts| ==> AttemptLater(t.attempts[a], u.attempts[a]);
    assert forall a :: 0 <= a < |s.attempts| ==> AttemptLater(s.attempts[a], t.attempts[a]);
  }

  lemma LaterReflexive(s: Db)
    ensures Later(s, s)
  {
  }

  lemma WriteLater(s: Db, a: nat, charge: string, r: SettleRows)
    requires a < |s.attempts| && Outcome(SettleRead(s, a, charge), r) && Marked(SettleRead(s, a, charge), charge, r)
    requires Statuses(s)
    ensures Later(s, Write(s, a, r))
  {
    var i := s.attempts[a].invoice;
    assert Allowed(s.subs[s.invoices[i].subscription].status, s.invoices[i].status);
  }

  lemma SettleLater(s: Db, a: nat, success: bool, charge: string)
    requires a < |s.attempts| && Statuses(s)
    ensures Later(s, Settle(s, a, success, charge))
  {
    SettledOutcome(SettleRead(s, a, charge), success, charge);
    WriteLater(s, a, charge, Settled(SettleRead(s, a, charge), success, charge));
  }

  lemma WebhookLater(s: Db, d: Delivery)
    requires Statuses(s)
    ensures Later(s, Committed(s, Webhook(s, d)))
  {
    hide Settle, Exists;
    if WellFormed(d) && !EventSeen(s.events, d.provider, d.eventId.t) && PaymentOf(s, d).Some? {
      var t := Recorded(s, d);
      SettleLater(t, PaymentOf(s, d).value, d.payload.status == Text("success"), d.payload.chargeId.t);
      LaterTransitive(s, t, Committed(s, Webhook(s, d)));
    }
  }

  lemma CancelLater(s: Db, x: nat)
    requires Statuses(s)
    ensures Later(s, Committed(s, Cancel(s, x, Voluntary)))
  {
  }

  lemma GiveUpLater(s: Db, i: nat)
    requires i < |s.invoices| && s.invoices[i].status.Failed? && Statuses(s)
    ensures !s.subs[s.invoices[i].subscription].status.SubCanceled? && Later(s, GiveUp(s, i))
  {
    assert Allowed(s.subs[s.invoices[i].subscription].status, s.invoices[i].status);
  }

  lemma DunLater(s: Db, i: nat)
    requires Statuses(s)
    ensures Later(s, Committed(s, Dun(s, i)))
  {
    DunCases(s, i);
    if i < |s.invoices| && s.invoices[i].status.Failed? {
      if Count(s.attempts, i, Declined) < MAX_DUNNING_ATTEMPTS {
        assert Allowed(s.subs[s.invoices[i].subscription].status, s.invoices[i].status);
        assert Later(s, Reissue(s, i));
      } else {
        GiveUpLater(s, i);
      }
    }
  }

  lemma StartPeriodLater(s: Db, x: nat)
    requires x < |s.subs| && !s.subs[x].status.SubCanceled? && Timed(s)
    ensures Later(s, StartPeriod(s, x))
  {
  }

  lemma PrepareLater(s: Db, i: nat, key: string, issuedOnly: bool, providerKey: string)
    ensures Later(s, Prepare(s, i, key, issuedOnly, providerKey).0)
  {
    PrepareInserts(s, i, key, issuedOnly, providerKey);
  }

  lemma OutsideLater(s: Db, step: Step)
    requires step.Tick? || step.CallStep? || step.LoseTask? || step.RedeliverTask? || step.SaveCustomerStep? ||
        step.SavePlanStep?
    ensures Later(s, Exec(s, step))
  {
    var t := Exec(s, step);
    assert t.subs == s.subs && t.invoices == s.invoices && t.attempts == s.attempts;
  }

  lemma GenerateLater(s: Db, x: nat)
    requires x < |s.subs|
    ensures Later(s, Generate(s, x))
  {
  }

  lemma CreateLater(s: Db, c: nat, p: nat)
    ensures Later(s, Committed(s, Create(s, c, p)))
  {
    if Create(s, c, p).Ok? {
      var started := Started(s, c, p);
      assert Later(s, started);
      GenerateLater(started, |s.subs|);
      LaterTransitive(s, started, Generate(started, |s.subs|));
    }
  }

  lemma LifecycleLater(s: Db, step: Step)
    requires Statuses(s) && Timed(s) && (step.ActivateStep? || step.RenewStep? || step.CancelStep?)
    ensures Later(s, Exec(s, step))
  {
    var x := step.sub;
    if step.CancelStep? {
      CancelLater(s, x);
    } else if x < |s.subs| && (if step.ActivateStep? then s.subs[x].status.Trial? else IsDue(s.subs[x], s.clock)) {
      StartPeriodLater(s, x);
    } else {
      assert Exec(s, step) == s;
    }
  }

  lemma ExecLater(s: Db, step: Step)
    requires Statuses(s) && Timed(s)
    ensures Later(s, Exec(s, step))
  {
    hide Later;
    match step
    case CreateStep(c, p) => CreateLater(s, c, p);
    case ActivateStep(_) => LifecycleLater(s, step);
    case RenewStep(_) => LifecycleLater(s, step);
    case CancelStep(_) => LifecycleLater(s, step);
    case DunStep(i) => DunLater(s, i);
    case PrepareStep(i, key, issuedOnly, providerKey) => PrepareLater(s, i, key, issuedOnly, providerKey);
    case SettleStep(a, success, charge) =>
      if a < |s.attempts| { SettleLater(s, a, success, charge); } else { LaterReflexive(s); }
    case WebhookStep(d) => WebhookLater(s, d);
    case _ => OutsideLater(s, step);
  }

  /** Nothing final is undone by any later steps. */
  lemma {:induction false} RunLater(s: Db, steps: seq<Step>)
    requires Inv(s)
    ensures Later(s, Run(s, steps))
  {
    hide Exec, Later;
    if steps == [] {
      LaterReflexive(s);
    } else {
      var before := steps[..|steps| - 1];
      RunLater(s, before);
      RunKeeps(s, before);
      ExecLater(Run(s, before), steps[|steps| - 1]);
      LaterTransitive(s, Run(s, before), Run(s, steps));
    }
  }

  // ---- What this means for every run ----

  ghost predicate AllInvoices(s: Db, x: nat, statuses: set<InvoiceStatus>) {
    forall i :: 0 <= i < |s.invoices| && s.invoices[i].subscription == x ==> s.invoices[i].status in statuses
  }

  /** Which invoice statuses stand beside a subscription status, in every run. */
  lemma JointStatuses(steps: seq<Step>, x: nat)
    requires x < |Run(Empty(), steps).subs|
    ensures
      var s := Run(Empty(), steps);
      match s.subs[x].status
      case Trial => AllInvoices(s, x, {})
      case Active => AllInvoices(s, x, {Issued, Paid})
      case SubOverdue => AllInvoices(s, x, {Issued, Failed, Paid}) && !AllInvoices(s, x, {Paid})
      case SubCanceled => AllInvoices(s, x, {Paid, Canceled, Overdue})
  {
    hide Run, Scoped, Timed, Tallies, Charges, Reasons, Periods;
    Reachable(steps);
    var s := Run(Empty(), steps);
    forall i | 0 <= i < |s.invoices| && s.invoices[i].subscription == x
      ensures Allowed(s.subs[x].status, s.invoices[i].status)
    {
    }
    if s.subs[x].status.SubOverdue? {
      var i :| 0 <= i < |s.invoices| && Unpaid(s.invoices[i], x);
      assert s.invoices[i].status !in {Paid};
    }
  }

  /** After a cancellation the subscription row is frozen, its invoices keep their number and
      status, no attempt is created for it and none of its attempts becomes successful. */
  lemma CancellationIsFinal(before: seq<Step>, after: seq<Step>, x: nat)
    requires CanceledIn(Run(Empty(), before), x)
    ensures
      var s := Run(Empty(), before);
      var t := Run(s, after);
      && |s.subs| <= |t.subs| && t.subs[x] == s.subs[x]
      && (forall i :: 0 <= i < |t.invoices| && t.invoices[i].subscription == x ==>
            i < |s.invoices| && t.invoices[i] == s.invoices[i])
      && (forall a :: 0 <= a < |t.attempts| && OwnerOf(t, a) == x ==>
            a < |s.attempts| && (t.attempts[a].status.Success? <==> s.attempts[a].status.Success?))
  {
    hide Run, Inv;
    Reachable(before);
    var s := Run(Empty(), before);
    var t := Run(s, after);
    RunLater(s, after);
    assert SubLater(s.subs[x], t.subs[x]);
    forall i | 0 <= i < |t.invoices| && t.invoices[i].subscription == x
      ensures i < |s.invoices| && t.invoices[i] == s.invoices[i]
    {
      if i < |s.invoices| { assert InvoiceLater(s.invoices[i], t.invoices[i]); }
    }
    forall a | 0 <= a < |t.attempts| && OwnerOf(t, a) == x
      ensures a < |s.attempts| && (t.attempts[a].status.Success? <==> s.attempts[a].status.Success?)
    {
      if a < |s.attempts| {
        assert AttemptLater(s.attempts[a], t.attempts[a]);
        assert InvoiceLater(s.invoices[s.attempts[a].invoice], t.invoices[s.attempts[a].invoice]);
      }
    }
  }

  /** A success that arrives after the cancellation sets the flag (and may store its charge id). */
  lemma LateSuccessOnlyFlags(s: Db, a: nat, charge: string)
    requires a < |s.attempts| && CanceledIn(s, OwnerOf(s, a))
    ensures
      var t := Settle(s, a, true, charge);
      && t == s.(attempts := t.attempts)
      && t.attempts == s.attempts[a := t.attempts[a]]
      && t.attempts[a] == s.attempts[a].(flagged := t.attempts[a].flagged, chargeId := t.attempts[a].chargeId)
      && (!s.attempts[a].status.Success? ==> t.attempts[a].flagged)
      && (s.attempts[a].flagged ==> t == s)
  {
  }

  /** An invoice is PAID exactly when one attempt succeeded; it never has two successes, nor
      two attempts in flight. */
  lemma PaidIffOneSuccess(steps: seq<Step>, i: nat)
    requires i < |Run(Empty(), steps).invoices|
    ensures
      var s := Run(Empty(), steps);
      && (s.invoices[i].status.Paid? <==>
            exists a :: 0 <= a < |s.attempts| && s.attempts[a].invoice == i && s.attempts[a].status.Success?)
      && (forall a, b :: 0 <= a < b < |s.attempts| && s.attempts[a].invoice == i && s.attempts[b].invoice == i ==>
            !(s.attempts[a].status.Success? && s.attempts[b].status.Success?)
            && !(s.attempts[a].status.Pending? && s.attempts[b].status.Pending?))
  {
    Reachable(steps);
    var s := Run(Empty(), steps);
    assert TallyOk(s.attempts, i, s.invoices[i].status);
    if s.invoices[i].status.Paid? {
      var a := CountSome(s.attempts, i, Success);
    }
    forall a | 0 <= a < |s.attempts| && s.attempts[a].invoice == i && s.attempts[a].status.Success?
      ensures s.invoices[i].status.Paid?
    {
      CountThese(s.attempts, i, Success, a);
    }
    forall a, b | 0 <= a < b < |s.attempts| && s.attempts[a].invoice == i && s.attempts[b].invoice == i
      ensures !(s.attempts[a].status.Success? && s.attempts[b].status.Success?)
           && !(s.attempts[a].status.Pending? && s.attempts[b].status.Pending?)
    {
      if s.attempts[a].status == s.attempts[b].status {
        CountTwo(s.attempts, i, s.attempts[a].status, a, b);
      }
    }
  }

  /** A subscription ends for non-payment exactly when one of its invoices is OVERDUE; that
      invoice is the only one, has at least MAX_DUNNING_ATTEMPTS declined attempts, and keeps
      both whatever happens later. */
  lemma EndedForNonPayment(before: seq<Step>, after: seq<Step>, x: nat)
    requires x < |Run(Empty(), before).subs|
    ensures
      var s := Run(Empty(), before);
      var t := Run(s, after);
      && (s.subs[x].reason == Some(NonPayment) <==> HasGivenUp(s.invoices, x))
      && (forall i :: 0 <= i < |s.invoices| && GivenUp(s.invoices[i], x) ==>
            && s.subs[x].status.SubCanceled?
            && i < |t.invoices| && t.invoices[i] == s.invoices[i]
            && Count(t.attempts, i, Declined) >= MAX_DUNNING_ATTEMPTS
            && (forall j :: 0 <= j < |s.invoices| && GivenUp(s.invoices[j], x) ==> j == i))
  {
    hide Run, Scoped, Timed, Charges, Periods, Frozen;
    Reachable(before);
    var s := Run(Empty(), before);
    var t := Run(s, after);
    RunKeeps(s, after);
    RunLater(s, after);
    forall i | 0 <= i < |s.invoices| && GivenUp(s.invoices[i], x)
      ensures s.subs[x].status.SubCanceled? && s.subs[x].reason == Some(NonPayment)
           && i < |t.invoices| && t.invoices[i] == s.invoices[i]
           && Count(t.attempts, i, Declined) >= MAX_DUNNING_ATTEMPTS
           && (forall j :: 0 <= j < |s.invoices| && GivenUp(s.invoices[j], x) ==> j == i)
    {
      assert InvoiceLater(s.invoices[i], t.invoices[i]);
      assert TallyOk(t.attempts, i, t.invoices[i].status);
      assert forall j :: 0 <= j < |s.invoices| && j != i ==> !BothGivenUp(s.invoices[i], s.invoices[j]);
    }
  }
}
