/** Every step keeps the joint invariant. */
module Preservation {
  import opened Calendar
  import opened Tables
  import opened Services
  import opened Counting
  import opened Invariant

  // ---- Steps that rewrite rows without inserting any ----

  predicate SubKept(u: Subscription, v: Subscription) {
    && u.org == v.org && u.customer == v.customer && u.plan == v.plan
    && u.periodStart == v.periodStart && u.periodEnd == v.periodEnd
    && (v.status.Trial? ==> u.status.Trial?)
    && (v.status.Active? || v.status.SubOverdue? ==> u.status.Active? || u.status.SubOverdue?)
  }

  predicate InvoiceKept(u: Invoice, v: Invoice) {
    && u.org == v.org && u.subscription == v.subscription && u.total == v.total && u.currency == v.currency
    && u.periodStart == v.periodStart && u.periodEnd == v.periodEnd
  }

  predicate AttemptKept(u: Attempt, v: Attempt) {
    && u.org == v.org && u.invoice == v.invoice && u.request == v.request
    && u.clientKey == v.clientKey && u.attemptedAt == v.attemptedAt
  }

  /** No insertion, and rows change only in their status, issue time, charge id and flag. */
  ghost predicate Rewrites(s: Db, t: Db) {
    && s.clock == t.clock && s.customers == t.customers && s.plans == t.plans
    && |s.subs| == |t.subs| && |s.invoices| == |t.invoices| && |s.attempts| == |t.attempts|
    && (forall x :: 0 <= x < |s.subs| ==> SubKept(s.subs[x], t.subs[x]))
    && (forall i :: 0 <= i < |s.invoices| ==> InvoiceKept(s.invoices[i], t.invoices[i]))
    && (forall a :: 0 <= a < |s.attempts| ==> AttemptKept(s.attempts[a], t.attempts[a]))
  }

  lemma RewriteScoped(s: Db, t: Db)
    requires Scoped(s) && Rewrites(s, t)
    ensures Scoped(t)
  {
  }

  lemma PeriodInvoiceKept(before: seq<Invoice>, after: seq<Invoice>, x: nat, start: Time, end: Time)
    requires |before| <= |after| && (forall i :: 0 <= i < |before| ==> InvoiceKept(before[i], after[i]))
    requires HasPeriodInvoice(before, x, start, end)
    ensures HasPeriodInvoice(after, x, start, end)
  {
    var k :| 0 <= k < |before| && before[k].subscription == x
             && before[k].periodStart == start && before[k].periodEnd == end;
    assert InvoiceKept(before[k], after[k]);
  }

  lemma RewritePeriods(s: Db, t: Db)
    requires Periods(s) && Rewrites(s, t)
    ensures Periods(t)
  {
    forall i, j | 0 <= i < |t.invoices| && 0 <= j < |t.invoices| && i != j
      ensures Disjoint(t.invoices[i], t.invoices[j])
    {
      assert InvoiceKept(s.invoices[i], t.invoices[i]) && InvoiceKept(s.invoices[j], t.invoices[j]);
      assert Disjoint(s.invoices[i], s.invoices[j]);
    }
    forall x | 0 <= x < |t.subs| && (t.subs[x].status.Active? || t.subs[x].status.SubOverdue?)
      ensures HasPeriodInvoice(t.invoices, x, t.subs[x].periodStart, t.subs[x].periodEnd)
    {
      assert SubKept(s.subs[x], t.subs[x]);
      PeriodInvoiceKept(s.invoices, t.invoices, x, t.subs[x].periodStart, t.subs[x].periodEnd);
    }
  }

  /** An invoice may be closed, reissued, or given up on after enough declines, without any new attempt. */
  predicate Fits(rows: seq<Attempt>, i: nat, before: InvoiceStatus, after: InvoiceStatus) {
    || before == after
    || (!before.Paid? && (after.Canceled? || after.Issued?))
    || (!before.Paid? && after.Overdue? && Count(rows, i, Declined) >= MAX_DUNNING_ATTEMPTS)
  }

  lemma RewriteTallies(s: Db, t: Db)
    requires Tallies(s) && |s.invoices| == |t.invoices| && s.attempts == t.attempts
    requires forall i :: 0 <= i < |s.invoices| ==> Fits(s.attempts, i, s.invoices[i].status, t.invoices[i].status)
    ensures Tallies(t)
  {
    forall i | 0 <= i < |t.invoices|
      ensures TallyOk(t.attempts, i, t.invoices[i].status)
    {
      assert TallyOk(s.attempts, i, s.invoices[i].status);
    }
  }

  predicate IssueTimeKept(u: Invoice, v: Invoice, now: Time) {
    v.issuedAt == u.issuedAt || v.issuedAt == Some(now)
  }

  /** Rewrites that leave the attempts alone need only their status arguments. */
  lemma QuietKeeps(s: Db, t: Db)
    requires Inv(s) && Rewrites(s, t) && s.attempts == t.attempts
    requires forall i :: 0 <= i < |s.invoices| ==> IssueTimeKept(s.invoices[i], t.invoices[i], s.clock)
    requires forall i :: 0 <= i < |s.invoices| ==> Fits(s.attempts, i, s.invoices[i].status, t.invoices[i].status)
    requires Statuses(t) && Reasons(t)
    ensures Inv(t)
  {
    RewriteScoped(s, t);
    RewritePeriods(s, t);
    RewriteTallies(s, t);
    QuietTimed(s, t);
  }

  lemma QuietTimed(s: Db, t: Db)
    requires Timed(s) && Rewrites(s, t)
    requires forall i :: 0 <= i < |s.invoices| ==> IssueTimeKept(s.invoices[i], t.invoices[i], s.clock)
    ensures Timed(t)
  {
    forall i | 0 <= i < |t.invoices|
      ensures t.invoices[i].periodStart < t.invoices[i].periodEnd
           && t.invoices[i].issuedAt.Some? && t.invoices[i].issuedAt.value <= t.clock
    {
      assert InvoiceKept(s.invoices[i], t.invoices[i]) && IssueTimeKept(s.invoices[i], t.invoices[i], s.clock);
    }
  }

  // ---- settle ----

  predicate Blocked(f: SettleFacts) {
    f.sub.status.SubCanceled? || !Payable(f.invoice.status) || f.otherSuccess
  }

  /** The three things a settlement can do: touch the attempt only, pay, or decline. */
  predicate Outcome(f: SettleFacts, r: SettleRows) {
    || (r.sub == f.sub && r.invoice == f.invoice && r.payment.status == f.payment.status)
    || (&& !Blocked(f) && !f.payment.status.Success? && r.payment.status.Success?
        && r.invoice == f.invoice.(status := Paid)
        && r.sub == if f.sub.status.SubOverdue? && !f.otherArrears then f.sub.(status := Active) else f.sub)
    || (&& f.payment.status.Pending? && r.payment.status.Declined? && Blocked(f)
        && r.sub == f.sub && r.invoice == f.invoice)
    || (&& f.payment.status.Pending? && r.payment.status.Declined? && !Blocked(f)
        && r.invoice == (if f.invoice.status.Issued? then f.invoice.(status := Failed) else f.invoice)
        && r.sub == if f.sub.status.Active? then f.sub.(status := SubOverdue) else f.sub)
  }

  /** What a settlement can do to the attempt it settles. */
  predicate Marked(f: SettleFacts, charge: string, r: SettleRows) {
    && AttemptKept(f.payment, r.payment)
    && (r.payment.chargeId == f.payment.chargeId
        || (f.payment.chargeId == "" && r.payment.chargeId == charge != "" && !f.taken))
    && (MayCharge(r.payment) ==> r.payment == f.payment)
    && (f.payment.flagged ==> r.payment == f.payment)
  }

  lemma SettledOutcome(f: SettleFacts, success: bool, charge: string)
    ensures Outcome(f, Settled(f, success, charge))
    ensures Marked(f, charge, Settled(f, success, charge))
  {
  }

  lemma WriteRewrites(s: Db, a: nat, charge: string, r: SettleRows)
    requires a < |s.attempts| && Outcome(SettleRead(s, a, charge), r) && Marked(SettleRead(s, a, charge), charge, r)
    ensures Rewrites(s, Write(s, a, r))
  {
  }

  lemma WriteTimed(s: Db, a: nat, charge: string, r: SettleRows)
    requires a < |s.attempts| && Outcome(SettleRead(s, a, charge), r) && Marked(SettleRead(s, a, charge), charge, r)
    requires Timed(s)
    ensures Timed(Write(s, a, r))
  {
  }

  lemma UnpaidKept(invoices: seq<Invoice>, i: nat, row: Invoice, x: nat)
    requires i < |invoices| && HasUnpaid(invoices, x)
    requires Unpaid(invoices[i], x) ==> Unpaid(row, x)
    ensures HasUnpaid(invoices[i := row], x)
  {
    var k :| 0 <= k < |invoices| && Unpaid(invoices[k], x);
    assert Unpaid(invoices[i := row][k], x);
  }

  lemma WriteStatuses(s: Db, a: nat, charge: string, r: SettleRows)
    requires a < |s.attempts| && Outcome(SettleRead(s, a, charge), r) && Marked(SettleRead(s, a, charge), charge, r)
    requires Statuses(s)
    ensures Statuses(Write(s, a, r))
  {
    var t := Write(s, a, r);
    var i, owner := s.attempts[a].invoice, OwnerOf(s, a);
    forall x | 0 <= x < |t.subs| && t.subs[x].status.SubOverdue?
      ensures HasUnpaid(t.invoices, x)
    {
      if x != owner {
        UnpaidKept(s.invoices, i, r.invoice, x);
      } else if r.invoice.status.Paid? && !s.invoices[i].status.Paid? {
        var k :| 0 <= k < |s.invoices| && k != i && InArrears(s.invoices[k], x);
        assert Unpaid(t.invoices[k], x);
      } else if s.subs[x].status.SubOverdue? {
        UnpaidKept(s.invoices, i, r.invoice, x);
      } else {
        assert Unpaid(t.invoices[i], x);
      }
    }
  }

  /** A successful attempt beside attempt `a` is one the settlement sees. */
  lemma OtherSuccessSeen(s: Db, a: nat)
    requires a < |s.attempts| && !s.attempts[a].status.Success?
    ensures Count(s.attempts, s.attempts[a].invoice, Success) > 0
            ==> Exists(s.attempts, SuccessOfOther(s.attempts[a].invoice, a))
  {
    if Count(s.attempts, s.attempts[a].invoice, Success) > 0 {
      var b := CountSome(s.attempts, s.attempts[a].invoice, Success);
      assert Matches(SuccessOfOther(s.attempts[a].invoice, a), s.attempts[b], b);
    }
  }

  lemma WriteTallies(s: Db, a: nat, charge: string, r: SettleRows)
    requires a < |s.attempts| && Outcome(SettleRead(s, a, charge), r) && Marked(SettleRead(s, a, charge), charge, r)
    requires Tallies(s)
    ensures Tallies(Write(s, a, r))
  {
    var t := Write(s, a, r);
    var i := s.attempts[a].invoice;
    if !s.attempts[a].status.Success? { OtherSuccessSeen(s, a); }
    forall k | 0 <= k < |t.invoices|
      ensures TallyOk(t.attempts, k, t.invoices[k].status)
    {
      CountUpdate(s.attempts, a, r.payment, k, Success);
      CountUpdate(s.attempts, a, r.payment, k, Pending);
      CountUpdate(s.attempts, a, r.payment, k, Declined);
      assert TallyOk(s.attempts, k, s.invoices[k].status);
    }
  }

  lemma WriteCharges(s: Db, a: nat, charge: string, r: SettleRows)
    requires a < |s.attempts| && Outcome(SettleRead(s, a, charge), r) && Marked(SettleRead(s, a, charge), charge, r)
    requires Charges(s)
    ensures Charges(Write(s, a, r))
  {
    var rows := s.attempts[a := r.payment];
    forall b | 0 <= b < |rows| && b != a
      ensures Apart(rows[a], rows[b]) && Apart(rows[b], rows[a])
    {
      assert Apart(s.attempts[a], s.attempts[b]) && Apart(s.attempts[b], s.attempts[a]);
      assert Matches(BoundToOther(charge, a), s.attempts[b], b) <==> s.attempts[b].chargeId == charge;
    }
  }

  lemma GivenUpKept(invoices: seq<Invoice>, i: nat, row: Invoice, x: nat)
    requires i < |invoices| && HasGivenUp(invoices, x)
    requires GivenUp(invoices[i], x) ==> GivenUp(row, x)
    ensures HasGivenUp(invoices[i := row], x)
  {
    var k :| 0 <= k < |invoices| && GivenUp(invoices[k], x);
    assert GivenUp(invoices[i := row][k], x);
  }

  lemma WriteReasons(s: Db, a: nat, charge: string, r: SettleRows)
    requires a < |s.attempts| && Outcome(SettleRead(s, a, charge), r) && Marked(SettleRead(s, a, charge), charge, r)
    requires Reasons(s) && Statuses(s)
    ensures Reasons(Write(s, a, r))
  {
    var t := Write(s, a, r);
    forall x | 0 <= x < |t.subs| && t.subs[x].reason == Some(NonPayment)
      ensures HasGivenUp(t.invoices, x)
    {
      GivenUpKept(s.invoices, s.attempts[a].invoice, r.invoice, x);
    }
    forall j, k | 0 <= j < |t.invoices| && 0 <= k < |t.invoices| && j != k
      ensures !BothGivenUp(t.invoices[j], t.invoices[k])
    {
      assert !BothGivenUp(s.invoices[j], s.invoices[k]);
    }
  }

  /** One subscription and one invoice change at most their status, the attempt its status,
      charge id and flag, and nothing else changes. */
  ghost predicate SettlesOnly(s: Db, t: Db, a: nat)
    requires a < |s.attempts|
  {
    var (i, x) := (s.attempts[a].invoice, OwnerOf(s, a));
    && |t.subs| == |s.subs| && |t.invoices| == |s.invoices| && |t.attempts| == |s.attempts|
    && t == s.(
         subs := s.subs[x := s.subs[x].(status := t.subs[x].status)],
         invoices := s.invoices[i := s.invoices[i].(status := t.invoices[i].status)],
         attempts := s.attempts[a := s.attempts[a].(
           status := t.attempts[a].status, chargeId := t.attempts[a].chargeId, flagged := t.attempts[a].flagged)])
  }

  lemma SettleIsOnly(s: Db, a: nat, success: bool, charge: string)
    requires a < |s.attempts|
    ensures SettlesOnly(s, Settle(s, a, success, charge), a)
  {
    hide Settled, Exists, OtherArrears;
  }

  lemma SettleKeeps(s: Db, a: nat, success: bool, charge: string)
    requires a < |s.attempts| && Inv(s)
    ensures Inv(Settle(s, a, success, charge)) && SettlesOnly(s, Settle(s, a, success, charge), a)
  {
    SettleIsOnly(s, a, success, charge);
    var r := Settled(SettleRead(s, a, charge), success, charge);
    SettledOutcome(SettleRead(s, a, charge), success, charge);
    WriteRewrites(s, a, charge, r);
    RewriteScoped(s, Write(s, a, r));
    RewritePeriods(s, Write(s, a, r));
    WriteTimed(s, a, charge, r);
    WriteStatuses(s, a, charge, r);
    WriteTallies(s, a, charge, r);
    WriteCharges(s, a, charge, r);
    WriteReasons(s, a, charge, r);
  }

  // ---- cancel ----

  lemma CancelRewrites(s: Db, x: nat, reason: Reason)
    requires x < |s.subs| && !s.subs[x].status.SubCanceled?
    ensures Rewrites(s, Cancel(s, x, reason).value)
  {
  }

  lemma ClosedUnpaid(invoices: seq<Invoice>, x: nat, y: nat)
    requires HasUnpaid(invoices, y) && x != y
    ensures HasUnpaid(CloseOpen(invoices, x), y)
  {
    var k :| 0 <= k < |invoices| && Unpaid(invoices[k], y);
    assert Unpaid(CloseOpen(invoices, x)[k], y);
  }

  lemma ClosedGivenUp(invoices: seq<Invoice>, x: nat, y: nat)
    requires HasGivenUp(invoices, y)
    ensures HasGivenUp(CloseOpen(invoices, x), y)
  {
    var k :| 0 <= k < |invoices| && GivenUp(invoices[k], y);
    assert GivenUp(CloseOpen(invoices, x)[k], y);
  }

  /** A voluntary cancellation; the subscription is not canceled yet. */
  lemma CancelKeeps(s: Db, x: nat)
    requires x < |s.subs| && !s.subs[x].status.SubCanceled? && Inv(s)
    ensures Inv(Cancel(s, x, Voluntary).value)
  {
    var t := Cancel(s, x, Voluntary).value;
    CancelRewrites(s, x, Voluntary);
    CancelStatuses(s, x);
    CancelReasons(s, x);
    QuietKeeps(s, t);
  }

  lemma CancelStatuses(s: Db, x: nat)
    requires x < |s.subs| && !s.subs[x].status.SubCanceled? && Statuses(s)
    ensures Statuses(Cancel(s, x, Voluntary).value)
  {
    var t := Cancel(s, x, Voluntary).value;
    forall y | 0 <= y < |t.subs| && t.subs[y].status.SubOverdue?
      ensures HasUnpaid(t.invoices, y)
    {
      ClosedUnpaid(s.invoices, x, y);
    }
  }

  lemma CancelReasons(s: Db, x: nat)
    requires x < |s.subs| && !s.subs[x].status.SubCanceled? && Reasons(s)
    ensures Reasons(Cancel(s, x, Voluntary).value)
  {
    var t := Cancel(s, x, Voluntary).value;
    forall y | 0 <= y < |t.subs| && t.subs[y].reason == Some(NonPayment)
      ensures HasGivenUp(t.invoices, y)
    {
      ClosedGivenUp(s.invoices, x, y);
    }
    forall j, k | 0 <= j < |t.invoices| && 0 <= k < |t.invoices| && j != k
      ensures !BothGivenUp(t.invoices[j], t.invoices[k])
    {
      assert !BothGivenUp(s.invoices[j], s.invoices[k]);
    }
  }

  // ---- dunning ----

  function Reissue(s: Db, i: nat): Db
    requires i < |s.invoices|
  {
    s.(invoices := s.invoices[i := s.invoices[i].(status := Issued, issuedAt := Some(s.clock))],
       queue := s.queue + multiset{i})
  }

  lemma ReissueReasons(s: Db, i: nat)
    requires i < |s.invoices| && s.invoices[i].status.Failed? && Reasons(s)
    ensures Reasons(Reissue(s, i))
  {
    var t := Reissue(s, i);
    forall y | 0 <= y < |t.subs| && t.subs[y].reason == Some(NonPayment)
      ensures HasGivenUp(t.invoices, y)
    {
      GivenUpKept(s.invoices, i, t.invoices[i], y);
    }
    forall j, k | 0 <= j < |t.invoices| && 0 <= k < |t.invoices| && j != k
      ensures !BothGivenUp(t.invoices[j], t.invoices[k])
    {
      assert !BothGivenUp(s.invoices[j], s.invoices[k]);
    }
  }

  lemma ReissueStatuses(s: Db, i: nat)
    requires i < |s.invoices| && s.invoices[i].status.Failed? && Statuses(s)
    ensures Statuses(Reissue(s, i))
  {
    var t := Reissue(s, i);
    assert s.subs[s.invoices[i].subscription].status.SubOverdue?;
    forall y | 0 <= y < |t.subs| && t.subs[y].status.SubOverdue?
      ensures HasUnpaid(t.invoices, y)
    {
      UnpaidKept(s.invoices, i, t.invoices[i], y);
    }
  }

  /** Dunning meets a FAILED invoice, so its subscription is OVERDUE: a reissue keeps the invariant. */
  lemma ReissueKeeps(s: Db, i: nat)
    requires i < |s.invoices| && s.invoices[i].status.Failed? && Inv(s)
    ensures Inv(Reissue(s, i))
  {
    hide Statuses, Reasons, Tallies, Charges, Periods, Scoped, Timed;
    var t := Reissue(s, i);
    assert Rewrites(s, t);
    ReissueStatuses(s, i);
    ReissueReasons(s, i);
    QuietKeeps(s, t);
  }

  /** Giving up on an invoice cancels its subscription in the same transaction. */
  function GiveUp(s: Db, i: nat): Db
    requires i < |s.invoices| && !s.subs[s.invoices[i].subscription].status.SubCanceled?
  {
    var x := s.invoices[i].subscription;
    s.(subs := s.subs[x := s.subs[x].(status := SubCanceled, reason := Some(NonPayment))],
       invoices := CloseOpen(s.invoices[i := s.invoices[i].(status := Overdue)], x))
  }

  lemma GiveUpStatuses(s: Db, i: nat)
    requires i < |s.invoices| && s.invoices[i].status.Failed? && Statuses(s)
    ensures s.subs[s.invoices[i].subscription].status.SubOverdue?
    ensures Statuses(GiveUp(s, i))
  {
    assert s.subs[s.invoices[i].subscription].status.SubOverdue?;
    var t := GiveUp(s, i);
    var x := s.invoices[i].subscription;
    forall y | 0 <= y < |t.subs| && t.subs[y].status.SubOverdue?
      ensures HasUnpaid(t.invoices, y)
    {
      UnpaidKept(s.invoices, i, s.invoices[i].(status := Overdue), y);
      ClosedUnpaid(s.invoices[i := s.invoices[i].(status := Overdue)], x, y);
    }
  }

  lemma GiveUpRewrites(s: Db, i: nat)
    requires i < |s.invoices| && s.invoices[i].status.Failed?
    requires s.subs[s.invoices[i].subscription].status.SubOverdue?
    ensures Rewrites(s, GiveUp(s, i)) && s.attempts == GiveUp(s, i).attempts
  {
  }

  lemma GiveUpFits(s: Db, i: nat)
    requires i < |s.invoices| && s.invoices[i].status.Failed?
    requires s.subs[s.invoices[i].subscription].status.SubOverdue?
    requires Count(s.attempts, i, Declined) >= MAX_DUNNING_ATTEMPTS
    ensures forall k :: 0 <= k < |s.invoices| ==>
              IssueTimeKept(s.invoices[k], GiveUp(s, i).invoices[k], s.clock)
              && Fits(s.attempts, k, s.invoices[k].status, GiveUp(s, i).invoices[k].status)
  {
  }

  lemma GiveUpKeeps(s: Db, i: nat)
    requires i < |s.invoices| && s.invoices[i].status.Failed? && Inv(s)
    requires Count(s.attempts, i, Declined) >= MAX_DUNNING_ATTEMPTS
    ensures s.subs[s.invoices[i].subscription].status.SubOverdue?
    ensures Inv(GiveUp(s, i))
  {
    GiveUpStatuses(s, i);
    GiveUpRewrites(s, i);
    GiveUpFits(s, i);
    GiveUpReasons(s, i);
    QuietKeeps(s, GiveUp(s, i));
  }

  lemma GiveUpReasons(s: Db, i: nat)
    requires i < |s.invoices| && s.invoices[i].status.Failed?
    requires s.subs[s.invoices[i].subscription].status.SubOverdue?
    requires Reasons(s)
    ensures Reasons(GiveUp(s, i))
  {
    var t := GiveUp(s, i);
    var x := s.invoices[i].subscription;
    forall y | 0 <= y < |t.subs| && t.subs[y].reason == Some(NonPayment)
      ensures HasGivenUp(t.invoices, y)
    {
      if y == x {
        assert GivenUp(t.invoices[i], y);
      } else {
        GivenUpKept(s.invoices, i, s.invoices[i].(status := Overdue), y);
        ClosedGivenUp(s.invoices[i := s.invoices[i].(status := Overdue)], x, y);
      }
    }
    forall j, k | 0 <= j < |t.invoices| && 0 <= k < |t.invoices| && j != k
      ensures !BothGivenUp(t.invoices[j], t.invoices[k])
    {
      assert !BothGivenUp(s.invoices[j], s.invoices[k]);
    }
  }

  /** Under the invariant dunning skips, reissues, or gives up. */
  lemma DunCases(s: Db, i: nat)
    requires Statuses(s)
    ensures Committed(s, Dun(s, i)) ==
            if i >= |s.invoices| || !s.invoices[i].status.Failed? then s
            else if Count(s.attempts, i, Declined) < MAX_DUNNING_ATTEMPTS then Reissue(s, i)
            else GiveUp(s, i)
  {
  }

  lemma DunKeeps(s: Db, i: nat)
    requires Inv(s)
    ensures Inv(Committed(s, Dun(s, i)))
  {
    DunCases(s, i);
    if i < |s.invoices| && s.invoices[i].status.Failed? {
      if Count(s.attempts, i, Declined) < MAX_DUNNING_ATTEMPTS {
        ReissueKeeps(s, i);
      } else {
        GiveUpKeeps(s, i);
      }
    }
  }

  // ---- prepare ----

  lemma NoOpenAttempt(s: Db, i: nat)
    ensures Exists(s.attempts, OpenOf(i)) <==> Count(s.attempts, i, Pending) + Count(s.attempts, i, Success) > 0
  {
    if Count(s.attempts, i, Pending) > 0 {
      var b := CountSome(s.attempts, i, Pending);
      assert Matches(OpenOf(i), s.attempts[b], b);
    }
    if Count(s.attempts, i, Success) > 0 {
      var b := CountSome(s.attempts, i, Success);
      assert Matches(OpenOf(i), s.attempts[b], b);
    }
    if Exists(s.attempts, OpenOf(i)) {
      var b := First(s.attempts, OpenOf(i)).value;
      CountThese(s.attempts, i, s.attempts[b].status, b);
    }
  }

  function Inserted(s: Db, row: Attempt): Db
    requires row.invoice < |s.invoices|
  {
    s.(attempts := s.attempts + [row])
  }

  lemma InsertTallies(s: Db, i: nat, row: Attempt)
    requires i < |s.invoices| && row.invoice == i && row.status.Pending? && Tallies(s)
    requires !Exists(s.attempts, OpenOf(i))
    ensures Tallies(Inserted(s, row))
  {
    NoOpenAttempt(s, i);
    forall k | 0 <= k < |s.invoices|
      ensures TallyOk(s.attempts + [row], k, s.invoices[k].status)
    {
      CountAppend(s.attempts, row, k, Success);
      CountAppend(s.attempts, row, k, Pending);
      CountAppend(s.attempts, row, k, Declined);
      assert TallyOk(s.attempts, k, s.invoices[k].status);
    }
  }

  lemma InsertCharges(s: Db, row: Attempt)
    requires row.invoice < |s.invoices| && row.chargeId == "" && row.clientKey != Some("") && Charges(s)
    requires !Exists(s.attempts, ByProviderKey(row.request.key))
    requires row.clientKey.Some? ==> !Exists(s.attempts, ByClientKey(row.org, row.clientKey.value))
    ensures Charges(Inserted(s, row))
  {
    var rows := s.attempts + [row];
    forall b | 0 <= b < |s.attempts|
      ensures Apart(row, s.attempts[b]) && Apart(s.attempts[b], row)
    {
      assert !Matches(ByProviderKey(row.request.key), s.attempts[b], b);
      assert row.clientKey.Some? ==> !Matches(ByClientKey(row.org, row.clientKey.value), s.attempts[b], b);
    }
  }

  lemma InsertRest(s: Db, i: nat, key: string, providerKey: string)
    requires i < |s.invoices| && Inv(s)
    ensures var t := Inserted(s, NewAttempt(i, s.invoices[i], CustomerOf(s, i), key, providerKey, s.clock));
            Scoped(t) && Timed(t) && Statuses(t) && Reasons(t) && Periods(t)
  {
    hide Tallies, Charges, PeriodEnd;
  }

  /** When _prepare inserts, the invoice has no open attempt and both keys are new. */
  lemma PrepareInserts(s: Db, i: nat, key: string, issuedOnly: bool, providerKey: string)
    ensures var t := Prepare(s, i, key, issuedOnly, providerKey).0;
            t == s
            || (&& i < |s.invoices|
                && t == Inserted(s, NewAttempt(i, s.invoices[i], CustomerOf(s, i), key, providerKey, s.clock))
                && Prepare(s, i, key, issuedOnly, providerKey).1 == Ok(Prepared(Some(|s.attempts|), true))
                && Payable(s.invoices[i].status)
                && (issuedOnly ==> s.invoices[i].status.Issued?)
                && !s.subs[s.invoices[i].subscription].status.SubCanceled?
                && !Exists(s.attempts, OpenOf(i))
                && !Exists(s.attempts, ByProviderKey(providerKey))
                && (key != "" ==> !Exists(s.attempts, ByClientKey(s.invoices[i].org, key)))
                && (s.invoices[i].status.Issued? && s.invoices[i].issuedAt.Some?
                    ==> !Exists(s.attempts, SinceIssue(i, s.invoices[i].issuedAt.value))))
  {
  }

  lemma PrepareKeeps(s: Db, i: nat, key: string, issuedOnly: bool, providerKey: string)
    requires Inv(s)
    ensures Inv(Prepare(s, i, key, issuedOnly, providerKey).0)
  {
    PrepareInserts(s, i, key, issuedOnly, providerKey);
    if Prepare(s, i, key, issuedOnly, providerKey).0 != s {
      var row := NewAttempt(i, s.invoices[i], CustomerOf(s, i), key, providerKey, s.clock);
      InsertTallies(s, i, row);
      InsertCharges(s, row);
      InsertRest(s, i, key, providerKey);
    }
  }

  // ---- create, activate, renew ----

  /** A database in which only subscription `x` may lack the invoice of its current period. */
  ghost predicate PeriodsBut(s: Db, x: nat) {
    && (forall i, j :: 0 <= i < |s.invoices| && 0 <= j < |s.invoices| && i != j ==>
          Disjoint(s.invoices[i], s.invoices[j]))
    && (forall i :: 0 <= i < |s.invoices| ==> CurrentOrPast(s.invoices[i], s.subs[s.invoices[i].subscription]))
    && (forall y :: 0 <= y < |s.subs| && y != x && (s.subs[y].status.Active? || s.subs[y].status.SubOverdue?) ==>
          HasPeriodInvoice(s.invoices, y, s.subs[y].periodStart, s.subs[y].periodEnd))
  }

  lemma GenerateTallies(s: Db, x: nat)
    requires x < |s.subs| && Tallies(s)
    ensures Tallies(Generate(s, x))
  {
    var t := Generate(s, x);
    if |t.invoices| > |s.invoices| {
      NoAttempts(s, s.attempts, |s.invoices|);
    }
    forall k | 0 <= k < |t.invoices|
      ensures TallyOk(t.attempts, k, t.invoices[k].status)
    {
      assert k < |s.invoices| ==> TallyOk(s.attempts, k, s.invoices[k].status);
    }
  }

  lemma {:induction false} NoAttempts(s: Db, rows: seq<Attempt>, i: nat)
    requires i >= |s.invoices| && rows <= s.attempts
    ensures Count(rows, i, Success) == Count(rows, i, Pending) == Count(rows, i, Declined) == 0
  {
    if rows != [] {
      var last := |rows| - 1;
      assert rows[last] == s.attempts[last] && rows[..last] <= s.attempts;
      NoAttempts(s, rows[..last], i);
    }
  }

  lemma GeneratePeriods(s: Db, x: nat)
    requires x < |s.subs| && PeriodsBut(s, x) && !s.subs[x].status.SubOverdue?
    ensures Periods(Generate(s, x))
  {
    var t := Generate(s, x);
    forall y | 0 <= y < |t.subs| && (t.subs[y].status.Active? || t.subs[y].status.SubOverdue?)
      ensures HasPeriodInvoice(t.invoices, y, t.subs[y].periodStart, t.subs[y].periodEnd)
    {
      if y != x {
        PeriodInvoiceKept(s.invoices, t.invoices, y, s.subs[y].periodStart, s.subs[y].periodEnd);
      } else if |t.invoices| > |s.invoices| {
        assert t.invoices[|s.invoices|].subscription == x;
      }
    }
    forall i | 0 <= i < |s.invoices| && |t.invoices| > |s.invoices|
      ensures Disjoint(s.invoices[i], t.invoices[|s.invoices|]) && Disjoint(t.invoices[|s.invoices|], s.invoices[i])
    {
      assert CurrentOrPast(s.invoices[i], s.subs[s.invoices[i].subscription]);
      assert s.invoices[i].subscription == x ==>
        !(s.invoices[i].periodStart == s.subs[x].periodStart && s.invoices[i].periodEnd == s.subs[x].periodEnd);
    }
  }

  lemma UnpaidGrows(before: seq<Invoice>, after: seq<Invoice>, x: nat)
    requires before <= after && HasUnpaid(before, x)
    ensures HasUnpaid(after, x)
  {
    var k :| 0 <= k < |before| && Unpaid(before[k], x);
    assert Unpaid(after[k], x);
  }

  lemma GivenUpGrows(before: seq<Invoice>, after: seq<Invoice>, x: nat)
    requires before <= after && HasGivenUp(before, x)
    ensures HasGivenUp(after, x)
  {
    var k :| 0 <= k < |before| && GivenUp(before[k], x);
    assert GivenUp(after[k], x);
  }

  lemma GenerateStatuses(s: Db, x: nat)
    requires x < |s.subs| && Statuses(s)
    ensures Statuses(Generate(s, x))
  {
    var t := Generate(s, x);
    forall y | 0 <= y < |t.subs| && t.subs[y].status.SubOverdue?
      ensures HasUnpaid(t.invoices, y)
    {
      UnpaidGrows(s.invoices, t.invoices, y);
    }
  }

  lemma GenerateReasons(s: Db, x: nat)
    requires x < |s.subs| && Reasons(s)
    ensures Reasons(Generate(s, x))
  {
    var t := Generate(s, x);
    forall y | 0 <= y < |t.subs| && t.subs[y].reason == Some(NonPayment)
      ensures HasGivenUp(t.invoices, y)
    {
      GivenUpGrows(s.invoices, t.invoices, y);
    }
  }

  lemma GenerateScoped(s: Db, x: nat)
    requires x < |s.subs| && Scoped(s)
    ensures Scoped(Generate(s, x))
  {
  }

  lemma GenerateTimed(s: Db, x: nat)
    requires x < |s.subs| && Timed(s)
    ensures Timed(Generate(s, x))
  {
  }

  /** Generation keeps everything else, for a subscription whose invoices all ended by its period start. */
  lemma GenerateKeeps(s: Db, x: nat)
    requires x < |s.subs| && !s.subs[x].status.SubOverdue?
    requires Scoped(s) && Timed(s) && Statuses(s) && Tallies(s) && Charges(s) && Reasons(s) && PeriodsBut(s, x)
    ensures Inv(Generate(s, x))
  {
    GenerateScoped(s, x);
    GenerateTimed(s, x);
    GenerateStatuses(s, x);
    GenerateTallies(s, x);
    GenerateReasons(s, x);
    GeneratePeriods(s, x);
  }

  function Started(s: Db, c: nat, p: nat): Db
    requires c < |s.customers| && p < |s.plans|
  {
    s.(subs := s.subs + [NewSubscription(c, p, s.customers[c], s.plans[p], s.clock)])
  }

  lemma StartedScopedTimed(s: Db, c: nat, p: nat)
    requires c < |s.customers| && p < |s.plans| && s.customers[c].org == s.plans[p].org && Scoped(s) && Timed(s)
    ensures Scoped(Started(s, c, p)) && Timed(Started(s, c, p))
  {
  }

  lemma StartedStatuses(s: Db, c: nat, p: nat)
    requires c < |s.customers| && p < |s.plans| && Statuses(s) && Reasons(s)
    ensures Statuses(Started(s, c, p)) && Reasons(Started(s, c, p))
  {
  }

  lemma StartedPeriods(s: Db, c: nat, p: nat)
    requires c < |s.customers| && p < |s.plans| && Periods(s)
    ensures PeriodsBut(Started(s, c, p), |s.subs|)
  {
  }

  lemma CreateKeeps(s: Db, c: nat, p: nat)
    requires Inv(s)
    ensures Inv(Committed(s, Create(s, c, p)))
  {
    if Create(s, c, p).Ok? {
      StartedScopedTimed(s, c, p);
      StartedStatuses(s, c, p);
      StartedPeriods(s, c, p);
      GenerateKeeps(Started(s, c, p), |s.subs|);
    }
  }

  function Moved(s: Db, x: nat): Db
    requires x < |s.subs|
  {
    s.(subs := s.subs[x := InNewPeriod(s.subs[x], s.plans[s.subs[x].plan], s.clock)])
  }

  lemma MovedRest(s: Db, x: nat)
    requires x < |s.subs| && (s.subs[x].status.Trial? || s.subs[x].status.Active?)
    requires Scoped(s) && Timed(s) && Statuses(s) && Tallies(s) && Charges(s) && Reasons(s)
    ensures var t := Moved(s, x); Scoped(t) && Timed(t) && Statuses(t) && Tallies(t) && Charges(t) && Reasons(t)
  {
  }

  lemma MovedPeriods(s: Db, x: nat)
    requires x < |s.subs| && Statuses(s) && Timed(s) && Periods(s)
    requires s.subs[x].status.Trial? || IsDue(s.subs[x], s.clock)
    ensures PeriodsBut(Moved(s, x), x)
  {
    var t := Moved(s, x);
    forall i | 0 <= i < |s.invoices|
      ensures CurrentOrPast(t.invoices[i], t.subs[t.invoices[i].subscription])
    {
      assert CurrentOrPast(s.invoices[i], s.subs[s.invoices[i].subscription]);
      assert Allowed(s.subs[s.invoices[i].subscription].status, s.invoices[i].status);
    }
  }

  /** The new period starts now, when every earlier invoice period has ended. */
  lemma StartPeriodKeeps(s: Db, x: nat)
    requires x < |s.subs| && Inv(s)
    requires s.subs[x].status.Trial? || IsDue(s.subs[x], s.clock)
    ensures Inv(StartPeriod(s, x))
  {
    hide Scoped, Timed, Statuses, Tallies, Charges, Reasons, Periods, PeriodsBut, Generate;
    var moved := Moved(s, x);
    MovedPeriods(s, x);
    MovedRest(s, x);
    GenerateKeeps(moved, x);
  }

  // ---- every step ----

  /** Events, receipts, the queue and a later clock do not enter the invariant. */
  lemma InvSame(s: Db, t: Db)
    requires Inv(s) && s.clock <= t.clock && s.customers == t.customers && s.plans == t.plans
    requires s.subs == t.subs && s.invoices == t.invoices && s.attempts == t.attempts
    ensures Inv(t)
  {
  }

  lemma WebhookKeeps(s: Db, d: Delivery)
    requires Inv(s)
    ensures Inv(Committed(s, Webhook(s, d)))
  {
    if WellFormed(d) && !EventSeen(s.events, d.provider, d.eventId.t) {
      InvSame(s, Recorded(s, d));
    }
    if WellFormed(d) && !EventSeen(s.events, d.provider, d.eventId.t) && PaymentOf(s, d).Some? {
      SettleKeeps(Recorded(s, d), PaymentOf(s, d).value, d.payload.status == Text("success"), d.payload.chargeId.t);
    }
  }

  /** A parent moves to another organization only while no subscription hangs on it. */
  lemma SaveScoped(s: Db, step: Step)
    requires Scoped(s) && (step.SaveCustomerStep? || step.SavePlanStep?)
    ensures Scoped(Exec(s, step))
  {
  }

  lemma SaveParentsOnly(s: Db, step: Step)
    requires step.SaveCustomerStep? || step.SavePlanStep?
    ensures var t := Exec(s, step);
            t.subs == s.subs && t.invoices == s.invoices && t.attempts == s.attempts && s.clock == t.clock
  {
  }

  lemma ParentsOnly(s: Db, t: Db)
    requires Inv(s) && Scoped(t)
    requires t.subs == s.subs && t.invoices == s.invoices && t.attempts == s.attempts && s.clock == t.clock
    ensures Inv(t)
  {
  }

  lemma SaveKeeps(s: Db, step: Step)
    requires Inv(s) && (step.SaveCustomerStep? || step.SavePlanStep?)
    ensures Inv(Exec(s, step))
  {
    hide Scoped, Timed, Statuses, Tallies, Charges, Reasons, Periods, Exec;
    SaveScoped(s, step);
    SaveParentsOnly(s, step);
    ParentsOnly(s, Exec(s, step));
  }

  /** The environment and the provider change no billing row. */
  lemma OutsideKeeps(s: Db, step: Step)
    requires Inv(s) && (step.Tick? || step.CallStep? || step.LoseTask? || step.RedeliverTask?)
    ensures Inv(Exec(s, step))
  {
    InvSame(s, Exec(s, step));
  }

  lemma ActivateKeeps(s: Db, x: nat)
    requires Inv(s)
    ensures Inv(Committed(s, Activate(s, x)))
  {
    hide Inv, StartPeriod;
    if x < |s.subs| && s.subs[x].status.Trial? { StartPeriodKeeps(s, x); }
  }

  lemma RenewKeeps(s: Db, x: nat)
    requires Inv(s)
    ensures Inv(Committed(s, Renew(s, x)))
  {
    hide Inv, StartPeriod;
    if x < |s.subs| && IsDue(s.subs[x], s.clock) { StartPeriodKeeps(s, x); }
  }

  lemma CancelStepKeeps(s: Db, x: nat)
    requires Inv(s)
    ensures Inv(Committed(s, Cancel(s, x, Voluntary)))
  {
    hide Inv, CloseOpen;
    if x < |s.subs| && !s.subs[x].status.SubCanceled? { CancelKeeps(s, x); }
  }

  lemma ExecKeeps(s: Db, step: Step)
    requires Inv(s)
    ensures Inv(Exec(s, step))
  {
    hide Inv;
    match step
    case Tick(_) => OutsideKeeps(s, step);
    case SaveCustomerStep(_, _) => SaveKeeps(s, step);
    case SavePlanStep(_, _) => SaveKeeps(s, step);
    case CreateStep(c, p) => CreateKeeps(s, c, p);
    case ActivateStep(x) => ActivateKeeps(s, x);
    case RenewStep(x) => RenewKeeps(s, x);
    case CancelStep(x) => CancelStepKeeps(s, x);
    case DunStep(i) => DunKeeps(s, i);
    case PrepareStep(i, key, issuedOnly, providerKey) => PrepareKeeps(s, i, key, issuedOnly, providerKey);
    case CallStep(_, _, _) => OutsideKeeps(s, step);
    case SettleStep(a, success, charge) => if a < |s.attempts| { SettleKeeps(s, a, success, charge); }
    case WebhookStep(d) => WebhookKeeps(s, d);
    case LoseTask(_) => OutsideKeeps(s, step);
    case RedeliverTask(_) => OutsideKeeps(s, step);
  }

  /** The invariant holds in every state a run from the empty database can reach. */
  lemma {:induction false} RunKeeps(s: Db, steps: seq<Step>)
    requires Inv(s)
    ensures Inv(Run(s, steps))
  {
    if steps != [] {
      RunKeeps(s, steps[..|steps| - 1]);
      ExecKeeps(Run(s, steps[..|steps| - 1]), steps[|steps| - 1]);
    }
  }

  lemma Reachable(steps: seq<Step>)
    ensures Inv(Run(Empty(), steps))
  {
    RunKeeps(Empty(), steps);
  }
}
