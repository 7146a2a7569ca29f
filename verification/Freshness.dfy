/** The attempts of the issue under way. `attempted_at >= issued_at` tells them apart only
    if the clock has moved between an attempt and the next reissue. */
module Freshness {
  import opened Tables
  import opened Services
  import opened Counting
  import opened Invariant
  import opened Preservation
  import opened Truthful
  import opened ExampleRun

  predicate AttemptFits(a: Attempt, inv: Invoice) {
    inv.status.Issued? && inv.issuedAt.Some? && a.attemptedAt >= inv.issuedAt.value ==> a.status.Pending?
  }

  /** While the invoice is ISSUED every attempt made since that issue is PENDING. */
  ghost predicate FreshFor(s: Db, i: nat) {
    forall a :: 0 <= a < |s.attempts| && s.attempts[a].invoice == i ==> AttemptFits(s.attempts[a], s.invoices[i])
  }

  predicate ClockMoved(s: Db, i: nat) {
    forall a :: 0 <= a < |s.attempts| && s.attempts[a].invoice == i ==> s.attempts[a].attemptedAt < s.clock
  }

  /** Dunning runs on this invoice only when the clock has moved since its last attempt. */
  predicate Strict(s: Db, step: Step, i: nat) {
    step == DunStep(i) ==> ClockMoved(s, i)
  }

  predicate StrictRun(steps: seq<Step>, i: nat) {
    steps == [] ||
    (StrictRun(steps[..|steps| - 1], i) && Strict(Run(Empty(), steps[..|steps| - 1]), steps[|steps| - 1], i))
  }

  lemma SettleKeepsFresh(s: Db, a: nat, success: bool, charge: string, i: nat)
    requires Inv(s) && FreshFor(s, i) && a < |s.attempts|
    ensures FreshFor(Settle(s, a, success, charge), i)
  {
    var f := SettleRead(s, a, charge);
    SettledOutcome(f, success, charge);
    var k := s.attempts[a].invoice;
    assert Allowed(f.sub.status, f.invoice.status) && TallyOk(s.attempts, k, f.invoice.status);
    SuccessCounted(s.attempts, k, a);
    hide Settled, Exists, OtherArrears, Inv, Count;
    WriteKeepsFresh(s, a, charge, Settled(f, success, charge), i);
  }

  lemma WriteKeepsFresh(s: Db, a: nat, charge: string, r: SettleRows, i: nat)
    requires FreshFor(s, i) && a < |s.attempts|
    requires Outcome(SettleRead(s, a, charge), r) && Marked(SettleRead(s, a, charge), charge, r)
    requires r.invoice == SettleRead(s, a, charge).invoice.(status := r.invoice.status)
    requires s.invoices[s.attempts[a].invoice].status.Issued? ==> !Blocked(SettleRead(s, a, charge))
    ensures FreshFor(Write(s, a, r), i)
  {
    var t := Write(s, a, r);
    forall b | 0 <= b < |t.attempts| && t.attempts[b].invoice == i
      ensures AttemptFits(t.attempts[b], t.invoices[i])
    {
      assert AttemptFits(s.attempts[b], s.invoices[i]);
    }
  }

  /** Steps that leave issued rows as they are and only add PENDING attempts. */
  lemma QuietKeepsFresh(s: Db, t: Db, i: nat)
    requires FreshFor(s, i) && |s.invoices| <= |t.invoices| && s.attempts <= t.attempts
    requires i < |s.invoices| && t.invoices[i].status.Issued? ==> t.invoices[i] == s.invoices[i]
    requires forall a :: |s.attempts| <= a < |t.attempts| ==> t.attempts[a].status.Pending?
    ensures FreshFor(t, i)
  {
    forall b | 0 <= b < |t.attempts| && t.attempts[b].invoice == i
      ensures AttemptFits(t.attempts[b], t.invoices[i])
    {
      if b < |s.attempts| {
        assert t.attempts[b] == s.attempts[b] && AttemptFits(s.attempts[b], s.invoices[i]);
      }
    }
  }

  /** After a reissue at a clock that has moved no attempt is of the new issue yet. */
  lemma ReissuedIsFresh(s: Db, i: nat)
    requires i < |s.invoices| && ClockMoved(s, i)
    ensures s.invoices[i].issuedAt == Some(s.clock) ==> FreshFor(s, i)
  {
  }

  lemma DunKeepsFresh(s: Db, k: nat, i: nat)
    requires Statuses(s) && FreshFor(s, i) && Strict(s, DunStep(k), i)
    ensures FreshFor(Committed(s, Dun(s, k)), i)
  {
    var t := Committed(s, Dun(s, k));
    DunCases(s, k);
    hide Dun;
    if k == i && i < |s.invoices| && s.invoices[i].status.Failed? && t.invoices[i].status.Issued? {
      ReissuedIsFresh(t, i);
    } else {
      QuietKeepsFresh(s, t, i);
    }
  }

  lemma QuietSteps(s: Db, step: Step)
    requires !step.SettleStep? && !step.WebhookStep? && !step.DunStep? && !step.PrepareStep?
    ensures
      var t := Exec(s, step);
      && |s.invoices| <= |t.invoices| && s.attempts == t.attempts
      && (forall i :: 0 <= i < |s.invoices| && t.invoices[i].status.Issued? ==> t.invoices[i] == s.invoices[i])
  {
  }

  lemma ExecKeepsFresh(s: Db, step: Step, i: nat)
    requires Inv(s) && FreshFor(s, i) && Strict(s, step, i)
    ensures FreshFor(Exec(s, step), i)
  {
    hide Scoped, Timed, Tallies, Charges, Reasons, Periods, FreshFor;
    match step
    case SettleStep(a, success, charge) => if a < |s.attempts| { SettleKeepsFresh(s, a, success, charge, i); }
    case WebhookStep(d) => WebhookKeepsFresh(s, d, i);
    case DunStep(k) => DunKeepsFresh(s, k, i);
    case PrepareStep(k, key, issuedOnly, providerKey) => PrepareKeepsFresh(s, k, key, issuedOnly, providerKey, i);
    case _ =>
      QuietSteps(s, step);
      QuietKeepsFresh(s, Exec(s, step), i);
  }

  lemma PrepareKeepsFresh(s: Db, k: nat, key: string, issuedOnly: bool, providerKey: string, i: nat)
    requires FreshFor(s, i)
    ensures FreshFor(Prepare(s, k, key, issuedOnly, providerKey).0, i)
  {
    PrepareInserts(s, k, key, issuedOnly, providerKey);
    hide Prepare;
    QuietKeepsFresh(s, Prepare(s, k, key, issuedOnly, providerKey).0, i);
  }

  lemma WebhookKeepsFresh(s: Db, d: Delivery, i: nat)
    requires Inv(s) && FreshFor(s, i)
    ensures FreshFor(Exec(s, WebhookStep(d)), i)
  {
    if WellFormed(d) && !EventSeen(s.events, d.provider, d.eventId.t) {
      InvSame(s, Recorded(s, d));
      hide Inv, Settle;
      if PaymentOf(s, d).Some? {
        SettleKeepsFresh(Recorded(s, d), PaymentOf(s, d).value,
          d.payload.status == Text("success"), d.payload.chargeId.t, i);
      }
    }
  }

  lemma {:induction false} ReachableFresh(steps: seq<Step>, i: nat)
    requires StrictRun(steps, i)
    ensures FreshFor(Run(Empty(), steps), i)
  {
    if steps != [] {
      var before := steps[..|steps| - 1];
      ReachableFresh(before, i);
      Reachable(before);
      hide Inv, FreshFor, Exec;
      ExecKeepsFresh(Run(Empty(), before), steps[|steps| - 1], i);
    }
  }

  /** Why the clock must move: after a reissue with nothing in flight the worker starts a new
      charge exactly when every earlier attempt is older than the reissue. Otherwise it finds
      an earlier attempt "of this issue" and leaves the invoice ISSUED. */
  lemma ReissueIsChargedIff(s: Db, i: nat, providerKey: string)
    requires Inv(s) && i < |s.invoices| && s.invoices[i].status.Failed?
    requires Count(s.attempts, i, Declined) < MAX_DUNNING_ATTEMPTS && Count(s.attempts, i, Pending) == 0
    requires !Exists(s.attempts, ByProviderKey(providerKey))
    ensures
      var t := Committed(s, Dun(s, i));
      var (after, reply) := Prepare(t, i, "", true, providerKey);
      && reply.Ok? && (reply.value.charge <==> ClockMoved(s, i))
      && (!ClockMoved(s, i) ==> after == t)
  {
    hide Scoped, Charges, Reasons, Periods, Dun;
    var t := Committed(s, Dun(s, i));
    DunCases(s, i);
    assert TallyOk(s.attempts, i, s.invoices[i].status);
    NoOpenAttempt(s, i);
    MovedIffNone(s, i);
    NonePending(s.attempts, i);
  }

  lemma NonePending(rows: seq<Attempt>, i: nat)
    requires Count(rows, i, Pending) == 0
    ensures forall a :: 0 <= a < |rows| && rows[a].invoice == i ==> !rows[a].status.Pending?
  {
    forall a | 0 <= a < |rows| && rows[a].invoice == i
      ensures !rows[a].status.Pending?
    {
      PendingCounted(rows, i, a);
    }
  }

  lemma PendingCounted(rows: seq<Attempt>, i: nat, a: nat)
    requires a < |rows| && rows[a].invoice == i
    ensures rows[a].status.Pending? ==> Count(rows, i, Pending) >= 1
  {
    CountThese(rows, i, rows[a].status, a);
  }

  lemma MovedIffNone(s: Db, i: nat)
    ensures ClockMoved(s, i) <==> !Exists(s.attempts, SinceIssue(i, s.clock))
  {
    var q := SinceIssue(i, s.clock);
    assert forall a :: 0 <= a < |s.attempts| ==>
             (Matches(q, s.attempts[a], a) <==> s.attempts[a].invoice == i && s.attempts[a].attemptedAt >= s.clock);
  }

  /** A truthful run on which the reissue is lost: the decline, its settlement and the dunning
      fall in one instant, and the worker finds an attempt "of this issue" and starts nothing. */
  lemma ReissueIsLost(providerKey: string)
    requires providerKey != "key"
    ensures
      var s := Run(Empty(), DeclinedCharge());
      var t := Committed(s, Dun(s, 0));
      var (after, reply) := Prepare(t, 0, "", true, providerKey);
      && HonestRun(DeclinedCharge())
      && |s.invoices| == 1 && s.invoices[0].status.Failed? && Count(s.attempts, 0, Pending) == 0
      && !ClockMoved(s, 0) && t.invoices[0].status.Issued?
      && reply.Ok? && !reply.value.charge && after == t
  {
    LostReissueIsHonest();
    DeclinedChargeRuns();
    Reachable(DeclinedCharge());
    DeclinedOnceCounts(providerKey);
    ReissuedAtOnceIs();
    ExecDun(DeclinedOnce(), 0);
    hide Run, HonestRun, Inv, Dun, Prepare, Exec, DeclinedCharge;
    ReissueIsChargedIff(DeclinedOnce(), 0, providerKey);
  }

  lemma DeclinedOnceCounts(providerKey: string)
    requires providerKey != "key"
    ensures
      var s := DeclinedOnce();
      && Count(s.attempts, 0, Pending) == 0 && Count(s.attempts, 0, Declined) == 1
      && !Exists(s.attempts, ByProviderKey(providerKey)) && !ClockMoved(s, 0)
  {
    var s := DeclinedOnce();
    assert s.attempts[..0] == [];
    assert s.attempts[0].attemptedAt == s.clock;
  }
}
