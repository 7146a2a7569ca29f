/** The worker, the recovery sweep and the dunning rounds make progress when the provider answers. */
module Progress {
  import opened Tables
  import opened Services
  import opened Counting
  import opened Invariant
  import opened Preservation
  import opened History
  import opened Ledger
  import opened Truthful
  import opened DunningBound
  import opened Freshness

  const STUCK_CHARGE_AFTER: nat := 600_000_000

  /** Reached by some run, whatever the webhooks said. */
  ghost predicate Sound(s: Db) {
    exists steps :: Run(Empty(), steps) == s
  }

  /** Reached by some run with a truthful provider. */
  ghost predicate Trusted(s: Db) {
    exists steps :: HonestRun(steps) && Run(Empty(), steps) == s
  }

  lemma SoundFacts(s: Db)
    requires Sound(s)
    ensures Inv(s) && Books(s)
  {
    var steps :| Run(Empty(), steps) == s;
    Reachable(steps);
    ReachableBooks(steps);
  }

  lemma TrustedFacts(s: Db)
    requires Trusted(s)
    ensures Sound(s) && Truth(s)
  {
    var steps :| HonestRun(steps) && Run(Empty(), steps) == s;
    ReachableTruth(steps);
  }

  lemma SoundStep(s: Db, step: Step)
    requires Sound(s)
    ensures Sound(Exec(s, step))
  {
    hide Exec, Strict;
    var steps :| Run(Empty(), steps) == s;
    assert (steps + [step])[..|steps|] == steps;
    assert Run(Empty(), steps + [step]) == Exec(s, step);
  }

  lemma TrustedStep(s: Db, step: Step)
    requires Trusted(s) && Honest(s, step)
    ensures Trusted(Exec(s, step))
  {
    var steps :| HonestRun(steps) && Run(Empty(), steps) == s;
    assert (steps + [step])[..|steps|] == steps;
    assert HonestRun(steps + [step]) && Run(Empty(), steps + [step]) == Exec(s, step);
  }

  // ---- What charging steps may do ----

  predicate Final(status: InvoiceStatus) {
    status.Paid? || status.Canceled? || status.Overdue?
  }

  /** Charging pays an invoice, or moves it from ISSUED to FAILED with one more declined attempt. */
  predicate ChargeMove(before: Invoice, after: Invoice, declinedBefore: nat, declinedAfter: nat) {
    && (after.status.Issued? ==> before == after && declinedAfter >= declinedBefore)
    && (after.status.Failed? ==>
          (before.status.Failed? && declinedAfter >= declinedBefore)
          || (before.status.Issued? && declinedAfter >= declinedBefore + 1))
    && (Final(before.status) ==> before == after)
    && (Final(after.status) && after != before ==> after.status.Paid?)
    && (Final(after.status) || after.status.Issued? || after.status.Failed?)
  }

  ghost predicate HasFlagged(s: Db, i: nat) {
    exists a :: 0 <= a < |s.attempts| && s.attempts[a].invoice == i && s.attempts[a].status.Pending? &&
        s.attempts[a].flagged
  }

  /** The invoice has left ISSUED, or waits for manual reconciliation. */
  ghost predicate Resolved(s: Db, i: nat) {
    i < |s.invoices| && (s.invoices[i].status.Issued? ==> HasFlagged(s, i))
  }

  ghost predicate ChargeMoves(s: Db, t: Db)
    requires |s.invoices| == |t.invoices|
  {
    forall i :: 0 <= i < |s.invoices| ==>
      ChargeMove(s.invoices[i], t.invoices[i], Count(s.attempts, i, Declined), Count(t.attempts, i, Declined))
  }

  ghost predicate Moves(s: Db, t: Db) {
    RowsLater(s, t) && |s.invoices| == |t.invoices| && s.clock == t.clock && ChargeMoves(s, t)
  }

  ghost predicate StaysFresh(s: Db, t: Db) {
    forall i: nat :: FreshFor(s, i) ==> FreshFor(t, i)
  }

  ghost predicate Charging(s: Db, t: Db) {
    Sound(t) && (Trusted(s) ==> Trusted(t)) && Moves(s, t) && StaysFresh(s, t)
  }

  lemma RowsLaterTransitive(s: Db, t: Db, u: Db)
    requires RowsLater(s, t) && RowsLater(t, u)
    ensures RowsLater(s, u)
  {
    assert forall x :: 0 <= x < |s.subs| ==> SubLater(s.subs[x], t.subs[x]) && SubLater(t.subs[x], u.subs[x]);
    assert forall i :: 0 <= i < |s.invoices| ==>
             InvoiceLater(s.invoices[i], t.invoices[i]) && InvoiceLater(t.invoices[i], u.invoices[i]);
    assert forall a :: 0 <= a < |s.attempts| ==>
             AttemptLater(s.attempts[a], t.attempts[a]) && AttemptLater(t.attempts[a], u.attempts[a]);
  }

  lemma MovesTransitive(s: Db, t: Db, u: Db)
    requires Moves(s, t) && Moves(t, u)
    ensures Moves(s, u)
  {
    RowsLaterTransitive(s, t, u);
    forall i | 0 <= i < |s.invoices|
      ensures ChargeMove(s.invoices[i], u.invoices[i], Count(s.attempts, i, Declined), Count(u.attempts, i, Declined))
    {
      assert ChargeMove(s.invoices[i], t.invoices[i], Count(s.attempts, i, Declined), Count(t.attempts, i, Declined));
      assert ChargeMove(t.invoices[i], u.invoices[i], Count(t.attempts, i, Declined), Count(u.attempts, i, Declined));
    }
  }

  lemma ChargingTransitive(s: Db, t: Db, u: Db)
    requires Charging(s, t) && Charging(t, u)
    ensures Charging(s, u)
  {
    MovesTransitive(s, t, u);
  }

  lemma ResolvedStays(s: Db, t: Db, i: nat)
    requires Charging(s, t) && Resolved(s, i)
    ensures Resolved(t, i)
  {
    assert ChargeMove(s.invoices[i], t.invoices[i], Count(s.attempts, i, Declined), Count(t.attempts, i, Declined));
    if t.invoices[i].status.Issued? {
      var a :| 0 <= a < |s.attempts| && s.attempts[a].invoice == i && s.attempts[a].status.Pending? &&
          s.attempts[a].flagged;
      assert AttemptLater(s.attempts[a], t.attempts[a]);
      assert t.attempts[a] == s.attempts[a];
    }
  }

  lemma SettleMoves(s: Db, a: nat, success: bool, charge: string, i: nat)
    requires Statuses(s) && a < |s.attempts| && i < |s.invoices|
    ensures ChargeMove(s.invoices[i], Settle(s, a, success, charge).invoices[i],
                       Count(s.attempts, i, Declined), Count(Settle(s, a, success, charge).attempts, i, Declined))
  {
    assert Allowed(s.subs[s.invoices[i].subscription].status, s.invoices[i].status);
    SettleIssue(s, a, success, charge, i);
    SettledOutcome(SettleRead(s, a, charge), success, charge);
    hide Settled, Exists, OtherArrears, Count, Statuses, Allowed, Marked;
  }

  lemma SettleStepMoves(s: Db, a: nat, success: bool, charge: string)
    requires Statuses(s) && a < |s.attempts|
    ensures Moves(s, Settle(s, a, success, charge))
  {
    SettleLater(s, a, success, charge);
    hide Settled, SettleRead, Count, Statuses, RowsLater, Frozen, ChargeMove;
    forall i | 0 <= i < |s.invoices|
      ensures ChargeMove(s.invoices[i], Settle(s, a, success, charge).invoices[i],
                         Count(s.attempts, i, Declined), Count(Settle(s, a, success, charge).attempts, i, Declined))
    {
      SettleMoves(s, a, success, charge, i);
    }
  }

  /** A step that leaves the invoices alone and keeps the declined attempts. */
  lemma SameInvoicesMove(s: Db, t: Db)
    requires Statuses(s) && RowsLater(s, t) && t.invoices == s.invoices && t.clock == s.clock
    requires forall i :: 0 <= i < |s.invoices| ==> Count(t.attempts, i, Declined) == Count(s.attempts, i, Declined)
    ensures Moves(s, t)
  {
    hide RowsLater, Count;
    forall i | 0 <= i < |s.invoices|
      ensures ChargeMove(s.invoices[i], t.invoices[i], Count(s.attempts, i, Declined), Count(t.attempts, i, Declined))
    {
      assert Allowed(s.subs[s.invoices[i].subscription].status, s.invoices[i].status);
    }
  }

  lemma PrepareKeepsDeclined(s: Db, i: nat, key: string, issuedOnly: bool, providerKey: string, k: nat)
    ensures Count(Prepare(s, i, key, issuedOnly, providerKey).0.attempts, k, Declined) == Count(s.attempts, k, Declined)
  {
    PrepareInserts(s, i, key, issuedOnly, providerKey);
    hide Prepare;
    if Prepare(s, i, key, issuedOnly, providerKey).0 != s {
      CountAppend(s.attempts, NewAttempt(i, s.invoices[i], CustomerOf(s, i), key, providerKey, s.clock), k, Declined);
    }
  }

  lemma PrepareStepMoves(s: Db, i: nat, key: string, issuedOnly: bool, providerKey: string)
    requires Statuses(s)
    ensures Moves(s, Prepare(s, i, key, issuedOnly, providerKey).0)
  {
    var t := Prepare(s, i, key, issuedOnly, providerKey).0;
    PrepareLater(s, i, key, issuedOnly, providerKey);
    PrepareInserts(s, i, key, issuedOnly, providerKey);
    hide Prepare, Statuses, RowsLater, Frozen, Count, Exists;
    forall k | 0 <= k < |s.invoices|
      ensures Count(t.attempts, k, Declined) == Count(s.attempts, k, Declined)
    {
      PrepareKeepsDeclined(s, i, key, issuedOnly, providerKey, k);
    }
    SameInvoicesMove(s, t);
  }

  lemma OutsideStepMoves(s: Db, step: Step)
    requires Statuses(s) && (step.CallStep? || step.LoseTask?)
    ensures Moves(s, Exec(s, step))
  {
    OutsideLater(s, step);
    OutsideSame(s, step);
    hide Exec, Statuses, RowsLater, Frozen, Count;
    SameInvoicesMove(s, Exec(s, step));
  }

  lemma OutsideSame(s: Db, step: Step)
    requires step.CallStep? || step.LoseTask?
    ensures
      var t := Exec(s, step);
      t.invoices == s.invoices && t.attempts == s.attempts && t.clock == s.clock
  {
  }

  lemma StepMoves(s: Db, step: Step)
    requires Statuses(s) && (step.PrepareStep? || step.CallStep? || step.SettleStep? || step.LoseTask?)
    ensures Moves(s, Exec(s, step))
  {
    hide Statuses, Moves, Exec;
    match step
    case PrepareStep(i, key, issuedOnly, providerKey) =>
      ExecPrepare(s, i, key, issuedOnly, providerKey);
      PrepareStepMoves(s, i, key, issuedOnly, providerKey);
    case SettleStep(a, success, charge) =>
      if a < |s.attempts| {
        ExecSettle(s, a, success, charge);
        SettleStepMoves(s, a, success, charge);
      } else {
        ExecNoAttempt(s, a, success, charge);
        StaysMoves(s);
      }
    case _ => OutsideStepMoves(s, step);
  }

  lemma StaysMoves(s: Db)
    requires Statuses(s)
    ensures Moves(s, s)
  {
    LaterReflexive(s);
    SameInvoicesMove(s, s);
  }

  lemma StepCharges(s: Db, step: Step)
    requires Sound(s) && (step.PrepareStep? || step.CallStep? || step.SettleStep? || step.LoseTask?)
    requires Honest(s, step)
    ensures Charging(s, Exec(s, step))
  {
    hide Exec, Honest, Sound, Trusted, Moves, FreshFor, Scoped, Timed, Tallies, Charges, Reasons, Periods;
    SoundStep(s, step);
    if Trusted(s) { TrustedStep(s, step); }
    SoundFacts(s);
    StepMoves(s, step);
    forall i: nat | FreshFor(s, i)
      ensures FreshFor(Exec(s, step), i)
    {
      ExecKeepsFresh(s, step, i);
    }
  }

  // ---- One charge ----

  /** The generated ids are new, so the gateway answers. */
  predicate Fresh(s: Db, d: Draw) {
    !Exists(s.attempts, ByProviderKey(d.providerKey)) && !ChargeIdUsed(s.receipts, d.chargeId)
  }

  lemma GatewayAnswers(s: Db, a: nat, success: bool, chargeId: string)
    requires Charges(s) && Books(s) && a < |s.attempts| && !ChargeIdUsed(s.receipts, chargeId)
    ensures Call(s, a, success, chargeId).1.Ok?
    ensures var (t, reply) := Call(s, a, success, chargeId);
            t.attempts == s.attempts && Backed(t, a, reply.value.success, reply.value.chargeId)
  {
    ReceiptMatches(s, a);
    FindAppend(s.receipts, Receipt(s.attempts[a].request, success, chargeId), s.attempts[a].request.key);
  }

  /** Settling an unflagged attempt of an ISSUED invoice takes it out of ISSUED or flags the attempt. */
  lemma SettleResolves(s: Db, a: nat, success: bool, charge: string)
    requires Inv(s) && a < |s.attempts| && MayCharge(s.attempts[a])
    ensures Resolved(Settle(s, a, success, charge), s.attempts[a].invoice)
  {
    var i := s.attempts[a].invoice;
    var t := Settle(s, a, success, charge);
    SettledOutcome(SettleRead(s, a, charge), success, charge);
    assert Allowed(s.subs[OwnerOf(s, a)].status, s.invoices[i].status) && TallyOk(s.attempts, i, s.invoices[i].status);
    SuccessCounted(s.attempts, i, a);
    assert t.attempts[a].flagged && t.attempts[a].status.Pending? ==> HasFlagged(t, i);
  }

  lemma ChargeKeepsQueue(s: Db, a: nat, success: bool, chargeId: string)
    ensures Charge(s, a, success, chargeId).queue == s.queue
  {
  }

  lemma SettleCharges(s: Db, a: nat, success: bool, charge: string)
    requires Sound(s) && a < |s.attempts| && Backed(s, a, success, charge)
    ensures Charging(s, Settle(s, a, success, charge))
  {
    hide Sound, Charging, Settle, Exec;
    ExecSettle(s, a, success, charge);
    StepCharges(s, SettleStep(a, success, charge));
  }

  lemma CallCharges(s: Db, a: nat, success: bool, chargeId: string)
    requires Sound(s)
    ensures Charging(s, Call(s, a, success, chargeId).0)
  {
    hide Sound, Charging, Call, Exec;
    ExecCall(s, a, success, chargeId);
    StepCharges(s, CallStep(a, success, chargeId));
  }

  lemma CallThenSettle(s: Db, a: nat, success: bool, chargeId: string)
    requires Sound(s) && a < |s.attempts| && Call(s, a, success, chargeId).1.Ok?
    ensures var (called, reply) := Call(s, a, success, chargeId);
            Charging(s, Settle(called, a, reply.value.success, reply.value.chargeId))
  {
    var (called, reply) := Call(s, a, success, chargeId);
    CallCharges(s, a, success, chargeId);
    CallBacks(s, a, success, chargeId);
    SettleCharges(called, a, reply.value.success, reply.value.chargeId);
    ChargingTransitive(s, called, Settle(called, a, reply.value.success, reply.value.chargeId));
  }

  lemma ChargeIsCharging(s: Db, a: nat, success: bool, chargeId: string)
    requires Sound(s)
    ensures Charging(s, Charge(s, a, success, chargeId))
  {
    if a < |s.attempts| && MayCharge(s.attempts[a]) {
      if Call(s, a, success, chargeId).1.Ok? {
        CallThenSettle(s, a, success, chargeId);
      } else {
        CallCharges(s, a, success, chargeId);
      }
    } else {
      StaysCharging(s);
    }
  }

  lemma CallKeepsInv(s: Db, a: nat, success: bool, chargeId: string)
    requires Inv(s)
    ensures Inv(Call(s, a, success, chargeId).0)
  {
    hide Inv, Call;
    OutsideKeeps(s, CallStep(a, success, chargeId));
  }

  lemma ChargeResolves(s: Db, a: nat, success: bool, chargeId: string)
    requires Sound(s) && a < |s.attempts| && MayCharge(s.attempts[a]) && !ChargeIdUsed(s.receipts, chargeId)
    ensures Resolved(Charge(s, a, success, chargeId), s.attempts[a].invoice)
  {
    hide Call, Settle, Resolved, Backed, Books, Sound;
    var (called, reply) := Call(s, a, success, chargeId);
    SoundFacts(s);
    GatewayAnswers(s, a, success, chargeId);
    CallBacks(s, a, success, chargeId);
    CallKeepsInv(s, a, success, chargeId);
    SettleResolves(called, a, reply.value.success, reply.value.chargeId);
  }

  lemma CallBacks(s: Db, a: nat, success: bool, chargeId: string)
    requires a < |s.attempts| && Call(s, a, success, chargeId).1.Ok?
    ensures var (t, reply) := Call(s, a, success, chargeId);
            t.attempts == s.attempts && t.invoices == s.invoices &&
                Backed(t, a, reply.value.success, reply.value.chargeId)
  {
    FindAppend(s.receipts, Receipt(s.attempts[a].request, success, chargeId), s.attempts[a].request.key);
  }

  lemma StaysCharging(s: Db)
    requires Sound(s)
    ensures Charging(s, s)
  {
    hide Sound, Trusted, Moves, FreshFor, Scoped, Timed, Tallies, Charges, Reasons, Periods, Books;
    SoundFacts(s);
    StaysMoves(s);
  }

  // ---- The charge worker ----

  /** charge_invoice: one delivery of a queued task, acknowledged when it ends. */
  function Work(s: Db, i: nat, d: Draw): Db {
    var t := AttemptCharge(s, i, "", true, d);
    t.(queue := t.queue - multiset{i})
  }

  /** Whatever _prepare hands to the gateway for an ISSUED invoice is an attempt of that invoice. */
  lemma PrepareHandsOver(s: Db, i: nat, d: Draw)
    requires Inv(s) && FreshFor(s, i) && i < |s.invoices| && s.invoices[i].status.Issued?
    requires !Exists(s.attempts, ByProviderKey(d.providerKey))
    ensures
      var (t, reply) := Prepare(s, i, "", true, d.providerKey);
      && reply.Ok? && reply.value.attempt.Some? && reply.value.attempt.value < |t.attempts|
      && t.attempts[reply.value.attempt.value].invoice == i
      && t.receipts == s.receipts && t.queue == s.queue
      && t.attempts[reply.value.attempt.value].status.Pending?
      && (reply.value.charge <==> MayCharge(t.attempts[reply.value.attempt.value]))
  {
    hide Scoped, Charges, Reasons, Periods;
    assert Allowed(s.subs[s.invoices[i].subscription].status, s.invoices[i].status);
    assert TallyOk(s.attempts, i, s.invoices[i].status);
    var since := First(s.attempts, SinceIssue(i, s.invoices[i].issuedAt.value));
    if since.Some? {
      assert AttemptFits(s.attempts[since.value], s.invoices[i]);
    }
    var live := First(s.attempts, OpenOf(i));
    if live.Some? && s.attempts[live.value].status.Success? {
      CountThese(s.attempts, i, Success, live.value);
    }
  }

  lemma AttemptIsCharging(s: Db, i: nat, d: Draw)
    requires Sound(s)
    ensures Charging(s, AttemptCharge(s, i, "", true, d)) && AttemptCharge(s, i, "", true, d).queue == s.queue
  {
    PrepareCharges(s, i, d);
    hide Sound, Prepare, Charge, Moves, StaysFresh, Trusted;
    var (prepared, reply) := Prepare(s, i, "", true, d.providerKey);
    if reply.Ok? && reply.value.charge && reply.value.attempt.Some? {
      ChargeIsCharging(prepared, reply.value.attempt.value, d.success, d.chargeId);
      ChargeKeepsQueue(prepared, reply.value.attempt.value, d.success, d.chargeId);
      ChargingTransitive(s, prepared, AttemptCharge(s, i, "", true, d));
    }
  }

  lemma PrepareCharges(s: Db, i: nat, d: Draw)
    requires Sound(s)
    ensures
      var t := Prepare(s, i, "", true, d.providerKey).0;
      Charging(s, t) && t.queue == s.queue
  {
    hide Sound, Charging, PrepareChoice, PrepareRead, Exec;
    ExecPrepare(s, i, "", true, d.providerKey);
    StepCharges(s, PrepareStep(i, "", true, d.providerKey));
  }

  lemma LoseCharges(s: Db, i: nat)
    requires Sound(s)
    ensures Charging(s, s.(queue := s.queue - multiset{i}))
  {
    hide Sound, Charging, Exec;
    ExecLose(s, i);
    StepCharges(s, LoseTask(i));
  }

  // ---- How many declines a worker run records ----

  /** On an ISSUED invoice a decline is recorded exactly when the invoice becomes FAILED. */
  lemma SettleDeclines(s: Db, a: nat, success: bool, charge: string, k: nat)
    requires Statuses(s) && Tallies(s) && a < |s.attempts| && MayCharge(s.attempts[a]) && k < |s.invoices|
    requires s.invoices[s.attempts[a].invoice].status.Issued?
    ensures
      var (i, t) := (s.attempts[a].invoice, Settle(s, a, success, charge));
      && |t.invoices| == |s.invoices|
      && Count(t.attempts, k, Declined) ==
         Count(s.attempts, k, Declined) + (if k == i && t.invoices[k].status.Failed? then 1 else 0)
  {
    var (i, f) := (s.attempts[a].invoice, SettleRead(s, a, charge));
    assert Allowed(f.sub.status, f.invoice.status) && TallyOk(s.attempts, i, f.invoice.status);
    SuccessCounted(s.attempts, i, a);
    hide Statuses, Tallies, Count, Exists, OtherArrears;
    SettledOutcome(f, success, charge);
    hide Settled;
    CountUpdate(s.attempts, a, Settled(f, success, charge).payment, k, Declined);
  }

  lemma ChargeDeclines(s: Db, a: nat, success: bool, chargeId: string, k: nat)
    requires Inv(s) && k < |s.invoices|
    requires a < |s.attempts| ==> s.invoices[s.attempts[a].invoice].status.Issued?
    ensures
      var t := Charge(s, a, success, chargeId);
      && |t.invoices| == |s.invoices|
      && Count(t.attempts, k, Declined) ==
         Count(s.attempts, k, Declined)
         + (if a < |s.attempts| && k == s.attempts[a].invoice && t.invoices[k].status.Failed? then 1 else 0)
  {
    hide Settle, Count, GatewayCharge, Scoped, Timed, Charges, Reasons, Periods;
    if a < |s.attempts| && MayCharge(s.attempts[a]) && Call(s, a, success, chargeId).1.Ok? {
      var (called, reply) := Call(s, a, success, chargeId);
      CallKeepsInv(s, a, success, chargeId);
      SettleDeclines(called, a, reply.value.success, reply.value.chargeId, k);
    }
  }

  lemma WorkDeclines(s: Db, i: nat, d: Draw, k: nat)
    requires Inv(s) && k < |s.invoices|
    ensures
      var t := Work(s, i, d);
      && |t.invoices| == |s.invoices|
      && Count(t.attempts, k, Declined) ==
         Count(s.attempts, k, Declined)
         + (if s.invoices[k].status.Issued? && t.invoices[k].status.Failed? then 1 else 0)
  {
    PrepareOfInvoice(s, i, d.providerKey);
    PrepareKeepsDeclined(s, i, "", true, d.providerKey, k);
    PrepareKeeps(s, i, "", true, d.providerKey);
    if k != i || !s.invoices[i].status.Issued? { WorkTouchesOne(s, i, d, k); }
    hide Prepare, Charge, Count, Inv;
    var (prepared, reply) := Prepare(s, i, "", true, d.providerKey);
    if reply.Ok? && reply.value.charge && reply.value.attempt.Some? {
      ChargeDeclines(prepared, reply.value.attempt.value, d.success, d.chargeId, k);
    }
  }

  /** A worker run changes the invoice it was handed, from ISSUED to PAID or to FAILED, and no
      other; exactly one more decline is counted when it becomes FAILED, and none otherwise. */
  lemma WorkIsCharging(s: Db, i: nat, d: Draw)
    requires Sound(s)
    ensures Charging(s, Work(s, i, d)) && Work(s, i, d).queue == s.queue - multiset{i}
    ensures forall k :: 0 <= k < |s.invoices| && (k != i || !s.invoices[i].status.Issued?) ==>
              k < |Work(s, i, d).invoices| && Work(s, i, d).invoices[k] == s.invoices[k]
    ensures forall k: nat :: k < |s.invoices| ==>
              && k < |Work(s, i, d).invoices|
              && Count(Work(s, i, d).attempts, k, Declined) ==
                 Count(s.attempts, k, Declined)
                 + (if s.invoices[k].status.Issued? && Work(s, i, d).invoices[k].status.Failed? then 1 else 0)
  {
    SoundFacts(s);
    forall k: nat | k < |s.invoices|
      ensures k < |Work(s, i, d).invoices|
      ensures Count(Work(s, i, d).attempts, k, Declined) ==
              Count(s.attempts, k, Declined)
              + (if s.invoices[k].status.Issued? && Work(s, i, d).invoices[k].status.Failed? then 1 else 0)
    {
      WorkDeclines(s, i, d, k);
    }
    hide Inv, Books, Count;
    AttemptIsCharging(s, i, d);
    forall k: nat | k < |s.invoices| && (k != i || !s.invoices[i].status.Issued?)
      ensures k < |Work(s, i, d).invoices| && Work(s, i, d).invoices[k] == s.invoices[k]
    {
      WorkTouchesOne(s, i, d, k);
    }
    hide Sound, AttemptCharge, Moves, StaysFresh, Trusted;
    var t := AttemptCharge(s, i, "", true, d);
    LoseCharges(t, i);
    ChargingTransitive(s, t, Work(s, i, d));
  }

  lemma WorkResolves(s: Db, i: nat, d: Draw)
    requires Sound(s) && FreshFor(s, i) && i < |s.invoices| && Fresh(s, d)
    ensures Resolved(Work(s, i, d), i)
  {
    if s.invoices[i].status.Issued? {
      AttemptResolves(s, i, d);
      hide AttemptCharge, Resolved;
      QueueIsIrrelevant(AttemptCharge(s, i, "", true, d), Work(s, i, d), i);
    } else {
      hide Sound, Work, Charging, FreshFor;
      WorkIsCharging(s, i, d);
      ResolvedStays(s, Work(s, i, d), i);
    }
  }

  lemma AttemptResolves(s: Db, i: nat, d: Draw)
    requires Sound(s) && FreshFor(s, i) && i < |s.invoices| && s.invoices[i].status.Issued? && Fresh(s, d)
    ensures Resolved(AttemptCharge(s, i, "", true, d), i)
  {
    SoundFacts(s);
    PrepareHandsOver(s, i, d);
    PreparedIsSound(s, i, d);
    hide Prepare, Charge, Sound, Inv, Books, FreshFor, Exists;
    var (prepared, reply) := Prepare(s, i, "", true, d.providerKey);
    if reply.value.charge {
      ChargeResolves(prepared, reply.value.attempt.value, d.success, d.chargeId);
    } else {
      assert HasFlagged(prepared, i);
    }
  }

  lemma PreparedIsSound(s: Db, i: nat, d: Draw)
    requires Sound(s)
    ensures Sound(Prepare(s, i, "", true, d.providerKey).0)
  {
    hide Sound, Prepare;
    SoundStep(s, PrepareStep(i, "", true, d.providerKey));
  }

  /** The worker leaves every invoice alone but the one it was handed, and that one unless ISSUED. */
  lemma WorkTouchesOne(s: Db, i: nat, d: Draw, k: nat)
    requires k < |s.invoices| && (k != i || !s.invoices[i].status.Issued?)
    ensures |Work(s, i, d).invoices| == |s.invoices| && Work(s, i, d).invoices[k] == s.invoices[k]
  {
    PrepareOfInvoice(s, i, d.providerKey);
    hide Prepare;
    var (prepared, reply) := Prepare(s, i, "", true, d.providerKey);
    if reply.Ok? && reply.value.attempt.Some? {
      ChargeTouchesOwn(prepared, reply.value.attempt.value, d.success, d.chargeId, k);
    }
  }

  lemma PrepareOfInvoice(s: Db, i: nat, providerKey: string)
    ensures
      var (t, reply) := Prepare(s, i, "", true, providerKey);
      && t.invoices == s.invoices
      && (reply.Ok? && reply.value.attempt.Some? ==>
            && i < |s.invoices| && s.invoices[i].status.Issued?
            && reply.value.attempt.value < |t.attempts| && t.attempts[reply.value.attempt.value].invoice == i)
  {
  }

  lemma ChargeTouchesOwn(s: Db, a: nat, success: bool, chargeId: string, k: nat)
    requires k < |s.invoices| && (a < |s.attempts| ==> s.attempts[a].invoice != k)
    ensures
      var t := Charge(s, a, success, chargeId);
      |t.invoices| == |s.invoices| && t.invoices[k] == s.invoices[k]
  {
    hide Settled, GatewayCharge, SettleRead;
  }

  lemma QueueIsIrrelevant(s: Db, t: Db, i: nat)
    requires s.invoices == t.invoices && s.attempts == t.attempts && Resolved(s, i)
    ensures Resolved(t, i)
  {
  }

  /** Drains the queue in the given order; `draws` are the ids and answers of each delivery. */
  function Drain(s: Db, ids: seq<nat>, draws: seq<Draw>): Db
    requires |ids| == |draws|
  {
    if ids == [] then s
    else
      var last := |ids| - 1;
      Work(Drain(s, ids[..last], draws[..last]), ids[last], draws[last])
  }

  /** Every delivery draws new ids. */
  predicate AllFresh(s: Db, ids: seq<nat>, draws: seq<Draw>)
    requires |ids| == |draws|
  {
    ids == [] ||
    (var last := |ids| - 1;
     AllFresh(s, ids[..last], draws[..last]) && Fresh(Drain(s, ids[..last], draws[..last]), draws[last]))
  }

  lemma {:induction false} DrainCharges(s: Db, ids: seq<nat>, draws: seq<Draw>)
    requires Sound(s) && |ids| == |draws|
    ensures Charging(s, Drain(s, ids, draws))
  {
    if ids == [] {
      StaysCharging(s);
    } else {
      var last := |ids| - 1;
      DrainCharges(s, ids[..last], draws[..last]);
      WorkIsCharging(Drain(s, ids[..last], draws[..last]), ids[last], draws[last]);
      ChargingTransitive(s, Drain(s, ids[..last], draws[..last]), Drain(s, ids, draws));
    }
  }

  /** One more delivery, after those in `mid`. */
  lemma WorkResolvesNext(mid: Db, k: nat, d: Draw, i: nat)
    requires Sound(mid) && FreshFor(mid, i) && i < |mid.invoices| && Fresh(mid, d)
    requires k == i || Resolved(mid, i)
    ensures Resolved(Work(mid, k, d), i)
  {
    hide Sound, Work, Charging, Resolved, FreshFor, Fresh;
    if k == i {
      WorkResolves(mid, i, d);
    } else {
      WorkIsCharging(mid, k, d);
      ResolvedStays(mid, Work(mid, k, d), i);
    }
  }

  lemma DrainKeeps(s: Db, ids: seq<nat>, draws: seq<Draw>, i: nat)
    requires Sound(s) && |ids| == |draws| && FreshFor(s, i)
    ensures
      var t := Drain(s, ids, draws);
      Sound(t) && |t.invoices| == |s.invoices| && FreshFor(t, i)
  {
    hide Sound, Drain, FreshFor, RowsLater, ChargeMoves;
    DrainCharges(s, ids, draws);
  }

  /** Draining with a responding gateway resolves every invoice whose task was delivered. */
  lemma {:induction false} DrainResolves(s: Db, ids: seq<nat>, draws: seq<Draw>, i: nat)
    requires Sound(s) && |ids| == |draws| && AllFresh(s, ids, draws) && i in ids && i < |s.invoices| && FreshFor(s, i)
    ensures Resolved(Drain(s, ids, draws), i)
  {
    hide Sound, Work, Charging, Resolved, Fresh, FreshFor;
    var last := |ids| - 1;
    DrainKeeps(s, ids[..last], draws[..last], i);
    if ids[last] != i {
      assert i in ids[..last];
      DrainResolves(s, ids[..last], draws[..last], i);
    }
    WorkResolvesNext(Drain(s, ids[..last], draws[..last]), ids[last], draws[last], i);
  }
}
