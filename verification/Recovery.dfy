/** reconcile_stuck (invoices/tasks.py): no issued invoice stays stranded. */
module Recovery {
  import opened Calendar
  import opened Tables
  import opened Services
  import opened Preservation
  import opened Truthful
  import opened ExampleRun
  import opened History
  import opened Freshness
  import opened Progress

  predicate IsAbandoned(a: Attempt, now: Time) {
    MayCharge(a) && a.attemptedAt + STUCK_CHARGE_AFTER <= now
  }

  /** The abandoned attempts with a primary key below `n`. */
  function Abandoned(rows: seq<Attempt>, now: Time, n: nat): (ids: seq<nat>)
    requires n <= |rows|
    ensures forall a: nat :: a in ids <==>
              a < n && rows[a].status == Pending && !rows[a].flagged && rows[a].attemptedAt + 600_000_000 <= now
  {
    if n == 0 then []
    else if IsAbandoned(rows[n - 1], now) then Abandoned(rows, now, n - 1) + [n - 1]
    else Abandoned(rows, now, n - 1)
  }

  predicate IsUncharged(s: Db, i: nat) {
    i < |s.invoices| && s.invoices[i].status.Issued? && s.invoices[i].issuedAt.Some?
    && s.invoices[i].issuedAt.value + STUCK_CHARGE_AFTER <= s.clock
    && !Exists(s.attempts, SinceIssue(i, s.invoices[i].issuedAt.value))
  }

  /** The stuck invoices with a primary key below `n`. */
  function Uncharged(s: Db, n: nat): (ids: seq<nat>)
    requires n <= |s.invoices|
    ensures forall i: nat :: i in ids <==>
              i < n && s.invoices[i].status == Issued && s.invoices[i].issuedAt.Some?
              && s.invoices[i].issuedAt.value + 600_000_000 <= s.clock
              && forall a :: 0 <= a < |s.attempts| && s.attempts[a].invoice == i ==>
                   s.attempts[a].attemptedAt < s.invoices[i].issuedAt.value
  {
    if n == 0 then []
    else if IsUncharged(s, n - 1) then Uncharged(s, n - 1) + [n - 1]
    else Uncharged(s, n - 1)
  }

  /** The first loop: recover_pending for each listed attempt. */
  function RecoverAll(s: Db, ids: seq<nat>, draws: seq<Draw>): Db
    requires |ids| == |draws|
  {
    if ids == [] then s
    else
      var last := |ids| - 1;
      Charge(RecoverAll(s, ids[..last], draws[..last]), ids[last], draws[last].success, draws[last].chargeId)
  }

  /** The second loop: charge_invoice.delay for each listed invoice. */
  function HandOver(s: Db, ids: seq<nat>): Db {
    if ids == [] then s
    else
      var t := HandOver(s, ids[..|ids| - 1]);
      t.(queue := t.queue + multiset{ids[|ids| - 1]})
  }

  /** reconcile_stuck */
  function Reconcile(s: Db, draws: seq<Draw>): Db
    requires |draws| == |Abandoned(s.attempts, s.clock, |s.attempts|)|
  {
    var recovered := RecoverAll(s, Abandoned(s.attempts, s.clock, |s.attempts|), draws);
    HandOver(recovered, Uncharged(recovered, |recovered.invoices|))
  }

  /** Each recovery call draws a new charge id. */
  predicate AllAnswered(s: Db, ids: seq<nat>, draws: seq<Draw>)
    requires |ids| == |draws|
  {
    ids == [] ||
    (var last := |ids| - 1;
     && AllAnswered(s, ids[..last], draws[..last])
     && !ChargeIdUsed(RecoverAll(s, ids[..last], draws[..last]).receipts, draws[last].chargeId))
  }

  lemma ChargeTouchesOne(s: Db, a: nat, success: bool, chargeId: string)
    ensures
      var t := Charge(s, a, success, chargeId);
      |t.attempts| == |s.attempts| && forall b :: 0 <= b < |s.attempts| && b != a ==> t.attempts[b] == s.attempts[b]
  {
  }

  lemma {:induction false} RecoverCharges(s: Db, ids: seq<nat>, draws: seq<Draw>)
    requires Sound(s) && |ids| == |draws|
    ensures Charging(s, RecoverAll(s, ids, draws))
    ensures |RecoverAll(s, ids, draws).attempts| == |s.attempts|
  {
    if ids == [] {
      StaysCharging(s);
    } else {
      var last := |ids| - 1;
      var mid := RecoverAll(s, ids[..last], draws[..last]);
      RecoverCharges(s, ids[..last], draws[..last]);
      ChargeIsCharging(mid, ids[last], draws[last].success, draws[last].chargeId);
      ChargeTouchesOne(mid, ids[last], draws[last].success, draws[last].chargeId);
      ChargingTransitive(s, mid, RecoverAll(s, ids, draws));
    }
  }

  /** One recovery call, seen from attempt `a` of invoice `i`. */
  lemma RecoverOne(s: Db, b: nat, d: Draw, a: nat, i: nat)
    requires Sound(s) && a < |s.attempts| && s.attempts[a].invoice == i
    ensures
      var t := Charge(s, b, d.success, d.chargeId);
      && |t.attempts| == |s.attempts|
      && (a != b ==> t.attempts[a] == s.attempts[a])
      && (Resolved(s, i) ==> Resolved(t, i))
      && (a == b && MayCharge(s.attempts[a]) && !ChargeIdUsed(s.receipts, d.chargeId) ==> Resolved(t, i))
  {
    ChargeTouchesOne(s, b, d.success, d.chargeId);
    ChargeIsCharging(s, b, d.success, d.chargeId);
    if Resolved(s, i) {
      ResolvedStays(s, Charge(s, b, d.success, d.chargeId), i);
    } else if a == b && MayCharge(s.attempts[a]) && !ChargeIdUsed(s.receipts, d.chargeId) {
      ChargeResolves(s, a, d.success, d.chargeId);
    }
  }

  lemma RecoverSound(s: Db, ids: seq<nat>, draws: seq<Draw>, a: nat)
    requires Sound(s) && |ids| == |draws| && a < |s.attempts|
    ensures var t := RecoverAll(s, ids, draws);
            Sound(t) && |t.attempts| == |s.attempts| && t.attempts[a].invoice == s.attempts[a].invoice
  {
    RecoverCharges(s, ids, draws);
    assert AttemptLater(s.attempts[a], RecoverAll(s, ids, draws).attempts[a]);
  }

  /** Every listed attempt in flight is charged, which resolves its invoice; all attempts that
      are not listed are left alone. */
  lemma {:induction false} RecoverResolves(s: Db, ids: seq<nat>, draws: seq<Draw>, a: nat)
    requires Sound(s) && |ids| == |draws| && AllAnswered(s, ids, draws) && a < |s.attempts|
    ensures |RecoverAll(s, ids, draws).attempts| == |s.attempts|
    ensures a in ids && MayCharge(s.attempts[a]) ==> Resolved(RecoverAll(s, ids, draws), s.attempts[a].invoice)
    ensures a !in ids ==> RecoverAll(s, ids, draws).attempts[a] == s.attempts[a]
  {
    hide Sound, Charge, Resolved;
    if ids != [] {
      var last := |ids| - 1;
      RecoverSound(s, ids[..last], draws[..last], a);
      RecoverResolves(s, ids[..last], draws[..last], a);
      RecoverOne(RecoverAll(s, ids[..last], draws[..last]), ids[last], draws[last], a, s.attempts[a].invoice);
    }
  }

  /** Old enough to be swept, with no attempt younger than ten minutes. */
  predicate Stuck(s: Db, i: nat) {
    i < |s.invoices| && s.invoices[i].status.Issued? && s.invoices[i].issuedAt.Some?
    && s.invoices[i].issuedAt.value + STUCK_CHARGE_AFTER <= s.clock
    && forall a :: 0 <= a < |s.attempts| && s.attempts[a].invoice == i ==>
       s.attempts[a].attemptedAt + STUCK_CHARGE_AFTER <= s.clock
  }

  /** The invoice has an attempt in flight, or none was made since its issue. */
  predicate Recoverable(s: Db, i: nat)
    requires i < |s.invoices|
  {
    Exists(s.attempts, PendingOf(i)) || !Exists(s.attempts, SinceIssue(i, IssueTime(s.invoices[i])))
  }

  // ---- A recoverable invoice is resolved ----

  /** An attempt still PENDING after the first loop is settled or flagged by then. */
  lemma PendingAfterLoop(s: Db, ids: seq<nat>, draws: seq<Draw>, i: nat, a: nat)
    requires Sound(s) && Stuck(s, i) && |ids| == |draws| && AllAnswered(s, ids, draws)
    requires forall b: nat :: b < |s.attempts| && IsAbandoned(s.attempts[b], s.clock) ==> b in ids
    requires a < |s.attempts| && s.attempts[a].invoice == i && s.attempts[a].status.Pending?
    ensures Resolved(RecoverAll(s, ids, draws), i)
  {
    hide Sound, RecoverAll, AllAnswered, Charging;
    if MayCharge(s.attempts[a]) {
      RecoverResolves(s, ids, draws, a);
    } else {
      assert HasFlagged(s, i);
      RecoverCharges(s, ids, draws);
      ResolvedStays(s, RecoverAll(s, ids, draws), i);
    }
  }

  lemma RecoverKeeps(s: Db, ids: seq<nat>, draws: seq<Draw>, i: nat)
    requires Sound(s) && |ids| == |draws| && i < |s.invoices|
    ensures
      var r := RecoverAll(s, ids, draws);
      && Sound(r) && |r.invoices| == |s.invoices| && r.clock == s.clock && |r.attempts| == |s.attempts|
      && (r.invoices[i].status.Issued? ==> r.invoices[i] == s.invoices[i])
      && (forall a :: 0 <= a < |s.attempts| ==> AttemptKept(s.attempts[a], r.attempts[a]))
      && (FreshFor(s, i) ==> FreshFor(r, i))
  {
    hide Sound, Trusted, RecoverAll, FreshFor;
    RecoverCharges(s, ids, draws);
    var r := RecoverAll(s, ids, draws);
    assert ChargeMove(s.invoices[i], r.invoices[i], Count(s.attempts, i, Declined), Count(r.attempts, i, Declined));
    assert forall a :: 0 <= a < |s.attempts| ==> AttemptLater(s.attempts[a], r.attempts[a]);
  }

  /** With nothing charged since the issue, the second query finds the invoice, unless it has
      left ISSUED. */
  lemma UnchargedAfterLoop(s: Db, ids: seq<nat>, draws: seq<Draw>, i: nat)
    requires Sound(s) && Stuck(s, i) && |ids| == |draws|
    requires !Exists(s.attempts, SinceIssue(i, IssueTime(s.invoices[i])))
    ensures Resolved(RecoverAll(s, ids, draws), i) || IsUncharged(RecoverAll(s, ids, draws), i)
    ensures FreshFor(s, i) && FreshFor(RecoverAll(s, ids, draws), i)
  {
    hide Sound, RecoverAll, Exists;
    NoneSince(s.attempts, i, IssueTime(s.invoices[i]));
    RecoverKeeps(s, ids, draws, i);
    var r := RecoverAll(s, ids, draws);
    forall a | 0 <= a < |r.attempts|
      ensures !Matches(SinceIssue(i, IssueTime(s.invoices[i])), r.attempts[a], a)
    {
      assert AttemptKept(s.attempts[a], r.attempts[a]);
    }
    NoneSince(r.attempts, i, IssueTime(s.invoices[i]));
  }

  lemma NoneSince(rows: seq<Attempt>, i: nat, t: Time)
    ensures !Exists(rows, SinceIssue(i, t)) <==> forall a :: 0 <= a < |rows| ==> !Matches(SinceIssue(i, t), rows[a], a)
  {
  }

  /** After the first loop a recoverable invoice is resolved, or the second query finds it. */
  lemma AfterFirstLoop(s: Db, ids: seq<nat>, draws: seq<Draw>, i: nat)
    requires Sound(s) && Stuck(s, i) && Recoverable(s, i) && |ids| == |draws| && AllAnswered(s, ids, draws)
    requires forall b: nat :: b < |s.attempts| && IsAbandoned(s.attempts[b], s.clock) ==> b in ids
    ensures
      var r := RecoverAll(s, ids, draws);
      Resolved(r, i) || (IsUncharged(r, i) && FreshFor(r, i))
  {
    hide Sound, RecoverAll, AllAnswered, Resolved, IsUncharged, FreshFor;
    if Exists(s.attempts, PendingOf(i)) {
      PendingAfterLoop(s, ids, draws, i, First(s.attempts, PendingOf(i)).value);
    } else {
      UnchargedAfterLoop(s, ids, draws, i);
    }
  }

  lemma SweepResolves(s: Db, draws: seq<Draw>, order: seq<nat>, more: seq<Draw>, i: nat)
    requires Sound(s) && Stuck(s, i) && Recoverable(s, i)
    requires |draws| == |Abandoned(s.attempts, s.clock, |s.attempts|)|
    requires AllAnswered(s, Abandoned(s.attempts, s.clock, |s.attempts|), draws)
    requires multiset(order) == Reconcile(s, draws).queue && |order| == |more| &&
        AllFresh(Reconcile(s, draws), order, more)
    ensures Resolved(Drain(Reconcile(s, draws), order, more), i)
  {
    var ids := Abandoned(s.attempts, s.clock, |s.attempts|);
    var recovered := RecoverAll(s, ids, draws);
    var stuck := Uncharged(recovered, |recovered.invoices|);
    RecoverKeeps(s, ids, draws, i);
    AfterFirstLoop(s, ids, draws, i);
    HandOverKeepsSound(recovered, stuck);
    hide Sound, RecoverAll, HandOver, AllAnswered, Resolved, IsUncharged, FreshFor, AllFresh, Drain, Charging;
    if Resolved(recovered, i) {
      ResolvedThroughDrain(recovered, stuck, order, more, i);
    } else {
      assert i in stuck;
      HandedOverResolves(recovered, stuck, order, more, i);
    }
  }

  lemma ResolvedThroughDrain(s: Db, stuck: seq<nat>, order: seq<nat>, more: seq<Draw>, i: nat)
    requires Sound(s) && Sound(HandOver(s, stuck)) && HandOver(s, stuck) == s.(queue := s.queue + multiset(stuck))
    requires |order| == |more| && Resolved(s, i)
    ensures Resolved(Drain(HandOver(s, stuck), order, more), i)
  {
    hide Sound, HandOver, Drain, Charging;
    QueueIsIrrelevant(s, HandOver(s, stuck), i);
    hide Resolved;
    DrainCharges(HandOver(s, stuck), order, more);
    ResolvedStays(HandOver(s, stuck), Drain(HandOver(s, stuck), order, more), i);
  }

  lemma HandedOverResolves(s: Db, stuck: seq<nat>, order: seq<nat>, more: seq<Draw>, i: nat)
    requires Sound(HandOver(s, stuck)) && HandOver(s, stuck) == s.(queue := s.queue + multiset(stuck))
    requires i in stuck && FreshFor(s, i) && i < |s.invoices|
    requires multiset(order) == HandOver(s, stuck).queue && |order| == |more| &&
        AllFresh(HandOver(s, stuck), order, more)
    ensures Resolved(Drain(HandOver(s, stuck), order, more), i)
  {
    hide Sound, HandOver, Drain, AllFresh, Resolved;
    assert FreshFor(HandOver(s, stuck), i);
    hide FreshFor;
    assert i in multiset(order);
    DrainResolves(HandOver(s, stuck), order, more, i);
  }

  // ---- Any other invoice stays where it is ----

  /** ISSUED, charged since that issue, and nothing in flight. */
  predicate Dead(s: Db, i: nat) {
    && i < |s.invoices| && s.invoices[i].status.Issued? && s.invoices[i].issuedAt.Some?
    && Exists(s.attempts, SinceIssue(i, s.invoices[i].issuedAt.value))
    && (forall a :: 0 <= a < |s.attempts| && s.attempts[a].invoice == i ==> !s.attempts[a].status.Pending?)
  }

  lemma DeadThroughCharge(s: Db, b: nat, success: bool, chargeId: string, i: nat)
    requires Dead(s, i)
    ensures Dead(Charge(s, b, success, chargeId), i)
  {
    var t := Charge(s, b, success, chargeId);
    if b < |s.attempts| && MayCharge(s.attempts[b]) {
      ChargeTouchesOne(s, b, success, chargeId);
      ChargeTouchesOwn(s, b, success, chargeId, i);
      ChargeKeepsInvoice(s, b, success, chargeId);
      hide Charge;
      var a := First(s.attempts, SinceIssue(i, s.invoices[i].issuedAt.value)).value;
      assert Matches(SinceIssue(i, s.invoices[i].issuedAt.value), t.attempts[a], a);
    }
  }

  lemma ChargeKeepsInvoice(s: Db, b: nat, success: bool, chargeId: string)
    requires b < |s.attempts|
    ensures
      var t := Charge(s, b, success, chargeId);
      |t.attempts| == |s.attempts| && t.attempts[b].invoice == s.attempts[b].invoice
  {
    hide Settled, Exists, OtherArrears, GatewayCharge;
  }

  lemma DeadThroughWork(s: Db, k: nat, d: Draw, i: nat)
    requires Dead(s, i)
    ensures Dead(Work(s, k, d), i)
  {
    DeadThroughPrepare(s, k, d.providerKey, i);
    hide Prepare, Charge;
    var (prepared, reply) := Prepare(s, k, "", true, d.providerKey);
    if reply.Ok? && reply.value.charge && reply.value.attempt.Some? {
      DeadThroughCharge(prepared, reply.value.attempt.value, d.success, d.chargeId, i);
    }
  }

  lemma DeadThroughPrepare(s: Db, k: nat, providerKey: string, i: nat)
    requires Dead(s, i)
    ensures Dead(Prepare(s, k, "", true, providerKey).0, i)
  {
    var t := Prepare(s, k, "", true, providerKey).0;
    PrepareInserts(s, k, "", true, providerKey);
    hide Prepare;
    var a := First(s.attempts, SinceIssue(i, s.invoices[i].issuedAt.value)).value;
    assert Matches(SinceIssue(i, s.invoices[i].issuedAt.value), t.attempts[a], a);
  }

  lemma {:induction false} DeadThroughRecovery(s: Db, ids: seq<nat>, draws: seq<Draw>, i: nat)
    requires Dead(s, i) && |ids| == |draws|
    ensures Dead(RecoverAll(s, ids, draws), i)
  {
    hide Dead, Charge;
    if ids != [] {
      var last := |ids| - 1;
      DeadThroughRecovery(s, ids[..last], draws[..last], i);
      DeadThroughCharge(RecoverAll(s, ids[..last], draws[..last]), ids[last], draws[last].success,
          draws[last].chargeId, i);
    }
  }

  lemma {:induction false} DeadThroughDrain(s: Db, ids: seq<nat>, draws: seq<Draw>, i: nat)
    requires Dead(s, i) && |ids| == |draws|
    ensures Dead(Drain(s, ids, draws), i)
  {
    hide Dead, Work;
    if ids != [] {
      var last := |ids| - 1;
      DeadThroughDrain(s, ids[..last], draws[..last], i);
      DeadThroughWork(Drain(s, ids[..last], draws[..last]), ids[last], draws[last], i);
    }
  }

  lemma {:induction false} DeadThroughHandOver(s: Db, ids: seq<nat>, i: nat)
    requires Dead(s, i)
    ensures Dead(HandOver(s, ids), i)
  {
    if ids != [] {
      DeadThroughHandOver(s, ids[..|ids| - 1], i);
    }
  }

  lemma SweepLeaves(s: Db, draws: seq<Draw>, order: seq<nat>, more: seq<Draw>, i: nat)
    requires Dead(s, i) && |draws| == |Abandoned(s.attempts, s.clock, |s.attempts|)| && |order| == |more|
    ensures !Resolved(Drain(Reconcile(s, draws), order, more), i)
  {
    var ids := Abandoned(s.attempts, s.clock, |s.attempts|);
    var recovered := RecoverAll(s, ids, draws);
    DeadThroughRecovery(s, ids, draws, i);
    DeadThroughHandOver(recovered, Uncharged(recovered, |recovered.invoices|), i);
    DeadThroughDrain(Reconcile(s, draws), order, more, i);
    hide RecoverAll, HandOver, Drain;
    DeadIsUnresolved(Drain(Reconcile(s, draws), order, more), i);
  }

  lemma DeadIsUnresolved(s: Db, i: nat)
    requires Dead(s, i)
    ensures !Resolved(s, i)
  {
  }

  // ---- The sweep ----

  /** After reconcile_stuck and a drained queue with a responding gateway, an invoice issued at
      least ten minutes ago with no younger attempt has left ISSUED, or its attempt is flagged
      for manual reconciliation, exactly when before the sweep it had an attempt in flight or
      no attempt since its issue. This holds after any run, whatever the webhooks said. */
  lemma NothingStaysStranded(steps: seq<Step>, draws: seq<Draw>, order: seq<nat>, more: seq<Draw>, i: nat)
    requires Stuck(Run(Empty(), steps), i)
    requires
      var s := Run(Empty(), steps);
      && |draws| == |Abandoned(s.attempts, s.clock, |s.attempts|)|
      && AllAnswered(s, Abandoned(s.attempts, s.clock, |s.attempts|), draws)
    requires
      var r := Reconcile(Run(Empty(), steps), draws);
      multiset(order) == r.queue && |order| == |more| && AllFresh(r, order, more)
    ensures
      var s := Run(Empty(), steps);
      Resolved(Drain(Reconcile(s, draws), order, more), i) <==> Recoverable(s, i)
  {
    hide Run, Reconcile, Drain, Resolved, AllAnswered, AllFresh;
    var s := Run(Empty(), steps);
    assert Sound(s);
    if Recoverable(s, i) {
      SweepResolves(s, draws, order, more, i);
    } else {
      assert Dead(s, i);
      SweepLeaves(s, draws, order, more, i);
    }
  }

  /** A truthful run that strands an invoice: ten minutes after a reissue that was lost, neither
      query of the sweep finds it, and it stays ISSUED whatever the provider would answer. */
  lemma StrandedRun(draws: seq<Draw>, order: seq<nat>, more: seq<Draw>)
    requires
      var s := Run(Empty(), LostReissue());
      |draws| == |Abandoned(s.attempts, s.clock, |s.attempts|)| && |order| == |more|
    ensures
      var s := Run(Empty(), LostReissue());
      && HonestRun(LostReissue()) && Stuck(s, 0) && !Recoverable(s, 0)
      && !Resolved(Drain(Reconcile(s, draws), order, more), 0)
  {
    LostReissueIsHonest();
    LostReissueRuns();
    TenMinutesLaterIsDead();
    hide Run, HonestRun, Reconcile, Drain, Resolved, Dead, LostReissue;
    SweepLeaves(TenMinutesLater(), draws, order, more, 0);
  }

  lemma TenMinutesLaterIsDead()
    ensures var s := TenMinutesLater(); Stuck(s, 0) && !Recoverable(s, 0) && Dead(s, 0)
  {
    var s := TenMinutesLater();
    assert Matches(SinceIssue(0, 0), s.attempts[0], 0);
  }

  /** The condition holds for every invoice that was only dunned when the clock had moved
      since its last attempt. */
  lemma MovingClockIsRecoverable(steps: seq<Step>, i: nat)
    requires StrictRun(steps, i) && i < |Run(Empty(), steps).invoices| && Run(Empty(), steps).invoices[i].status.Issued?
    ensures Recoverable(Run(Empty(), steps), i)
  {
    ReachableFresh(steps, i);
    Reachable(steps);
    hide Run, StrictRun;
    var s := Run(Empty(), steps);
    var since := First(s.attempts, SinceIssue(i, IssueTime(s.invoices[i])));
    if since.Some? {
      assert AttemptFits(s.attempts[since.value], s.invoices[i]);
      assert Matches(PendingOf(i), s.attempts[since.value], since.value);
    }
  }

  lemma RedeliveryKeepsSound(s: Db, i: nat)
    requires Sound(s)
    ensures Sound(s.(queue := s.queue + multiset{i}))
  {
    SoundStep(s, RedeliverTask(i));
  }

  lemma {:induction false} HandOverKeepsSound(s: Db, ids: seq<nat>)
    requires Sound(s)
    ensures Sound(HandOver(s, ids)) && HandOver(s, ids) == s.(queue := s.queue + multiset(ids))
  {
    hide Sound;
    if ids == [] {
      assert s.queue + multiset(ids) == s.queue;
    } else {
      var last := |ids| - 1;
      HandOverKeepsSound(s, ids[..last]);
      RedeliveryKeepsSound(HandOver(s, ids[..last]), ids[last]);
      assert ids == ids[..last] + [ids[last]];
    }
  }

  // ---- What the sweep does, without its functions ----

  lemma {:induction false} RecoverLeavesUnlisted(s: Db, ids: seq<nat>, draws: seq<Draw>, a: nat)
    requires |ids| == |draws| && a < |s.attempts| && a !in ids
    ensures
      var t := RecoverAll(s, ids, draws);
      && |t.attempts| == |s.attempts| && t.attempts[a] == s.attempts[a]
      && t.queue == s.queue && t.clock == s.clock && |t.invoices| == |s.invoices|
  {
    hide Charge;
    if ids != [] {
      var last := |ids| - 1;
      RecoverLeavesUnlisted(s, ids[..last], draws[..last], a);
      var mid := RecoverAll(s, ids[..last], draws[..last]);
      ChargeTouchesOne(mid, ids[last], draws[last].success, draws[last].chargeId);
      ChargeKeepsQueue(mid, ids[last], draws[last].success, draws[last].chargeId);
    }
  }

  lemma ChargeKeepsQueue(s: Db, a: nat, success: bool, chargeId: string)
    ensures var t := Charge(s, a, success, chargeId);
            t.queue == s.queue && t.clock == s.clock && |t.invoices| == |s.invoices|
  {
    hide Settled, GatewayCharge;
  }

  lemma {:induction false} RecoverKeepsQueue(s: Db, ids: seq<nat>, draws: seq<Draw>)
    requires |ids| == |draws|
    ensures
      var t := RecoverAll(s, ids, draws);
      t.queue == s.queue && t.clock == s.clock && |t.invoices| == |s.invoices|
  {
    hide Charge;
    if ids != [] {
      var last := |ids| - 1;
      RecoverKeepsQueue(s, ids[..last], draws[..last]);
      ChargeKeepsQueue(RecoverAll(s, ids[..last], draws[..last]), ids[last], draws[last].success, draws[last].chargeId);
    }
  }

  lemma {:induction false} HandOverQueues(s: Db, ids: seq<nat>)
    ensures HandOver(s, ids) == s.(queue := s.queue + multiset(ids))
  {
    if ids == [] {
      assert s.queue + multiset(ids) == s.queue;
    } else {
      HandOverQueues(s, ids[..|ids| - 1]);
      assert ids == ids[..|ids| - 1] + [ids[|ids| - 1]];
    }
  }

  lemma {:induction false} UnchargedOnce(s: Db, n: nat, i: nat)
    requires n <= |s.invoices|
    ensures multiset(Uncharged(s, n))[i] == if i in Uncharged(s, n) then 1 else 0
  {
    hide IsUncharged;
    if n > 0 {
      UnchargedOnce(s, n - 1, i);
    }
  }

  /** The sweep charges no attempt that is younger than ten minutes, settled or flagged, and then
      hands over, once each, exactly the invoices issued ten minutes ago or earlier that are
      ISSUED with no attempt since. */
  lemma SweepFinds(s: Db, draws: seq<Draw>)
    requires |draws| == |Abandoned(s.attempts, s.clock, |s.attempts|)|
    ensures
      var t := Reconcile(s, draws);
      && t.clock == s.clock && |t.attempts| == |s.attempts| && |t.invoices| == |s.invoices|
      && (forall a :: 0 <= a < |s.attempts| && t.attempts[a] != s.attempts[a] ==>
            s.attempts[a].status == Pending && !s.attempts[a].flagged
            && s.attempts[a].attemptedAt + 600_000_000 <= s.clock)
      && (forall i: nat :: t.queue[i] == s.queue[i] +
            if i < |t.invoices| && t.invoices[i].status == Issued && t.invoices[i].issuedAt.Some?
               && t.invoices[i].issuedAt.value + 600_000_000 <= s.clock
               && (forall a :: 0 <= a < |t.attempts| && t.attempts[a].invoice == i ==>
                     t.attempts[a].attemptedAt < t.invoices[i].issuedAt.value)
            then 1 else 0)
  {
    hide RecoverAll, HandOver, IsUncharged, IsAbandoned;
    var ids := Abandoned(s.attempts, s.clock, |s.attempts|);
    var r := RecoverAll(s, ids, draws);
    RecoverCount(s, ids, draws);
    RecoverKeepsQueue(s, ids, draws);
    HandOverQueues(r, Uncharged(r, |r.invoices|));
    forall a | 0 <= a < |s.attempts| && r.attempts[a] != s.attempts[a]
      ensures a in ids
    {
      if a !in ids { RecoverLeavesUnlisted(s, ids, draws, a); }
    }
    forall i: nat
      ensures multiset(Uncharged(r, |r.invoices|))[i] == if i in Uncharged(r, |r.invoices|) then 1 else 0
    {
      UnchargedOnce(r, |r.invoices|, i);
    }
  }

  lemma {:induction false} RecoverCount(s: Db, ids: seq<nat>, draws: seq<Draw>)
    requires |ids| == |draws|
    ensures |RecoverAll(s, ids, draws).attempts| == |s.attempts|
  {
    hide Charge;
    if ids != [] {
      var last := |ids| - 1;
      RecoverCount(s, ids[..last], draws[..last]);
      ChargeTouchesOne(RecoverAll(s, ids[..last], draws[..last]), ids[last], draws[last].success, draws[last].chargeId);
    }
  }
}
