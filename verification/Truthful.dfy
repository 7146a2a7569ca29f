/** A truthful provider: every settlement carries the ledger's own result for the attempt.
    Gateway calls, crashes, lost responses, duplicate tasks and retries stay arbitrary. */
module Truthful {
  import opened Tables
  import opened Services
  import opened Counting
  import opened Invariant
  import opened Preservation
  import opened History
  import opened Ledger

  predicate Backed(s: Db, a: nat, success: bool, charge: string)
    requires a < |s.attempts|
  {
    LedgerOf(s, a).Some? && LedgerOf(s, a).value.success == success && LedgerOf(s, a).value.chargeId == charge
  }

  predicate Honest(s: Db, step: Step) {
    match step
    case SettleStep(a, success, charge) => a < |s.attempts| ==> Backed(s, a, success, charge)
    case WebhookStep(d) =>
      WellFormed(d) && !EventSeen(s.events, d.provider, d.eventId.t)
      && d.payload.paymentId.Number? && d.payload.paymentId.n <= |s.attempts| ==>
        Backed(s, d.payload.paymentId.n - 1, d.payload.status == Text("success"), d.payload.chargeId.t)
    case _ => true
  }

  predicate HonestRun(steps: seq<Step>) {
    steps == [] ||
    (HonestRun(steps[..|steps| - 1]) && Honest(Run(Empty(), steps[..|steps| - 1]), steps[|steps| - 1]))
  }

  /** An attempt's stored state agrees with the ledger, and only a canceled subscription has
      flagged attempts. */
  predicate Agrees(a: Attempt, receipt: Option<Receipt>, sub: SubscriptionStatus) {
    match a.status
    case Success => !a.flagged && receipt.Some? && receipt.value.success && receipt.value.chargeId == a.chargeId
    case Declined => !a.flagged && receipt.Some? && !receipt.value.success && receipt.value.chargeId == a.chargeId
    case Pending =>
      a.flagged ==> sub.SubCanceled? && receipt.Some? && receipt.value.success && receipt.value.chargeId == a.chargeId
  }

  ghost predicate Truth(s: Db) {
    && (forall a :: 0 <= a < |s.attempts| ==> Agrees(s.attempts[a], LedgerOf(s, a), s.subs[OwnerOf(s, a)].status))
    && (forall i :: 0 <= i < |s.invoices| ==> AtMostOneLive(s.attempts, i))
  }

  /** At most one attempt of an invoice is not declined. */
  predicate AtMostOneLive(rows: seq<Attempt>, i: nat) {
    Count(rows, i, Pending) + Count(rows, i, Success) <= 1
  }

  // ---- What a truthful settlement does ----

  /** The rows after a backed settlement of an unflagged PENDING attempt. */
  function Applied(f: SettleFacts, success: bool, charge: string): SettleRows {
    if !success then
      if f.sub.status.SubCanceled? then SettleRows(f.sub, f.invoice, f.payment.(status := Declined, chargeId := charge))
      else SettleRows(
        if f.sub.status.Active? then f.sub.(status := SubOverdue) else f.sub,
        if f.invoice.status.Issued? then f.invoice.(status := Failed) else f.invoice,
        f.payment.(status := Declined, chargeId := charge))
    else if f.sub.status.SubCanceled? then
      SettleRows(f.sub, f.invoice, f.payment.(flagged := true, chargeId := charge))
    else SettleRows(
      if f.sub.status.SubOverdue? && !f.otherArrears then f.sub.(status := Active) else f.sub,
      f.invoice.(status := Paid),
      f.payment.(status := Success, chargeId := charge))
  }

  lemma BackedRows(f: SettleFacts, success: bool, charge: string)
    requires Allowed(f.sub.status, f.invoice.status) && !f.invoice.status.Paid?
    requires MayCharge(f.payment) && f.payment.chargeId == "" && !f.otherSuccess && (charge != "" ==> !f.taken)
    ensures Settled(f, success, charge) == Applied(f, success, charge)
  {
  }

  lemma NotPaidYet(s: Db, a: nat)
    requires Inv(s) && Truth(s) && a < |s.attempts| && s.attempts[a].status.Pending?
    ensures !s.invoices[s.attempts[a].invoice].status.Paid?
    ensures !Exists(s.attempts, SuccessOfOther(s.attempts[a].invoice, a))
  {
    var i := s.attempts[a].invoice;
    CountThese(s.attempts, i, Pending, a);
    assert AtMostOneLive(s.attempts, i) && TallyOk(s.attempts, i, s.invoices[i].status);
    SuccessCounted(s.attempts, i, a);
  }

  /** A charge id on the ledger for attempt `a` is stored on no other attempt. */
  lemma ChargeIdIsFree(s: Db, a: nat)
    requires Charges(s) && Books(s) && Truth(s) && a < |s.attempts| && LedgerOf(s, a).Some?
    ensures LedgerOf(s, a).value.chargeId != "" ==> !Exists(s.attempts, BoundToOther(LedgerOf(s, a).value.chargeId, a))
  {
    var charge := LedgerOf(s, a).value.chargeId;
    var other := First(s.attempts, BoundToOther(charge, a));
    if charge != "" && other.Some? {
      StoredOnce(s, a, other.value);
    }
  }

  lemma StoredOnce(s: Db, a: nat, b: nat)
    requires Charges(s) && Books(s) && Truth(s) && a < |s.attempts| && b < |s.attempts| && a != b &&
        LedgerOf(s, a).Some?
    ensures s.attempts[b].chargeId != "" ==> s.attempts[b].chargeId != LedgerOf(s, a).value.chargeId
  {
    assert Agrees(s.attempts[b], LedgerOf(s, b), s.subs[OwnerOf(s, b)].status);
    assert Apart(s.attempts[a], s.attempts[b]);
    var j, k := FindReceipt(s.receipts, s.attempts[a].request.key), FindReceipt(s.receipts, s.attempts[b].request.key);
    assert k.Some? && j != k ==> ReceiptsApart(s.receipts[j.value], s.receipts[k.value]);
  }

  lemma BackedFacts(s: Db, a: nat, success: bool, charge: string)
    requires Inv(s) && Books(s) && Truth(s) && a < |s.attempts| && Backed(s, a, success, charge)
    requires MayCharge(s.attempts[a])
    ensures
      var f := SettleRead(s, a, charge);
      && Allowed(f.sub.status, f.invoice.status) && !f.invoice.status.Paid?
      && f.payment.chargeId == "" && !f.otherSuccess && (charge != "" ==> !f.taken)
  {
    NotPaidYet(s, a);
    ChargeIdIsFree(s, a);
  }

  /** A stored result meets its own receipt again: nothing happens. */
  lemma StaleRows(f: SettleFacts, success: bool, charge: string)
    requires !MayCharge(f.payment) && f.payment.chargeId == charge
    requires f.payment.status.Success? || f.payment.flagged || (f.payment.status.Declined? && !success)
    ensures Settled(f, success, charge) == SettleRows(f.sub, f.invoice, f.payment)
  {
  }

  lemma WriteSame(s: Db, a: nat, charge: string)
    requires a < |s.attempts|
    ensures var f := SettleRead(s, a, charge); Write(s, a, SettleRows(f.sub, f.invoice, f.payment)) == s
  {
  }

  lemma StaleSettle(s: Db, a: nat, success: bool, charge: string)
    requires Truth(s) && a < |s.attempts| && Backed(s, a, success, charge) && !MayCharge(s.attempts[a])
    ensures Settle(s, a, success, charge) == s
  {
    assert Agrees(s.attempts[a], LedgerOf(s, a), s.subs[OwnerOf(s, a)].status);
    StaleRows(SettleRead(s, a, charge), success, charge);
    WriteSame(s, a, charge);
  }

  /** A backed settlement changes only an unflagged PENDING attempt, and then as `Applied` says. */
  lemma BackedSettle(s: Db, a: nat, success: bool, charge: string)
    requires Inv(s) && Books(s) && Truth(s) && a < |s.attempts| && Backed(s, a, success, charge)
    ensures Settle(s, a, success, charge) ==
            if MayCharge(s.attempts[a]) then Write(s, a, Applied(SettleRead(s, a, charge), success, charge)) else s
  {
    if MayCharge(s.attempts[a]) {
      BackedFacts(s, a, success, charge);
      BackedRows(SettleRead(s, a, charge), success, charge);
    } else {
      StaleSettle(s, a, success, charge);
    }
  }

  // ---- Truth is kept ----

  lemma AppliedKeepsTruth(s: Db, a: nat, success: bool, charge: string)
    requires Truth(s) && a < |s.attempts| && Backed(s, a, success, charge) && MayCharge(s.attempts[a])
    ensures Truth(Write(s, a, Applied(SettleRead(s, a, charge), success, charge)))
  {
    var r := Applied(SettleRead(s, a, charge), success, charge);
    var t := Write(s, a, r);
    forall b | 0 <= b < |t.attempts|
      ensures Agrees(t.attempts[b], LedgerOf(t, b), t.subs[OwnerOf(t, b)].status)
    {
      assert Agrees(s.attempts[b], LedgerOf(s, b), s.subs[OwnerOf(s, b)].status);
    }
    forall i | 0 <= i < |t.invoices|
      ensures AtMostOneLive(t.attempts, i)
    {
      CountUpdate(s.attempts, a, r.payment, i, Pending);
      CountUpdate(s.attempts, a, r.payment, i, Success);
      assert AtMostOneLive(s.attempts, i);
    }
  }

  lemma SettleKeepsTruth(s: Db, a: nat, success: bool, charge: string)
    requires Inv(s) && Books(s) && Truth(s) && a < |s.attempts| && Backed(s, a, success, charge)
    ensures Truth(Settle(s, a, success, charge))
  {
    BackedSettle(s, a, success, charge);
    if MayCharge(s.attempts[a]) { AppliedKeepsTruth(s, a, success, charge); }
  }

  lemma CallKeepsTruth(s: Db, a: nat, success: bool, chargeId: string)
    requires Truth(s)
    ensures Truth(Call(s, a, success, chargeId).0)
  {
    var t := Call(s, a, success, chargeId).0;
    if a < |s.attempts| {
      CallAppends(s, a, success, chargeId);
      if t != s {
        forall b | 0 <= b < |t.attempts|
          ensures Agrees(t.attempts[b], LedgerOf(t, b), t.subs[OwnerOf(t, b)].status)
        {
          FindAppend(s.receipts, Receipt(s.attempts[a].request, success, chargeId), s.attempts[b].request.key);
          assert Agrees(s.attempts[b], LedgerOf(s, b), s.subs[OwnerOf(s, b)].status);
        }
      }
    }
  }

  lemma PrepareKeepsTruth(s: Db, i: nat, key: string, issuedOnly: bool, providerKey: string)
    requires Truth(s)
    ensures Truth(Prepare(s, i, key, issuedOnly, providerKey).0)
  {
    var t := Prepare(s, i, key, issuedOnly, providerKey).0;
    PrepareInserts(s, i, key, issuedOnly, providerKey);
    if t != s {
      var row := NewAttempt(i, s.invoices[i], CustomerOf(s, i), key, providerKey, s.clock);
      NoOpenAttempt(s, i);
      forall k | 0 <= k < |t.invoices|
        ensures AtMostOneLive(t.attempts, k)
      {
        CountAppend(s.attempts, row, k, Pending);
        CountAppend(s.attempts, row, k, Success);
        assert AtMostOneLive(s.attempts, k);
      }
      forall b | 0 <= b < |s.attempts|
        ensures Agrees(t.attempts[b], LedgerOf(t, b), t.subs[OwnerOf(t, b)].status)
      {
        assert Agrees(s.attempts[b], LedgerOf(s, b), s.subs[OwnerOf(s, b)].status);
      }
    }
  }

  /** Steps that leave attempts and receipts alone never revive a canceled subscription. */
  lemma QuietKeepsTruth(s: Db, t: Db)
    requires Truth(s) && RowsLater(s, t) && s.attempts == t.attempts && s.receipts == t.receipts
    ensures Truth(t)
  {
    forall b | 0 <= b < |t.attempts|
      ensures Agrees(t.attempts[b], LedgerOf(t, b), t.subs[OwnerOf(t, b)].status)
    {
      assert Agrees(s.attempts[b], LedgerOf(s, b), s.subs[OwnerOf(s, b)].status);
      assert InvoiceLater(s.invoices[s.attempts[b].invoice], t.invoices[s.attempts[b].invoice]);
      assert SubLater(s.subs[OwnerOf(s, b)], t.subs[OwnerOf(s, b)]);
    }
    forall i | 0 <= i < |t.invoices|
      ensures AtMostOneLive(t.attempts, i)
    {
      if i < |s.invoices| {
        assert AtMostOneLive(s.attempts, i);
      } else {
        NoAttempts(s, s.attempts, i);
      }
    }
  }

  lemma AttemptsUntouched(s: Db, step: Step)
    requires !step.PrepareStep? && !step.CallStep? && !step.SettleStep? && !step.WebhookStep?
    ensures Exec(s, step).attempts == s.attempts && Exec(s, step).receipts == s.receipts
  {
  }

  lemma WebhookKeepsTruth(s: Db, d: Delivery)
    requires Inv(s) && Books(s) && Truth(s) && Honest(s, WebhookStep(d))
    ensures Truth(Exec(s, WebhookStep(d)))
  {
    hide Inv, Books, Truth, Settle;
    if WellFormed(d) && !EventSeen(s.events, d.provider, d.eventId.t) {
      RecordedKeeps(s, d);
      if PaymentOf(s, d).Some? {
        SettleKeepsTruth(Recorded(s, d), PaymentOf(s, d).value,
          d.payload.status == Text("success"), d.payload.chargeId.t);
      }
    }
  }

  lemma RecordedKeeps(s: Db, d: Delivery)
    requires Inv(s) && Books(s) && Truth(s) && WellFormed(d)
    ensures Inv(Recorded(s, d)) && Books(Recorded(s, d)) && Truth(Recorded(s, d))
  {
    hide Scoped, Timed, Statuses, Tallies, Charges, Reasons, Periods, Truth;
    InvSame(s, Recorded(s, d));
    QuietKeepsTruth(s, Recorded(s, d));
    forall k | 0 <= k < |s.receipts|
      ensures Requested(Recorded(s, d), s.receipts[k].request)
    {
      RequestedLater(s, Recorded(s, d), s.receipts[k].request);
    }
  }

  lemma ExecKeepsTruth(s: Db, step: Step)
    requires Inv(s) && Books(s) && Truth(s) && Honest(s, step)
    ensures Truth(Exec(s, step))
  {
    match step
    case PrepareStep(i, key, issuedOnly, providerKey) => PrepareKeepsTruth(s, i, key, issuedOnly, providerKey);
    case CallStep(a, success, chargeId) => CallKeepsTruth(s, a, success, chargeId);
    case SettleStep(a, success, charge) => if a < |s.attempts| { SettleKeepsTruth(s, a, success, charge); }
    case WebhookStep(d) => WebhookKeepsTruth(s, d);
    case _ =>
      AttemptsUntouched(s, step);
      ExecLater(s, step);
      QuietKeepsTruth(s, Exec(s, step));
  }

  lemma {:induction false} ReachableTruth(steps: seq<Step>)
    requires HonestRun(steps)
    ensures Truth(Run(Empty(), steps))
  {
    if steps != [] {
      var before := steps[..|steps| - 1];
      ReachableTruth(before);
      Reachable(before);
      ReachableBooks(before);
      ExecKeepsTruth(Run(Empty(), before), steps[|steps| - 1]);
    }
  }

  // ---- Exactly-once capture ----

  /** Receipt `k` is a successful charge of invoice `i`. */
  ghost predicate Captures(s: Db, k: nat, i: nat) {
    k < |s.receipts| && s.receipts[k].success
    && exists a ::
         0 <= a < |s.attempts| && s.attempts[a].invoice == i && s.attempts[a].request.key == s.receipts[k].request.key
  }

  lemma CapturingAttempt(s: Db, k: nat, i: nat) returns (a: nat)
    requires Books(s) && Truth(s) && Captures(s, k, i)
    ensures a < |s.attempts| && s.attempts[a].invoice == i && s.attempts[a].request.key == s.receipts[k].request.key
    ensures !s.attempts[a].status.Declined?
  {
    a :| 0 <= a < |s.attempts| && s.attempts[a].invoice == i && s.attempts[a].request.key == s.receipts[k].request.key;
    assert Agrees(s.attempts[a], LedgerOf(s, a), s.subs[OwnerOf(s, a)].status);
    assert forall j :: 0 <= j < |s.receipts| && j != k ==> ReceiptsApart(s.receipts[k], s.receipts[j]);
    FindUnique(s.receipts, k);
  }

  lemma OneLive(rows: seq<Attempt>, i: nat, a: nat, b: nat)
    requires AtMostOneLive(rows, i) && a < |rows| && b < |rows|
    requires rows[a].invoice == i && rows[b].invoice == i && !rows[a].status.Declined? && !rows[b].status.Declined?
    ensures a == b
  {
    CountThese(rows, i, rows[a].status, a);
    CountThese(rows, i, rows[b].status, b);
    if a < b && rows[a].status == rows[b].status { CountTwo(rows, i, rows[a].status, a, b); }
    if b < a && rows[a].status == rows[b].status { CountTwo(rows, i, rows[a].status, b, a); }
  }

  /** An invoice is captured at most once, in every run of a truthful provider. */
  lemma CapturedAtMostOnce(steps: seq<Step>, i: nat, j: nat, k: nat)
    requires HonestRun(steps)
    ensures Captures(Run(Empty(), steps), j, i) && Captures(Run(Empty(), steps), k, i) ==> j == k
  {
    ReachableTruth(steps);
    ReachableBooks(steps);
    var s := Run(Empty(), steps);
    if Captures(s, j, i) && Captures(s, k, i) {
      var a := CapturingAttempt(s, j, i);
      var b := CapturingAttempt(s, k, i);
      assert i < |s.invoices| && AtMostOneLive(s.attempts, i);
      OneLive(s.attempts, i, a, b);
      assert forall m :: 0 <= m < |s.receipts| && m != j ==> ReceiptsApart(s.receipts[j], s.receipts[m]);
    }
  }
}
