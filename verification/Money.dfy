/** Money conservation under a truthful provider. */
module Money {
  import opened Tables
  import opened Services
  import opened Invariant
  import opened Preservation
  import opened History
  import opened Ledger
  import opened Truthful

  function Sum(v: seq<int>): int {
    if v == [] then 0 else Sum(v[..|v| - 1]) + v[|v| - 1]
  }

  lemma SumAppend(v: seq<int>, n: int)
    ensures Sum(v + [n]) == Sum(v) + n
  {
    assert (v + [n])[..|v|] == v;
  }

  lemma {:induction false} SumUpdate(v: seq<int>, w: seq<int>, k: nat)
    requires |v| == |w| && k < |v| && (forall j :: 0 <= j < |v| && j != k ==> v[j] == w[j])
    ensures Sum(w) == Sum(v) - v[k] + w[k]
  {
    var last := |v| - 1;
    if k == last {
      assert v[..last] == w[..last];
    } else {
      SumUpdate(v[..last], w[..last], k);
    }
  }

  // ---- The three places money can be ----

  function Taken(r: Receipt): int {
    if r.success then r.request.amount else 0
  }

  function Billed(inv: Invoice): int {
    if inv.status.Paid? then inv.total else 0
  }

  /** A flagged attempt, or one in flight whose success has not been settled yet. */
  function Held(a: Attempt, receipt: Option<Receipt>): int {
    if a.flagged || (a.status.Pending? && receipt.Some? && receipt.value.success) then a.request.amount else 0
  }

  function TakenList(s: Db): seq<int> {
    seq(|s.receipts|, k requires 0 <= k < |s.receipts| => Taken(s.receipts[k]))
  }

  function BilledList(s: Db): seq<int> {
    seq(|s.invoices|, i requires 0 <= i < |s.invoices| => Billed(s.invoices[i]))
  }

  function HeldList(s: Db): seq<int> {
    seq(|s.attempts|, a requires 0 <= a < |s.attempts| => Held(s.attempts[a], LedgerOf(s, a)))
  }

  /** Captured money is on paid invoices, flagged for reconciliation, or still in flight. */
  predicate Conserved(s: Db) {
    Sum(TakenList(s)) == Sum(BilledList(s)) + Sum(HeldList(s))
  }

  // ---- One step ----

  lemma AppliedConserves(s: Db, a: nat, success: bool, charge: string)
    requires Inv(s) && Books(s) && Truth(s) && a < |s.attempts| && Backed(s, a, success, charge)
    requires MayCharge(s.attempts[a]) && Conserved(s)
    ensures Conserved(Write(s, a, Applied(SettleRead(s, a, charge), success, charge)))
  {
    hide Sum, Books, Truth, Timed, Statuses, Tallies, Charges, Reasons, Periods, Exists, OtherArrears;
    var t := Write(s, a, Applied(SettleRead(s, a, charge), success, charge));
    var i := s.attempts[a].invoice;
    NotPaidYet(s, a);
    assert Snapshot(s.attempts[a], s.invoices[i]);
    assert TakenList(t) == TakenList(s);
    SumUpdate(BilledList(s), BilledList(t), i);
    SumUpdate(HeldList(s), HeldList(t), a);
  }

  lemma SettleConserves(s: Db, a: nat, success: bool, charge: string)
    requires Inv(s) && Books(s) && Truth(s) && a < |s.attempts| && Backed(s, a, success, charge) && Conserved(s)
    ensures Conserved(Settle(s, a, success, charge))
  {
    BackedSettle(s, a, success, charge);
    if MayCharge(s.attempts[a]) { AppliedConserves(s, a, success, charge); }
  }

  lemma HeldByCall(s: Db, a: nat, r: Receipt, b: nat)
    requires Charges(s) && Truth(s) && a < |s.attempts| && b < |s.attempts|
    requires LedgerOf(s, a).None? && r.request == s.attempts[a].request
    ensures
      var t := s.(receipts := s.receipts + [r]);
      && Held(s.attempts[b], LedgerOf(t, b)) == Held(s.attempts[b], LedgerOf(s, b)) + (if b == a then Taken(r) else 0)
      && (b == a ==> Held(s.attempts[b], LedgerOf(s, b)) == 0)
  {
    FindAppend(s.receipts, r, s.attempts[b].request.key);
    assert Agrees(s.attempts[a], LedgerOf(s, a), s.subs[OwnerOf(s, a)].status);
    assert forall c :: 0 <= c < |s.attempts| && c != a ==> Apart(s.attempts[a], s.attempts[c]);
  }

  lemma CallConserves(s: Db, a: nat, success: bool, chargeId: string)
    requires Charges(s) && Truth(s) && Conserved(s)
    ensures Conserved(Call(s, a, success, chargeId).0)
  {
    var t := Call(s, a, success, chargeId).0;
    if a < |s.attempts| {
      CallAppends(s, a, success, chargeId);
      if t != s {
        var r := Receipt(s.attempts[a].request, success, chargeId);
        assert TakenList(t) == TakenList(s) + [Taken(r)];
        SumAppend(TakenList(s), Taken(r));
        assert BilledList(t) == BilledList(s);
        forall b | 0 <= b < |s.attempts|
          ensures HeldList(t)[b] == HeldList(s)[b] + (if b == a then Taken(r) else 0)
        {
          HeldByCall(s, a, r, b);
        }
        SumUpdate(HeldList(s), HeldList(t), a);
      }
    }
  }

  lemma PrepareConserves(s: Db, i: nat, key: string, issuedOnly: bool, providerKey: string)
    requires Books(s) && Conserved(s)
    ensures Conserved(Prepare(s, i, key, issuedOnly, providerKey).0)
  {
    var t := Prepare(s, i, key, issuedOnly, providerKey).0;
    PrepareInserts(s, i, key, issuedOnly, providerKey);
    if t != s {
      NewKeyHasNoReceipt(s, providerKey);
      assert TakenList(t) == TakenList(s) && BilledList(t) == BilledList(s);
      assert HeldList(t) == HeldList(s) + [0];
      SumAppend(HeldList(s), 0);
    }
  }

  lemma NewKeyHasNoReceipt(s: Db, key: string)
    requires Books(s)
    ensures Exists(s.attempts, ByProviderKey(key)) || Find(s.receipts, key).None?
  {
    var k := FindReceipt(s.receipts, key);
    if k.Some? {
      assert Requested(s, s.receipts[k.value].request);
      var a :| 0 <= a < |s.attempts| && s.attempts[a].request == s.receipts[k.value].request;
      assert Matches(ByProviderKey(key), s.attempts[a], a);
    }
  }

  /** Steps that leave attempts and receipts alone neither pay an invoice nor take a payment back. */
  lemma QuietConserves(s: Db, t: Db)
    requires RowsLater(s, t) && s.attempts == t.attempts && s.receipts == t.receipts && Conserved(s)
    requires forall i :: 0 <= i < |t.invoices| && t.invoices[i].status.Paid? ==>
        i < |s.invoices| && s.invoices[i].status.Paid?
    ensures Conserved(t)
  {
    assert TakenList(t) == TakenList(s) && HeldList(t) == HeldList(s);
    forall i | 0 <= i < |t.invoices|
      ensures BilledList(t)[i] == if i < |s.invoices| then BilledList(s)[i] else 0
    {
      if i < |s.invoices| { assert InvoiceLater(s.invoices[i], t.invoices[i]); }
    }
    SumPad(BilledList(s), BilledList(t));
  }

  lemma {:induction false} SumPad(v: seq<int>, w: seq<int>)
    requires |v| <= |w| && (forall k :: 0 <= k < |w| ==> w[k] == if k < |v| then v[k] else 0)
    ensures Sum(w) == Sum(v)
  {
    if |v| == |w| {
      assert v == w;
    } else {
      SumPad(v, w[..|w| - 1]);
    }
  }

  lemma DunPaysNothing(s: Db, k: nat)
    requires Statuses(s)
    ensures
      var t := Committed(s, Dun(s, k));
      |t.invoices| == |s.invoices|
      && forall i :: 0 <= i < |t.invoices| && t.invoices[i].status.Paid? ==> s.invoices[i].status.Paid?
  {
    DunCases(s, k);
  }

  lemma PaidOnlyBySettling(s: Db, step: Step)
    requires Statuses(s) && !step.PrepareStep? && !step.CallStep? && !step.SettleStep? && !step.WebhookStep?
    ensures forall i :: 0 <= i < |Exec(s, step).invoices| && Exec(s, step).invoices[i].status.Paid?
              ==> i < |s.invoices| && s.invoices[i].status.Paid?
  {
    if step.DunStep? { DunPaysNothing(s, step.invoice); }
  }

  lemma ExecConserves(s: Db, step: Step)
    requires Inv(s) && Books(s) && Truth(s) && Honest(s, step) && Conserved(s)
    ensures Conserved(Exec(s, step))
  {
    hide Conserved, Books, Truth, Scoped, Tallies, Charges, Reasons, Periods, Prepare, Call, Settle, Webhook;
    match step
    case PrepareStep(i, key, issuedOnly, providerKey) => PrepareConserves(s, i, key, issuedOnly, providerKey);
    case CallStep(a, success, chargeId) => CallConserves(s, a, success, chargeId);
    case SettleStep(a, success, charge) => if a < |s.attempts| { SettleConserves(s, a, success, charge); }
    case WebhookStep(d) => WebhookConserves(s, d);
    case _ =>
      AttemptsUntouched(s, step);
      ExecLater(s, step);
      PaidOnlyBySettling(s, step);
      QuietConserves(s, Exec(s, step));
  }

  lemma RecordedConserves(s: Db, d: Delivery)
    requires WellFormed(d) && Conserved(s)
    ensures Conserved(Recorded(s, d))
  {
    assert TakenList(Recorded(s, d)) == TakenList(s) && BilledList(Recorded(s, d)) == BilledList(s)
        && HeldList(Recorded(s, d)) == HeldList(s);
  }

  lemma WebhookConserves(s: Db, d: Delivery)
    requires Inv(s) && Books(s) && Truth(s) && Honest(s, WebhookStep(d)) && Conserved(s)
    ensures Conserved(Exec(s, WebhookStep(d)))
  {
    hide Conserved, Books, Truth, Inv, Settle;
    if WellFormed(d) && !EventSeen(s.events, d.provider, d.eventId.t) {
      RecordedKeeps(s, d);
      RecordedConserves(s, d);
      if PaymentOf(s, d).Some? {
        SettleConserves(Recorded(s, d), PaymentOf(s, d).value,
          d.payload.status == Text("success"), d.payload.chargeId.t);
      }
    }
  }

  lemma {:induction false} ReachableConserved(steps: seq<Step>)
    requires HonestRun(steps)
    ensures Conserved(Run(Empty(), steps))
  {
    if steps != [] {
      var before := steps[..|steps| - 1];
      ReachableConserved(before);
      Reachable(before);
      ReachableBooks(before);
      ReachableTruth(before);
      ExecConserves(Run(Empty(), before), steps[|steps| - 1]);
    }
  }

  /** In every truthful run the captured money equals the paid invoices plus the flagged
      attempts plus the unsettled successes, and flags stand only on canceled subscriptions. */
  lemma MoneyConserved(steps: seq<Step>)
    requires HonestRun(steps)
    ensures
      var s := Run(Empty(), steps);
      && Sum(TakenList(s)) == Sum(BilledList(s)) + Sum(HeldList(s))
      && (forall a :: 0 <= a < |s.attempts| && s.attempts[a].flagged ==> s.subs[OwnerOf(s, a)].status.SubCanceled?)
  {
    ReachableConserved(steps);
    ReachableTruth(steps);
    var s := Run(Empty(), steps);
    assert forall a :: 0 <= a < |s.attempts| ==> Agrees(s.attempts[a], LedgerOf(s, a), s.subs[OwnerOf(s, a)].status);
  }
}
