/** The provider's receipt ledger against the attempts: what holds with any webhooks. */
module Ledger {
  import opened Tables
  import opened Services
  import opened Invariant
  import opened Preservation
  import opened History

  /** The ledger's result for one attempt's provider key. */
  function LedgerOf(s: Db, a: nat): Option<Receipt>
    requires a < |s.attempts|
  {
    Find(s.receipts, s.attempts[a].request.key)
  }

  function Find(ledger: seq<Receipt>, key: string): Option<Receipt> {
    var k := FindReceipt(ledger, key);
    if k.Some? then Some(ledger[k.value]) else None
  }

  ghost predicate Requested(s: Db, r: ChargeRequest) {
    exists a :: 0 <= a < |s.attempts| && s.attempts[a].request == r
  }

  predicate ReceiptsApart(r: Receipt, q: Receipt) {
    r.request.key != q.request.key && r.chargeId != q.chargeId
  }

  /** Receipts are unique by key and by charge id, and each answers some attempt's own request. */
  ghost predicate Books(s: Db) {
    && (forall j, k :: 0 <= j < |s.receipts| && 0 <= k < |s.receipts| && j != k ==>
          ReceiptsApart(s.receipts[j], s.receipts[k]))
    && (forall k :: 0 <= k < |s.receipts| ==> Requested(s, s.receipts[k].request))
  }

  lemma RequestedLater(s: Db, t: Db, r: ChargeRequest)
    requires RowsLater(s, t) && Requested(s, r)
    ensures Requested(t, r)
  {
    var a :| 0 <= a < |s.attempts| && s.attempts[a].request == r;
    assert AttemptLater(s.attempts[a], t.attempts[a]);
  }

  lemma ReceiptsOnlyByCall(s: Db, step: Step)
    requires !step.CallStep?
    ensures Exec(s, step).receipts == s.receipts
  {
  }

  lemma CallAppends(s: Db, a: nat, success: bool, chargeId: string)
    requires a < |s.attempts|
    ensures
      var t := Call(s, a, success, chargeId).0;
      || t == s
      || (&& LedgerOf(s, a).None? && !ChargeIdUsed(s.receipts, chargeId)
          && t == s.(receipts := s.receipts + [Receipt(s.attempts[a].request, success, chargeId)]))
  {
  }

  lemma CallKeepsBooks(s: Db, a: nat, success: bool, chargeId: string)
    requires Books(s)
    ensures Books(Call(s, a, success, chargeId).0)
  {
    var t := Call(s, a, success, chargeId).0;
    if a < |s.attempts| {
      CallAppends(s, a, success, chargeId);
      if t != s {
        assert Requested(t, s.attempts[a].request);
        forall k | 0 <= k < |s.receipts|
          ensures Requested(t, s.receipts[k].request)
        {
          var b :| 0 <= b < |s.attempts| && s.attempts[b].request == s.receipts[k].request;
          assert t.attempts[b].request == s.receipts[k].request;
        }
      }
    }
  }

  lemma ExecKeepsBooks(s: Db, step: Step)
    requires Books(s) && Statuses(s) && Timed(s)
    ensures Books(Exec(s, step))
  {
    if step.CallStep? {
      CallKeepsBooks(s, step.attempt, step.success, step.chargeId);
    } else {
      ReceiptsOnlyByCall(s, step);
      ExecLater(s, step);
      forall k | 0 <= k < |s.receipts|
        ensures Requested(Exec(s, step), s.receipts[k].request)
      {
        RequestedLater(s, Exec(s, step), s.receipts[k].request);
      }
    }
  }

  lemma {:induction false} ReachableBooks(steps: seq<Step>)
    ensures Books(Run(Empty(), steps))
  {
    if steps != [] {
      ReachableBooks(steps[..|steps| - 1]);
      Reachable(steps[..|steps| - 1]);
      ExecKeepsBooks(Run(Empty(), steps[..|steps| - 1]), steps[|steps| - 1]);
    }
  }

  /** The receipt found under an attempt's key answers exactly that attempt's request. */
  lemma ReceiptMatches(s: Db, a: nat)
    requires Charges(s) && Books(s) && a < |s.attempts|
    ensures LedgerOf(s, a).Some? ==> LedgerOf(s, a).value.request == s.attempts[a].request
  {
    var k := FindReceipt(s.receipts, s.attempts[a].request.key);
    if k.Some? {
      var r := s.receipts[k.value];
      assert Requested(s, r.request);
      var b :| 0 <= b < |s.attempts| && s.attempts[b].request == r.request;
      assert forall c :: 0 <= c < |s.attempts| && c != a ==> Apart(s.attempts[a], s.attempts[c]);
    }
  }

  /** In every run, even with dishonest webhooks, edited customer tokens and edited plans, the
      provider never sees one idempotency key with two different requests. */
  lemma FingerprintNeverMismatches(steps: seq<Step>, a: nat, success: bool, chargeId: string)
    requires a < |Run(Empty(), steps).attempts|
    ensures Call(Run(Empty(), steps), a, success, chargeId).1 != Err(FingerprintMismatch)
  {
    hide Run, Books, Scoped, Timed, Statuses, Tallies, Charges, Reasons, Periods;
    Reachable(steps);
    ReachableBooks(steps);
    ReceiptMatches(Run(Empty(), steps), a);
  }

  lemma {:induction false} FindUnique(ledger: seq<Receipt>, k: nat)
    requires k < |ledger|
    requires forall j :: 0 <= j < |ledger| && j != k ==> ReceiptsApart(ledger[k], ledger[j])
    ensures Find(ledger, ledger[k].request.key) == Some(ledger[k])
  {
  }

  lemma FindAppend(ledger: seq<Receipt>, r: Receipt, key: string)
    ensures Find(ledger + [r], key) ==
            if Find(ledger, key).Some? then Find(ledger, key)
            else if r.request.key == key then Some(r) else None
  {
    assert (ledger + [r])[..|ledger|] == ledger;
  }
}
