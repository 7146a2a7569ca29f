/** MockPaymentGateway (payments/infrastructure/mock_gateway.py): the provider's receipt ledger. */
module GatewayLedger {
  import opened Tables
  import opened Services
  import opened Ledger

  /** The ledger after a concurrent call has inserted its receipt, if the unique indexes let it. */
  function WithRival(ledger: seq<Receipt>, rival: Option<Receipt>): seq<Receipt> {
    if rival.Some? && FindReceipt(ledger, rival.value.request.key).None? && !ChargeIdUsed(ledger, rival.value.chargeId)
    then ledger + [rival.value] else ledger
  }

  class Gateway {
    var receipts: seq<Receipt>

    constructor ()
      ensures receipts == []
    {
      receipts := [];
    }

    /** The insert of one receipt, refused by the unique indexes on key and charge id. */
    method Insert(r: Receipt) returns (inserted: bool)
      modifies this
      ensures receipts == WithRival(old(receipts), Some(r))
      ensures inserted == (FindReceipt(old(receipts), r.request.key).None? && !ChargeIdUsed(old(receipts), r.chargeId))
    {
      inserted := FindReceipt(receipts, r.request.key).None? && !ChargeIdUsed(receipts, r.chargeId);
      if inserted {
        receipts := receipts + [r];
      }
    }

    /** One charge. `rival` is the receipt a concurrent call inserts between the lookup and the
        insert; the outcome is the same as if that call had come first. */
    method Charge(request: ChargeRequest, success: bool, chargeId: string, rival: Option<Receipt>)
      returns (reply: Reply<Receipt>)
      modifies this
      ensures (receipts, reply) == GatewayCharge(WithRival(old(receipts), rival), request, success, chargeId)
    {
      var found := FindReceipt(receipts, request.key);
      ghost var before := receipts;
      if rival.Some? {
        var other := Insert(rival.value);
      }
      FoundStays(before, rival, request.key);
      if found.None? {
        var inserted := Insert(Receipt(request, success, chargeId));
        if inserted {
          return Ok(Receipt(request, success, chargeId));
        }
        found := FindReceipt(receipts, request.key);
        if found.None? {
          return Err(NotFound);
        }
      }
      var receipt := receipts[found.value];
      if receipt.request != request {
        return Err(FingerprintMismatch);
      }
      return Ok(receipt);
    }
  }

  lemma FoundStays(ledger: seq<Receipt>, rival: Option<Receipt>, key: string)
    ensures
      var k := FindReceipt(ledger, key);
      k.Some? ==> FindReceipt(WithRival(ledger, rival), key) == k
  {
    if rival.Some? { assert (ledger + [rival.value])[..|ledger|] == ledger; }
  }

  /** However often a request is sent, with whatever draws, the first answer is replayed and
      the ledger does not grow. */
  lemma ChargeReplays(ledger: seq<Receipt>, request: ChargeRequest, s1: bool, c1: string, s2: bool, c2: string)
    ensures
      var (once, reply) := GatewayCharge(ledger, request, s1, c1);
      reply.Ok? ==> GatewayCharge(once, request, s2, c2) == (once, reply)
  {
    FindAppend(ledger, Receipt(request, s1, c1), request.key);
  }

  /** Two racing calls for one request get the same receipt. */
  lemma RacersAgree(ledger: seq<Receipt>, request: ChargeRequest, s1: bool, c1: string, s2: bool, c2: string)
    requires FindReceipt(ledger, request.key).None? && !ChargeIdUsed(ledger, c1)
    ensures GatewayCharge(WithRival(ledger, Some(Receipt(request, s1, c1))), request, s2, c2).1 ==
        Ok(Receipt(request, s1, c1))
  {
    FindAppend(ledger, Receipt(request, s1, c1), request.key);
  }
}
