/** What prepare, the gateway call, settlement and webhooks answer and write, column by column.
    The laws are about `Exec` and the replies alone and use none of the functions those are
    built from. */
module PaymentLaws {
  import opened Tables
  import opened Services
  import opened Invariant
  import opened Preservation
  import opened History
  import opened ClientKeys

  // ---- Prepare: requests answered by a stored attempt ----

  /** The first row, by primary key, with this property. */
  ghost predicate Earliest(rows: seq<Attempt>, a: nat, has: Attempt -> bool) {
    a < |rows| && has(rows[a]) && NoRow(rows[..a], has)
  }

  ghost predicate NoRow(rows: seq<Attempt>, has: Attempt -> bool) {
    forall b :: 0 <= b < |rows| ==> !has(rows[b])
  }

  /** The request carries no client key, or one that no attempt of the organization stores. */
  ghost predicate KeyFree(s: Db, org: nat, key: string) {
    key == "" || NoRow(s.attempts, (r: Attempt) => r.org == org && r.clientKey == Some(key))
  }

  /** No attempt of this issue: the question is asked of ISSUED invoices alone. */
  ghost predicate IssueUntried(s: Db, i: nat)
    requires i < |s.invoices|
  {
    var inv := s.invoices[i];
    inv.status == Issued && inv.issuedAt.Some? ==>
      NoRow(s.attempts, (r: Attempt) => r.invoice == i && r.attemptedAt >= inv.issuedAt.value)
  }

  /** Attempt `a` is returned, to be charged while it is PENDING and not flagged. */
  function Returned(s: Db, a: nat): Reply<Prepared>
    requires a < |s.attempts|
  {
    Ok(Prepared(Some(a), s.attempts[a].status == Pending && !s.attempts[a].flagged))
  }

  lemma FirstIs(rows: seq<Attempt>, q: Query, a: nat)
    requires a < |rows| && Matches(q, rows[a], a)
    requires forall b :: 0 <= b < a ==> !Matches(q, rows[..a][b], b)
    ensures First(rows, q) == Some(a)
  {
    forall b | 0 <= b < a
      ensures !Matches(q, rows[b], b)
    {
      assert rows[..a][b] == rows[b];
    }
  }

  /** A missing invoice is an error; the worker leaves an invoice alone that is not ISSUED. */
  lemma PrepareLeavesAlone(s: Db, i: nat, key: string, issuedOnly: bool, providerKey: string)
    ensures i >= |s.invoices| ==> Prepare(s, i, key, issuedOnly, providerKey) == (s, Err(NotFound))
    ensures i < |s.invoices| && issuedOnly && s.invoices[i].status != Issued ==>
              Prepare(s, i, key, issuedOnly, providerKey) == (s, Ok(Prepared(None, false)))
  {
  }

  /** A stored client key decides before the invoice's own state does. */
  lemma PrepareReplaysKey(s: Db, i: nat, key: string, issuedOnly: bool, providerKey: string, a: nat)
    requires i < |s.invoices| && (issuedOnly ==> s.invoices[i].status == Issued) && key != ""
    requires Earliest(s.attempts, a, (r: Attempt) => r.org == s.invoices[i].org && r.clientKey == Some(key))
    ensures Prepare(s, i, key, issuedOnly, providerKey) ==
            (s, if s.attempts[a].invoice == i then Returned(s, a) else Err(KeyConflict))
  {
    FirstIs(s.attempts, ByClientKey(s.invoices[i].org, key), a);
  }

  /** An invoice that cannot be paid returns its attempt in flight, and is refused without one. */
  lemma PrepareNotPayable(s: Db, i: nat, key: string, providerKey: string, a: nat)
    requires i < |s.invoices| && KeyFree(s, s.invoices[i].org, key)
    requires s.invoices[i].status in {Draft, Paid, Canceled}
    ensures Earliest(s.attempts, a, (r: Attempt) => r.invoice == i && r.status == Pending) ==>
              Prepare(s, i, key, false, providerKey) == (s, Returned(s, a))
    ensures NoRow(s.attempts, (r: Attempt) => r.invoice == i && r.status == Pending) ==>
              Prepare(s, i, key, false, providerKey) == (s, Err(NotPayable))
  {
    if Earliest(s.attempts, a, (r: Attempt) => r.invoice == i && r.status == Pending) {
      FirstIs(s.attempts, PendingOf(i), a);
    }
  }

  /** The first attempt since the issue is returned, unless the request has another client key. */
  lemma PrepareSameIssue(s: Db, i: nat, key: string, issuedOnly: bool, providerKey: string, a: nat)
    requires i < |s.invoices| && KeyFree(s, s.invoices[i].org, key)
    requires s.invoices[i].status == Issued && s.invoices[i].issuedAt.Some?
    requires Earliest(s.attempts, a, (r: Attempt) => r.invoice == i && r.attemptedAt >= s.invoices[i].issuedAt.value)
    ensures Prepare(s, i, key, issuedOnly, providerKey) ==
            (s, if key != "" && s.attempts[a].clientKey != Some(key) then Err(KeyConflict) else Returned(s, a))
  {
    FirstIs(s.attempts, SinceIssue(i, s.invoices[i].issuedAt.value), a);
  }

  /** Otherwise the first attempt that is PENDING or SUCCESS is returned. */
  lemma PrepareStillOpen(s: Db, i: nat, key: string, issuedOnly: bool, providerKey: string, a: nat)
    requires i < |s.invoices| && (issuedOnly ==> s.invoices[i].status == Issued)
    requires KeyFree(s, s.invoices[i].org, key) && IssueUntried(s, i)
    requires s.invoices[i].status in {Issued, Failed, Overdue}
    requires Earliest(s.attempts, a, (r: Attempt) => r.invoice == i && r.status in {Pending, Success})
    ensures Prepare(s, i, key, issuedOnly, providerKey) == (s, Returned(s, a))
  {
    FirstIs(s.attempts, OpenOf(i), a);
  }

  // ---- Prepare: a new attempt ----

  /** A payable invoice of a live subscription with no attempt of this issue, none PENDING or
      SUCCESS, and a free client key. */
  ghost predicate Chargeable(s: Db, i: nat, key: string, issuedOnly: bool) {
    && i < |s.invoices|
    && s.invoices[i].status in {Issued, Failed, Overdue} && (issuedOnly ==> s.invoices[i].status == Issued)
    && s.subs[s.invoices[i].subscription].status != SubCanceled
    && KeyFree(s, s.invoices[i].org, key) && IssueUntried(s, i)
    && NoRow(s.attempts, (r: Attempt) => r.invoice == i && r.status in {Pending, Success})
  }

  /** The invoice's total and currency, the customer's tokens and the new provider key are stored
      with the client key, if there is one; the attempt is PENDING as of now. */
  function FirstRow(s: Db, i: nat, key: string, providerKey: string): Attempt
    requires i < |s.invoices|
  {
    var inv := s.invoices[i];
    var customer := s.customers[s.subs[inv.subscription].customer];
    Attempt(inv.org, i,
            ChargeRequest(inv.total, inv.currency, customer.customerToken, customer.methodToken, providerKey),
            if key == "" then None else Some(key), Pending, "", s.clock, false)
  }

  lemma LookupsFindNothing(s: Db, i: nat, key: string)
    requires i < |s.invoices|
    ensures
      var (inv, f) := (s.invoices[i], PrepareRead(s, i, key));
      && (f.replay.NoReplay? <==> NoRow(s.attempts, (r: Attempt) => r.org == inv.org && r.clientKey == Some(key)))
      && (inv.issuedAt.Some? ==>
            (f.sinceIssue.None? <==>
               NoRow(s.attempts, (r: Attempt) => r.invoice == i && r.attemptedAt >= inv.issuedAt.value)))
      && (f.live.None? <==> NoRow(s.attempts, (r: Attempt) => r.invoice == i && r.status in {Pending, Success}))
      && f.sub == s.subs[inv.subscription].status && f.invoice == inv
  {
    NoneIs(s.attempts, ByClientKey(s.invoices[i].org, key),
      (r: Attempt) => r.org == s.invoices[i].org && r.clientKey == Some(key));
    if s.invoices[i].issuedAt.Some? {
      NoneIs(s.attempts, SinceIssue(i, s.invoices[i].issuedAt.value),
        (r: Attempt) => r.invoice == i && r.attemptedAt >= s.invoices[i].issuedAt.value);
    }
    NoneIs(s.attempts, OpenOf(i), (r: Attempt) => r.invoice == i && r.status in {Pending, Success});
  }

  lemma NoneIs(rows: seq<Attempt>, q: Query, has: Attempt -> bool)
    requires forall r: Attempt, k: nat :: Matches(q, r, k) <==> has(r)
    ensures First(rows, q).None? <==> NoRow(rows, has)
    ensures Exists(rows, q) <==> !NoRow(rows, has)
  {
    if First(rows, q).Some? {
      assert has(rows[First(rows, q).value]);
    }
  }

  lemma ChargeableIsInsert(s: Db, i: nat, key: string, issuedOnly: bool)
    requires i < |s.invoices|
    ensures Chargeable(s, i, key, issuedOnly) <==> PrepareChoice(key, issuedOnly, PrepareRead(s, i, key)).Insert?
  {
    LookupsFindNothing(s, i, key);
    hide PrepareRead, NoRow;
  }

  /** With nothing to return, a canceled subscription refuses, and so does a provider key in use. */
  lemma PrepareRefuses(s: Db, i: nat, key: string, issuedOnly: bool, providerKey: string)
    requires i < |s.invoices| && (issuedOnly ==> s.invoices[i].status == Issued)
    requires KeyFree(s, s.invoices[i].org, key) && IssueUntried(s, i)
    requires s.invoices[i].status in {Issued, Failed, Overdue}
    requires NoRow(s.attempts, (r: Attempt) => r.invoice == i && r.status in {Pending, Success})
    ensures s.subs[s.invoices[i].subscription].status == SubCanceled ==>
              Prepare(s, i, key, issuedOnly, providerKey) == (s, Err(NotPayable))
    ensures Chargeable(s, i, key, issuedOnly) && !NoRow(s.attempts, (r: Attempt) => r.request.key == providerKey) ==>
              Prepare(s, i, key, issuedOnly, providerKey) == (s, Err(UniqueViolation))
  {
    LookupsFindNothing(s, i, key);
    ChargeableIsInsert(s, i, key, issuedOnly);
    NoneIs(s.attempts, ByProviderKey(providerKey), (r: Attempt) => r.request.key == providerKey);
    hide PrepareRead, NoRow, Chargeable, Exists;
  }

  /** An attempt is inserted exactly for a chargeable invoice and a new provider key; it is that
      row, and otherwise nothing is written. */
  lemma PrepareInsertsIff(s: Db, i: nat, key: string, issuedOnly: bool, providerKey: string)
    ensures
      var (t, reply) := Prepare(s, i, key, issuedOnly, providerKey);
      && t == Exec(s, PrepareStep(i, key, issuedOnly, providerKey))
      && if Chargeable(s, i, key, issuedOnly) && NoRow(s.attempts, (r: Attempt) => r.request.key == providerKey)
         then reply == Ok(Prepared(Some(|s.attempts|), true))
              && t == s.(attempts := s.attempts + [FirstRow(s, i, key, providerKey)])
         else t == s
  {
    ExecPrepare(s, i, key, issuedOnly, providerKey);
    hide Exec;
    if i < |s.invoices| {
      hide PrepareRead, PrepareChoice, NoRow, Chargeable, Exists, Carry, FirstRow, NewAttempt;
      NoneIs(s.attempts, ByProviderKey(providerKey), (r: Attempt) => r.request.key == providerKey);
      ChargeableIsInsert(s, i, key, issuedOnly);
      CarriesOut(s, PrepareChoice(key, issuedOnly, PrepareRead(s, i, key)),
        i, key, providerKey, Exists(s.attempts, ByProviderKey(providerKey)));
    }
  }

  /** Only an insertion writes. */
  lemma CarriesOut(s: Db, choice: Choice, i: nat, key: string, providerKey: string, taken: bool)
    requires i < |s.invoices|
    ensures
      var row := NewAttempt(i, s.invoices[i], CustomerOf(s, i), key, providerKey, s.clock);
      var (t, reply) := Carry(s, choice, taken, row);
      if choice.Insert? && !taken
      then reply == Ok(Prepared(Some(|s.attempts|), true))
           && t == s.(attempts := s.attempts + [FirstRow(s, i, key, providerKey)])
      else t == s
  {
  }

  /** From the first request with a client key on: it inserts an attempt, and after any further
      steps the key returns that attempt for its invoice, is refused for any other invoice of
      the organization, and never starts a second one. */
  lemma FirstRequestBinds(before: seq<Step>, i: nat, key: string, issuedOnly: bool, providerKey: string,
      after: seq<Step>, j: nat, otherKey: string)
    requires key != ""
    requires var s := Run(Empty(), before);
             |Exec(s, PrepareStep(i, key, issuedOnly, providerKey)).attempts| == |s.attempts| + 1
    requires var t := Run(Exec(Run(Empty(), before), PrepareStep(i, key, issuedOnly, providerKey)), after);
             i < |t.invoices| && j < |t.invoices| && t.invoices[j].org == t.invoices[i].org
    ensures
      var a := |Run(Empty(), before).attempts|;
      var t := Run(Exec(Run(Empty(), before), PrepareStep(i, key, issuedOnly, providerKey)), after);
      && a < |t.attempts|
      && Prepare(t, j, key, false, otherKey) == (t, if j == i then Returned(t, a) else Err(KeyConflict))
  {
    var s := Run(Empty(), before);
    var step := PrepareStep(i, key, issuedOnly, providerKey);
    PrepareInsertsIff(s, i, key, issuedOnly, providerKey);
    RunAppend(Empty(), before, step);
    KeyStaysBound(before + [step], after, |s.attempts|, i, j, key, otherKey);
  }

  lemma KeyStaysBound(before: seq<Step>, after: seq<Step>, a: nat, i: nat, j: nat, key: string, otherKey: string)
    requires a < |Run(Empty(), before).attempts|
    requires Run(Empty(), before).attempts[a].clientKey == Some(key) && Run(Empty(), before).attempts[a].invoice == i
    requires var t := Run(Run(Empty(), before), after);
             i < |t.invoices| && j < |t.invoices| && t.invoices[j].org == t.invoices[i].org
    ensures
      var t := Run(Run(Empty(), before), after);
      && a < |t.attempts|
      && Prepare(t, j, key, false, otherKey) == (t, if j == i then Returned(t, a) else Err(KeyConflict))
  {
    hide Run, Inv, Prepare, RowsLater;
    var s := Run(Empty(), before);
    Reachable(before);
    RunKeeps(s, after);
    RunLater(s, after);
    SameKeyLater(s, Run(s, after), a);
    KeyBinding(before, after, a, j, key, otherKey);
  }

  lemma SameKeyLater(s: Db, t: Db, a: nat)
    requires RowsLater(s, t) && Inv(t) && a < |s.attempts|
    ensures a < |t.attempts| && t.attempts[a].invoice == s.attempts[a].invoice
    ensures s.attempts[a].org == t.attempts[a].org == t.invoices[s.attempts[a].invoice].org
  {
    hide Timed, Statuses, Tallies, Charges, Reasons, Periods;
    assert AttemptLater(s.attempts[a], t.attempts[a]) && Snapshot(t.attempts[a], t.invoices[t.attempts[a].invoice]);
  }

  // ---- The gateway ----

  /** The first receipt under a provider key answers it, if it was given for the same request;
      without one the draw is recorded, unless the charge id is in use. */
  lemma CallAnswers(s: Db, a: nat, success: bool, chargeId: string, k: nat)
    ensures a >= |s.attempts| ==> Call(s, a, success, chargeId) == (s, Err(NotFound))
    ensures
      a < |s.attempts| && k < |s.receipts| && s.receipts[k].request.key == s.attempts[a].request.key
      && (forall j :: 0 <= j < k ==> s.receipts[j].request.key != s.attempts[a].request.key) ==>
        Call(s, a, success, chargeId) ==
        (s, if s.receipts[k].request == s.attempts[a].request then Ok(s.receipts[k]) else Err(FingerprintMismatch))
    ensures
      a < |s.attempts|
      && (forall j :: 0 <= j < |s.receipts| ==> s.receipts[j].request.key != s.attempts[a].request.key) ==>
        var receipt := Receipt(s.attempts[a].request, success, chargeId);
        Call(s, a, success, chargeId) ==
        if exists j :: 0 <= j < |s.receipts| && s.receipts[j].chargeId == chargeId then (s, Err(NotFound))
        else (s.(receipts := s.receipts + [receipt]), Ok(receipt))
  {
    if a < |s.attempts| {
      FindReceiptIsFirst(s.receipts, s.attempts[a].request.key);
    }
  }

  lemma {:induction false} FindReceiptIsFirst(ledger: seq<Receipt>, key: string)
    ensures var k := FindReceipt(ledger, key);
            k.Some? ==> forall j :: 0 <= j < k.value ==> ledger[j].request.key != key
  {
    if ledger != [] {
      FindReceiptIsFirst(ledger[..|ledger| - 1], key);
    }
  }

  /** Charging acts on an unflagged PENDING attempt alone: the call, then the settlement with the
      receipt that the call returns, if it returns one. */
  lemma ChargeCallsThenSettles(s: Db, a: nat, success: bool, chargeId: string)
    ensures
      var (t, reply) := Call(s, a, success, chargeId);
      Charge(s, a, success, chargeId) ==
      if a >= |s.attempts| || s.attempts[a].status != Pending || s.attempts[a].flagged then s
      else if reply.Err? then t
      else Exec(t, SettleStep(a, reply.value.success, reply.value.chargeId))
  {
    hide Settle;
  }

  // ---- Settlement ----

  /** The attempt alone is written. */
  function OnlyAttempt(s: Db, a: nat, row: Attempt): State
    requires a < |s.attempts|
  {
    s.(attempts := s.attempts[a := row])
  }

  /** A settled or flagged attempt ignores a decline, and a success with no other charge id. */
  lemma SettlementIgnored(s: Db, a: nat, success: bool, charge: string)
    requires a < |s.attempts| && (s.attempts[a].status == Success || s.attempts[a].flagged)
    requires !success || s.attempts[a].chargeId == "" || charge == "" || s.attempts[a].chargeId == charge
    ensures Exec(s, SettleStep(a, success, charge)) == s
  {
  }

  /** A second charge id for one attempt flags it, as does a charge id of another attempt. */
  lemma SettlementFlags(s: Db, a: nat, success: bool, charge: string)
    requires a < |s.attempts| && charge != "" && s.attempts[a].chargeId != charge
    requires success || (s.attempts[a].status != Success && !s.attempts[a].flagged)
    requires s.attempts[a].chargeId != ""
             || (s.attempts[a].status != Success && !s.attempts[a].flagged
                 && exists b :: 0 <= b < |s.attempts| && b != a && s.attempts[b].chargeId == charge)
    ensures Exec(s, SettleStep(a, success, charge)) == OnlyAttempt(s, a, s.attempts[a].(flagged := true))
  {
    if s.attempts[a].chargeId == "" {
      var b :| 0 <= b < |s.attempts| && b != a && s.attempts[b].chargeId == charge;
      assert Matches(BoundToOther(charge, a), s.attempts[b], b);
    }
  }

  /** The outcome counts: the attempt is open to it and the charge id is its own or free. */
  ghost predicate Counts(s: Db, a: nat, charge: string) {
    && a < |s.attempts| && s.attempts[a].status != Success && !s.attempts[a].flagged
    && (s.attempts[a].chargeId == "" || charge == "" || s.attempts[a].chargeId == charge)
    && (s.attempts[a].chargeId == "" && charge != "" ==>
          forall b :: 0 <= b < |s.attempts| && b != a ==> s.attempts[b].chargeId != charge)
  }

  /** The invoice can still be settled by attempt `a`. */
  ghost predicate StillOwed(s: Db, a: nat)
    requires a < |s.attempts|
  {
    var i := s.attempts[a].invoice;
    && s.invoices[i].status in {Issued, Failed, Overdue}
    && s.subs[s.invoices[i].subscription].status != SubCanceled
    && forall b :: 0 <= b < |s.attempts| && b != a && s.attempts[b].invoice == i ==> s.attempts[b].status != Success
  }

  /** The charge id is stored once. */
  function WithCharge(p: Attempt, charge: string): Attempt {
    if charge == "" then p else p.(chargeId := charge)
  }

  /** A success pays the invoice that is still owed, and a subscription without other arrears
      returns from OVERDUE to ACTIVE; a success for any other invoice is only flagged. */
  lemma SuccessPaysOrFlags(s: Db, a: nat, charge: string)
    requires Counts(s, a, charge)
    ensures
      var (i, q) := (s.attempts[a].invoice, WithCharge(s.attempts[a], charge));
      var x := s.invoices[i].subscription;
      var owes := exists k :: 0 <= k < |s.invoices| && k != i && s.invoices[k].subscription == x
                              && s.invoices[k].status in {Failed, Overdue};
      Exec(s, SettleStep(a, true, charge)) ==
      if !StillOwed(s, a) then OnlyAttempt(s, a, q.(flagged := true))
      else OnlyAttempt(s, a, q.(status := Success)).(
        invoices := s.invoices[i := s.invoices[i].(status := Paid)],
        subs := s.subs[x := if s.subs[x].status == SubOverdue && !owes
                            then s.subs[x].(status := Active) else s.subs[x]])
  {
  }

  /** A decline fails the attempt; an ISSUED invoice that is still owed becomes FAILED and its
      ACTIVE subscription OVERDUE. A declined attempt only learns its charge id. */
  lemma DeclineFails(s: Db, a: nat, charge: string)
    requires Counts(s, a, charge)
    ensures
      var (i, q) := (s.attempts[a].invoice, WithCharge(s.attempts[a], charge));
      var (inv, x) := (s.invoices[i], s.invoices[i].subscription);
      Exec(s, SettleStep(a, false, charge)) ==
      if s.attempts[a].status == Declined then OnlyAttempt(s, a, q)
      else if !StillOwed(s, a) then OnlyAttempt(s, a, q.(status := Declined))
      else OnlyAttempt(s, a, q.(status := Declined)).(
        invoices := s.invoices[i := if inv.status == Issued then inv.(status := Failed) else inv],
        subs := s.subs[x := if s.subs[x].status == Active then s.subs[x].(status := SubOverdue) else s.subs[x]])
  {
  }

  // ---- A whole payment call ----

  /** With ids that nothing uses yet. */
  ghost predicate NewIds(s: Db, d: Draw) {
    && d.chargeId != ""
    && (forall a :: 0 <= a < |s.attempts| ==>
          s.attempts[a].request.key != d.providerKey && s.attempts[a].chargeId != d.chargeId)
    && (forall k :: 0 <= k < |s.receipts| ==>
          s.receipts[k].request.key != d.providerKey && s.receipts[k].chargeId != d.chargeId)
  }

  /** The first payment call for a chargeable invoice leaves one receipt and one attempt with the
      request's key, and the invoice is PAID, or FAILED if it was ISSUED, by the provider's word. */
  lemma PaymentRunsThrough(s: Db, i: nat, key: string, issuedOnly: bool, d: Draw)
    requires Chargeable(s, i, key, issuedOnly) && NewIds(s, d)
    ensures
      var (t, row) := (AttemptCharge(s, i, key, issuedOnly, d), FirstRow(s, i, key, d.providerKey));
      && t.receipts == s.receipts + [Receipt(row.request, d.success, d.chargeId)]
      && t.attempts == s.attempts + [row.(chargeId := d.chargeId, status := if d.success then Success else Declined)]
      && t.invoices == s.invoices[i := s.invoices[i].(status :=
           if d.success then Paid else if s.invoices[i].status == Issued then Failed else s.invoices[i].status)]
  {
    var (row, a) := (FirstRow(s, i, key, d.providerKey), |s.attempts|);
    NewCallCaptures(s, i, key, issuedOnly, d);
    var called := s.(attempts := s.attempts + [row],
                     receipts := s.receipts + [Receipt(row.request, d.success, d.chargeId)]);
    SuccessPaysOrFlags(called, a, d.chargeId);
    DeclineFails(called, a, d.chargeId);
    hide AttemptCharge, Exec, Chargeable, NewIds, Counts, StillOwed;
  }

  /** The inserted attempt is charged, and its outcome will count. */
  lemma NewCallCaptures(s: Db, i: nat, key: string, issuedOnly: bool, d: Draw)
    requires Chargeable(s, i, key, issuedOnly) && NewIds(s, d)
    ensures
      var (row, a) := (FirstRow(s, i, key, d.providerKey), |s.attempts|);
      var called := s.(attempts := s.attempts + [row],
                       receipts := s.receipts + [Receipt(row.request, d.success, d.chargeId)]);
      && Counts(called, a, d.chargeId) && StillOwed(called, a)
      && AttemptCharge(s, i, key, issuedOnly, d) == Exec(called, SettleStep(a, d.success, d.chargeId))
  {
    var (row, a) := (FirstRow(s, i, key, d.providerKey), |s.attempts|);
    var inserted := s.(attempts := s.attempts + [row]);
    PrepareInsertsIff(s, i, key, issuedOnly, d.providerKey);
    ChargeCallsThenSettles(inserted, a, d.success, d.chargeId);
    CallAnswers(inserted, a, d.success, d.chargeId, 0);
    hide Prepare, Call, Charge, Exec;
  }

  /** A repeated call with a stored client key writes nothing once that attempt is settled or
      flagged, nor does one for another invoice. */
  lemma PaymentReplays(s: Db, i: nat, key: string, d: Draw, a: nat)
    requires i < |s.invoices| && key != ""
    requires Earliest(s.attempts, a, (r: Attempt) => r.org == s.invoices[i].org && r.clientKey == Some(key))
    requires s.attempts[a].invoice != i || s.attempts[a].status != Pending || s.attempts[a].flagged
    ensures AttemptCharge(s, i, key, false, d) == s
  {
    PrepareReplaysKey(s, i, key, false, d.providerKey, a);
    hide Prepare, Charge;
  }

  // ---- Webhooks ----

  /** A nonempty text of at most 255 characters. */
  predicate ShortText(j: Json) {
    j.Text? && 0 < |j.t| < 256
  }

  /** A delivery is accepted exactly when its provider is known, its event has an id and a type,
      and its payload is an object that names no attempt, or a positive attempt number with an
      outcome and a charge id; any other is refused without effect. */
  lemma WebhookAccepts(s: Db, d: Delivery)
    ensures Webhook(s, d).Ok? <==>
            && d.provider == "mock" && ShortText(d.eventId) && ShortText(d.eventType) && d.payload.Payload?
            && (d.payload.paymentId == Null
                || (d.payload.paymentId.Number? && d.payload.paymentId.n >= 1
                    && d.payload.status in {Text("success"), Text("failed")} && ShortText(d.payload.chargeId)))
    ensures !Webhook(s, d).Ok? ==> Webhook(s, d) == Err(BadRequest) && Exec(s, WebhookStep(d)) == s
    ensures Webhook(s, d).Ok? ==> Webhook(s, d) == Ok(Exec(s, WebhookStep(d)))
  {
    hide Recorded, Settle, EventSeen;
    assert d.eventId.Text? ==> (d.eventId.t != "" <==> |d.eventId.t| > 0);
    assert d.eventType.Text? ==> (d.eventType.t != "" <==> |d.eventType.t| > 0);
  }

  ghost predicate NewEvent(s: Db, d: Delivery)
    requires d.eventId.Text?
  {
    forall k :: 0 <= k < |s.events| && s.events[k].provider == d.provider ==> s.events[k].eventId != d.eventId.t
  }

  function WithEvent(s: Db, d: Delivery, org: Option<nat>): State
    requires d.eventId.Text?
  {
    s.(events := s.events + [WebhookEvent(d.provider, d.eventId.t, org, true)])
  }

  /** A recorded event is ignored; one that names no stored attempt is recorded and does nothing
      else. */
  lemma WebhookRecordsOnly(s: Db, d: Delivery)
    requires Webhook(s, d).Ok? && d.eventId.Text?
    ensures !NewEvent(s, d) ==> Exec(s, WebhookStep(d)) == s
    ensures NewEvent(s, d) && d.payload.Payload?
            && (d.payload.paymentId == Null
                || (d.payload.paymentId.Number? && d.payload.paymentId.n > |s.attempts|)) ==>
              Exec(s, WebhookStep(d)) == WithEvent(s, d, None)
  {
  }

  /** The delivery names the attempt with primary key `n`. */
  ghost predicate Names(s: Db, d: Delivery, n: int) {
    && Webhook(s, d).Ok? && d.eventId.Text? && NewEvent(s, d)
    && d.payload.Payload? && d.payload.paymentId == Number(n) && 1 <= n <= |s.attempts| && d.payload.chargeId.Text?
  }

  /** A new event settles exactly the attempt it names, with its outcome and charge id, and is
      recorded under that attempt's organization. */
  lemma WebhookSettlesNamed(s: Db, d: Delivery, n: int)
    requires Names(s, d, n)
    ensures
      var org := s.attempts[n - 1].org;
      var settled := Exec(s, SettleStep(n - 1, d.payload.status == Text("success"), d.payload.chargeId.t));
      && settled.events == s.events
      && Exec(s, WebhookStep(d)) == WithEvent(settled, d, Some(org))
  {
    hide Settled;
    assert !EventSeen(s.events, d.provider, d.eventId.t);
    assert SettleRead(Recorded(s, d), n - 1, d.payload.chargeId.t) == SettleRead(s, n - 1, d.payload.chargeId.t);
  }

  /** All other attempts, invoices and subscriptions stay as they are. */
  lemma WebhookTouchesNamed(s: Db, d: Delivery, n: int)
    requires Names(s, d, n)
    ensures
      var t := Exec(s, WebhookStep(d));
      var i := s.attempts[n - 1].invoice;
      && |t.attempts| == |s.attempts| && |t.invoices| == |s.invoices| && |t.subs| == |s.subs|
      && (forall a :: 0 <= a < |s.attempts| && a != n - 1 ==> t.attempts[a] == s.attempts[a])
      && (forall k :: 0 <= k < |s.invoices| && k != i ==> t.invoices[k] == s.invoices[k])
      && (forall x :: 0 <= x < |s.subs| && x != s.invoices[i].subscription ==> t.subs[x] == s.subs[x])
  {
    WebhookSettlesNamed(s, d, n);
    var charge := d.payload.chargeId.t;
    var settled := Exec(s, SettleStep(n - 1, d.payload.status == Text("success"), charge));
    assert settled ==
           Write(s, n - 1, Settled(SettleRead(s, n - 1, charge), d.payload.status == Text("success"), charge));
    hide Settled, SettleRead, Exec;
  }

  /** A reported success pays the invoice of an attempt in flight, and a reported failure declines
      that attempt. */
  lemma WebhookOutcome(s: Db, d: Delivery, n: int)
    requires Names(s, d, n) && Counts(s, n - 1, d.payload.chargeId.t) && s.attempts[n - 1].status == Pending
    ensures
      var (t, i) := (Exec(s, WebhookStep(d)), s.attempts[n - 1].invoice);
      && |t.attempts| == |s.attempts| && |t.invoices| == |s.invoices|
      && (d.payload.status == Text("success") && StillOwed(s, n - 1) ==>
            && t.attempts[n - 1] == s.attempts[n - 1].(status := Success, chargeId := d.payload.chargeId.t)
            && t.invoices[i] == s.invoices[i].(status := Paid))
      && (d.payload.status == Text("failed") ==>
            t.attempts[n - 1] == s.attempts[n - 1].(status := Declined, chargeId := d.payload.chargeId.t))
  {
    WebhookSettlesNamed(s, d, n);
    WebhookAccepts(s, d);
    SuccessPaysOrFlags(s, n - 1, d.payload.chargeId.t);
    DeclineFails(s, n - 1, d.payload.chargeId.t);
    hide Exec, Webhook, NewEvent, Counts, StillOwed;
  }
}
