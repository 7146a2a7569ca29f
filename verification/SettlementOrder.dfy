/** A decline and a success for one charge may arrive in either order. */
module SettlementOrder {
  import opened Tables
  import opened Services
  import opened Counting
  import opened Invariant
  import opened Preservation
  import opened ExampleRun

  /** Equal databases up to the status of one attempt. */
  predicate SameButStatus(s: Db, t: Db, a: nat) {
    a < |s.attempts| && |s.attempts| == |t.attempts|
    && s == t.(attempts := t.attempts[a := t.attempts[a].(status := s.attempts[a].status)])
  }

  /** The attempt is in flight, the success can no longer be applied, and the unique index lets
      the charge id be stored: the guards of settle on which the order of arrival shows. */
  predicate OrderShows(f: SettleFacts, charge: string) {
    MayCharge(f.payment) && Blocked(f) && (charge == "" || !f.taken)
  }

  /** The two deliveries on the rows alone; the middle facts are those the second one reads. */
  lemma RowsCommute(f: SettleFacts, charge: string)
    requires Allowed(f.sub.status, f.invoice.status)
    requires f.sub.status.Active? ==> !f.otherArrears
    requires MayCharge(f.payment) ==> f.payment.chargeId == ""
    requires f.payment.status.Success? ==> f.invoice.status.Paid?
    ensures
      var d := Settled(f, false, charge);
      var p := Settled(f, true, charge);
      var dp := Settled(f.(sub := d.sub, invoice := d.invoice, payment := d.payment), true, charge);
      var pd := Settled(f.(sub := p.sub, invoice := p.invoice, payment := p.payment), false, charge);
      && dp.sub == pd.sub && dp.invoice == pd.invoice
      && dp.payment == pd.payment.(status := dp.payment.status)
  {
  }

  /** Where the two deliveries differ. */
  lemma RowsDiffer(f: SettleFacts, charge: string)
    requires MayCharge(f.payment) ==> f.payment.chargeId == ""
    ensures
      var d := Settled(f, false, charge);
      var p := Settled(f, true, charge);
      var dp := Settled(f.(sub := d.sub, invoice := d.invoice, payment := d.payment), true, charge);
      var pd := Settled(f.(sub := p.sub, invoice := p.invoice, payment := p.payment), false, charge);
      if OrderShows(f, charge)
      then dp.payment.flagged && dp.payment.status == Declined && pd.payment.status == Pending
      else Allowed(f.sub.status, f.invoice.status) && (f.payment.status.Success? ==> f.invoice.status.Paid?)
           ==> dp.payment.status == pd.payment.status
  {
  }

  lemma RowsRepeat(f: SettleFacts, success: bool, charge: string)
    ensures
      var r := Settled(f, success, charge);
      Settled(f.(sub := r.sub, invoice := r.invoice, payment := r.payment), success, charge) == r
  {
  }

  /** What the second settlement of an attempt reads: the rows the first wrote, and the same
      facts about all other rows. */
  lemma ReadAfter(s: Db, a: nat, success: bool, charge: string)
    requires a < |s.attempts|
    ensures
      var f := SettleRead(s, a, charge);
      var r := Settled(f, success, charge);
      SettleRead(Settle(s, a, success, charge), a, charge) ==
          f.(sub := r.sub, invoice := r.invoice, payment := r.payment)
  {
    var t := Settle(s, a, success, charge);
    OthersSame(s.attempts, t.attempts, a, BoundToOther(charge, a));
    OthersSame(s.attempts, t.attempts, a, SuccessOfOther(s.attempts[a].invoice, a));
    ArrearsSame(s.invoices, t.invoices, OwnerOf(s, a), s.attempts[a].invoice);
  }

  lemma ArrearsSame(before: seq<Invoice>, after: seq<Invoice>, x: nat, i: nat)
    requires |before| == |after| && (forall k :: 0 <= k < |before| && k != i ==> before[k] == after[k])
    ensures OtherArrears(before, x, i) == OtherArrears(after, x, i)
  {
    if OtherArrears(before, x, i) {
      var k :| 0 <= k < |before| && k != i && InArrears(before[k], x);
      assert InArrears(after[k], x);
    }
    if OtherArrears(after, x, i) {
      var k :| 0 <= k < |after| && k != i && InArrears(after[k], x);
      assert InArrears(before[k], x);
    }
  }

  lemma SecondWrite(s: Db, a: nat, first: bool, second: bool, charge: string)
    requires a < |s.attempts|
    ensures
      var f := SettleRead(s, a, charge);
      var r := Settled(f, first, charge);
      Settle(Settle(s, a, first, charge), a, second, charge)
      == Write(s, a, Settled(f.(sub := r.sub, invoice := r.invoice, payment := r.payment), second, charge))
  {
    ReadAfter(s, a, first, charge);
  }

  lemma FactsFit(s: Db, a: nat, charge: string)
    requires Inv(s) && a < |s.attempts|
    ensures
      var f := SettleRead(s, a, charge);
      && Allowed(f.sub.status, f.invoice.status)
      && (f.sub.status.Active? ==> !f.otherArrears)
      && (MayCharge(f.payment) ==> f.payment.chargeId == "")
      && (f.payment.status.Success? ==> f.invoice.status.Paid?)
  {
    var i := s.attempts[a].invoice;
    assert TallyOk(s.attempts, i, s.invoices[i].status);
    if s.attempts[a].status.Success? { CountThese(s.attempts, i, Success, a); }
  }

  lemma WritesMatch(s: Db, a: nat, d: SettleRows, p: SettleRows)
    requires a < |s.attempts|
    requires d.payment.invoice == p.payment.invoice == s.attempts[a].invoice
    requires d.invoice.subscription == OwnerOf(s, a) && d.sub.customer < |s.customers| && d.sub.plan < |s.plans|
    requires d.sub == p.sub && d.invoice == p.invoice && d.payment == p.payment.(status := d.payment.status)
    ensures SameButStatus(Write(s, a, d), Write(s, a, p), a)
    ensures Write(s, a, d) == Write(s, a, p) <==> d.payment.status == p.payment.status
    ensures Write(s, a, d).attempts[a] == d.payment && Write(s, a, p).attempts[a] == p.payment
  {
  }

  lemma OrderAt(s: Db, a: nat, charge: string)
    requires Inv(s) && a < |s.attempts|
    ensures
      var declinedFirst := Settle(Settle(s, a, false, charge), a, true, charge);
      var paidFirst := Settle(Settle(s, a, true, charge), a, false, charge);
      && SameButStatus(declinedFirst, paidFirst, a)
      && (declinedFirst != paidFirst <==> OrderShows(SettleRead(s, a, charge), charge))
      && (OrderShows(SettleRead(s, a, charge), charge) ==>
            && declinedFirst.attempts[a].flagged
            && declinedFirst.attempts[a].status == Declined && paidFirst.attempts[a].status == Pending)
  {
    FactsFit(s, a, charge);
    var f := SettleRead(s, a, charge);
    RowsCommute(f, charge);
    RowsDiffer(f, charge);
    SecondWrite(s, a, false, true, charge);
    SecondWrite(s, a, true, false, charge);
    var d, p := Settled(f, false, charge), Settled(f, true, charge);
    hide Settled, Inv, Exists, OtherArrears, OrderShows, SameButStatus;
    WritesMatch(s, a,
      Settled(f.(sub := d.sub, invoice := d.invoice, payment := d.payment), true, charge),
      Settled(f.(sub := p.sub, invoice := p.invoice, payment := p.payment), false, charge));
  }

  /** A decline and a success with one charge id, delivered in either order, agree on every row
      but perhaps the status of the attempt. They differ there exactly when the attempt was in
      flight, its success can no longer be applied and its charge id can be stored; then the
      attempt ends flagged, FAILED in one order and PENDING in the other. */
  lemma OrderDoesNotMatter(steps: seq<Step>, a: nat, charge: string)
    requires a < |Run(Empty(), steps).attempts|
    ensures
      var s := Run(Empty(), steps);
      var declinedFirst := Settle(Settle(s, a, false, charge), a, true, charge);
      var paidFirst := Settle(Settle(s, a, true, charge), a, false, charge);
      && SameButStatus(declinedFirst, paidFirst, a)
      && (declinedFirst != paidFirst <==> OrderShows(SettleRead(s, a, charge), charge))
      && (OrderShows(SettleRead(s, a, charge), charge) ==>
            && declinedFirst.attempts[a].flagged
            && declinedFirst.attempts[a].status == Declined && paidFirst.attempts[a].status == Pending)
  {
    hide Run, Settle, SettleRead, OrderShows, SameButStatus;
    Reachable(steps);
    OrderAt(Run(Empty(), steps), a, charge);
  }

  // ---- A run on which the order shows ----

  lemma LateChargeShows(charge: string)
    ensures OrderShows(SettleRead(CanceledMeanwhile(), 0, charge), charge)
  {
    assert CanceledMeanwhile().attempts == [FirstAttempt()];
  }

  /** A subscription canceled while its charge is under way: a decline and then a success leave
      the attempt FAILED, a success and then a decline leave it PENDING. */
  lemma OrderShowsOnLateCharge(charge: string)
    ensures
      var s := Run(Empty(), LateCharge());
      && |s.attempts| == 1
      && Settle(Settle(s, 0, false, charge), 0, true, charge).attempts[0].status == Declined
      && Settle(Settle(s, 0, true, charge), 0, false, charge).attempts[0].status == Pending
  {
    LateChargeRuns();
    LateChargeShows(charge);
    hide Run, Settle, SettleRead, OrderShows;
    OrderDoesNotMatter(LateCharge(), 0, charge);
  }

  /** Repeating a settlement changes nothing. */
  lemma RepeatDoesNothing(s: Db, a: nat, success: bool, charge: string)
    requires a < |s.attempts|
    ensures Settle(Settle(s, a, success, charge), a, success, charge) == Settle(s, a, success, charge)
  {
    SecondWrite(s, a, success, success, charge);
    RowsRepeat(SettleRead(s, a, charge), success, charge);
  }
}
