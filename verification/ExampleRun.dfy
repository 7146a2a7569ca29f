/** Short runs that reach the states in which a promise fails: one customer, one plan, one
    subscription, one invoice and one charge. */
module ExampleRun {
  import opened Calendar
  import opened Tables
  import opened Services
  import opened Truthful

  function FirstCustomer(): Customer {
    Customer(0, "cus", "pm")
  }

  function FirstPlan(): Plan {
    Plan(0, 1000, "USD", true, Weekly, 0)
  }

  function FirstSubscription(): Subscription {
    Subscription(0, 0, 0, Active, 0, 7 * DAY, None)
  }

  function FirstInvoice(): Invoice {
    Invoice(0, 0, Issued, 1000, "USD", 0, 7 * DAY, Some(0))
  }

  function FirstAttempt(): Attempt {
    Attempt(0, 0, ChargeRequest(1000, "USD", "cus", "pm", "key"), None, Pending, "", 0, false)
  }

  // ---- The states ----

  /** A customer and a plan. */
  function Parents(): Db {
    Empty().(customers := [FirstCustomer()], plans := [FirstPlan()])
  }

  /** Subscribed and billed. */
  function Subscribed(): Db {
    Parents().(subs := [FirstSubscription()], invoices := [FirstInvoice()], queue := multiset{0})
  }

  /** A charge is under way. */
  function WithAttempt(): Db {
    Subscribed().(attempts := [FirstAttempt()])
  }

  /** The subscription is canceled before the charge is settled. */
  function CanceledMeanwhile(): Db {
    WithAttempt().(subs := [FirstSubscription().(status := SubCanceled, reason := Some(Voluntary))],
                   invoices := [FirstInvoice().(status := Canceled)])
  }

  /** The provider has declined the charge. */
  function WithReceipt(): Db {
    WithAttempt().(receipts := [Receipt(FirstAttempt().request, false, "ch")])
  }

  /** The provider has captured the charge. */
  function WithCapture(): Db {
    WithAttempt().(receipts := [Receipt(FirstAttempt().request, true, "ch")])
  }

  /** The success is settled. */
  function PaidOnce(): Db {
    WithCapture().(invoices := [FirstInvoice().(status := Paid)],
                   attempts := [FirstAttempt().(status := Success, chargeId := "ch")])
  }

  /** The decline is settled. */
  function DeclinedOnce(): Db {
    WithReceipt().(subs := [FirstSubscription().(status := SubOverdue)],
                   invoices := [FirstInvoice().(status := Failed)],
                   attempts := [FirstAttempt().(status := Declined, chargeId := "ch")])
  }

  /** Dunning has reissued the invoice at the instant of the declined attempt. */
  function ReissuedAtOnce(): Db {
    DeclinedOnce().(invoices := [FirstInvoice()], queue := multiset{0, 0})
  }

  function TenMinutesLater(): Db {
    ReissuedAtOnce().(clock := 600_000_000)
  }

  // ---- The runs ----

  function ChargeUnderWay(): seq<Step> {
    [SaveCustomerStep(0, FirstCustomer()), SavePlanStep(0, FirstPlan()), CreateStep(0, 0),
     PrepareStep(0, "", false, "key")]
  }

  function LateCharge(): seq<Step> {
    ChargeUnderWay() + [CancelStep(0)]
  }

  function CapturedCharge(): seq<Step> {
    ChargeUnderWay() + [CallStep(0, true, "ch")]
  }

  function DeclinedCharge(): seq<Step> {
    ChargeUnderWay() + [CallStep(0, false, "ch")] + [SettleStep(0, false, "ch")]
  }

  function LostReissue(): seq<Step> {
    DeclinedCharge() + [DunStep(0)] + [Tick(600_000_000)]
  }

  // ---- Step by step ----

  lemma ParentsAre()
    ensures Exec(Exec(Empty(), SaveCustomerStep(0, FirstCustomer())), SavePlanStep(0, FirstPlan())) == Parents()
  {
  }

  lemma SubscribedIs()
    ensures Exec(Parents(), CreateStep(0, 0)) == Subscribed()
  {
  }

  lemma WithAttemptIs()
    ensures Exec(Subscribed(), PrepareStep(0, "", false, "key")) == WithAttempt()
  {
    assert Subscribed().attempts == [];
  }

  lemma CanceledMeanwhileIs()
    ensures Exec(WithAttempt(), CancelStep(0)) == CanceledMeanwhile()
  {
    assert CloseOpen(WithAttempt().invoices, 0) == [FirstInvoice().(status := Canceled)];
  }

  lemma WithReceiptIs()
    ensures Exec(WithAttempt(), CallStep(0, false, "ch")) == WithReceipt()
  {
    assert WithAttempt().receipts == [];
  }

  lemma DeclinedOnceIs()
    ensures Exec(WithReceipt(), SettleStep(0, false, "ch")) == DeclinedOnce()
    ensures Honest(WithReceipt(), SettleStep(0, false, "ch"))
  {
    var s := WithReceipt();
    assert s.attempts == [FirstAttempt()] && s.receipts[..0] == [];
    assert SettleRead(s, 0, "ch") ==
           SettleFacts(FirstSubscription(), FirstInvoice(), FirstAttempt(), false, false, false);
    ExecSettle(s, 0, false, "ch");
  }

  lemma WithCaptureIs()
    ensures Exec(WithAttempt(), CallStep(0, true, "ch")) == WithCapture()
  {
    assert WithAttempt().receipts == [];
  }

  lemma PaidOnceIs()
    ensures Exec(WithCapture(), SettleStep(0, true, "ch")) == PaidOnce()
    ensures |WithCapture().attempts| == 1 && Backed(WithCapture(), 0, true, "ch")
  {
    var s := WithCapture();
    assert s.attempts == [FirstAttempt()] && s.receipts[..0] == [];
    assert SettleRead(s, 0, "ch") ==
           SettleFacts(FirstSubscription(), FirstInvoice(), FirstAttempt(), false, false, false);
    ExecSettle(s, 0, true, "ch");
  }

  lemma CapturedChargeRuns()
    ensures Run(Empty(), CapturedCharge()) == WithCapture()
  {
    hide Exec, Run, ChargeUnderWay, WithAttempt, WithCapture;
    ChargeUnderWayRuns();
    WithCaptureIs();
    RunAppend(Empty(), ChargeUnderWay(), CallStep(0, true, "ch"));
  }

  lemma ReissuedAtOnceIs()
    ensures Exec(DeclinedOnce(), DunStep(0)) == ReissuedAtOnce()
  {
    assert DeclinedOnce().attempts[..0] == [];
    ExecDun(DeclinedOnce(), 0);
  }

  lemma TenMinutesLaterIs()
    ensures Exec(ReissuedAtOnce(), Tick(600_000_000)) == TenMinutesLater()
  {
  }

  lemma RunFour(s: Db, a: Step, b: Step, c: Step, d: Step)
    ensures Run(s, [a, b, c, d]) == Exec(Exec(Exec(Exec(s, a), b), c), d)
  {
    hide Exec;
    assert [a, b] == [a] + [b] && [a, b, c] == [a, b] + [c] && [a, b, c, d] == [a, b, c] + [d];
    RunAppend(s, [], a);
    hide Run;
    RunAppend(s, [a], b);
    RunAppend(s, [a, b], c);
    RunAppend(s, [a, b, c], d);
  }

  lemma ChargeUnderWayRuns()
    ensures Run(Empty(), ChargeUnderWay()) == WithAttempt()
  {
    hide Exec, Run, Parents, Subscribed, WithAttempt;
    ParentsAre();
    SubscribedIs();
    WithAttemptIs();
    RunFour(Empty(), SaveCustomerStep(0, FirstCustomer()), SavePlanStep(0, FirstPlan()), CreateStep(0, 0),
            PrepareStep(0, "", false, "key"));
  }

  lemma LateChargeRuns()
    ensures Run(Empty(), LateCharge()) == CanceledMeanwhile()
  {
    hide Exec, Run, ChargeUnderWay, WithAttempt, CanceledMeanwhile;
    ChargeUnderWayRuns();
    CanceledMeanwhileIs();
    RunAppend(Empty(), ChargeUnderWay(), CancelStep(0));
  }

  lemma DeclinedChargeRuns()
    ensures Run(Empty(), DeclinedCharge()) == DeclinedOnce()
    ensures Run(Empty(), ChargeUnderWay() + [CallStep(0, false, "ch")]) == WithReceipt()
  {
    hide Exec, Run, Honest, ChargeUnderWay, WithAttempt, WithReceipt, DeclinedOnce;
    ChargeUnderWayRuns();
    WithReceiptIs();
    DeclinedOnceIs();
    RunAppend(Empty(), ChargeUnderWay(), CallStep(0, false, "ch"));
    RunAppend(Empty(), ChargeUnderWay() + [CallStep(0, false, "ch")], SettleStep(0, false, "ch"));
  }

  lemma LostReissueRuns()
    ensures Run(Empty(), LostReissue()) == TenMinutesLater()
  {
    hide Exec, Run, DeclinedCharge, DeclinedOnce, ReissuedAtOnce, TenMinutesLater;
    DeclinedChargeRuns();
    ReissuedAtOnceIs();
    TenMinutesLaterIs();
    RunAppend(Empty(), DeclinedCharge(), DunStep(0));
    RunAppend(Empty(), DeclinedCharge() + [DunStep(0)], Tick(600_000_000));
  }

  // ---- The provider of these runs is truthful ----

  lemma HonestAppend(steps: seq<Step>, step: Step)
    requires HonestRun(steps) && Honest(Run(Empty(), steps), step)
    ensures HonestRun(steps + [step])
  {
    hide Honest, Run;
    assert (steps + [step])[..|steps|] == steps;
  }

  lemma {:induction false} UnsettledIsHonest(steps: seq<Step>)
    requires forall k :: 0 <= k < |steps| ==> !steps[k].SettleStep? && !steps[k].WebhookStep?
    ensures HonestRun(steps)
  {
    if steps != [] {
      UnsettledIsHonest(steps[..|steps| - 1]);
    }
  }

  lemma UnsettlingIsHonest(s: Db, step: Step)
    requires !step.SettleStep? && !step.WebhookStep?
    ensures Honest(s, step)
  {
  }

  lemma DeclinedChargeIsHonest()
    ensures HonestRun(DeclinedCharge())
  {
    hide Exec, Honest, Run, HonestRun, WithReceipt, DeclinedOnce;
    DeclinedChargeRuns();
    DeclinedOnceIs();
    UnsettledIsHonest(ChargeUnderWay() + [CallStep(0, false, "ch")]);
    hide ChargeUnderWay;
    HonestAppend(ChargeUnderWay() + [CallStep(0, false, "ch")], SettleStep(0, false, "ch"));
  }

  lemma LostReissueIsHonest()
    ensures HonestRun(DeclinedCharge()) && HonestRun(LostReissue())
  {
    hide Honest, Run, HonestRun, DeclinedCharge;
    DeclinedChargeIsHonest();
    UnsettlingIsHonest(Run(Empty(), DeclinedCharge()), DunStep(0));
    HonestAppend(DeclinedCharge(), DunStep(0));
    UnsettlingIsHonest(Run(Empty(), DeclinedCharge() + [DunStep(0)]), Tick(600_000_000));
    HonestAppend(DeclinedCharge() + [DunStep(0)], Tick(600_000_000));
  }
}
