/** What a whole renewal or activation cycle does: exactly the subscriptions whose time has come
    enter their next period, each with one new invoice. */
module CycleLaws {
  import opened Calendar
  import opened Tables
  import opened Services
  import opened Invariant
  import opened Preservation
  import opened Renewals
  import opened LifecycleLaws
  import opened ExampleRun

  /** The one new invoice of subscription `x` is for its new period. */
  ghost predicate BilledOnce(s: Db, t: Db, x: nat)
    requires x < |s.subs| && x < |t.subs|
  {
    exists k :: |s.invoices| <= k < |t.invoices| && t.invoices[k] == BillOf(s, x, t.subs[x])
                && forall j :: |s.invoices| <= j < |t.invoices| && j != k ==> t.invoices[j].subscription != x
  }

  /** These subscriptions enter a period that begins now, and each has one new invoice, which is
      handed to the worker once. No other subscription changes or is billed, and no other row
      changes. */
  ghost predicate Cycled(s: Db, t: Db, moved: set<nat>) {
    && |t.subs| == |s.subs|
    && (forall x :: 0 <= x < |s.subs| ==>
          if x in moved then BeginsPeriod(s, x, t.subs[x]) && BilledOnce(s, t, x) else t.subs[x] == s.subs[x])
    && |s.invoices| <= |t.invoices|
    && (forall k :: 0 <= k < |s.invoices| ==> t.invoices[k] == s.invoices[k])
    && (forall k :: |s.invoices| <= k < |t.invoices| ==> t.invoices[k].subscription in moved)
    && (forall k: nat :: t.queue[k] == s.queue[k] + if |s.invoices| <= k < |t.invoices| then 1 else 0)
    && t == s.(subs := t.subs, invoices := t.invoices, queue := t.queue)
  }

  /** One more subscription. */
  lemma CycleOneMore(s: Db, mid: Db, t: Db, moved: set<nat>, y: nat)
    requires Cycled(s, mid, moved) && y < |s.subs| && y !in moved && EntersPeriod(mid, t, y)
    ensures Cycled(s, t, moved + {y})
  {
    forall x | 0 <= x < |s.subs| && x in moved
      ensures BilledOnce(s, t, x)
    {
      var k :| |s.invoices| <= k < |mid.invoices| && mid.invoices[k] == BillOf(s, x, mid.subs[x])
               && forall j :: |s.invoices| <= j < |mid.invoices| && j != k ==> mid.invoices[j].subscription != x;
      assert t.invoices[k] == BillOf(s, x, t.subs[x]);
    }
    assert t.invoices[|mid.invoices|] == BillOf(s, y, t.subs[y]);
    assert BilledOnce(s, t, y);
  }

  /** The time of the subscription has come: its trial, or its billed period, has ended. */
  predicate TimeHasCome(h: Handler, sub: Subscription, now: Time) {
    sub.periodEnd <= now && sub.status == if h.RenewIfStillDue? then Active else Trial
  }

  lemma HandleEnters(s: Db, h: Handler, x: nat)
    requires Inv(s)
    ensures Inv(Handle(s, h, x))
    ensures if x < |s.subs| && TimeHasCome(h, s.subs[x], s.clock)
            then EntersPeriod(s, Handle(s, h, x), x) else Handle(s, h, x) == s
  {
    hide Inv, Exec, EntersPeriod;
    if x < |s.subs| && Ready(h, s.subs[x], s.clock) {
      ExecKeeps(s, StepOf(h, x));
      match h
      case RenewIfStillDue => RenewalBills(s, x);
      case ActivateIfStillExpired => ActivationBills(s, x);
    }
  }

  /** The listed subscriptions whose time has come. */
  function Listed(s: Db, h: Handler, ids: seq<nat>): set<nat> {
    set x | x in ids && x < |s.subs| && TimeHasCome(h, s.subs[x], s.clock)
  }

  /** A batch over any list, in any order and with repetitions, moves each of them once. */
  lemma {:induction false} BatchBills(s: Db, h: Handler, ids: seq<nat>)
    requires Inv(s)
    ensures Inv(Batch(s, h, ids)) && Cycled(s, Batch(s, h, ids), Listed(s, h, ids))
  {
    hide Inv, Handle, BeginsPeriod, EntersPeriod, BilledOnce;
    if ids != [] {
      var (before, y) := (ids[..|ids| - 1], ids[|ids| - 1]);
      BatchBills(s, h, before);
      var mid := Batch(s, h, before);
      HandleEnters(mid, h, y);
      MovedIsOver(s, mid, h, Listed(s, h, before), y);
      assert ids == before + [y];
      if y < |s.subs| && TimeHasCome(h, mid.subs[y], mid.clock) {
        CycleOneMore(s, mid, Batch(s, h, ids), Listed(s, h, before), y);
        assert Listed(s, h, ids) == Listed(s, h, before) + {y};
      } else {
        assert Listed(s, h, ids) == Listed(s, h, before);
      }
    }
  }

  /** A subscription that has been moved is not due again; the others are as before. */
  lemma MovedIsOver(s: Db, t: Db, h: Handler, moved: set<nat>, y: nat)
    requires Cycled(s, t, moved)
    ensures y < |s.subs| && TimeHasCome(h, t.subs[y], t.clock) ==> y !in moved && t.subs[y] == s.subs[y]
    ensures y < |s.subs| && y !in moved ==> t.subs[y] == s.subs[y]
  {
    if y < |s.subs| && y in moved {
      PeriodEndIsUnique(s.clock, s.plans[s.subs[y].plan].interval, t.subs[y].periodEnd);
      hide EndsPeriod;
    }
  }

  /** The renewal cycle renews exactly the ACTIVE subscriptions whose period has ended, now. */
  lemma RenewalCycle(s: Db)
    requires Inv(s)
    ensures Cycled(s, RunCycle(s, RenewIfStillDue),
                   set x: nat | x < |s.subs| && s.subs[x].status == Active && s.subs[x].periodEnd <= s.clock)
  {
    hide Inv, Cycled;
    var ids := ReadyIds(RenewIfStillDue, s.subs, s.clock, |s.subs|);
    BatchBills(s, RenewIfStillDue, ids);
    assert Listed(s, RenewIfStillDue, ids)
        == set x: nat | x < |s.subs| && s.subs[x].status == Active && s.subs[x].periodEnd <= s.clock;
  }

  /** The activation cycle activates exactly the trials that have ended, and bills them. */
  lemma ActivationCycle(s: Db)
    requires Inv(s)
    ensures Cycled(s, RunCycle(s, ActivateIfStillExpired),
                   set x: nat | x < |s.subs| && s.subs[x].status == Trial && s.subs[x].periodEnd <= s.clock)
  {
    hide Inv, Cycled;
    var ids := ReadyIds(ActivateIfStillExpired, s.subs, s.clock, |s.subs|);
    BatchBills(s, ActivateIfStillExpired, ids);
    assert Listed(s, ActivateIfStillExpired, ids)
        == set x: nat | x < |s.subs| && s.subs[x].status == Trial && s.subs[x].periodEnd <= s.clock;
  }

  // ---- A trial from its first to its last day ----

  function TrialPlan(): Plan {
    FirstPlan().(trialDays := 14)
  }

  function OnTrial(now: Time): Db {
    Empty().(clock := now, customers := [FirstCustomer()], plans := [TrialPlan()],
             subs := [Subscription(0, 0, 0, Trial, 0, 14 * DAY, None)])
  }

  lemma TrialBegins()
    ensures
      var parents := Exec(Exec(Empty(), SaveCustomerStep(0, FirstCustomer())), SavePlanStep(0, TrialPlan()));
      Exec(parents, CreateStep(0, 0)) == OnTrial(0)
  {
    var s := Exec(Exec(Empty(), SaveCustomerStep(0, FirstCustomer())), SavePlanStep(0, TrialPlan()));
    assert s == Empty().(customers := [FirstCustomer()], plans := [TrialPlan()]);
    CreatedOnTrial(s, 0, 0);
  }

  /** Created on trial, nothing is billed; the activation cycle leaves it alone until the fourteen
      days are over, and bills the first week then. */
  lemma TrialIsBilledAtItsEnd(now: Time)
    ensures
      var steps := [SaveCustomerStep(0, FirstCustomer()), SavePlanStep(0, TrialPlan()), CreateStep(0, 0), Tick(now)];
      var s := Run(Empty(), steps);
      var t := RunCycle(s, ActivateIfStillExpired);
      && s == OnTrial(now) && s.invoices == []
      && if now < 14 * DAY then t == s
         else t.subs == [Subscription(0, 0, 0, Active, now, now + 7 * DAY, None)]
              && t.invoices == [Invoice(0, 0, Issued, 1000, "USD", now, now + 7 * DAY, Some(now))]
              && t.queue == multiset{0}
  {
    TrialBegins();
    assert Exec(OnTrial(0), Tick(now)) == OnTrial(now);
    RunFour(Empty(), SaveCustomerStep(0, FirstCustomer()), SavePlanStep(0, TrialPlan()), CreateStep(0, 0), Tick(now));
    hide Run;
    TrialCycle(now);
    hide Exec, RunCycle, OnTrial;
  }

  lemma TrialCycle(now: Time)
    ensures
      var t := RunCycle(OnTrial(now), ActivateIfStillExpired);
      if now < 14 * DAY then t == OnTrial(now)
      else t.subs == [Subscription(0, 0, 0, Active, now, now + 7 * DAY, None)]
           && t.invoices == [Invoice(0, 0, Issued, 1000, "USD", now, now + 7 * DAY, Some(now))]
           && t.queue == multiset{0}
  {
    var (s, h) := (OnTrial(now), ActivateIfStillExpired);
    assert s.subs[0] == Subscription(0, 0, 0, Trial, 0, 14 * DAY, None);
    assert ReadyIds(h, s.subs, now, 0) == [];
    if now < 14 * DAY {
      assert ReadyIds(h, s.subs, now, 1) == [];
    } else {
      assert ReadyIds(h, s.subs, now, 1) == [0];
      assert [0][..0] == [] && Batch(s, h, []) == s;
      assert Batch(s, h, [0]) == Handle(s, h, 0);
    }
  }
}
