/** Billed periods and the renewal batch (subscriptions/tasks.py). */
module Renewals {
  import opened Calendar
  import opened Tables
  import opened Services
  import opened Invariant
  import opened Preservation

  /** No two invoices of a subscription cover a common instant, and an ACTIVE subscription has
      exactly one invoice for its current period. */
  lemma DisjointBilling(steps: seq<Step>, x: nat)
    requires x < |Run(Empty(), steps).subs|
    ensures
      var s := Run(Empty(), steps);
      && (forall i, j, t: Time :: 0 <= i < |s.invoices| && 0 <= j < |s.invoices| && i != j ==>
            !(Covers(s.invoices[i], x, t) && Covers(s.invoices[j], x, t)))
      && (s.subs[x].status.Active? ==>
            exists i :: 0 <= i < |s.invoices| && BillsCurrent(s.invoices[i], x, s.subs[x])
                     && forall j :: 0 <= j < |s.invoices| && j != i ==> !BillsCurrent(s.invoices[j], x, s.subs[x]))
  {
    hide Run, Scoped, Statuses, Tallies, Charges, Reasons;
    Reachable(steps);
    var s := Run(Empty(), steps);
    forall i, j, t: Time | 0 <= i < |s.invoices| && 0 <= j < |s.invoices| && i != j
      ensures !(Covers(s.invoices[i], x, t) && Covers(s.invoices[j], x, t))
    {
      assert Disjoint(s.invoices[i], s.invoices[j]);
    }
    if s.subs[x].status.Active? {
      var i :| 0 <= i < |s.invoices| && s.invoices[i].subscription == x
               && s.invoices[i].periodStart == s.subs[x].periodStart && s.invoices[i].periodEnd == s.subs[x].periodEnd;
      assert BillsCurrent(s.invoices[i], x, s.subs[x]);
      forall j | 0 <= j < |s.invoices| && j != i
        ensures !BillsCurrent(s.invoices[j], x, s.subs[x])
      {
        assert Disjoint(s.invoices[i], s.invoices[j]);
      }
    }
  }

  predicate Covers(inv: Invoice, x: nat, t: Time) {
    inv.subscription == x && inv.periodStart <= t < inv.periodEnd
  }

  predicate BillsCurrent(inv: Invoice, x: nat, sub: Subscription) {
    inv.subscription == x && inv.periodStart == sub.periodStart && inv.periodEnd == sub.periodEnd
  }

  // ---- run_renewals and run_trial_activations ----

  datatype Handler = RenewIfStillDue | ActivateIfStillExpired

  predicate IsExpiredTrial(sub: Subscription, now: Time) {
    sub.status.Trial? && sub.periodEnd <= now
  }

  /** The handler's recheck under the lock, which is also the batch's filter. */
  predicate Ready(h: Handler, sub: Subscription, now: Time) {
    match h
    case RenewIfStillDue => IsDue(sub, now)
    case ActivateIfStillExpired => IsExpiredTrial(sub, now)
  }

  function StepOf(h: Handler, x: nat): Step {
    match h
    case RenewIfStillDue => RenewStep(x)
    case ActivateIfStillExpired => ActivateStep(x)
  }

  /** The subscriptions with a primary key below `n` that the batch picks up. */
  function ReadyIds(h: Handler, subs: seq<Subscription>, now: Time, n: nat): (ids: seq<nat>)
    requires n <= |subs|
    ensures forall x: nat :: x in ids <==>
              x < n && subs[x].periodEnd <= now
              && subs[x].status == (if h.RenewIfStillDue? then Active else Trial)
  {
    if n == 0 then []
    else if Ready(h, subs[n - 1], now) then ReadyIds(h, subs, now, n - 1) + [n - 1]
    else ReadyIds(h, subs, now, n - 1)
  }

  /** _renew_if_still_due, _activate_if_still_expired */
  function Handle(s: Db, h: Handler, x: nat): Db {
    if x < |s.subs| && Ready(h, s.subs[x], s.clock) then Exec(s, StepOf(h, x)) else s
  }

  /** _run_batch */
  function Batch(s: Db, h: Handler, ids: seq<nat>): Db {
    if ids == [] then s else Handle(Batch(s, h, ids[..|ids| - 1]), h, ids[|ids| - 1])
  }

  /** run_renewals, run_trial_activations */
  function RunCycle(s: Db, h: Handler): Db {
    Batch(s, h, ReadyIds(h, s.subs, s.clock, |s.subs|))
  }

  /** A handled subscription is not ready at the same instant, and no other becomes ready. */
  lemma {:induction false} BatchSettles(s: Db, h: Handler, ids: seq<nat>)
    ensures var t := Batch(s, h, ids);
            && t.clock == s.clock && |t.subs| == |s.subs|
            && forall x :: 0 <= x < |t.subs| && Ready(h, t.subs[x], t.clock) ==>
               Ready(h, s.subs[x], s.clock) && x !in ids
  {
    if ids != [] {
      BatchSettles(s, h, ids[..|ids| - 1]);
      HandleOne(Batch(s, h, ids[..|ids| - 1]), h, ids[|ids| - 1]);
    }
  }

  lemma HandleOne(s: Db, h: Handler, y: nat)
    ensures var t := Handle(s, h, y);
            && t.clock == s.clock && |t.subs| == |s.subs|
            && forall x :: 0 <= x < |t.subs| ==>
                 if x == y then !Ready(h, t.subs[x], t.clock) else t.subs[x] == s.subs[x]
  {
  }

  /** Running a cycle again at the same instant changes nothing. */
  lemma CyclesIdempotent(s: Db, h: Handler)
    ensures RunCycle(RunCycle(s, h), h) == RunCycle(s, h)
    ensures forall x :: 0 <= x < |RunCycle(s, h).subs| ==> !Ready(h, RunCycle(s, h).subs[x], s.clock)
  {
    var t := RunCycle(s, h);
    BatchSettles(s, h, ReadyIds(h, s.subs, s.clock, |s.subs|));
    if ReadyIds(h, t.subs, t.clock, |t.subs|) != [] {
      assert ReadyIds(h, t.subs, t.clock, |t.subs|)[0] in ReadyIds(h, t.subs, t.clock, |t.subs|);
    }
  }
}
