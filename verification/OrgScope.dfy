/** Organization scope under races: subscription creation and re-parenting against customer and
    plan moves, one lock, read or write at a time (subscriptions/domain/models.py:59-93,
    accounts/models.py:121-131, plans/models.py:31-41). Reads see committed rows. */
module OrgScope {

  datatype Row = Row(org: nat, customer: nat, plan: nat)

  datatype ScopeLock = SubLock(x: nat) | CustomerLock(c: nat) | PlanLock(p: nat)

  datatype Job =
    | Create(customer: nat, plan: nat)                  // SubscriptionService.create
    | Reparent(sub: nat, customer: nat, plan: nat)      // Subscription.save on an existing row
    | MoveCustomer(customer: nat, org: nat)             // Customer.save
    | MovePlan(plan: nat, org: nat)                     // Plan.save

  // Where a transaction stands; the names say what it does next.
  datatype Point = LockSub | LockCustomer | LockPlan | ReadCustomer | ReadPlan | CheckSubs | Commit | Done

  /** A transaction and the values it has read. */
  datatype ScopeThread = ScopeThread(job: Job, at: Point, customerOrg: nat, planOrg: nat)

  datatype ScopeWorld = ScopeWorld(customers: seq<nat>, plans: seq<nat>, subs: seq<Row>, threads: seq<ScopeThread>)

  function StartOf(job: Job): ScopeThread {
    ScopeThread(job, match job
                case Create(_, _) => LockCustomer
                case Reparent(_, _, _) => LockSub
                case MoveCustomer(_, _) => LockCustomer
                case MovePlan(_, _) => LockPlan, 0, 0)
  }

  // ---- Locks ----

  predicate MovesParent(job: Job) {
    job.MoveCustomer? || job.MovePlan?
  }

  /** FOR SHARE for creations and re-parenting, FOR NO KEY UPDATE for moves, FOR UPDATE for the own row. */
  predicate NeedsExclusive(job: Job, l: ScopeLock) {
    MovesParent(job) || l.SubLock?
  }

  predicate Holds(t: ScopeThread, l: ScopeLock) {
    match l
    case SubLock(x) => t.job.Reparent? && t.job.sub == x && !t.at.LockSub? && !t.at.Done?
    case CustomerLock(c) =>
      !t.job.MovePlan? && t.job.customer == c && !t.at.LockSub? && !t.at.LockCustomer? && !t.at.Done?
    case PlanLock(p) =>
      !t.job.MoveCustomer? && t.job.plan == p
      && !t.at.LockSub? && !t.at.LockCustomer? && !t.at.LockPlan? && !t.at.Done?
  }

  predicate Wants(t: ScopeThread, l: ScopeLock) {
    match l
    case SubLock(x) => t.at.LockSub? && t.job.Reparent? && t.job.sub == x
    case CustomerLock(c) => t.at.LockCustomer? && !t.job.MovePlan? && t.job.customer == c
    case PlanLock(p) => t.at.LockPlan? && !t.job.MoveCustomer? && t.job.plan == p
  }

  predicate Conflict(t: ScopeThread, u: ScopeThread, l: ScopeLock) {
    Wants(t, l) && Holds(u, l) && (NeedsExclusive(t.job, l) || NeedsExclusive(u.job, l))
  }

  /** The lock a transaction is about to take. */
  function NextLock(t: ScopeThread): ScopeLock {
    if t.at.LockSub? && t.job.Reparent? then SubLock(t.job.sub)
    else if t.at.LockCustomer? && !t.job.MovePlan? then CustomerLock(t.job.customer)
    else if !t.job.MoveCustomer? then PlanLock(t.job.plan)
    else CustomerLock(t.job.customer)
  }

  predicate CanStep(w: ScopeWorld, k: nat) {
    k < |w.threads| && !w.threads[k].at.Done?
    && forall j :: 0 <= j < |w.threads| && j != k ==> !Conflict(w.threads[k], w.threads[j], NextLock(w.threads[k]))
  }

  // ---- One step of one transaction ----

  function Over(t: ScopeThread): ScopeThread {
    t.(at := Done)
  }

  /** The transaction after its next action, reading the committed rows. */
  function Next(w: ScopeWorld, t: ScopeThread): ScopeThread {
    match t.at
    case LockSub =>
      if !t.job.Reparent? || t.job.sub >= |w.subs| then Over(t)
      else if w.subs[t.job.sub].customer == t.job.customer && w.subs[t.job.sub].plan == t.job.plan then Over(t)
      else t.(at := LockCustomer)
    case LockCustomer => t.(at := if t.job.MoveCustomer? then CheckSubs else LockPlan)
    case LockPlan => t.(at := if t.job.MovePlan? then CheckSubs else ReadCustomer)
    case ReadCustomer =>
      if MovesParent(t.job) || t.job.customer >= |w.customers| then Over(t)
      else t.(at := ReadPlan, customerOrg := w.customers[t.job.customer])
    case ReadPlan =>
      if MovesParent(t.job) || t.job.plan >= |w.plans| || w.plans[t.job.plan] != t.customerOrg then Over(t)
      else if t.job.Reparent? && (t.job.sub >= |w.subs| || w.subs[t.job.sub].org != t.customerOrg) then Over(t)
      else t.(at := Commit, planOrg := w.plans[t.job.plan])
    case CheckSubs =>
      if t.job.MoveCustomer? && t.job.customer < |w.customers|
         && (w.customers[t.job.customer] == t.job.org ||
               !(exists x :: 0 <= x < |w.subs| && w.subs[x].customer == t.job.customer))
      then t.(at := Commit)
      else if t.job.MovePlan? && t.job.plan < |w.plans|
         && (w.plans[t.job.plan] == t.job.org || !(exists x :: 0 <= x < |w.subs| && w.subs[x].plan == t.job.plan))
      then t.(at := Commit)
      else Over(t)
    case Commit => Over(t)
    case Done => t
  }

  /** The rows after a commit. */
  function Written(w: ScopeWorld, t: ScopeThread): ScopeWorld {
    match t.job
    case Create(c, p) => w.(subs := w.subs + [Row(t.customerOrg, c, p)])
    case Reparent(x, c, p) => if x < |w.subs| then w.(subs := w.subs[x := w.subs[x].(customer := c, plan := p)]) else w
    case MoveCustomer(c, org) => if c < |w.customers| then w.(customers := w.customers[c := org]) else w
    case MovePlan(p, org) => if p < |w.plans| then w.(plans := w.plans[p := org]) else w
  }

  function Advance(w: ScopeWorld, k: nat): ScopeWorld {
    if !CanStep(w, k) then w
    else
      var t := w.threads[k];
      var rows := if t.at.Commit? then Written(w, t) else w;
      rows.(threads := w.threads[k := Next(w, t)])
  }

  /** A crash or a database error: the locks are released and nothing is written. */
  function Withdraw(w: ScopeWorld, k: nat): ScopeWorld {
    if k < |w.threads| then w.(threads := w.threads[k := Over(w.threads[k])]) else w
  }

  datatype Turn = Forward(thread: nat) | Broken(thread: nat)

  function TakeTurn(w: ScopeWorld, turn: Turn): ScopeWorld {
    match turn
    case Forward(k) => Advance(w, k)
    case Broken(k) => Withdraw(w, k)
  }

  function PlayScope(w: ScopeWorld, schedule: seq<Turn>): ScopeWorld {
    if schedule == [] then w else TakeTurn(PlayScope(w, schedule[..|schedule| - 1]), schedule[|schedule| - 1])
  }

  // ---- The invariant ----

  predicate InScope(w: ScopeWorld, r: Row) {
    r.customer < |w.customers| && r.plan < |w.plans| && r.org == w.customers[r.customer] == w.plans[r.plan]
  }

  ghost predicate AllInScope(w: ScopeWorld) {
    forall x :: 0 <= x < |w.subs| ==> InScope(w, w.subs[x])
  }

  /** What a transaction has read is still true while it holds its locks. */
  predicate Accurate(w: ScopeWorld, t: ScopeThread) {
    match t.job
    case Create(c, p) =>
      && !t.at.LockSub? && !t.at.CheckSubs?
      && (t.at.ReadPlan? || t.at.Commit? ==> c < |w.customers| && w.customers[c] == t.customerOrg)
      && (t.at.Commit? ==> p < |w.plans| && w.plans[p] == t.customerOrg)
    case Reparent(x, c, p) =>
      && !t.at.CheckSubs?
      && (t.at.ReadPlan? || t.at.Commit? ==> c < |w.customers| && w.customers[c] == t.customerOrg)
      && (t.at.Commit? ==>
            p < |w.plans| && w.plans[p] == t.customerOrg && x < |w.subs| && w.subs[x].org == t.customerOrg)
    case MoveCustomer(c, org) =>
      && (t.at.LockCustomer? || t.at.CheckSubs? || t.at.Commit? || t.at.Done?)
      && (t.at.Commit? ==>
            c < |w.customers| && (w.customers[c] == org || forall x :: 0 <= x < |w.subs| ==> w.subs[x].customer != c))
    case MovePlan(p, org) =>
      && (t.at.LockPlan? || t.at.CheckSubs? || t.at.Commit? || t.at.Done?)
      && (t.at.Commit? ==>
            p < |w.plans| && (w.plans[p] == org || forall x :: 0 <= x < |w.subs| ==> w.subs[x].plan != p))
  }

  predicate Compatible(t: ScopeThread, u: ScopeThread, l: ScopeLock) {
    Holds(t, l) && Holds(u, l) ==> !NeedsExclusive(t.job, l) && !NeedsExclusive(u.job, l)
  }

  ghost predicate GoodScope(w: ScopeWorld) {
    && AllInScope(w)
    && (forall k :: 0 <= k < |w.threads| ==> Accurate(w, w.threads[k]))
    && (forall j, k, l: ScopeLock :: 0 <= j < |w.threads| && 0 <= k < |w.threads| && j != k ==>
          Compatible(w.threads[j], w.threads[k], l))
  }

  lemma HoldsAfter(w: ScopeWorld, t: ScopeThread, l: ScopeLock)
    requires Holds(Next(w, t), l) && Accurate(w, t)
    ensures Holds(t, l) || (Wants(t, l) && NextLock(t) == l)
  {
  }

  lemma AdvanceCompatible(w: ScopeWorld, k: nat)
    requires GoodScope(w) && CanStep(w, k)
    ensures
      var t := w.threads[k := Next(w, w.threads[k])];
      forall i, j, l: ScopeLock :: 0 <= i < |t| && 0 <= j < |t| && i != j ==> Compatible(t[i], t[j], l)
  {
    var t := w.threads[k := Next(w, w.threads[k])];
    forall i, j, l: ScopeLock | 0 <= i < |t| && 0 <= j < |t| && i != j
      ensures Compatible(t[i], t[j], l)
    {
      assert Compatible(w.threads[i], w.threads[j], l);
      if i == k && Holds(t[k], l) { HoldsAfter(w, w.threads[k], l); }
      if j == k && Holds(t[k], l) { HoldsAfter(w, w.threads[k], l); }
    }
  }

  /** A commit leaves what every other transaction has read untouched. */
  lemma CommitRespects(w: ScopeWorld, k: nat, j: nat)
    requires GoodScope(w) && k < |w.threads| && j < |w.threads| && j != k && w.threads[k].at.Commit?
    ensures Accurate(Written(w, w.threads[k]), w.threads[j])
  {
    var t, u := w.threads[k], w.threads[j];
    assert Accurate(w, t) && Accurate(w, u);
    if !t.job.MovePlan? { assert Compatible(t, u, CustomerLock(t.job.customer)); }
    if !t.job.MoveCustomer? { assert Compatible(t, u, PlanLock(t.job.plan)); }
  }

  lemma CommitScoped(w: ScopeWorld, k: nat)
    requires GoodScope(w) && k < |w.threads| && w.threads[k].at.Commit?
    ensures AllInScope(Written(w, w.threads[k]))
  {
    assert Accurate(w, w.threads[k]);
    var v := Written(w, w.threads[k]);
    forall x | 0 <= x < |v.subs|
      ensures InScope(v, v.subs[x])
    {
      assert x < |w.subs| ==> InScope(w, w.subs[x]);
    }
  }

  lemma NextAccurate(w: ScopeWorld, t: ScopeThread)
    requires Accurate(w, t) && !t.at.Commit?
    ensures Accurate(w, Next(w, t))
  {
  }

  lemma AdvanceKeepsScope(w: ScopeWorld, k: nat)
    requires GoodScope(w)
    ensures GoodScope(Advance(w, k))
  {
    if CanStep(w, k) {
      var v := Advance(w, k);
      AdvanceCompatible(w, k);
      if w.threads[k].at.Commit? { CommitScoped(w, k); }
      forall j | 0 <= j < |v.threads|
        ensures Accurate(v, v.threads[j])
      {
        assert Accurate(w, w.threads[j]);
        if w.threads[k].at.Commit? {
          if j != k { CommitRespects(w, k, j); }
        } else if j == k {
          NextAccurate(w, w.threads[k]);
        }
      }
    }
  }

  lemma WithdrawKeepsScope(w: ScopeWorld, k: nat)
    requires GoodScope(w)
    ensures GoodScope(Withdraw(w, k))
  {
    if k < |w.threads| {
      var v := Withdraw(w, k);
      assert Accurate(w, w.threads[k]);
      forall j | 0 <= j < |v.threads|
        ensures Accurate(v, v.threads[j])
      {
        assert Accurate(w, w.threads[j]);
      }
      forall i, j, l: ScopeLock | 0 <= i < |v.threads| && 0 <= j < |v.threads| && i != j
        ensures Compatible(v.threads[i], v.threads[j], l)
      {
        assert Compatible(w.threads[i], w.threads[j], l);
      }
    }
  }

  lemma {:induction false} PlayKeepsScope(w: ScopeWorld, schedule: seq<Turn>)
    requires GoodScope(w)
    ensures GoodScope(PlayScope(w, schedule))
  {
    if schedule != [] {
      PlayKeepsScope(w, schedule[..|schedule| - 1]);
      var before := PlayScope(w, schedule[..|schedule| - 1]);
      match schedule[|schedule| - 1]
      case Forward(k) => AdvanceKeepsScope(before, k);
      case Broken(k) => WithdrawKeepsScope(before, k);
    }
  }

  /** All transactions at their first point. */
  predicate AllAtStart(threads: seq<ScopeThread>) {
    forall k :: 0 <= k < |threads| ==> threads[k] == StartOf(threads[k].job)
  }

  /** In every interleaving each subscription stays in the organization of its customer and
      of its plan. */
  lemma ScopeSurvivesRaces(w: ScopeWorld, schedule: seq<Turn>)
    requires AllInScope(w) && AllAtStart(w.threads)
    ensures AllInScope(PlayScope(w, schedule))
  {
    PlayKeepsScope(w, schedule);
  }

  // ---- No deadlock ----

  function ScopeRank(l: ScopeLock): nat {
    match l case SubLock(_) => 0 case CustomerLock(_) => 1 case PlanLock(_) => 2
  }

  /** A blocked transaction leads to one that can step: whoever holds the lock waits, if at
      all, for a lock of higher rank. */
  lemma {:induction false} WhoCanStep(w: ScopeWorld, k: nat) returns (j: nat)
    requires GoodScope(w) && k < |w.threads| && !w.threads[k].at.Done?
    ensures CanStep(w, j)
    decreases 3 - ScopeRank(NextLock(w.threads[k]))
  {
    j := k;
    if !CanStep(w, k) {
      var h :| 0 <= h < |w.threads| && h != k && Conflict(w.threads[k], w.threads[h], NextLock(w.threads[k]));
      assert Accurate(w, w.threads[h]);
      if w.threads[h].at.LockCustomer? || w.threads[h].at.LockPlan? {
        j := WhoCanStep(w, h);
      } else {
        j := h;
      }
    }
  }

  /** Every interleaving can go on until all transactions are done. */
  lemma SomeoneCanStep(w: ScopeWorld, schedule: seq<Turn>, k: nat)
    requires AllInScope(w) && AllAtStart(w.threads)
    requires k < |PlayScope(w, schedule).threads| && !PlayScope(w, schedule).threads[k].at.Done?
    ensures exists j :: CanStep(PlayScope(w, schedule), j)
  {
    PlayKeepsScope(w, schedule);
    var j := WhoCanStep(PlayScope(w, schedule), k);
  }

  // ---- Alone ----

  /** `n` turns of the first transaction. */
  function Turns(w: ScopeWorld, n: nat): ScopeWorld
    decreases n
  {
    if n == 0 then w else Turns(Advance(w, 0), n - 1)
  }

  /** The rows after a transaction that nothing disturbs; none takes more than six turns. */
  function Alone(w: ScopeWorld, job: Job): ScopeWorld {
    Turns(w.(threads := [StartOf(job)]), 6)
  }

  lemma OneTurn(w: ScopeWorld, t: ScopeThread, n: nat)
    requires n > 0
    ensures Turns(w.(threads := [t]), n)
         == Turns((if t.at.Commit? then Written(w, t) else w).(threads := [Next(w, t)]), n - 1)
  {
    var v := w.(threads := [t]);
    assert CanStep(v, 0) <==> !t.at.Done?;
    assert Next(v, t) == Next(w, t) && v.threads[0 := Next(w, t)] == [Next(w, t)];
  }

  lemma {:induction false} NoTurn(w: ScopeWorld, t: ScopeThread, n: nat)
    requires t.at.Done?
    ensures Turns(w.(threads := [t]), n) == w.(threads := [t])
  {
    if n > 0 {
      OneTurn(w, t, n);
      NoTurn(w, t, n - 1);
    }
  }

  /** From the customer lock on. */
  lemma InsertAlone(w: ScopeWorld, t: ScopeThread, n: nat)
    requires n >= 5 && t.at.LockCustomer? && !MovesParent(t.job)
    ensures
      var (v, c, p) := (Turns(w.(threads := [t]), n), t.job.customer, t.job.plan);
      var fits := c < |w.customers| && p < |w.plans| && w.customers[c] == w.plans[p]
                  && (t.job.Reparent? ==> t.job.sub < |w.subs| && w.subs[t.job.sub].org == w.customers[c]);
      && |v.threads| == 1 && v.threads[0].at.Done?
      && v == (if fits then Written(w, t.(customerOrg := w.customers[c])) else w).(threads := v.threads)
  {
    hide Turns;
    var reading := t.(at := ReadCustomer);
    OneTurn(w, t, n);
    OneTurn(w, t.(at := LockPlan), n - 1);
    OneTurn(w, reading, n - 2);
    var read := Next(w, reading);
    if read.at.Done? {
      NoTurn(w, read, n - 3);
    } else {
      OneTurn(w, read, n - 3);
      var checked := Next(w, read);
      if checked.at.Done? {
        NoTurn(w, checked, n - 4);
      } else {
        OneTurn(w, checked, n - 4);
        NoTurn(Written(w, checked), Over(checked), n - 5);
      }
    }
  }

  /** A subscription is inserted exactly for a customer and a plan of one organization, and in that
      organization. */
  lemma CreateAlone(w: ScopeWorld, c: nat, p: nat)
    ensures
      var v := Alone(w, Create(c, p));
      && |v.threads| == 1 && v.threads[0].at.Done?
      && v == (if c < |w.customers| && p < |w.plans| && w.customers[c] == w.plans[p]
               then w.(subs := w.subs + [Row(w.customers[c], c, p)]) else w).(threads := v.threads)
  {
    var t := StartOf(Create(c, p));
    InsertAlone(w, t, 6);
    hide Turns;
  }

  /** It is given other parents exactly when both belong to its own organization. */
  lemma ReparentAlone(w: ScopeWorld, x: nat, c: nat, p: nat)
    ensures
      var v := Alone(w, Reparent(x, c, p));
      && |v.threads| == 1 && v.threads[0].at.Done?
      && v == (if x < |w.subs| && c < |w.customers| && p < |w.plans|
                  && w.subs[x].org == w.customers[c] == w.plans[p]
               then w.(subs := w.subs[x := Row(w.subs[x].org, c, p)]) else w).(threads := v.threads)
  {
    var t := StartOf(Reparent(x, c, p));
    OneTurn(w, t, 6);
    hide Turns;
    if Next(w, t).at.Done? {
      NoTurn(w, Next(w, t), 5);
    } else {
      InsertAlone(w, Next(w, t), 5);
    }
  }

  /** A customer or a plan changes its organization exactly when no subscription uses it. */
  lemma MoveAlone(w: ScopeWorld, k: nat, org: nat)
    ensures
      var v := Alone(w, MoveCustomer(k, org));
      && |v.threads| == 1 && v.threads[0].at.Done?
      && v == (if k < |w.customers| && forall x :: 0 <= x < |w.subs| ==> w.subs[x].customer != k
               then w.(customers := w.customers[k := org]) else w).(threads := v.threads)
    ensures
      var v := Alone(w, MovePlan(k, org));
      && |v.threads| == 1 && v.threads[0].at.Done?
      && v == (if k < |w.plans| && forall x :: 0 <= x < |w.subs| ==> w.subs[x].plan != k
               then w.(plans := w.plans[k := org]) else w).(threads := v.threads)
  {
    hide Turns, Alone;
    MoveTurns(w, MoveCustomer(k, org));
    MoveTurns(w, MovePlan(k, org));
  }

  lemma MoveTurns(w: ScopeWorld, job: Job)
    requires MovesParent(job)
    ensures
      var checking := StartOf(job).(at := CheckSubs);
      Alone(w, job) == (if Next(w, checking).at.Commit? then Written(w, checking) else w).(threads := [Over(checking)])
  {
    hide Turns;
    var checking := StartOf(job).(at := CheckSubs);
    OneTurn(w, StartOf(job), 6);
    OneTurn(w, checking, 5);
    var checked := Next(w, checking);
    if checked.at.Commit? {
      OneTurn(w, checked, 4);
      NoTurn(Written(w, checked), Over(checked), 3);
    } else {
      NoTurn(w, checked, 4);
    }
  }
}
