/** Every interleaving of single locks and queries matches a serial run of whole transactions,
    and never comes to a standstill. */
module Serializability {
  import opened Tables
  import opened Services
  import opened Invariant
  import opened Preservation
  import opened Ledger
  import opened LockSteps
  import opened LockInvariant
  import opened LockPrograms
  import opened LockCommits

  /** The transaction has its place in the serial order, and the answer it would have there. */
  predicate HasPlace(t: Thread) {
    t.ending.Ended? || t.ending.Leaving?
  }

  predicate EndedWell(start: Db, log: seq<Step>, t: Thread)
    requires HasPlace(t)
  {
    && t.ending.position < |log| && log[t.ending.position] == t.job
    && t.ending.reply == SerialAnswer(Run(start, log[..t.ending.position]), t.job)
  }

  /** A transaction that has found no row holds at most the lock on its event. */
  predicate OnlyEvents(t: Thread) {
    forall l :: l in t.held ==> l.EventLock?
  }

  ghost predicate ThreadGood(start: Db, w: World, t: Thread) {
    match t.ending
    case Running => Fine(w.db, t)
    case Leaving(_, _) => EndedWell(start, w.log, t) && OnlyEvents(t)
    case Ended(_, _) => EndedWell(start, w.log, t) && t.held == {}
    case Aborted => t.held == {}
  }

  predicate EndedAt(t: Thread, n: nat) {
    HasPlace(t) && t.ending.position == n
  }

  /** A step outside the transactions. */
  predicate Aside(step: Step) {
    !Transaction(step)
  }

  ghost predicate Listed(w: World, n: nat)
    requires n < |w.log|
  {
    Aside(w.log[n]) || exists k :: 0 <= k < |w.threads| && EndedAt(w.threads[k], n)
  }

  predicate BothEndedAt(t: Thread, u: Thread) {
    HasPlace(t) && HasPlace(u) && t.ending.position == u.ending.position
  }

  /** No two transactions hold a common lock or share a place in the serial order. */
  ghost predicate Separate(threads: seq<Thread>) {
    forall j, k :: 0 <= j < |threads| && 0 <= k < |threads| && j != k ==>
      threads[j].held !! threads[k].held && !BothEndedAt(threads[j], threads[k])
  }

  ghost predicate Good(start: Db, w: World) {
    && w.db == Run(start, w.log)
    && (forall k :: 0 <= k < |w.threads| ==> ThreadGood(start, w, w.threads[k]))
    && Separate(w.threads)
    && (forall n :: 0 <= n < |w.log| ==> Listed(w, n))
  }

  lemma EndedStays(start: Db, log: seq<Step>, step: Step, t: Thread)
    requires HasPlace(t) && EndedWell(start, log, t)
    ensures EndedWell(start, log + [step], t)
  {
    assert (log + [step])[..t.ending.position] == log[..t.ending.position];
  }

  /** A thread that takes no part in a commit. */
  lemma BystanderGood(start: Db, w: World, v: World, t: Thread, step: Step, held: set<Lock>)
    requires ThreadGood(start, w, t) && v.log == w.log + [step] && Frame(w.db, v.db, held) && held !! t.held
    ensures ThreadGood(start, v, t)
  {
    hide Fine, Frame, EndedWell;
    match t.ending
    case Running => FineStays(w.db, v.db, t, held);
    case Leaving(_, _) => EndedStays(start, w.log, step, t);
    case Ended(_, _) => EndedStays(start, w.log, step, t);
    case Aborted =>
  }

  lemma ListedStays(w: World, v: World, n: nat)
    requires n < |w.log| && Listed(w, n) && w.log <= v.log && |w.threads| <= |v.threads|
    requires forall k :: 0 <= k < |w.threads| && HasPlace(w.threads[k]) ==>
        HasPlace(v.threads[k]) && v.threads[k].ending.position == w.threads[k].ending.position
    ensures Listed(v, n)
  {
    hide Aside;
    assert v.log[n] == w.log[n];
    if !Aside(w.log[n]) {
      var k :| 0 <= k < |w.threads| && EndedAt(w.threads[k], n);
      assert EndedAt(v.threads[k], n);
    }
  }

  lemma UnlockedIsAside(s: Db, step: Step)
    requires Unlocked(s, step)
    ensures Aside(step)
  {
  }

  lemma OutsideGood(start: Db, w: World, step: Step)
    requires Good(start, w) && Unlocked(w.db, step)
    ensures Good(start, Make(w, Outside(step)))
  {
    hide Exec, Run, ThreadGood, Listed, Frame, Unlocked, Aside, Separate;
    UnlockedIsAside(w.db, step);
    var v := Make(w, Outside(step));
    RunAppend(start, w.log, step);
    OutsideFrame(w.db, step);
    forall k | 0 <= k < |v.threads|
      ensures ThreadGood(start, v, v.threads[k])
    {
      BystanderGood(start, w, v, w.threads[k], step, {});
    }
    forall n | 0 <= n < |v.log|
      ensures Listed(v, n)
    {
      if n < |w.log| { ListedStays(w, v, n); } else { ListedOutside(v, n); }
    }
  }

  lemma ListedOutside(w: World, n: nat)
    requires n < |w.log| && Aside(w.log[n])
    ensures Listed(w, n)
  {
  }

  lemma NewIsGood(start: Db, w: World, job: Step)
    requires Transaction(job)
    ensures ThreadGood(start, w, NewThread(job))
  {
  }

  lemma BeginGood(start: Db, w: World, job: Step)
    requires Good(start, w) && Transaction(job)
    ensures Good(start, Make(w, Begin(job)))
  {
    hide Run, ThreadGood, Listed;
    var v := Make(w, Begin(job));
    forall k | 0 <= k < |v.threads|
      ensures ThreadGood(start, v, v.threads[k])
    {
      if k < |w.threads| {
        ThreadGoodSame(start, w, v, w.threads[k]);
      } else {
        NewIsGood(start, v, job);
      }
    }
    forall n | 0 <= n < |v.log|
      ensures Listed(v, n)
    {
      ListedStays(w, v, n);
    }
  }

  lemma AbortGood(start: Db, w: World, k: nat)
    requires Good(start, w) && k < |w.threads| && w.threads[k].ending.Running?
    ensures Good(start, Make(w, Abort(k)))
  {
    hide Run, Listed, Fine, EndedWell;
    var v := Make(w, Abort(k));
    forall j | 0 <= j < |v.threads|
      ensures ThreadGood(start, v, v.threads[j])
    {
      assert ThreadGood(start, w, w.threads[j]);
    }
    forall i, j | 0 <= i < |v.threads| && 0 <= j < |v.threads| && i != j
      ensures v.threads[i].held !! v.threads[j].held && !BothEndedAt(v.threads[i], v.threads[j])
    {
      assert w.threads[i].held !! w.threads[j].held && !BothEndedAt(w.threads[i], w.threads[j]);
    }
    forall n | 0 <= n < |v.log|
      ensures Listed(v, n)
    {
      ListedStays(w, v, n);
    }
  }

  lemma ThreadGoodSame(start: Db, w: World, v: World, t: Thread)
    requires ThreadGood(start, w, t) && v.db == w.db && v.log == w.log
    ensures ThreadGood(start, v, t)
  {
    hide Fine, EndedWell;
  }

  lemma AfterHeld(s: Db, t: Thread)
    ensures After(s, t).held <= t.held + (if Wanted(t).Some? then {Wanted(t).value} else {})
    ensures After(s, t).ending == t.ending
  {
    hide Read, FindIds, OpAt, Skips;
  }

  lemma AfterGood(start: Db, w: World, k: nat)
    requires Good(start, w) && CanGo(w, k) && w.threads[k].ending.Running? && !Ends(w.db, w.threads[k])
    ensures Good(start, Make(w, Go(k)))
  {
    hide Run, Listed, Fine, After, Ends, Wanted, EndedWell;
    var t := w.threads[k];
    var v := Make(w, Go(k));
    assert v == w.(threads := w.threads[k := After(w.db, t)]);
    assert ThreadGood(start, w, t);
    AfterFine(w.db, t);
    AfterHeld(w.db, t);
    forall j | 0 <= j < |v.threads|
      ensures ThreadGood(start, v, v.threads[j])
    {
      assert ThreadGood(start, w, w.threads[j]);
    }
    forall i, j | 0 <= i < |v.threads| && 0 <= j < |v.threads| && i != j
      ensures v.threads[i].held !! v.threads[j].held && !BothEndedAt(v.threads[i], v.threads[j])
    {
      assert w.threads[i].held !! w.threads[j].held && !BothEndedAt(w.threads[i], w.threads[j]);
    }
    forall n | 0 <= n < |v.log|
      ensures Listed(v, n)
    {
      ListedStays(w, v, n);
    }
  }

  /** Where a transaction finds no row it holds nothing but its event. */
  lemma MissingHolds(s: Db, t: Thread)
    requires Fine(s, t) && Ends(s, t) && !NextOp(t).Finish?
    ensures OnlyEvents(t)
  {
    assert t.ids.None?;
    hide FindIds, Skips, Guarded, Current, Passed;
    forall l | l in t.held
      ensures l.EventLock?
    {
      assert Earned(s, t, l);
      BeforeResolve(t.job, IdsOf(t), IdsOf(t), t.pc);
      NoLockBeforeResolve(t.job, IdsOf(t), t.pc);
    }
  }

  lemma NoLockBeforeResolve(job: Step, ids: Ids, pc: nat)
    requires OpAt(job, ids, pc) == Resolve
    ensures forall n: nat :: n < pc && OpAt(job, ids, n).Take? ==> OpAt(job, ids, n).lock.EventLock?
  {
  }

  lemma CommitGood(start: Db, w: World, k: nat)
    requires Good(start, w) && k < |w.threads| && w.threads[k].ending.Running? && Ends(w.db, w.threads[k])
    ensures Good(start, Committing(w, k))
  {
    hide Run, Listed, Fine, Frame, Ends, Effect, Exec, Answer, SerialAnswer, EndedWell;
    var t := w.threads[k];
    var v := Committing(w, k);
    assert ThreadGood(start, w, t);
    CommitIsSerial(w.db, t);
    RunAppend(start, w.log, t.job);
    if !NextOp(t).Finish? { MissingHolds(w.db, t); }
    forall j | 0 <= j < |v.threads|
      ensures ThreadGood(start, v, v.threads[j])
    {
      if j == k {
        CommittedWell(start, w, k);
      } else {
        assert w.threads[j].held !! w.threads[k].held;
        BystanderGood(start, w, v, w.threads[j], t.job, t.held);
      }
    }
    CommitSeparate(start, w, k);
    forall n | 0 <= n < |v.log|
      ensures Listed(v, n)
    {
      if n < |w.log| { ListedStays(w, v, n); } else { ListedCommit(v, k, n); }
    }
  }

  lemma LeaveGood(start: Db, w: World, k: nat)
    requires Good(start, w) && k < |w.threads| && w.threads[k].ending.Leaving?
    ensures Good(start, w.(threads := w.threads[k := Left(w.threads[k])]))
  {
    hide Run, Listed, Fine, SerialAnswer;
    var v := w.(threads := w.threads[k := Left(w.threads[k])]);
    forall j | 0 <= j < |v.threads|
      ensures ThreadGood(start, v, v.threads[j])
    {
      assert ThreadGood(start, w, w.threads[j]);
    }
    forall i, j | 0 <= i < |v.threads| && 0 <= j < |v.threads| && i != j
      ensures v.threads[i].held !! v.threads[j].held && !BothEndedAt(v.threads[i], v.threads[j])
    {
      assert w.threads[i].held !! w.threads[j].held && !BothEndedAt(w.threads[i], w.threads[j]);
    }
    forall n | 0 <= n < |v.log|
      ensures Listed(v, n)
    {
      ListedStays(w, v, n);
    }
  }

  lemma ListedCommit(w: World, k: nat, n: nat)
    requires n < |w.log| && k < |w.threads| && EndedAt(w.threads[k], n)
    ensures Listed(w, n)
  {
  }

  lemma CommittedWell(start: Db, w: World, k: nat)
    requires k < |w.threads| && w.db == Run(start, w.log) &&
        Answer(w.db, w.threads[k]) == SerialAnswer(w.db, w.threads[k].job)
    ensures EndedWell(start, Committing(w, k).log, Committing(w, k).threads[k])
  {
    hide Run, Effect, Answer, SerialAnswer;
    var v := Committing(w, k);
    assert v.log[..|w.log|] == w.log;
  }

  lemma CommitSeparate(start: Db, w: World, k: nat)
    requires Good(start, w) && k < |w.threads| && w.threads[k].ending.Running?
    ensures Separate(Committing(w, k).threads)
  {
    hide Run, Listed, Fine, Effect, Answer, SerialAnswer;
    var v := Committing(w, k);
    forall i, j | 0 <= i < |v.threads| && 0 <= j < |v.threads| && i != j
      ensures v.threads[i].held !! v.threads[j].held && !BothEndedAt(v.threads[i], v.threads[j])
    {
      assert w.threads[i].held !! w.threads[j].held && !BothEndedAt(w.threads[i], w.threads[j]);
      assert ThreadGood(start, w, w.threads[i]) && ThreadGood(start, w, w.threads[j]);
    }
  }

  lemma {:induction false} PlayGood(start: Db, moves: seq<Move>)
    ensures Good(start, Play(start, moves))
  {
    if moves != [] {
      hide Good, Transaction, Unlocked, Ends, Committing;
      var w := Play(start, moves[..|moves| - 1]);
      PlayGood(start, moves[..|moves| - 1]);
      match moves[|moves| - 1]
      case Begin(job) => if Transaction(job) { BeginGood(start, w, job); }
      case Outside(step) => if Unlocked(w.db, step) { OutsideGood(start, w, step); }
      case Abort(k) => if k < |w.threads| && w.threads[k].ending.Running? { AbortGood(start, w, k); }
      case Go(k) =>
        if CanGo(w, k) {
          if w.threads[k].ending.Leaving? { LeaveGood(start, w, k); }
          else if Ends(w.db, w.threads[k]) { CommitGood(start, w, k); }
          else { AfterGood(start, w, k); }
        }
    }
  }

  /** Every interleaving ends in the state of a serial run of its transactions, in the order of
      their commits, or of the lookup for one that found no row; each of them has its own place
      in that order and answers or refuses its caller as it would there. Transactions that abort
      leave no trace. */
  lemma InterleavingsAreSerial(start: Db, moves: seq<Move>)
    ensures
      var w := Play(start, moves);
      && w.db == Run(start, w.log)
      && (forall k :: 0 <= k < |w.threads| && HasPlace(w.threads[k]) ==> EndedWell(start, w.log, w.threads[k]))
      && (forall j, k :: 0 <= j < |w.threads| && 0 <= k < |w.threads| && j != k ==>
            !BothEndedAt(w.threads[j], w.threads[k]))
      && (forall n :: 0 <= n < |w.log| ==> Listed(w, n))
  {
    PlayGood(start, moves);
    hide Run, EndedWell, Listed;
    var w := Play(start, moves);
    assert forall k :: 0 <= k < |w.threads| ==> ThreadGood(start, w, w.threads[k]);
  }

  lemma {:induction false} RunAdd(s: Db, a: seq<Step>, b: seq<Step>)
    ensures Run(s, a + b) == Run(Run(s, a), b)
  {
    hide Exec;
    if b == [] {
      assert a + b == a;
    } else {
      var last := |b| - 1;
      RunAdd(s, a, b[..last]);
      assert a + b == a + b[..last] + [b[last]];
      RunAppend(s, a + b[..last], b[last]);
    }
  }

  /** So the joint invariant survives every race that begins in a reachable state. */
  lemma RacesKeepInvariant(steps: seq<Step>, moves: seq<Move>)
    ensures
      var w := Play(Run(Empty(), steps), moves);
      && w.db == Run(Empty(), steps + w.log)
      && Inv(w.db) && Books(w.db)
  {
    hide Inv, Books, Play, Run, EndedWell, Listed, BothEndedAt;
    var log := Play(Run(Empty(), steps), moves).log;
    InterleavingsAreSerial(Run(Empty(), steps), moves);
    RunAdd(Empty(), steps, log);
    Reachable(steps + log);
    ReachableBooks(steps + log);
  }

  // ---- No deadlock ----

  lemma WantedChild(s: Db, t: Thread, l: Lock)
    requires Fine(s, t) && Wanted(t) == Some(l) && Child(l)
    ensures Earned(s, t, l)
  {
    SeenOnlyByWebhooks(s, t);
    if NextOp(t).Take? {
      ChildSited(s, t, l);
    } else {
      UnderSub(t);
      BeforeTakeOpen(t);
      Told(s, t);
      hide OpAt, Skips, Passed, Guarded, Current;
      assert Says(s, t, t.ids.value, OpenIds);
    }
  }

  /** A lock below a subscription is never waited for. */
  lemma BlockedOnTop(start: Db, w: World, k: nat, h: nat, l: Lock)
    requires Good(start, w) && k < |w.threads| && h < |w.threads| && h != k
    requires w.threads[k].ending.Running? && Wanted(w.threads[k]) == Some(l) && l in w.threads[h].held
    ensures !Child(l) && Live(w.threads[h])
    ensures w.threads[h].ending.Running? ==> Earned(w.db, w.threads[h], l)
  {
    assert ThreadGood(start, w, w.threads[k]) && ThreadGood(start, w, w.threads[h]);
    assert w.threads[h].held !! w.threads[k].held;
    if Child(l) { WantedChild(w.db, w.threads[k], l); }
    hide OpAt, Skips, Passed, Guarded, Current, Run, FindIds, Wanted;
  }

  lemma EarnedBefore(s: Db, t: Thread, k: Lock, l: Lock)
    requires Earned(s, t, k) && Wanted(t) == Some(l) && !Child(k) && !Child(l)
    ensures Rank(k) < Rank(l)
  {
    var n: nat :| n < t.pc && OpAt(t.job, IdsOf(t), n) == Take(k);
    hide OpAt, Skips;
    TakenInOrder(t.job, IdsOf(t), n, t.pc, k, l);
  }

  /** Follows a blocked transaction to one that can go: whoever holds the lock waits, if at
      all, for a lock of higher rank. */
  lemma {:induction false} Unblocked(start: Db, w: World, k: nat) returns (j: nat)
    requires Good(start, w) && k < |w.threads| && Live(w.threads[k])
    ensures CanGo(w, j)
    decreases 6 - (if Wanted(w.threads[k]).Some? then Rank(Wanted(w.threads[k]).value) else 0)
  {
    hide Good, Wanted, Earned;
    j := k;
    if !CanGo(w, k) {
      var l := Wanted(w.threads[k]).value;
      var h :| 0 <= h < |w.threads| && h != k && l in w.threads[h].held;
      BlockedOnTop(start, w, k, h, l);
      j := h;
      if !CanGo(w, h) {
        var m := Wanted(w.threads[h]).value;
        var g :| 0 <= g < |w.threads| && g != h && m in w.threads[g].held;
        BlockedOnTop(start, w, h, g, m);
        EarnedBefore(w.db, w.threads[h], l, m);
        j := Unblocked(start, w, h);
      }
    }
  }

  /** While a transaction is unfinished, some transaction can take its next step. */
  lemma NeverStuck(start: Db, moves: seq<Move>, k: nat)
    requires k < |Play(start, moves).threads| && Live(Play(start, moves).threads[k])
    ensures exists j :: CanGo(Play(start, moves), j)
  {
    PlayGood(start, moves);
    var j := Unblocked(start, Play(start, moves), k);
  }
}
