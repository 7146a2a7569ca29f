/** Every step of a transaction brings it closer to its end, so all transactions can finish. */
module LockProgress {
  import opened Services
  import opened Tables
  import opened LockSteps
  import opened Serializability

  // ---- The measure ----

  function Total(threads: seq<Thread>, f: Thread -> nat): nat {
    if threads == [] then 0 else Total(threads[..|threads| - 1], f) + f(threads[|threads| - 1])
  }

  lemma {:induction false} TotalUpdate(threads: seq<Thread>, k: nat, t: Thread, f: Thread -> nat)
    requires k < |threads|
    ensures Total(threads[k := t], f) == Total(threads, f) - f(threads[k]) + f(t)
  {
    var last := |threads| - 1;
    if k == last {
      assert threads[k := t][..last] == threads[..last];
    } else {
      assert threads[k := t][..last] == threads[..last][k := t];
      TotalUpdate(threads[..last], k, t, f);
    }
  }

  /** The longest program has 13 operations. */
  const LONGEST: nat := 13

  /** The operations a transaction has still to pass, and its commit. */
  function StepsLeft(t: Thread): nat {
    match t.ending
    case Running => if t.pc < LONGEST then LONGEST - t.pc + 2 else 2
    case Leaving(_, _) => 1
    case _ => 0
  }

  function Unheld(ids: seq<nat>, held: set<Lock>): nat {
    if ids == [] then 0
    else
      Unheld(ids[..|ids| - 1], held) + if InvoiceLock(ids[|ids| - 1]) in held then 0 else 1
  }

  /** The open invoices it has listed and not yet locked. */
  function LocksLeft(t: Thread): nat {
    if t.ending.Running? then Unheld(t.notes.openIds, t.held) else 0
  }

  /** Fewer operations left, or as many and fewer locks. */
  predicate Closer(before: World, after: World) {
    || Total(after.threads, StepsLeft) < Total(before.threads, StepsLeft)
    || (&& Total(after.threads, StepsLeft) == Total(before.threads, StepsLeft)
        && Total(after.threads, LocksLeft) < Total(before.threads, LocksLeft))
  }

  // ---- Every effective step lowers it ----

  lemma {:induction false} LockLowersUnheld(ids: seq<nat>, held: set<Lock>, k: nat)
    requires InvoiceLock(k) !in held
    ensures Unheld(ids, held + {InvoiceLock(k)}) <= Unheld(ids, held)
    ensures k in ids ==> Unheld(ids, held + {InvoiceLock(k)}) < Unheld(ids, held)
  {
    if ids != [] {
      LockLowersUnheld(ids[..|ids| - 1], held, k);
    }
  }

  lemma ProgramsEnd(job: Step, ids: Ids, n: nat)
    requires n >= LONGEST
    ensures OpAt(job, ids, n) == Finish
  {
  }

  lemma AfterLowers(s: Db, t: Thread)
    requires t.ending.Running? && !Ends(s, t)
    ensures After(s, t).ending.Running?
    ensures
      || StepsLeft(After(s, t)) < StepsLeft(t)
      || (StepsLeft(After(s, t)) == StepsLeft(t) && LocksLeft(After(s, t)) < LocksLeft(t))
  {
    if t.pc >= LONGEST { ProgramsEnd(t.job, IdsOf(t), t.pc); }
    hide OpAt, Skips, FindIds, Read, Unheld;
    var next := NextOpen(t.notes.openIds, t.held);
    if next.Some? { LockLowersUnheld(t.notes.openIds, t.held, next.value); }
  }

  /** Each step a transaction takes lowers the measure, whatever the others do in between. */
  lemma GoLowers(w: World, k: nat)
    requires CanGo(w, k)
    ensures Closer(w, Make(w, Go(k))) && |Make(w, Go(k)).threads| == |w.threads|
  {
    var t := w.threads[k];
    var u :=
      if t.ending.Leaving? then Left(t)
      else if Ends(w.db, t) then Placed(w, t)
      else After(w.db, t);
    if t.ending.Running? && !Ends(w.db, t) { AfterLowers(w.db, t); }
    assert Make(w, Go(k)).threads == w.threads[k := u];
    hide Ends, After, Effect, CanGo, Total, Make;
    TotalUpdate(w.threads, k, u, StepsLeft);
    TotalUpdate(w.threads, k, u, LocksLeft);
  }

  /** The clock, the provider, the broker and new subscriptions never raise it, and an abort
      lowers it: only a new transaction adds work. */
  lemma OthersDoNotRaise(w: World, m: Move)
    requires m.Outside? || m.Abort?
    ensures Make(w, m).threads == w.threads || Closer(w, Make(w, m))
  {
    if m.Abort? && m.thread < |w.threads| && w.threads[m.thread].ending.Running? {
      var u := w.threads[m.thread].(held := {}, ending := Aborted);
      TotalUpdate(w.threads, m.thread, u, StepsLeft);
    }
    hide Total, Exec;
  }

  // ---- All transactions can finish ----

  predicate AllOver(w: World) {
    forall k :: 0 <= k < |w.threads| ==> !Live(w.threads[k])
  }

  predicate OnlyGoes(moves: seq<Move>) {
    forall n :: 0 <= n < |moves| ==> moves[n].Go?
  }

  lemma PlayAppend(start: Db, moves: seq<Move>, m: Move)
    ensures Play(start, moves + [m]) == Make(Play(start, moves), m)
  {
    hide Make;
    assert (moves + [m])[..|moves|] == moves;
  }

  lemma AddNone(moves: seq<Move>)
    ensures moves + [] == moves
  {
  }

  /** From every reachable point the transactions under way can all be brought to their end by
      letting any of them that can go take its next step, again and again. */
  lemma {:induction false} AllCanFinish(start: Db, moves: seq<Move>) returns (more: seq<Move>)
    ensures OnlyGoes(more)
    ensures AllOver(Play(start, moves + more)) && |Play(start, moves + more).threads| == |Play(start, moves).threads|
    decreases Total(Play(start, moves).threads, StepsLeft), Total(Play(start, moves).threads, LocksLeft)
  {
    hide Play, Make, CanGo, Total;
    var w := Play(start, moves);
    if AllOver(w) {
      more := [];
      AddNone(moves);
    } else {
      var k :| 0 <= k < |w.threads| && Live(w.threads[k]);
      NeverStuck(start, moves, k);
      var j :| CanGo(w, j);
      GoLowers(w, j);
      PlayAppend(start, moves, Go(j));
      var rest := AllCanFinish(start, moves + [Go(j)]);
      more := [Go(j)] + rest;
      assert moves + [Go(j)] + rest == moves + more;
    }
  }
}
