/** What a truthful provider guarantees while transactions race. */
module HonestRaces {
  import opened Tables
  import opened Services
  import opened Invariant
  import opened Preservation
  import opened History
  import opened Ledger
  import opened Truthful
  import opened Money
  import opened ExampleRun
  import opened LockSteps
  import opened Serializability
  import opened LockProgress

  /** A settlement begins with a result that is already on the ledger; a webhook names an
      attempt only after the provider has answered for it. */
  predicate HonestJob(s: Db, job: Step) {
    match job
    case SettleStep(a, success, charge) => a < |s.attempts| && Backed(s, a, success, charge)
    case WebhookStep(d) =>
      WellFormed(d) && d.payload.paymentId.Number? ==>
        && d.payload.paymentId.n <= |s.attempts|
        && Backed(s, d.payload.paymentId.n - 1, d.payload.status == Text("success"), d.payload.chargeId.t)
    case _ => true
  }

  /** Every transaction of the interleaving is honest when it begins. */
  predicate HonestMoves(start: Db, moves: seq<Move>) {
    moves == [] ||
    (var before := moves[..|moves| - 1];
     && HonestMoves(start, before)
     && (moves[|moves| - 1].Begin? ==> HonestJob(Play(start, before).db, moves[|moves| - 1].job)))
  }

  // ---- An honest result stays honest ----

  lemma {:induction false} FindPrefix(before: seq<Receipt>, after: seq<Receipt>, key: string)
    requires before <= after && Find(before, key).Some?
    ensures Find(after, key) == Find(before, key)
  {
    if |before| < |after| {
      var last := |after| - 1;
      FindPrefix(before, after[..last], key);
      assert after == after[..last] + [after[last]];
      FindAppend(after[..last], after[last], key);
    } else {
      assert before == after;
    }
  }

  lemma BackedLater(s: Db, t: Db, a: nat, success: bool, charge: string)
    requires RowsLater(s, t) && a < |s.attempts| && Backed(s, a, success, charge)
    ensures Backed(t, a, success, charge)
  {
    assert AttemptLater(s.attempts[a], t.attempts[a]);
    FindPrefix(s.receipts, t.receipts, s.attempts[a].request.key);
  }

  lemma HonestJobLater(s: Db, t: Db, job: Step)
    requires RowsLater(s, t) && HonestJob(s, job)
    ensures HonestJob(t, job)
  {
    hide RowsLater, Backed;
    assert |s.attempts| <= |t.attempts| by { AttemptsGrow(s, t); }
    match job
    case SettleStep(a, success, charge) => BackedLater(s, t, a, success, charge);
    case WebhookStep(d) =>
      if WellFormed(d) && d.payload.paymentId.Number? {
        BackedLater(s, t, d.payload.paymentId.n - 1, d.payload.status == Text("success"), d.payload.chargeId.t);
      }
    case _ =>
  }

  lemma AttemptsGrow(s: Db, t: Db)
    requires RowsLater(s, t)
    ensures |s.attempts| <= |t.attempts|
  {
  }

  lemma HonestNow(s: Db, job: Step)
    requires HonestJob(s, job)
    ensures Honest(s, job)
  {
    hide Backed;
  }

  // ---- The serial order of an honest interleaving is honest ----

  ghost predicate JobsHonest(w: World) {
    forall k :: 0 <= k < |w.threads| && w.threads[k].ending.Running? ==> HonestJob(w.db, w.threads[k].job)
  }

  /** A move keeps the jobs, starts at most the one it begins, and logs at most one step: the job
      of a running transaction, or a step outside the locks. */
  lemma MakeKeepsJobs(w: World, m: Move)
    ensures
      var v := Make(w, m);
      && |w.threads| <= |v.threads|
      && (forall k :: 0 <= k < |w.threads| ==>
            v.threads[k].job == w.threads[k].job
            && (v.threads[k].ending.Running? ==> w.threads[k].ending.Running?))
      && (forall k :: |w.threads| <= k < |v.threads| ==> m.Begin? && v.threads[k].job == m.job)
      && (v.log == w.log
          || (m.Outside? && Unlocked(w.db, m.step) && v.log == w.log + [m.step])
          || (m.Go? && m.thread < |w.threads| && w.threads[m.thread].ending.Running?
              && v.log == w.log + [w.threads[m.thread].job]))
  {
    if m.Go? && CanGo(w, m.thread) && w.threads[m.thread].ending.Running? && !Ends(w.db, w.threads[m.thread]) {
      AfterKeepsJob(w.db, w.threads[m.thread]);
    }
    hide Ends, After, Effect, Exec, Answer;
  }

  lemma AfterKeepsJob(s: Db, t: Thread)
    ensures After(s, t).job == t.job && After(s, t).ending == t.ending
  {
    hide OpAt, Skips, FindIds, Read;
  }

  lemma StepIsHonest(w: World, m: Move)
    requires JobsHonest(w) && Make(w, m).log != w.log
    ensures |Make(w, m).log| == |w.log| + 1 && w.log == Make(w, m).log[..|w.log|]
    ensures Honest(w.db, Make(w, m).log[|w.log|])
  {
    MakeKeepsJobs(w, m);
    hide Make, Backed;
    if m.Go? { HonestNow(w.db, w.threads[m.thread].job); }
  }

  lemma DbLater(steps: seq<Step>, w: World, v: World)
    requires w.db == Run(Empty(), steps + w.log) && v.db == Run(Empty(), steps + v.log)
    requires v.log == w.log || (|v.log| == |w.log| + 1 && w.log == v.log[..|w.log|])
    ensures RowsLater(w.db, v.db)
  {
    hide Scoped, Tallies, Charges, Reasons, Periods, Statuses, Timed, Exec, Run, RowsLater, Frozen;
    if v.log == w.log {
      LaterReflexive(w.db);
    } else {
      Reachable(steps + w.log);
      assert steps + v.log == steps + w.log + [v.log[|w.log|]];
      RunAppend(Empty(), steps + w.log, v.log[|w.log|]);
      ExecLater(w.db, v.log[|w.log|]);
    }
  }

  lemma JobsStayHonest(w: World, m: Move)
    requires JobsHonest(w) && RowsLater(w.db, Make(w, m).db)
    requires m.Begin? ==> HonestJob(w.db, m.job)
    ensures JobsHonest(Make(w, m))
  {
    MakeKeepsJobs(w, m);
    hide Make, RowsLater, HonestJob;
    var v := Make(w, m);
    forall k | 0 <= k < |v.threads| && v.threads[k].ending.Running?
      ensures HonestJob(v.db, v.threads[k].job)
    {
      HonestJobLater(w.db, v.db, v.threads[k].job);
    }
  }

  lemma RaceIsRun(steps: seq<Step>, moves: seq<Move>)
    ensures var w := Play(Run(Empty(), steps), moves); w.db == Run(Empty(), steps + w.log)
  {
    hide Run, Play, EndedWell, Listed, BothEndedAt;
    InterleavingsAreSerial(Run(Empty(), steps), moves);
    RunAdd(Empty(), steps, Play(Run(Empty(), steps), moves).log);
  }

  /** One move keeps the serial order honest. */
  lemma MoveKeepsHonest(steps: seq<Step>, w: World, m: Move)
    requires HonestRun(steps + w.log) && JobsHonest(w) && w.db == Run(Empty(), steps + w.log)
    requires Make(w, m).db == Run(Empty(), steps + Make(w, m).log)
    requires m.Begin? ==> HonestJob(w.db, m.job)
    ensures HonestRun(steps + Make(w, m).log) && JobsHonest(Make(w, m))
  {
    hide Make, Run, HonestRun, RowsLater, JobsHonest, HonestJob, Honest;
    var v := Make(w, m);
    if v.log != w.log {
      StepIsHonest(w, m);
      assert steps + v.log == steps + w.log + [v.log[|w.log|]];
      HonestAppend(steps + w.log, v.log[|w.log|]);
    }
    DbLater(steps, w, v);
    JobsStayHonest(w, m);
  }

  /** If every settlement is honest when it begins, the serial order is a run of a truthful
      provider: receipts only grow, so what was on the ledger is there at the commit. */
  lemma {:induction false} RacesAreHonest(steps: seq<Step>, moves: seq<Move>)
    requires HonestRun(steps) && HonestMoves(Run(Empty(), steps), moves)
    ensures
      var w := Play(Run(Empty(), steps), moves);
      HonestRun(steps + w.log) && JobsHonest(w)
  {
    var start := Run(Empty(), steps);
    if moves == [] {
      assert steps + [] == steps;
    } else {
      var before := moves[..|moves| - 1];
      RacesAreHonest(steps, before);
      RaceIsRun(steps, before);
      RaceIsRun(steps, moves);
      assert Play(start, moves) == Make(Play(start, before), moves[|moves| - 1]);
      hide Play, Make, Run, HonestRun, JobsHonest, HonestJob;
      MoveKeepsHonest(steps, Play(start, before), moves[|moves| - 1]);
    }
  }

  /** Money is conserved, no invoice is captured twice, and flags stand only on canceled
      subscriptions, however the transactions of a truthful provider race. */
  lemma RacesConserveMoney(steps: seq<Step>, moves: seq<Move>)
    requires HonestRun(steps) && HonestMoves(Run(Empty(), steps), moves)
    ensures
      var s := Play(Run(Empty(), steps), moves).db;
      && Sum(TakenList(s)) == Sum(BilledList(s)) + Sum(HeldList(s))
      && (forall a :: 0 <= a < |s.attempts| && s.attempts[a].flagged ==> s.subs[OwnerOf(s, a)].status.SubCanceled?)
      && (forall i: nat, j: nat, k: nat :: Captures(s, j, i) && Captures(s, k, i) ==> j == k)
  {
    RacesAreHonest(steps, moves);
    RaceIsRun(steps, moves);
    hide Play, Run, HonestRun, HonestMoves, Captures, Sum, TakenList, BilledList, HeldList, JobsHonest;
    var log := steps + Play(Run(Empty(), steps), moves).log;
    MoneyConserved(log);
    forall i: nat, j: nat, k: nat
      ensures Captures(Run(Empty(), log), j, i) && Captures(Run(Empty(), log), k, i) ==> j == k
    {
      CapturedAtMostOnce(log, i, j, k);
    }
  }

  // ---- An honest settlement begins and commits ----

  predicate IsGoOrSettle(m: Move) {
    m.Go? || m == Begin(SettleStep(0, true, "ch"))
  }

  predicate OnlySettles(w: World) {
    && (forall k :: 0 <= k < |w.threads| ==> w.threads[k].job == SettleStep(0, true, "ch"))
    && (forall k :: 0 <= k < |w.threads| ==> !w.threads[k].ending.Aborted?)
    && (forall n :: 0 <= n < |w.log| ==> w.log[n] == SettleStep(0, true, "ch"))
  }

  lemma OneMoveSettles(w: World, m: Move)
    requires OnlySettles(w) && IsGoOrSettle(m)
    ensures OnlySettles(Make(w, m))
  {
    MakeKeepsJobs(w, m);
    if m.Go? && CanGo(w, m.thread) && w.threads[m.thread].ending.Running? && !Ends(w.db, w.threads[m.thread]) {
      AfterKeepsJob(w.db, w.threads[m.thread]);
    }
    hide Ends, After, Effect, Exec, Answer;
  }

  /** Only the one settlement is ever begun, so it alone is logged and nothing aborts. */
  lemma {:induction false} OneJob(start: Db, moves: seq<Move>)
    requires forall n :: 0 <= n < |moves| ==> IsGoOrSettle(moves[n])
    ensures OnlySettles(Play(start, moves))
  {
    hide Make;
    if moves != [] {
      OneJob(start, moves[..|moves| - 1]);
      OneMoveSettles(Play(start, moves[..|moves| - 1]), moves[|moves| - 1]);
    }
  }

  lemma {:induction false} GoesAreHonest(start: Db, moves: seq<Move>, more: seq<Move>)
    requires HonestMoves(start, moves) && OnlyGoes(more)
    ensures HonestMoves(start, moves + more)
  {
    hide Play, HonestJob;
    if more == [] {
      assert moves + more == moves;
    } else {
      var last := |more| - 1;
      GoesAreHonest(start, moves, more[..last]);
      assert (moves + more)[..|moves + more| - 1] == moves + more[..last];
    }
  }

  lemma SettlementBegins()
    ensures HonestMoves(WithCapture(), [Begin(SettleStep(0, true, "ch"))])
    ensures |Play(WithCapture(), [Begin(SettleStep(0, true, "ch"))]).threads| == 1
  {
    PaidOnceIs();
    var moves := [Begin(SettleStep(0, true, "ch"))];
    assert moves[..0] == [];
    assert Play(WithCapture(), []).db == WithCapture();
    hide WithCapture, Backed;
  }

  lemma AtMostOne(w: World)
    requires OnlySettles(w) && |w.threads| == 1 && forall n :: 0 <= n < |w.log| ==> Listed(w, n)
    ensures |w.log| <= 1
  {
    forall n | 0 <= n < |w.log|
      ensures EndedAt(w.threads[0], n)
    {
      assert Listed(w, n);
    }
    if |w.log| > 0 { assert EndedAt(w.threads[0], |w.log| - 1) && EndedAt(w.threads[0], 0); }
  }

  /** A finished settlement that ran alone is the whole serial order. */
  lemma AloneIsLogged(start: Db, moves: seq<Move>)
    requires forall n :: 0 <= n < |moves| ==> IsGoOrSettle(moves[n])
    requires |Play(start, moves).threads| == 1 && AllOver(Play(start, moves))
    ensures Play(start, moves).log == [SettleStep(0, true, "ch")]
    ensures Play(start, moves).db == Exec(start, SettleStep(0, true, "ch"))
  {
    InterleavingsAreSerial(start, moves);
    OneJob(start, moves);
    hide Play, Exec, SerialAnswer, Listed;
    var w := Play(start, moves);
    assert HasPlace(w.threads[0]);
    assert EndedWell(start, w.log, w.threads[0]);
    AtMostOne(w);
    assert w.log == [] + [SettleStep(0, true, "ch")];
    RunAppend(start, [], SettleStep(0, true, "ch"));
  }

  /** The run of the captured charge is truthful, and its settlement may begin. */
  lemma CapturedChargeIsHonest()
    ensures HonestRun(CapturedCharge()) && Run(Empty(), CapturedCharge()) == WithCapture()
  {
    CapturedChargeRuns();
    hide Run, WithCapture;
    UnsettledIsHonest(CapturedCharge());
  }

  lemma CaptureIsPaid() returns (moves: seq<Move>)
    ensures HonestMoves(WithCapture(), moves)
    ensures
      var w := Play(WithCapture(), moves);
      w.log == [SettleStep(0, true, "ch")] && w.db == PaidOnce()
  {
    hide Run, Play, HonestMoves, WithCapture, PaidOnce, Exec, Backed;
    var first := [Begin(SettleStep(0, true, "ch"))];
    SettlementBegins();
    PaidOnceIs();
    var more := AllCanFinish(WithCapture(), first);
    moves := first + more;
    GoesAreHonest(WithCapture(), first, more);
    AloneIsLogged(WithCapture(), moves);
  }

  /** The statements above cover real settlements: from a captured charge an honest settlement
      begins, takes its locks and queries one by one, and pays the invoice. */
  lemma CapturedChargeIsPaid() returns (moves: seq<Move>)
    ensures HonestRun(CapturedCharge()) && HonestMoves(Run(Empty(), CapturedCharge()), moves)
    ensures
      var w := Play(Run(Empty(), CapturedCharge()), moves);
      w.log == [SettleStep(0, true, "ch")] && w.db == PaidOnce() && Sum(TakenList(w.db)) == 1000
  {
    hide Run, HonestRun, Play, HonestMoves, WithCapture, PaidOnce, CapturedCharge, Sum, TakenList;
    CapturedChargeIsHonest();
    PaidOnceTaken();
    moves := CaptureIsPaid();
  }

  lemma PaidOnceTaken()
    ensures Sum(TakenList(PaidOnce())) == 1000
  {
    assert TakenList(PaidOnce()) == [1000];
    assert [1000][..0] == [];
  }
}
