/** run_dunning (invoices/tasks.py): with a truthful, responding provider every failed invoice
    is settled, closed or given up on within MAX_DUNNING_ATTEMPTS rounds. */
module DunningRounds {
  import opened Calendar
  import opened Tables
  import opened Services
  import opened Invariant
  import opened Preservation
  import opened History
  import opened DunningBound
  import opened Ledger
  import opened Truthful
  import opened Freshness
  import opened Progress

  /** The failed invoices with a primary key below `n`. */
  function FailedIds(invoices: seq<Invoice>, n: nat): (ids: seq<nat>)
    requires n <= |invoices|
    ensures forall i: nat :: i in ids <==> i < n && invoices[i].status.Failed?
  {
    if n == 0 then []
    else if invoices[n - 1].status.Failed? then FailedIds(invoices, n - 1) + [n - 1]
    else FailedIds(invoices, n - 1)
  }

  function DunAll(s: Db, ids: seq<nat>): Db {
    if ids == [] then s else Committed(DunAll(s, ids[..|ids| - 1]), Dun(DunAll(s, ids[..|ids| - 1]), ids[|ids| - 1]))
  }

  /** An order in which the database may return the failed invoices. */
  predicate IsFailedIds(invoices: seq<Invoice>, ids: seq<nat>) {
    multiset(ids) == multiset(FailedIds(invoices, |invoices|))
  }

  // ---- One dunning pass ----

  /** Where a dunning pass at `now` may leave an invoice that was FAILED when it began. */
  predicate Dunned(before: Invoice, after: Invoice, declined: nat, now: Time, processed: bool, queued: bool) {
    || Final(after.status)
    || (!processed && after == before)
    || (&& processed && declined < MAX_DUNNING_ATTEMPTS && queued
        && after.status.Issued? && after.issuedAt == Some(now))
  }

  lemma DunOne(s: Db, k: nat, i: nat, before: Invoice, processed: bool)
    requires Statuses(s) && i < |s.invoices| && before.status.Failed?
    requires Dunned(before, s.invoices[i], Count(s.attempts, i, Declined), s.clock, processed, i in s.queue)
    ensures
      var t := Committed(s, Dun(s, k));
      && t.attempts == s.attempts && t.clock == s.clock && |t.invoices| == |s.invoices|
      && Dunned(before, t.invoices[i], Count(t.attempts, i, Declined), s.clock, processed || k == i, i in t.queue)
  {
    DunCases(s, k);
  }

  lemma DunKeepsTables(s: Db, k: nat)
    requires Statuses(s)
    ensures
      var t := Committed(s, Dun(s, k));
      t.attempts == s.attempts && t.clock == s.clock && |t.invoices| == |s.invoices|
  {
    DunCases(s, k);
  }

  lemma TrustedStatuses(s: Db)
    requires Trusted(s)
    ensures Statuses(s)
  {
    TrustedFacts(s);
    SoundFacts(s);
  }

  lemma {:induction false} DunAllTrusted(s: Db, ids: seq<nat>)
    requires Trusted(s)
    ensures
      var t := DunAll(s, ids);
      Trusted(t) && t.attempts == s.attempts && t.clock == s.clock && |t.invoices| == |s.invoices|
  {
    if ids != [] {
      var mid := DunAll(s, ids[..|ids| - 1]);
      DunAllTrusted(s, ids[..|ids| - 1]);
      TrustedStatuses(mid);
      DunKeepsTables(mid, ids[|ids| - 1]);
      TrustedStep(mid, DunStep(ids[|ids| - 1]));
    }
  }

  lemma {:induction false} DunAllDuns(s: Db, ids: seq<nat>, i: nat)
    requires Trusted(s) && i < |s.invoices| && s.invoices[i].status.Failed?
    ensures
      var t := DunAll(s, ids);
      && t.attempts == s.attempts && |t.invoices| == |s.invoices|
      && Dunned(s.invoices[i], t.invoices[i], Count(t.attempts, i, Declined), s.clock, i in ids, i in t.queue)
  {
    hide Trusted, Dun;
    if ids != [] {
      var last := |ids| - 1;
      DunAllTrusted(s, ids[..last]);
      DunAllDuns(s, ids[..last], i);
      TrustedStatuses(DunAll(s, ids[..last]));
      DunOne(DunAll(s, ids[..last]), ids[last], i, s.invoices[i], i in ids[..last]);
    }
  }

  // ---- Other steps in between ----

  /** The provider is truthful in these steps too. */
  predicate HonestFrom(s: Db, steps: seq<Step>) {
    steps == [] ||
    (HonestFrom(s, steps[..|steps| - 1]) && Honest(Run(s, steps[..|steps| - 1]), steps[|steps| - 1]))
  }

  /** The invoice is not dunned and no task of it is lost. */
  predicate Calm(steps: seq<Step>, i: nat) {
    forall k :: 0 <= k < |steps| ==> steps[k] != DunStep(i) && steps[k] != LoseTask(i)
  }

  lemma {:induction false} TrustedThrough(s: Db, steps: seq<Step>)
    requires Trusted(s) && HonestFrom(s, steps)
    ensures Trusted(Run(s, steps))
  {
    hide Trusted, Honest, Exec;
    if steps != [] {
      TrustedThrough(s, steps[..|steps| - 1]);
      TrustedStep(Run(s, steps[..|steps| - 1]), steps[|steps| - 1]);
    }
  }

  /** A FAILED invoice with at least `declined` declines, or one that is settled, closed or given up on. */
  predicate Failing(s: Db, i: nat, declined: nat) {
    i < |s.invoices|
    && (Final(s.invoices[i].status) || (s.invoices[i].status.Failed? && Count(s.attempts, i, Declined) >= declined))
  }

  /** Failing after one more decline, or still waiting for a charge that is in the queue. */
  ghost predicate Pursued(s: Db, i: nat, declined: nat) {
    || Failing(s, i, declined + 1)
    || (&& i < |s.invoices| && s.invoices[i].status.Issued? && FreshFor(s, i) && i in s.queue
        && Count(s.attempts, i, Declined) >= declined)
  }

  lemma StatusNow(s: Db, i: nat)
    requires Trusted(s) && i < |s.invoices|
    ensures Final(s.invoices[i].status) || s.invoices[i].status.Issued? || s.invoices[i].status.Failed?
  {
    TrustedStatuses(s);
    assert Allowed(s.subs[s.invoices[i].subscription].status, s.invoices[i].status);
  }

  lemma FinalStays(s: Db, step: Step, i: nat)
    requires Trusted(s) && i < |s.invoices|
    ensures i < |Exec(s, step).invoices|
    ensures Final(s.invoices[i].status) ==> Exec(s, step).invoices[i] == s.invoices[i]
  {
    hide Trusted, Exec, Scoped, Tallies, Charges, Reasons, Periods, Statuses, Timed, Sound, Truth, Books;
    TrustedFacts(s);
    SoundFacts(s);
    ExecLater(s, step);
    assert InvoiceLater(s.invoices[i], Exec(s, step).invoices[i]);
  }

  lemma MovesOf(s: Db, step: Step, i: nat)
    requires Trusted(s) && i < |s.invoices| && step != DunStep(i)
    ensures i < |Exec(s, step).invoices| && IssueMoves(s, Exec(s, step), i)
    ensures !s.invoices[i].status.Issued? ==> !Exec(s, step).invoices[i].status.Issued?
  {
    hide Trusted, Exec, Scoped, Tallies, Charges, Reasons, Periods, Timed, Sound, Truth, Books, IssueMove;
    TrustedFacts(s);
    SoundFacts(s);
    ExecLater(s, step);
    ExecIssue(s, step, i);
  }

  lemma FailingStays(s: Db, step: Step, i: nat, declined: nat)
    requires Trusted(s) && Honest(s, step) && Failing(s, i, declined) && step != DunStep(i)
    ensures Failing(Exec(s, step), i, declined)
  {
    hide Trusted, Exec, Honest, Count;
    FinalStays(s, step, i);
    MovesOf(s, step, i);
    TrustedStep(s, step);
    StatusNow(Exec(s, step), i);
  }

  lemma {:induction false} FailingThrough(s: Db, steps: seq<Step>, i: nat, declined: nat)
    requires Trusted(s) && HonestFrom(s, steps) && Calm(steps, i) && Failing(s, i, declined)
    ensures Failing(Run(s, steps), i, declined)
  {
    hide Trusted, Exec, Honest, Failing;
    if steps != [] {
      var before := steps[..|steps| - 1];
      FailingThrough(s, before, i, declined);
      TrustedThrough(s, before);
      FailingStays(Run(s, before), steps[|steps| - 1], i, declined);
    }
  }

  lemma QueueKeeps(s: Db, step: Step, i: nat)
    requires i in s.queue && step != LoseTask(i)
    ensures i in Exec(s, step).queue
  {
    hide Settled, PrepareChoice, Count, HasPeriodInvoice, PeriodEnd;
  }

  lemma StaysFreshFor(s: Db, step: Step, i: nat)
    requires Trusted(s) && FreshFor(s, i) && step != DunStep(i)
    ensures FreshFor(Exec(s, step), i)
  {
    hide Trusted, Exec, FreshFor, Sound, Truth, Books, Scoped, Tallies, Charges, Reasons, Periods, Timed;
    TrustedFacts(s);
    SoundFacts(s);
    ExecKeepsFresh(s, step, i);
  }

  lemma PursuedStays(s: Db, step: Step, i: nat, declined: nat)
    requires Trusted(s) && Honest(s, step) && Pursued(s, i, declined) && step != DunStep(i) && step != LoseTask(i)
    ensures Pursued(Exec(s, step), i, declined)
  {
    hide Trusted, Exec, Honest, Count, FreshFor;
    if Failing(s, i, declined + 1) {
      FailingStays(s, step, i, declined + 1);
    } else {
      MovesOf(s, step, i);
      QueueKeeps(s, step, i);
      StaysFreshFor(s, step, i);
      TrustedStep(s, step);
      StatusNow(Exec(s, step), i);
    }
  }

  lemma {:induction false} PursuedThrough(s: Db, steps: seq<Step>, i: nat, declined: nat)
    requires Trusted(s) && HonestFrom(s, steps) && Calm(steps, i) && Pursued(s, i, declined)
    ensures Pursued(Run(s, steps), i, declined)
  {
    hide Trusted, Exec, Honest, Pursued;
    if steps != [] {
      var before := steps[..|steps| - 1];
      PursuedThrough(s, before, i, declined);
      TrustedThrough(s, before);
      PursuedStays(Run(s, before), steps[|steps| - 1], i, declined);
    }
  }

  // ---- One round ----

  /** Other steps; the clock moves and run_dunning goes through the failed invoices in the order
      `ids`; other steps again; and the queue is drained in the order `order`. */
  datatype Round = Round(
    quiet: seq<Step>, now: Time, ids: seq<nat>, meanwhile: seq<Step>, order: seq<nat>, draws: seq<Draw>)

  function Begun(s: Db, r: Round): Db {
    Exec(Run(s, r.quiet), Tick(r.now))
  }

  function Waiting(s: Db, r: Round): Db {
    Run(DunAll(Begun(s, r), r.ids), r.meanwhile)
  }

  /** Any other steps that neither dun invoice `i` nor lose its task, any order of dunning and of
      delivery, any provider outcomes; all ids drawn are new. */
  predicate RoundOk(s: Db, r: Round, i: nat) {
    && HonestFrom(s, r.quiet) && Calm(r.quiet, i) && Run(s, r.quiet).clock < r.now
    && IsFailedIds(Begun(s, r).invoices, r.ids)
    && HonestFrom(DunAll(Begun(s, r), r.ids), r.meanwhile) && Calm(r.meanwhile, i)
    && |r.order| == |r.draws| && multiset(r.order) == Waiting(s, r).queue
    && AllFresh(Waiting(s, r), r.order, r.draws)
  }

  function AfterRound(s: Db, r: Round): Db
    requires |r.order| == |r.draws|
  {
    Drain(Waiting(s, r), r.order, r.draws)
  }

  /** The measure: how many more rounds a FAILED invoice can last. */
  function RoundsLeft(s: Db, i: nat): nat
    requires i < |s.invoices|
  {
    if !s.invoices[i].status.Failed? then 0
    else if Count(s.attempts, i, Declined) >= MAX_DUNNING_ATTEMPTS then 1
    else MAX_DUNNING_ATTEMPTS + 1 - Count(s.attempts, i, Declined)
  }

  lemma TickTrusted(s: Db, now: Time, i: nat)
    requires Trusted(s) && s.clock < now
    ensures Trusted(Exec(s, Tick(now))) && ClockMoved(Exec(s, Tick(now)), i)
  {
    hide Trusted, Sound, Scoped, Statuses, Tallies, Charges, Reasons, Periods, Books, Truth;
    TrustedFacts(s);
    SoundFacts(s);
    TrustedStep(s, Tick(now));
  }

  lemma FlagMeansCanceled(s: Db, i: nat)
    requires Trusted(s) && i < |s.invoices|
    ensures HasFlagged(s, i) ==> s.subs[s.invoices[i].subscription].status.SubCanceled?
  {
    TrustedFacts(s);
    if HasFlagged(s, i) {
      var a :| 0 <= a < |s.attempts| && s.attempts[a].invoice == i && s.attempts[a].status.Pending? &&
          s.attempts[a].flagged;
      assert Agrees(s.attempts[a], LedgerOf(s, a), s.subs[OwnerOf(s, a)].status);
    }
  }

  /** A truthful provider flags nothing on an invoice that is still ISSUED. */
  lemma ResolvedLeavesIssued(s: Db, i: nat)
    requires Trusted(s) && Resolved(s, i)
    ensures !s.invoices[i].status.Issued?
  {
    TrustedStatuses(s);
    assert Allowed(s.subs[s.invoices[i].subscription].status, s.invoices[i].status);
    FlagMeansCanceled(s, i);
  }

  /** Draining settles a pursued invoice, or costs it one more decline. */
  lemma DrainSettles(s: Db, order: seq<nat>, draws: seq<Draw>, i: nat, declined: nat)
    requires Trusted(s) && |order| == |draws| && AllFresh(s, order, draws) && multiset(order) == s.queue
    requires Pursued(s, i, declined)
    ensures Trusted(Drain(s, order, draws)) && Failing(Drain(s, order, draws), i, declined + 1)
  {
    hide Trusted, Sound, Drain, AllFresh, FreshFor, Resolved, Count;
    var t := Drain(s, order, draws);
    TrustedFacts(s);
    DrainCharges(s, order, draws);
    assert ChargeMove(s.invoices[i], t.invoices[i], Count(s.attempts, i, Declined), Count(t.attempts, i, Declined));
    if s.invoices[i].status.Issued? {
      assert i in multiset(order);
      DrainResolves(s, order, draws, i);
      ResolvedLeavesIssued(t, i);
    }
  }

  /** After a dunning pass at a moved clock a FAILED invoice is pursued, or given up on when it
      had enough declines. */
  lemma DunningPursues(s: Db, ids: seq<nat>, i: nat)
    requires Trusted(s) && ClockMoved(s, i) && IsFailedIds(s.invoices, ids)
    requires i < |s.invoices| && s.invoices[i].status.Failed?
    ensures
      var q := DunAll(s, ids);
      && Trusted(q) && Pursued(q, i, Count(s.attempts, i, Declined))
      && (Count(s.attempts, i, Declined) >= MAX_DUNNING_ATTEMPTS ==> Final(q.invoices[i].status))
  {
    hide Trusted, Sound, DunAll, FreshFor, Count;
    var q := DunAll(s, ids);
    assert i in multiset(FailedIds(s.invoices, |s.invoices|));
    assert i in multiset(ids);
    DunAllTrusted(s, ids);
    DunAllDuns(s, ids, i);
    ReissuedIsFresh(q, i);
  }

  lemma FinalThroughDunning(s: Db, ids: seq<nat>, i: nat)
    requires Trusted(s) && i < |s.invoices| && Final(s.invoices[i].status)
    ensures Trusted(DunAll(s, ids)) && i < |DunAll(s, ids).invoices| && DunAll(s, ids).invoices[i] == s.invoices[i]
  {
    hide Trusted, DunAll;
    DunAllTrusted(s, ids);
    DunAllKeepsFinal(s, ids, i);
  }

  /** A settled invoice stays as it is through a round. */
  lemma {:induction false} DunAllKeepsFinal(s: Db, ids: seq<nat>, i: nat)
    requires Trusted(s) && i < |s.invoices| && Final(s.invoices[i].status)
    ensures |DunAll(s, ids).invoices| == |s.invoices| && DunAll(s, ids).invoices[i] == s.invoices[i]
  {
    if ids != [] {
      DunAllTrusted(s, ids[..|ids| - 1]);
      DunAllKeepsFinal(s, ids[..|ids| - 1], i);
      TrustedStatuses(DunAll(s, ids[..|ids| - 1]));
      DunKeepsRows(DunAll(s, ids[..|ids| - 1]), ids[|ids| - 1], i);
    }
  }

  lemma DunKeepsRows(s: Db, k: nat, i: nat)
    requires Statuses(s) && i < |s.invoices| && Final(s.invoices[i].status)
    ensures
      var t := Committed(s, Dun(s, k));
      t.attempts == s.attempts && t.clock == s.clock && |t.invoices| == |s.invoices| && t.invoices[i] == s.invoices[i]
  {
    DunCases(s, k);
  }

  /** A final invoice is failing whatever the count. */
  lemma FinalIsFailing(s: Db, i: nat, declined: nat)
    requires i < |s.invoices| && Final(s.invoices[i].status)
    ensures Failing(s, i, declined)
  {
  }

  lemma BegunTrusted(s: Db, r: Round, i: nat, declined: nat)
    requires Trusted(s) && RoundOk(s, r, i) && Failing(s, i, declined)
    ensures Trusted(Begun(s, r)) && ClockMoved(Begun(s, r), i) && Failing(Begun(s, r), i, declined)
  {
    hide Trusted, Failing, Run, ClockMoved, Drain, DunAll, AllFresh;
    var quiet := Run(s, r.quiet);
    TrustedThrough(s, r.quiet);
    FailingThrough(s, r.quiet, i, declined);
    TickTrusted(quiet, r.now, i);
    TickIsHonest(quiet, r.now);
    hide Exec, Honest;
    FailingStays(quiet, Tick(r.now), i, declined);
  }

  lemma TickIsHonest(s: Db, now: Time)
    ensures Honest(s, Tick(now))
  {
  }

  lemma RestOfRound(s: Db, r: Round, i: nat, declined: nat)
    requires RoundOk(s, r, i) && Trusted(DunAll(Begun(s, r), r.ids)) && Pursued(DunAll(Begun(s, r), r.ids), i, declined)
    ensures Trusted(AfterRound(s, r)) && Failing(AfterRound(s, r), i, declined + 1)
  {
    hide Trusted, Failing, Pursued, Run, Drain, DunAll, AllFresh, Begun;
    TrustedThrough(DunAll(Begun(s, r), r.ids), r.meanwhile);
    PursuedThrough(DunAll(Begun(s, r), r.ids), r.meanwhile, i, declined);
    DrainSettles(Waiting(s, r), r.order, r.draws, i, declined);
  }

  /** One round settles a FAILED invoice or brings it one round closer to being given up on. */
  lemma RoundAdvances(s: Db, r: Round, i: nat)
    requires Trusted(s) && RoundOk(s, r, i) && i < |s.invoices| && s.invoices[i].status.Failed?
    ensures
      var t := AfterRound(s, r);
      && Trusted(t) && i < |t.invoices|
      && (Final(t.invoices[i].status) || t.invoices[i].status.Failed?)
      && RoundsLeft(t, i) < RoundsLeft(s, i)
  {
    hide Trusted, RoundOk, AfterRound, DunAll, Begun, Count, ClockMoved;
    var declined := Count(s.attempts, i, Declined);
    BegunTrusted(s, r, i, declined);
    var b := Begun(s, r);
    BegunIds(s, r, i);
    if Final(b.invoices[i].status) {
      FinalRound(s, r, i);
    } else {
      DunningPursues(b, r.ids, i);
      if Count(b.attempts, i, Declined) >= MAX_DUNNING_ATTEMPTS {
        GivenUpRound(s, r, i);
      } else {
        RestOfRound(s, r, i, Count(b.attempts, i, Declined));
      }
    }
  }

  lemma BegunIds(s: Db, r: Round, i: nat)
    requires RoundOk(s, r, i)
    ensures IsFailedIds(Begun(s, r).invoices, r.ids)
  {
  }

  /** From a final state of the invoice after the dunning pass, the round leaves it final. */
  lemma GivenUpRound(s: Db, r: Round, i: nat)
    requires RoundOk(s, r, i) && Trusted(DunAll(Begun(s, r), r.ids))
    requires i < |DunAll(Begun(s, r), r.ids).invoices| && Final(DunAll(Begun(s, r), r.ids).invoices[i].status)
    ensures
      var t := AfterRound(s, r);
      Trusted(t) && i < |t.invoices| && t.invoices[i] == DunAll(Begun(s, r), r.ids).invoices[i]
  {
    hide Trusted, Run, Drain, DunAll, AllFresh, Begun;
    var q := DunAll(Begun(s, r), r.ids);
    TrustedThrough(q, r.meanwhile);
    FinalThrough(q, r.meanwhile, i);
    FinalThroughDrain(Waiting(s, r), r.order, r.draws, i);
  }

  lemma {:induction false} FinalThrough(s: Db, steps: seq<Step>, i: nat)
    requires Trusted(s) && HonestFrom(s, steps) && i < |s.invoices| && Final(s.invoices[i].status)
    ensures i < |Run(s, steps).invoices| && Run(s, steps).invoices[i] == s.invoices[i]
  {
    hide Trusted, Exec, Honest;
    if steps != [] {
      var before := steps[..|steps| - 1];
      FinalThrough(s, before, i);
      TrustedThrough(s, before);
      FinalStays(Run(s, before), steps[|steps| - 1], i);
    }
  }

  lemma FinalThroughDrain(s: Db, order: seq<nat>, draws: seq<Draw>, i: nat)
    requires Trusted(s) && |order| == |draws| && i < |s.invoices| && Final(s.invoices[i].status)
    ensures
      var t := Drain(s, order, draws);
      Trusted(t) && i < |t.invoices| && t.invoices[i] == s.invoices[i]
  {
    hide Trusted, Sound, Drain, Count;
    TrustedFacts(s);
    DrainCharges(s, order, draws);
    assert ChargeMove(s.invoices[i], Drain(s, order, draws).invoices[i],
                      Count(s.attempts, i, Declined), Count(Drain(s, order, draws).attempts, i, Declined));
  }

  /** A round whose dunning pass finds the invoice final. */
  lemma FinalRound(s: Db, r: Round, i: nat)
    requires RoundOk(s, r, i) && Trusted(Begun(s, r))
    requires i < |Begun(s, r).invoices| && Final(Begun(s, r).invoices[i].status)
    ensures
      var t := AfterRound(s, r);
      Trusted(t) && i < |t.invoices| && t.invoices[i] == Begun(s, r).invoices[i]
  {
    hide Trusted, RoundOk, AfterRound, DunAll, Begun;
    FinalThroughDunning(Begun(s, r), r.ids, i);
    GivenUpRound(s, r, i);
  }

  /** A settled invoice stays settled through a round. */
  lemma RoundKeepsFinal(s: Db, r: Round, i: nat)
    requires Trusted(s) && RoundOk(s, r, i) && i < |s.invoices| && Final(s.invoices[i].status)
    ensures
      var t := AfterRound(s, r);
      Trusted(t) && i < |t.invoices| && t.invoices[i] == s.invoices[i]
  {
    FinalIsFailing(s, i, 0);
    hide Trusted, Failing, AfterRound, DunAll, ClockMoved, Run, Exec, AllFresh;
    BegunTrusted(s, r, i, 0);
    FinalThrough(s, r.quiet, i);
    TrustedThrough(s, r.quiet);
    FinalStays(Run(s, r.quiet), Tick(r.now), i);
    hide RoundOk;
    FinalRound(s, r, i);
  }

  // ---- Any number of rounds ----

  predicate RoundsOk(s: Db, rounds: seq<Round>, i: nat)
    decreases |rounds|
  {
    rounds == [] || (RoundOk(s, rounds[0], i) && RoundsOk(AfterRound(s, rounds[0]), rounds[1..], i))
  }

  function AfterRounds(s: Db, rounds: seq<Round>, i: nat): Db
    requires RoundsOk(s, rounds, i)
    decreases |rounds|
  {
    if rounds == [] then s else AfterRounds(AfterRound(s, rounds[0]), rounds[1..], i)
  }

  lemma RoundSizes(s: Db, r: Round, i: nat)
    requires RoundOk(s, r, i)
    ensures |r.order| == |r.draws|
  {
  }

  lemma {:induction false} RoundsAdvance(s: Db, rounds: seq<Round>, i: nat)
    requires Trusted(s) && RoundsOk(s, rounds, i) && i < |s.invoices|
    requires Final(s.invoices[i].status) || s.invoices[i].status.Failed?
    ensures
      var t := AfterRounds(s, rounds, i);
      && i < |t.invoices|
      && (Final(t.invoices[i].status)
          || (t.invoices[i].status.Failed? && RoundsLeft(t, i) + |rounds| <= RoundsLeft(s, i)))
    decreases |rounds|
  {
    hide Trusted, RoundOk, AfterRound, Count;
    if rounds != [] {
      RoundSizes(s, rounds[0], i);
      if s.invoices[i].status.Failed? {
        RoundAdvances(s, rounds[0], i);
      } else {
        RoundKeepsFinal(s, rounds[0], i);
      }
      RoundsAdvance(AfterRound(s, rounds[0]), rounds[1..], i);
    }
  }

  /** From any state a truthful run can reach, MAX_DUNNING_ATTEMPTS rounds leave every invoice
      that was FAILED either PAID, CANCELED or OVERDUE, whatever the provider answers, in any
      order of dunning and delivery, and with any other steps of the system in between. */
  lemma DunningFinishes(steps: seq<Step>, rounds: seq<Round>, i: nat)
    requires HonestRun(steps)
    requires RoundsOk(Run(Empty(), steps), rounds, i) && |rounds| >= MAX_DUNNING_ATTEMPTS
    requires i < |Run(Empty(), steps).invoices| && Run(Empty(), steps).invoices[i].status.Failed?
    ensures i < |AfterRounds(Run(Empty(), steps), rounds, i).invoices|
    ensures Final(AfterRounds(Run(Empty(), steps), rounds, i).invoices[i].status)
  {
    hide Run, RoundsOk, AfterRounds, Count;
    var s := Run(Empty(), steps);
    assert Trusted(s);
    Reachable(steps);
    assert TallyOk(s.attempts, i, s.invoices[i].status);
    RoundsAdvance(s, rounds, i);
  }
}
