/** A commit does what the whole transaction would do at that moment, and changes only what
    it has locked. */
module LockCommits {
  import opened Calendar
  import opened Tables
  import opened Services
  import opened Preservation
  import opened LockSteps
  import opened LockInvariant
  import opened LockPrograms

  // ---- What the notes of a transaction say ----

  predicate Says(s: Db, t: Thread, ids: Ids, q: Question) {
    var f := t.notes;
    match q
    case SubRow => ids.x < |s.subs| ==> f.sub == s.subs[ids.x] && f.plan == s.plans[s.subs[ids.x].plan]
    case InvoiceRow => ids.i < |s.invoices| ==> f.invoice == s.invoices[ids.i] && f.customer == CustomerOf(s, ids.i)
    case AttemptRow => ids.a < |s.attempts| ==> f.payment == s.attempts[ids.a]
    case Replayed => t.job.PrepareStep? ==> f.replay == LookupReplay(s.attempts, ids.org, t.job.key, ids.i)
    case PendingRow => f.pending == Lookup(s.attempts, PendingOf(ids.i))
    case SinceRow => f.since == Lookup(s.attempts, SinceIssue(ids.i, IssueTime(f.invoice)))
    case LiveRow => f.live == Lookup(s.attempts, OpenOf(ids.i))
    case KeyUsed => t.job.PrepareStep? ==> f.keyUsed == Exists(s.attempts, ByProviderKey(t.job.providerKey))
    case Taken => f.taken == Exists(s.attempts, BoundToOther(ChargeOf(t.job), ids.a))
    case OtherSuccess => f.otherSuccess == Exists(s.attempts, SuccessOfOther(ids.i, ids.a))
    case Arrears => f.arrears == OtherArrears(s.invoices, ids.x, ids.i)
    case DeclinedCount => f.declined == Count(s.attempts, ids.i, Declined)
    case OpenIds => f.openIds == OpenOnes(s.invoices, ids.x, |s.invoices|)
    case Spans => f.spans == SpansOf(s.invoices, ids.x)
    case Seen => true
  }

  lemma AnswerSays(s: Db, t: Thread, q: Question)
    requires Current(s, t, q) && t.ids.Some?
    ensures Says(s, t, t.ids.value, q)
  {
    hide Lookup, LookupReplay, Exists, OtherArrears, Count, OpenOnes, SpansOf, CustomerOf;
    match q
    case _ =>
  }

  /** Every question asked has its present answer in the notes. */
  lemma Told(s: Db, t: Thread)
    requires Fine(s, t) && t.ids.Some?
    ensures forall q :: q in t.asked ==> Says(s, t, t.ids.value, q)
  {
    forall q | q in t.asked
      ensures Says(s, t, t.ids.value, q)
    {
      hide Says, Read, FindIds, Passed, Guarded, Earned;
      AnswerSays(s, t, q);
    }
  }

  // ---- activate, renew ----

  lemma SpansIff(invoices: seq<Invoice>, x: nat, start: Time, end: Time)
    ensures HasPeriodInvoice(invoices, x, start, end) <==> (start, end) in SpansOf(invoices, x)
  {
    if HasPeriodInvoice(invoices, x, start, end) {
      var k: nat :| k < |invoices| && invoices[k].subscription == x
                    && invoices[k].periodStart == start && invoices[k].periodEnd == end;
      assert (invoices[k].periodStart, invoices[k].periodEnd) in SpansOf(invoices, x);
    }
  }

  lemma PeriodNotes(s: Db, t: Thread)
    requires Fine(s, t) && (t.job.ActivateStep? || t.job.RenewStep?) && NextOp(t) == Finish
    ensures t.job.sub < |s.subs| && t.ids == SubIds(s, t.job.sub) && SubLock(t.job.sub) in t.held
    ensures t.notes.sub == s.subs[t.job.sub] && t.notes.plan == s.plans[s.subs[t.job.sub].plan]
    ensures t.notes.spans == SpansOf(s.invoices, t.job.sub)
  {
    SeenOnlyByWebhooks(s, t);
    assert Passed(t, 0) && Passed(t, 1) && Passed(t, 2) && Passed(t, 3) && Passed(t, 4);
    Told(s, t);
    assert Says(s, t, t.ids.value, SubRow) && Says(s, t, t.ids.value, Spans);
  }

  lemma PeriodCommit(s: Db, t: Thread)
    requires Fine(s, t) && (t.job.ActivateStep? || t.job.RenewStep?) && NextOp(t) == Finish
    ensures Effect(s, t) == Exec(s, t.job) && Frame(s, Exec(s, t.job), t.held)
  {
    PeriodNotes(s, t);
    hide Fine, OpAt, PeriodEnd, SpansOf, HasPeriodInvoice, Frame;
    var row := InNewPeriod(t.notes.sub, t.notes.plan, s.clock);
    SpansIff(s.invoices, t.job.sub, row.periodStart, row.periodEnd);
    PeriodFrame(s, t.job.sub, t.held);
    FrameSame(s, t.held);
  }

  lemma PeriodFrame(s: Db, x: nat, held: set<Lock>)
    requires x < |s.subs| && SubLock(x) in held
    ensures Frame(s, StartPeriod(s, x), held)
  {
    hide PeriodEnd, HasPeriodInvoice;
  }

  // ---- cancel ----

  lemma CancelNotes(s: Db, t: Thread)
    requires Fine(s, t) && t.job.CancelStep? && NextOp(t) == Finish
    ensures t.job.sub < |s.subs| && t.ids == SubIds(s, t.job.sub) && SubLock(t.job.sub) in t.held
    ensures t.notes.sub == s.subs[t.job.sub]
    ensures t.notes.openIds == OpenOnes(s.invoices, t.job.sub, |s.invoices|)
    ensures !t.notes.sub.status.SubCanceled? ==> forall k :: k in t.notes.openIds ==> InvoiceLock(k) in t.held
  {
    SeenOnlyByWebhooks(s, t);
    assert Passed(t, 0) && Passed(t, 1) && Passed(t, 2) && Passed(t, 3) && Passed(t, 4);
    Told(s, t);
    assert Says(s, t, t.ids.value, SubRow) && Says(s, t, t.ids.value, OpenIds);
  }

  lemma CancelCommit(s: Db, t: Thread)
    requires Fine(s, t) && t.job.CancelStep? && NextOp(t) == Finish
    ensures Effect(s, t) == Exec(s, t.job) && Frame(s, Exec(s, t.job), t.held)
  {
    CancelNotes(s, t);
    hide Fine, OpAt, OpenOnes;
    CloseListedOpen(s.invoices, t.job.sub, t.notes.openIds);
    CloseFrame(s, t.job.sub, Voluntary, t.notes.openIds, t.held);
  }

  lemma CloseFrame(s: Db, x: nat, reason: Reason, ids: seq<nat>, held: set<Lock>)
    requires x < |s.subs| && SubLock(x) in held
    requires !s.subs[x].status.SubCanceled? ==>
               forall k: nat :: k in ids ==>
                   k < |s.invoices| && s.invoices[k].subscription == x && InvoiceLock(k) in held
    ensures Frame(s, if s.subs[x].status.SubCanceled? then s else CancelEffect(s, x, reason, ids), held)
  {
  }

  // ---- dunning ----

  lemma DunNotes(s: Db, t: Thread)
    requires Fine(s, t) && t.job.DunStep? && NextOp(t) == Finish
    ensures t.job.invoice < |s.invoices| && t.ids == InvoiceIds(s, t.job.invoice)
    ensures SubLock(t.ids.value.x) in t.held && InvoiceLock(t.job.invoice) in t.held
    ensures t.notes.sub == s.subs[t.ids.value.x] && t.notes.invoice == s.invoices[t.job.invoice]
    ensures t.notes.declined == Count(s.attempts, t.job.invoice, Declined)
    ensures t.notes.openIds == OpenOnes(s.invoices, t.ids.value.x, |s.invoices|)
    ensures Closes(t.job, t.notes) ==> forall k :: k in t.notes.openIds ==> InvoiceLock(k) in t.held
  {
    SeenOnlyByWebhooks(s, t);
    assert PassedAll(t);
    hide Fine, Read, OpAt, Skips, Passed, OpenOnes;
    DunPassed(t);
    Told(s, t);
    assert FindIds(s, t.job) == t.ids by { IdsKnown(s, t); }
    assert Says(s, t, t.ids.value, SubRow) && Says(s, t, t.ids.value, InvoiceRow);
    assert Says(s, t, t.ids.value, DeclinedCount) && Says(s, t, t.ids.value, OpenIds);
  }

  lemma DunPassed(t: Thread)
    requires PassedAll(t) && t.job.DunStep? && NextOp(t) == Finish && !t.notes.seen
    ensures t.ids.Some? && SubLock(t.ids.value.x) in t.held && InvoiceLock(t.ids.value.i) in t.held
    ensures {SubRow, InvoiceRow, DeclinedCount, OpenIds} <= t.asked
    ensures Closes(t.job, t.notes) ==> forall k :: k in t.notes.openIds ==> InvoiceLock(k) in t.held
  {
    hide PrepareChoice, Binds;
    assert Passed(t, 0) && Passed(t, 1) && Passed(t, 2) && Passed(t, 3);
    assert Passed(t, 4) && Passed(t, 5) && Passed(t, 6) && Passed(t, 7);
  }

  lemma DunCommit(s: Db, t: Thread)
    requires Fine(s, t) && t.job.DunStep? && NextOp(t) == Finish
    ensures Effect(s, t) == Exec(s, t.job)
  {
    DunNotes(s, t);
    ExecDun(s, t.job.invoice);
    hide Fine, OpAt, Count, OpenOnes, Exec, Dun, DunEffect;
    DunEffectIs(s, t.ids.value, t.notes);
  }

  lemma DunEffectIs(s: Db, ids: Ids, f: Notes)
    requires ids.i < |s.invoices| && ids.x == s.invoices[ids.i].subscription
    requires f.sub == s.subs[ids.x] && f.invoice == s.invoices[ids.i]
    requires f.declined == Count(s.attempts, ids.i, Declined) && f.openIds == OpenOnes(s.invoices, ids.x, |s.invoices|)
    ensures DunEffect(s, ids, f) == Committed(s, Dun(s, ids.i))
  {
    hide Count, OpenOnes, CloseListed, CloseOpen;
    CloseListedOpen(s.invoices[ids.i := s.invoices[ids.i].(status := Overdue)], ids.x, Without(f.openIds, ids.i));
  }

  lemma DunFrame(s: Db, t: Thread)
    requires Fine(s, t) && t.job.DunStep? && NextOp(t) == Finish
    ensures Frame(s, Effect(s, t), t.held)
  {
    DunNotes(s, t);
    hide Fine, OpAt, Count, OpenOnes, DunEffect, Frame;
    DunEffectFrame(s, t.ids.value, t.notes, t.held);
  }

  lemma DunEffectFrame(s: Db, ids: Ids, f: Notes, held: set<Lock>)
    requires ids.x < |s.subs| && ids.i < |s.invoices| && s.invoices[ids.i].subscription == ids.x
    requires SubLock(ids.x) in held && InvoiceLock(ids.i) in held
    requires Closes(DunStep(ids.i), f) ==>
               forall k: nat :: k in f.openIds ==>
                   k < |s.invoices| && s.invoices[k].subscription == ids.x && InvoiceLock(k) in held
    ensures Frame(s, DunEffect(s, ids, f), held)
  {
    hide SubFrame, InvoiceFrame, NewInvoiceFrame, AttemptFrame, NewAttemptFrame, NewEventFrame;
    var t := DunEffect(s, ids, f);
    forall x | 0 <= x < |s.subs|
      ensures SubFrame(s, x, t.subs[x], held)
    {
      DunSub(s, ids, f, held, x);
    }
    forall i | 0 <= i < |s.invoices|
      ensures InvoiceFrame(s, i, t.invoices[i], held)
    {
      DunInvoice(s, ids, f, held, i);
    }
    forall a | 0 <= a < |s.attempts|
      ensures AttemptFrame(s.attempts[a], t.attempts[a], held)
    {
      AttemptFrameSame(s.attempts[a], held);
    }
  }

  lemma AttemptFrameSame(a: Attempt, held: set<Lock>)
    ensures AttemptFrame(a, a, held)
  {
  }

  lemma DunSub(s: Db, ids: Ids, f: Notes, held: set<Lock>, x: nat)
    requires ids.x < |s.subs| && SubLock(ids.x) in held && x < |s.subs|
    ensures SubFrame(s, x, DunEffect(s, ids, f).subs[x], held)
  {
  }

  lemma DunInvoice(s: Db, ids: Ids, f: Notes, held: set<Lock>, i: nat)
    requires ids.x < |s.subs| && ids.i < |s.invoices| && s.invoices[ids.i].subscription == ids.x && i < |s.invoices|
    requires SubLock(ids.x) in held && InvoiceLock(ids.i) in held
    requires Closes(DunStep(ids.i), f) ==>
               forall k: nat :: k in f.openIds ==>
                   k < |s.invoices| && s.invoices[k].subscription == ids.x && InvoiceLock(k) in held
    ensures InvoiceFrame(s, i, DunEffect(s, ids, f).invoices[i], held)
  {
  }

  // ---- prepare ----

  lemma PrepareFine(s: Db, t: Thread)
    requires Fine(s, t) && t.job.PrepareStep? && NextOp(t) == Finish
    ensures t.job.invoice < |s.invoices| && t.ids == InvoiceIds(s, t.job.invoice)
    ensures SubLock(t.ids.value.x) in t.held
    ensures {SubRow, InvoiceRow, PendingRow, SinceRow, LiveRow} <= t.asked
    ensures !NoReplayLookup(t.job, t.notes) ==> OrgLock(t.ids.value.org) in t.held && Replayed in t.asked
    ensures ChoiceOf(t.job, t.notes).Insert? ==> KeyLock(t.job.providerKey) in t.held && KeyUsed in t.asked
    ensures forall q :: q in t.asked ==> Says(s, t, t.ids.value, q)
  {
    SeenOnlyByWebhooks(s, t);
    hide OpAt, Skips, Passed, Says, Guarded, Earned, Current, PrepareChoice, NoReplayLookup;
    PreparePassed(t);
    Told(s, t);
  }

  lemma PrepareNotes(s: Db, t: Thread)
    requires Fine(s, t) && t.job.PrepareStep? && NextOp(t) == Finish
    ensures t.job.invoice < |s.invoices| && t.ids == InvoiceIds(s, t.job.invoice)
    ensures SubLock(t.ids.value.x) in t.held
    ensures t.notes.sub == s.subs[t.ids.value.x] && t.notes.invoice == s.invoices[t.job.invoice]
    ensures t.notes.customer == CustomerOf(s, t.job.invoice)
    ensures !NoReplayLookup(t.job, t.notes) ==>
              OrgLock(t.ids.value.org) in t.held
              && t.notes.replay == LookupReplay(s.attempts, t.ids.value.org, t.job.key, t.job.invoice)
    ensures t.notes.pending == Lookup(s.attempts, PendingOf(t.job.invoice))
    ensures t.notes.since == Lookup(s.attempts, SinceIssue(t.job.invoice, IssueTime(t.notes.invoice)))
    ensures t.notes.live == Lookup(s.attempts, OpenOf(t.job.invoice))
    ensures ChoiceOf(t.job, t.notes).Insert? ==>
              KeyLock(t.job.providerKey) in t.held
              && t.notes.keyUsed == Exists(s.attempts, ByProviderKey(t.job.providerKey))
  {
    PrepareFine(s, t);
    hide Fine, OpAt, Says;
    PrepareSays(s, t, t.ids.value);
  }

  lemma PrepareSays(s: Db, t: Thread, ids: Ids)
    requires t.job.PrepareStep? && ids.i < |s.invoices| && ids.x == s.invoices[ids.i].subscription
    requires {SubRow, InvoiceRow, PendingRow, SinceRow, LiveRow} <= t.asked
    requires forall q :: q in t.asked ==> Says(s, t, ids, q)
    ensures t.notes.sub == s.subs[ids.x] && t.notes.invoice == s.invoices[ids.i] &&
        t.notes.customer == CustomerOf(s, ids.i)
    ensures t.notes.pending == Lookup(s.attempts, PendingOf(ids.i))
    ensures t.notes.since == Lookup(s.attempts, SinceIssue(ids.i, IssueTime(t.notes.invoice)))
    ensures t.notes.live == Lookup(s.attempts, OpenOf(ids.i))
    ensures Replayed in t.asked ==> t.notes.replay == LookupReplay(s.attempts, ids.org, t.job.key, ids.i)
    ensures KeyUsed in t.asked ==> t.notes.keyUsed == Exists(s.attempts, ByProviderKey(t.job.providerKey))
  {
    hide Lookup, LookupReplay, Exists, CustomerOf;
    assert Says(s, t, ids, SubRow) && Says(s, t, ids, InvoiceRow);
    assert Says(s, t, ids, PendingRow) && Says(s, t, ids, SinceRow) && Says(s, t, ids, LiveRow);
    assert Replayed in t.asked ==> Says(s, t, ids, Replayed);
    assert KeyUsed in t.asked ==> Says(s, t, ids, KeyUsed);
  }

  lemma IdsKnown(s: Db, t: Thread)
    requires Fine(s, t) && t.ids.Some?
    ensures FindIds(s, t.job) == t.ids
  {
  }

  lemma PreparePassed(t: Thread)
    requires PassedAll(t) && t.job.PrepareStep? && NextOp(t) == Finish && !t.notes.seen
    ensures t.ids.Some? && SubLock(t.ids.value.x) in t.held
    ensures {SubRow, InvoiceRow, PendingRow, SinceRow, LiveRow} <= t.asked
    ensures !NoReplayLookup(t.job, t.notes) ==> OrgLock(t.ids.value.org) in t.held && Replayed in t.asked
    ensures ChoiceOf(t.job, t.notes).Insert? ==> KeyLock(t.job.providerKey) in t.held && KeyUsed in t.asked
  {
    hide PrepareChoice, Binds;
    assert Passed(t, 0) && Passed(t, 1) && Passed(t, 2) && Passed(t, 3) && Passed(t, 4) && Passed(t, 5);
    assert Passed(t, 6) && Passed(t, 7) && Passed(t, 8) && Passed(t, 9) && Passed(t, 10) && Passed(t, 11);
  }

  /** The replay lookup is skipped only where its answer makes no difference. */
  lemma ReplayUnused(job: Step, f: Notes, replay: Replay)
    requires NoReplayLookup(job, f)
    ensures ChoiceOf(job, f.(replay := replay)) == ChoiceOf(job, f)
  {
  }

  lemma PrepareChoiceIs(s: Db, t: Thread)
    requires Fine(s, t) && t.job.PrepareStep? && NextOp(t) == Finish
    ensures t.job.invoice < |s.invoices|
    ensures ChoiceOf(t.job, t.notes) ==
        PrepareChoice(t.job.key, t.job.issuedOnly, PrepareRead(s, t.job.invoice, t.job.key))
  {
    PrepareNotes(s, t);
    hide Fine, OpAt, PrepareChoice, Lookup, LookupReplay;
    if NoReplayLookup(t.job, t.notes) {
      ReplayUnused(t.job, t.notes, LookupReplay(s.attempts, t.ids.value.org, t.job.key, t.job.invoice));
    }
  }

  lemma PrepareCommit(s: Db, t: Thread)
    requires Fine(s, t) && t.job.PrepareStep? && NextOp(t) == Finish
    ensures Effect(s, t) == Exec(s, t.job) && Answer(s, t) == SerialAnswer(s, t.job)
  {
    PrepareNotes(s, t);
    PrepareChoiceIs(s, t);
    hide Fine, OpAt, PrepareChoice, PrepareRead, Exists, ChoiceOf;
  }

  lemma PrepareFrame(s: Db, t: Thread)
    requires Fine(s, t) && t.job.PrepareStep? && NextOp(t) == Finish
    ensures Frame(s, Exec(s, t.job), t.held)
  {
    PrepareNotes(s, t);
    PrepareChoiceIs(s, t);
    InsertChoice(t.job, t.notes);
    PrepareEffectIs(s, t);
    hide Fine, OpAt, PrepareChoice, PrepareRead, Exists, Frame, ChoiceOf, NoReplayLookup, Exec;
    FrameSame(s, t.held);
    if ChoiceOf(t.job, t.notes).Insert? {
      InsertFrame(s, NewAttempt(t.job.invoice, t.notes.invoice, t.notes.customer, t.job.key, t.job.providerKey,
          s.clock), t.held);
    }
  }

  lemma PrepareEffectIs(s: Db, t: Thread)
    requires t.job.PrepareStep? && t.job.invoice < |s.invoices|
    ensures Exec(s, t.job) ==
            Carry(s, PrepareChoice(t.job.key, t.job.issuedOnly, PrepareRead(s, t.job.invoice, t.job.key)),
                  Exists(s.attempts, ByProviderKey(t.job.providerKey)),
                  NewAttempt(t.job.invoice, s.invoices[t.job.invoice], CustomerOf(s, t.job.invoice), t.job.key,
                             t.job.providerKey, s.clock)).0
  {
    hide PrepareChoice, PrepareRead, Exists, NewAttempt, CustomerOf;
  }

  lemma InsertFrame(s: Db, row: Attempt, held: set<Lock>)
    requires row.invoice < |s.invoices| && NewAttemptFrame(s, row, held)
    ensures Frame(s, Inserted(s, row), held)
  {
  }

  lemma InsertChoice(job: Step, f: Notes)
    requires job.PrepareStep?
    ensures ChoiceOf(job, f).Insert? && job.key != "" ==> !NoReplayLookup(job, f)
  {
  }

  // ---- settle ----

  predicate Settles(t: Thread) {
    t.job.SettleStep? || (t.job.WebhookStep? && WellFormed(t.job.delivery) && !t.notes.seen)
  }

  /** What a settlement has read and locked when it commits. */
  ghost predicate SettleReady(s: Db, t: Thread) {
    && Settles(t) && t.ids.Some? && Sited(s, t.job, t.ids.value) && FindIds(s, t.job) == t.ids
    && SubLock(t.ids.value.x) in t.held && InvoiceLock(t.ids.value.i) in t.held && AttemptLock(t.ids.value.a) in t.held
    && t.notes.sub == s.subs[t.ids.value.x] && t.notes.invoice == s.invoices[t.ids.value.i]
    && t.notes.payment == s.attempts[t.ids.value.a]
    && t.notes.otherSuccess == Exists(s.attempts, SuccessOfOther(t.ids.value.i, t.ids.value.a))
    && t.notes.arrears == OtherArrears(s.invoices, t.ids.value.x, t.ids.value.i)
    && (Binds(t.notes.payment, ChargeOf(t.job)) ==>
          ChargeLock(ChargeOf(t.job)) in t.held
          && t.notes.taken == Exists(s.attempts, BoundToOther(ChargeOf(t.job), t.ids.value.a)))
  }

  /** Where the settlement begins in the program. */
  function Offset(job: Step): nat {
    if job.WebhookStep? then 2 else 0
  }

  lemma SettleOps(job: Step, ids: Ids, n: nat)
    requires job.SettleStep? || (job.WebhookStep? && WellFormed(job.delivery))
    ensures n >= Offset(job) ==> OpAt(job, ids, n) == SettleOp(ids, ChargeOf(job), n - Offset(job))
    ensures n < Offset(job) ==> OpAt(job, ids, n) != Finish
    ensures job.WebhookStep? ==>
              OpAt(job, ids, 0) == Take(EventLock(job.delivery.provider, job.delivery.eventId.t)) &&
                  OpAt(job, ids, 1) == Ask(Seen)
  {
  }

  lemma SettlePassedAt(t: Thread, m: nat)
    requires PassedAll(t) && Settles(t) && NextOp(t) == Finish && !t.notes.seen && m <= 10
    ensures
      var op := SettleOp(IdsOf(t), ChargeOf(t.job), m);
      Skips(t.job, t.notes, op) || Performed(t, op)
    ensures t.pc > 1
  {
    SettleOps(t.job, IdsOf(t), t.pc);
    SettleOps(t.job, IdsOf(t), Offset(t.job) + m);
    hide OpAt, WellFormed, Skips, Performed, ChargeOf;
    assert Passed(t, Offset(t.job) + m);
  }

  lemma SettlePassed(t: Thread)
    requires PassedAll(t) && Settles(t) && NextOp(t) == Finish && !t.notes.seen
    ensures t.ids.Some? && SubLock(t.ids.value.x) in t.held
    ensures InvoiceLock(t.ids.value.i) in t.held && AttemptLock(t.ids.value.a) in t.held
    ensures {SubRow, InvoiceRow, AttemptRow, OtherSuccess, Arrears} <= t.asked
    ensures Binds(t.notes.payment, ChargeOf(t.job)) ==> ChargeLock(ChargeOf(t.job)) in t.held && Taken in t.asked
  {
    hide OpAt, Binds, WellFormed, ChargeOf, Passed;
    SettlePassedAt(t, 0);
    SettlePassedAt(t, 1);
    SettlePassedAt(t, 2);
    SettlePassedAt(t, 3);
    SettlePassedAt(t, 4);
    SettlePassedAt(t, 5);
    SettlePassedAt(t, 6);
    SettlePassedAt(t, 7);
    SettlePassedAt(t, 8);
    SettlePassedAt(t, 9);
    SettlePassedAt(t, 10);
  }

  lemma EventPassed(t: Thread)
    requires PassedAll(t) && t.job.WebhookStep? && Settles(t) && NextOp(t) == Finish
    ensures EventLock(t.job.delivery.provider, t.job.delivery.eventId.t) in t.held && Seen in t.asked
  {
    SettlePassedAt(t, 0);
    SettleOps(t.job, IdsOf(t), 0);
    hide OpAt, WellFormed;
    assert Passed(t, 0) && Passed(t, 1);
  }

  lemma SettleSited(s: Db, t: Thread)
    requires Settles(t) && t.ids.Some? && FindIds(s, t.job) == t.ids
    ensures Sited(s, t.job, t.ids.value)
  {
  }

  lemma SettleNotes(s: Db, t: Thread)
    requires Fine(s, t) && Settles(t) && NextOp(t) == Finish
    ensures SettleReady(s, t)
  {
    SettleFine(s, t);
    SettleSited(s, t);
    hide Fine, OpAt, Says, FindIds, WellFormed, Settles;
    SettleSays(s, t, t.ids.value);
  }

  lemma SettleSays(s: Db, t: Thread, ids: Ids)
    requires Sited(s, t.job, ids) && (t.job.SettleStep? || t.job.WebhookStep?)
    requires {SubRow, InvoiceRow, AttemptRow, OtherSuccess, Arrears} <= t.asked
    requires forall q :: q in t.asked ==> Says(s, t, ids, q)
    ensures t.notes.sub == s.subs[ids.x] && t.notes.invoice == s.invoices[ids.i] && t.notes.payment == s.attempts[ids.a]
    ensures t.notes.otherSuccess == Exists(s.attempts, SuccessOfOther(ids.i, ids.a))
    ensures t.notes.arrears == OtherArrears(s.invoices, ids.x, ids.i)
    ensures Taken in t.asked ==> t.notes.taken == Exists(s.attempts, BoundToOther(ChargeOf(t.job), ids.a))
  {
    hide Exists, OtherArrears, ChargeOf;
    assert Says(s, t, ids, SubRow) && Says(s, t, ids, InvoiceRow) && Says(s, t, ids, AttemptRow);
    assert Says(s, t, ids, OtherSuccess) && Says(s, t, ids, Arrears);
    assert Taken in t.asked ==> Says(s, t, ids, Taken);
  }

  lemma SettleFine(s: Db, t: Thread)
    requires Fine(s, t) && Settles(t) && NextOp(t) == Finish
    ensures t.ids.Some? && FindIds(s, t.job) == t.ids && SubLock(t.ids.value.x) in t.held
    ensures InvoiceLock(t.ids.value.i) in t.held && AttemptLock(t.ids.value.a) in t.held
    ensures {SubRow, InvoiceRow, AttemptRow, OtherSuccess, Arrears} <= t.asked
    ensures Binds(t.notes.payment, ChargeOf(t.job)) ==> ChargeLock(ChargeOf(t.job)) in t.held && Taken in t.asked
    ensures forall q :: q in t.asked ==> Says(s, t, t.ids.value, q)
  {
    SeenOnlyByWebhooks(s, t);
    hide OpAt, Skips, Passed, Says, FindIds, Binds, Guarded, Earned, Current;
    SettlePassed(t);
    Told(s, t);
  }

  lemma TakenUnused(f: SettleFacts, success: bool, charge: string, taken: bool)
    requires !Binds(f.payment, charge)
    ensures Settled(f.(taken := taken), success, charge) == Settled(f, success, charge)
  {
  }

  lemma SettleEffectIs(s: Db, base: Db, t: Thread)
    requires SettleReady(s, t)
    requires base.subs == s.subs && base.invoices == s.invoices && base.attempts == s.attempts
    ensures SettleEffect(base, t.ids.value, t.notes, SuccessOf(t.job), ChargeOf(t.job))
         == Settle(base, t.ids.value.a, SuccessOf(t.job), ChargeOf(t.job))
  {
    var f, ids, charge := t.notes, t.ids.value, ChargeOf(t.job);
    if !Binds(f.payment, charge) {
      TakenUnused(SettleFacts(f.sub, f.invoice, f.payment, f.taken, f.otherSuccess, f.arrears),
                  SuccessOf(t.job), charge,
                  Exists(s.attempts, BoundToOther(charge, ids.a)));
    }
    hide Binds, Exists, OtherArrears, ChargeOf, SuccessOf, FindIds;
  }

  lemma ChargeOnlyBound(f: SettleFacts, success: bool, charge: string)
    ensures
      var p := Settled(f, success, charge).payment;
      p.chargeId == f.payment.chargeId || (Binds(f.payment, charge) && p.chargeId == charge && f.payment.chargeId == "")
  {
  }

  lemma SettleFrame(s: Db, base: Db, t: Thread)
    requires SettleReady(s, t)
    requires base.subs == s.subs && base.invoices == s.invoices && base.attempts == s.attempts
    requires base.customers == s.customers && base.plans == s.plans && s.events <= base.events
    requires forall e :: |s.events| <= e < |base.events| ==> NewEventFrame(base.events[e], t.held)
    ensures Frame(s, Settle(base, t.ids.value.a, SuccessOf(t.job), ChargeOf(t.job)), t.held)
  {
    var a := t.ids.value.a;
    ChargeOnlyBound(SettleRead(base, a, ChargeOf(t.job)), SuccessOf(t.job), ChargeOf(t.job));
    hide Binds, Exists, OtherArrears, Settled, ChargeOf, SuccessOf, FindIds;
  }

  lemma SettleCommit(s: Db, t: Thread)
    requires Fine(s, t) && t.job.SettleStep? && NextOp(t) == Finish
    ensures Effect(s, t) == Exec(s, t.job) && Frame(s, Exec(s, t.job), t.held)
  {
    SettleNotes(s, t);
    SettleEffectIs(s, s, t);
    SettleFrame(s, s, t);
    hide Fine, OpAt, Settle, SettleEffect, Frame;
  }

  // ---- webhooks ----

  lemma WebhookCommit(s: Db, t: Thread)
    requires Fine(s, t) && t.job.WebhookStep? && NextOp(t) == Finish
    ensures Effect(s, t) == Exec(s, t.job) && Frame(s, Exec(s, t.job), t.held)
  {
    var d := t.job.delivery;
    if !WellFormed(d) {
      FrameSame(s, t.held);
    } else if t.notes.seen {
      assert Current(s, t, Seen);
      FrameSame(s, t.held);
    } else {
      FreshWebhookCommit(s, t);
    }
  }

  lemma FrameSame(s: Db, held: set<Lock>)
    ensures Frame(s, s, held)
  {
  }

  lemma FreshWebhookCommit(s: Db, t: Thread)
    requires Fine(s, t) && t.job.WebhookStep? && NextOp(t) == Finish && WellFormed(t.job.delivery) && !t.notes.seen
    ensures Effect(s, t) == Exec(s, t.job) && Frame(s, Exec(s, t.job), t.held)
  {
    var d := t.job.delivery;
    EventPassed(t);
    SettleNotes(s, t);
    assert Current(s, t, Seen);
    var base := s.(events := s.events + [EventRow(d, Some(t.notes.payment.org))]);
    hide Fine, OpAt, Settle, SettleEffect, Frame;
    assert base == Recorded(s, d);
    SettleEffectIs(s, base, t);
    SettleFrame(s, base, t);
  }

  // ---- every commit ----

  /** The row the transaction is about does not exist. */
  lemma MissingCommit(s: Db, t: Thread)
    requires Fine(s, t) && NextOp(t) == Resolve && !Skips(t.job, t.notes, Resolve) && FindIds(s, t.job).None?
    ensures Effect(s, t) == Exec(s, t.job) && Frame(s, Exec(s, t.job), t.held)
    ensures Answer(s, t) == SerialAnswer(s, t.job)
  {
    SeenOnlyByWebhooks(s, t);
    FrameSame(s, t.held);
    assert t.ids.None? && Transaction(t.job);
    if t.job.WebhookStep? {
      assert Passed(t, 0) && Passed(t, 1);
      assert Current(s, t, Seen);
      hide Fine, OpAt, Skips, FindIds, Frame, EventSeen;
      MissingWebhook(s, t);
    } else {
      hide Fine, OpAt, Skips, Frame;
      MissingRow(s, t);
    }
  }

  /** A webhook that names no attempt only records its event. */
  lemma MissingWebhook(s: Db, t: Thread)
    requires t.job.WebhookStep? && t.ids.None? && WellFormed(t.job.delivery) && PaymentOf(s, t.job.delivery).None?
    requires !t.notes.seen && !EventSeen(s.events, t.job.delivery.provider, t.job.delivery.eventId.t)
    requires EventLock(t.job.delivery.provider, t.job.delivery.eventId.t) in t.held
    ensures Effect(s, t) == Exec(s, t.job) && Frame(s, Exec(s, t.job), t.held)
    ensures Answer(s, t) == SerialAnswer(s, t.job)
  {
    hide WellFormed, EventSeen;
  }

  lemma MissingRow(s: Db, t: Thread)
    requires Transaction(t.job) && !t.job.WebhookStep? && t.ids.None? && FindIds(s, t.job).None?
    ensures Effect(s, t) == s && Exec(s, t.job) == s && Answer(s, t) == SerialAnswer(s, t.job)
  {
  }

  lemma LifecycleAnswer(s: Db, t: Thread)
    requires Fine(s, t) && NextOp(t) == Finish && (t.job.CancelStep? || t.job.ActivateStep? || t.job.RenewStep?)
    ensures Answer(s, t) == SerialAnswer(s, t.job)
  {
    if t.job.CancelStep? { CancelNotes(s, t); } else { PeriodNotes(s, t); }
    hide Fine, OpAt, OpenOnes, SpansOf, StartPeriod, CloseOpen;
  }

  lemma DunAnswer(s: Db, t: Thread)
    requires Fine(s, t) && NextOp(t) == Finish && t.job.DunStep?
    ensures Answer(s, t) == SerialAnswer(s, t.job)
  {
    DunNotes(s, t);
    hide Fine, OpAt, OpenOnes, Count, Cancel;
  }

  lemma SettleAnswer(s: Db, t: Thread)
    requires Fine(s, t) && NextOp(t) == Finish && t.job.SettleStep?
    ensures Answer(s, t) == SerialAnswer(s, t.job)
  {
    SettleNotes(s, t);
    hide Fine, OpAt, Exists, OtherArrears;
  }

  lemma WebhookAnswer(s: Db, t: Thread)
    requires t.job.WebhookStep?
    ensures Answer(s, t) == SerialAnswer(s, t.job)
  {
    hide Settle, WellFormed, EventSeen;
  }

  /** The moment a transaction commits it does exactly what it would do if it ran as a whole
      just then, and it has the locks for all of it. */
  lemma CommitIsSerial(s: Db, t: Thread)
    requires Fine(s, t) && Ends(s, t)
    ensures Effect(s, t) == Exec(s, t.job) && Frame(s, Exec(s, t.job), t.held)
    ensures Answer(s, t) == SerialAnswer(s, t.job)
  {
    hide Effect, Exec, Frame, OpAt, FindIds, Skips, Fine, Answer, SerialAnswer;
    assert Transaction(t.job) by { FineIsTransaction(s, t); }
    if NextOp(t) == Finish {
      match t.job
      case CancelStep(_) => CancelCommit(s, t); LifecycleAnswer(s, t);
      case ActivateStep(_) => PeriodCommit(s, t); LifecycleAnswer(s, t);
      case RenewStep(_) => PeriodCommit(s, t); LifecycleAnswer(s, t);
      case DunStep(_) => DunCommit(s, t); DunFrame(s, t); DunAnswer(s, t);
      case PrepareStep(_, _, _, _) => PrepareCommit(s, t); PrepareFrame(s, t);
      case SettleStep(_, _, _) => SettleCommit(s, t); SettleAnswer(s, t);
      case WebhookStep(_) => WebhookCommit(s, t); WebhookAnswer(s, t);
      case _ =>
    } else {
      MissingCommit(s, t);
    }
  }

  lemma FineIsTransaction(s: Db, t: Thread)
    requires Fine(s, t)
    ensures Transaction(t.job)
  {
  }

  /** Steps outside the locks touch no existing billing row. */
  lemma OutsideFrame(s: Db, step: Step)
    requires Unlocked(s, step)
    ensures Frame(s, Exec(s, step), {})
  {
    if step.CreateStep? {
      CreateFrame(s, step.customer, step.plan);
    } else {
      OutsideRows(s, step);
      hide Exec;
    }
  }

  lemma OutsideRows(s: Db, step: Step)
    requires Unlocked(s, step) && !step.CreateStep?
    ensures
      var t := Exec(s, step);
      && t.subs == s.subs && t.invoices == s.invoices && t.attempts == s.attempts && t.events == s.events
      && s.customers <= t.customers && s.plans <= t.plans
  {
  }

  lemma CreateFrame(s: Db, c: nat, p: nat)
    ensures Frame(s, Committed(s, Create(s, c, p)), {})
  {
    hide PeriodEnd, HasPeriodInvoice;
  }
}
