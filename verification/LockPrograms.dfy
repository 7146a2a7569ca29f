/** The programs of the transactions: what each operation may rely on, and their lock order. */
module LockPrograms {
  import opened Tables
  import opened Services
  import opened LockSteps
  import opened LockInvariant

  ghost predicate PassedAll(t: Thread) {
    forall n: nat :: n < t.pc ==> Passed(t, n)
  }

  // ---- What has happened before an operation ----

  predicate BelowSub(op: Op) {
    match op
    case Take(l) => !l.EventLock? && !l.SubLock?
    case TakeOpen => true
    case Ask(q) => !q.Seen?
    case _ => false
  }

  lemma UnderSub(t: Thread)
    requires PassedAll(t) && Transaction(t.job) && BelowSub(NextOp(t)) && !Skips(t.job, t.notes, NextOp(t))
    requires t.notes.seen ==> t.job.WebhookStep?
    ensures t.ids.Some? && SubLock(t.ids.value.x) in t.held
  {
    hide Binds, PrepareChoice;
    if t.job.WebhookStep? {
      assert Passed(t, 2) && Passed(t, 3);
    } else {
      assert Passed(t, 0) && Passed(t, 1);
    }
  }

  lemma BeforeAsk(t: Thread, q: Question)
    requires PassedAll(t) && Transaction(t.job) && NextOp(t) == Ask(q) && !Skips(t.job, t.notes, NextOp(t))
    requires t.notes.seen ==> t.job.WebhookStep?
    ensures Guarded(t, q)
  {
    hide PrepareChoice;
    if q.Seen? {
      assert Passed(t, 0);
    } else {
      UnderSub(t);
      if q.Replayed? { assert Passed(t, 5); }
      if q.SinceRow? { assert Passed(t, 4); }
      if q.KeyUsed? { assert Passed(t, 10); }
      if q.Taken? { assert Passed(t, if t.job.WebhookStep? then 9 else 7); }
    }
  }

  lemma BeforeTakeOpen(t: Thread)
    requires PassedAll(t) && Transaction(t.job) && NextOp(t) == TakeOpen && !Skips(t.job, t.notes, TakeOpen)
    requires t.notes.seen ==> t.job.WebhookStep?
    ensures OpenIds in t.asked
  {
    hide Binds, PrepareChoice;
    if t.job.CancelStep? {
      assert Passed(t, 3);
    } else {
      assert Passed(t, 6);
    }
  }

  /** Only the operations after Resolve mention the rows it found. */
  lemma BeforeResolve(job: Step, ids: Ids, other: Ids, pc: nat)
    requires OpAt(job, ids, pc) == Resolve
    ensures OpAt(job, other, pc) == Resolve
    ensures forall n: nat :: n < pc ==> OpAt(job, other, n) == OpAt(job, ids, n)
  {
  }

  /** A new answer changes no decision already taken. */
  lemma SkipsStay(s: Db, job: Step, ids: Ids, f: Notes, q: Question, n: nat, pc: nat)
    requires OpAt(job, ids, pc) == Ask(q) && n < pc
    requires !f.seen || job.WebhookStep?
    ensures Skips(job, Read(s, job, ids, q, f), OpAt(job, ids, n)) == Skips(job, f, OpAt(job, ids, n))
  {
    hide Binds, Lookup, LookupReplay, OtherArrears, Exists, Count, OpenOnes, SpansOf, EventSeen, CustomerOf;
  }

  predicate OfRow(q: Question) {
    q.SubRow? || q.InvoiceRow? || q.AttemptRow?
  }

  predicate OfLists(q: Question) {
    q.OpenIds? || q.Spans? || q.DeclinedCount? || q.Arrears?
  }

  predicate OfFlags(q: Question) {
    q.Seen? || q.KeyUsed? || q.Taken? || q.OtherSuccess?
  }

  predicate OfLookups(q: Question) {
    q.Replayed? || q.PendingRow? || q.LiveRow?
  }

  lemma ReadRowTwice(s: Db, job: Step, ids: Ids, f: Notes, p: Question, q: Question)
    requires Read(s, job, ids, p, f) == f && OfRow(p)
    ensures Read(s, job, ids, p, Read(s, job, ids, q, f)) == Read(s, job, ids, q, f)
  {
    hide Binds, Lookup, LookupReplay, OtherArrears, Exists, Count, OpenOnes, SpansOf, EventSeen, CustomerOf;
  }

  lemma ReadListTwice(s: Db, job: Step, ids: Ids, f: Notes, p: Question, q: Question)
    requires Read(s, job, ids, p, f) == f && OfLists(p)
    ensures Read(s, job, ids, p, Read(s, job, ids, q, f)) == Read(s, job, ids, q, f)
  {
    hide Binds, Lookup, LookupReplay, OtherArrears, Exists, Count, OpenOnes, SpansOf, EventSeen, CustomerOf;
  }

  lemma ReadFlagTwice(s: Db, job: Step, ids: Ids, f: Notes, p: Question, q: Question)
    requires Read(s, job, ids, p, f) == f && OfFlags(p)
    ensures Read(s, job, ids, p, Read(s, job, ids, q, f)) == Read(s, job, ids, q, f)
  {
    hide Binds, Lookup, LookupReplay, OtherArrears, Exists, Count, OpenOnes, SpansOf, EventSeen, CustomerOf;
  }

  lemma ReadLookupTwice(s: Db, job: Step, ids: Ids, f: Notes, p: Question, q: Question)
    requires Read(s, job, ids, p, f) == f && OfLookups(p)
    ensures Read(s, job, ids, p, Read(s, job, ids, q, f)) == Read(s, job, ids, q, f)
  {
    hide Binds, Lookup, LookupReplay, OtherArrears, Exists, Count, OpenOnes, SpansOf, EventSeen, CustomerOf;
  }

  /** The lookup since the issue depends on the invoice row, which is asked for before it. */
  lemma ReadSinceTwice(s: Db, job: Step, ids: Ids, f: Notes, q: Question)
    requires Read(s, job, ids, SinceRow, f) == f && Read(s, job, ids, InvoiceRow, f) == f
    ensures Read(s, job, ids, SinceRow, Read(s, job, ids, q, f)) == Read(s, job, ids, q, f)
  {
    hide Binds, Lookup, LookupReplay, OtherArrears, Exists, Count, OpenOnes, SpansOf, EventSeen, CustomerOf;
  }

  lemma ReadTwice(s: Db, job: Step, ids: Ids, f: Notes, p: Question, q: Question)
    requires Read(s, job, ids, p, f) == f
    requires p.SinceRow? ==> Read(s, job, ids, InvoiceRow, f) == f
    ensures Read(s, job, ids, p, Read(s, job, ids, q, f)) == Read(s, job, ids, q, f)
  {
    hide Read;
    if p.SinceRow? {
      ReadSinceTwice(s, job, ids, f, q);
    } else if OfRow(p) {
      ReadRowTwice(s, job, ids, f, p, q);
    } else if OfLists(p) {
      ReadListTwice(s, job, ids, f, p, q);
    } else if OfFlags(p) {
      ReadFlagTwice(s, job, ids, f, p, q);
    } else {
      ReadLookupTwice(s, job, ids, f, p, q);
    }
  }

  // ---- One operation keeps the invariant of its transaction ----

  lemma EarnedLater(s: Db, t: Thread, v: Thread, l: Lock)
    requires Earned(s, t, l) && v.job == t.job && v.ids == t.ids && v.pc >= t.pc && t.held <= v.held
    ensures Earned(s, v, l)
  {
    hide OpAt;
    match l
    case InvoiceLock(_) =>
    case AttemptLock(_) =>
    case _ =>
      var n: nat :| n < t.pc && OpAt(t.job, IdsOf(t), n) == Take(l);
      assert OpAt(v.job, IdsOf(v), n) == Take(l);
  }

  lemma SeenOnlyByWebhooks(s: Db, t: Thread)
    requires Fine(s, t)
    ensures t.notes.seen ==> t.job.WebhookStep?
  {
    assert Seen in t.asked ==> Guarded(t, Seen);
  }

  lemma AfterSkip(s: Db, t: Thread)
    requires Fine(s, t) && Skips(t.job, t.notes, NextOp(t))
    ensures Fine(s, t.(pc := t.pc + 1))
  {
    var v := t.(pc := t.pc + 1);
    hide Read, Skips, OpAt, FindIds;
    forall q | q in v.asked
      ensures Guarded(v, q) && Current(s, v, q)
    {
      assert Guarded(t, q) && Current(s, t, q);
    }
    forall n: nat | n < v.pc
      ensures Passed(v, n)
    {
      assert n < t.pc ==> Passed(t, n);
    }
    forall l | l in v.held
      ensures Earned(s, v, l)
    {
      EarnedLater(s, t, v, l);
    }
  }

  lemma AfterTake(s: Db, t: Thread, l: Lock)
    requires Fine(s, t) && NextOp(t) == Take(l) && !Skips(t.job, t.notes, NextOp(t))
    ensures Fine(s, Holding(t, l).(pc := t.pc + 1))
  {
    var v := Holding(t, l).(pc := t.pc + 1);
    if Child(l) { ChildSited(s, t, l); }
    hide Read, Skips, OpAt, FindIds;
    forall q | q in v.asked
      ensures Guarded(v, q) && Current(s, v, q)
    {
      assert Guarded(t, q) && Current(s, t, q);
    }
    forall n: nat | n < v.pc
      ensures Passed(v, n)
    {
      assert n < t.pc ==> Passed(t, n);
    }
    forall k | k in v.held
      ensures Earned(s, v, k)
    {
      if k in t.held { EarnedLater(s, t, v, k); } else { EarnedNow(s, t, v, l); }
    }
  }

  lemma EarnedNow(s: Db, t: Thread, v: Thread, l: Lock)
    requires NextOp(t) == Take(l) && v == Holding(t, l).(pc := t.pc + 1) && (Child(l) ==> Earned(s, t, l))
    ensures Earned(s, v, l)
  {
    assert OpAt(v.job, IdsOf(v), t.pc) == Take(l);
    hide OpAt;
  }

  lemma ChildSited(s: Db, t: Thread, l: Lock)
    requires Fine(s, t) && NextOp(t) == Take(l) && !Skips(t.job, t.notes, NextOp(t)) && Child(l)
    ensures Earned(s, t, l)
  {
    SeenOnlyByWebhooks(s, t);
    UnderSub(t);
    hide Binds, PrepareChoice;
  }

  lemma AfterTakeOpen(s: Db, t: Thread, k: nat)
    requires Fine(s, t) && NextOp(t) == TakeOpen && !Skips(t.job, t.notes, NextOp(t)) && k in t.notes.openIds
    ensures Fine(s, Holding(t, InvoiceLock(k)))
  {
    var v := Holding(t, InvoiceLock(k));
    SeenOnlyByWebhooks(s, t);
    UnderSub(t);
    BeforeTakeOpen(t);
    assert Current(s, t, OpenIds);
    hide Skips, OpAt, FindIds;
    forall q | q in v.asked
      ensures Guarded(v, q) && Current(s, v, q)
    {
      assert Guarded(t, q) && Current(s, t, q);
    }
    forall n: nat | n < v.pc
      ensures Passed(v, n)
    {
      assert Passed(t, n);
    }
    forall l | l in v.held
      ensures Earned(s, v, l)
    {
      assert l in t.held ==> Earned(s, t, l);
    }
  }

  lemma AfterResolve(s: Db, t: Thread)
    requires Fine(s, t) && NextOp(t) == Resolve && FindIds(s, t.job).Some?
    ensures Fine(s, t.(pc := t.pc + 1, ids := FindIds(s, t.job)))
  {
    var v := t.(pc := t.pc + 1, ids := FindIds(s, t.job));
    BeforeResolve(t.job, IdsOf(t), IdsOf(v), t.pc);
    hide OpAt, FindIds, Skips;
    forall q | q in v.asked
      ensures Guarded(v, q) && Current(s, v, q)
    {
      assert Guarded(t, q) && Current(s, t, q);
    }
    forall n: nat | n < v.pc
      ensures Passed(v, n)
    {
      assert n < t.pc ==> Passed(t, n);
    }
    forall l | l in v.held
      ensures Earned(s, v, l)
    {
      assert Earned(s, t, l);
    }
  }

  function Asked(s: Db, t: Thread, q: Question): Thread {
    t.(pc := t.pc + 1, asked := t.asked + {q}, notes := Read(s, t.job, IdsOf(t), q, t.notes))
  }

  lemma AskedPassed(s: Db, t: Thread, q: Question, n: nat)
    requires Fine(s, t) && NextOp(t) == Ask(q) && !Skips(t.job, t.notes, NextOp(t)) && n <= t.pc
    ensures Passed(Asked(s, t, q), n)
  {
    SeenMeansAsked(s, t, q);
    if n < t.pc {
      TakeOpenIsLast(t.job, IdsOf(t), n, t.pc);
      assert Passed(t, n);
      SkipsStay(s, t.job, IdsOf(t), t.notes, q, n, t.pc);
    }
    hide Read, OpAt, FindIds, Skips, Guarded, Current, Earned;
  }

  lemma AskedCurrent(s: Db, t: Thread, q: Question, p: Question)
    requires Fine(s, t) && Guarded(t, q) && p in Asked(s, t, q).asked
    ensures Guarded(Asked(s, t, q), p) && Current(s, Asked(s, t, q), p)
  {
    hide Read, OpAt, FindIds, Skips, Passed, Earned;
    if p in t.asked {
      assert Guarded(t, p) && Current(s, t, p);
      if p.SinceRow? { assert Current(s, t, InvoiceRow); }
      ReadTwice(s, t.job, IdsOf(t), t.notes, p, q);
    } else {
      AskedIsCurrent(s, t.job, IdsOf(t), t.notes, q);
    }
  }

  lemma AfterAsk(s: Db, t: Thread, q: Question)
    requires Fine(s, t) && NextOp(t) == Ask(q) && !Skips(t.job, t.notes, NextOp(t))
    ensures Fine(s, Asked(s, t, q))
  {
    hide Read, OpAt, FindIds, Skips, Guarded, Current, Earned, Passed;
    var v := Asked(s, t, q);
    SeenMeansAsked(s, t, q);
    BeforeAsk(t, q);
    forall n: nat | n < v.pc
      ensures Passed(v, n)
    {
      AskedPassed(s, t, q, n);
    }
    forall p | p in v.asked
      ensures Guarded(v, p) && Current(s, v, p)
    {
      AskedCurrent(s, t, q, p);
    }
    forall l | l in v.held
      ensures Earned(s, v, l)
    {
      EarnedLater(s, t, v, l);
    }
  }

  lemma SeenMeansAsked(s: Db, t: Thread, q: Question)
    requires Fine(s, t)
    ensures Read(s, t.job, IdsOf(t), q, t.notes).seen ==> t.notes.seen || q == Seen
    ensures !t.notes.seen || t.job.WebhookStep?
  {
    assert Seen in t.asked ==> Guarded(t, Seen);
  }

  /** Once the locks on the open invoices are taken a program asks nothing more. */
  lemma TakeOpenIsLast(job: Step, ids: Ids, n: nat, pc: nat)
    ensures n < pc && OpAt(job, ids, n) == TakeOpen ==> !OpAt(job, ids, pc).Ask?
  {
  }

  lemma AskedIsCurrent(s: Db, job: Step, ids: Ids, f: Notes, q: Question)
    ensures Read(s, job, ids, q, Read(s, job, ids, q, f)) == Read(s, job, ids, q, f)
  {
  }

  lemma AfterFine(s: Db, t: Thread)
    requires Fine(s, t) && !Ends(s, t)
    ensures Fine(s, After(s, t))
  {
    hide Fine, OpAt, Skips, Read, FindIds;
    var op := NextOp(t);
    if Skips(t.job, t.notes, op) {
      AfterSkip(s, t);
    } else {
      match op
      case Resolve => AfterResolve(s, t);
      case Take(l) => AfterTake(s, t, l);
      case TakeOpen =>
        var next := NextOpen(t.notes.openIds, t.held);
        if next.Some? { AfterTakeOpen(s, t, next.value); } else { AfterTakenOpen(s, t); }
      case Ask(q) => AfterAsk(s, t, q);
      case Finish =>
    }
  }

  lemma AfterTakenOpen(s: Db, t: Thread)
    requires Fine(s, t) && NextOp(t) == TakeOpen && NextOpen(t.notes.openIds, t.held).None?
    ensures Fine(s, t.(pc := t.pc + 1))
  {
    var v := t.(pc := t.pc + 1);
    hide Read, Skips, OpAt, FindIds;
    forall q | q in v.asked
      ensures Guarded(v, q) && Current(s, v, q)
    {
      assert Guarded(t, q) && Current(s, t, q);
    }
    forall n: nat | n < v.pc
      ensures Passed(v, n)
    {
      assert n < t.pc ==> Passed(t, n);
    }
    forall l | l in v.held
      ensures Earned(s, v, l)
    {
      EarnedLater(s, t, v, l);
    }
  }

  // ---- Lock order ----

  /** Every program takes its locks in the order of their ranks: event, subscription, plan,
      organization, charge id, provider key; invoices and attempts below their subscription. */
  lemma TakenInOrder(job: Step, ids: Ids, n: nat, m: nat, k: Lock, l: Lock)
    requires n < m && OpAt(job, ids, n) == Take(k) && OpAt(job, ids, m) == Take(l) && !Child(k) && !Child(l)
    ensures Rank(k) < Rank(l)
  {
  }

  /** Invoices and attempts are locked only below their subscription, and the attempt only below
      its invoice. */
  lemma TakenBelowSub(job: Step, ids: Ids, n: nat)
    ensures
      var op := OpAt(job, ids, n);
      && (op.TakeOpen? || (op.Take? && Child(op.lock)) ==> TakenBefore(job, ids, n, SubLock(ids.x)))
      && (op.Take? && op.lock.AttemptLock? ==> TakenBefore(job, ids, n, InvoiceLock(ids.i)))
  {
    var at := if job.WebhookStep? then 2 else 0;
    var op := OpAt(job, ids, n);
    if op.TakeOpen? || (op.Take? && Child(op.lock)) {
      assert OpAt(job, ids, at + 1) == Take(SubLock(ids.x));
      if op.Take? && op.lock.AttemptLock? {
        assert OpAt(job, ids, at + 3) == Take(InvoiceLock(ids.i));
      }
    }
  }

  ghost predicate TakenBefore(job: Step, ids: Ids, n: nat, l: Lock) {
    exists m: nat :: m < n && OpAt(job, ids, m) == Take(l)
  }
}
