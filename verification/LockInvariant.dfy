/** What a running transaction has read stays true while it holds its locks. */
module LockInvariant {
  import opened Tables
  import opened Services
  import opened LockSteps

  // ---- The invariant of one transaction ----

  predicate OnInvoice(job: Step) {
    job.DunStep? || job.PrepareStep? || job.SettleStep? || job.WebhookStep?
  }

  /** Questions about an invoice or an attempt are asked by transactions that work on one. */
  predicate Suits(job: Step, q: Question) {
    && (q.InvoiceRow? || q.DeclinedCount? || q.OtherSuccess? ==> OnInvoice(job))
    && (q.Replayed? || q.PendingRow? || q.SinceRow? || q.LiveRow? ==> OnInvoice(job))
    && (q.AttemptRow? ==> job.SettleStep? || job.WebhookStep?)
  }

  /** The transaction holds the lock that keeps the answer to this question true. */
  predicate Guarded(t: Thread, q: Question) {
    if q.Seen? then
      t.job.WebhookStep? && WellFormed(t.job.delivery)
      && EventLock(t.job.delivery.provider, t.job.delivery.eventId.t) in t.held
    else
      && t.ids.Some? && SubLock(t.ids.value.x) in t.held && Suits(t.job, q)
      && (q.Replayed? ==> OrgLock(t.ids.value.org) in t.held)
      && (q.KeyUsed? ==> t.job.PrepareStep? && KeyLock(t.job.providerKey) in t.held)
      && (q.Taken? ==> ChargeOf(t.job) != "" && ChargeLock(ChargeOf(t.job)) in t.held)
      && (q.SinceRow? ==> InvoiceRow in t.asked)
  }

  /** Asking again would give the same answer. */
  predicate Current(s: Db, t: Thread, q: Question) {
    Read(s, t.job, IdsOf(t), q, t.notes) == t.notes
  }

  predicate Performed(t: Thread, op: Op) {
    match op
    case Resolve => t.ids.Some?
    case Take(l) => l in t.held
    case TakeOpen => forall k :: k in t.notes.openIds ==> InvoiceLock(k) in t.held
    case Ask(q) => q in t.asked
    case Finish => false
  }

  predicate Passed(t: Thread, n: nat) {
    Skips(t.job, t.notes, OpAt(t.job, IdsOf(t), n)) || Performed(t, OpAt(t.job, IdsOf(t), n))
  }

  /** The lock was taken by an earlier operation, or hangs below the lock on the subscription. */
  ghost predicate Earned(s: Db, t: Thread, l: Lock) {
    match l
    case InvoiceLock(i) =>
      t.ids.Some? && SubLock(t.ids.value.x) in t.held && i < |s.invoices| && s.invoices[i].subscription == t.ids.value.x
    case AttemptLock(a) =>
      t.ids.Some? && SubLock(t.ids.value.x) in t.held && a < |s.attempts| && OwnerOf(s, a) == t.ids.value.x
    case _ => exists n: nat :: n < t.pc && OpAt(t.job, IdsOf(t), n) == Take(l)
  }

  ghost predicate Fine(s: Db, t: Thread) {
    && Transaction(t.job)
    && (t.ids.Some? ==> FindIds(s, t.job) == t.ids)
    && (t.notes.seen ==> Seen in t.asked)
    && (forall q :: q in t.asked ==> Guarded(t, q) && Current(s, t, q))
    && (forall n: nat :: n < t.pc ==> Passed(t, n))
    && (forall l :: l in t.held ==> Earned(s, t, l))
  }

  // ---- What a commit may change ----

  predicate AttemptFrame(u: Attempt, v: Attempt, held: set<Lock>) {
    && v.invoice == u.invoice && v.org == u.org && v.clientKey == u.clientKey && v.request == u.request
    && v.attemptedAt == u.attemptedAt
    && (v.chargeId == u.chargeId || (u.chargeId == "" && ChargeLock(v.chargeId) in held))
  }

  predicate NewAttemptFrame(s: Db, v: Attempt, held: set<Lock>) {
    && v.invoice < |s.invoices| && SubLock(s.invoices[v.invoice].subscription) in held
    && v.chargeId == ""
    && (v.clientKey.Some? ==> OrgLock(v.org) in held)
    && KeyLock(v.request.key) in held
  }

  predicate NewEventFrame(v: WebhookEvent, held: set<Lock>) {
    EventLock(v.provider, v.eventId) in held
  }

  predicate NewInvoiceFrame(s: Db, v: Invoice, held: set<Lock>) {
    v.subscription >= |s.subs| || SubLock(v.subscription) in held
  }

  predicate InvoiceFrame(s: Db, i: nat, v: Invoice, held: set<Lock>)
    requires i < |s.invoices|
  {
    && v.subscription == s.invoices[i].subscription && v.org == s.invoices[i].org
    && (v == s.invoices[i] || (SubLock(v.subscription) in held && InvoiceLock(i) in held))
  }

  predicate SubFrame(s: Db, x: nat, v: Subscription, held: set<Lock>)
    requires x < |s.subs|
  {
    && v.customer == s.subs[x].customer && v.plan == s.subs[x].plan
    && (v == s.subs[x] || SubLock(x) in held)
  }

  /** A commit changes only rows it has locked, and inserts only under the locks it holds. */
  ghost predicate Frame(s: Db, t: Db, held: set<Lock>) {
    && s.customers <= t.customers && s.plans <= t.plans
    && |s.subs| <= |t.subs| && |s.invoices| <= |t.invoices| && |s.attempts| <= |t.attempts| && |s.events| <= |t.events|
    && (forall x :: 0 <= x < |s.subs| ==> SubFrame(s, x, t.subs[x], held))
    && (forall i :: 0 <= i < |s.invoices| ==> InvoiceFrame(s, i, t.invoices[i], held))
    && (forall i :: |s.invoices| <= i < |t.invoices| ==> NewInvoiceFrame(s, t.invoices[i], held))
    && (forall a :: 0 <= a < |s.attempts| ==>
          AttemptFrame(s.attempts[a], t.attempts[a], held)
          && (t.attempts[a] == s.attempts[a] || (AttemptLock(a) in held && SubLock(OwnerOf(s, a)) in held)))
    && (forall a :: |s.attempts| <= a < |t.attempts| ==> NewAttemptFrame(s, t.attempts[a], held))
    && (forall e :: 0 <= e < |s.events| ==> t.events[e] == s.events[e])
    && (forall e :: |s.events| <= e < |t.events| ==> NewEventFrame(t.events[e], held))
  }

  // ---- Lookups outside the frame ----

  lemma {:induction false} FirstStable(before: seq<Attempt>, after: seq<Attempt>, q: Query)
    requires |before| <= |after|
    requires forall k :: 0 <= k < |before| ==> (Matches(q, before[k], k) <==> Matches(q, after[k], k))
    requires forall k :: |before| <= k < |after| ==> !Matches(q, after[k], k)
    ensures First(before, q) == First(after, q)
  {
    var b, a := First(before, q), First(after, q);
    if b.Some? { assert Matches(q, after[b.value], b.value); }
    if a.Some? { assert Matches(q, before[a.value], a.value); }
  }

  /** Attempts of an invoice whose subscription is not locked by the committer stay as they are. */
  lemma OwnAttempts(s: Db, t: Db, held: set<Lock>, x: nat, i: nat)
    requires Frame(s, t, held) && SubLock(x) !in held
    requires i < |s.invoices| && s.invoices[i].subscription == x
    ensures forall a :: 0 <= a < |s.attempts| && s.attempts[a].invoice == i ==> t.attempts[a] == s.attempts[a]
    ensures forall a :: 0 <= a < |s.attempts| && t.attempts[a].invoice == i ==> s.attempts[a].invoice == i
    ensures forall a :: |s.attempts| <= a < |t.attempts| ==> t.attempts[a].invoice != i
  {
    assert forall a :: |s.attempts| <= a < |t.attempts| ==> NewAttemptFrame(s, t.attempts[a], held);
    assert forall a :: 0 <= a < |s.attempts| ==> AttemptFrame(s.attempts[a], t.attempts[a], held);
  }

  predicate OfInvoice(q: Query, i: nat) {
    q == PendingOf(i) || q == OpenOf(i) || (q.SinceIssue? && q.invoice == i) || (q.SuccessOfOther? && q.invoice == i)
  }

  lemma OwnLookup(s: Db, t: Db, held: set<Lock>, x: nat, i: nat, q: Query)
    requires Frame(s, t, held) && SubLock(x) !in held
    requires i < |s.invoices| && s.invoices[i].subscription == x && OfInvoice(q, i)
    ensures First(s.attempts, q) == First(t.attempts, q) && Lookup(s.attempts, q) == Lookup(t.attempts, q)
  {
    OwnAttempts(s, t, held, x, i);
    FirstStable(s.attempts, t.attempts, q);
  }

  lemma {:induction false} CountStable(before: seq<Attempt>, after: seq<Attempt>, i: nat, st: PaymentStatus)
    requires |before| <= |after|
    requires forall k :: 0 <= k < |before| ==> One(before[k], i, st) == One(after[k], i, st)
    requires forall k :: |before| <= k < |after| ==> after[k].invoice != i
    ensures Count(before, i, st) == Count(after, i, st)
    decreases |after|
  {
    if after != [] {
      var last := |after| - 1;
      if |before| == |after| {
        CountStable(before[..last], after[..last], i, st);
      } else {
        CountStable(before, after[..last], i, st);
      }
    }
  }

  lemma OwnCount(s: Db, t: Db, held: set<Lock>, x: nat, i: nat)
    requires Frame(s, t, held) && SubLock(x) !in held
    requires i < |s.invoices| && s.invoices[i].subscription == x
    ensures Count(s.attempts, i, Declined) == Count(t.attempts, i, Declined)
  {
    OwnAttempts(s, t, held, x, i);
    CountStable(s.attempts, t.attempts, i, Declined);
  }

  lemma OwnInvoices(s: Db, t: Db, held: set<Lock>, x: nat)
    requires Frame(s, t, held) && SubLock(x) !in held && x < |s.subs|
    ensures forall i :: 0 <= i < |s.invoices| && s.invoices[i].subscription == x ==> t.invoices[i] == s.invoices[i]
    ensures forall i :: 0 <= i < |s.invoices| && t.invoices[i].subscription == x ==> s.invoices[i].subscription == x
    ensures forall i :: |s.invoices| <= i < |t.invoices| ==> t.invoices[i].subscription != x
  {
    assert forall i :: 0 <= i < |s.invoices| ==> InvoiceFrame(s, i, t.invoices[i], held);
    assert forall i :: |s.invoices| <= i < |t.invoices| ==> NewInvoiceFrame(s, t.invoices[i], held);
  }

  lemma {:induction false} OpenOnesStable(before: seq<Invoice>, after: seq<Invoice>, x: nat, n: nat, m: nat)
    requires n <= |before| <= |after| && n <= m <= |after|
    requires forall k :: 0 <= k < n ==> OpenOn(before[k], x) == OpenOn(after[k], x)
    requires forall k :: n <= k < m ==> !OpenOn(after[k], x)
    ensures OpenOnes(before, x, n) == OpenOnes(after, x, m)
    decreases m
  {
    if m > 0 {
      if n == m {
        OpenOnesStable(before, after, x, n - 1, m - 1);
      } else {
        OpenOnesStable(before, after, x, n, m - 1);
      }
    }
  }

  lemma OwnOpen(s: Db, t: Db, held: set<Lock>, x: nat)
    requires Frame(s, t, held) && SubLock(x) !in held && x < |s.subs|
    ensures OpenOnes(s.invoices, x, |s.invoices|) == OpenOnes(t.invoices, x, |t.invoices|)
  {
    OwnInvoices(s, t, held, x);
    OpenOnesStable(s.invoices, t.invoices, x, |s.invoices|, |t.invoices|);
  }

  lemma OwnSpans(s: Db, t: Db, held: set<Lock>, x: nat)
    requires Frame(s, t, held) && SubLock(x) !in held && x < |s.subs|
    ensures SpansOf(s.invoices, x) == SpansOf(t.invoices, x)
  {
    OwnInvoices(s, t, held, x);
    forall p
      ensures p in SpansOf(s.invoices, x) <==> p in SpansOf(t.invoices, x)
    {
      if p in SpansOf(s.invoices, x) {
        var k: nat :| k < |s.invoices| && s.invoices[k].subscription == x &&
            p == (s.invoices[k].periodStart, s.invoices[k].periodEnd);
        assert t.invoices[k] == s.invoices[k];
      }
      if p in SpansOf(t.invoices, x) {
        var k: nat :| k < |t.invoices| && t.invoices[k].subscription == x &&
            p == (t.invoices[k].periodStart, t.invoices[k].periodEnd);
        assert s.invoices[k] == t.invoices[k];
      }
    }
  }

  lemma OwnArrears(s: Db, t: Db, held: set<Lock>, x: nat, i: nat)
    requires Frame(s, t, held) && SubLock(x) !in held && x < |s.subs|
    ensures OtherArrears(s.invoices, x, i) == OtherArrears(t.invoices, x, i)
  {
    OwnInvoices(s, t, held, x);
    if OtherArrears(s.invoices, x, i) {
      var k :| 0 <= k < |s.invoices| && k != i && InArrears(s.invoices[k], x);
      assert InArrears(t.invoices[k], x);
    }
    if OtherArrears(t.invoices, x, i) {
      var k :| 0 <= k < |t.invoices| && k != i && InArrears(t.invoices[k], x);
      assert InArrears(s.invoices[k], x);
    }
  }

  lemma OwnReplay(s: Db, t: Db, held: set<Lock>, x: nat, i: nat, org: nat, key: string)
    requires Frame(s, t, held) && SubLock(x) !in held && OrgLock(org) !in held
    requires i < |s.invoices| && s.invoices[i].subscription == x
    ensures LookupReplay(s.attempts, org, key, i) == LookupReplay(t.attempts, org, key, i)
  {
    OwnAttempts(s, t, held, x, i);
    assert forall a :: 0 <= a < |s.attempts| ==> AttemptFrame(s.attempts[a], t.attempts[a], held);
    assert forall a :: |s.attempts| <= a < |t.attempts| ==> NewAttemptFrame(s, t.attempts[a], held);
    FirstStable(s.attempts, t.attempts, ByClientKey(org, key));
  }

  lemma OwnKey(s: Db, t: Db, held: set<Lock>, key: string)
    requires Frame(s, t, held) && KeyLock(key) !in held
    ensures Exists(s.attempts, ByProviderKey(key)) == Exists(t.attempts, ByProviderKey(key))
  {
    assert forall a :: 0 <= a < |s.attempts| ==> AttemptFrame(s.attempts[a], t.attempts[a], held);
    assert forall a :: |s.attempts| <= a < |t.attempts| ==> NewAttemptFrame(s, t.attempts[a], held);
    FirstStable(s.attempts, t.attempts, ByProviderKey(key));
  }

  lemma OwnCharge(s: Db, t: Db, held: set<Lock>, charge: string, a: nat)
    requires Frame(s, t, held) && ChargeLock(charge) !in held && charge != ""
    ensures Exists(s.attempts, BoundToOther(charge, a)) == Exists(t.attempts, BoundToOther(charge, a))
  {
    assert forall b :: 0 <= b < |s.attempts| ==> AttemptFrame(s.attempts[b], t.attempts[b], held);
    assert forall b :: |s.attempts| <= b < |t.attempts| ==> NewAttemptFrame(s, t.attempts[b], held);
    FirstStable(s.attempts, t.attempts, BoundToOther(charge, a));
  }

  lemma OwnEvent(s: Db, t: Db, held: set<Lock>, provider: string, eventId: string)
    requires Frame(s, t, held) && EventLock(provider, eventId) !in held
    ensures EventSeen(s.events, provider, eventId) == EventSeen(t.events, provider, eventId)
  {
    if EventSeen(s.events, provider, eventId) {
      var k :| 0 <= k < |s.events| && s.events[k].provider == provider && s.events[k].eventId == eventId;
      assert t.events[k] == s.events[k];
    }
    if EventSeen(t.events, provider, eventId) {
      var k :| 0 <= k < |t.events| && t.events[k].provider == provider && t.events[k].eventId == eventId;
      assert k >= |s.events| ==> NewEventFrame(t.events[k], held);
      assert k < |s.events| ==> s.events[k] == t.events[k];
    }
  }

  // ---- Another transaction's commit ----

  lemma IdsStay(s: Db, t: Db, held: set<Lock>, job: Step)
    requires Frame(s, t, held) && FindIds(s, job).Some?
    ensures FindIds(t, job) == FindIds(s, job)
    ensures Sited(s, job, FindIds(s, job).value) && Sited(t, job, FindIds(s, job).value)
  {
  }

  lemma RowsStay(s: Db, t: Db, u: Thread, q: Question, held: set<Lock>)
    requires Frame(s, t, held) && held !! u.held && Guarded(u, q)
    requires u.ids.Some? ==> FindIds(s, u.job) == u.ids
    requires q.Seen? || q.SubRow? || q.InvoiceRow? || q.AttemptRow?
    ensures Read(t, u.job, IdsOf(u), q, u.notes) == Read(s, u.job, IdsOf(u), q, u.notes)
  {
    if q.Seen? {
      OwnEvent(s, t, held, u.job.delivery.provider, u.job.delivery.eventId.t);
    } else {
      IdsStay(s, t, held, u.job);
      var x := u.ids.value.x;
      assert SubFrame(s, x, t.subs[x], held);
      if q.InvoiceRow? || q.AttemptRow? { OwnInvoices(s, t, held, x); }
      if q.AttemptRow? { OwnAttempts(s, t, held, x, u.ids.value.i); }
    }
  }

  lemma LookupsStay(s: Db, t: Db, u: Thread, q: Question, held: set<Lock>)
    requires Frame(s, t, held) && held !! u.held && Guarded(u, q)
    requires u.ids.Some? ==> FindIds(s, u.job) == u.ids
    requires !q.Seen? && !q.SubRow? && !q.InvoiceRow? && !q.AttemptRow?
    ensures Read(t, u.job, IdsOf(u), q, u.notes) == Read(s, u.job, IdsOf(u), q, u.notes)
  {
    hide Frame, FindIds, Lookup, LookupReplay, OtherArrears;
    IdsStay(s, t, held, u.job);
    var ids := u.ids.value;
    match q
    case Replayed => if u.job.PrepareStep? { OwnReplay(s, t, held, ids.x, ids.i, ids.org, u.job.key); }
    case PendingRow => OwnLookup(s, t, held, ids.x, ids.i, PendingOf(ids.i));
    case SinceRow => OwnLookup(s, t, held, ids.x, ids.i, SinceIssue(ids.i, IssueTime(u.notes.invoice)));
    case LiveRow => OwnLookup(s, t, held, ids.x, ids.i, OpenOf(ids.i));
    case KeyUsed => OwnKey(s, t, held, u.job.providerKey);
    case Taken => OwnCharge(s, t, held, ChargeOf(u.job), ids.a);
    case OtherSuccess => OwnLookup(s, t, held, ids.x, ids.i, SuccessOfOther(ids.i, ids.a));
    case Arrears => OwnArrears(s, t, held, ids.x, ids.i);
    case DeclinedCount => OwnCount(s, t, held, ids.x, ids.i);
    case OpenIds => OwnOpen(s, t, held, ids.x);
    case Spans => OwnSpans(s, t, held, ids.x);
    case _ =>
  }

  lemma EarnedStays(s: Db, t: Db, u: Thread, l: Lock, held: set<Lock>)
    requires Frame(s, t, held) && Earned(s, u, l)
    ensures Earned(t, u, l)
  {
    match l
    case InvoiceLock(i) => assert InvoiceFrame(s, i, t.invoices[i], held);
    case AttemptLock(a) =>
      assert AttemptFrame(s.attempts[a], t.attempts[a], held);
      assert InvoiceFrame(s, s.attempts[a].invoice, t.invoices[s.attempts[a].invoice], held);
    case _ =>
  }

  /** A commit under other locks leaves what a transaction knows intact. */
  lemma FineStays(s: Db, t: Db, u: Thread, held: set<Lock>)
    requires Fine(s, u) && Frame(s, t, held) && held !! u.held
    ensures Fine(t, u)
  {
    hide Frame, FindIds, Read, Earned, Guarded, Passed;
    if u.ids.Some? { IdsStay(s, t, held, u.job); }
    forall q | q in u.asked
      ensures Current(t, u, q)
    {
      if q.Seen? || q.SubRow? || q.InvoiceRow? || q.AttemptRow? {
        RowsStay(s, t, u, q, held);
      } else {
        LookupsStay(s, t, u, q, held);
      }
    }
    forall l | l in u.held
      ensures Earned(t, u, l)
    {
      EarnedStays(s, t, u, l, held);
    }
  }
}
