/** Client idempotency keys: unique within an organization, bound to one invoice. */
module ClientKeys {
  import opened Tables
  import opened Services
  import opened Invariant
  import opened Preservation
  import opened History

  /** What a request with a key already stored in its organization gets. */
  function Replayed(s: Db, a: nat, i: nat): Reply<Prepared>
    requires a < |s.attempts|
  {
    if s.attempts[a].invoice == i then Ok(Prepared(Some(a), MayCharge(s.attempts[a]))) else Err(KeyConflict)
  }

  lemma ReplayNow(s: Db, a: nat, i: nat, key: string, providerKey: string)
    requires Inv(s) && a < |s.attempts| && i < |s.invoices|
    requires s.attempts[a].clientKey == Some(key) && s.attempts[a].org == s.invoices[i].org
    ensures Prepare(s, i, key, false, providerKey) == (s, Replayed(s, a, i))
  {
    hide Scoped, Timed, Statuses, Tallies, Reasons, Periods;
    var q := ByClientKey(s.invoices[i].org, key);
    assert Matches(q, s.attempts[a], a);
    assert forall b :: 0 <= b < |s.attempts| && b != a ==> Apart(s.attempts[a], s.attempts[b]);
  }

  /** Once an attempt stores a key, every later request with it in that organization returns
      that attempt for the same invoice and conflicts for any other; none creates a second. */
  lemma KeyBinding(before: seq<Step>, after: seq<Step>, a: nat, i: nat, key: string, providerKey: string)
    requires a < |Run(Empty(), before).attempts|
    requires Run(Empty(), before).attempts[a].clientKey == Some(key)
    requires i < |Run(Run(Empty(), before), after).invoices|
    requires Run(Run(Empty(), before), after).invoices[i].org == Run(Empty(), before).attempts[a].org
    ensures
      var t := Run(Run(Empty(), before), after);
      a < |t.attempts| && Prepare(t, i, key, false, providerKey) == (t, Replayed(t, a, i))
  {
    hide Run, Inv, Prepare, Replayed, Frozen;
    Reachable(before);
    var s := Run(Empty(), before);
    RunKeeps(s, after);
    RunLater(s, after);
    assert AttemptLater(s.attempts[a], Run(s, after).attempts[a]);
    ReplayNow(Run(s, after), a, i, key, providerKey);
  }

  function Hidden(a: Attempt, org: nat): Attempt {
    if a.org == org then a else a.(clientKey := None)
  }

  /** The database with every other organization's client keys erased. */
  function Blind(s: Db, org: nat): Db {
    s.(attempts := seq(|s.attempts|, a requires 0 <= a < |s.attempts| => Hidden(s.attempts[a], org)))
  }

  lemma {:induction false} FirstSame(rows: seq<Attempt>, others: seq<Attempt>, q: Query)
    requires |rows| == |others|
    requires forall k :: 0 <= k < |rows| ==> (Matches(q, rows[k], k) <==> Matches(q, others[k], k))
    ensures First(rows, q) == First(others, q)
  {
    var r, o := First(rows, q), First(others, q);
    if r.Some? { assert Matches(q, others[r.value], r.value); }
    if o.Some? { assert Matches(q, rows[o.value], o.value); }
  }

  /** Only a lookup by another organization's client key could tell the two apart. */
  lemma FirstBlind(s: Db, org: nat, q: Query)
    requires q.ByClientKey? ==> q.org == org
    ensures First(s.attempts, q) == First(Blind(s, org).attempts, q)
  {
    FirstSame(s.attempts, Blind(s, org).attempts, q);
  }

  lemma BlindFacts(s: Db, i: nat, key: string)
    requires Scoped(s) && i < |s.invoices|
    ensures PrepareRead(s, i, key) == PrepareRead(Blind(s, s.invoices[i].org), i, key)
  {
    var org := s.invoices[i].org;
    FirstBlind(s, org, ByClientKey(org, key));
    BlindLookup(s, i, PendingOf(i));
    BlindLookup(s, i, SinceIssue(i, IssueTime(s.invoices[i])));
    BlindLookup(s, i, OpenOf(i));
  }

  lemma BlindLookup(s: Db, i: nat, q: Query)
    requires Scoped(s) && i < |s.invoices| && (q == PendingOf(i) || q == OpenOf(i) || (q.SinceIssue? && q.invoice == i))
    ensures Lookup(s.attempts, q) == Lookup(Blind(s, s.invoices[i].org).attempts, q)
  {
    FirstBlind(s, s.invoices[i].org, q);
    if First(s.attempts, q).Some? {
      assert Snapshot(s.attempts[First(s.attempts, q).value], s.invoices[i]);
    }
  }

  lemma BlindCarry(s: Db, org: nat, choice: Choice, taken: bool, row: Attempt)
    requires row.invoice < |s.invoices| && row.org == org
    ensures Carry(Blind(s, org), choice, taken, row).1 == Carry(s, choice, taken, row).1
    ensures Carry(Blind(s, org), choice, taken, row).0 == Blind(Carry(s, choice, taken, row).0, org)
  {
    assert Blind(Inserted(s, row), org).attempts == Inserted(Blind(s, org), row).attempts;
  }

  /** Keys in different organizations never interact: a request gets the same answer, and
      leaves the same rows, when the keys of all other organizations are erased. */
  lemma KeysDoNotCross(s: Db, i: nat, key: string, issuedOnly: bool, providerKey: string)
    requires Inv(s) && i < |s.invoices|
    ensures
      var org := s.invoices[i].org;
      && Prepare(Blind(s, org), i, key, issuedOnly, providerKey).1 == Prepare(s, i, key, issuedOnly, providerKey).1
      && Prepare(Blind(s, org), i, key, issuedOnly, providerKey).0 ==
         Blind(Prepare(s, i, key, issuedOnly, providerKey).0, org)
  {
    var org := s.invoices[i].org;
    BlindFacts(s, i, key);
    FirstBlind(s, org, ByProviderKey(providerKey));
    BlindCarry(s, org, PrepareChoice(key, issuedOnly, PrepareRead(s, i, key)),
        Exists(s.attempts, ByProviderKey(providerKey)),
               NewAttempt(i, s.invoices[i], CustomerOf(s, i), key, providerKey, s.clock));
  }
}
