/** Counting and summing over rows. */
module Counting {
  import opened Tables

  lemma CountAppend(rows: seq<Attempt>, row: Attempt, i: nat, st: PaymentStatus)
    ensures Count(rows + [row], i, st) == Count(rows, i, st) + One(row, i, st)
  {
    assert (rows + [row])[..|rows|] == rows;
  }

  lemma {:induction false} CountUpdate(rows: seq<Attempt>, a: nat, row: Attempt, i: nat, st: PaymentStatus)
    requires a < |rows|
    ensures Count(rows[a := row], i, st) == Count(rows, i, st) - One(rows[a], i, st) + One(row, i, st)
  {
    var last := |rows| - 1;
    if a == last {
      assert rows[a := row][..last] == rows[..last];
    } else {
      assert rows[a := row][..last] == rows[..last][a := row];
      CountUpdate(rows[..last], a, row, i, st);
    }
  }

  lemma {:induction false} CountSome(rows: seq<Attempt>, i: nat, st: PaymentStatus) returns (a: nat)
    requires Count(rows, i, st) > 0
    ensures a < |rows| && rows[a].invoice == i && rows[a].status == st
  {
    a := |rows| - 1;
    if One(rows[a], i, st) == 0 {
      a := CountSome(rows[..a], i, st);
    }
  }

  lemma {:induction false} CountThese(rows: seq<Attempt>, i: nat, st: PaymentStatus, a: nat)
    requires a < |rows| && rows[a].invoice == i && rows[a].status == st
    ensures Count(rows, i, st) >= 1
  {
    if a < |rows| - 1 {
      CountThese(rows[..|rows| - 1], i, st, a);
    }
  }

  lemma {:induction false} CountTwo(rows: seq<Attempt>, i: nat, st: PaymentStatus, a: nat, b: nat)
    requires a < b < |rows|
    requires rows[a].invoice == i && rows[a].status == st && rows[b].invoice == i && rows[b].status == st
    ensures Count(rows, i, st) >= 2
  {
    if b < |rows| - 1 {
      CountTwo(rows[..|rows| - 1], i, st, a, b);
    } else {
      CountThese(rows[..b], i, st, a);
    }
  }

  function Positions(rows: seq<Attempt>, i: nat, st: PaymentStatus): set<nat> {
    set a: nat | a < |rows| && rows[a].invoice == i && rows[a].status == st
  }

  /** Counting is the number of rows that match. */
  lemma {:induction false} CountIsCardinality(rows: seq<Attempt>, i: nat, st: PaymentStatus)
    ensures Count(rows, i, st) == |Positions(rows, i, st)|
  {
    if rows != [] {
      var last := |rows| - 1;
      CountIsCardinality(rows[..last], i, st);
      var before := Positions(rows[..last], i, st);
      if One(rows[last], i, st) == 1 {
        assert Positions(rows, i, st) == before + {last};
      } else {
        assert Positions(rows, i, st) == before;
      }
    }
  }

  /** Another success is one that is counted. */
  lemma SuccessCounted(rows: seq<Attempt>, i: nat, a: nat)
    ensures Exists(rows, SuccessOfOther(i, a)) ==> Count(rows, i, Success) > 0
  {
    if Exists(rows, SuccessOfOther(i, a)) {
      CountThese(rows, i, Success, First(rows, SuccessOfOther(i, a)).value);
    }
  }

  /** A query about the other attempts does not notice a change of this one. */
  lemma OthersSame(before: seq<Attempt>, after: seq<Attempt>, a: nat, q: Query)
    requires |before| == |after| && (forall k :: 0 <= k < |before| && k != a ==> before[k] == after[k])
    requires (q.BoundToOther? || q.SuccessOfOther?) && q.except == a
    ensures Exists(before, q) == Exists(after, q)
  {
    forall k | 0 <= k < |before|
      ensures Matches(q, before[k], k) == Matches(q, after[k], k)
    {
    }
  }
}
