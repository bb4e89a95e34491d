/** The part of the SQL engine the routes rely on: a table is the sequence of
    its rows in insertion order, which is also `created_date` order. */
module Table {
  import opened Common

  /** `SELECT * FROM t WHERE p ORDER BY created_date DESC`: scans the table
      once, putting each matching row in front of the ones found before it. */
  method SelectNewestFirst<T>(rows: seq<T>, p: T -> bool) returns (result: seq<T>)
    ensures result == Reverse(Filter(rows, p))
  {
    result := [];
    var i := 0;
    while i < |rows|
      invariant 0 <= i <= |rows|
      invariant result == Reverse(Filter(rows[..i], p))
    {
      assert rows[..i + 1][..i] == rows[..i];
      if p(rows[i]) {
        var f := Filter(rows[..i], p);
        assert (f + [rows[i]])[..|f|] == f;
        result := [rows[i]] + result;
      }
      i := i + 1;
    }
    assert rows[..|rows|] == rows;
  }

  /** What the newest-first selection holds: exactly the matching rows. */
  lemma NewestFirstMembers<T>(rows: seq<T>, p: T -> bool, x: T)
    ensures x in Reverse(Filter(rows, p)) <==> x in rows && p(x)
  {
    ReverseMembers(Filter(rows, p), x);
    FilterMembers(rows, p, x);
  }

  lemma NewestFirstMembersAll<T>(rows: seq<T>, p: T -> bool)
    ensures forall x :: x in Reverse(Filter(rows, p)) <==> x in rows && p(x)
  {
    forall x ensures x in Reverse(Filter(rows, p)) <==> x in rows && p(x) {
      NewestFirstMembers(rows, p, x);
    }
  }

  /** The newest-first selection read backwards is an order-preserving
      selection of the table. */
  lemma NewestFirstIsReversedSubsequence<T>(rows: seq<T>, p: T -> bool)
    ensures IsSubsequence(Reverse(Reverse(Filter(rows, p))), rows)
  {
    ReverseReverse(Filter(rows, p));
  }
}
