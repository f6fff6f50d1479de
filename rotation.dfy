/** Index arithmetic shared by the two carousels: one step forward or back
    around a ring of n slides. The index is never negative, so JavaScript's
    `%` and Dafny's agree here. */
module Rotation {

  /** `(i + 1) % n`. */
  function Next(i: nat, n: nat): (r: nat)
    requires n > 0
    ensures r < n
  {
    (i + 1) % n
  }

  /** `(i - 1 + n) % n`. */
  function Prev(i: nat, n: nat): (r: nat)
    requires 0 < n && i < n
    ensures r < n
  {
    (i - 1 + n) % n
  }

  /** Forward wraps from the last slide to the first, and otherwise moves
      one on. */
  lemma NextCases(i: nat, n: nat)
    requires i < n
    ensures Next(i, n) == if i == n - 1 then 0 else i + 1
  {
  }

  /** Back wraps from the first slide to the last, and otherwise moves one
      back. */
  lemma PrevCases(i: nat, n: nat)
    requires i < n
    ensures Prev(i, n) == if i == 0 then n - 1 else i - 1
  {
    if i == 0 {
      assert (i - 1 + n) % n == n - 1;
    } else {
      assert (i - 1 + n) % n == i - 1 by {
        assert i - 1 + n == (i - 1) + 1 * n;
      }
    }
  }

  /** Back undoes forward, and forward undoes back. */
  lemma PrevNextInverse(i: nat, n: nat)
    requires i < n
    ensures Prev(Next(i, n), n) == i
    ensures Next(Prev(i, n), n) == i
  {
    NextCases(i, n);
    PrevCases(i, n);
    NextCases(Prev(i, n), n);
    PrevCases(Next(i, n), n);
  }
}
