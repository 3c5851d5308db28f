/**
 * Wrap-around slide indices over a list of `n` slides, as both carousels step them:
 * next is `(i + 1) % n` and previous is `(i - 1 + n) % n`. Both operands are never
 * negative here, so JavaScript's truncating `%` and Dafny's Euclidean `%` agree.
 */
module Cyclic {

  /** `(i + 1) % n`: one slide forward, from the last slide back to the first. */
  function Next(i: nat, n: nat): (r: nat)
    requires i < n
    ensures r < n
    ensures r == if i == n - 1 then 0 else i + 1
  {
    (i + 1) % n
  }

  /** `(i - 1 + n) % n`: one slide back, from the first slide round to the last. */
  function Previous(i: nat, n: nat): (r: nat)
    requires i < n
    ensures r < n
    ensures r == if i == 0 then n - 1 else i - 1
  {
    (i - 1 + n) % n
  }

  /** Next undoes Previous and Previous undoes Next. */
  lemma NextPreviousInverse(i: nat, n: nat)
    requires i < n
    ensures Previous(Next(i, n), n) == i
    ensures Next(Previous(i, n), n) == i
  {
  }

  /** The index after `k` consecutive Next steps. */
  function Advance(i: nat, n: nat, k: nat): (r: nat)
    requires i < n
    ensures r < n
  {
    if k == 0 then i else Next(Advance(i, n, k - 1), n)
  }

  /** Up to one full turn, `k` Next steps move `k` places, wrapping once past the end. */
  lemma {:induction false} AdvanceWithinOneTurn(i: nat, n: nat, k: nat)
    requires i < n && k <= n
    ensures Advance(i, n, k) == if i + k < n then i + k else i + k - n
  {
    if k > 0 {
      AdvanceWithinOneTurn(i, n, k - 1);
    }
  }

  /** `n` consecutive Next steps come back to the starting slide. */
  lemma FullTurn(i: nat, n: nat)
    requires i < n
    ensures Advance(i, n, n) == i
  {
    AdvanceWithinOneTurn(i, n, n);
  }

  /** Slide `j` is drawn as the current one (`current === index` in the markup). */
  predicate IsCurrent(current: nat, j: nat) {
    current == j
  }

  /** The slides among `n` that are drawn as the current one. */
  function Highlighted(current: nat, n: nat): set<nat> {
    set j: nat | j < n && IsCurrent(current, j)
  }

  /** Exactly one slide is drawn as current whenever the index is in range, none otherwise. */
  lemma {:induction false} ExactlyOneHighlighted(current: nat, n: nat)
    ensures current < n ==> Highlighted(current, n) == {current} && |Highlighted(current, n)| == 1
    ensures current >= n ==> Highlighted(current, n) == {}
  {
    if current < n {
      assert IsCurrent(current, current);
    }
  }
}
