/**
  * Step-index arithmetic of the playback state machine: the index is taken
  * modulo the number of steps and wraps in both directions.
  *
  * The player only ever computes `%` of non-negative operands, where
  * JavaScript's truncating remainder and Dafny's Euclidean one agree.
  */
module Playback {

  /** The index after a forward step or a timer tick. */
  function Forward(s: nat, n: nat): (r: nat)
    requires n > 0
    ensures r < n
  {
    (s + 1) % n
  }

  /** The index after a step back. */
  function Back(s: nat, n: nat): (r: nat)
    requires n > 0
    ensures r < n
  {
    (s - 1 + n) % n
  }

  /** Forward from the last step wraps to the first. */
  lemma ForwardWraps(n: nat)
    requires n > 0
    ensures Forward(n - 1, n) == 0
  {
  }

  /** Back from the first step wraps to the last. */
  lemma BackWraps(n: nat)
    requires n > 0
    ensures Back(0, n) == n - 1
  {
  }

  /** Helper for `ModUnique`: a non-zero multiple of `n` is at least `n` away from 0. */
  lemma MulAtLeast(d: int, n: int)
    requires n > 0
    ensures d >= 1 ==> d * n >= n
    ensures d <= -1 ==> d * n <= -n
  {
  }

  /** The remainder is determined by any quotient/remainder decomposition. */
  lemma ModUnique(a: int, n: int, q: int, r: int)
    requires 0 <= r < n
    requires a == q * n + r
    ensures a % n == r
  {
    var q', r' := a / n, a % n;
    assert (q - q') * n == r' - r;
    MulAtLeast(q - q', n);
  }

  /** Inside the step range, Forward moves to the next index without wrapping. */
  lemma ForwardInside(s: nat, n: nat)
    requires s + 1 < n
    ensures Forward(s, n) == s + 1 && Back(s + 1, n) == s
  {
    ModUnique(s + 1, n, 0, s + 1);
    ModUnique(s + n, n, 1, s);
  }

  /** Forward and Back undo each other on every valid index. */
  lemma BackUndoesForward(s: nat, n: nat)
    requires s < n
    ensures Back(Forward(s, n), n) == s
    ensures Forward(Back(s, n), n) == s
  {
    if s + 1 < n {
      ForwardInside(s, n);
    } else {
      ForwardWraps(n);
      BackWraps(n);
    }
    if s > 0 {
      ForwardInside(s - 1, n);
    } else {
      BackWraps(n);
      ForwardWraps(n);
    }
  }

  /** The index after `k` forward steps (or ticks) from `s`. */
  function Advance(s: nat, k: nat, n: nat): (r: nat)
    requires s < n
    ensures r < n
    decreases k
  {
    if k == 0 then s else Forward(Advance(s, k - 1, n), n)
  }

  /** The index after `k` steps back from `s`. */
  function Rewind(s: nat, k: nat, n: nat): (r: nat)
    requires s < n
    ensures r < n
    decreases k
  {
    if k == 0 then s else Back(Rewind(s, k - 1, n), n)
  }

  lemma ModSucc(a: nat, n: nat)
    requires n > 0
    ensures (a % n + 1) % n == (a + 1) % n
  {
    var q, r := a / n, a % n;
    if r + 1 < n {
      ModUnique(a + 1, n, q, r + 1);
      ModUnique(r + 1, n, 0, r + 1);
    } else {
      ModUnique(a + 1, n, q + 1, 0);
      ModUnique(r + 1, n, 1, 0);
    }
  }

  /** `k` ticks from `s` land on `(s + k) mod n`. */
  lemma {:induction false} AdvanceIsModular(s: nat, k: nat, n: nat)
    requires s < n
    ensures Advance(s, k, n) == (s + k) % n
    decreases k
  {
    if k > 0 {
      AdvanceIsModular(s, k - 1, n);
      ModSucc(s + k - 1, n);
    }
  }

  /** `n` ticks go once round the whole step script. */
  lemma FullCycle(s: nat, n: nat)
    requires s < n
    ensures Advance(s, n, n) == s
  {
    AdvanceIsModular(s, n, n);
    ModUnique(s + n, n, 1, s);
  }

  /** Stepping back `k + 1` times is stepping back once and then `k` times. */
  lemma {:induction false} RewindFirst(s: nat, k: nat, n: nat)
    requires s < n
    ensures Rewind(s, k + 1, n) == Rewind(Back(s, n), k, n)
    decreases k
  {
    if k > 0 {
      RewindFirst(s, k - 1, n);
    }
  }

  /** `k` steps back undo `k` steps forward. */
  lemma {:induction false} RewindUndoesAdvance(s: nat, k: nat, n: nat)
    requires s < n
    ensures Rewind(Advance(s, k, n), k, n) == s
    decreases k
  {
    if k > 0 {
      var a := Advance(s, k - 1, n);
      RewindFirst(Forward(a, n), k - 1, n);
      BackUndoesForward(a, n);
      RewindUndoesAdvance(s, k - 1, n);
    }
  }

  /** From index 0 of seven steps, three ticks reach index 3. */
  lemma ThreeTicksOfSeven()
    ensures Advance(0, 3, 7) == 3
  {
  }
}
