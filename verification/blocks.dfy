/** Sequences built by laying blocks end to end, as the generator lays out
    squares in a row and rows in the grid. The facts here are about the
    layout only, whatever the blocks hold. */
module Blocks {

  /** Blocks `f(0)`, ..., `f(n - 1)`, in that order. */
  function Concat<T>(f: nat -> seq<T>, n: nat): seq<T> {
    if n == 0 then [] else Concat(f, n - 1) + f(n - 1)
  }

  /** Laying down more blocks keeps the earlier elements where they were. */
  lemma {:induction false} ConcatGrow<T>(f: nat -> seq<T>, a: nat, b: nat, i: nat)
    requires a <= b && i < |Concat(f, a)|
    ensures i < |Concat(f, b)| && Concat(f, b)[i] == Concat(f, a)[i]
    decreases b
  {
    if a < b {
      ConcatGrow(f, a, b - 1, i);
    }
  }

  /** Element `t` of block `i` follows every element of blocks `0` to
      `i - 1`. */
  lemma ConcatAt<T>(f: nat -> seq<T>, n: nat, i: nat, t: nat)
    requires i < n && t < |f(i)|
    ensures |Concat(f, i)| + t < |Concat(f, n)|
    ensures Concat(f, n)[|Concat(f, i)| + t] == f(i)[t]
  {
    assert Concat(f, i + 1) == Concat(f, i) + f(i);
    ConcatGrow(f, i + 1, n, |Concat(f, i)| + t);
  }

  /** `ConcatAt` for a block known by its contents. */
  lemma ConcatAtBlock<T>(f: nat -> seq<T>, n: nat, i: nat, b: seq<T>, t: nat)
    requires i < n && f(i) == b && t < |b|
    ensures |Concat(f, i)| + t < |Concat(f, n)|
    ensures Concat(f, n)[|Concat(f, i)| + t] == b[t]
  {
    ConcatAt(f, n, i, t);
  }
}
