/** Finite sums of integer-valued functions, the arithmetic backbone of the
    kernel-weighted neighbourhood sums used by convolution. */
module Sums {

  /** f(0) + f(1) + ... + f(n - 1). */
  function Sum(n: nat, f: int -> int): int
  {
    if n == 0 then 0 else Sum(n - 1, f) + f(n - 1)
  }

  /** The function that reads f one index further on. */
  function Shift(f: int -> int): int -> int
  {
    i => f(i + 1)
  }

  /** The function that reads f from the far end of [0, n). */
  function Reverse(n: nat, f: int -> int): int -> int
  {
    i => f(n - 1 - i)
  }

  /** A sum only depends on the values of its terms inside [0, n). */
  lemma {:induction false} SumExtensional(n: nat, f: int -> int, g: int -> int)
    requires forall i :: 0 <= i < n ==> f(i) == g(i)
    ensures Sum(n, f) == Sum(n, g)
  {
    if n > 0 {
      SumExtensional(n - 1, f, g);
    }
  }

  /** Peeling the first term instead of the last one. */
  lemma {:induction false} SumFront(n: nat, f: int -> int)
    requires n > 0
    ensures Sum(n, f) == f(0) + Sum(n - 1, Shift(f))
  {
    if n > 1 {
      SumFront(n - 1, f);
    }
  }

  /** Summing the terms in the opposite order gives the same total. */
  lemma {:induction false} SumReverse(n: nat, f: int -> int)
    ensures Sum(n, Reverse(n, f)) == Sum(n, f)
  {
    if n > 0 {
      SumFront(n, Reverse(n, f));
      SumExtensional(n - 1, Shift(Reverse(n, f)), Reverse(n - 1, f));
      SumReverse(n - 1, f);
    }
  }
}
