/** Shared vocabulary of the model: classical bits as 0/1 integers, the outcome
    of a sampled measurement, and the Python integer and list operations the
    simulators rely on (range lengths, floor division, slicing). */
module Bits {

  /** A classical bit, written as the integer 0 or 1. */
  predicate IsBit(x: int) {
    x == 0 || x == 1
  }

  predicate AllBits(s: seq<int>) {
    forall i :: 0 <= i < |s| ==> IsBit(s[i])
  }

  function Min(a: int, b: int): (m: int) {
    if a <= b then a else b
  }

  function Max(a: int, b: int): (m: int) {
    if a <= b then b else a
  }

  /** The number of iterations of Python's `range(n)`: none for a negative n. */
  function RangeLen(n: int): (len: nat) {
    if n < 0 then 0 else n
  }

  /** Python's `a // b`, which rounds toward minus infinity (Dafny's `/` is
      Euclidean and differs from it for a negative divisor). */
  function FloorDiv(a: int, b: int): (q: int)
    requires b != 0
    ensures b > 0 ==> q * b <= a < q * b + b
    ensures b < 0 ==> q * b + b < a <= q * b
  {
    if b > 0 then a / b
    else
      var q := (-a) / (-b);
      assert (-b) * q <= -a < (-b) * q + (-b);
      q
  }

  /** Python's slice `s[:n]`: a negative `n` counts from the end, and an `n`
      past the end takes the whole list. */
  function PyPrefix<T>(s: seq<T>, n: int): (r: seq<T>)
    ensures r <= s
    ensures |r| == if n >= 0 then Min(n, |s|) else Max(0, |s| + n)
  {
    if n >= 0 then s[..Min(n, |s|)] else s[..Max(0, |s| + n)]
  }

  /** The bit produced by `0 if random.random() < p else 1`, given whether the
      draw fell below the threshold `p`. */
  function Outcome(belowThreshold: bool): (b: int)
    ensures IsBit(b)
    ensures b == 0 <==> belowThreshold
  {
    if belowThreshold then 0 else 1
  }

  /** The bits produced by a sequence of such comparisons, in draw order. */
  function Outcomes(draws: seq<bool>): (bits: seq<int>)
    ensures |bits| == |draws|
    ensures AllBits(bits)
  {
    seq(|draws|, i requires 0 <= i < |draws| => Outcome(draws[i]))
  }

  /** Outcomes are computed draw by draw: one more draw adds its outcome at the end. */
  lemma OutcomesExtend(draws: seq<bool>, k: nat)
    requires k < |draws|
    ensures Outcomes(draws[..k + 1]) == Outcomes(draws[..k]) + [Outcome(draws[k])]
  {
  }

  /** Python's `(n + d - 1) // d` is the ceiling of n / d for a positive divisor
      and a non-negative n: the least multiple count covering n. */
  lemma CeilingDivision(n: int, d: int)
    requires d > 0 && n >= 0
    ensures FloorDiv(n + d - 1, d) >= 0
    ensures FloorDiv(n + d - 1, d) * d >= n
    ensures (FloorDiv(n + d - 1, d) - 1) * d < n
  {
  }
}
