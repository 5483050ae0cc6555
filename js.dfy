/**
 * The few pieces of JavaScript semantics the components rely on, written out
 * so that the rest of the model can use them explicitly: optional values
 * (`undefined`), the truncating remainder operator `%`, and `Array.prototype.slice`
 * with its clamping of out-of-range and negative bounds.
 */
module Js {

  /** A value that may be `undefined`. */
  datatype Option<T> = None | Some(value: T)

  function Abs(x: int): nat
  {
    if x < 0 then -x else x
  }

  /**
   * JavaScript's `a % b` for a positive divisor: the quotient is truncated toward
   * zero, so the remainder carries the sign of the dividend (Dafny's own `%` is
   * Euclidean and never negative).
   */
  function Rem(a: int, b: int): (r: int)
    requires b > 0
    ensures a >= 0 ==> 0 <= r < b
    ensures a < 0 ==> -b < r <= 0
    ensures 0 <= a < b ==> r == a
    decreases Abs(a), if a < 0 then 1 else 0
  {
    if a < 0 then -Rem(-a, b)
    else if a < b then a
    else Rem(a - b, b)
  }

  /** Adding the divisor to a non-negative dividend does not change the remainder. */
  lemma RemShift(a: int, b: int)
    requires a >= 0 && b > 0
    ensures Rem(a + b, b) == Rem(a, b)
  {
  }

  /** The divisor itself leaves no remainder. */
  lemma RemSelf(b: int)
    requires b > 0
    ensures Rem(b, b) == 0
  {
    assert Rem(b, b) == Rem(0, b);
  }

  /** Dafny's `%` is determined by any quotient and remainder in `[0, n)`. */
  lemma ModUnique(x: int, n: int, q: int, m: int)
    requires n > 0 && 0 <= m < n && x == q * n + m
    ensures x % n == m
  {
    var q', m' := x / n, x % n;
    assert (q - q') * n == m' - m;
    if q > q' {
      MulAtLeast(q - q', n);
    } else if q < q' {
      MulAtLeast(q' - q, n);
    }
  }

  lemma MulAtLeast(k: int, n: int)
    requires k >= 1 && n > 0
    ensures k * n >= n
  {
  }

  /**
   * The truncating remainder agrees with the mathematical one on a non-negative
   * dividend and is its negation, taken on the magnitude, on a negative one.
   */
  lemma {:induction false} RemIsMod(a: int, b: int)
    requires b > 0
    ensures a >= 0 ==> Rem(a, b) == a % b
    ensures a < 0 ==> Rem(a, b) == -((-a) % b)
    decreases Abs(a), if a < 0 then 1 else 0
  {
    if a < 0 {
      RemIsMod(-a, b);
    } else if a < b {
      ModUnique(a, b, 0, a);
    } else {
      RemIsMod(a - b, b);
      var q := (a - b) / b;
      ModUnique(a, b, q + 1, (a - b) % b);
    }
  }

  /**
   * How `slice` turns a relative index into an absolute one: a negative index
   * counts from the end, and the result is clamped to `[0, len]`.
   */
  function ClampIndex(k: int, len: nat): (r: nat)
    ensures r <= len
    ensures 0 <= k <= len ==> r == k
    ensures k > len ==> r == len
    ensures k < 0 ==> r == (if len + k < 0 then 0 else len + k)
  {
    if k < 0 then (if len + k < 0 then 0 else len + k)
    else if k > len then len
    else k
  }

  /** `s.slice(start, end)`: the contiguous window between the two clamped indices. */
  function Slice<T>(s: seq<T>, start: int, end: int): (r: seq<T>)
    ensures |r| == (if ClampIndex(start, |s|) < ClampIndex(end, |s|)
                    then ClampIndex(end, |s|) - ClampIndex(start, |s|) else 0)
    ensures forall i :: 0 <= i < |r| ==> r[i] == s[ClampIndex(start, |s|) + i]
  {
    var from, to := ClampIndex(start, |s|), ClampIndex(end, |s|);
    if from < to then s[from..to] else []
  }

  /**
   * `s.slice(0, n)` is the prefix up to the clamped `n`: for a non-negative `n`
   * the prefix of length `min(n, |s|)`.
   */
  lemma SlicePrefix<T>(s: seq<T>, n: int)
    ensures Slice(s, 0, n) == s[..ClampIndex(n, |s|)]
    ensures n >= 0 ==> Slice(s, 0, n) == s[..if n < |s| then n else |s|]
  {
    var r := Slice(s, 0, n);
    var k := ClampIndex(n, |s|);
    assert ClampIndex(0, |s|) == 0;
    assert |r| == k;
    forall i | 0 <= i < k ensures r[i] == s[..k][i] {
    }
  }

  /** The truthiness of an optional string: `undefined` and `''` are both falsy. */
  predicate TruthyString(s: Option<string>)
  {
    s.Some? && s.value != ""
  }

  /** The truthiness of an optional number: `undefined` and `0` are both falsy. */
  predicate TruthyNumber(n: Option<int>)
  {
    n.Some? && n.value != 0
  }
}
