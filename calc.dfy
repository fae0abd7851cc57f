/** `Calc.roundUp`: rounds a positive integer up to a multiple of another,
    used to size GPU buffers to 16-byte multiples. */
module Calc {
  import opened Wrappers
  import opened JsNumber

  datatype CalcError = NotPositiveInteger

  /** `m` is the least multiple of `k` that is not below `n`. */
  ghost predicate LeastMultipleAtLeast(k: int, n: int, m: int)
    requires k > 0
  {
    m % k == 0 && n <= m && forall q: int :: q % k == 0 && n <= q ==> m <= q
  }

  /** `Math.ceil(n / k) * k`, after the guard that both arguments are positive integers. */
  function RoundUp(k: real, n: real): (r: Result<int, CalcError>)
    ensures r.Failure? <==> k <= 0.0 || n <= 0.0 || !IsInteger(k) || !IsInteger(n)
    ensures r.Success? ==> r.value % k.Floor == 0
    ensures r.Success? ==> n <= r.value as real < n + k
  {
    if k <= 0.0 || n <= 0.0 || !IsInteger(k) || !IsInteger(n) then
      Failure(NotPositiveInteger)
    else
      var kk, nn := k.Floor, n.Floor;
      CeilDivBounds(kk, nn);
      Success(((nn + kk - 1) / kk) * kk)
  }

  /** Bounds of `ceil(n / k) * k` on integers. */
  lemma CeilDivBounds(k: int, n: int)
    requires k > 0
    ensures ((n + k - 1) / k) * k % k == 0
    ensures n <= ((n + k - 1) / k) * k < n + k
  {
    var q, rem := (n + k - 1) / k, (n + k - 1) % k;
    assert n + k - 1 == q * k + rem;
    assert (q * k) % k == 0 by { MultipleMod(q, k); }
  }

  lemma MultipleMod(q: int, k: int)
    requires k > 0
    ensures (q * k) % k == 0
  {
    var x := q * k;
    var d := q - x / k;
    assert x % k == d * k;
    if d >= 1 {
      ScaleAtLeast(d, k);
    } else if d <= -1 {
      ScaleAtLeast(-d, k);
    }
  }

  /** A positive integer multiple of k is at least k. */
  lemma ScaleAtLeast(d: int, k: int)
    requires d >= 1 && k > 0
    ensures d * k >= k
  {
    assert d * k == (d - 1) * k + k;
  }

  /** The result is the least multiple of k not below n. */
  lemma {:induction false} RoundUpIsLeast(k: real, n: real)
    requires RoundUp(k, n).Success?
    ensures LeastMultipleAtLeast(k.Floor, n.Floor, RoundUp(k, n).value)
  {
    var kk, nn, m := k.Floor, n.Floor, RoundUp(k, n).value;
    assert nn as real == n;
    forall q: int | q % kk == 0 && nn <= q
      ensures m <= q
    {
      if q < m {
        var d := m / kk - q / kk;
        assert m - q == d * kk;
        ScaleAtLeast(d, kk);
      }
    }
  }

  /** A multiple of k is its own round-up, so rounding up twice is rounding up once. */
  lemma {:induction false} RoundUpIdempotent(k: real, n: real)
    requires RoundUp(k, n).Success?
    ensures RoundUp(k, RoundUp(k, n).value as real) == RoundUp(k, n)
  {
    var m := RoundUp(k, n).value;
    var m' := RoundUp(k, m as real);
    assert m' .Success?;
    RoundUpIsLeast(k, n);
    RoundUpIsLeast(k, m as real);
    assert (m as real).Floor == m;
    assert m'.value <= m;
    assert m <= m'.value;
  }

  /** A props blob of 3 floats (12 bytes) gets a 16-byte buffer; the 2048-byte
      vertex array is already aligned. */
  lemma BufferSizes()
    ensures RoundUp(16.0, 12.0) == Success(16)
    ensures RoundUp(16.0, 16.0) == Success(16)
    ensures RoundUp(16.0, 2048.0) == Success(2048)
  {
  }
}
