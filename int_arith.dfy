/**
 * Machine-integer vocabulary shared by every component of the firmware model.
 *
 * All values are mathematical integers; the C widths are recovered with the
 * range predicates below and with explicit narrowing functions wherever the
 * firmware relies on (or suffers from) wrap-around.  C's `/` and `%` truncate
 * toward zero and are written `CDiv` / `CRem`; an arithmetic right shift of a
 * signed value is a floor division, which is Dafny's `/` by a positive power
 * of two.
 */
module IntArith {

  const TWO8: int := 0x100
  const TWO15: int := 0x8000
  const TWO16: int := 0x1_0000
  const TWO31: int := 0x8000_0000
  const TWO32: int := 0x1_0000_0000
  const TWO63: int := 0x8000_0000_0000_0000
  const TWO64: int := 0x1_0000_0000_0000_0000

  /** 2^n. */
  function Pow2(n: nat): (r: nat)
    ensures r >= 1
    ensures n >= 1 ==> r % 2 == 0
  {
    if n == 0 then 1 else 2 * Pow2(n - 1)
  }

  lemma {:induction false} Pow2Add(a: nat, b: nat)
    ensures Pow2(a + b) == Pow2(a) * Pow2(b)
  {
    if a > 0 {
      Pow2Add(a - 1, b);
    }
  }

  lemma {:induction false} Pow2Monotone(a: nat, b: nat)
    requires a <= b
    ensures Pow2(a) <= Pow2(b)
  {
    if a < b {
      Pow2Monotone(a, b - 1);
    }
  }

  lemma Pow2Values()
    ensures Pow2(4) == 16 && Pow2(8) == 256 && Pow2(12) == 4096 && Pow2(15) == TWO15
    ensures Pow2(16) == TWO16 && Pow2(31) == TWO31 && Pow2(32) == TWO32
  {
    assert Pow2(4) == 16;
    assert Pow2(8) == 256 by { Pow2Add(4, 4); }
    assert Pow2(12) == 4096 by { Pow2Add(8, 4); }
    assert Pow2(15) == TWO15 by { Pow2Add(12, 3); }
    assert Pow2(16) == TWO16 by { Pow2Add(8, 8); }
    assert Pow2(31) == TWO31 by { Pow2Add(16, 15); }
    assert Pow2(32) == TWO32 by { Pow2Add(16, 16); }
  }

  /** Multiplying both sides by a non-negative factor preserves `<=`. */
  lemma MulLe(a: int, b: int, d: int)
    requires a <= b && d >= 0
    ensures a * d <= b * d
  {
  }

  /** Euclidean division is determined by any quotient/remainder pair. */
  lemma DivModUnique(x: int, d: int, q: int, r: int)
    requires d > 0 && 0 <= r < d && x == q * d + r
    ensures x / d == q && x % d == r
  {
    var q0, r0 := x / d, x % d;
    assert x == q0 * d + r0;
    assert (q0 - q) * d == r - r0;
    if q0 >= q + 1 {
      MulLe(q + 1, q0, d);
    }
    if q >= q0 + 1 {
      MulLe(q0 + 1, q, d);
    }
  }

  /** Two numbers less than n apart have different residues modulo n. */
  lemma ResidueDistinct(k: int, m: int, n: int)
    requires n > 0 && m - n < k < m
    ensures k % n != m % n
  {
    if k % n == m % n {
      DivModUnique(m - k, n, m / n - k / n, 0);
    }
  }

  /** A quotient of a value below d·n by d is below n. */
  lemma DivBound(x: int, d: int, n: int)
    requires d > 0 && 0 <= x < d * n
    ensures 0 <= x / d < n
  {
    var q := x / d;
    assert x == q * d + x % d;
    if q >= n {
      MulLe(n, q, d);
    }
  }

  /** Dividing twice is dividing by the product. */
  lemma DivDiv(x: int, a: int, b: int)
    requires a > 0 && b > 0
    ensures (x / a) / b == x / (a * b)
  {
    var q, r := x / a, x % a;
    var q2, r2 := q / b, q % b;
    assert x == q * a + r;
    assert q == q2 * b + r2;
    assert q * a == q2 * (a * b) + r2 * a;
    MulLe(r2, b - 1, a);
    assert (b - 1) * a == a * b - a;
    DivModUnique(x, a * b, q2, r2 * a + r);
  }

  /** Division by a positive constant is monotone. */
  lemma DivMonotone(x: int, y: int, d: int)
    requires d > 0 && x <= y
    ensures x / d <= y / d
  {
    assert x == (x / d) * d + x % d;
    assert y == (y / d) * d + y % d;
    if x / d > y / d {
      MulLe(y / d + 1, x / d, d);
    }
  }

  /** Dividing a non-negative number by a positive one never makes it larger. */
  lemma DivAtMost(x: int, d: int)
    requires x >= 0 && d >= 1
    ensures 0 <= x / d <= x
  {
    DivMonotone(0, x, d);
    assert x == (x / d) * d + x % d;
    MulLe(1, d, x / d);
  }

  /** Monotonicity of multiplication on non-negative factors. */
  lemma MulMono(x: int, y: int, mx: int, my: int)
    requires 0 <= x <= mx && 0 <= y <= my
    ensures x * y <= mx * my
  {
    MulLe(x, mx, y);
    MulLe(y, my, mx);
  }

  /** An octet of a file or a buffer. */
  type Byte = x: int | 0 <= x < 0x100

  predicate IsU8(x: int) { 0 <= x < TWO8 }
  predicate IsU16(x: int) { 0 <= x < TWO16 }
  predicate IsU32(x: int) { 0 <= x < TWO32 }
  predicate IsU64(x: int) { 0 <= x < TWO64 }
  predicate IsI8(x: int) { -128 <= x < 128 }
  predicate IsI16(x: int) { -TWO15 <= x < TWO15 }
  predicate IsI32(x: int) { -TWO31 <= x < TWO31 }
  predicate IsI64(x: int) { -TWO63 <= x < TWO63 }

  /** Conversion to an unsigned 8/16/32/64-bit type: reduction modulo 2^w. */
  function U8(x: int): (r: int)
    ensures IsU8(r) && (IsU8(x) ==> r == x)
  {
    x % TWO8
  }

  function U16(x: int): (r: int)
    ensures IsU16(r) && (IsU16(x) ==> r == x)
  {
    x % TWO16
  }

  function U32(x: int): (r: int)
    ensures IsU32(r) && (IsU32(x) ==> r == x)
  {
    x % TWO32
  }

  function U64(x: int): (r: int)
    ensures IsU64(r) && (IsU64(x) ==> r == x)
  {
    x % TWO64
  }

  /** Conversion to a signed two's-complement type (the RP2040 compilers wrap). */
  /**
   * The uint32 difference `now - since` of two millisecond or microsecond
   * timestamps, which wraps once across the counter's overflow.
   */
  function Since(now: int, since: int): (d: int)
    requires IsU32(now) && IsU32(since)
    ensures IsU32(d) && d == U32(now - since)
    ensures now >= since ==> d == now - since
  {
    if now >= since then now - since
    else
      DivModUnique(now - since, TWO32, -1, now - since + TWO32);
      now - since + TWO32
  }

  function I8(x: int): (r: int)
    ensures IsI8(r) && (IsI8(x) ==> r == x)
    ensures (r - x) % TWO8 == 0
  {
    (x + 128) % TWO8 - 128
  }

  function I16(x: int): (r: int)
    ensures IsI16(r) && (IsI16(x) ==> r == x)
    ensures (r - x) % TWO16 == 0
  {
    (x + TWO15) % TWO16 - TWO15
  }

  function I32(x: int): (r: int)
    ensures IsI32(r) && (IsI32(x) ==> r == x)
    ensures (r - x) % TWO32 == 0
  {
    (x + TWO31) % TWO32 - TWO31
  }

  function I64(x: int): (r: int)
    ensures IsI64(r) && (IsI64(x) ==> r == x)
    ensures (r - x) % TWO64 == 0
  {
    (x + TWO63) % TWO64 - TWO63
  }

  function Min(a: int, b: int): (r: int)
    ensures r <= a && r <= b && (r == a || r == b)
  {
    if a < b then a else b
  }

  function Max(a: int, b: int): (r: int)
    ensures r >= a && r >= b && (r == a || r == b)
  {
    if a > b then a else b
  }

  function Abs(x: int): (r: nat)
    ensures r == x || r == -x
  {
    if x < 0 then -x else x
  }

  /** Clamp `x` into `[lo, hi]` (Arduino `constrain`). */
  function Clamp(x: int, lo: int, hi: int): (r: int)
    requires lo <= hi
    ensures lo <= r <= hi
    ensures lo <= x <= hi ==> r == x
    ensures x < lo ==> r == lo
    ensures x > hi ==> r == hi
  {
    if x < lo then lo else if x > hi then hi else x
  }

  /** Saturation into the int16 range. */
  function Sat16(x: int): (r: int)
    ensures IsI16(r)
    ensures IsI16(x) ==> r == x
    ensures x >= TWO15 ==> r == TWO15 - 1
    ensures x < -TWO15 ==> r == -TWO15
  {
    Clamp(x, -TWO15, TWO15 - 1)
  }

  /** C integer division: the quotient is truncated toward zero. */
  function CDiv(a: int, b: int): int
    requires b != 0
  {
    var aa: nat := if a < 0 then -a else a;
    var bb: nat := if b < 0 then -b else b;
    if (a < 0) == (b < 0) then aa / bb else -(aa / bb)
  }

  /** C remainder: it has the sign of the dividend. */
  function CRem(a: int, b: int): int
    requires b != 0
  {
    a - CDiv(a, b) * b
  }

  /** A floor division by a positive divisor lies between 0 and the dividend. */
  lemma FloorDivBetween(x: int, d: int)
    requires d >= 1
    ensures x >= 0 ==> 0 <= x / d <= x
    ensures x < 0 ==> x <= x / d <= 0
  {
    var q := x / d;
    DivModUnique(x, d, q, x % d);
    if x >= 0 {
      DivMonotone(0, x, d);
      MulLe(1, d, q);
    } else {
      DivMonotone(x, 0, d);
      if q < x {
        MulLe(q, x - 1, d);
        MulLe(x, 0, d - 1);
        assert false;
      }
    }
  }

  /** `(d·c) / D` for a fraction 0 <= c < D lies between 0 and d, and is 0 when c is. */
  lemma FractionBetween(d: int, c: int, D: int)
    requires 0 <= c < D
    ensures d >= 0 ==> 0 <= (d * c) / D <= d
    ensures d < 0 ==> d <= (d * c) / D <= 0
    ensures c == 0 ==> (d * c) / D == 0
  {
    if d >= 0 {
      MulLe(c, D, d);
      DivModUnique(d * D, D, d, 0);
      DivMonotone(d * c, d * D, D);
      DivMonotone(0, d * c, D);
    } else {
      MulLe(c, D, -d);
      DivModUnique(d * D, D, d, 0);
      DivMonotone(d * D, d * c, D);
      DivMonotone(d * c, 0, D);
    }
  }

  /** The sum of a sequence, accumulated from the front. */
  function SeqSum(s: seq<int>): int
  {
    if |s| == 0 then 0 else SeqSum(s[..|s| - 1]) + s[|s| - 1]
  }

  lemma {:induction false} SeqSumAppend(a: seq<int>, b: seq<int>)
    ensures SeqSum(a + b) == SeqSum(a) + SeqSum(b)
    decreases |b|
  {
    if |b| > 0 {
      assert (a + b)[..|a + b| - 1] == a + b[..|b| - 1];
      assert (a + b)[|a + b| - 1] == b[|b| - 1];
      SeqSumAppend(a, b[..|b| - 1]);
    } else {
      assert a + b == a;
    }
  }

  /** Overwriting one element changes the sum by the difference. */
  lemma SeqSumUpdate(s: seq<int>, i: int, v: int)
    requires 0 <= i < |s|
    ensures SeqSum(s[i := v]) == SeqSum(s) - s[i] + v
  {
    assert s == s[..i] + [s[i]] + s[i + 1..];
    assert s[i := v] == s[..i] + [v] + s[i + 1..];
    SeqSumAppend(s[..i] + [s[i]], s[i + 1..]);
    SeqSumAppend(s[..i] + [v], s[i + 1..]);
    SeqSumAppend(s[..i], [s[i]]);
    SeqSumAppend(s[..i], [v]);
  }

  /** A sequence of n copies of c sums to n·c. */
  lemma {:induction false} SeqSumConst(n: nat, c: int)
    ensures SeqSum(seq(n, _ => c)) == n * c
    decreases n
  {
    if n > 0 {
      assert seq(n, _ => c)[..n - 1] == seq(n - 1, _ => c);
      SeqSumConst(n - 1, c);
    }
  }

  /** With every element in [0, hi], each element is at most the sum and the sum at most |s|·hi. */
  lemma {:induction false} SeqSumBounds(s: seq<int>, hi: int)
    requires forall j :: 0 <= j < |s| ==> 0 <= s[j] <= hi
    ensures 0 <= SeqSum(s) <= |s| * hi
    ensures forall j :: 0 <= j < |s| ==> s[j] <= SeqSum(s)
    decreases |s|
  {
    if |s| > 0 {
      var t := s[..|s| - 1];
      SeqSumBounds(t, hi);
      assert forall j :: 0 <= j < |t| ==> t[j] == s[j];
    }
  }
}
