/**
 * Q-format integer arithmetic of the fixed-point build (include/fixed_point_math.h).
 *
 * C's machine integers are modelled as subset types of `int`. Where C converts a value
 * to a narrower type (an `(int16_t)` or `(int32_t)` cast, a 32-bit product that exceeds
 * the range) the two's-complement wrap-around is written out with Wrap16/Wrap32.
 * An arithmetic right shift by k is floor division by 2^k; Dafny's `/` with a positive
 * divisor is exactly that (Euclidean division), so `x / 0x8000` models `x >> 15`.
 */
module FixedPointMath {

  type int8 = x: int | -0x80 <= x < 0x80
  type int16 = x: int | -0x8000 <= x < 0x8000
  type int32 = x: int | -0x8000_0000 <= x < 0x8000_0000

  predicate InInt16(x: int) { -0x8000 <= x < 0x8000 }
  predicate InInt32(x: int) { -0x8000_0000 <= x < 0x8000_0000 }

  /** 2^k */
  function Pow2(k: nat): (r: nat)
    ensures r >= 1
  {
    if k == 0 then 1 else 2 * Pow2(k - 1)
  }

  lemma {:induction false} Pow2Add(a: nat, b: nat)
    ensures Pow2(a + b) == Pow2(a) * Pow2(b)
  {
    if a > 0 {
      Pow2Add(a - 1, b);
      assert Pow2(a + b) == 2 * Pow2(a - 1 + b);
    }
  }

  lemma {:induction false} Pow2Monotone(a: nat, b: nat)
    requires a <= b
    ensures Pow2(a) <= Pow2(b)
  {
    if a < b {
      Pow2Monotone(a, b - 1);
    }
  }

  lemma MulMonotone(a: int, b: int, c: nat)
    requires a <= b
    ensures a * c <= b * c
  {
    assert b * c - a * c == (b - a) * c;
  }

  function Abs(x: int): nat { if x < 0 then -x else x }

  function Min(a: int, b: int): int { if a <= b then a else b }
  function Max(a: int, b: int): int { if a <= b then b else a }

  lemma MulAbsBound(a: int, b: int, ba: nat, bb: nat)
    requires Abs(a) <= ba && Abs(b) <= bb
    ensures -(ba * bb) <= a * b <= ba * bb
  {
    MulMonotone(Abs(a), ba, Abs(b));
    MulMonotone(Abs(b), bb, ba);
    assert a * b == Abs(a) * Abs(b) || a * b == -(Abs(a) * Abs(b));
  }

  /** Quotient and remainder are unique. */
  lemma DivModUnique(a: int, m: int, q: int, r: int)
    requires m > 0 && a == m * q + r && 0 <= r < m
    ensures a / m == q && a % m == r
  {
    var q0 := a / m;
    assert a == m * q0 + a % m;
    if q0 < q {
      MulMonotone(q0, q - 1, m);
      assert false;
    }
    if q0 > q {
      MulMonotone(q, q0 - 1, m);
      assert false;
    }
  }

  /** Two values that differ by a multiple of 2^16 convert to the same int16. */
  lemma Wrap16Congruent(a: int, b: int)
    requires (a - b) % 0x1_0000 == 0
    ensures Wrap16(a) == Wrap16(b)
  {
    var k := (a - b) / 0x1_0000;
    assert a - b == 0x1_0000 * k;
    DivModUnique(a, 0x1_0000, b / 0x1_0000 + k, b % 0x1_0000);
  }

  /** Negating before or after the int16 conversion gives the same int16. */
  lemma Wrap16Negate(m: int)
    ensures Wrap16(-(Wrap16(m) as int)) == Wrap16(-m)
  {
    var w: int := Wrap16(m);
    var k := (m - w) / 0x1_0000;
    assert m - w == 0x1_0000 * k;
    assert -m - (-w) == 0x1_0000 * (-k);
    DivModUnique(-m - (-w), 0x1_0000, -k, 0);
    Wrap16Congruent(-w, -m);
  }

  /** Floor division by a positive p maps [lo*p, (hi+1)*p) into [lo, hi]. */
  lemma FloorDivBounds(v: int, p: int, lo: int, hi: int)
    requires p > 0
    requires lo * p <= v < (hi + 1) * p
    ensures lo <= v / p <= hi
  {
    var q := v / p;
    var pn: nat := p;
    assert p * q <= v < p * q + p;
    if q < lo {
      MulMonotone(q, lo - 1, pn);
      assert false;
    }
    if q > hi {
      MulMonotone(hi + 1, q, pn);
      assert false;
    }
  }

  /** The powers the Q15 arithmetic and the saturation widths use. */
  lemma Pow2Values()
    ensures Pow2(7) == 0x80 && Pow2(14) == 0x4000 && Pow2(15) == 0x8000
    ensures Pow2(18) == 0x4_0000 && Pow2(31) == 0x8000_0000
  {
    assert Pow2(7) == 0x80;
    assert Pow2(14) == 0x4000;
    assert Pow2(18) == 0x4_0000;
    assert Pow2(31) == 0x8000_0000;
  }

  /** Conversion of any integer to int16 (two's-complement truncation). */
  function Wrap16(x: int): (r: int16)
    ensures (x - r) % 0x1_0000 == 0
    ensures InInt16(x) ==> r == x
  {
    var m := x % 0x1_0000;
    if m >= 0x8000 then m - 0x1_0000 else m
  }

  /** Conversion of any integer to int32 (two's-complement truncation). */
  function Wrap32(x: int): (r: int32)
    ensures (x - r) % 0x1_0000_0000 == 0
    ensures InInt32(x) ==> r == x
  {
    var m := x % 0x1_0000_0000;
    if m >= 0x8000_0000 then m - 0x1_0000_0000 else m
  }

  /** Smallest and largest value of a signed `bits`-bit integer. */
  function SMin(bits: nat): int
    requires bits >= 1
  {
    -(Pow2(bits - 1) as int)
  }

  function SMax(bits: nat): int
    requires bits >= 1
  {
    Pow2(bits - 1) - 1
  }

  /**
   * SLIMIT(val, num_bits): saturate a 32-bit value to the signed num_bits-bit range.
   * Shifting `1U` by num_bits - 1 is only defined for 1 <= num_bits <= 32, and negating
   * INT_MIN for num_bits = 32 overflows, hence the precondition.
   */
  function SLimit(val: int32, numBits: nat): (r: int32)
    requires 1 <= numBits <= 31
    ensures SMin(numBits) <= r <= SMax(numBits)
    ensures SMin(numBits) <= val <= SMax(numBits) ==> r == val
    ensures val > SMax(numBits) ==> r == SMax(numBits)
    ensures val < SMin(numBits) ==> r == SMin(numBits)
  {
    Pow2Monotone(numBits - 1, 30);
    var minval: int := -(Pow2(numBits - 1) as int);
    var maxval := -minval - 1;
    if val > maxval then maxval
    else if val < minval then minval
    else val
  }

  lemma SLimitIdempotent(val: int32, numBits: nat)
    requires 1 <= numBits <= 31
    ensures SLimit(SLimit(val, numBits), numBits) == SLimit(val, numBits)
  {
  }

  lemma SLimitMonotone(a: int32, b: int32, numBits: nat)
    requires 1 <= numBits <= 31
    requires a <= b
    ensures SLimit(a, numBits) <= SLimit(b, numBits)
  {
  }

  /** The values the SLIMIT harness feeds in: 2^15 + 1 and its negation, with 16 bits. */
  lemma SLimitHarnessValues()
    ensures SLimit(0x8001, 16) == 0x7FFF
    ensures SLimit(-0x8001, 16) == -0x8000
  {
    assert Pow2(15) == 0x8000;
  }

  /**
   * FMUL16x16: the product of two Q15 values is formed in 32 bits (it always fits),
   * shifted right by 15 and cast to int16. Only (-1.0) * (-1.0) leaves the int16 range,
   * and the cast then wraps it to -32768.
   */
  function FMul16x16(x: int16, y: int16): (r: int16)
    ensures !(x == -0x8000 && y == -0x8000) ==> r == (x * y) / 0x8000
    ensures x == -0x8000 && y == -0x8000 ==> r == -0x8000
  {
    FMul16x16Fits(x, y);
    Wrap16((x * y) / 0x8000)
  }

  lemma FMul16x16Fits(x: int16, y: int16)
    ensures !(x == -0x8000 && y == -0x8000) ==> InInt16((x * y) / 0x8000)
    ensures x == -0x8000 && y == -0x8000 ==> (x * y) / 0x8000 == 0x8000
  {
    if !(x == -0x8000 && y == -0x8000) {
      ProductBound(x, y);
    }
  }

  lemma ProductBound(x: int16, y: int16)
    requires !(x == -0x8000 && y == -0x8000)
    ensures -0x8000 * 0x7FFF <= x * y <= 0x7FFF * 0x8000
  {
    var ax: int := if x < 0 then -(x as int) else x;
    var ay: int := if y < 0 then -(y as int) else y;
    if ax == 0x8000 {
      assert ay <= 0x7FFF;
      assert ax * ay <= 0x8000 * 0x7FFF;
    } else {
      assert ax * ay <= 0x7FFF * 0x8000;
    }
    assert x * y == ax * ay || x * y == -(ax * ay);
  }

  /** FMUL32x16: 64-bit product, shifted right by 15, truncated to int32. */
  function FMul32x16(x: int32, y: int32): (r: int32)
    ensures InInt32((x * y) / 0x8000) ==> r == (x * y) / 0x8000
    ensures ((x * y) / 0x8000 - r) % 0x1_0000_0000 == 0
  {
    Wrap32((x * y) / 0x8000)
  }

  /** FMUL32x32: 64-bit product, shifted right by 31, truncated to int32. */
  function FMul32x32(x: int32, y: int32): (r: int32)
    ensures InInt32((x * y) / 0x8000_0000) ==> r == (x * y) / 0x8000_0000
    ensures ((x * y) / 0x8000_0000 - r) % 0x1_0000_0000 == 0
  {
    Wrap32((x * y) / 0x8000_0000)
  }

  /** IMUL: plain 32-bit product, no saturation (wraps when it does not fit). */
  function IMul(x: int32, y: int32): (r: int32)
    ensures InInt32(x * y) ==> r == x * y
    ensures (x * y - r) % 0x1_0000_0000 == 0
  {
    Wrap32(x * y)
  }

  /** FADD16: plain 32-bit sum, no saturation. */
  function FAdd16(x: int32, y: int32): (r: int32)
    ensures InInt32(x + y) ==> r == x + y
    ensures (x + y - r) % 0x1_0000_0000 == 0
  {
    Wrap32(x + y)
  }

  /** Two int16 operands never make FADD16 wrap. */
  lemma FAdd16OfInt16(x: int16, y: int16)
    ensures FAdd16(x, y) == x + y
  {
  }
}
