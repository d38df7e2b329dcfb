/**
 * The fixed-point vector kernels of src/dsplib.c.
 *
 * A strided vector of N elements with stride s occupies offsets 0, s, 2s, ...,
 * (N-1)s of its buffer. Read-only (`const`) operands are sequences; the output
 * buffer is an array the kernel writes in place. A kernel that stores its result
 * through a scalar pointer returns it instead.
 */
module DspLib {
  import opened FixedPointMath

  /** Offset of the i-th element of a vector with stride s. */
  function Strided(i: nat, s: nat): nat { i * s }

  /** Every one of the first n strided offsets lies inside a buffer of length len. */
  predicate StridedWithin(n: nat, s: nat, len: nat)
  {
    forall i :: 0 <= i < n ==> Strided(i, s) < len
  }

  /** Offset k is one of the first n offsets of a vector with stride s. */
  predicate OnGrid(k: nat, n: nat, s: nat)
  {
    n > 0 && (k == Strided(n - 1, s) || OnGrid(k, n - 1, s))
  }

  /** With a positive stride, distinct indices have distinct offsets. */
  lemma StridedIncreasing(j: nat, i: nat, s: nat)
    requires j < i && s > 0
    ensures Strided(j, s) < Strided(i, s)
  {
    MulMonotone(j + 1, i, s);
  }

  /** JMPDSP_vclr_S16: zero the first N elements; nothing else changes. */
  method VClrS16(C: array<int16>, iC: nat, N: nat)
    requires StridedWithin(N, iC, C.Length)
    modifies C
    ensures forall i :: 0 <= i < N ==> C[Strided(i, iC)] == 0
    ensures forall k :: 0 <= k < C.Length && !OnGrid(k, N, iC) ==> C[k] == old(C[k])
  {
    var i := 0;
    while i < N
      invariant 0 <= i <= N
      invariant forall j :: 0 <= j < i ==> C[Strided(j, iC)] == 0
      invariant forall k :: 0 <= k < C.Length && !OnGrid(k, i, iC) ==> C[k] == old(C[k])
    {
      C[Strided(i, iC)] := 0;
      i := i + 1;
    }
  }

  /** JMPDSP_vclr_S32: zero the first N elements; nothing else changes. */
  method VClrS32(C: array<int32>, iC: nat, N: nat)
    requires StridedWithin(N, iC, C.Length)
    modifies C
    ensures forall i :: 0 <= i < N ==> C[Strided(i, iC)] == 0
    ensures forall k :: 0 <= k < C.Length && !OnGrid(k, N, iC) ==> C[k] == old(C[k])
  {
    var i := 0;
    while i < N
      invariant 0 <= i <= N
      invariant forall j :: 0 <= j < i ==> C[Strided(j, iC)] == 0
      invariant forall k :: 0 <= k < C.Length && !OnGrid(k, i, iC) ==> C[k] == old(C[k])
    {
      C[Strided(i, iC)] := 0;
      i := i + 1;
    }
  }

  /** JMPDSP_vmul_S16: elementwise Q15 product. */
  method VMulS16(A: seq<int16>, iA: nat, B: seq<int16>, iB: nat, C: array<int16>, iC: nat, N: nat)
    requires StridedWithin(N, iA, |A|) && StridedWithin(N, iB, |B|)
    requires StridedWithin(N, iC, C.Length) && iC > 0
    modifies C
    ensures forall i :: 0 <= i < N ==> C[Strided(i, iC)] == FMul16x16(A[Strided(i, iA)], B[Strided(i, iB)])
    ensures forall k :: 0 <= k < C.Length && !OnGrid(k, N, iC) ==> C[k] == old(C[k])
  {
    var i := 0;
    while i < N
      invariant 0 <= i <= N
      invariant forall j :: 0 <= j < i ==> C[Strided(j, iC)] == FMul16x16(A[Strided(j, iA)], B[Strided(j, iB)])
      invariant forall k :: 0 <= k < C.Length && !OnGrid(k, i, iC) ==> C[k] == old(C[k])
    {
      forall j | 0 <= j < i ensures Strided(j, iC) < Strided(i, iC) {
        StridedIncreasing(j, i, iC);
      }
      C[Strided(i, iC)] := FMul16x16(A[Strided(i, iA)], B[Strided(i, iB)]);
      i := i + 1;
    }
  }

  /** JMPDSP_vsmul_S16: every element is multiplied (Q15) by the same scalar `*B`. */
  method VSMulS16(A: seq<int16>, iA: nat, b: int16, C: array<int16>, iC: nat, N: nat)
    requires StridedWithin(N, iA, |A|)
    requires StridedWithin(N, iC, C.Length) && iC > 0
    modifies C
    ensures forall i :: 0 <= i < N ==> C[Strided(i, iC)] == FMul16x16(A[Strided(i, iA)], b)
    ensures forall k :: 0 <= k < C.Length && !OnGrid(k, N, iC) ==> C[k] == old(C[k])
  {
    var i := 0;
    while i < N
      invariant 0 <= i <= N
      invariant forall j :: 0 <= j < i ==> C[Strided(j, iC)] == FMul16x16(A[Strided(j, iA)], b)
      invariant forall k :: 0 <= k < C.Length && !OnGrid(k, i, iC) ==> C[k] == old(C[k])
    {
      forall j | 0 <= j < i ensures Strided(j, iC) < Strided(i, iC) {
        StridedIncreasing(j, i, iC);
      }
      C[Strided(i, iC)] := FMul16x16(A[Strided(i, iA)], b);
      i := i + 1;
    }
  }

  /**
   * One element of JMPDSP_vadd_S16 as written: the 32-bit sum saturated to 15 bits,
   * i.e. to [-16384, 16383], not to the int16 range.
   */
  function AddSat15(a: int16, b: int16): (r: int16)
    ensures -0x4000 <= r <= 0x3FFF
    ensures -0x4000 <= a + b <= 0x3FFF ==> r == a + b
    ensures a + b > 0x3FFF ==> r == 0x3FFF
    ensures a + b < -0x4000 ==> r == -0x4000
  {
    Pow2Values();
    SLimit(FAdd16(a, b), 15)
  }

  /** The int16-saturating sum that an int16 vector add is evidently meant to compute. */
  function AddSat16(a: int16, b: int16): (r: int16)
    ensures InInt16(a + b) ==> r == a + b
    ensures a + b > 0x7FFF ==> r == 0x7FFF
    ensures a + b < -0x8000 ==> r == -0x8000
  {
    Pow2Values();
    SLimit(FAdd16(a, b), 16)
  }

  /** Two in-range int16 values whose sum fits int16 but is changed by the 15-bit clamp. */
  lemma AddSat15Clips()
    ensures AddSat15(10000, 10000) == 0x3FFF
    ensures AddSat16(10000, 10000) == 20000
  {
  }

  /** JMPDSP_vadd_S16: elementwise sum saturated with SLIMIT(..., 15). */
  method VAddS16(A: seq<int16>, iA: nat, B: seq<int16>, iB: nat, C: array<int16>, iC: nat, N: nat)
    requires StridedWithin(N, iA, |A|) && StridedWithin(N, iB, |B|)
    requires StridedWithin(N, iC, C.Length) && iC > 0
    modifies C
    ensures forall i :: 0 <= i < N ==> C[Strided(i, iC)] == AddSat15(A[Strided(i, iA)], B[Strided(i, iB)])
    ensures forall k :: 0 <= k < C.Length && !OnGrid(k, N, iC) ==> C[k] == old(C[k])
  {
    var i := 0;
    while i < N
      invariant 0 <= i <= N
      invariant forall j :: 0 <= j < i ==> C[Strided(j, iC)] == AddSat15(A[Strided(j, iA)], B[Strided(j, iB)])
      invariant forall k :: 0 <= k < C.Length && !OnGrid(k, i, iC) ==> C[k] == old(C[k])
    {
      forall j | 0 <= j < i ensures Strided(j, iC) < Strided(i, iC) {
        StridedIncreasing(j, i, iC);
      }
      C[Strided(i, iC)] := AddSat15(A[Strided(i, iA)], B[Strided(i, iB)]);
      i := i + 1;
    }
  }

  /** Sum of the first n strided elements. */
  function StridedSum(A: seq<int16>, iA: nat, n: nat): int
    requires StridedWithin(n, iA, |A|)
  {
    if n == 0 then 0 else StridedSum(A, iA, n - 1) + A[Strided(n - 1, iA)]
  }

  lemma {:induction false} StridedSumBounds(A: seq<int16>, iA: nat, n: nat)
    requires StridedWithin(n, iA, |A|)
    ensures -0x8000 * n <= StridedSum(A, iA, n) <= 0x7FFF * n
  {
    if n > 0 {
      StridedSumBounds(A, iA, n - 1);
    }
  }

  /**
   * `*C = sum / N` as written: N is unsigned, so the int32 sum is converted to
   * unsigned (taken modulo 2^32) before the division, and the unsigned quotient is
   * then truncated to int16.
   */
  function MeanAsWritten(A: seq<int16>, iA: nat, N: nat): (r: int16)
    requires 1 <= N < 0x1_0000_0000
    requires StridedWithin(N, iA, |A|)
    requires InInt32(StridedSum(A, iA, N))
    ensures StridedSum(A, iA, N) >= 0 ==> r == StridedSum(A, iA, N) / N
  {
    var sum := StridedSum(A, iA, N);
    if sum >= 0 then
      StridedSumBounds(A, iA, N);
      FloorDivBounds(sum, N, 0, 0x7FFF);
      Wrap16((sum % 0x1_0000_0000) / N)
    else
      Wrap16((sum % 0x1_0000_0000) / N)
  }

  /** C's signed division, which truncates toward zero. */
  function TruncDiv(x: int, d: nat): (r: int)
    requires d > 0
    ensures x >= 0 ==> r == x / d
    ensures x < 0 ==> r == -((-x) / d)
  {
    if x >= 0 then x / d else -((-x) / d)
  }

  /**
   * The mean with a signed division, as evidently intended: the truncated mean of
   * int16 samples always fits int16 (no wrap-around).
   */
  function MeanSigned(A: seq<int16>, iA: nat, N: nat): (r: int16)
    requires 1 <= N
    requires StridedWithin(N, iA, |A|)
    ensures r == TruncDiv(StridedSum(A, iA, N), N)
  {
    var sum := StridedSum(A, iA, N);
    StridedSumBounds(A, iA, N);
    if sum >= 0 then
      FloorDivBounds(sum, N, 0, 0x7FFF);
      sum / N
    else
      FloorDivBounds(-sum, N, 0, 0x8000);
      -((-sum) / N)
  }

  /** The two agree on a non-negative sum; a negative sum breaks the as-written mean. */
  lemma MeanAgreesOnNonNegativeSums(A: seq<int16>, iA: nat, N: nat)
    requires 1 <= N < 0x1_0000_0000
    requires StridedWithin(N, iA, |A|)
    requires InInt32(StridedSum(A, iA, N))
    requires StridedSum(A, iA, N) >= 0
    ensures MeanAsWritten(A, iA, N) == MeanSigned(A, iA, N)
  {
  }

  lemma MeanOfMinusOnes()
    ensures MeanAsWritten([-1, -1, -1], 1, 3) == 21844
    ensures MeanSigned([-1, -1, -1], 1, 3) == -1
  {
    var A: seq<int16> := [-1, -1, -1];
    assert StridedWithin(3, 1, |A|);
    assert StridedSum(A, 1, 1) == -1;
    assert StridedSum(A, 1, 2) == -2;
    assert StridedSum(A, 1, 3) == -3;
  }

  /** JMPDSP_meanv_S16; the running int32 sum must not overflow (C leaves that undefined). */
  method MeanvS16(A: seq<int16>, iA: nat, N: nat) returns (c: int16)
    requires 1 <= N < 0x1_0000_0000
    requires StridedWithin(N, iA, |A|)
    requires forall k :: 0 <= k <= N ==> InInt32(StridedSum(A, iA, k))
    ensures c == MeanAsWritten(A, iA, N)
    ensures StridedSum(A, iA, N) >= 0 ==> c == StridedSum(A, iA, N) / N
  {
    var sum: int32 := 0;
    var i := 0;
    while i < N
      invariant 0 <= i <= N
      invariant sum == StridedSum(A, iA, i)
    {
      assert InInt32(StridedSum(A, iA, i + 1));
      sum := sum + A[Strided(i, iA)];
      i := i + 1;
    }
    c := Wrap16((sum % 0x1_0000_0000) / N);
  }

  /** JMPDSP_maxv_S16: the largest of the N elements (A[0] when N is 0, which C reads anyway). */
  method MaxvS16(A: seq<int16>, iA: nat, N: nat) returns (m: int16)
    requires |A| >= 1
    requires StridedWithin(N, iA, |A|)
    ensures forall i :: 0 <= i < N ==> A[Strided(i, iA)] <= m
    ensures N >= 1 ==> exists i :: 0 <= i < N && m == A[Strided(i, iA)]
    ensures N == 0 ==> m == A[0]
  {
    m := A[0];
    assert Strided(0, iA) == 0;
    var i := 1;
    while i < N
      invariant N >= 1 ==> 1 <= i <= N
      invariant forall j :: 0 <= j < i && j < N ==> A[Strided(j, iA)] <= m
      invariant exists j :: 0 <= j < i && (j < N || j == 0) && m == A[Strided(j, iA)]
    {
      if A[Strided(i, iA)] > m {
        m := A[Strided(i, iA)];
      }
      i := i + 1;
    }
  }

  /** JMPDSP_minv_S16: the smallest of the N elements (A[0] when N is 0). */
  method MinvS16(A: seq<int16>, iA: nat, N: nat) returns (m: int16)
    requires |A| >= 1
    requires StridedWithin(N, iA, |A|)
    ensures forall i :: 0 <= i < N ==> m <= A[Strided(i, iA)]
    ensures N >= 1 ==> exists i :: 0 <= i < N && m == A[Strided(i, iA)]
    ensures N == 0 ==> m == A[0]
  {
    m := A[0];
    assert Strided(0, iA) == 0;
    var i := 1;
    while i < N
      invariant N >= 1 ==> 1 <= i <= N
      invariant forall j :: 0 <= j < i && j < N ==> m <= A[Strided(j, iA)]
      invariant exists j :: 0 <= j < i && (j < N || j == 0) && m == A[Strided(j, iA)]
    {
      if A[Strided(i, iA)] < m {
        m := A[Strided(i, iA)];
      }
      i := i + 1;
    }
  }

  /** One element of JMPDSP_vclip_S16: the lower bound is tested first. */
  function Clip(a: int16, lo: int16, hi: int16): (r: int16)
    ensures lo <= hi ==> lo <= r <= hi
    ensures lo <= a <= hi ==> r == a
    ensures a < lo ==> r == lo
    ensures lo <= a && hi < a ==> r == hi
  {
    if a < lo then lo else if a > hi then hi else a
  }

  /** JMPDSP_vclip_S16. */
  method VClipS16(A: seq<int16>, iA: nat, L: int16, H: int16, D: array<int16>, iD: nat, N: nat)
    requires StridedWithin(N, iA, |A|)
    requires StridedWithin(N, iD, D.Length) && iD > 0
    modifies D
    ensures forall i :: 0 <= i < N ==> D[Strided(i, iD)] == Clip(A[Strided(i, iA)], L, H)
    ensures forall k :: 0 <= k < D.Length && !OnGrid(k, N, iD) ==> D[k] == old(D[k])
  {
    var i := 0;
    while i < N
      invariant 0 <= i <= N
      invariant forall j :: 0 <= j < i ==> D[Strided(j, iD)] == Clip(A[Strided(j, iA)], L, H)
      invariant forall k :: 0 <= k < D.Length && !OnGrid(k, i, iD) ==> D[k] == old(D[k])
    {
      forall j | 0 <= j < i ensures Strided(j, iD) < Strided(i, iD) {
        StridedIncreasing(j, i, iD);
      }
      var a := A[Strided(i, iA)];
      if a < L {
        D[Strided(i, iD)] := L;
      } else if a > H {
        D[Strided(i, iD)] := H;
      } else {
        D[Strided(i, iD)] := a;
      }
      i := i + 1;
    }
  }

  /** Sum of A[i] * W[i] over i < n (unit stride). */
  function Dot(W: seq<int8>, A: seq<int16>, n: nat): int
    requires n <= |W| && n <= |A|
  {
    if n == 0 then 0 else Dot(W, A, n - 1) + A[n - 1] * W[n - 1]
  }

  /** Every int8 by int16 product is at most 2^22 in magnitude. */
  lemma ProductS8S16Bound(w: int8, a: int16)
    ensures -0x40_0000 <= a * w <= 0x40_0000
  {
    var aw: int := if w < 0 then -(w as int) else w;
    var aa: int := if a < 0 then -(a as int) else a;
    MulMonotone(aw, 0x80, aa);
    MulMonotone(aa, 0x8000, 0x80);
    assert a * w == aw * aa || a * w == -(aw * aa);
  }

  lemma {:induction false} DotBound(W: seq<int8>, A: seq<int16>, n: nat)
    requires n <= |W| && n <= |A|
    ensures -0x40_0000 * n <= Dot(W, A, n) <= 0x40_0000 * n
  {
    if n > 0 {
      DotBound(W, A, n - 1);
      ProductS8S16Bound(W[n - 1], A[n - 1]);
    }
  }

  /** The accumulation from c never overflows int32 at any step. */
  predicate DotFits(W: seq<int8>, A: seq<int16>, c: int, N: nat)
    requires N <= |W| && N <= |A|
  {
    forall k :: 0 <= k <= N ==> InInt32(c + Dot(W, A, k))
  }

  /** JMPDSP_dot_prod_S8S16_S32: `*C` plus the dot product, in 32 bits. */
  method DotProdS8S16S32(W: seq<int8>, A: seq<int16>, c: int32, N: nat) returns (r: int32)
    requires N <= |W| && N <= |A|
    requires DotFits(W, A, c, N)
    ensures r == c + Dot(W, A, N)
  {
    r := c;
    var i := 0;
    while i < N
      invariant 0 <= i <= N
      invariant r == c + Dot(W, A, i)
    {
      assert InInt32(c + Dot(W, A, i + 1));
      r := r + A[i] * W[i];
      i := i + 1;
    }
  }

  /** A value saturated to n + 23 bits and shifted right by n + 7 fits int16. */
  lemma SaturatedShiftFits(acc: int, n: nat)
    requires SMin(n + 23) <= acc <= SMax(n + 23)
    ensures InInt16(acc / Pow2(n + 7))
  {
    Pow2Add(n + 7, 15);
    assert n + 23 - 1 == n + 7 + 15;
    Pow2Values();
    FloorDivBounds(acc, Pow2(n + 7), -0x8000, 0x7FFF);
  }

  /**
   * JMPDSP_dot_prod_S8S16_S16: the accumulator is saturated to numIntBits + 23 bits
   * and shifted right by numIntBits + 7, so the result always fits int16 and the
   * final cast never wraps. SLIMIT is only defined up to 31 bits, hence numIntBits <= 8.
   */
  method DotProdS8S16S16(W: seq<int8>, A: seq<int16>, c: int16, N: nat, numIntBits: nat) returns (r: int16)
    requires N <= |W| && N <= |A|
    requires numIntBits <= 8
    requires DotFits(W, A, c, N)
    ensures r == SLimit(c + Dot(W, A, N), numIntBits + 23) / Pow2(numIntBits + 7)
    ensures SMin(numIntBits + 23) <= c + Dot(W, A, N) <= SMax(numIntBits + 23) ==>
              r == (c + Dot(W, A, N)) / Pow2(numIntBits + 7)
  {
    var acc: int32 := c;
    var i := 0;
    while i < N
      invariant 0 <= i <= N
      invariant acc == c + Dot(W, A, i)
    {
      assert InInt32(c + Dot(W, A, i + 1));
      acc := acc + A[i] * W[i];
      i := i + 1;
    }
    acc := SLimit(acc, numIntBits + 23);
    SaturatedShiftFits(acc, numIntBits);
    r := Wrap16(acc / Pow2(numIntBits + 7));
  }

  /**
   * One element of JMPDSP_vadd_S16S8_S16 as written. The upper clamp is a signed
   * comparison, but 0xFFFF8000 is an unsigned literal, so the lower clamp compares the
   * sum converted to unsigned (taken modulo 2^32); storing 0xFFFF8000 back into the
   * int32 accumulator gives -32768.
   */
  function AddS16S8AsWritten(a: int16, b: int8): (r: int16)
    ensures -0x8000 <= a + b * 0x100 < 0 ==> r == a + b * 0x100
    ensures a + b * 0x100 >= 0 ==> r == -0x8000
    ensures a + b * 0x100 < -0x8000 ==> r == -0x8000
  {
    var acc: int32 := a + b * 0x100;
    var acc1: int32 := if acc > 0x7FFF then 0x7FFF else acc;
    var acc2: int32 := if acc1 % 0x1_0000_0000 < 0xFFFF_8000 then Wrap32(0xFFFF_8000) else acc1;
    Wrap16(acc2)
  }

  /** The saturation to int16 that the two clamps evidently intend. */
  function AddS16S8Saturating(a: int16, b: int8): (r: int16)
    ensures InInt16(a + b * 0x100) ==> r == a + b * 0x100
    ensures a + b * 0x100 > 0x7FFF ==> r == 0x7FFF
    ensures a + b * 0x100 < -0x8000 ==> r == -0x8000
  {
    Pow2Values();
    SLimit(a + b * 0x100, 16)
  }

  /** A small positive sum comes out as the most negative int16. */
  lemma AddS16S8PositiveSum()
    ensures AddS16S8AsWritten(1, 0) == -0x8000
    ensures AddS16S8Saturating(1, 0) == 1
  {
  }

  /** JMPDSP_vadd_S16S8_S16: C[i] = A[i] + (B[i] << 8), clamped as written. */
  method VAddS16S8S16(A: seq<int16>, iA: nat, B: seq<int8>, iB: nat, C: array<int16>, iC: nat, N: nat)
    requires StridedWithin(N, iA, |A|) && StridedWithin(N, iB, |B|)
    requires StridedWithin(N, iC, C.Length) && iC > 0
    modifies C
    ensures forall i :: 0 <= i < N ==> C[Strided(i, iC)] == AddS16S8AsWritten(A[Strided(i, iA)], B[Strided(i, iB)])
    ensures forall k :: 0 <= k < C.Length && !OnGrid(k, N, iC) ==> C[k] == old(C[k])
  {
    var i := 0;
    while i < N
      invariant 0 <= i <= N
      invariant forall j :: 0 <= j < i ==> C[Strided(j, iC)] == AddS16S8AsWritten(A[Strided(j, iA)], B[Strided(j, iB)])
      invariant forall k :: 0 <= k < C.Length && !OnGrid(k, i, iC) ==> C[k] == old(C[k])
    {
      forall j | 0 <= j < i ensures Strided(j, iC) < Strided(i, iC) {
        StridedIncreasing(j, i, iC);
      }
      C[Strided(i, iC)] := AddS16S8AsWritten(A[Strided(i, iA)], B[Strided(i, iB)]);
      i := i + 1;
    }
  }
}
