/**
 * The table-driven activations of include/nnlib_fixedpt.h.
 *
 * The tanh table (65 Q15 samples of tanh on [0, 8] with step 1/8, generated by
 * models/gen_tanh_table.py) is not part of this model: it is a parameter of length
 * TANH_TABLE_SIZE, and the properties that depend on its values say so.
 */
module NnlibFixedpt {
  import opened FixedPointMath

  const TANH_TABLE_SIZE: nat := 65
  const TANH_TABLE_MAXINDEX: nat := 64
  /** 1/8 in Q15. */
  const TANH_DELTAX: int := 4096
  const TANH_SCALEFAC: int := 8
  const HALF_Q15: int := 0x4000
  const ONE_Q31: int := 0x7FFF_FFFF

  /**
   * The largest |x| for which `x = -x` and `half_Q15 + TANH_SCALEFAC * x` stay inside
   * int32; beyond it the C code overflows a signed int, which C leaves undefined.
   */
  const MAX_TANH_ARG: int := 268433407

  predicate TanhArgOk(x: int)
  {
    -MAX_TANH_ARG <= x <= MAX_TANH_ARG
  }

  /**
   * Table index for |x| (Q3.15): (2^14 + 8|x|) >> 15, clamped to [0, 64]. Unclamped it is
   * |x| / (1/8) rounded to nearest, so the residual |x| - i/8 is within half a step.
   */
  function TanhIndex(ax: int): (i: int)
    requires 0 <= ax <= MAX_TANH_ARG
    ensures 0 <= i <= TANH_TABLE_MAXINDEX
    ensures i < TANH_TABLE_MAXINDEX ==> TANH_DELTAX * i - 2048 <= ax < TANH_DELTAX * i + 2048
    ensures i == TANH_TABLE_MAXINDEX ==> TANH_DELTAX * i - 2048 <= ax
  {
    var i0 := (HALF_Q15 + TANH_SCALEFAC * ax) / 0x8000;
    var i1 := if i0 < TANH_TABLE_MAXINDEX then i0 else TANH_TABLE_MAXINDEX;
    if i1 < 0 then 0 else i1
  }

  /**
   * The first-order correction added to the table value y for a residual dx (Q3.15),
   * before its final `>> 15`. Every conversion to int32 that C performs is written out;
   * TanhNoWrap shows that none of them changes a value for the arguments the network
   * produces.
   */
  function TanhCorrection(y: int32, dx: int32): (c: int32)
    ensures dx == 0 ==> c == 0
  {
    var temp := Wrap32(IMul(y, y) * 2);
    var dy := Wrap32(ONE_Q31 - temp);
    var oneXy := Wrap32(ONE_Q31 / 2 - IMul(y, dx));
    assert dx == 0 ==> FMul32x16(dx, dy) == 0;
    FMul32x32(oneXy, FMul32x16(dx, dy))
  }

  /**
   * The value of `y` after the correction step, for |x| = ax. At the table points
   * ax = k/8 (k <= 64) the residual is 0 and the result is the table sample itself.
   */
  function TanhMagnitude(table: seq<int16>, ax: int): (m: int32)
    requires |table| == TANH_TABLE_SIZE
    requires 0 <= ax <= MAX_TANH_ARG
    ensures ax % TANH_DELTAX == 0 && ax <= TANH_DELTAX * TANH_TABLE_MAXINDEX ==> m == table[ax / TANH_DELTAX]
  {
    var i := TanhIndex(ax);
    var dx: int32 := ax - IMul(TANH_DELTAX, i);
    var y: int32 := table[i];
    assert ax % TANH_DELTAX == 0 && ax <= TANH_DELTAX * TANH_TABLE_MAXINDEX ==> i == ax / TANH_DELTAX && dx == 0;
    Wrap32(y + TanhCorrection(y, dx) / 0x8000)
  }

  /** tanh_approx_S16: the magnitude of x is looked up and the sign re-applied (`sign * y`). */
  function Tanh(table: seq<int16>, x: int32): (r: int16)
    requires |table| == TANH_TABLE_SIZE
    requires TanhArgOk(x)
    ensures x % TANH_DELTAX == 0 && 0 <= x <= TANH_DELTAX * TANH_TABLE_MAXINDEX ==> r == table[x / TANH_DELTAX]
    ensures x % TANH_DELTAX == 0 && -TANH_DELTAX * TANH_TABLE_MAXINDEX <= x < 0 ==> r == Wrap16(-(table[-x / TANH_DELTAX] as int))
  {
    var ax: int := if x < 0 then -(x as int) else x;
    var m: int := TanhMagnitude(table, ax);
    Wrap16(if x < 0 then -m else m)
  }

  lemma TanhOfNegated(table: seq<int16>, x: int32)
    requires |table| == TANH_TABLE_SIZE
    requires TanhArgOk(x) && x > 0
    ensures Tanh(table, -x) == Wrap16(-(Tanh(table, x) as int))
  {
    var m: int := TanhMagnitude(table, x);
    assert Tanh(table, x) == Wrap16(m);
    assert Tanh(table, -x) == Wrap16(-m);
    Wrap16Negate(m);
  }

  /** Only |x| enters the computation, so tanh is odd (up to the int16 wrap of -(-32768)). */
  lemma TanhOdd(table: seq<int16>, x: int32)
    requires |table| == TANH_TABLE_SIZE
    requires TanhArgOk(x)
    requires x != 0 || table[0] == 0
    ensures Tanh(table, -x) == Wrap16(-(Tanh(table, x) as int))
  {
    if x > 0 {
      TanhOfNegated(table, x);
    } else if x < 0 {
      TanhOfNegated(table, -x);
      Wrap16Negate(-(Tanh(table, -x) as int));
    }
  }

  /**
   * The correction term in exact integer arithmetic: ((1 - y*dx) * ((dx * (1 - 2y^2)) >> 15)) >> 31
   * in Q15/Q31 units, i.e. the derivative of tanh at the table point times the residual.
   */
  function ExactCorrection(y: int, dx: int): int
  {
    var dy := ONE_Q31 - 2 * (y * y);
    var oneXy := ONE_Q31 / 2 - y * dx;
    (oneXy * ((dx * dy) / 0x8000)) / 0x8000_0000
  }

  /** For a Q15 value y in [0, 1) and a residual within half a step, no step of the correction wraps. */
  lemma TanhCorrectionNoWrap(y: int32, dx: int32)
    requires 0 <= y <= 0x7FFF
    requires -2048 <= dx < 2048
    ensures ONE_Q31 - 2 * (y * y) >= 131069
    ensures TanhCorrection(y, dx) == ExactCorrection(y, dx)
    ensures -0x440_0000 <= ExactCorrection(y, dx) <= 0x440_0000
  {
    MulAbsBound(y, y, 0x7FFF, 0x7FFF);
    var dy := ONE_Q31 - 2 * (y * y);
    assert 131069 <= dy <= ONE_Q31;
    assert IMul(y, y) == y * y;
    assert Wrap32(IMul(y, y) * 2) == 2 * (y * y);
    assert Wrap32(ONE_Q31 - Wrap32(IMul(y, y) * 2)) == dy;
    MulAbsBound(y, dx, 0x7FFF, 0x800);
    var oneXy := ONE_Q31 / 2 - y * dx;
    assert IMul(y, dx) == y * dx;
    assert Wrap32(ONE_Q31 / 2 - IMul(y, dx)) == oneXy;
    var t := TanhCorrectionStep(dx, dy);
    assert Abs(oneXy) <= 0x4400_0000;
    MulAbsBound(oneXy, t, 0x4400_0000, 0x800_0000);
    FloorDivBounds(oneXy * t, 0x8000_0000, -0x440_0000, 0x440_0000);
  }

  /**
   * `IMUL(y, y) << 1`, the first step of the correction, fits int32 for every int16 y
   * except -32768, where it reaches 2^31 and the model's two's-complement wrap gives -2^31.
   */
  lemma TanhSquareFits(y: int16)
    ensures y != -0x8000 ==> IMul(y, y) == y * y && InInt32(2 * (y * y))
    ensures y == -0x8000 ==> 2 * (y * y) == 0x8000_0000 && Wrap32(IMul(y, y) * 2) == -0x8000_0000
  {
    if y != -0x8000 {
      MulAbsBound(y, y, 0x7FFF, 0x7FFF);
    }
  }

  /** The Q31 product dx * dy >> 15 of the correction stays within 2^27. */
  lemma TanhCorrectionStepBound(dx: int32, dy: int32)
    requires -2048 <= dx < 2048
    requires 0 <= dy
    ensures -0x800_0000 <= (dx * dy) / 0x8000 <= 0x800_0000
    ensures FMul32x16(dx, dy) == (dx * dy) / 0x8000
  {
    MulAbsBound(dx, dy, 0x800, ONE_Q31);
    FloorDivBounds(dx * dy, 0x8000, -0x800_0000, 0x800_0000);
  }

  function TanhCorrectionStep(dx: int32, dy: int32): (t: int)
    requires -2048 <= dx < 2048
    requires 0 <= dy
    ensures -0x800_0000 <= t <= 0x800_0000
    ensures t == FMul32x16(dx, dy)
  {
    TanhCorrectionStepBound(dx, dy);
    (dx * dy) / 0x8000
  }

  /**
   * For table entries in [0, 32767] and |x| below 264192 (which covers every 19-bit
   * saturated pre-activation), `IMUL(y,y) << 1` fits int32, dy stays positive and no
   * intermediate value wraps: the C computation equals the exact formula.
   */
  lemma TanhNoWrap(table: seq<int16>, ax: int)
    requires |table| == TANH_TABLE_SIZE
    requires 0 <= ax < 264192
    requires 0 <= table[TanhIndex(ax)]
    ensures var i := TanhIndex(ax); var y: int := table[i];
      -2048 <= ax - TANH_DELTAX * i < 2048 &&
      ONE_Q31 - 2 * (y * y) >= 131069 &&
      TanhMagnitude(table, ax) == y + ExactCorrection(y, ax - TANH_DELTAX * i) / 0x8000
  {
    var i := TanhIndex(ax);
    var dx: int32 := ax - TANH_DELTAX * i;
    var y: int32 := table[i];
    assert IMul(TANH_DELTAX, i) == TANH_DELTAX * i;
    assert TanhMagnitude(table, ax) == Wrap32(y + TanhCorrection(y, dx) / 0x8000);
    TanhCorrectionNoWrap(y, dx);
    var c := ExactCorrection(y, dx);
    FloorDivBounds(c, 0x8000, -0x880, 0x880);
    assert InInt32(y + c / 0x8000);
  }

  /**
   * sigmoid_approx_S16(x) = 0x4000 + (tanh(x >> 1) >> 1). Whatever the table holds, the
   * result is in [0, 32767], so the int16 return never wraps.
   */
  function Sigmoid(table: seq<int16>, x: int32): (r: int16)
    requires |table| == TANH_TABLE_SIZE
    requires TanhArgOk(x / 2)
    ensures 0 <= r <= 0x7FFF
    ensures r == HALF_Q15 + Tanh(table, x / 2) / 2
  {
    var t := Tanh(table, x / 2);
    FloorDivBounds(t, 2, -0x4000, 0x3FFF);
    HALF_Q15 + t / 2
  }

  /**
   * sigmoid(x) + sigmoid(-x) is one (0x8000) less at most one LSB, for even x whose tanh
   * does not hit the wrap at -32768.
   */
  lemma SigmoidComplement(table: seq<int16>, x: int32)
    requires |table| == TANH_TABLE_SIZE
    requires TanhArgOk(x / 2) && x != -0x8000_0000
    requires x % 2 == 0
    requires x != 0 || table[0] == 0
    requires Tanh(table, x / 2) != -0x8000
    ensures 0x7FFF <= Sigmoid(table, x) + Sigmoid(table, -x) <= 0x8000
  {
    var h: int32 := x / 2;
    assert (-x) / 2 == -h;
    TanhOdd(table, h);
    var t: int := Tanh(table, h);
    assert Tanh(table, -h) == -t;
    assert t / 2 + (-t) / 2 == 0 || t / 2 + (-t) / 2 == -1;
  }

  /** relu_S16: negative inputs give 0; the int16 return truncates inputs above 32767. */
  function Relu(x: int32): (r: int16)
    ensures x < 0 ==> r == 0
    ensures 0 <= x <= 0x7FFF ==> r == x
    ensures x > 0x7FFF ==> (x - r) % 0x1_0000 == 0
  {
    Wrap16(if x < 0 then 0 else x)
  }

  /** vec_tanh_S16: output[i] = tanh(input[i]) for i < N; the rest of output is untouched. */
  method VecTanhS16(table: seq<int16>, output: array<int16>, input: seq<int32>, N: nat)
    requires |table| == TANH_TABLE_SIZE
    requires N <= output.Length && N <= |input|
    requires forall i :: 0 <= i < N ==> TanhArgOk(input[i])
    modifies output
    ensures forall i :: 0 <= i < N ==> output[i] == Tanh(table, input[i])
    ensures output[N..] == old(output[N..])
  {
    var i := 0;
    while i < N
      invariant 0 <= i <= N
      invariant forall j :: 0 <= j < i ==> output[j] == Tanh(table, input[j])
      invariant output[i..] == old(output[i..])
    {
      output[i] := Tanh(table, input[i]);
      i := i + 1;
    }
  }

  /** vec_sigmoid_S16: output[i] = sigmoid(input[i]) for i < N. */
  method VecSigmoidS16(table: seq<int16>, output: array<int16>, input: seq<int32>, N: nat)
    requires |table| == TANH_TABLE_SIZE
    requires N <= output.Length && N <= |input|
    requires forall i :: 0 <= i < N ==> TanhArgOk(input[i] / 2)
    modifies output
    ensures forall i :: 0 <= i < N ==> output[i] == Sigmoid(table, input[i])
    ensures output[N..] == old(output[N..])
  {
    var i := 0;
    while i < N
      invariant 0 <= i <= N
      invariant forall j :: 0 <= j < i ==> output[j] == Sigmoid(table, input[j])
      invariant output[i..] == old(output[i..])
    {
      output[i] := Sigmoid(table, input[i]);
      i := i + 1;
    }
  }

  /** vec_relu_S16: output[i] = relu(input[i]) for i < N. */
  method VecReluS16(output: array<int16>, input: seq<int32>, N: nat)
    requires N <= output.Length && N <= |input|
    modifies output
    ensures forall i :: 0 <= i < N ==> output[i] == Relu(input[i])
    ensures output[N..] == old(output[N..])
  {
    var i := 0;
    while i < N
      invariant 0 <= i <= N
      invariant forall j :: 0 <= j < i ==> output[j] == Relu(input[j])
      invariant output[i..] == old(output[i..])
    {
      output[i] := Relu(input[i]);
      i := i + 1;
    }
  }
}
