/**
 * The generic int8 x int16 kernels of src/nnlib_fixedpt_generic.c: the matrix-vector
 * products of the linear layer and of the GRU gates, the activation dispatch and the
 * Q15 interpolation that updates the GRU state.
 *
 * Weight matrices are row-major int8 sequences; a pointer into the middle of a weight
 * array (as the GRU layer passes for its second and third gate) is the suffix of the
 * sequence from that offset. The `out_S32[MAX_NEURONS]` scratch buffers are arrays the
 * kernels allocate.
 */
module NnlibKernels {
  import opened FixedPointMath
  import opened DspLib
  import opened NnlibFixedpt

  const MAX_NEURONS: nat := 352

  const ACTIVATION_TANH: int := 0
  const ACTIVATION_SIGMOID: int := 1
  const ACTIVATION_RELU: int := 2
  const ACTIVATION_LINEAR: int := 3

  /** The tags JMPNN_apply_activation_S16_generic acts on; any other tag is a no-op. */
  predicate KnownActivation(act: int)
  {
    act == ACTIVATION_SIGMOID || act == ACTIVATION_TANH || act == ACTIVATION_RELU
  }

  /** The range of a pre-activation saturated with SLIMIT(..., 19): Q3.15 and a sign. */
  predicate In19Bits(v: int)
  {
    -0x4_0000 <= v < 0x4_0000
  }

  /** The argument is in the domain where the chosen activation has no undefined overflow. */
  predicate ActivationArgOk(act: int, v: int32)
  {
    (act == ACTIVATION_TANH ==> TanhArgOk(v)) && (act == ACTIVATION_SIGMOID ==> TanhArgOk(v / 2))
  }

  lemma In19BitsArgOk(act: int, v: int32)
    requires In19Bits(v)
    ensures ActivationArgOk(act, v)
  {
  }

  /** The activation applied to one element, in the order the dispatch tests the tags. */
  function Activate(table: seq<int16>, act: int, v: int32): int16
    requires |table| == TANH_TABLE_SIZE
    requires KnownActivation(act) && ActivationArgOk(act, v)
  {
    if act == ACTIVATION_SIGMOID then Sigmoid(table, v)
    else if act == ACTIVATION_TANH then Tanh(table, v)
    else Relu(v)
  }

  /**
   * JMPNN_apply_activation_S16_generic: the first N outputs get the activation of the
   * first N inputs; an unknown tag (ACTIVATION_LINEAR included) leaves output untouched.
   */
  method ApplyActivation(table: seq<int16>, output: array<int16>, input: seq<int32>, N: nat, act: int)
    requires |table| == TANH_TABLE_SIZE
    requires N <= output.Length && N <= |input|
    requires forall i :: 0 <= i < N ==> ActivationArgOk(act, input[i])
    modifies output
    ensures KnownActivation(act) ==> forall i :: 0 <= i < N ==> output[i] == Activate(table, act, input[i])
    ensures !KnownActivation(act) ==> output[..] == old(output[..])
    ensures output[N..] == old(output[N..])
  {
    if act == ACTIVATION_SIGMOID {
      VecSigmoidS16(table, output, input, N);
    } else if act == ACTIVATION_TANH {
      VecTanhS16(table, output, input, N);
    } else if act == ACTIVATION_RELU {
      VecReluS16(output, input, N);
    }
  }

  /** Every row i < rows of a matrix with `cols` columns lies inside W. */
  predicate MatrixShape(W: seq<int8>, rows: nat, cols: nat)
  {
    forall i :: 0 <= i < rows ==> Strided(i, cols) + cols <= |W|
  }

  lemma MatrixShapeBySize(W: seq<int8>, rows: nat, cols: nat)
    requires rows * cols <= |W|
    ensures MatrixShape(W, rows, cols)
  {
    forall i | 0 <= i < rows ensures Strided(i, cols) + cols <= |W| {
      MulMonotone(i + 1, rows, cols);
    }
  }

  /**
   * The accumulator of row i after k columns: `(int32_t)b[i] << shift` plus the first
   * k products of row i of W with x.
   */
  function RowAcc(b: seq<int8>, shift: nat, W: seq<int8>, x: seq<int16>, i: nat, cols: nat, k: nat): int
    requires i < |b| && Strided(i, cols) + cols <= |W|
    requires k <= cols && k <= |x|
  {
    b[i] * Pow2(shift) + Dot(W[Strided(i, cols)..], x, k)
  }

  /** No partial sum of any of the first `rows` accumulators leaves int32 (C leaves that undefined). */
  predicate RowsFit(b: seq<int8>, shift: nat, W: seq<int8>, x: seq<int16>, rows: nat, cols: nat)
    requires rows <= |b| && MatrixShape(W, rows, cols) && cols <= |x|
  {
    forall i, k :: 0 <= i < rows && 0 <= k <= cols ==> InInt32(RowAcc(b, shift, W, x, i, cols, k))
  }

  /** An int8 bias shifted by at most 15 plus at most 352 int8 x int16 products fits int32. */
  lemma RowsFitBySize(b: seq<int8>, shift: nat, W: seq<int8>, x: seq<int16>, rows: nat, cols: nat)
    requires rows <= |b| && MatrixShape(W, rows, cols) && cols <= |x|
    requires shift <= 15 && cols <= MAX_NEURONS
    ensures RowsFit(b, shift, W, x, rows, cols)
  {
    forall i, k | 0 <= i < rows && 0 <= k <= cols
      ensures InInt32(RowAcc(b, shift, W, x, i, cols, k))
    {
      var row := W[Strided(i, cols)..];
      DotBound(row, x, k);
      MulMonotone(k, MAX_NEURONS, 0x40_0000);
      Pow2Monotone(shift, 15);
      Pow2Values();
      MulAbsBound(b[i], Pow2(shift), 0x80, 0x8000);
    }
  }

  /** An int32 shifted right stays an int32. */
  lemma ShiftRightInt32(v: int, k: nat)
    requires InInt32(v)
    ensures InInt32(v / Pow2(k))
  {
    MulMonotone(1, Pow2(k), 0x8000_0000);
    FloorDivBounds(v, Pow2(k), -0x8000_0000, 0x7FFF_FFFF);
  }

  /**
   * JMPNN_linear_matXvec output i: SLIMIT(((bias[i] << bls) + row i . input) >> ors, 19),
   * always a 19-bit value.
   */
  function LinearOut(W: seq<int8>, x: seq<int16>, bias: seq<int8>, i: nat, inLen: nat, bls: nat, ors: nat): (r: int32)
    requires i < |bias| && Strided(i, inLen) + inLen <= |W| && inLen <= |x|
    requires InInt32(RowAcc(bias, bls, W, x, i, inLen, inLen))
    ensures In19Bits(r)
    ensures var v := RowAcc(bias, bls, W, x, i, inLen, inLen) / Pow2(ors); In19Bits(v) ==> r == v
  {
    ShiftRightInt32(RowAcc(bias, bls, W, x, i, inLen, inLen), ors);
    Pow2Values();
    SLimit(RowAcc(bias, bls, W, x, i, inLen, inLen) / Pow2(ors), 19)
  }

  /** JMPNN_linear_matXvec_S8xS16_S32_generic. */
  method LinearMatXVec(W: seq<int8>, input: seq<int16>, bias: seq<int8>, output: array<int32>,
                       inLen: nat, outLen: nat, bls: nat, ors: nat)
    requires outLen <= |bias| && MatrixShape(W, outLen, inLen) && inLen <= |input|
    requires outLen <= output.Length
    requires RowsFit(bias, bls, W, input, outLen, inLen)
    modifies output
    ensures forall i :: 0 <= i < outLen ==> output[i] == LinearOut(W, input, bias, i, inLen, bls, ors)
    ensures output[outLen..] == old(output[outLen..])
  {
    var i := 0;
    while i < outLen
      invariant 0 <= i <= outLen
      invariant forall i' :: 0 <= i' < i ==> output[i'] == LinearOut(W, input, bias, i', inLen, bls, ors)
      invariant output[i..] == old(output[i..])
    {
      var acc := RowAccumulate(bias, bls, W, input, i, inLen);
      ShiftRightInt32(acc, ors);
      Pow2Values();
      output[i] := SLimit(acc / Pow2(ors), 19);
      i := i + 1;
    }
  }

  /**
   * The inner loop shared by the kernels: start from `b[i] << shift` and add the products
   * of row i with x one column at a time, in int32.
   */
  method RowAccumulate(b: seq<int8>, shift: nat, W: seq<int8>, x: seq<int16>, i: nat, cols: nat) returns (acc: int32)
    requires i < |b| && Strided(i, cols) + cols <= |W| && cols <= |x|
    requires forall k :: 0 <= k <= cols ==> InInt32(RowAcc(b, shift, W, x, i, cols, k))
    ensures acc == RowAcc(b, shift, W, x, i, cols, cols)
  {
    assert InInt32(RowAcc(b, shift, W, x, i, cols, 0));
    acc := b[i] * Pow2(shift);
    var j := 0;
    while j < cols
      invariant 0 <= j <= cols
      invariant acc == RowAcc(b, shift, W, x, i, cols, j)
    {
      assert InInt32(RowAcc(b, shift, W, x, i, cols, j + 1));
      acc := acc + W[Strided(i, cols) + j] * x[j];
      j := j + 1;
    }
  }

  /** The shifts applied to the bias (left) and to the accumulators (right) of a gate. */
  datatype Shifts = Shifts(biLeft: nat, outiRight: nat, bhLeft: nat, outhRight: nat)

  /** Input weights and bias, recurrent weights and bias of one gate. */
  datatype GateWeights = GateWeights(wi: seq<int8>, bi: seq<int8>, wh: seq<int8>, bh: seq<int8>)

  predicate GateShape(g: GateWeights, inLen: nat, outLen: nat)
  {
    outLen <= |g.bi| && outLen <= |g.bh| && MatrixShape(g.wi, outLen, inLen) && MatrixShape(g.wh, outLen, outLen)
  }

  /** Both accumulators of every row stay inside int32 at every step. */
  predicate GateAccFits(g: GateWeights, x: seq<int16>, h: seq<int16>, inLen: nat, outLen: nat, s: Shifts)
    requires GateShape(g, inLen, outLen) && inLen <= |x| && outLen <= |h|
  {
    RowsFit(g.bi, s.biLeft, g.wi, x, outLen, inLen) && RowsFit(g.bh, s.bhLeft, g.wh, h, outLen, outLen)
  }

  /** `acci` of row i: input bias and input weights against the layer input. */
  function InputAcc(g: GateWeights, x: seq<int16>, i: nat, inLen: nat, outLen: nat, s: Shifts): int
    requires GateShape(g, inLen, outLen) && inLen <= |x| && i < outLen
  {
    RowAcc(g.bi, s.biLeft, g.wi, x, i, inLen, inLen)
  }

  /** `acch` of row i: recurrent bias and recurrent weights against the previous state. */
  function RecurrentAcc(g: GateWeights, h: seq<int16>, i: nat, outLen: nat, s: Shifts): int
    requires outLen <= |g.bh| && MatrixShape(g.wh, outLen, outLen) && outLen <= |h| && i < outLen
  {
    RowAcc(g.bh, s.bhLeft, g.wh, h, i, outLen, outLen)
  }

  /** `(acci >> ori) + (acch >> orh)` of the reset and update gates. */
  function GateSum(g: GateWeights, x: seq<int16>, h: seq<int16>, i: nat, inLen: nat, outLen: nat, s: Shifts): int
    requires GateShape(g, inLen, outLen) && inLen <= |x| && outLen <= |h| && i < outLen
  {
    InputAcc(g, x, i, inLen, outLen, s) / Pow2(s.outiRight) + RecurrentAcc(g, h, i, outLen, s) / Pow2(s.outhRight)
  }

  /**
   * `(acci >> ori) + (FMUL32x16(acch, r[i]) >> orh)` of the candidate gate: only the
   * recurrent part, recurrent bias included, is scaled by the reset value rI.
   */
  function NewGateSum(g: GateWeights, x: seq<int16>, h: seq<int16>, rI: int16, i: nat, inLen: nat, outLen: nat, s: Shifts): int
    requires GateShape(g, inLen, outLen) && inLen <= |x| && outLen <= |h| && i < outLen
    requires InInt32(RecurrentAcc(g, h, i, outLen, s))
  {
    InputAcc(g, x, i, inLen, outLen, s) / Pow2(s.outiRight)
      + FMul32x16(RecurrentAcc(g, h, i, outLen, s), rI) / Pow2(s.outhRight)
  }

  /** The 19-bit saturated pre-activation of a reset or update gate. */
  function GatePre(g: GateWeights, x: seq<int16>, h: seq<int16>, i: nat, inLen: nat, outLen: nat, s: Shifts): (r: int32)
    requires GateShape(g, inLen, outLen) && inLen <= |x| && outLen <= |h| && i < outLen
    requires InInt32(GateSum(g, x, h, i, inLen, outLen, s))
    ensures In19Bits(r)
    ensures In19Bits(GateSum(g, x, h, i, inLen, outLen, s)) ==> r == GateSum(g, x, h, i, inLen, outLen, s)
  {
    Pow2Values();
    SLimit(GateSum(g, x, h, i, inLen, outLen, s), 19)
  }

  /** The 19-bit saturated pre-activation of the candidate gate. */
  function NewGatePre(g: GateWeights, x: seq<int16>, h: seq<int16>, rI: int16, i: nat, inLen: nat, outLen: nat, s: Shifts): (r: int32)
    requires GateShape(g, inLen, outLen) && inLen <= |x| && outLen <= |h| && i < outLen
    requires InInt32(RecurrentAcc(g, h, i, outLen, s))
    requires InInt32(NewGateSum(g, x, h, rI, i, inLen, outLen, s))
    ensures In19Bits(r)
    ensures In19Bits(NewGateSum(g, x, h, rI, i, inLen, outLen, s)) ==> r == NewGateSum(g, x, h, rI, i, inLen, outLen, s)
  {
    Pow2Values();
    SLimit(NewGateSum(g, x, h, rI, i, inLen, outLen, s), 19)
  }

  /** The shifted sum of every row fits int32 (the `+` is a signed int addition). */
  predicate GateSumsFit(g: GateWeights, x: seq<int16>, h: seq<int16>, inLen: nat, outLen: nat, s: Shifts)
    requires GateShape(g, inLen, outLen) && inLen <= |x| && outLen <= |h|
  {
    forall i :: 0 <= i < outLen ==> InInt32(GateSum(g, x, h, i, inLen, outLen, s))
  }

  predicate NewGateSumsFit(g: GateWeights, x: seq<int16>, h: seq<int16>, r: seq<int16>, inLen: nat, outLen: nat, s: Shifts)
    requires GateShape(g, inLen, outLen) && inLen <= |x| && outLen <= |h| && outLen <= |r|
    requires GateAccFits(g, x, h, inLen, outLen, s)
  {
    forall i :: 0 <= i < outLen ==> InInt32(NewGateSum(g, x, h, r[i], i, inLen, outLen, s))
  }

  /** Body of the row loop of JMPNN_gru_matXvec_S8xS16_S16_act_generic. */
  method GateRow(g: GateWeights, input: seq<int16>, prevState: seq<int16>, i: nat, inLen: nat, outLen: nat, s: Shifts)
    returns (v: int32)
    requires GateShape(g, inLen, outLen) && inLen <= |input| && outLen <= |prevState| && i < outLen
    requires GateAccFits(g, input, prevState, inLen, outLen, s)
    requires InInt32(GateSum(g, input, prevState, i, inLen, outLen, s))
    ensures v == GatePre(g, input, prevState, i, inLen, outLen, s)
  {
    var acci := RowAccumulate(g.bi, s.biLeft, g.wi, input, i, inLen);
    var acch := RowAccumulate(g.bh, s.bhLeft, g.wh, prevState, i, outLen);
    Pow2Values();
    v := SLimit(acci / Pow2(s.outiRight) + acch / Pow2(s.outhRight), 19);
  }

  /** Body of the row loop of JMPNN_gru_newGate_S8xS16_S16_act_generic. */
  method NewGateRow(g: GateWeights, input: seq<int16>, prevState: seq<int16>, rI: int16, i: nat, inLen: nat, outLen: nat, s: Shifts)
    returns (v: int32)
    requires GateShape(g, inLen, outLen) && inLen <= |input| && outLen <= |prevState| && i < outLen
    requires GateAccFits(g, input, prevState, inLen, outLen, s)
    requires InInt32(NewGateSum(g, input, prevState, rI, i, inLen, outLen, s))
    ensures v == NewGatePre(g, input, prevState, rI, i, inLen, outLen, s)
  {
    var acci := RowAccumulate(g.bi, s.biLeft, g.wi, input, i, inLen);
    var acch := RowAccumulate(g.bh, s.bhLeft, g.wh, prevState, i, outLen);
    acch := FMul32x16(acch, rI);
    Pow2Values();
    v := SLimit(acci / Pow2(s.outiRight) + acch / Pow2(s.outhRight), 19);
  }

  /**
   * JMPNN_gru_matXvec_S8xS16_S16_act_generic: pre-activations of all rows into the
   * scratch buffer, then the activation of the first outLen of them into output.
   */
  method GruMatXVec(table: seq<int16>, g: GateWeights, input: seq<int16>, prevState: seq<int16>,
                    output: array<int16>, inLen: nat, outLen: nat, s: Shifts, act: int)
    requires |table| == TANH_TABLE_SIZE
    requires GateShape(g, inLen, outLen) && inLen <= |input| && outLen <= |prevState|
    requires outLen <= output.Length && outLen <= MAX_NEURONS
    requires GateAccFits(g, input, prevState, inLen, outLen, s)
    requires GateSumsFit(g, input, prevState, inLen, outLen, s)
    modifies output
    ensures KnownActivation(act) ==> forall i :: 0 <= i < outLen ==>
              output[i] == Activate(table, act, GatePre(g, input, prevState, i, inLen, outLen, s))
    ensures !KnownActivation(act) ==> output[..] == old(output[..])
    ensures output[outLen..] == old(output[outLen..])
  {
    var outS32 := new int32[MAX_NEURONS];
    var i := 0;
    while i < outLen
      invariant 0 <= i <= outLen
      invariant output[..] == old(output[..])
      invariant forall i' :: 0 <= i' < i ==> outS32[i'] == GatePre(g, input, prevState, i', inLen, outLen, s)
    {
      outS32[i] := GateRow(g, input, prevState, i, inLen, outLen, s);
      i := i + 1;
    }
    forall i' | 0 <= i' < outLen ensures ActivationArgOk(act, outS32[i']) {
      In19BitsArgOk(act, outS32[i']);
    }
    ApplyActivation(table, output, outS32[..], outLen, act);
  }

  /**
   * JMPNN_gru_newGate_S8xS16_S16_act_generic: as GruMatXVec, with the recurrent
   * accumulator multiplied (Q15) by r[i] before it is shifted.
   */
  method GruNewGate(table: seq<int16>, g: GateWeights, input: seq<int16>, prevState: seq<int16>, r: seq<int16>,
                    output: array<int16>, inLen: nat, outLen: nat, s: Shifts, act: int)
    requires |table| == TANH_TABLE_SIZE
    requires GateShape(g, inLen, outLen) && inLen <= |input| && outLen <= |prevState| && outLen <= |r|
    requires outLen <= output.Length && outLen <= MAX_NEURONS
    requires GateAccFits(g, input, prevState, inLen, outLen, s)
    requires NewGateSumsFit(g, input, prevState, r, inLen, outLen, s)
    modifies output
    ensures KnownActivation(act) ==> forall i :: 0 <= i < outLen ==>
              output[i] == Activate(table, act, NewGatePre(g, input, prevState, r[i], i, inLen, outLen, s))
    ensures !KnownActivation(act) ==> output[..] == old(output[..])
    ensures output[outLen..] == old(output[outLen..])
  {
    var outS32 := new int32[MAX_NEURONS];
    var i := 0;
    while i < outLen
      invariant 0 <= i <= outLen
      invariant output[..] == old(output[..])
      invariant forall i' :: 0 <= i' < i ==> outS32[i'] == NewGatePre(g, input, prevState, r[i'], i', inLen, outLen, s)
    {
      outS32[i] := NewGateRow(g, input, prevState, r[i], i, inLen, outLen, s);
      i := i + 1;
    }
    forall i' | 0 <= i' < outLen ensures ActivationArgOk(act, outS32[i']) {
      In19BitsArgOk(act, outS32[i']);
    }
    ApplyActivation(table, output, outS32[..], outLen, act);
  }

  /** The sum of two int32 values each shifted right by at least one fits int32. */
  lemma HalvedSumFits(a: int, b: int, ka: nat, kb: nat)
    requires InInt32(a) && InInt32(b) && ka >= 1 && kb >= 1
    ensures InInt32(a / Pow2(ka) + b / Pow2(kb))
  {
    Pow2Monotone(1, ka);
    Pow2Monotone(1, kb);
    MulMonotone(2, Pow2(ka), 0x4000_0000);
    MulMonotone(2, Pow2(kb), 0x4000_0000);
    FloorDivBounds(a, Pow2(ka), -0x4000_0000, 0x3FFF_FFFF);
    FloorDivBounds(b, Pow2(kb), -0x4000_0000, 0x3FFF_FFFF);
  }

  /** A Q15 factor in [0, 1) never makes FMUL32x16 wrap, and never increases the magnitude. */
  lemma FMul32x16ByGain(a: int32, g: int16)
    requires 0 <= g <= 0x7FFF
    ensures Abs(FMul32x16(a, g)) <= Abs(a)
    ensures FMul32x16(a, g) == (a * g) / 0x8000
  {
    MulAbsBound(a, g, Abs(a), 0x7FFF);
    MulMonotone(0x7FFF, 0x8000, Abs(a));
    if a >= 0 {
      FloorDivBounds(a * g, 0x8000, 0, a);
    } else {
      FloorDivBounds(a * g, 0x8000, a, 0);
    }
  }

  /**
   * One step of JMPNN_vec_interpolation_S16_generic:
   * (w * in1 + (0x7FFF - w) * in2) >> 15, stored into int16 with no saturation.
   */
  function Interp(w: int16, a: int16, b: int16): int16
    requires InInt32(InterpSum(w, a, b))
  {
    Wrap16(InterpSum(w, a, b) / 0x8000)
  }

  /** `interp_vec[i]*input1[i] + (0x7FFF-interp_vec[i])*input2[i]`, evaluated in int. */
  function InterpSum(w: int, a: int, b: int): int
  {
    w * a + (0x7FFF - w) * b
  }

  /**
   * With a weight in [0, 0x7FFF] the sum fits int32 and the result fits int16 without
   * the commented-out SLIMIT: it lies within one LSB of the interval spanned by the two
   * inputs (the weights add up to 0x7FFF, one short of 1.0 in Q15).
   */
  lemma InterpConvex(w: int16, a: int16, b: int16)
    requires 0 <= w <= 0x7FFF
    ensures InInt32(InterpSum(w, a, b))
    ensures Interp(w, a, b) == InterpSum(w, a, b) / 0x8000
    ensures Min(a, b) - 1 <= Interp(w, a, b) <= Max(a, b) + 1
  {
    var lo, hi := Min(a, b), Max(a, b);
    var v: int := 0x7FFF - w;
    MulMonotone(lo, a, w);
    MulMonotone(a, hi, w);
    MulMonotone(lo, b, v);
    MulMonotone(b, hi, v);
    var sum := InterpSum(w, a, b);
    assert w * lo + v * lo <= sum <= w * hi + v * hi;
    assert w * lo + v * lo == 0x7FFF * lo;
    assert w * hi + v * hi == 0x7FFF * hi;
    if hi == -0x8000 {
      assert sum == -0x7FFF * 0x8000;
    } else {
      FloorDivBounds(sum, 0x8000, lo - 1, hi);
    }
  }

  /** Equal positive inputs come out one LSB smaller: the weights sum to 0x7FFF, not 0x8000. */
  lemma InterpOfEqualPositive(w: int16, a: int16)
    requires 0 <= w <= 0x7FFF && 0 < a
    ensures InInt32(InterpSum(w, a, a))
    ensures Interp(w, a, a) == a - 1
  {
    assert InterpSum(w, a, a) == 0x8000 * (a - 1) + (0x8000 - a);
    DivModUnique(InterpSum(w, a, a), 0x8000, a - 1, 0x8000 - a);
  }

  /**
   * JMPNN_vec_interpolation_S16_generic. Each output element depends only on the inputs
   * at the same index, so output may be the same array as input1 (the GRU passes its
   * state as both): the result is computed from the values input1 held before the call.
   */
  method VecInterpolation(output: array<int16>, interp: seq<int16>, input1: array<int16>, input2: seq<int16>, N: nat)
    requires N <= output.Length && N <= |interp| && N <= input1.Length && N <= |input2|
    requires forall i :: 0 <= i < N ==> InInt32(InterpSum(interp[i], input1[i], input2[i]))
    modifies output
    ensures forall i :: 0 <= i < N ==> output[i] == Interp(interp[i], old(input1[i]), input2[i])
    ensures output[N..] == old(output[N..])
  {
    var i := 0;
    while i < N
      invariant 0 <= i <= N
      invariant forall j :: 0 <= j < i ==> output[j] == Interp(interp[j], old(input1[j]), input2[j])
      invariant forall j :: i <= j < N ==> input1[j] == old(input1[j])
      invariant output[i..] == old(output[i..])
    {
      var sum := InterpSum(interp[i], input1[i], input2[i]);
      output[i] := Wrap16(sum / 0x8000);
      i := i + 1;
    }
  }
}
