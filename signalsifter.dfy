/**
 * The fixed-point SignalSifter network of src/signalsifter.c: three stacked GRU layers
 * whose hidden states persist from one call to the next, followed by a linear layer
 * that writes the per-bin gains.
 */
module SignalSifterNet {
  import opened FixedPointMath
  import opened DspLib
  import opened NnlibFixedpt
  import opened NnlibKernels
  import opened NnLayers

  /** Q-formats of include/signalsifter_config.h. */
  const WAB_FRAC_BITS: nat := 7
  const INPUT_NUM_FRAC_BITS: nat := 10
  const GRU_NUM_FRAC_BITS: nat := 15
  const LIN_NUM_FRAC_BITS: nat := 15
  const INPUTLAYER_SHIFT_RIGHT: nat := INPUT_NUM_FRAC_BITS + WAB_FRAC_BITS - GRU_NUM_FRAC_BITS
  const GRU_STATE_SIZE: nat := 352

  /** Shifts of the first GRU: Q10 input, Q7 weights and bias. */
  const FIRST_LAYER_SHIFTS: Shifts := Shifts(INPUT_NUM_FRAC_BITS, INPUTLAYER_SHIFT_RIGHT, GRU_NUM_FRAC_BITS, WAB_FRAC_BITS)
  /** Shifts of the second and third GRU: Q15 input (the previous layer's state). */
  const INNER_LAYER_SHIFTS: Shifts := Shifts(GRU_NUM_FRAC_BITS, WAB_FRAC_BITS, GRU_NUM_FRAC_BITS, WAB_FRAC_BITS)

  /** The shifts of the first GRU (first) or of the second and third. */
  function LayerShifts(first: bool): Shifts
  {
    if first then FIRST_LAYER_SHIFTS else INNER_LAYER_SHIFTS
  }

  /** Fractional bits of a GRU's input: Q10 features for the first, Q15 states after it. */
  function InputFracBits(first: bool): nat
  {
    if first then INPUT_NUM_FRAC_BITS else GRU_NUM_FRAC_BITS
  }

  /** The real value of a fixed-point number with q fractional bits. */
  function QValue(v: int, q: nat): real
  {
    v as real / Pow2(q) as real
  }

  /** A real value written in Q15, rounded down. */
  function Q15Floor(r: real): int
  {
    (r * 32768.0).Floor
  }

  /**
   * The first n products of a row of Q7 weights with values of q fractional bits,
   * summed as real numbers.
   */
  function RealDot(W: seq<int8>, v: seq<int16>, q: nat, n: nat): real
    requires n <= |W| && n <= |v|
  {
    if n == 0 then 0.0 else RealDot(W, v, q, n - 1) + QValue(W[n - 1], WAB_FRAC_BITS) * QValue(v[n - 1], q)
  }

  /**
   * bias + row . v, with a Q7 bias and row and n values of q fractional bits, as a real
   * number written in Q15 and rounded down.
   */
  function AffineRowQ15(b: int8, W: seq<int8>, v: seq<int16>, q: nat, n: nat): int
    requires n <= |W| && n <= |v|
  {
    Q15Floor(QValue(b, WAB_FRAC_BITS) + RealDot(W, v, q, n))
  }

  lemma RealFloorDiv(n: int, d: nat)
    requires d > 0
    ensures (n as real / d as real).Floor == n / d
  {
    var q := n / d;
    var m := n % d;
    assert n == q * d + m;
    assert n as real / d as real == q as real + m as real / d as real;
  }

  lemma ScaledProduct(x: real, y: real, c: real, e: real)
    requires c > 0.0 && e > 0.0
    ensures (x / c) * (y / e) == (x * y) / (c * e)
  {
  }

  lemma IntProductAsReal(a: int, b: int)
    ensures (a as real) * (b as real) == (a * b) as real
  {
  }

  /** A product of two scaled integers is their integer product, scaled once. */
  lemma ScaledIntProduct(w: int, x: int, c: real, e: real)
    requires c > 0.0 && e > 0.0
    ensures (w as real / c) * (x as real / e) == (x * w) as real / (c * e)
  {
    ScaledProduct(w as real, x as real, c, e);
    IntProductAsReal(x, w);
  }

  lemma DivideSum(d: real, p: real, c: real)
    requires c > 0.0
    ensures (d + p) / c == d / c + p / c
  {
  }

  /** The integer dot product Dot is the real one scaled by 2^(7 + q). */
  lemma {:induction false} DotAsReal(W: seq<int8>, v: seq<int16>, q: nat, n: nat)
    requires n <= |W| && n <= |v|
    ensures Dot(W, v, n) as real / (128.0 * Pow2(q) as real) == RealDot(W, v, q, n)
  {
    if n > 0 {
      DotAsReal(W, v, q, n - 1);
      var d := Dot(W, v, n - 1);
      var p := v[n - 1] * W[n - 1];
      assert QValue(W[n - 1], WAB_FRAC_BITS) == W[n - 1] as real / 128.0 by { Pow2Values(); }
      ScaledIntProduct(W[n - 1], v[n - 1], 128.0, Pow2(q) as real);
      DivideSum(d as real, p as real, 128.0 * Pow2(q) as real);
    }
  }

  /**
   * The accumulator of row i, `(b[i] << q) + row i . v`, shifted right by q + 7 - 15, is
   * the Q15 floor of the real value b[i] + row i . v with Q7 bias and weights and Qq
   * values, for the two input formats the network uses.
   */
  lemma RowInQ15(b: seq<int8>, W: seq<int8>, v: seq<int16>, i: nat, cols: nat, q: nat)
    requires i < |b| && Strided(i, cols) + cols <= |W| && cols <= |v|
    requires q == INPUT_NUM_FRAC_BITS || q == GRU_NUM_FRAC_BITS
    ensures RowAcc(b, q, W, v, i, cols, cols) / Pow2(q + WAB_FRAC_BITS - GRU_NUM_FRAC_BITS)
            == AffineRowQ15(b[i], W[Strided(i, cols)..], v, q, cols)
  {
    Pow2Values();
    var pq: int := if q == INPUT_NUM_FRAC_BITS then 1024 else 32768;
    var d: int := if q == INPUT_NUM_FRAC_BITS then 4 else 128;
    assert Pow2(q) == pq && Pow2(q + WAB_FRAC_BITS - GRU_NUM_FRAC_BITS) == d by {
      assert Pow2(2) == 4;
      assert Pow2(10) == 1024;
    }
    var row := W[Strided(i, cols)..];
    var dot := Dot(row, v, cols);
    var n := b[i] * pq + dot;
    DotAsReal(row, v, q, cols);
    assert RealDot(row, v, q, cols) == dot as real / (128.0 * pq as real);
    assert 128.0 * pq as real == 32768.0 * d as real;
    assert (QValue(b[i], WAB_FRAC_BITS) + RealDot(row, v, q, cols)) * 32768.0 == n as real / d as real;
    assert AffineRowQ15(b[i], row, v, q, cols) == (n as real / d as real).Floor;
    RealFloorDiv(n, d);
  }

  /**
   * The Q bookkeeping of the shift constants: for every unit i of a GRU gate, with the
   * shifts computeSignalSifterModel_S16 passes, the gate's pre-activation sum is the Q15
   * floor of bi[i] + row i of wi . x (x in Q10 for the first GRU, Q15 after it) plus the
   * Q15 floor of bh[i] + row i of wh . h for the Q15 state h.
   */
  lemma GateSumInQ15(g: GateWeights, x: seq<int16>, h: seq<int16>, i: nat, inLen: nat, outLen: nat, first: bool)
    requires GateShape(g, inLen, outLen) && inLen <= |x| && outLen <= |h| && i < outLen
    ensures GateSum(g, x, h, i, inLen, outLen, LayerShifts(first))
            == AffineRowQ15(g.bi[i], g.wi[Strided(i, inLen)..], x, InputFracBits(first), inLen)
             + AffineRowQ15(g.bh[i], g.wh[Strided(i, outLen)..], h, GRU_NUM_FRAC_BITS, outLen)
  {
    RowInQ15(g.bi, g.wi, x, i, inLen, InputFracBits(first));
    RowInQ15(g.bh, g.wh, h, i, outLen, GRU_NUM_FRAC_BITS);
  }

  /**
   * The same for the linear layer, which Compute runs with bias shift LIN_NUM_FRAC_BITS
   * and output shift WAB_FRAC_BITS on the Q15 state of the third GRU: output i is the
   * 19-bit saturation of the Q15 floor of bias[i] + row i . x.
   */
  lemma LinearOutInQ15(W: seq<int8>, x: seq<int16>, bias: seq<int8>, i: nat, inLen: nat)
    requires i < |bias| && Strided(i, inLen) + inLen <= |W| && inLen <= |x|
    requires InInt32(RowAcc(bias, LIN_NUM_FRAC_BITS, W, x, i, inLen, inLen))
    ensures AffineRowQ15(bias[i], W[Strided(i, inLen)..], x, GRU_NUM_FRAC_BITS, inLen)
            == RowAcc(bias, LIN_NUM_FRAC_BITS, W, x, i, inLen, inLen) / Pow2(WAB_FRAC_BITS)
    ensures InInt32(AffineRowQ15(bias[i], W[Strided(i, inLen)..], x, GRU_NUM_FRAC_BITS, inLen))
    ensures LinearOut(W, x, bias, i, inLen, LIN_NUM_FRAC_BITS, WAB_FRAC_BITS)
            == SLimit(AffineRowQ15(bias[i], W[Strided(i, inLen)..], x, GRU_NUM_FRAC_BITS, inLen), 19)
  {
    RowInQ15(bias, W, x, i, inLen, GRU_NUM_FRAC_BITS);
    ShiftRightInt32(RowAcc(bias, LIN_NUM_FRAC_BITS, W, x, i, inLen, inLen), WAB_FRAC_BITS);
  }

  /** SignalSifterModel: the hidden sizes the state vectors are cleared to, and the layers. */
  datatype SignalSifterModel = SignalSifterModel(
    gru1HiddenSize: nat, gru1: GruLayer,
    gru2HiddenSize: nat, gru2: GruLayer,
    gru3HiddenSize: nat, gru3: GruLayer,
    linear1HiddenSize: nat, linear1: LinearLayer)

  /**
   * Every layer fits the GRU_STATE_SIZE state vectors and the MAX_NEURONS scratch
   * buffers, reads at most MAX_NEURONS inputs, and every GRU has an activation the
   * dispatch knows (otherwise its candidate gate would be left uninitialised).
   */
  predicate ModelValid(m: SignalSifterModel)
  {
    m.gru1HiddenSize <= GRU_STATE_SIZE && m.gru2HiddenSize <= GRU_STATE_SIZE && m.gru3HiddenSize <= GRU_STATE_SIZE
    && GruShaped(m.gru1) && GruShaped(m.gru2) && GruShaped(m.gru3) && LinearShaped(m.linear1)
    && m.gru1.inputSize <= MAX_NEURONS && m.gru2.inputSize <= GRU_STATE_SIZE
    && m.gru3.inputSize <= GRU_STATE_SIZE && m.linear1.inputSize <= GRU_STATE_SIZE
    && KnownActivation(m.gru1.activation) && KnownActivation(m.gru2.activation) && KnownActivation(m.gru3.activation)
  }

  /** SignalSifterState_S16: the model and three int16 hidden-state vectors. */
  class SignalSifter {
    var model: SignalSifterModel
    /** The tanh table the activations read (tanh_table_S16). */
    const table: seq<int16>
    const gru1State: array<int16>
    const gru2State: array<int16>
    const gru3State: array<int16>

    predicate Valid()
      reads this
    {
      |table| == TANH_TABLE_SIZE && ModelValid(model)
      && gru1State.Length == GRU_STATE_SIZE && gru2State.Length == GRU_STATE_SIZE && gru3State.Length == GRU_STATE_SIZE
      && gru1State != gru2State && gru2State != gru3State && gru1State != gru3State
    }

    /**
     * createSignalSifterModel_S16: points the state at the model and clears the first
     * gruK_hidden_size entries of each state vector; the rest hold whatever was there.
     */
    constructor Create(m: SignalSifterModel, tanhTable: seq<int16>)
      requires ModelValid(m) && |tanhTable| == TANH_TABLE_SIZE
      ensures Valid() && model == m && table == tanhTable
      ensures fresh(gru1State) && fresh(gru2State) && fresh(gru3State)
      ensures forall k :: 0 <= k < m.gru1HiddenSize ==> gru1State[k] == 0
      ensures forall k :: 0 <= k < m.gru2HiddenSize ==> gru2State[k] == 0
      ensures forall k :: 0 <= k < m.gru3HiddenSize ==> gru3State[k] == 0
    {
      model := m;
      table := tanhTable;
      var s1 := new int16[GRU_STATE_SIZE];
      var s2 := new int16[GRU_STATE_SIZE];
      var s3 := new int16[GRU_STATE_SIZE];
      ClearPrefix(s1, m.gru1HiddenSize);
      ClearPrefix(s2, m.gru2HiddenSize);
      ClearPrefix(s3, m.gru3HiddenSize);
      gru1State, gru2State, gru3State := s1, s2, s3;
    }

    /**
     * computeSignalSifterModel_S16: gru1 on the input, gru2 on gru1's new state, gru3
     * on gru2's new state, then the linear layer on gru3's new state into gains. Each
     * GRU starts from the state the previous call left behind; nothing else changes.
     */
    method Compute(gains: array<int16>, input: seq<int16>)
      requires Valid()
      requires gains != gru1State && gains != gru2State && gains != gru3State
      requires model.gru1.inputSize <= |input| && model.linear1.hiddenSize <= gains.Length
      modifies gru1State, gru2State, gru3State, gains
      ensures Valid()
      ensures gru1State[..model.gru1.hiddenSize]
              == GruStep(table, model.gru1, input, old(gru1State[..]), FIRST_LAYER_SHIFTS)
      ensures gru2State[..model.gru2.hiddenSize]
              == GruStep(table, model.gru2, gru1State[..], old(gru2State[..]), INNER_LAYER_SHIFTS)
      ensures gru3State[..model.gru3.hiddenSize]
              == GruStep(table, model.gru3, gru2State[..], old(gru3State[..]), INNER_LAYER_SHIFTS)
      ensures KnownActivation(model.linear1.activation) ==>
              gains[..model.linear1.hiddenSize]
              == LinearStep(table, model.linear1, gru3State[..], LIN_NUM_FRAC_BITS, WAB_FRAC_BITS)
      ensures !KnownActivation(model.linear1.activation) ==> gains[..] == old(gains[..])
      ensures gru1State[model.gru1.hiddenSize..] == old(gru1State[model.gru1.hiddenSize..])
      ensures gru2State[model.gru2.hiddenSize..] == old(gru2State[model.gru2.hiddenSize..])
      ensures gru3State[model.gru3.hiddenSize..] == old(gru3State[model.gru3.hiddenSize..])
      ensures gains[model.linear1.hiddenSize..] == old(gains[model.linear1.hiddenSize..])
    {
      RunGru(model.gru1, gru1State, input, FIRST_LAYER_SHIFTS);
      RunGru(model.gru2, gru2State, gru1State[..], INNER_LAYER_SHIFTS);
      RunGru(model.gru3, gru3State, gru2State[..], INNER_LAYER_SHIFTS);
      var x := gru3State[..];
      var lin := model.linear1;
      RowsFitBySize(lin.bias, LIN_NUM_FRAC_BITS, lin.weights, x, lin.hiddenSize, lin.inputSize);
      ComputeLinearLayer(table, lin, gains, x, LIN_NUM_FRAC_BITS, WAB_FRAC_BITS);
      if KnownActivation(lin.activation) {
        var g := LinearStep(table, lin, x, LIN_NUM_FRAC_BITS, WAB_FRAC_BITS);
        assert gains[..lin.hiddenSize] == g;
      }
    }

    /** One GRU layer of Compute, on one of the state vectors. */
    method RunGru(gru: GruLayer, state: array<int16>, x: seq<int16>, s: Shifts)
      requires |table| == TANH_TABLE_SIZE
      requires GruShaped(gru) && gru.inputSize <= |x| && gru.hiddenSize <= state.Length
      requires gru.inputSize <= MAX_NEURONS && ShiftsInRange(s) && KnownActivation(gru.activation)
      modifies state
      ensures state[..gru.hiddenSize] == GruStep(table, gru, x, old(state[..]), s)
      ensures state[gru.hiddenSize..] == old(state[gru.hiddenSize..])
    {
      var h0 := state[..];
      GruFitsBySize(table, gru, x, h0, s);
      ComputeGruLayer(table, gru, state, x, s);
      assert state[..gru.hiddenSize] == GruStep(table, gru, x, h0, s);
    }

    /** destroySignalSifterModel_S16 releases nothing and changes nothing. */
    method Destroy()
      requires Valid()
      ensures Valid()
    {
    }
  }

  /** JMPDSP_vclr_S16(state, 1, n): zero the first n entries. */
  method ClearPrefix(a: array<int16>, n: nat)
    requires n <= a.Length
    modifies a
    ensures forall k :: 0 <= k < n ==> a[k] == 0
    ensures forall k :: n <= k < a.Length ==> a[k] == old(a[k])
  {
    forall i | 0 <= i < n ensures Strided(i, 1) < a.Length {
    }
    VClrS16(a, 1, n);
    forall k | n <= k < a.Length ensures !OnGrid(k, n, 1) {
      OnGridUnitStride(k, n);
    }
    forall k | 0 <= k < n ensures a[k] == 0 {
      assert a[Strided(k, 1)] == 0;
    }
  }

  /** With stride 1 the grid of n points is exactly 0 .. n-1. */
  lemma {:induction false} OnGridUnitStride(k: nat, n: nat)
    requires k >= n
    ensures !OnGrid(k, n, 1)
  {
    if n > 0 {
      OnGridUnitStride(k, n - 1);
    }
  }
}
