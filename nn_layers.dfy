/**
 * The fixed-point layers of src/nn_layers_fixedpt.c: a dense layer and a GRU layer built
 * on the int8 x int16 kernels. A layer's weights are read-only values; the GRU state is
 * an array the layer updates in place.
 */
module NnLayers {
  import opened FixedPointMath
  import opened NnlibFixedpt
  import opened NnlibKernels

  /** LinearLayer: row-major weights, hiddenSize rows of inputSize int8 values. */
  datatype LinearLayer = LinearLayer(bias: seq<int8>, weights: seq<int8>, inputSize: nat, hiddenSize: nat, activation: int)

  /**
   * GRULayer: three gates stored one after another (reset, update, candidate) in each
   * of the four arrays; the input weights of a gate are hiddenSize x inputSize, the
   * recurrent weights hiddenSize x hiddenSize.
   */
  datatype GruLayer = GruLayer(bias: seq<int8>, recurrentBias: seq<int8>, inputWeights: seq<int8>,
                               recurrentWeights: seq<int8>, inputSize: nat, hiddenSize: nat, activation: int)

  /** The weights cover every row, and the output fits the `out_S32[MAX_NEURONS]` scratch buffer. */
  predicate LinearShaped(l: LinearLayer)
  {
    l.hiddenSize <= |l.bias| && MatrixShape(l.weights, l.hiddenSize, l.inputSize) && l.hiddenSize <= MAX_NEURONS
  }

  /**
   * computeLinearLayer_S16: the matrix-vector product into a 32-bit scratch buffer, then
   * the layer's activation into output. An unknown activation tag leaves output as it was.
   */
  method ComputeLinearLayer(table: seq<int16>, layer: LinearLayer, output: array<int16>, input: seq<int16>, bls: nat, ors: nat)
    requires |table| == TANH_TABLE_SIZE
    requires LinearShaped(layer) && layer.inputSize <= |input| && layer.hiddenSize <= output.Length
    requires RowsFit(layer.bias, bls, layer.weights, input, layer.hiddenSize, layer.inputSize)
    modifies output
    ensures KnownActivation(layer.activation) ==> forall i :: 0 <= i < layer.hiddenSize ==>
              output[i] == Activate(table, layer.activation, LinearOut(layer.weights, input, layer.bias, i, layer.inputSize, bls, ors))
    ensures !KnownActivation(layer.activation) ==> output[..] == old(output[..])
    ensures output[layer.hiddenSize..] == old(output[layer.hiddenSize..])
  {
    var outS32 := new int32[MAX_NEURONS];
    LinearMatXVec(layer.weights, input, layer.bias, outS32, layer.inputSize, layer.hiddenSize, bls, ors);
    forall i | 0 <= i < layer.hiddenSize ensures ActivationArgOk(layer.activation, outS32[i]) {
      In19BitsArgOk(layer.activation, outS32[i]);
    }
    ApplyActivation(table, output, outS32[..], layer.hiddenSize, layer.activation);
  }

  /** Every bias and weight index the three gates read lies inside its array. */
  predicate GruSized(gru: GruLayer)
  {
    var n, ni, nh := gru.hiddenSize, gru.hiddenSize * gru.inputSize, gru.hiddenSize * gru.hiddenSize;
    3 * n <= |gru.bias| && 3 * n <= |gru.recurrentBias| && 3 * ni <= |gru.inputWeights| && 3 * nh <= |gru.recurrentWeights|
  }

  /** The reset gate: offset 0 in every array. */
  function ResetGate(gru: GruLayer): GateWeights
  {
    GateWeights(gru.inputWeights, gru.bias, gru.recurrentWeights, gru.recurrentBias)
  }

  /** The update gate: offsets Ni, N, Nh and N. */
  function UpdateGate(gru: GruLayer): GateWeights
    requires GruSized(gru)
  {
    var n, ni, nh := gru.hiddenSize, gru.hiddenSize * gru.inputSize, gru.hiddenSize * gru.hiddenSize;
    GateWeights(gru.inputWeights[ni..], gru.bias[n..], gru.recurrentWeights[nh..], gru.recurrentBias[n..])
  }

  /** The candidate gate: offsets 2 Ni, 2 N, 2 Nh and 2 N. */
  function CandidateGate(gru: GruLayer): GateWeights
    requires GruSized(gru)
  {
    var n, ni, nh := gru.hiddenSize, gru.hiddenSize * gru.inputSize, gru.hiddenSize * gru.hiddenSize;
    GateWeights(gru.inputWeights[2 * ni..], gru.bias[2 * n..], gru.recurrentWeights[2 * nh..], gru.recurrentBias[2 * n..])
  }

  predicate GruShaped(gru: GruLayer)
  {
    GruSized(gru) && gru.hiddenSize <= MAX_NEURONS
    && GateShape(ResetGate(gru), gru.inputSize, gru.hiddenSize)
    && GateShape(UpdateGate(gru), gru.inputSize, gru.hiddenSize)
    && GateShape(CandidateGate(gru), gru.inputSize, gru.hiddenSize)
  }

  /** Arrays holding three gates' worth of weights give every gate its full matrices. */
  lemma GruShapedBySize(gru: GruLayer)
    requires GruSized(gru) && gru.hiddenSize <= MAX_NEURONS
    ensures GruShaped(gru)
  {
    var n, i := gru.hiddenSize, gru.inputSize;
    MatrixShapeBySize(ResetGate(gru).wi, n, i);
    MatrixShapeBySize(ResetGate(gru).wh, n, n);
    MatrixShapeBySize(UpdateGate(gru).wi, n, i);
    MatrixShapeBySize(UpdateGate(gru).wh, n, n);
    MatrixShapeBySize(CandidateGate(gru).wi, n, i);
    MatrixShapeBySize(CandidateGate(gru).wh, n, n);
  }

  /** Reset and update gates: accumulators and shifted sums all inside int32. */
  predicate SigmoidGatesFit(gru: GruLayer, x: seq<int16>, h: seq<int16>, s: Shifts)
    requires GruShaped(gru) && gru.inputSize <= |x| && gru.hiddenSize <= |h|
  {
    var i, n := gru.inputSize, gru.hiddenSize;
    GateAccFits(ResetGate(gru), x, h, i, n, s) && GateSumsFit(ResetGate(gru), x, h, i, n, s)
    && GateAccFits(UpdateGate(gru), x, h, i, n, s) && GateSumsFit(UpdateGate(gru), x, h, i, n, s)
  }

  /** r[i]: the sigmoid of the reset gate, a Q15 value in [0, 1). */
  function ResetValue(table: seq<int16>, gru: GruLayer, x: seq<int16>, h: seq<int16>, s: Shifts, k: nat): (r: int16)
    requires |table| == TANH_TABLE_SIZE
    requires GruShaped(gru) && gru.inputSize <= |x| && gru.hiddenSize <= |h| && k < gru.hiddenSize
    requires SigmoidGatesFit(gru, x, h, s)
    ensures 0 <= r <= 0x7FFF
  {
    var v := GatePre(ResetGate(gru), x, h, k, gru.inputSize, gru.hiddenSize, s);
    In19BitsArgOk(ACTIVATION_SIGMOID, v);
    Sigmoid(table, v)
  }

  /** z[i]: the sigmoid of the update gate, a Q15 value in [0, 1). */
  function UpdateValue(table: seq<int16>, gru: GruLayer, x: seq<int16>, h: seq<int16>, s: Shifts, k: nat): (z: int16)
    requires |table| == TANH_TABLE_SIZE
    requires GruShaped(gru) && gru.inputSize <= |x| && gru.hiddenSize <= |h| && k < gru.hiddenSize
    requires SigmoidGatesFit(gru, x, h, s)
    ensures 0 <= z <= 0x7FFF
  {
    var v := GatePre(UpdateGate(gru), x, h, k, gru.inputSize, gru.hiddenSize, s);
    In19BitsArgOk(ACTIVATION_SIGMOID, v);
    Sigmoid(table, v)
  }

  /** All three gates stay inside int32 (the candidate gate with its reset scaling). */
  predicate GruFits(table: seq<int16>, gru: GruLayer, x: seq<int16>, h: seq<int16>, s: Shifts)
    requires |table| == TANH_TABLE_SIZE
    requires GruShaped(gru) && gru.inputSize <= |x| && gru.hiddenSize <= |h|
  {
    SigmoidGatesFit(gru, x, h, s)
    && GateAccFits(CandidateGate(gru), x, h, gru.inputSize, gru.hiddenSize, s)
    && forall k :: 0 <= k < gru.hiddenSize ==>
         InInt32(NewGateSum(CandidateGate(gru), x, h, ResetValue(table, gru, x, h, s, k), k, gru.inputSize, gru.hiddenSize, s))
  }

  /** h[i]: the layer's activation of the candidate gate. */
  function CandidateValue(table: seq<int16>, gru: GruLayer, x: seq<int16>, h: seq<int16>, s: Shifts, k: nat): int16
    requires |table| == TANH_TABLE_SIZE
    requires GruShaped(gru) && gru.inputSize <= |x| && gru.hiddenSize <= |h| && k < gru.hiddenSize
    requires KnownActivation(gru.activation)
    requires GruFits(table, gru, x, h, s)
  {
    var v := NewGatePre(CandidateGate(gru), x, h, ResetValue(table, gru, x, h, s, k), k, gru.inputSize, gru.hiddenSize, s);
    In19BitsArgOk(gru.activation, v);
    Activate(table, gru.activation, v)
  }

  /**
   * The new state value k: z * h_old + (1 - z) * candidate in Q15. It is always an
   * int16 without wrap-around and lies within one LSB of the interval between the old
   * state value and the candidate.
   */
  function GruNext(table: seq<int16>, gru: GruLayer, x: seq<int16>, h: seq<int16>, s: Shifts, k: nat): (r: int16)
    requires |table| == TANH_TABLE_SIZE
    requires GruShaped(gru) && gru.inputSize <= |x| && gru.hiddenSize <= |h| && k < gru.hiddenSize
    requires KnownActivation(gru.activation)
    requires GruFits(table, gru, x, h, s)
    ensures var c := CandidateValue(table, gru, x, h, s, k);
            Min(h[k], c) - 1 <= r <= Max(h[k], c) + 1
  {
    var z := UpdateValue(table, gru, x, h, s, k);
    var c := CandidateValue(table, gru, x, h, s, k);
    InterpConvex(z, h[k], c);
    Interp(z, h[k], c)
  }

  /**
   * With the shift amounts the network uses (bias shifts of at most 15, accumulator
   * shifts of at least 1) and at most MAX_NEURONS inputs and units, no accumulator and
   * no shifted sum of any gate overflows, whatever the weights, input and state.
   */
  lemma GruFitsBySize(table: seq<int16>, gru: GruLayer, x: seq<int16>, h: seq<int16>, s: Shifts)
    requires |table| == TANH_TABLE_SIZE
    requires GruShaped(gru) && gru.inputSize <= |x| && gru.hiddenSize <= |h|
    requires gru.inputSize <= MAX_NEURONS
    requires s.biLeft <= 15 && s.bhLeft <= 15 && s.outiRight >= 1 && s.outhRight >= 1
    ensures GruFits(table, gru, x, h, s)
  {
    var i, n := gru.inputSize, gru.hiddenSize;
    GateFitsBySize(ResetGate(gru), x, h, i, n, s);
    GateFitsBySize(UpdateGate(gru), x, h, i, n, s);
    var g := CandidateGate(gru);
    RowsFitBySize(g.bi, s.biLeft, g.wi, x, n, i);
    RowsFitBySize(g.bh, s.bhLeft, g.wh, h, n, n);
    forall k | 0 <= k < n
      ensures InInt32(NewGateSum(g, x, h, ResetValue(table, gru, x, h, s, k), k, i, n, s))
    {
      var rk := ResetValue(table, gru, x, h, s, k);
      HalvedSumFits(InputAcc(g, x, k, i, n, s), FMul32x16(RecurrentAcc(g, h, k, n, s), rk), s.outiRight, s.outhRight);
    }
  }

  lemma GateFitsBySize(g: GateWeights, x: seq<int16>, h: seq<int16>, i: nat, n: nat, s: Shifts)
    requires GateShape(g, i, n) && i <= |x| && n <= |h|
    requires i <= MAX_NEURONS && n <= MAX_NEURONS
    requires s.biLeft <= 15 && s.bhLeft <= 15 && s.outiRight >= 1 && s.outhRight >= 1
    ensures GateAccFits(g, x, h, i, n, s) && GateSumsFit(g, x, h, i, n, s)
  {
    RowsFitBySize(g.bi, s.biLeft, g.wi, x, n, i);
    RowsFitBySize(g.bh, s.bhLeft, g.wh, h, n, n);
    forall k | 0 <= k < n ensures InInt32(GateSum(g, x, h, k, i, n, s)) {
      HalvedSumFits(InputAcc(g, x, k, i, n, s), RecurrentAcc(g, h, k, n, s), s.outiRight, s.outhRight);
    }
  }

  /**
   * computeGRULayer_S16: reset gate r and update gate z through a sigmoid, candidate h
   * through the layer's activation from r, then the state is interpolated in place
   * between its old value (weight z) and h. Every gate reads the state as it was on entry.
   */
  method ComputeGruLayer(table: seq<int16>, gru: GruLayer, state: array<int16>, input: seq<int16>, s: Shifts)
    requires |table| == TANH_TABLE_SIZE
    requires GruShaped(gru) && gru.inputSize <= |input| && gru.hiddenSize <= state.Length
    requires KnownActivation(gru.activation)
    requires GruFits(table, gru, input, state[..], s)
    modifies state
    ensures forall k :: 0 <= k < gru.hiddenSize ==> state[k] == GruNext(table, gru, input, old(state[..]), s, k)
    ensures state[gru.hiddenSize..] == old(state[gru.hiddenSize..])
  {
    var h0 := state[..];
    var z, h := ComputeGates(table, gru, input, h0, s);
    forall k | 0 <= k < gru.hiddenSize ensures InInt32(InterpSum(z[k], state[k], h[k])) {
      InterpConvex(z[k], state[k], h[k]);
    }
    VecInterpolation(state, z[..], state, h[..], gru.hiddenSize);
  }

  /**
   * The three gate computations of computeGRULayer_S16, all from the state on entry:
   * the update gate z and the candidate h (the reset gate r only feeds h).
   */
  method ComputeGates(table: seq<int16>, gru: GruLayer, input: seq<int16>, h0: seq<int16>, s: Shifts)
    returns (z: array<int16>, h: array<int16>)
    requires |table| == TANH_TABLE_SIZE
    requires GruShaped(gru) && gru.inputSize <= |input| && gru.hiddenSize <= |h0|
    requires KnownActivation(gru.activation)
    requires GruFits(table, gru, input, h0, s)
    ensures fresh(z) && fresh(h) && z.Length == MAX_NEURONS && h.Length == MAX_NEURONS
    ensures forall k :: 0 <= k < gru.hiddenSize ==> z[k] == UpdateValue(table, gru, input, h0, s, k)
    ensures forall k :: 0 <= k < gru.hiddenSize ==> h[k] == CandidateValue(table, gru, input, h0, s, k)
  {
    var n, ni := gru.hiddenSize, gru.inputSize;
    z := new int16[MAX_NEURONS];
    var r := new int16[MAX_NEURONS];
    h := new int16[MAX_NEURONS];
    GruMatXVec(table, ResetGate(gru), input, h0, r, ni, n, s, ACTIVATION_SIGMOID);
    GruMatXVec(table, UpdateGate(gru), input, h0, z, ni, n, s, ACTIVATION_SIGMOID);
    assert forall k :: 0 <= k < n ==> r[..][k] == ResetValue(table, gru, input, h0, s, k);
    GruNewGate(table, CandidateGate(gru), input, h0, r[..], h, ni, n, s, gru.activation);
  }

  /** Bias shifts of at most 15 bits and accumulator shifts of at least one bit. */
  predicate ShiftsInRange(s: Shifts)
  {
    s.biLeft <= 15 && s.bhLeft <= 15 && s.outiRight >= 1 && s.outhRight >= 1
  }

  /**
   * The state vector computeGRULayer_S16 leaves behind, for a layer with at most
   * MAX_NEURONS inputs and shifts in range: such a layer can never overflow, whatever
   * its weights, input and previous state.
   */
  function GruStep(table: seq<int16>, gru: GruLayer, x: seq<int16>, h: seq<int16>, s: Shifts): (r: seq<int16>)
    requires |table| == TANH_TABLE_SIZE
    requires GruShaped(gru) && gru.inputSize <= |x| && gru.hiddenSize <= |h|
    requires gru.inputSize <= MAX_NEURONS && ShiftsInRange(s) && KnownActivation(gru.activation)
    ensures GruFits(table, gru, x, h, s)
    ensures |r| == gru.hiddenSize
    ensures forall k :: 0 <= k < |r| ==> r[k] == GruNext(table, gru, x, h, s, k)
  {
    GruFitsBySize(table, gru, x, h, s);
    seq(gru.hiddenSize, k requires 0 <= k < gru.hiddenSize => GruNext(table, gru, x, h, s, k))
  }

  /**
   * The gains computeLinearLayer_S16 writes for a known activation, for at most
   * MAX_NEURONS inputs and a bias shift of at most 15: no accumulator overflows.
   */
  function LinearStep(table: seq<int16>, layer: LinearLayer, x: seq<int16>, bls: nat, ors: nat): (r: seq<int16>)
    requires |table| == TANH_TABLE_SIZE
    requires LinearShaped(layer) && layer.inputSize <= |x| && KnownActivation(layer.activation)
    requires layer.inputSize <= MAX_NEURONS && bls <= 15
    ensures RowsFit(layer.bias, bls, layer.weights, x, layer.hiddenSize, layer.inputSize)
    ensures |r| == layer.hiddenSize
    ensures forall k :: 0 <= k < |r| ==>
              r[k] == Activate(table, layer.activation, LinearOut(layer.weights, x, layer.bias, k, layer.inputSize, bls, ors))
  {
    RowsFitBySize(layer.bias, bls, layer.weights, x, layer.hiddenSize, layer.inputSize);
    seq(layer.hiddenSize, k requires 0 <= k < layer.hiddenSize =>
      var v := LinearOut(layer.weights, x, layer.bias, k, layer.inputSize, bls, ors);
      In19BitsArgOk(layer.activation, v);
      Activate(table, layer.activation, v))
  }
}
