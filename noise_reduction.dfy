/**
 * The noise-reduction session of src/noise_reduction.c: one STFT analysis of the hop,
 * the SignalSifter network on the quantised log-magnitudes, a gain post-processing
 * step with memory, masking of the spectrum and overlap-add synthesis.
 */
module GainPostprocess {

  const NR_ALPHA_REVERB: real := 0.0
  const NR_GAIN_BOOST: real := 1.0
  const NR_SPEECH_GAIN: real := 20.0
  const ENABLE_SPEECH_BOOST: bool := false

  /** fmaxf */
  function FMax(a: real, b: real): (r: real)
    ensures r >= a && r >= b && (r == a || r == b)
  {
    if a >= b then a else b
  }

  /** fminf */
  function FMin(a: real, b: real): (r: real)
    ensures r <= a && r <= b && (r == a || r == b)
  {
    if a <= b then a else b
  }

  /** The tuning fields of struct NoiseReduction. */
  datatype Tuning = Tuning(
    alphaReverb: real, alphaLowLev: real, minGain: real, gainBoost: real,
    speechBandStartBin: int, speechBandEndBin: int)

  /** The intended speech-band test: start <= i <= end. */
  predicate InSpeechBand(t: Tuning, i: int)
  {
    t.speechBandStartBin <= i <= t.speechBandEndBin
  }

  /**
   * The speech-band test as C evaluates `start <= i <= end`: the comparison
   * `start <= i` yields 0 or 1, and that is compared with end. It holds for every bin
   * once the band ends at bin 1 or later, for no bin when it ends below 0, and for
   * exactly the bins below the start when it ends at bin 0.
   */
  predicate InSpeechBandAsWritten(t: Tuning, i: int): (b: bool)
    ensures t.speechBandEndBin >= 1 ==> b
    ensures t.speechBandEndBin < 0 ==> !b
    ensures t.speechBandEndBin == 0 ==> (b <==> i < t.speechBandStartBin)
  {
    (if t.speechBandStartBin <= i then 1 else 0) <= t.speechBandEndBin
  }

  /** The speech boost: gains above 0.25 inside the band are multiplied by NR_SPEECH_GAIN. */
  function SpeechBoost(t: Tuning, g: real, i: int): (r: real)
    ensures !InSpeechBand(t, i) ==> r == g
    ensures InSpeechBand(t, i) && g > 0.25 ==> r == NR_SPEECH_GAIN * g
    ensures g <= 0.25 ==> r == g
  {
    if InSpeechBand(t, i) then g * (if g > 0.25 then NR_SPEECH_GAIN else 1.0) else g
  }

  /** The speech boost with the guard as written. */
  function SpeechBoostAsWritten(t: Tuning, g: real, i: int): (r: real)
    ensures t.speechBandEndBin >= 1 && g > 0.25 ==> r == NR_SPEECH_GAIN * g
    ensures !InSpeechBandAsWritten(t, i) ==> r == g
    ensures g <= 0.25 ==> r == g
  {
    if InSpeechBandAsWritten(t, i) then g * (if g > 0.25 then NR_SPEECH_GAIN else 1.0) else g
  }

  /**
   * A band of bins 10 to 100: as written, bin 500 (far above the band) is still boosted,
   * whereas the intended test leaves it alone.
   */
  lemma SpeechBoostOutsideBandAsWritten()
    ensures SpeechBoostAsWritten(Tuning(0.0, 0.75, 0.0001, 1.0, 10, 100), 0.5, 500) == 10.0
    ensures SpeechBoost(Tuning(0.0, 0.75, 0.0001, 1.0, 10, 100), 0.5, 500) == 0.5
  {
  }

  /**
   * The network gain reshaped as `gin * sinf(pi/2 * gin)` (shape stands for the sine
   * term), then boosted when the boost is enabled.
   */
  function ShapedGain(t: Tuning, shape: real -> real, boost: bool, gin: real, i: int): real
  {
    var shaped := gin * shape(gin);
    if boost then SpeechBoost(t, shaped, i) else shaped
  }

  /**
   * The gain of one bin before the boost and the clamp: the shaped gain held up by the
   * decayed previous gain and by the scaled network gain, whichever is largest.
   */
  function PreClampGain(t: Tuning, shape: real -> real, boost: bool, gin: real, gstate: real, i: int): (g: real)
    ensures g >= t.alphaReverb * gstate
    ensures g >= t.alphaLowLev * gin
    ensures g >= ShapedGain(t, shape, boost, gin, i)
    ensures g == t.alphaReverb * gstate || g == t.alphaLowLev * gin || g == ShapedGain(t, shape, boost, gin, i)
  {
    FMax(FMax(ShapedGain(t, shape, boost, gin, i), t.alphaReverb * gstate), t.alphaLowLev * gin)
  }

  /**
   * `fmaxf(fminf(b, 1), minGain)`: at least minGain, at most 1 unless minGain is larger,
   * and b itself whenever b already lies in [minGain, 1].
   */
  function ClampGain(b: real, minGain: real): (g: real)
    ensures g >= minGain
    ensures minGain <= 1.0 ==> g <= 1.0
    ensures minGain <= b <= 1.0 ==> g == b
  {
    FMax(FMin(b, 1.0), minGain)
  }

  /** The gain postprocess_gains stores for one bin. */
  function PostGain(t: Tuning, shape: real -> real, boost: bool, gin: real, gstate: real, i: int): (g: real)
    ensures g >= t.minGain
    ensures t.minGain <= 1.0 ==> g <= 1.0
  {
    ClampGain(PreClampGain(t, shape, boost, gin, gstate, i) * t.gainBoost, t.minGain)
  }

  /** With alphaReverb = 0 (NR_ALPHA_REVERB) the previous gain has no influence at all. */
  lemma PostGainMemorylessWithoutReverb(t: Tuning, shape: real -> real, boost: bool, gin: real, s1: real, s2: real, i: int)
    requires t.alphaReverb == 0.0
    ensures PostGain(t, shape, boost, gin, s1, i) == PostGain(t, shape, boost, gin, s2, i)
  {
    assert t.alphaReverb * s1 == 0.0 == t.alphaReverb * s2;
  }

  /**
   * postprocess_gains: bin i reads only gainsIn[i] and its own previous gainsState[i];
   * only gainsState[0 .. numBins) is written.
   */
  method PostprocessGains(gainsIn: seq<real>, gainsState: array<real>, numBins: nat, t: Tuning, shape: real -> real)
    requires numBins <= |gainsIn| && numBins <= gainsState.Length
    modifies gainsState
    ensures forall k :: 0 <= k < numBins ==>
              gainsState[k] == PostGain(t, shape, ENABLE_SPEECH_BOOST, gainsIn[k], old(gainsState[k]), k)
    ensures gainsState[numBins..] == old(gainsState[numBins..])
  {
    var i := 0;
    while i < numBins
      invariant 0 <= i <= numBins
      invariant forall k :: 0 <= k < i ==>
                  gainsState[k] == PostGain(t, shape, ENABLE_SPEECH_BOOST, gainsIn[k], old(gainsState[k]), k)
      invariant forall k :: i <= k < gainsState.Length ==> gainsState[k] == old(gainsState[k])
    {
      var gain := BinGain(gainsIn[i], gainsState[i], i, t, shape);
      gainsState[i] := gain;
      i := i + 1;
    }
  }

  /** The body of postprocess_gains for bin i. */
  method BinGain(gin: real, gstate: real, i: int, t: Tuning, shape: real -> real) returns (g: real)
    ensures g == PostGain(t, shape, ENABLE_SPEECH_BOOST, gin, gstate, i)
  {
    var gain := gin * shape(gin);
    if ENABLE_SPEECH_BOOST {
      if InSpeechBand(t, i) {
        gain := gain * (if gain > 0.25 then NR_SPEECH_GAIN else 1.0);
      }
    }
    var gainReverb := t.alphaReverb * gstate;
    gain := FMax(gain, gainReverb);
    var gainLowerLevel := t.alphaLowLev * gin;
    gain := FMax(gain, gainLowerLevel);
    g := FMax(FMin(gain * t.gainBoost, 1.0), t.minGain);
  }
}

/**
 * The session itself: analysis, network, post-processing, masking and synthesis, in
 * that order.
 */
module NoiseReduction {
  import opened FixedPointMath
  import opened NnlibFixedpt
  import opened NnlibKernels
  import opened NnLayers
  import opened SignalSifterNet
  import opened DspProcessing
  import opened GainPostprocess

  /**
   * The header declares the gains memory with IO_SIZE slots; post-processing writes
   * stft.numBins of them, so PostprocessGains' precondition fails on such an array
   * for every STFT that Stft.Create builds.
   */
  lemma GainsOverrunAsWritten(stft: Stft, gainsState: array<real>)
    requires stft.Valid() && gainsState.Length == IO_SIZE
    ensures !(stft.numBins <= gainsState.Length)
    ensures gainsState.Length == stft.numBins - 1
  {
  }

  /** NoiseReductionState */
  class NoiseReductionState {
    var tuning: Tuning
    const stft: Stft
    const ss: SignalSifter
    /** The gains applied in the previous frame, one per bin. */
    const gains: array<real>
    /** `sinf(M_PI_2 * g)` */
    const shape: real -> real
    /** convert_F32toS16 with INPUT_NUM_FRAC_BITS, one sample. */
    const toS16: real -> int16
    /** convert_S16toF32 with GRU_NUM_FRAC_BITS, one sample. */
    const toF32: int16 -> real

    ghost predicate Valid()
      reads this, stft, ss
    {
      stft.Valid() && ss.Valid() && gains.Length == NUM_BINS
      && gains != stft.inputAux && gains != stft.outputAux && gains != stft.xmag
      && ss.model.gru1.inputSize <= NUM_BINS && ss.model.linear1.hiddenSize <= NUM_BINS
    }

    /**
     * create_noise_reduction: creates the STFT and the network and sets the tuning; the
     * gains memory is left as it was allocated. The speech-band bins are passed in
     * already divided by the frequency resolution.
     */
    constructor Create(
      win: seq<real>, fftFn: seq<real> -> seq<Complex>, ifftFn: seq<Complex> -> seq<real>, log10Fn: real -> real,
      m: SignalSifterModel, tanhTable: seq<int16>,
      naturalness: real, minGain: real, speechBandStartBin: int, speechBandEndBin: int,
      shapeFn: real -> real, toS16Fn: real -> int16, toF32Fn: int16 -> real)
      requires |win| == FFT_SIZE && SpectrumSized(fftFn) && FrameSized(ifftFn)
      requires ModelValid(m) && |tanhTable| == TANH_TABLE_SIZE
      requires m.gru1.inputSize <= NUM_BINS && m.linear1.hiddenSize <= NUM_BINS
      ensures Valid()
      ensures tuning == Tuning(NR_ALPHA_REVERB, naturalness, minGain, NR_GAIN_BOOST, speechBandStartBin, speechBandEndBin)
      ensures stft.inputAux[..] == Zeros(FFT_SIZE) && stft.outputAux[..] == Zeros(FFT_SIZE)
      ensures stft.xmag[..] == Zeros(NUM_BINS)
      ensures ss.model == m && ss.table == tanhTable
      ensures forall k :: 0 <= k < m.gru1HiddenSize ==> ss.gru1State[k] == 0
      ensures forall k :: 0 <= k < m.gru2HiddenSize ==> ss.gru2State[k] == 0
      ensures forall k :: 0 <= k < m.gru3HiddenSize ==> ss.gru3State[k] == 0
      ensures shape == shapeFn && toS16 == toS16Fn && toF32 == toF32Fn
    {
      stft := new Stft.Create(win, fftFn, ifftFn, log10Fn);
      ss := new SignalSifter.Create(m, tanhTable);
      gains := new real[NUM_BINS];
      tuning := Tuning(NR_ALPHA_REVERB, naturalness, minGain, NR_GAIN_BOOST, speechBandStartBin, speechBandEndBin);
      shape, toS16, toF32 := shapeFn, toS16Fn, toF32Fn;
    }

    /** The network input: the log-magnitudes converted to Q10. */
    function NetInput(xmag: seq<real>): (r: seq<int16>)
      requires |xmag| == NUM_BINS
      reads this
      ensures |r| == NUM_BINS
    {
      seq(NUM_BINS, k requires 0 <= k < NUM_BINS => toS16(xmag[k]))
    }

    /**
     * The network output for one frame: the cleared NUM_BINS-entry vector with the
     * linear layer's outputs in front, converted from Q15.
     */
    ghost function NetGains(h3: seq<int16>): (r: seq<real>)
      requires Valid() && |h3| == GRU_STATE_SIZE
      reads this, stft, ss
      ensures |r| == NUM_BINS
      ensures !KnownActivation(ss.model.linear1.activation) ==> forall k :: 0 <= k < NUM_BINS ==> r[k] == toF32(0)
      ensures forall k :: ss.model.linear1.hiddenSize <= k < NUM_BINS ==> r[k] == toF32(0)
    {
      var lin := ss.model.linear1;
      if KnownActivation(lin.activation) then
        var g := LinearStep(ss.table, lin, h3, LIN_NUM_FRAC_BITS, WAB_FRAC_BITS);
        seq(NUM_BINS, k requires 0 <= k < NUM_BINS => toF32(if k < lin.hiddenSize then g[k] else 0))
      else
        seq(NUM_BINS, _ => toF32(0))
    }

    /**
     * noise_reduction_process, stage by stage: analysis of the hop, the network on the
     * quantised log-magnitudes, post-processing of its gains into the gains memory,
     * masking with those gains, and synthesis of R output samples. netGains are the
     * network's gains of this frame.
     */
    method Process(input: seq<real>, output: array<real>, R: nat) returns (ghost netGains: seq<real>)
      requires Valid() && HopOk(R) && R <= |input| && R <= output.Length
      requires output != stft.inputAux && output != stft.outputAux && output != stft.xmag && output != gains
      modifies stft.inputAux, stft.outputAux, stft.xk, stft.yk, stft.xmag
      modifies ss.gru1State, ss.gru2State, ss.gru3State, gains, output
      ensures Valid()
      ensures stft.inputAux[..] == HopShift(old(stft.inputAux[..]), input, FFT_SIZE, R)
      ensures stft.xk[..] == stft.Spectrum(stft.inputAux[..])
      ensures forall k :: 0 <= k < NUM_BINS ==>
                stft.xmag[k] == LogMag(stft.log10, 10.0, BinPower(stft.xk[..], k, NUM_BINS))
      ensures ss.gru1State[..ss.model.gru1.hiddenSize]
              == GruStep(ss.table, ss.model.gru1, NetInput(stft.xmag[..]), old(ss.gru1State[..]), FIRST_LAYER_SHIFTS)
      ensures ss.gru2State[..ss.model.gru2.hiddenSize]
              == GruStep(ss.table, ss.model.gru2, ss.gru1State[..], old(ss.gru2State[..]), INNER_LAYER_SHIFTS)
      ensures ss.gru3State[..ss.model.gru3.hiddenSize]
              == GruStep(ss.table, ss.model.gru3, ss.gru2State[..], old(ss.gru3State[..]), INNER_LAYER_SHIFTS)
      ensures ss.gru1State[ss.model.gru1.hiddenSize..] == old(ss.gru1State[ss.model.gru1.hiddenSize..])
      ensures ss.gru2State[ss.model.gru2.hiddenSize..] == old(ss.gru2State[ss.model.gru2.hiddenSize..])
      ensures ss.gru3State[ss.model.gru3.hiddenSize..] == old(ss.gru3State[ss.model.gru3.hiddenSize..])
      ensures netGains == NetGains(ss.gru3State[..])
      ensures forall k :: 0 <= k < NUM_BINS ==>
                gains[k] == PostGain(tuning, shape, ENABLE_SPEECH_BOOST, netGains[k], old(gains[k]), k)
      ensures forall k :: 0 <= k < NUM_BINS ==> stft.yk[k] == Masked(stft.xk[k], gains[k])
      ensures stft.outputAux[..]
              == OlaAccumulate(old(stft.outputAux[..]), stft.ifft(stft.yk[..]), stft.window, stft.ifftScale, R)
      ensures output[..R] == stft.outputAux[..R]
      ensures output[R..] == old(output[R..])
    {
      var net := Predict(input, R);
      netGains := net;
      Enhance(net, output, R);
    }

    /**
     * The first half of noise_reduction_process: analysis of the hop and the network on
     * the log-magnitudes, with the network's gains cleared first and converted after.
     */
    method Predict(input: seq<real>, R: nat) returns (net: seq<real>)
      requires Valid() && HopOk(R) && R <= |input|
      modifies stft.inputAux, stft.xk, stft.xmag, ss.gru1State, ss.gru2State, ss.gru3State
      ensures Valid()
      ensures stft.inputAux[..] == HopShift(old(stft.inputAux[..]), input, FFT_SIZE, R)
      ensures stft.xk[..] == stft.Spectrum(stft.inputAux[..])
      ensures forall k :: 0 <= k < NUM_BINS ==>
                stft.xmag[k] == LogMag(stft.log10, 10.0, BinPower(stft.xk[..], k, NUM_BINS))
      ensures ss.gru1State[..ss.model.gru1.hiddenSize]
              == GruStep(ss.table, ss.model.gru1, NetInput(stft.xmag[..]), old(ss.gru1State[..]), FIRST_LAYER_SHIFTS)
      ensures ss.gru2State[..ss.model.gru2.hiddenSize]
              == GruStep(ss.table, ss.model.gru2, ss.gru1State[..], old(ss.gru2State[..]), INNER_LAYER_SHIFTS)
      ensures ss.gru3State[..ss.model.gru3.hiddenSize]
              == GruStep(ss.table, ss.model.gru3, ss.gru2State[..], old(ss.gru3State[..]), INNER_LAYER_SHIFTS)
      ensures ss.gru1State[ss.model.gru1.hiddenSize..] == old(ss.gru1State[ss.model.gru1.hiddenSize..])
      ensures ss.gru2State[ss.model.gru2.hiddenSize..] == old(ss.gru2State[ss.model.gru2.hiddenSize..])
      ensures ss.gru3State[ss.model.gru3.hiddenSize..] == old(ss.gru3State[ss.model.gru3.hiddenSize..])
      ensures net == NetGains(ss.gru3State[..])
    {
      stft.StftProcess(input, R);
      net := RunNetwork(NetInput(stft.xmag[..]));
    }

    /** convert_F32toS16, computeSignalSifterModel_S16 on a cleared gains vector, convert_S16toF32. */
    method RunNetwork(x: seq<int16>) returns (net: seq<real>)
      requires Valid() && |x| == NUM_BINS
      modifies ss.gru1State, ss.gru2State, ss.gru3State
      ensures Valid()
      ensures ss.gru1State[..ss.model.gru1.hiddenSize]
              == GruStep(ss.table, ss.model.gru1, x, old(ss.gru1State[..]), FIRST_LAYER_SHIFTS)
      ensures ss.gru2State[..ss.model.gru2.hiddenSize]
              == GruStep(ss.table, ss.model.gru2, ss.gru1State[..], old(ss.gru2State[..]), INNER_LAYER_SHIFTS)
      ensures ss.gru3State[..ss.model.gru3.hiddenSize]
              == GruStep(ss.table, ss.model.gru3, ss.gru2State[..], old(ss.gru3State[..]), INNER_LAYER_SHIFTS)
      ensures ss.gru1State[ss.model.gru1.hiddenSize..] == old(ss.gru1State[ss.model.gru1.hiddenSize..])
      ensures ss.gru2State[ss.model.gru2.hiddenSize..] == old(ss.gru2State[ss.model.gru2.hiddenSize..])
      ensures ss.gru3State[ss.model.gru3.hiddenSize..] == old(ss.gru3State[ss.model.gru3.hiddenSize..])
      ensures net == NetGains(ss.gru3State[..])
    {
      var gainsS16 := new int16[NUM_BINS](_ => 0);
      ss.Compute(gainsS16, x);
      var g16 := gainsS16[..];
      net := seq(NUM_BINS, k requires 0 <= k < NUM_BINS => toF32(g16[k]));
      NetGainsAgree(g16, net);
    }

    /**
     * The second half of noise_reduction_process: post-processing of the network's gains
     * into the gains memory, masking with them, and synthesis.
     */
    method Enhance(net: seq<real>, output: array<real>, R: nat)
      requires Valid() && HopOk(R) && |net| == NUM_BINS && R <= output.Length
      requires output != stft.inputAux && output != stft.outputAux && output != stft.xmag && output != gains
      modifies gains, stft.yk, stft.outputAux, output
      ensures Valid()
      ensures forall k :: 0 <= k < NUM_BINS ==>
                gains[k] == PostGain(tuning, shape, ENABLE_SPEECH_BOOST, net[k], old(gains[k]), k)
      ensures forall k :: 0 <= k < NUM_BINS ==> stft.yk[k] == Masked(stft.xk[k], gains[k])
      ensures stft.outputAux[..]
              == OlaAccumulate(old(stft.outputAux[..]), stft.ifft(stft.yk[..]), stft.window, stft.ifftScale, R)
      ensures output[..R] == stft.outputAux[..R]
      ensures output[R..] == old(output[R..])
    {
      PostprocessGains(net, gains, stft.numBins, tuning, shape);
      stft.MaskProcess(gains[..]);
      stft.IstftProcess(output, R);
    }

    /** The converted gains the network wrote are NetGains of its last state. */
    lemma NetGainsAgree(g16: seq<int16>, net: seq<real>)
      requires Valid() && |g16| == NUM_BINS
      requires var lin := ss.model.linear1;
               (KnownActivation(lin.activation) ==>
                  g16[..lin.hiddenSize] == LinearStep(ss.table, lin, ss.gru3State[..], LIN_NUM_FRAC_BITS, WAB_FRAC_BITS))
               && (!KnownActivation(lin.activation) ==> forall k :: 0 <= k < lin.hiddenSize ==> g16[k] == 0)
      requires forall k :: ss.model.linear1.hiddenSize <= k < NUM_BINS ==> g16[k] == 0
      requires net == seq(NUM_BINS, k requires 0 <= k < NUM_BINS => toF32(g16[k]))
      ensures net == NetGains(ss.gru3State[..])
    {
      var lin := ss.model.linear1;
      if KnownActivation(lin.activation) {
        var g := LinearStep(ss.table, lin, ss.gru3State[..], LIN_NUM_FRAC_BITS, WAB_FRAC_BITS);
        forall k | 0 <= k < lin.hiddenSize ensures g16[k] == g[k] {
          assert g16[..lin.hiddenSize][k] == g16[k];
        }
      }
    }

    /** destroy_noise_reduction releases nothing and changes nothing. */
    method Destroy()
      requires Valid()
      ensures Valid()
    {
    }
  }
}
