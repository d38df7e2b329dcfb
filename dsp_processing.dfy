/**
 * The STFT buffer bookkeeping of src/dsp_processing.c. Samples are `real`; the real FFT
 * and its inverse (kiss_fftr / kiss_fftri), log10f and the analysis window (computed with
 * sqrtf and cosf) are parameters the session is created with, so only the index and
 * ordering logic around them is modelled.
 */
module DspProcessing {

  const IO_SIZE: nat := 128
  const FFT_SIZE: nat := 256
  const NUM_BINS: nat := 129
  const HOP_LENGTH: nat := 128
  const LOGMAG_EPSILON: real := 0.001

  /** kiss_fft_cpx */
  datatype Complex = Complex(r: real, i: real)

  /** update_buffer as a value: the oldest R samples of the first N drop out, R new ones are appended. */
  function HopShift(buffer: seq<real>, newInput: seq<real>, N: nat, R: nat): (r: seq<real>)
    requires R <= N <= |buffer| && R <= |newInput|
    ensures |r| == N
  {
    buffer[R..N] + newInput[..R]
  }

  /**
   * With a hop of half the buffer, two hops replace the whole buffer: the analysis buffer
   * always holds exactly the two most recent input blocks, oldest first.
   */
  lemma HopShiftTwice(buffer: seq<real>, x: seq<real>, y: seq<real>, R: nat)
    requires 2 * R <= |buffer| && R <= |x| && R <= |y|
    ensures HopShift(HopShift(buffer, x, 2 * R, R), y, 2 * R, R) == x[..R] + y[..R]
  {
    var b1 := HopShift(buffer, x, 2 * R, R);
    assert b1[R..2 * R] == x[..R];
  }

  /**
   * update_buffer: `memcpy(&buffer[0], &buffer[R], N-R)` then `memcpy(&buffer[N-R], new_input, R)`.
   * memcpy needs its source and destination not to overlap, so the hop must be at least
   * half the buffer.
   */
  method UpdateBuffer(buffer: array<real>, newInput: seq<real>, N: nat, R: nat)
    requires R <= N <= buffer.Length && R <= |newInput|
    requires N <= 2 * R
    modifies buffer
    ensures buffer[..N] == HopShift(old(buffer[..]), newInput, N, R)
    ensures buffer[N..] == old(buffer[N..])
  {
    ghost var b := buffer[..];
    var i := 0;
    while i < N - R
      invariant 0 <= i <= N - R
      invariant forall k :: 0 <= k < i ==> buffer[k] == b[R + k]
      invariant forall k :: i <= k < buffer.Length ==> buffer[k] == b[k]
    {
      buffer[i] := buffer[R + i];
      i := i + 1;
    }
    var j := 0;
    while j < R
      invariant 0 <= j <= R
      invariant forall k :: 0 <= k < N - R ==> buffer[k] == b[R + k]
      invariant forall k :: 0 <= k < j ==> buffer[N - R + k] == newInput[k]
      invariant forall k :: N - R + j <= k < buffer.Length ==> buffer[k] == b[k]
    {
      buffer[N - R + j] := newInput[j];
      j := j + 1;
    }
    assert buffer[..N] == HopShift(b, newInput, N, R) by {
      forall k | 0 <= k < N ensures buffer[..N][k] == HopShift(b, newInput, N, R)[k] {
        if k >= N - R {
          assert buffer[N - R + (k - (N - R))] == newInput[k - (N - R)];
        }
      }
    }
  }

  /** JMPDSP_vmul(a, 1, w, 1, out, 1, n): elementwise product. */
  function Windowed(a: seq<real>, w: seq<real>, n: nat): (r: seq<real>)
    requires n <= |a| && n <= |w|
    ensures |r| == n
  {
    seq(n, k requires 0 <= k < n => a[k] * w[k])
  }

  /** A zeroed frame of n samples (JMPDSP_vclr). */
  function Zeros(n: nat): (r: seq<real>)
    ensures |r| == n
  {
    seq(n, _ => 0.0)
  }

  /**
   * What one synthesis step leaves in the overlap-add accumulator: the accumulator
   * shifted left by R with R zeros appended, plus the windowed and scaled new frame.
   */
  function OlaAccumulate(acc: seq<real>, frame: seq<real>, window: seq<real>, scale: real, R: nat): (r: seq<real>)
    requires |acc| == FFT_SIZE && R <= FFT_SIZE && FFT_SIZE <= |frame| && FFT_SIZE <= |window|
    ensures |r| == FFT_SIZE
  {
    var shifted := HopShift(acc, Zeros(FFT_SIZE), FFT_SIZE, R);
    seq(FFT_SIZE, k requires 0 <= k < FFT_SIZE => shifted[k] + frame[k] * window[k] * scale)
  }

  /**
   * With 50% overlap every output sample is the sum of exactly two windowed frames, the
   * second half of the previous one and the first half of the current one; whatever the
   * accumulator held before the previous frame has been shifted out.
   */
  lemma OlaTwoFrames(acc: seq<real>, f1: seq<real>, f2: seq<real>, window: seq<real>, scale: real, k: nat)
    requires |acc| == FFT_SIZE && FFT_SIZE <= |f1| && FFT_SIZE <= |f2| && FFT_SIZE <= |window|
    requires k < HOP_LENGTH
    ensures OlaAccumulate(OlaAccumulate(acc, f1, window, scale, HOP_LENGTH), f2, window, scale, HOP_LENGTH)[k]
            == f1[k + HOP_LENGTH] * window[k + HOP_LENGTH] * scale + f2[k] * window[k] * scale
  {
    var a1 := OlaAccumulate(acc, f1, window, scale, HOP_LENGTH);
    var s1 := HopShift(acc, Zeros(FFT_SIZE), FFT_SIZE, HOP_LENGTH);
    assert s1[k + HOP_LENGTH] == 0.0;
    assert a1[k + HOP_LENGTH] == f1[k + HOP_LENGTH] * window[k + HOP_LENGTH] * scale;
    var s2 := HopShift(a1, Zeros(FFT_SIZE), FFT_SIZE, HOP_LENGTH);
    assert s2[k] == a1[k + HOP_LENGTH];
  }

  /** `|X[i]|^2`, doubled for the interior bins that stand for two bins of the full spectrum. */
  function BinPower(x: seq<Complex>, k: nat, numBins: nat): (p: real)
    requires k < |x|
    ensures p >= 0.0
    ensures (k == 0 || k == numBins - 1) ==> p == x[k].r * x[k].r + x[k].i * x[k].i
  {
    var m := x[k].r * x[k].r + x[k].i * x[k].i;
    if 0 < k < numBins - 1 then 2.0 * m else m
  }

  /** compute_magSquared */
  method ComputeMagSquared(x: seq<Complex>, xmag: array<real>, numBins: nat)
    requires numBins <= |x| && numBins <= xmag.Length
    modifies xmag
    ensures forall k :: 0 <= k < numBins ==> xmag[k] == BinPower(x, k, numBins)
    ensures xmag[numBins..] == old(xmag[numBins..])
  {
    var k := 0;
    while k < numBins
      invariant 0 <= k <= numBins
      invariant forall j :: 0 <= j < k ==> xmag[j] == BinPower(x, j, numBins)
      invariant xmag[numBins..] == old(xmag[numBins..])
    {
      xmag[k] := x[k].r * x[k].r + x[k].i * x[k].i;
      if k > 0 && k < numBins - 1 {
        xmag[k] := xmag[k] * 2.0;
      }
      k := k + 1;
    }
  }

  /** The log-magnitude of one bin: scaleFactor * log10(Xmag + LOGMAG_EPSILON). */
  function LogMag(log10: real -> real, scaleFactor: real, m: real): real
  {
    scaleFactor * log10(m + LOGMAG_EPSILON)
  }

  /**
   * compute_logMag. Each bin is read before it is written and no other bin is read, so
   * the source and destination may be the same array (stft_process does exactly that).
   */
  method ComputeLogMag(xmag: array<real>, logMag: array<real>, numBins: nat, scaleFactor: real, log10: real -> real)
    requires numBins <= xmag.Length && numBins <= logMag.Length
    modifies logMag
    ensures forall k :: 0 <= k < numBins ==> logMag[k] == LogMag(log10, scaleFactor, old(xmag[k]))
    ensures logMag[numBins..] == old(logMag[numBins..])
  {
    var k := 0;
    while k < numBins
      invariant 0 <= k <= numBins
      invariant forall j :: 0 <= j < k ==> logMag[j] == LogMag(log10, scaleFactor, old(xmag[j]))
      invariant forall j :: k <= j < numBins ==> xmag[j] == old(xmag[j])
      invariant logMag[numBins..] == old(logMag[numBins..])
    {
      logMag[k] := scaleFactor * log10(xmag[k] + LOGMAG_EPSILON);
      k := k + 1;
    }
  }

  /** One bin of apply_spectrum_mask: both parts scaled by the real gain. */
  function Masked(x: Complex, gain: real): Complex
  {
    Complex(x.r * gain, x.i * gain)
  }

  /** Masking a bin scales its power by the square of the gain. */
  lemma MaskScalesPower(x: seq<Complex>, mask: seq<real>, k: nat, numBins: nat)
    requires k < |x| && k < |mask|
    ensures BinPower(x[k := Masked(x[k], mask[k])], k, numBins) == mask[k] * mask[k] * BinPower(x, k, numBins)
  {
    var g := mask[k];
    assert (x[k].r * g) * (x[k].r * g) + (x[k].i * g) * (x[k].i * g)
        == g * g * (x[k].r * x[k].r + x[k].i * x[k].i);
  }

  /** apply_spectrum_mask: the spectrum itself is a read-only input. */
  method ApplySpectrumMask(x: seq<Complex>, mask: seq<real>, y: array<Complex>, numBins: nat)
    requires numBins <= |x| && numBins <= |mask| && numBins <= y.Length
    modifies y
    ensures forall k :: 0 <= k < numBins ==> y[k] == Masked(x[k], mask[k])
    ensures y[numBins..] == old(y[numBins..])
  {
    var k := 0;
    while k < numBins
      invariant 0 <= k <= numBins
      invariant forall j :: 0 <= j < k ==> y[j] == Masked(x[j], mask[j])
      invariant y[numBins..] == old(y[numBins..])
    {
      y[k] := Complex(x[k].r * mask[k], x[k].i * mask[k]);
      k := k + 1;
    }
  }

  /** The windowed inverse FFT scaled by IFFTscale and added into the accumulator (JMPDSP_vadd). */
  method AddWindowedFrame(acc: array<real>, frame: seq<real>, window: seq<real>, scale: real)
    requires acc.Length == FFT_SIZE && FFT_SIZE <= |frame| && FFT_SIZE <= |window|
    modifies acc
    ensures forall k :: 0 <= k < FFT_SIZE ==> acc[k] == old(acc[k]) + frame[k] * window[k] * scale
  {
    var k := 0;
    while k < FFT_SIZE
      invariant 0 <= k <= FFT_SIZE
      invariant forall j :: 0 <= j < k ==> acc[j] == old(acc[j]) + frame[j] * window[j] * scale
      invariant forall j :: k <= j < FFT_SIZE ==> acc[j] == old(acc[j])
    {
      acc[k] := acc[k] + frame[k] * window[k] * scale;
      k := k + 1;
    }
  }

  /** memcpy(dst, src, n) */
  method CopyPrefix(src: seq<real>, dst: array<real>, n: nat)
    requires n <= |src| && n <= dst.Length
    modifies dst
    ensures dst[..n] == src[..n]
    ensures dst[n..] == old(dst[n..])
  {
    var k := 0;
    while k < n
      invariant 0 <= k <= n
      invariant dst[..k] == src[..k]
      invariant dst[n..] == old(dst[n..])
    {
      dst[k] := src[k];
      k := k + 1;
    }
  }

  /** The real FFT yields NUM_BINS bins for a frame of FFT_SIZE samples. */
  ghost predicate SpectrumSized(fft: seq<real> -> seq<Complex>)
  {
    forall frame :: |frame| == FFT_SIZE ==> |fft(frame)| == NUM_BINS
  }

  /** The inverse real FFT yields FFT_SIZE samples for NUM_BINS bins. */
  ghost predicate FrameSized(ifft: seq<Complex> -> seq<real>)
  {
    forall bins :: |bins| == NUM_BINS ==> |ifft(bins)| == FFT_SIZE
  }

  /** The hop sizes update_buffer accepts on a buffer of FFT_SIZE samples. */
  predicate HopOk(R: nat)
  {
    R <= FFT_SIZE <= 2 * R
  }

  /** STFTStruct */
  class Stft {
    const nfft: nat
    const nfftBy2: nat
    const numBins: nat
    const fftScale: real
    const ifftScale: real
    const window: seq<real>
    const fft: seq<real> -> seq<Complex>
    const ifft: seq<Complex> -> seq<real>
    const log10: real -> real
    const xk: array<Complex>
    const yk: array<Complex>
    const inputAux: array<real>
    const outputAux: array<real>
    const xmag: array<real>

    ghost predicate Valid()
      reads this
    {
      nfft == FFT_SIZE && nfftBy2 == FFT_SIZE / 2 && numBins == NUM_BINS
      && |window| == FFT_SIZE && SpectrumSized(fft) && FrameSized(ifft)
      && xk.Length == NUM_BINS && yk.Length == NUM_BINS && xk != yk
      && inputAux.Length == FFT_SIZE && outputAux.Length == FFT_SIZE && xmag.Length == NUM_BINS
      && inputAux != outputAux && inputAux != xmag && outputAux != xmag
    }

    /**
     * create_stft: NFFT = 256, NFFT/2 = 128, numBins = NFFT/2 + 1 = 129, the scale
     * factors, and cleared analysis, synthesis and magnitude buffers.
     */
    constructor Create(win: seq<real>, fftFn: seq<real> -> seq<Complex>, ifftFn: seq<Complex> -> seq<real>, log10Fn: real -> real)
      requires |win| == FFT_SIZE && SpectrumSized(fftFn) && FrameSized(ifftFn)
      ensures Valid()
      ensures nfft == 256 && nfftBy2 == 128 && numBins == 129
      ensures fftScale == 0.5 && ifftScale == 1.0 / 256.0
      ensures window == win && fft == fftFn && ifft == ifftFn && log10 == log10Fn
      ensures inputAux[..] == Zeros(FFT_SIZE) && outputAux[..] == Zeros(FFT_SIZE) && xmag[..] == Zeros(NUM_BINS)
      ensures fresh(xk) && fresh(yk) && fresh(inputAux) && fresh(outputAux) && fresh(xmag)
    {
      nfft := FFT_SIZE;
      nfftBy2 := FFT_SIZE / 2;
      numBins := FFT_SIZE / 2 + 1;
      fftScale := 0.5;
      ifftScale := 1.0 / (FFT_SIZE as real);
      window := win;
      fft, ifft, log10 := fftFn, ifftFn, log10Fn;
      xk := new Complex[NUM_BINS];
      yk := new Complex[NUM_BINS];
      inputAux := new real[FFT_SIZE](_ => 0.0);
      outputAux := new real[FFT_SIZE](_ => 0.0);
      xmag := new real[NUM_BINS](_ => 0.0);
    }

    /** The spectrum of the windowed analysis buffer. */
    function Spectrum(buffer: seq<real>): (s: seq<Complex>)
      requires Valid() && |buffer| == FFT_SIZE
      reads this
      ensures |s| == NUM_BINS
    {
      fft(Windowed(buffer, window, FFT_SIZE))
    }

    /**
     * perform_windowed_FFT: one hop into the analysis buffer, then the FFT of a windowed
     * copy; the analysis buffer itself keeps the unwindowed samples.
     */
    method PerformWindowedFft(input: seq<real>, R: nat)
      requires Valid() && HopOk(R) && R <= |input|
      modifies inputAux, xk
      ensures inputAux[..] == HopShift(old(inputAux[..]), input, FFT_SIZE, R)
      ensures xk[..] == Spectrum(inputAux[..])
    {
      UpdateBuffer(inputAux, input, nfft, R);
      assert inputAux[..] == inputAux[..FFT_SIZE];
      var spectrum := Spectrum(inputAux[..]);
      var k := 0;
      while k < NUM_BINS
        invariant 0 <= k <= NUM_BINS
        invariant xk[..k] == spectrum[..k]
        invariant inputAux[..] == HopShift(old(inputAux[..]), input, FFT_SIZE, R)
      {
        xk[k] := spectrum[k];
        k := k + 1;
      }
    }

    /**
     * perform_OLA_IFFT: shift the overlap-add accumulator by one hop (appending zeros),
     * add the windowed inverse FFT scaled by 1/NFFT, and emit the first R samples.
     */
    method PerformOlaIfft(out: array<real>, R: nat)
      requires Valid() && HopOk(R) && R <= out.Length && out != outputAux
      modifies outputAux, out
      ensures outputAux[..] == OlaAccumulate(old(outputAux[..]), ifft(yk[..]), window, ifftScale, R)
      ensures out[..R] == outputAux[..R]
      ensures out[R..] == old(out[R..])
    {
      var acc0 := outputAux[..];
      UpdateBuffer(outputAux, Zeros(FFT_SIZE), nfft, R);
      assert outputAux[..] == outputAux[..FFT_SIZE];
      var frame := ifft(yk[..]);
      ghost var shifted := outputAux[..];
      assert shifted == HopShift(acc0, Zeros(FFT_SIZE), FFT_SIZE, R);
      AddWindowedFrame(outputAux, frame, window, ifftScale);
      forall k | 0 <= k < FFT_SIZE
        ensures outputAux[k] == OlaAccumulate(acc0, frame, window, ifftScale, R)[k]
      {
        assert outputAux[k] == shifted[k] + frame[k] * window[k] * ifftScale;
      }
      CopyPrefix(outputAux[..], out, R);
    }

    /**
     * stft_process: analysis of one hop, then the magnitude spectrum, then its
     * log-magnitude in place, so Xmag ends up holding log-magnitudes.
     */
    method StftProcess(input: seq<real>, R: nat)
      requires Valid() && HopOk(R) && R <= |input|
      modifies inputAux, xk, xmag
      ensures inputAux[..] == HopShift(old(inputAux[..]), input, FFT_SIZE, R)
      ensures xk[..] == Spectrum(inputAux[..])
      ensures forall k :: 0 <= k < NUM_BINS ==> xmag[k] == LogMag(log10, 10.0, BinPower(xk[..], k, NUM_BINS))
    {
      PerformWindowedFft(input, R);
      ComputeMagSquared(xk[..], xmag, numBins);
      ComputeLogMag(xmag, xmag, numBins, 10.0, log10);
    }

    /** mask_process: Yk = Xk scaled bin by bin by the mask. */
    method MaskProcess(mask: seq<real>)
      requires Valid() && NUM_BINS <= |mask|
      modifies yk
      ensures forall k :: 0 <= k < NUM_BINS ==> yk[k] == Masked(xk[k], mask[k])
    {
      ApplySpectrumMask(xk[..], mask, yk, numBins);
    }

    /** istft_process */
    method IstftProcess(out: array<real>, R: nat)
      requires Valid() && HopOk(R) && R <= out.Length && out != outputAux
      modifies outputAux, out
      ensures outputAux[..] == OlaAccumulate(old(outputAux[..]), ifft(yk[..]), window, ifftScale, R)
      ensures out[..R] == outputAux[..R]
      ensures out[R..] == old(out[R..])
    {
      PerformOlaIfft(out, R);
    }
  }
}
