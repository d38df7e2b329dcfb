# Rocketship noise reduction: a Dafny model of the fixed-point inference path

This project models the core of the JumpML Rocketship speech noise-reduction engine.
Each call of the engine processes one hop of audio:

- a short-time Fourier transform analyses the hop;
- the SignalSifter network runs on the log-magnitude spectrum in Q15 fixed point. It is three stacked GRU layers and a linear layer;
- its per-bin gains are post-processed with a memory of the previous frame;
- the spectrum is masked with those gains;
- overlap-add synthesis produces the output hop.

An 8 kHz front end upsamples each block by two, runs two hops and downsamples again.

The model follows the source file by file, one Dafny module per core file:

| Dafny file | module(s) | source |
|---|---|---|
| fixed_point_math.dfy | FixedPointMath | include/fixed_point_math.h |
| dsplib.dfy | DspLib | src/dsplib.c (fixed-point kernels) |
| nnlib_fixedpt.dfy | NnlibFixedpt | include/nnlib_fixedpt.h |
| nnlib_kernels.dfy | NnlibKernels | src/nnlib_fixedpt_generic.c |
| nn_layers.dfy | NnLayers | src/nn_layers_fixedpt.c |
| signalsifter.dfy | SignalSifterNet | src/signalsifter.c |
| resample.dfy | Resample | src/resample.c |
| dsp_processing.dfy | DspProcessing | src/dsp_processing.c |
| noise_reduction.dfy | GainPostprocess, NoiseReduction | src/noise_reduction.c |
| jumpml_nr.dfy | JumpmlNr | src/jumpml_nr.c |

How C is modelled:

- **Machine integers.** They are subset types of `int` (`int8`, `int16`, `int32`). Every C conversion that can change a value is written out with `Wrap16` or `Wrap32`: an `(int16_t)` cast, and the 32-bit `IMUL`, `FADD16` and `<< 1` of the tanh correction, which wrap in two's complement (see FixedPointMath.IMul under Left out).
- **Shifts.** An arithmetic right shift is floor division by a power of two.
- **Signed overflow in the accumulators.** C leaves signed overflow undefined. For the accumulators of the linear and GRU kernels, the dot products and the tanh argument, the model turns it into an exact precondition: every partial sum fits `int32`. Lemmas then show that the layer sizes and shift amounts the network uses satisfy it for all weights and inputs.
- **Buffers.** Buffers the C code writes are arrays, updated in place by loops. Read-only buffers are sequences.
- **Stateful structures.** The STFT, the network state, the noise-reduction session and the 8 kHz front end are classes. Their methods update the fields in place, and their contracts state the new state.
- **Float stages.** These are the STFT, the gain post-processing and the session. They work on `real`. The FFT and inverse FFT, `log10f`, `sinf`, the analysis window and the float/Q-format conversions are function-valued parameters. The model therefore states the index, ordering and clamping logic around them, not floating-point numerics.

## Model

| member | source | states |
|---|---|---|
| FixedPointMath.SLimit | include/fixed_point_math.h:34-47 | For 1 <= num_bits <= 31 the result lies in [-2^(n-1), 2^(n-1)-1]; a value already in range is returned unchanged; a value above (below) saturates to the upper (lower) bound |
| FixedPointMath.SLimitIdempotent | include/fixed_point_math.h:38-46 | Saturating twice is saturating once |
| FixedPointMath.SLimitMonotone | include/fixed_point_math.h:38-46 | SLIMIT is non-decreasing in its value |
| FixedPointMath.SLimitHarnessValues | test/test_nndsp/main.c:18-25 | 2^15+1 and -(2^15+1) saturated to 16 bits give 32767 and -32768 |
| FixedPointMath.Wrap16 | include/fixed_point_math.h:27 | The int16 conversion is congruent to its argument modulo 2^16 and is the identity on int16 values |
| FixedPointMath.Wrap32 | include/fixed_point_math.h:28-30 | The int32 conversion is congruent modulo 2^32 and the identity on int32 values |
| FixedPointMath.FMul16x16 | include/fixed_point_math.h:27 | floor(x*y / 2^15) for all int16 operands except x = y = -32768, where the int16 cast wraps 32768 to -32768 |
| FixedPointMath.FMul16x16Fits | include/fixed_point_math.h:27 | The shifted product fits int16 except for (-32768)*(-32768), where it is exactly 32768 |
| FixedPointMath.FMul32x16 | include/fixed_point_math.h:28 | floor(x*y / 2^15) when that fits int32; always congruent to it modulo 2^32 (64-bit product, truncated) |
| FixedPointMath.FMul32x32 | include/fixed_point_math.h:30 | floor(x*y / 2^31) when that fits int32; always congruent to it modulo 2^32 |
| FixedPointMath.IMul | include/fixed_point_math.h:29 | The exact product when it fits int32, no saturation; congruent modulo 2^32 otherwise |
| FixedPointMath.FAdd16 | include/fixed_point_math.h:32 | The exact sum when it fits int32, no saturation; congruent modulo 2^32 otherwise |
| FixedPointMath.FAdd16OfInt16 | include/fixed_point_math.h:32 | Two int16 operands never make FADD16 wrap |
| DspLib.VClrS16 | src/dsplib.c:35-42 | C[i*iC] = 0 for every i < N; every other entry keeps its value |
| DspLib.VClrS32 | src/dsplib.c:43-50 | C[i*iC] = 0 for every i < N; every other entry keeps its value |
| DspLib.VMulS16 | src/dsplib.c:61-69 | C[i*iC] = FMUL16x16(A[i*iA], B[i*iB]) for i < N; every other entry of C keeps its value |
| DspLib.VSMulS16 | src/dsplib.c:99-106 | C[i*iC] = FMUL16x16(A[i*iA], *B), the same scalar for every element; the rest of C is unchanged |
| DspLib.AddSat15 | src/dsplib.c:86 | One vadd_S16 element lies in [-16384, 16383] (a 15-bit range, not int16): the sum itself when in that range, the nearer bound otherwise |
| DspLib.AddSat16 | include/fixed_point_math.h:34-47 | The same sum saturated with 16 bits: the sum itself whenever it fits int16, otherwise 32767 or -32768 |
| DspLib.AddSat15Clips | src/dsplib.c:86 | 10000 + 10000 fits int16 (20000), yet vadd_S16 returns 16383 |
| DspLib.VAddS16 | src/dsplib.c:81-88 | C[i*iC] = SLIMIT(A[i*iA] + B[i*iB], 15) for i < N; the rest of C is unchanged |
| DspLib.MeanAsWritten | src/dsplib.c:120-129 | With the unsigned N, the result equals floor(sum / N) whenever the int32 sum is non-negative |
| DspLib.MeanSigned | src/dsplib.c:120-129 | The signed mean, truncated toward zero as C's signed division does; it always fits int16 |
| DspLib.MeanAgreesOnNonNegativeSums | src/dsplib.c:128 | The as-written and the signed mean agree on every non-negative sum |
| DspLib.MeanOfMinusOnes | src/dsplib.c:128 | For three samples of -1, the as-written mean is 21844 and the signed mean is -1 |
| DspLib.MeanvS16 | src/dsplib.c:120-129 | The loop's result is the as-written mean of the N strided samples, which is floor(sum/N) for a non-negative sum |
| DspLib.MaxvS16 | src/dsplib.c:143-153 | For N >= 1 the result is one of the N strided elements and no element exceeds it; for N = 0 it is A[0] |
| DspLib.MinvS16 | src/dsplib.c:167-177 | For N >= 1 the result is one of the N strided elements and no element is below it; for N = 0 it is A[0] |
| DspLib.Clip | src/dsplib.c:222-227 | With L <= H the result lies in [L, H] and equals A when A is already in range; for any L and H, A below L gives L, and A at least L and above H gives H (so H when L > H) |
| DspLib.VClipS16 | src/dsplib.c:216-229 | D[i*iD] is the clip of A[i*iA] for every i < N; the rest of D is unchanged |
| DspLib.DotProdS8S16S32 | src/dsplib.c:339-348 | The result is *C plus the sum of A[i]*W[i] over i < N, for every input whose partial sums fit int32 |
| DspLib.SaturatedShiftFits | src/dsplib.c:335-336 | A value saturated to n+23 bits and shifted right by n+7 always fits int16 |
| DspLib.DotProdS8S16S16 | src/dsplib.c:327-337 | The result is SLIMIT(*C + dot, numIntBits+23) >> (numIntBits+7). It always fits int16, so the final cast never wraps; without saturation it is (*C + dot) >> (numIntBits+7) |
| DspLib.AddS16S8AsWritten | src/dsplib.c:357-360 | A + (B<<8) is kept for negative sums down to -32768; every non-negative sum and every sum below -32768 becomes -32768 |
| DspLib.AddS16S8Saturating | src/dsplib.c:357-360 | The intended saturation: the sum when it fits int16, 32767 above, -32768 below |
| DspLib.AddS16S8PositiveSum | src/dsplib.c:357-360 | A = 1, B = 0 comes out as -32768 instead of 1 |
| DspLib.VAddS16S8S16 | src/dsplib.c:351-363 | C[i*iC] is the as-written clamp of A[i*iA] + (B[i*iB] << 8) for i < N; the rest of C is unchanged |
| NnlibFixedpt.TanhIndex | include/nnlib_fixedpt.h:60-61 | The index (2^14 + 8*abs(x)) >> 15, clamped, always lies in [0, 64], so the table read is in bounds; below the clamp abs(x) is within half a table step of index*DELTAX |
| NnlibFixedpt.TanhCorrection | include/nnlib_fixedpt.h:62-71 | With a zero residual the correction is 0; for the residuals and table values the network meets TanhCorrectionNoWrap gives its exact value |
| NnlibFixedpt.TanhMagnitude | include/nnlib_fixedpt.h:60-72 | At every table point abs(x) = k*DELTAX (k <= 64) the corrected magnitude is exactly table[k] |
| NnlibFixedpt.Tanh | include/nnlib_fixedpt.h:46-74 | tanh_approx_S16 returns table[k] at x = k/8 and the int16 negation of table[k] at x = -k/8 for k <= 64 (tanh(0) = table[0]); TanhOdd and TanhNoWrap give its symmetry and its exact value elsewhere |
| NnlibFixedpt.TanhOfNegated | include/nnlib_fixedpt.h:54-73 | For x > 0, tanh(-x) is -tanh(x) converted to int16 |
| NnlibFixedpt.TanhOdd | include/nnlib_fixedpt.h:54-73 | For every argument the tanh kernel accepts, tanh(-x) is -tanh(x) converted to int16 (32768 wraps); at x = 0 this needs the first table entry to be 0 |
| NnlibFixedpt.TanhCorrectionNoWrap | include/nnlib_fixedpt.h:65-71 | For a table value in [0, 32767] and a residual within half a step, `IMUL(y,y)<<1` fits, dy stays positive and the C correction equals the exact-integer formula, bounded by 2^26 |
| NnlibFixedpt.TanhSquareFits | include/nnlib_fixedpt.h:65 | `IMUL(y, y) << 1` fits int32 for every int16 y except -32768, where it reaches 2^31 and the model wraps it to -2^31 |
| NnlibFixedpt.TanhCorrectionStepBound | include/nnlib_fixedpt.h:69 | FMUL32x16(dx, dy) does not wrap and stays within 2^27 |
| NnlibFixedpt.TanhNoWrap | include/nnlib_fixedpt.h:60-71 | For non-negative table entries and every 19-bit argument, no intermediate wraps and the result is the table value plus the exact correction >> 15 |
| NnlibFixedpt.Sigmoid | include/nnlib_fixedpt.h:76-79 | The result lies in [0, 32767] whatever the table holds; the formula 0x4000 + (tanh(x >> 1) >> 1) in its ensures is the definition, restated for SigmoidComplement |
| NnlibFixedpt.SigmoidComplement | include/nnlib_fixedpt.h:76-79 | For even x (and tanh(x/2) != -32768), sigmoid(x) + sigmoid(-x) is 0x7FFF or 0x8000, from the odd symmetry of tanh |
| NnlibFixedpt.Relu | include/nnlib_fixedpt.h:81-84 | 0 for x < 0, x for 0 <= x <= 32767, and the int16 truncation (modulo 2^16) above |
| NnlibFixedpt.VecTanhS16 | include/nnlib_fixedpt.h:86-93 | output[i] = tanh(input[i]) for exactly i < N |
| NnlibFixedpt.VecSigmoidS16 | include/nnlib_fixedpt.h:96-103 | output[i] = sigmoid(input[i]) for exactly i < N |
| NnlibFixedpt.VecReluS16 | include/nnlib_fixedpt.h:105-112 | output[i] = relu(input[i]) for exactly i < N |
| NnlibKernels.ApplyActivation | src/nnlib_fixedpt_generic.c:83-102 | Sigmoid, tanh or relu on the first N values; any other tag (ACTIVATION_LINEAR included) leaves output untouched |
| NnlibKernels.RowsFitBySize | src/nnlib_fixedpt_generic.c:30-32 | With a bias shift of at most 15 and at most MAX_NEURONS columns, no accumulator of any row ever leaves int32 |
| NnlibKernels.LinearOut | src/nnlib_fixedpt_generic.c:30-33 | Output i of the linear kernel always lies in the 19-bit range [-2^18, 2^18), and is ((bias<<bls) + row.input) >> ors when that is in range |
| NnlibKernels.RowAccumulate | src/nnlib_fixedpt_generic.c:30-32 | The inner loop yields bias[i] << shift plus the dot product of row i with the input |
| NnlibKernels.LinearMatXVec | src/nnlib_fixedpt_generic.c:23-35 | output[i] = SLIMIT(((bias[i]<<bls) + sum_j W[i*in+j]*input[j]) >> ors, 19) for i < output_len; the rest is unchanged |
| NnlibKernels.GatePre | src/nnlib_fixedpt_generic.c:48-55 | The gate pre-activation SLIMIT((acci>>ori) + (acch>>orh), 19) is 19-bit, with separate input and recurrent accumulators |
| NnlibKernels.NewGatePre | src/nnlib_fixedpt_generic.c:70-77 | As GatePre, with only the recurrent accumulator (bias included) scaled by r[i] through FMUL32x16 |
| NnlibKernels.GateRow | src/nnlib_fixedpt_generic.c:48-55 | One row of the gate loop computes GatePre |
| NnlibKernels.NewGateRow | src/nnlib_fixedpt_generic.c:70-77 | One row of the candidate-gate loop computes NewGatePre |
| NnlibKernels.GruMatXVec | src/nnlib_fixedpt_generic.c:37-58 | output[i] is the activation of the 19-bit gate pre-activation for i < output_len (output untouched for an unknown tag); the rest is unchanged |
| NnlibKernels.GruNewGate | src/nnlib_fixedpt_generic.c:60-80 | output[i] is the activation of the reset-gated pre-activation for i < output_len; the rest is unchanged |
| NnlibKernels.HalvedSumFits | src/nnlib_fixedpt_generic.c:55 | Two int32 accumulators each shifted right by at least one bit add up without overflow |
| NnlibKernels.FMul32x16ByGain | src/nnlib_fixedpt_generic.c:76 | Scaling by a Q15 reset value in [0, 1) never wraps and never increases the magnitude |
| NnlibKernels.InterpConvex | src/nnlib_fixedpt_generic.c:112-114 | For 0 <= w <= 0x7FFF the sum fits int32, the int16 store never wraps (no SLIMIT needed) and the result lies within one LSB of [min(in1,in2), max(in1,in2)] |
| NnlibKernels.InterpOfEqualPositive | src/nnlib_fixedpt_generic.c:112-114 | Because the weights sum to 0x7FFF, equal positive inputs a come out as a - 1 |
| NnlibKernels.VecInterpolation | src/nnlib_fixedpt_generic.c:104-116 | output[i] = (w*in1 + (0x7FFF-w)*in2) >> 15 computed from the values input1 held on entry, so output may alias input1; the rest is unchanged |
| NnLayers.ComputeLinearLayer | src/nn_layers_fixedpt.c:30-40 | The first hidden_size outputs are the layer's activation of the linear kernel's outputs (untouched for an unknown tag); the rest is unchanged |
| NnLayers.GruShapedBySize | src/nn_layers_fixedpt.c:47-68 | Arrays holding three gates give the reset gate offset 0, the update gate offsets Ni/N/Nh and the candidate 2Ni/2N/2Nh, each with full matrices |
| NnLayers.ResetValue | src/nn_layers_fixedpt.c:52-56 | r[i], the sigmoid of the reset gate, is a Q15 value in [0, 32767] |
| NnLayers.UpdateValue | src/nn_layers_fixedpt.c:58-62 | z[i], the sigmoid of the update gate, is a Q15 value in [0, 32767] |
| NnLayers.GruNext | src/nn_layers_fixedpt.c:70 | The new state value lies within one LSB of the interval between the old state value and the candidate |
| NnLayers.GateFitsBySize | src/nn_layers_fixedpt.c:52-62 | With the network's shift ranges and at most MAX_NEURONS inputs and units, no accumulator or shifted sum of a sigmoid gate overflows |
| NnLayers.GruFitsBySize | src/nn_layers_fixedpt.c:42-71 | The same for all three gates, the candidate with its reset scaling: a GRU of this size never overflows |
| NnLayers.ComputeGates | src/nn_layers_fixedpt.c:52-68 | z and h are the update gate and candidate computed from the state on entry |
| NnLayers.ComputeGruLayer | src/nn_layers_fixedpt.c:42-71 | state[k] becomes the interpolation of the old state and the candidate with weight z, for k < hidden_size, every gate reading the old state; the rest is unchanged |
| NnLayers.GruStep | src/nn_layers_fixedpt.c:42-71 | The new hidden state of a layer within the size and shift bounds, which always satisfies the no-overflow condition |
| NnLayers.LinearStep | src/nn_layers_fixedpt.c:30-40 | The linear layer's outputs for a layer within the size bound, whose accumulators never overflow |
| SignalSifterNet.DotAsReal | src/nnlib_fixedpt_generic.c:31-32 | The int32 dot product of Q7 weights with Qq values is 2^(7+q) times the real dot product of their values |
| SignalSifterNet.RowInQ15 | include/signalsifter_config.h:11-15 | For Q10 and Q15 inputs, row i's accumulator (bias[i] << q) + row . v shifted right by q + 7 - 15 is the Q15 floor of the real value bias[i] + row . v with Q7 bias and weights |
| SignalSifterNet.GateSumInQ15 | src/signalsifter.c:135-140 | For every unit i of a GRU gate, with the shifts computeSignalSifterModel_S16 passes, the pre-activation sum is the Q15 floor of bi[i] + row i of wi . x (x in Q10 for gru1, Q15 after) plus the Q15 floor of bh[i] + row i of wh . h |
| SignalSifterNet.LinearOutInQ15 | src/signalsifter.c:141-142 | With LIN_NUM_FRAC_BITS and WAB_FRAC_BITS as shifts, every output i of the linear layer is SLIMIT-19 of the Q15 floor of bias[i] + row i . x for a Q15 state x, and that floor fits int32 |
| SignalSifterNet.SignalSifter.Create | src/signalsifter.c:53-59 | The state refers to the model and the first gruK_hidden_size entries of each of the three state vectors are zero |
| SignalSifterNet.SignalSifter.Compute | src/signalsifter.c:133-143 | gru1 runs on the input, gru2 on gru1's new state, gru3 on gru2's new state (each from the state the previous call left), then the linear layer writes the gains; the rest of the state vectors and of gains is unchanged |
| SignalSifterNet.SignalSifter.RunGru | src/signalsifter.c:135-140 | One layer of Compute updates the first hidden_size state entries to GruStep and leaves the rest |
| SignalSifterNet.SignalSifter.Destroy | src/signalsifter.c:71-74 | Destruction modifies nothing and keeps the state valid |
| SignalSifterNet.ClearPrefix | src/signalsifter.c:56-58 | vclr_S16 with stride 1 zeroes entries 0..n-1 and leaves the rest |
| Resample.Avg | src/resample.c:25-26 | (a + b + 1) >> 1 lies between a and b and is their average rounded half up, so the int16 cast never wraps |
| Resample.Upsample | src/resample.c:20-38 | The reference output of upsample_S16 has twice the input's length; UpsampleAt gives every sample and UpsampleStreaming the block-wise carry |
| Resample.UpsampleAt | src/resample.c:25-33 | output[2i+1] = input[i]; output[2i] is the rounded average of input[i] and its predecessor (last_sample for i = 0) |
| Resample.UpsampleStreaming | src/resample.c:20-38 | Upsampling x then y with last_sample carried over gives the same samples as upsampling x ++ y in one call |
| Resample.UpsampleS16 | src/resample.c:20-38 | Writes exactly 2*input_size samples, the upsampled block, and returns input[input_size-1] as the new last_sample |
| Resample.DownsampleAt | src/resample.c:61-64 | output[i] = (input[2i] + input[2i+1] + 1) >> 1 |
| Resample.Downsample | src/resample.c:57-65 | The reference output of downsample_S16 has half the input's length; DownsampleAt gives every sample |
| Resample.DownsampleS16 | src/resample.c:57-65 | Writes exactly output_size samples, the pairwise averages of 2*output_size inputs |
| Resample.ConstantRoundTrip | src/resample.c:20-65 | A constant block continuing a block that ended on the same value comes back unchanged from upsampling and downsampling |
| Resample.UpDownAt | src/resample.c:20-65 | After up- and downsampling, sample i is input[i] averaged with the interpolated sample before it |
| DspProcessing.HopShift | src/dsp_processing.c:106-110 | The shifted buffer keeps its length N |
| DspProcessing.HopShiftTwice | src/dsp_processing.c:106-110 | With N = 2R, two hops leave exactly the two newest blocks, oldest first |
| DspProcessing.UpdateBuffer | src/dsp_processing.c:106-110 | buffer[0..N) becomes old[R..N) ++ new_input[0..R); entries past N are unchanged; R <= N <= 2R so the first memcpy does not overlap |
| DspProcessing.OlaAccumulate | src/dsp_processing.c:93-103 | The accumulator after one synthesis step keeps FFT_SIZE samples |
| DspProcessing.OlaTwoFrames | src/dsp_processing.c:93-103 | With hop 128, each output sample is exactly the sum of the second half of the previous windowed frame and the first half of the current one; older content has been shifted out |
| DspProcessing.BinPower | src/dsp_processing.c:119-129 | The bin power is non-negative, and DC and the last bin are not doubled |
| DspProcessing.ComputeMagSquared | src/dsp_processing.c:119-129 | Xmag[i] = re^2 + im^2, doubled exactly for 0 < i < num_bins-1; the rest unchanged |
| DspProcessing.ComputeLogMag | src/dsp_processing.c:131-136 | logMag[i] = scaleFactor * log10(Xmag[i] + 0.001) from Xmag's values on entry, so it may run in place |
| DspProcessing.MaskScalesPower | src/dsp_processing.c:138-146 | Masking a bin multiplies its power by the square of the gain |
| DspProcessing.ApplySpectrumMask | src/dsp_processing.c:138-146 | Yk[i] = (Xk[i].r*mask[i], Xk[i].i*mask[i]) for i < num_bins; Xk is read-only and the rest of Yk unchanged |
| DspProcessing.AddWindowedFrame | src/dsp_processing.c:99-101 | Each accumulator sample gains frame[k]*window[k]*IFFTscale |
| DspProcessing.CopyPrefix | src/dsp_processing.c:102 | The first R samples are copied; the rest of the destination is unchanged |
| DspProcessing.Stft.Create | src/dsp_processing.c:30-59 | NFFT = 256, NFFT/2 = 128, numBins = 129, FFTscale = 0.5, IFFTscale = 1/256; inputAux, outputAux and Xmag are zero |
| DspProcessing.Stft.PerformWindowedFft | src/dsp_processing.c:85-91 | inputAux is shifted by one hop and keeps unwindowed samples; Xk is the FFT of a windowed copy |
| DspProcessing.Stft.PerformOlaIfft | src/dsp_processing.c:93-103 | outputAux is shifted left by R with zeros appended and the windowed, 1/N-scaled inverse FFT of Yk is added; out receives its first R samples |
| DspProcessing.Stft.StftProcess | src/dsp_processing.c:66-73 | After the analysis, Xmag holds the log-magnitudes (10*log10(power + 0.001)) of the new spectrum |
| DspProcessing.Stft.MaskProcess | src/dsp_processing.c:80-83 | Yk is Xk masked bin by bin |
| DspProcessing.Stft.IstftProcess | src/dsp_processing.c:75-78 | Overlap-add synthesis of Yk into R output samples |
| GainPostprocess.FMax | src/noise_reduction.c:81-86 | fmaxf is at least both arguments and equal to one of them |
| GainPostprocess.FMin | src/noise_reduction.c:86 | fminf is at most both arguments and equal to one of them |
| GainPostprocess.InSpeechBandAsWritten | src/noise_reduction.c:76 | As written `start <= i <= end` holds for every bin once end >= 1, for none when end < 0, and for exactly the bins below start when end = 0 |
| GainPostprocess.SpeechBoost | src/noise_reduction.c:74-78 | The boost multiplies by NR_SPEECH_GAIN exactly the gains above 0.25 inside [start, end] and leaves every other gain alone |
| GainPostprocess.SpeechBoostAsWritten | src/noise_reduction.c:74-78 | With the literal guard and end >= 1, every gain above 0.25 is multiplied by NR_SPEECH_GAIN, in the band or not; gains at most 0.25 are kept |
| GainPostprocess.SpeechBoostOutsideBandAsWritten | src/noise_reduction.c:76-77 | With band 10..100, bin 500 and gain 0.5 the literal guard boosts to 10.0; the range check keeps 0.5 |
| GainPostprocess.PreClampGain | src/noise_reduction.c:72-84 | Before boost and clamp, the gain is at least alphaReverb*previous gain, alphaLowLev*network gain and the shaped gain, and equals one of them |
| GainPostprocess.ClampGain | src/noise_reduction.c:86 | The stored gain is >= minGain, <= 1 when minGain <= 1, and the boosted gain itself when it is already in [minGain, 1] |
| GainPostprocess.PostGain | src/noise_reduction.c:72-86 | Every stored gain is >= minGain and <= 1 whenever minGain <= 1 |
| GainPostprocess.PostGainMemorylessWithoutReverb | src/noise_reduction.c:80-81 | With alphaReverb = 0 (the shipped NR_ALPHA_REVERB) the previous frame's gain has no influence |
| GainPostprocess.BinGain | src/noise_reduction.c:70-87 | The loop body for bin i stores PostGain of gainsIn[i] and the bin's own previous gain |
| GainPostprocess.PostprocessGains | src/noise_reduction.c:65-88 | gainsState[i] becomes PostGain(gainsIn[i], old gainsState[i]) for i < numBins, each bin reading only its own entries; entries past numBins are unchanged |
| NoiseReduction.GainsOverrunAsWritten | include/noise_reduction.h:56 | For every valid STFT (the state Stft.Create builds), a gains array of IO_SIZE slots is one short of stft.numBins, so PostprocessGains' precondition numBins <= gainsState.Length cannot hold |
| NoiseReduction.NoiseReductionState.Create | src/noise_reduction.c:27-47 | Creates the STFT and the network and sets alphaReverb = 0, alphaLowLev = naturalness, minGain = min_gain, gainBoost = 1 and the speech-band bins; the gains memory is left as allocated |
| NoiseReduction.NoiseReductionState.NetGains | src/noise_reduction.c:100-112 | The converted network output is zero (converted) past the linear layer's outputs, and everywhere for an unknown activation |
| NoiseReduction.NoiseReductionState.Process | src/noise_reduction.c:90-125 | The stages run in order (analysis, network on the quantised log-magnitudes, post-processing into the NUM_BINS gains, mask, synthesis), each stated on the previous stage's result; GRU state entries past each hidden_size and output past R are unchanged |
| NoiseReduction.NoiseReductionState.Predict | src/noise_reduction.c:100-113 | Analysis of the hop, then the network on the converted log-magnitudes; GRU state entries past each hidden_size are unchanged |
| NoiseReduction.NoiseReductionState.RunNetwork | src/noise_reduction.c:100-112 | The network runs on a cleared int16 gains vector and its output, converted back, is NetGains of the new last state; GRU state entries past each hidden_size are unchanged |
| NoiseReduction.NoiseReductionState.Enhance | src/noise_reduction.c:114-117 | Post-processing of the network gains into the gains memory, masking with them, synthesis into output[..R]; output past R is unchanged |
| NoiseReduction.NoiseReductionState.NetGainsAgree | src/noise_reduction.c:110-112 | The converted cleared-then-written gains vector equals NetGains |
| NoiseReduction.NoiseReductionState.Destroy | src/noise_reduction.c:49-57 | Destruction modifies nothing and keeps the session valid |
| JumpmlNr.JumpmlNrState.Init | src/jumpml_nr.c:26-42 | frameCount = 0, last_sample = 0, the session is the newly created one, and the state is valid for the given per-hop processor |
| JumpmlNr.JumpmlNrState.Proc | src/jumpml_nr.c:70-86 | At 8000 Hz: upsample with the carried sample, process both halves on the same session in order, downsample, and carry input[127]. Otherwise: one direct call with last_sample untouched. Always returns 0 |
| JumpmlNr.JumpmlNrState.RunPrediction | src/jumpml_nr.c:44-68 | One block goes through the session into out[offset..offset+128); the rest of out is unchanged |
| JumpmlNr.PassThroughAt8k | src/jumpml_nr.c:76-80 | In the 8 kHz path of Proc, with a processor that passes blocks through, output sample i is input[i] averaged with the interpolated sample before it |
| JumpmlNr.PassThroughConstantAt8k | src/jumpml_nr.c:76-80 | With the same processor, a constant block that continues a block ending on the same value comes back unchanged |
| JumpmlNr.PassThroughFrontEnd | src/jumpml_nr.c:26-86 | jumpml_nr_init followed by one jumpml_nr_proc at 8000 Hz on a pass-through processor yields the averaged samples, with 0 as the first previous sample |

## Left out

- The FFT and inverse FFT (kiss_fftr and kiss_fftri) are parameters of the STFT. kiss_fft is not part of this model. The parameters are only required to map 256 samples to 129 bins and back.
- `log10f`, `sinf`, the `sqrtf`/`cosf` window, and the float/Q-format conversions (convert_F32toS16, convert_S16toF32) are parameters. src/utils.c is not part of this model.
- Floating-point rounding: every float sample and gain is a `real`.
- FixedPointMath.SLimit: requires num_bits <= 31. SLIMIT with 32 bits relies on unsigned wrap of `1U << 31`. No caller uses it: the widest call is 31 bits, through numIntBits <= 8.
- Strides are non-negative (`nat`); negative strides are not modelled. A kernel that writes several outputs needs an output stride of at least 1.
- NnlibFixedpt.Tanh: requires |x| small enough that `-x` and `8*|x|` do not overflow int32, which C leaves undefined. Every 19-bit pre-activation qualifies.
- The contents of tanh_table_S16.h are not part of this model. The table is any 65-entry int16 sequence; the constants follow models/gen_tanh_table.py:23-28. Properties that need table values (TanhNoWrap, TanhOdd at 0) state them as preconditions.
- SignalSifterNet.SignalSifter.Compute: requires every GRU to carry a sigmoid, tanh or relu tag, and the model to fit GRU_STATE_SIZE and MAX_NEURONS. With any other tag the C code would read an uninitialised candidate buffer.
- NnLayers.ComputeGruLayer: requires the no-overflow condition GruFits. GruFitsBySize proves it from the sizes and shifts the network uses.
- Left shifts of negative values are modelled as multiplication by a power of two, the two's-complement result, though C leaves them undefined. This covers the int8 bias (`(int32_t)bias[i] << shift`) in the linear and GRU kernels and `B[i*iB] << 8` in AddS16S8AsWritten.
- Shift counts are unbounded (`nat`) in LinearOut, GatePre and NewGatePre. A count of 32 or more is undefined in C but has a value in the model. The network passes counts of at most 15.
- FixedPointMath.IMul, FixedPointMath.FAdd16: signed overflow, which C leaves undefined, is modelled as a two's-complement wrap (`Wrap32`). On the core's paths it can only happen in TanhCorrection, where `IMUL(y, y) << 1` reaches 2^31 for a table entry of -32768 (NnlibFixedpt.TanhSquareFits).
- JumpmlNr.JumpmlNrState.Init: the constant result 0 of jumpml_nr_init is not returned, because the initialisation is a constructor.
- GainPostprocess.PostGain: monotonicity in the previous gain and in the network gain is not stated. It needs nonlinear real arithmetic the solver does not handle reliably. The floor and ceiling are stated.
- The speech-band bins are passed to NoiseReductionState.Create already divided. FREQ_RESOLUTION is not defined in any file of this model.
- run_jumpml_nr_prediction is the abstract function `predict` of JumpmlNrState. It covers the float conversion, noise_reduction_process and the disabled input gain, output gain and high-shelf filter, and it must map 128 samples to 128 samples.
- The biquad high-shelf filter (src/biquad.c) is not part of this model. It is disabled by default.
- include/jumpml_nr.h declares a different state struct and `jumpml_nr_proc` signature. The model follows src/jumpml_nr.c.
- The float network path, the quantisation simulation, the monitor statistics, profiling and syslog, and `noise_reduction_monitor` are not modelled (diagnostics and float-only code).
- The float twins of the kernels and of the resampler are not modelled, and neither are `JMPDSP_measqv_S16`, `sin_S16` and `log10_S32`.

## Findings

| source | as written | input that shows it | evidently intended | confidence | as-written member | corrected member |
|---|---|---|---|---|---|---|
| src/dsplib.c:128 | `*C = sum / N` divides the int32 sum by the unsigned N, so a negative sum is converted to unsigned first | three samples of -1, stride 1: the mean is 21844 | the truncated signed mean, -1 | high, not executed | DspLib.MeanOfMinusOnes | DspLib.MeanSigned |
| src/dsplib.c:359 | the lower clamp compares with the unsigned literal 0xFFFF8000, so the sum is compared as unsigned | A = 1, B = 0: the result is -32768 | saturation of A + (B<<8) to int16, giving 1 | high, not executed | DspLib.AddS16S8PositiveSum | DspLib.AddS16S8Saturating |
| src/noise_reduction.c:76 | `start <= i <= end` compares the 0/1 result of `start <= i` with end, so it holds for every bin once end >= 1 | band 10..100, bin 500, gain 0.5 (boost enabled): boosted to 10.0 | a range check, leaving bin 500 at 0.5 | high, not executed (the branch is disabled by ENABLE_SPEECH_BOOST = 0) | GainPostprocess.SpeechBoostOutsideBandAsWritten | GainPostprocess.SpeechBoost |
| include/noise_reduction.h:56 | the gains memory has IO_SIZE = 128 slots, while postprocess_gains writes numBins = 129 of them | every call of noise_reduction_process writes gains[128] | a gains memory of NUM_BINS slots | high, not executed | NoiseReduction.GainsOverrunAsWritten | NoiseReduction.NoiseReductionState.Process |

The corrected definitions are the ones the rest of the model uses:

- the session's gains memory has NUM_BINS entries;
- the post-processing boost, when enabled, uses the range check.

The vector kernels `MeanvS16` and `VAddS16S8S16` model the code as written, with the signed and saturating versions proved beside them. `VAddS16` likewise keeps the 15-bit clamp of `SLIMIT(..., 15)`. `AddSat15Clips` shows that this clamp cuts sums that fit int16.
