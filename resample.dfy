/**
 * The int16 2x resampler of src/resample.c. Upsampling interleaves each input sample
 * with the rounded average of it and the sample before it, carrying the last sample of
 * a block over to the next call; downsampling averages adjacent pairs.
 */
module Resample {
  import opened FixedPointMath

  /**
   * `(int16_t)((a + b + 1) >> 1)`: the average of two samples rounded half up. It lies
   * between the two samples, so the cast never wraps.
   */
  function Avg(a: int16, b: int16): (r: int16)
    ensures Min(a, b) <= r <= Max(a, b)
    ensures a + b <= 2 * r <= a + b + 1
  {
    Wrap16((a + b + 1) / 2)
  }

  /** The sample carried to the next block: the last one of x, or prev when x is empty. */
  function LastOf(prev: int16, x: seq<int16>): int16
  {
    if |x| == 0 then prev else x[|x| - 1]
  }

  /** The output of upsampling x when the previous block ended with prev. */
  function Upsample(prev: int16, x: seq<int16>): (r: seq<int16>)
    ensures |r| == 2 * |x|
    decreases |x|
  {
    if |x| == 0 then [] else [Avg(prev, x[0]), x[0]] + Upsample(x[0], x[1..])
  }

  /**
   * Sample by sample: the odd outputs are the inputs, and each even output is the
   * rounded average of the input and the sample before it (prev for the first).
   */
  lemma {:induction false} UpsampleAt(prev: int16, x: seq<int16>, i: nat)
    requires i < |x|
    ensures Upsample(prev, x)[2 * i + 1] == x[i]
    ensures Upsample(prev, x)[2 * i] == Avg(if i == 0 then prev else x[i - 1], x[i])
    decreases i
  {
    if i > 0 {
      UpsampleAt(x[0], x[1..], i - 1);
    }
  }

  /**
   * Streaming: upsampling x and then y, with the last sample carried over, gives the
   * same samples as upsampling x ++ y in one call.
   */
  lemma {:induction false} UpsampleStreaming(prev: int16, x: seq<int16>, y: seq<int16>)
    ensures Upsample(prev, x + y) == Upsample(prev, x) + Upsample(LastOf(prev, x), y)
    decreases |x|
  {
    if |x| > 0 {
      assert (x + y)[1..] == x[1..] + y;
      UpsampleStreaming(x[0], x[1..], y);
      assert LastOf(x[0], x[1..]) == LastOf(prev, x);
    } else {
      assert x + y == y;
    }
  }

  /**
   * upsample_S16: writes 2 * inputSize samples and returns the new `*last_sample`.
   * `input[0]` and `input[input_size - 1]` are read unconditionally, so the block must
   * not be empty.
   */
  method UpsampleS16(input: seq<int16>, output: array<int16>, inputSize: nat, lastSample: int16)
    returns (newLast: int16)
    requires 1 <= inputSize <= |input| && 2 * inputSize <= output.Length
    modifies output
    ensures output[..2 * inputSize] == Upsample(lastSample, input[..inputSize])
    ensures output[2 * inputSize..] == old(output[2 * inputSize..])
    ensures newLast == LastOf(lastSample, input[..inputSize])
  {
    output[0] := Avg(lastSample, input[0]);
    output[1] := input[0];
    assert output[..2] == Upsample(lastSample, input[..1]);
    var i := 1;
    while i < inputSize
      invariant 1 <= i <= inputSize
      invariant output[..2 * i] == Upsample(lastSample, input[..i])
      invariant output[2 * inputSize..] == old(output[2 * inputSize..])
    {
      UpsampleStreaming(lastSample, input[..i], [input[i]]);
      assert input[..i] + [input[i]] == input[..i + 1];
      output[i * 2] := Avg(input[i - 1], input[i]);
      output[i * 2 + 1] := input[i];
      assert output[..2 * (i + 1)] == output[..2 * i] + [output[2 * i], output[2 * i + 1]];
      i := i + 1;
    }
    newLast := input[inputSize - 1];
  }

  /** The output of downsampling: each output sample averages one adjacent pair. */
  function Downsample(x: seq<int16>): (r: seq<int16>)
    ensures |r| == |x| / 2
  {
    if |x| < 2 then [] else [Avg(x[0], x[1])] + Downsample(x[2..])
  }

  lemma {:induction false} DownsampleAt(x: seq<int16>, i: nat)
    requires i < |x| / 2
    ensures Downsample(x)[i] == Avg(x[2 * i], x[2 * i + 1])
  {
    if i > 0 {
      DownsampleAt(x[2..], i - 1);
    }
  }

  /** downsample_S16: reads 2 * outputSize samples and writes outputSize. */
  method DownsampleS16(input: seq<int16>, output: array<int16>, outputSize: nat)
    requires 2 * outputSize <= |input| && outputSize <= output.Length
    modifies output
    ensures output[..outputSize] == Downsample(input[..2 * outputSize])
    ensures output[outputSize..] == old(output[outputSize..])
  {
    var i := 0;
    while i < outputSize
      invariant 0 <= i <= outputSize
      invariant forall j :: 0 <= j < i ==> output[j] == Avg(input[2 * j], input[2 * j + 1])
      invariant output[outputSize..] == old(output[outputSize..])
    {
      output[i] := Avg(input[i * 2], input[i * 2 + 1]);
      i := i + 1;
    }
    forall j | 0 <= j < outputSize ensures output[..outputSize][j] == Downsample(input[..2 * outputSize])[j] {
      DownsampleAt(input[..2 * outputSize], j);
    }
  }

  /**
   * A constant signal continuing a block that ended on the same value survives the
   * round trip: downsampling the upsampled block gives the block back.
   */
  lemma ConstantRoundTrip(c: int16, n: nat)
    ensures Downsample(Upsample(c, seq(n, _ => c))) == seq(n, _ => c)
  {
    var x := seq(n, _ => c);
    var u := Upsample(c, x);
    forall i | 0 <= i < n ensures Downsample(u)[i] == c {
      UpsampleAt(c, x, i);
      DownsampleAt(u, i);
    }
  }

  /**
   * Resampling up and straight back down: output i is the input sample averaged with
   * the interpolated sample before it, so it lies between the input and its predecessor.
   */
  lemma UpDownAt(prev: int16, x: seq<int16>, i: nat)
    requires i < |x|
    ensures Downsample(Upsample(prev, x))[i]
            == Avg(Avg(if i == 0 then prev else x[i - 1], x[i]), x[i])
  {
    UpsampleAt(prev, x, i);
    DownsampleAt(Upsample(prev, x), i);
  }
}
