/**
 * The 16-bit front end of src/jumpml_nr.c. Each call hands one block of
 * JUMPML_NR_FRAME_SIZE samples to the noise-reduction session; at 8 kHz the block is
 * first upsampled to two blocks, processed as two consecutive hops and downsampled
 * again. The session and run_jumpml_nr_prediction (float conversion, the session's
 * process call and the optional high-shelf filter) are a state value and a function.
 */
module JumpmlNr {
  import opened FixedPointMath
  import opened Resample

  /** JUMPML_NR_FRAME_SIZE = HOP_LENGTH */
  const JUMPML_NR_FRAME_SIZE: nat := 128

  /** A per-hop processor maps a session and a block to the next session and a block of equal size. */
  ghost predicate BlockSized<S(!new)>(predict: (S, seq<int16>) -> (S, seq<int16>))
  {
    forall s, x :: |x| == JUMPML_NR_FRAME_SIZE ==> |predict(s, x).1| == JUMPML_NR_FRAME_SIZE
  }

  /** DSP_JMPNR_ST_STRU, with the session of type S. */
  class JumpmlNrState<S(!new)> {
    var frameCount: nat
    var lastSample: int16
    var session: S
    /** run_jumpml_nr_prediction on one block. */
    const predict: (S, seq<int16>) -> (S, seq<int16>)

    ghost predicate Valid()
      reads this
    {
      BlockSized(predict)
    }

    /** What the 8 kHz path hands the processor: the block upsampled to twice its length. */
    function Upsampled(input: seq<int16>): (r: seq<int16>)
      requires |input| >= JUMPML_NR_FRAME_SIZE
      reads this
      ensures |r| == 2 * JUMPML_NR_FRAME_SIZE
    {
      Upsample(lastSample, input[..JUMPML_NR_FRAME_SIZE])
    }

    /**
     * jumpml_nr_init: the frame counter and the carried-over sample start at 0 and the
     * front end holds the freshly created session and the per-hop processor that the
     * state is then driven with.
     */
    constructor Init(created: S, p: (S, seq<int16>) -> (S, seq<int16>))
      requires BlockSized(p)
      ensures Valid() && predict == p
      ensures frameCount == 0 && lastSample == 0 && session == created
    {
      frameCount := 0;
      lastSample := 0;
      session := created;
      predict := p;
    }

    /**
     * jumpml_nr_proc: at 8000 Hz the block is upsampled (carrying the last sample into the
     * next call), the two halves go through the session one after the other, and the
     * result is downsampled; any other rate goes through the session directly and leaves
     * the carried-over sample alone. The result is always 0.
     */
    method Proc(output: array<int16>, input: seq<int16>, sr: int) returns (status: int)
      requires Valid() && |input| >= JUMPML_NR_FRAME_SIZE && output.Length >= JUMPML_NR_FRAME_SIZE
      modifies this, output
      ensures Valid() && frameCount == old(frameCount)
      ensures status == 0
      ensures sr == 8000 ==>
                var up := old(Upsampled(input));
                var first := predict(old(session), up[..JUMPML_NR_FRAME_SIZE]);
                var second := predict(first.0, up[JUMPML_NR_FRAME_SIZE..]);
                session == second.0
                && output[..JUMPML_NR_FRAME_SIZE] == Downsample(first.1 + second.1)
                && lastSample == input[JUMPML_NR_FRAME_SIZE - 1]
      ensures sr != 8000 ==>
                var direct := predict(old(session), input[..JUMPML_NR_FRAME_SIZE]);
                session == direct.0 && output[..JUMPML_NR_FRAME_SIZE] == direct.1
                && lastSample == old(lastSample)
      ensures output[JUMPML_NR_FRAME_SIZE..] == old(output[JUMPML_NR_FRAME_SIZE..])
    {
      if sr == 8000 {
        var resampledInput := new int16[2 * JUMPML_NR_FRAME_SIZE];
        var resampledOutput := new int16[2 * JUMPML_NR_FRAME_SIZE];
        ghost var s0 := session;
        var newLast := UpsampleS16(input, resampledInput, JUMPML_NR_FRAME_SIZE, lastSample);
        lastSample := newLast;
        var up := resampledInput[..];
        assert up == resampledInput[..2 * JUMPML_NR_FRAME_SIZE];
        RunPrediction(resampledOutput, 0, up[..JUMPML_NR_FRAME_SIZE]);
        ghost var first := predict(s0, up[..JUMPML_NR_FRAME_SIZE]);
        RunPrediction(resampledOutput, JUMPML_NR_FRAME_SIZE, up[JUMPML_NR_FRAME_SIZE..]);
        ghost var second := predict(first.0, up[JUMPML_NR_FRAME_SIZE..]);
        assert resampledOutput[..] == first.1 + second.1 by {
          assert resampledOutput[..] == resampledOutput[..JUMPML_NR_FRAME_SIZE]
              + resampledOutput[JUMPML_NR_FRAME_SIZE..2 * JUMPML_NR_FRAME_SIZE];
        }
        DownsampleS16(resampledOutput[..], output, JUMPML_NR_FRAME_SIZE);
        assert resampledOutput[..][..2 * JUMPML_NR_FRAME_SIZE] == resampledOutput[..];
      } else {
        RunPrediction(output, 0, input[..JUMPML_NR_FRAME_SIZE]);
      }
      status := 0;
    }

    /** One run_jumpml_nr_prediction: a block through the session into out[offset ..]. */
    method RunPrediction(out: array<int16>, offset: nat, block: seq<int16>)
      requires Valid() && |block| == JUMPML_NR_FRAME_SIZE && offset + JUMPML_NR_FRAME_SIZE <= out.Length
      modifies this, out
      ensures Valid() && frameCount == old(frameCount) && lastSample == old(lastSample)
      ensures session == predict(old(session), block).0
      ensures out[offset..offset + JUMPML_NR_FRAME_SIZE] == predict(old(session), block).1
      ensures out[..offset] == old(out[..offset])
      ensures out[offset + JUMPML_NR_FRAME_SIZE..] == old(out[offset + JUMPML_NR_FRAME_SIZE..])
    {
      var result := predict(session, block);
      session := result.0;
      var k := 0;
      while k < JUMPML_NR_FRAME_SIZE
        invariant 0 <= k <= JUMPML_NR_FRAME_SIZE
        invariant out[offset..offset + k] == result.1[..k]
        invariant out[..offset] == old(out[..offset])
        invariant out[offset + k..] == old(out[offset + k..])
        invariant session == result.0 && frameCount == old(frameCount) && lastSample == old(lastSample)
      {
        out[offset + k] := result.1[k];
        k := k + 1;
      }
    }
  }

  /** A per-hop processor whose output block is its input block. */
  ghost predicate PassesThrough<S(!new)>(predict: (S, seq<int16>) -> (S, seq<int16>))
  {
    forall s, x :: predict(s, x).1 == x
  }

  /**
   * The 8 kHz path of Proc around a processor that passes blocks through: output sample i
   * is input[i] averaged with the interpolated sample before it (prev for i = 0).
   */
  lemma PassThroughAt8k<S(!new)>(predict: (S, seq<int16>) -> (S, seq<int16>), s: S, prev: int16, input: seq<int16>, i: nat)
    requires PassesThrough(predict)
    requires |input| == JUMPML_NR_FRAME_SIZE && i < JUMPML_NR_FRAME_SIZE
    ensures var up := Upsample(prev, input);
            var first := predict(s, up[..JUMPML_NR_FRAME_SIZE]);
            var second := predict(first.0, up[JUMPML_NR_FRAME_SIZE..]);
            Downsample(first.1 + second.1)[i]
            == Avg(Avg(if i == 0 then prev else input[i - 1], input[i]), input[i])
  {
    var up := Upsample(prev, input);
    var first := predict(s, up[..JUMPML_NR_FRAME_SIZE]);
    var second := predict(first.0, up[JUMPML_NR_FRAME_SIZE..]);
    assert first.1 + second.1 == up;
    UpDownAt(prev, input, i);
  }

  /**
   * Around a processor that passes blocks through, the 8 kHz path returns a constant
   * block unchanged when the previous block ended on the same value.
   */
  lemma PassThroughConstantAt8k<S(!new)>(predict: (S, seq<int16>) -> (S, seq<int16>), s: S, c: int16)
    requires PassesThrough(predict)
    ensures var input := seq(JUMPML_NR_FRAME_SIZE, _ => c);
            var up := Upsample(c, input);
            var first := predict(s, up[..JUMPML_NR_FRAME_SIZE]);
            var second := predict(first.0, up[JUMPML_NR_FRAME_SIZE..]);
            Downsample(first.1 + second.1) == input
  {
    var input := seq(JUMPML_NR_FRAME_SIZE, _ => c);
    var up := Upsample(c, input);
    var first := predict(s, up[..JUMPML_NR_FRAME_SIZE]);
    var second := predict(first.0, up[JUMPML_NR_FRAME_SIZE..]);
    assert first.1 + second.1 == up;
    ConstantRoundTrip(c, JUMPML_NR_FRAME_SIZE);
  }

  /**
   * jumpml_nr_init followed by one jumpml_nr_proc at 8000 Hz, on a front end whose
   * processor passes blocks through: the first call carries 0 as the previous sample.
   */
  method PassThroughFrontEnd(input: seq<int16>, output: array<int16>)
    requires |input| == JUMPML_NR_FRAME_SIZE && output.Length == JUMPML_NR_FRAME_SIZE
    modifies output
    ensures forall i :: 0 <= i < JUMPML_NR_FRAME_SIZE ==>
              output[i] == Avg(Avg(if i == 0 then 0 else input[i - 1], input[i]), input[i])
  {
    var identity := (s: int, x: seq<int16>) => (s, x);
    assert PassesThrough(identity);
    var st := new JumpmlNrState<int>.Init(0, identity);
    ghost var s0 := st.session;
    var status := st.Proc(output, input, 8000);
    assert input[..JUMPML_NR_FRAME_SIZE] == input;
    forall i | 0 <= i < JUMPML_NR_FRAME_SIZE
      ensures output[i] == Avg(Avg(if i == 0 then 0 else input[i - 1], input[i]), input[i])
    {
      PassThroughAt8k(identity, s0, 0, input, i);
      assert output[i] == output[..JUMPML_NR_FRAME_SIZE][i];
    }
  }
}
