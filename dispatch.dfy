/** The entry points of the engine: the three stage dispatchers, which pick
    the forward or inverse pass from the instance's ifftFlag and finish with
    the bit-reversal reordering when bitReverseFlag is set, and the forward
    all-stages driver. */
module Cfft {
  import opened Q15Lanes
  import opened Butterflies
  import opened BufferLayout
  import opened StageOne
  import opened StageTwo
  import opened StageThree

  /** arm_cfft_radix4_instance_q15, as far as the passes read it. The
      reordering that arm_bitreversal_q15 derives from bitRevFactor and
      pBitRevTable is given directly as `bitRev`: output sample p is input
      sample bitRev[p]. */
  datatype Instance = Instance(fftLen: nat, ifftFlag: nat, bitReverseFlag: nat,
                               twiddle: seq<Int16>, twidCoefModifier: nat, bitRev: seq<nat>)

  /** The instance describes a transform the passes can run: a supported
      length, a table long enough for the first pass's twiddle reads and,
      when the reordering is asked for, a reordering of the fftLen samples. */
  predicate Valid(s: Instance)
  {
    && ValidFftLen(s.fftLen)
    && |s.twiddle| >= TwiddleSpan(s.fftLen, s.twidCoefModifier)
    && (s.bitReverseFlag == 1 ==>
          && |s.bitRev| == s.fftLen
          && forall p :: 0 <= p < |s.bitRev| ==> s.bitRev[p] < s.fftLen)
  }

  /** `ifftFlag == 1u` selects the inverse transform, every other value
      the forward one. */
  function DirectionOf(ifftFlag: nat): (d: Direction)
    ensures d == Inverse <==> ifftFlag == 1
  {
    if ifftFlag == 1 then Inverse else Forward
  }

  /** The buffer with its complex samples reordered: sample p of the result
      is sample perm[p] of x. */
  function Permuted(x: seq<Int16>, perm: seq<nat>): (y: seq<Int16>)
    requires |x| == 2 * |perm| && forall p :: 0 <= p < |perm| ==> perm[p] < |perm|
    ensures |y| == |x|
  {
    seq(|x|, i requires 0 <= i < |x| => Lane(Sample(x, perm[i / 2]), i % 2))
  }

  /** Sample p of the reordered buffer is sample perm[p] of the original. */
  lemma {:induction false} PermutedSample(x: seq<Int16>, perm: seq<nat>, p: nat)
    requires |x| == 2 * |perm| && forall p :: 0 <= p < |perm| ==> perm[p] < |perm|
    requires p < |perm|
    ensures Sample(Permuted(x, perm), p) == Sample(x, perm[p])
  {
    var y := Permuted(x, perm);
    assert y[2 * p] == Lane(Sample(x, perm[p]), 0);
    assert y[2 * p + 1] == Lane(Sample(x, perm[p]), 1);
  }

  /** ... and a buffer with those samples is the reordered buffer. */
  lemma {:induction false} PermutedBySamples(x: seq<Int16>, perm: seq<nat>, y: seq<Int16>)
    requires |x| == 2 * |perm| && forall p :: 0 <= p < |perm| ==> perm[p] < |perm|
    requires |y| == |x| && forall p :: 0 <= p < |perm| ==> Sample(y, p) == Sample(x, perm[p])
    ensures y == Permuted(x, perm)
  {
    var z := Permuted(x, perm);
    forall i | 0 <= i < |y|
      ensures y[i] == z[i]
    {
      var p := i / 2;
      assert Sample(y, p) == Sample(x, perm[p]);
      assert z[i] == Lane(Sample(x, perm[p]), i % 2);
      if i % 2 == 0 {
        assert i == 2 * p;
      } else {
        assert i == 2 * p + 1;
      }
    }
  }

  /** A reordering that is its own inverse, as a bit reversal is, restores
      the buffer when applied twice. */
  lemma {:induction false} PermutedTwice(x: seq<Int16>, perm: seq<nat>)
    requires |x| == 2 * |perm| && forall p :: 0 <= p < |perm| ==> perm[p] < |perm|
    requires forall p :: 0 <= p < |perm| ==> perm[perm[p]] == p
    ensures Permuted(Permuted(x, perm), perm) == x
  {
    var y := Permuted(x, perm);
    forall p | 0 <= p < |perm|
      ensures Sample(x, p) == Sample(y, perm[p])
    {
      PermutedSample(x, perm, perm[p]);
    }
    PermutedBySamples(y, perm, x);
  }

  /** Stands in for arm_bitreversal_q15, whose swap-based body is not part
      of this model: only its result is modelled. The samples are copied out
      and written back in their new order. */
  method BitReversal(a: array<Int16>, perm: seq<nat>)
    requires a.Length == 2 * |perm| && forall p :: 0 <= p < |perm| ==> perm[p] < |perm|
    modifies a
    ensures a[..] == Permuted(old(a[..]), perm)
  {
    var src := a[..];
    var p := 0;
    while p < |perm|
      invariant 0 <= p <= |perm|
      invariant forall q :: 0 <= q < p ==> Sample(a[..], q) == Sample(src, perm[q])
      invariant forall i :: 2 * p <= i < a.Length ==> a[i] == src[i]
    {
      a[2 * p] := src[2 * perm[p]];
      a[2 * p + 1] := src[2 * perm[p] + 1];
      p := p + 1;
    }
    PermutedBySamples(src, perm, a[..]);
  }

  /** arm_cfft_radix4_q15_stage1. */
  method CfftStage1(s: Instance, a: array<Int16>)
    requires Valid(s) && a.Length == 2 * s.fftLen
    modifies a
    ensures a[..] == FirstStage(old(a[..]), FirstKernel(DirectionOf(s.ifftFlag)), s.fftLen, s.twiddle, s.twidCoefModifier)
  {
    if s.ifftFlag == 1 {
      InverseButterflyStage1(a, s.fftLen, s.twiddle, s.twidCoefModifier);
    } else {
      ButterflyStage1(a, s.fftLen, s.twiddle, s.twidCoefModifier);
    }
  }

  /** arm_cfft_radix4_q15_stage2. */
  method CfftStage2(s: Instance, a: array<Int16>)
    requires Valid(s) && a.Length == 2 * s.fftLen
    modifies a
    ensures a[..] == MiddleStage(old(a[..]), MiddleKernel(DirectionOf(s.ifftFlag)), s.fftLen, s.twiddle, s.twidCoefModifier)
  {
    if s.ifftFlag == 1 {
      InverseButterflyStage2(a, s.fftLen, s.twiddle, s.twidCoefModifier);
    } else {
      ButterflyStage2(a, s.fftLen, s.twiddle, s.twidCoefModifier);
    }
  }

  /** arm_cfft_radix4_q15_stage3: the last pass, then the reordering only
      when bitReverseFlag == 1. */
  method CfftStage3(s: Instance, a: array<Int16>)
    requires Valid(s) && a.Length == 2 * s.fftLen
    modifies a
    ensures var y := FinalStage(old(a[..]), FinalKernel(DirectionOf(s.ifftFlag)), s.fftLen);
      a[..] == if s.bitReverseFlag == 1 then Permuted(y, s.bitRev) else y
  {
    if s.ifftFlag == 1 {
      InverseButterflyStage3(a, s.fftLen, s.twiddle, s.twidCoefModifier);
    } else {
      ButterflyStage3(a, s.fftLen, s.twiddle, s.twidCoefModifier);
    }
    if s.bitReverseFlag == 1 {
      BitReversal(a, s.bitRev);
    }
  }

  /** arm_radix4_butterfly_q15_all_stages: the forward first, middle and
      last passes, in that order, with no reordering. */
  method AllStages(a: array<Int16>, fftLen: nat, coef: seq<Int16>, twidCoefModifier: nat)
    requires ValidFftLen(fftLen) && a.Length == 2 * fftLen && |coef| >= TwiddleSpan(fftLen, twidCoefModifier)
    modifies a
    ensures a[..] ==
      FinalStage(MiddleStage(FirstStage(old(a[..]), FirstKernel(Forward), fftLen, coef, twidCoefModifier),
                             MiddleKernel(Forward), fftLen, coef, twidCoefModifier),
                 FinalKernel(Forward), fftLen)
  {
    ButterflyStage1(a, fftLen, coef, twidCoefModifier);
    ButterflyStage2(a, fftLen, coef, twidCoefModifier);
    ButterflyStage3(a, fftLen, coef, twidCoefModifier);
  }
}
