/** The first pass (outermost decimation level): N/4 butterflies on the
    samples g, g + N/4, g + N/2, g + 3N/4, butterfly g using twiddle index
    g * twidCoefModifier. The pass structure is stated for any butterfly
    kernel; the two passes of fft.c apply it with the forward and the
    inverse first-pass butterfly. */
module StageOne {
  import opened Q15Lanes
  import opened Butterflies
  import opened BufferLayout
  import opened Steps

  /** The outputs of first-pass butterfly g of an N-sample buffer x. */
  function FirstQuad(x: seq<Int16>, k: Kernel, n: nat, coef: seq<Int16>, tcm: nat, g: nat): Quad
    requires n >= 4 && n % 4 == 0 && |x| == 2 * n && g < n / 4 && |coef| >= TwiddleSpan(n, tcm)
  {
    TwiddleIndexInSpan(g, n, tcm);
    var ic := g * tcm;
    k(Gather(x, g, n / 4), Twiddle(coef, ic), Twiddle(coef, 2 * ic), Twiddle(coef, 3 * ic))
  }

  /** What the pass writes to complex sample p: slot p / (N/4) of butterfly
      p % (N/4). */
  function FirstAt(x: seq<Int16>, k: Kernel, n: nat, coef: seq<Int16>, tcm: nat, p: nat): Pair
    requires n >= 4 && n % 4 == 0 && |x| == 2 * n && p < n && |coef| >= TwiddleSpan(n, tcm)
  {
    SlotOf(p, n / 4);
    FirstQuad(x, k, n, coef, tcm, p % (n / 4)).At(p / (n / 4))
  }

  /** The whole buffer after the first pass. */
  function FirstStage(x: seq<Int16>, k: Kernel, n: nat, coef: seq<Int16>, tcm: nat): (y: seq<Int16>)
    requires n >= 4 && n % 4 == 0 && |x| == 2 * n && |coef| >= TwiddleSpan(n, tcm)
    ensures |y| == |x|
  {
    seq(|x|, i requires 0 <= i < |x| => Lane(FirstAt(x, k, n, coef, tcm, i / 2), i % 2))
  }

  /** Loop invariant of the pass: butterflies g < i0 hold their results,
      every other butterfly still holds its inputs. */
  ghost predicate FirstDone(x: seq<Int16>, cur: seq<Int16>, k: Kernel, n: nat, coef: seq<Int16>,
                            tcm: nat, i0: nat)
    requires n >= 4 && n % 4 == 0 && |x| == 2 * n && |coef| >= TwiddleSpan(n, tcm)
  {
    && |cur| == 2 * n
    && forall g :: 0 <= g < n / 4 ==>
         Gather(cur, g, n / 4) == if g < i0 then FirstQuad(x, k, n, coef, tcm, g) else Gather(x, g, n / 4)
  }

  /** One loop iteration keeps the invariant with i0 advanced by one: the
      butterfly changes its own four samples and, reading them before any
      write, sees the original inputs there. */
  lemma {:induction false} FirstStepKeepsDone(x: seq<Int16>, pre: seq<Int16>, post: seq<Int16>, k: Kernel,
                                              n: nat, coef: seq<Int16>, tcm: nat, i0: nat)
    requires n >= 4 && n % 4 == 0 && |x| == 2 * n && |coef| >= TwiddleSpan(n, tcm)
    requires i0 < n / 4 && FirstDone(x, pre, k, n, coef, tcm, i0)
    requires OnlyQuadChanged(pre, post, i0, n / 4)
    requires Gather(post, i0, n / 4) == FirstQuad(pre, k, n, coef, tcm, i0)
    ensures FirstDone(x, post, k, n, coef, tcm, i0 + 1)
  {
    var n2 := n / 4;
    forall g | 0 <= g < n2
      ensures Gather(post, g, n2) == if g < i0 + 1 then FirstQuad(x, k, n, coef, tcm, g) else Gather(x, g, n2)
    {
      if g != i0 {
        assert Gather(post, g, n2) == Gather(pre, g, n2);
      }
    }
  }

  /** The first pass in place: the `do/while (--j)` loop of fft.c, advancing
      i0 by one and ic by twidCoefModifier. */
  method FirstPass(a: array<Int16>, k: Kernel, fftLen: nat, coef: seq<Int16>, twidCoefModifier: nat)
    requires ValidFftLen(fftLen) && a.Length == 2 * fftLen && |coef| >= TwiddleSpan(fftLen, twidCoefModifier)
    modifies a
    ensures a[..] == FirstStage(old(a[..]), k, fftLen, coef, twidCoefModifier)
  {
    var n2: nat := fftLen / 4;
    var ic: nat := 0;
    var i0: nat := 0;
    var j: nat := n2;
    // the body runs once before the test; j starts at n2 >= 4, so a
    // leading test changes nothing
    while j != 0
      invariant i0 + j == n2 && ic == i0 * twidCoefModifier
      invariant FirstDone(old(a[..]), a[..], k, fftLen, coef, twidCoefModifier, i0)
      decreases j
    {
      TwiddleIndexInSpan(i0, fftLen, twidCoefModifier);
      var c1, c2, c3 := Twiddle(coef, ic), Twiddle(coef, 2 * ic), Twiddle(coef, 3 * ic);
      ghost var pre := a[..];
      TwiddledStep(a, k, i0, n2, c1, c2, c3);
      FirstStepKeepsDone(old(a[..]), pre, a[..], k, fftLen, coef, twidCoefModifier, i0);
      ic := ic + twidCoefModifier;
      i0 := i0 + 1;
      j := j - 1;
    }
    FirstDoneAll(old(a[..]), a[..], k, fftLen, coef, twidCoefModifier);
  }

  /** Once every butterfly is done, the buffer is the first-pass result. */
  lemma {:induction false} FirstDoneAll(x: seq<Int16>, cur: seq<Int16>, k: Kernel, n: nat, coef: seq<Int16>, tcm: nat)
    requires n >= 4 && n % 4 == 0 && |x| == 2 * n && |coef| >= TwiddleSpan(n, tcm)
    requires FirstDone(x, cur, k, n, coef, tcm, n / 4)
    ensures cur == FirstStage(x, k, n, coef, tcm)
  {
    var y := FirstStage(x, k, n, coef, tcm);
    forall i | 0 <= i < |cur|
      ensures cur[i] == y[i]
    {
      var p := i / 2;
      SlotOf(p, n / 4);
      var g, s := p % (n / 4), p / (n / 4);
      assert Gather(cur, g, n / 4) == FirstQuad(x, k, n, coef, tcm, g);
      assert Sample(cur, p) == Gather(cur, g, n / 4).At(s) by {
        assert p == g + s * (n / 4);
        if s == 0 {} else if s == 1 {} else if s == 2 {} else {}
      }
      assert y[i] == Lane(FirstAt(x, k, n, coef, tcm, p), i % 2);
    }
  }

  /** Coverage: sample g + s N/4 of the result is output slot s of
      butterfly g, which reads the original samples g, g + N/4, g + N/2 and
      g + 3N/4 and the twiddles of indices ic, 2 ic and 3 ic with
      ic = g * twidCoefModifier. */
  lemma {:induction false} FirstStageSample(x: seq<Int16>, k: Kernel, n: nat, coef: seq<Int16>, tcm: nat, g: nat, s: nat)
    requires n >= 4 && n % 4 == 0 && |x| == 2 * n && |coef| >= TwiddleSpan(n, tcm)
    requires g < n / 4 && s < 4
    ensures g + s * (n / 4) < n
    ensures Sample(FirstStage(x, k, n, coef, tcm), g + s * (n / 4)) == FirstQuad(x, k, n, coef, tcm, g).At(s)
  {
    var q := n / 4;
    TwiddleIndexInSpan(g, n, tcm);
    MulMono(s, 3, q);
    var p := g + s * q;
    SlotAt(g, s, q);
    var y := FirstStage(x, k, n, coef, tcm);
    assert y[2 * p] == FirstAt(x, k, n, coef, tcm, p).lo;
    assert y[2 * p + 1] == FirstAt(x, k, n, coef, tcm, p).hi;
  }

  /** What the first pass writes to slot s of butterfly g, in terms of the
      original samples: each input is divided by 4 (rounding down) in both
      lanes, and the butterfly's saturating combinations go out with slot 0
      as it is, slot 1 rotated by twiddle 2 ic, slot 2 by twiddle ic and
      slot 3 by twiddle 3 ic, where ic = g * twidCoefModifier. */
  lemma {:induction false} FirstStageOutputs(x: seq<Int16>, dir: Direction, n: nat, coef: seq<Int16>, tcm: nat, g: nat, ic: nat, s: nat)
    requires n >= 4 && n % 4 == 0 && |x| == 2 * n && |coef| >= TwiddleSpan(n, tcm) && g < n / 4 && s < 4
    requires ic == g * tcm
    ensures 2 * ic + 1 < |coef| && 2 * (2 * ic) + 1 < |coef| && 2 * (3 * ic) + 1 < |coef|
    ensures g + 3 * (n / 4) < n && g + s * (n / 4) < n
    ensures var q := n / 4;
      Sample(FirstStage(x, FirstKernel(dir), n, coef, tcm), g + s * q) ==
        ApplyTwiddles(dir, SatTerms(dir, Quarter(Sample(x, g)), Quarter(Sample(x, g + q)),
                                         Quarter(Sample(x, g + 2 * q)), Quarter(Sample(x, g + 3 * q))),
                      Twiddle(coef, ic), Twiddle(coef, 2 * ic), Twiddle(coef, 3 * ic)).At(s)
  {
    TwiddleIndexInSpan(g, n, tcm);
    FirstStageSample(x, FirstKernel(dir), n, coef, tcm, g, s);
    FirstKernelQuartered(dir, Gather(x, g, n / 4), Twiddle(coef, ic), Twiddle(coef, 2 * ic), Twiddle(coef, 3 * ic));
  }

  /** arm_radix4_butterfly_q15_stage1. */
  method ButterflyStage1(a: array<Int16>, fftLen: nat, coef: seq<Int16>, twidCoefModifier: nat)
    requires ValidFftLen(fftLen) && a.Length == 2 * fftLen && |coef| >= TwiddleSpan(fftLen, twidCoefModifier)
    modifies a
    ensures a[..] == FirstStage(old(a[..]), FirstKernel(Forward), fftLen, coef, twidCoefModifier)
  {
    FirstPass(a, FirstKernel(Forward), fftLen, coef, twidCoefModifier);
  }

  /** arm_radix4_butterfly_inverse_q15_stage1. */
  method InverseButterflyStage1(a: array<Int16>, fftLen: nat, coef: seq<Int16>, twidCoefModifier: nat)
    requires ValidFftLen(fftLen) && a.Length == 2 * fftLen && |coef| >= TwiddleSpan(fftLen, twidCoefModifier)
    modifies a
    ensures a[..] == FirstStage(old(a[..]), FirstKernel(Inverse), fftLen, coef, twidCoefModifier)
  {
    FirstPass(a, FirstKernel(Inverse), fftLen, coef, twidCoefModifier);
  }
}
