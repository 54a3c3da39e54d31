/** The last pass: N/4 butterflies on the groups of four adjacent samples
    4g .. 4g + 3, with no twiddle. */
module StageThree {
  import opened Q15Lanes
  import opened Butterflies
  import opened BufferLayout

  /** The four adjacent samples of group g. */
  function Group(x: seq<Int16>, g: nat): Quad
    requires 8 * g + 7 < |x|
  {
    Gather(x, 4 * g, 1)
  }

  /** What the pass writes to sample p: slot p % 4 of group p / 4. */
  function FinalAt(x: seq<Int16>, k: PlainKernel, n: nat, p: nat): Pair
    requires n % 4 == 0 && |x| == 2 * n && p < n
  {
    k(Group(x, p / 4)).At(p % 4)
  }

  /** The whole buffer after the last pass. */
  function FinalStage(x: seq<Int16>, k: PlainKernel, n: nat): (y: seq<Int16>)
    requires n % 4 == 0 && |x| == 2 * n
    ensures |y| == |x|
  {
    seq(|x|, i requires 0 <= i < |x| => Lane(FinalAt(x, k, n, i / 2), i % 2))
  }

  /** Loop invariant of the pass: groups below g hold their results, the
      others still hold their inputs. */
  ghost predicate FinalDone(x: seq<Int16>, cur: seq<Int16>, k: PlainKernel, n: nat, g: nat)
    requires n % 4 == 0 && |x| == 2 * n
  {
    && |cur| == 2 * n
    && forall h :: 0 <= h < n / 4 ==> Group(cur, h) == if h < g then k(Group(x, h)) else Group(x, h)
  }

  /** The last pass in place: the `do/while (--j)` loop of fft.c, ptr1
      moving on by one group (8 halfwords) per iteration. */
  method FinalPass(a: array<Int16>, k: PlainKernel, fftLen: nat)
    requires ValidFftLen(fftLen) && a.Length == 2 * fftLen
    modifies a
    ensures a[..] == FinalStage(old(a[..]), k, fftLen)
  {
    var j: nat := fftLen / 4;
    var ptr: nat := 0;
    ghost var g: nat := 0;
    while j != 0
      invariant g + j == fftLen / 4 && ptr == 8 * g
      invariant FinalDone(old(a[..]), a[..], k, fftLen, g)
      decreases j
    {
      ghost var pre := a[..];
      ptr := GroupStep(a, k, g, ptr);
      FinalStepKeepsDone(old(a[..]), pre, a[..], k, fftLen, g);
      g := g + 1;
      j := j - 1;
    }
    FinalDoneAll(old(a[..]), a[..], k, fftLen);
  }

  /** One last-pass butterfly in place: ptr1 reads the four words of group
      g, steps back 8 halfwords and writes the four outputs over them,
      ending one group further on. */
  method GroupStep(a: array<Int16>, k: PlainKernel, ghost g: nat, ptr: nat) returns (next: nat)
    requires ptr == 8 * g && ptr + 8 <= a.Length
    modifies a
    ensures next == ptr + 8
    ensures Group(a[..], g) == k(Group(old(a[..]), g))
    ensures forall i :: 0 <= i < a.Length && !(ptr <= i < ptr + 8) ==> a[i] == old(a[i])
  {
    var p := ptr;
    var xaya := Pair(a[p], a[p + 1]);
    p := p + 2;
    var xbyb := Pair(a[p], a[p + 1]);
    p := p + 2;
    var xcyc := Pair(a[p], a[p + 1]);
    p := p + 2;
    var xdyd := Pair(a[p], a[p + 1]);
    p := p + 2;
    assert Quad(xaya, xbyb, xcyc, xdyd) == Group(a[..], g);
    var out := k(Quad(xaya, xbyb, xcyc, xdyd));
    p := p - 8;
    a[p], a[p + 1] := out.s0.lo, out.s0.hi;
    p := p + 2;
    a[p], a[p + 1] := out.s1.lo, out.s1.hi;
    p := p + 2;
    a[p], a[p + 1] := out.s2.lo, out.s2.hi;
    p := p + 2;
    a[p], a[p + 1] := out.s3.lo, out.s3.hi;
    p := p + 2;
    next := p;
  }

  /** Writing group g's outputs keeps the invariant with g advanced by one. */
  lemma {:induction false} FinalStepKeepsDone(x: seq<Int16>, pre: seq<Int16>, post: seq<Int16>, k: PlainKernel,
                                              n: nat, g: nat)
    requires n % 4 == 0 && |x| == 2 * n && g < n / 4 && FinalDone(x, pre, k, n, g)
    requires |post| == 2 * n && forall i :: 0 <= i < 2 * n && !(8 * g <= i < 8 * g + 8) ==> post[i] == pre[i]
    requires Group(post, g) == k(Group(pre, g))
    ensures FinalDone(x, post, k, n, g + 1)
  {
    forall h | 0 <= h < n / 4
      ensures Group(post, h) == if h < g + 1 then k(Group(x, h)) else Group(x, h)
    {
      if h != g {
        assert Group(post, h) == Group(pre, h) by {
          assert forall i :: 8 * h <= i < 8 * h + 8 ==> post[i] == pre[i];
        }
      }
    }
  }

  /** Once every group is done, the buffer is the last-pass result. */
  lemma {:induction false} FinalDoneAll(x: seq<Int16>, cur: seq<Int16>, k: PlainKernel, n: nat)
    requires n % 4 == 0 && |x| == 2 * n && FinalDone(x, cur, k, n, n / 4)
    ensures cur == FinalStage(x, k, n)
  {
    var y := FinalStage(x, k, n);
    forall i | 0 <= i < |cur|
      ensures cur[i] == y[i]
    {
      var p := i / 2;
      var h, s := p / 4, p % 4;
      assert Group(cur, h) == k(Group(x, h));
      assert Sample(cur, p) == Group(cur, h).At(s);
      assert y[i] == Lane(FinalAt(x, k, n, p), i % 2);
    }
  }

  /** What the last pass writes to slot s of group g. */
  lemma {:induction false} FinalStageSample(x: seq<Int16>, k: PlainKernel, n: nat, g: nat, s: nat)
    requires n % 4 == 0 && |x| == 2 * n && g < n / 4 && s < 4
    ensures 8 * g + 7 < |x| && 4 * g + s < n
    ensures Sample(FinalStage(x, k, n), 4 * g + s) == k(Group(x, g)).At(s)
  {
    var p := 4 * g + s;
    DivModUnique(p, 4, g, s);
    DivModUnique(2 * p, 2, p, 0);
    DivModUnique(2 * p + 1, 2, p, 1);
    var y := FinalStage(x, k, n);
    assert FinalAt(x, k, n, p) == k(Group(x, g)).At(s);
    assert y[2 * p] == FinalAt(x, k, n, p).lo;
    assert y[2 * p + 1] == FinalAt(x, k, n, p).hi;
  }

  /** ... for fft.c's butterfly: the last-pass combinations of the four
      adjacent input samples, slot s going to sample 4g + s. */
  lemma {:induction false} FinalOutputs(x: seq<Int16>, dir: Direction, n: nat, g: nat, s: nat)
    requires n % 4 == 0 && |x| == 2 * n && g < n / 4 && s < 4
    ensures 8 * g + 7 < |x| && 4 * g + s < n
    ensures var v := Group(x, g);
      Sample(FinalStage(x, FinalKernel(dir), n), 4 * g + s) == FinalButterfly(dir, v.s0, v.s1, v.s2, v.s3).At(s)
  {
    FinalStageSample(x, FinalKernel(dir), n, g, s);
    FinalKernelIs(dir, Group(x, g));
  }

  /** The forward and inverse last passes write the same samples 4g and
      4g + 1 and exchange what they write to 4g + 2 and 4g + 3. */
  lemma {:induction false} FinalStageDirections(x: seq<Int16>, n: nat, g: nat)
    requires n % 4 == 0 && |x| == 2 * n && g < n / 4
    ensures 4 * g + 3 < n
    ensures var f, i := FinalStage(x, FinalKernel(Forward), n), FinalStage(x, FinalKernel(Inverse), n);
      && Sample(i, 4 * g) == Sample(f, 4 * g) && Sample(i, 4 * g + 1) == Sample(f, 4 * g + 1)
      && Sample(i, 4 * g + 2) == Sample(f, 4 * g + 3) && Sample(i, 4 * g + 3) == Sample(f, 4 * g + 2)
  {
    var v := Group(x, g);
    FinalStageSample(x, FinalKernel(Forward), n, g, 0);
    FinalStageSample(x, FinalKernel(Forward), n, g, 1);
    FinalStageSample(x, FinalKernel(Forward), n, g, 2);
    FinalStageSample(x, FinalKernel(Forward), n, g, 3);
    FinalStageSample(x, FinalKernel(Inverse), n, g, 0);
    FinalStageSample(x, FinalKernel(Inverse), n, g, 1);
    FinalStageSample(x, FinalKernel(Inverse), n, g, 2);
    FinalStageSample(x, FinalKernel(Inverse), n, g, 3);
    DirectionSwapsCrossTerms(v.s0, v.s1, v.s2, v.s3);
  }

  /** arm_radix4_butterfly_q15_stage3 (the coefficient table and the
      modifier are parameters of the C function that this pass never reads). */
  method ButterflyStage3(a: array<Int16>, fftLen: nat, coef: seq<Int16>, twidCoefModifier: nat)
    requires ValidFftLen(fftLen) && a.Length == 2 * fftLen
    modifies a
    ensures a[..] == FinalStage(old(a[..]), FinalKernel(Forward), fftLen)
  {
    FinalPass(a, FinalKernel(Forward), fftLen);
  }

  /** arm_radix4_butterfly_inverse_q15_stage3. */
  method InverseButterflyStage3(a: array<Int16>, fftLen: nat, coef: seq<Int16>, twidCoefModifier: nat)
    requires ValidFftLen(fftLen) && a.Length == 2 * fftLen
    modifies a
    ensures a[..] == FinalStage(old(a[..]), FinalKernel(Inverse), fftLen)
  {
    FinalPass(a, FinalKernel(Inverse), fftLen);
  }
}
