/** The middle passes: every decimation level between the first and the
    last. A level with block length n1 (and n2 = n1 / 4) applies butterfly
    j (0 <= j < n2) of every block m to the samples m n1 + j + s n2, s < 4,
    with twiddle index j * tm; the levels run for n1 = N/4, N/16, ..., 16,
    the twiddle stride tm starting at 4 * twidCoefModifier and growing
    four-fold per level. */
module StageTwo {
  import opened Q15Lanes
  import opened Butterflies
  import opened BufferLayout
  import opened Steps

  /** A level with block length n1 over N samples is well formed. */
  predicate LevelShape(n: nat, n1: nat)
  {
    4 <= n1 && n1 % 4 == 0 && 0 < n && n % n1 == 0
  }

  /** Butterfly j of block m stays inside the buffer. */
  lemma {:induction false} BlockInRange(n: nat, n1: nat, m: nat, j: nat)
    requires LevelShape(n, n1) && m < n / n1 && j < n1 / 4
    ensures m * n1 + j + 3 * (n1 / 4) < n
  {
    MulMono(m + 1, n / n1, n1);
    assert (m + 1) * n1 == m * n1 + n1;
  }

  /** The inner loop's index m n1 + j is below N only for blocks m < N / n1;
      butterfly j of such a block stays inside the buffer. */
  lemma {:induction false} ColumnInside(n: nat, n1: nat, m: nat, j: nat)
    requires LevelShape(n, n1) && j < n1 / 4 && m * n1 + j < n
    ensures m < n / n1 && m * n1 + j + 3 * (n1 / 4) < n
  {
    if m >= n / n1 {
      MulMono(n / n1, m, n1);
      assert false;
    }
    BlockInRange(n, n1, m, j);
  }

  /** The inner loop stops after exactly N / n1 blocks. */
  lemma {:induction false} ColumnEnd(n: nat, n1: nat, m: nat, j: nat)
    requires LevelShape(n, n1) && j < n1 / 4 && m <= n / n1 && m * n1 + j >= n
    ensures m == n / n1
  {
    if m < n / n1 {
      MulMono(m + 1, n / n1, n1);
      assert false;
    }
  }

  /** The four samples of butterfly j of block m. */
  function Block(x: seq<Int16>, n: nat, n1: nat, m: nat, j: nat): Quad
    requires LevelShape(n, n1) && |x| == 2 * n && m < n / n1 && j < n1 / 4
  {
    BlockInRange(n, n1, m, j);
    Gather(x, m * n1 + j, n1 / 4)
  }

  /** The outputs of butterfly j of block m at level (n1, tm). */
  function LevelQuad(x: seq<Int16>, k: Kernel, n: nat, n1: nat, coef: seq<Int16>, tm: nat, m: nat, j: nat): Quad
    requires LevelShape(n, n1) && |x| == 2 * n && |coef| >= TwiddleSpan(n1, tm)
    requires m < n / n1 && j < n1 / 4
  {
    TwiddleIndexInSpan(j, n1, tm);
    var ic := j * tm;
    k(Block(x, n, n1, m, j), Twiddle(coef, ic), Twiddle(coef, 2 * ic), Twiddle(coef, 3 * ic))
  }

  /** Sample p < N lies in block p / n1: there it is slot (p % n1) / n2 of
      butterfly p % n2. */
  lemma {:induction false} BlockOf(n: nat, n1: nat, p: nat)
    requires LevelShape(n, n1) && p < n
    ensures 0 <= p / n1 && 0 <= p % (n1 / 4) && 0 <= (p % n1) / (n1 / 4)
    ensures p / n1 < n / n1 && p % (n1 / 4) < n1 / 4 && (p % n1) / (n1 / 4) < 4
    ensures p == (p / n1) * n1 + p % (n1 / 4) + ((p % n1) / (n1 / 4)) * (n1 / 4)
  {
    DivNonNeg(p, n1);
    DivNonNeg(p % n1, n1 / 4);
    LevelDecompose(p, n1 / 4);
    if p / n1 >= n / n1 {
      MulMono(n / n1, p / n1, n1);
      assert false;
    }
  }

  /** What a level writes to sample p. */
  function LevelAt(x: seq<Int16>, k: Kernel, n: nat, n1: nat, coef: seq<Int16>, tm: nat, p: nat): Pair
    requires LevelShape(n, n1) && |x| == 2 * n && |coef| >= TwiddleSpan(n1, tm) && p < n
  {
    BlockOf(n, n1, p);
    LevelQuad(x, k, n, n1, coef, tm, p / n1, p % (n1 / 4)).At((p % n1) / (n1 / 4))
  }

  /** The whole buffer after one level. */
  function Level(x: seq<Int16>, k: Kernel, n: nat, n1: nat, coef: seq<Int16>, tm: nat): (y: seq<Int16>)
    requires LevelShape(n, n1) && |x| == 2 * n && |coef| >= TwiddleSpan(n1, tm)
    ensures |y| == |x|
  {
    seq(|x|, i requires 0 <= i < |x| => Lane(LevelAt(x, k, n, n1, coef, tm, i / 2), i % 2))
  }

  /** The levels n1, n1/4, ..., 16 in turn, the twiddle stride growing
      four-fold per level; nothing is left for n1 <= 4. */
  function Levels(x: seq<Int16>, k: Kernel, n: nat, n1: nat, coef: seq<Int16>, tm: nat): (y: seq<Int16>)
    requires IsPowerOf4(n1) && LevelShape(n, n1) && |x| == 2 * n && |coef| >= TwiddleSpan(n1, tm)
    ensures |y| == |x|
    decreases n1
  {
    if n1 > 4 then
      NextLevelShape(n, n1, tm);
      Levels(Level(x, k, n, n1, coef, tm), k, n, n1 / 4, coef, 4 * tm)
    else
      x
  }

  /** The buffer after all middle levels: the first has n1 = N/4 and twiddle
      stride 4 * twidCoefModifier. */
  function MiddleStage(x: seq<Int16>, k: Kernel, n: nat, coef: seq<Int16>, tcm: nat): (y: seq<Int16>)
    requires ValidFftLen(n) && |x| == 2 * n && |coef| >= TwiddleSpan(n, tcm)
    ensures |y| == |x|
  {
    FirstLevelShape(n, tcm);
    Levels(x, k, n, n / 4, coef, 4 * tcm)
  }

  /** The next level is well formed and reads no further into the table. */
  lemma {:induction false} NextLevelShape(n: nat, n1: nat, tm: nat)
    requires IsPowerOf4(n1) && LevelShape(n, n1) && n1 > 4
    ensures IsPowerOf4(n1 / 4) && LevelShape(n, n1 / 4)
    ensures TwiddleSpan(n1 / 4, 4 * tm) <= TwiddleSpan(n1, tm)
  {
    var n2 := n1 / 4;
    assert IsPowerOf4(n2);
    assert n2 > 1;
    assert n2 % 4 == 0;
    var r := n / n1;
    assert n == r * n1;
    assert n == (r * 4) * n2;
    DivModUnique(n, n2, r * 4, 0);
    assert (n2 / 4 - 1) * (4 * tm) == (n2 - 4) * tm;
    MulMono(n2 - 4, n2 - 1, tm);
  }

  /** Loop invariant of a level: butterflies (m, jj) with jj < j, and those
      with jj == j and m < mDone, hold their results; every other butterfly
      still holds its inputs. */
  ghost predicate LevelDone(x: seq<Int16>, cur: seq<Int16>, k: Kernel, n: nat, n1: nat, coef: seq<Int16>, tm: nat,
                            j: nat, mDone: nat)
    requires LevelShape(n, n1) && |x| == 2 * n && |coef| >= TwiddleSpan(n1, tm)
  {
    && |cur| == 2 * n
    && forall m, jj :: 0 <= m < n / n1 && 0 <= jj < n1 / 4 ==>
         Block(cur, n, n1, m, jj) ==
           if jj < j || (jj == j && m < mDone) then LevelQuad(x, k, n, n1, coef, tm, m, jj) else Block(x, n, n1, m, jj)
  }

  /** Two different butterflies of a level share no sample. */
  lemma {:induction false} BlocksApart(n2: nat, m: nat, j: nat, s: nat, mm: nat, jj: nat, ss: nat)
    requires 0 < n2 && j < n2 && jj < n2 && s < 4 && ss < 4 && (m != mm || j != jj)
    ensures m * (4 * n2) + j + s * n2 != mm * (4 * n2) + jj + ss * n2
  {
    var p := m * (4 * n2) + s * n2 + j;
    if p == mm * (4 * n2) + ss * n2 + jj {
      LevelSlotAt(p, m, s, j, n2);
      LevelSlotAt(p, mm, ss, jj, n2);
      assert false;
    }
  }

  /** One butterfly of the inner loop keeps the invariant with mDone
      advanced by one. */
  lemma {:induction false} LevelStepKeepsDone(x: seq<Int16>, pre: seq<Int16>, post: seq<Int16>, k: Kernel, n: nat,
                                              n1: nat, coef: seq<Int16>, tm: nat, j: nat, m: nat)
    requires LevelShape(n, n1) && |x| == 2 * n && |coef| >= TwiddleSpan(n1, tm)
    requires m < n / n1 && j < n1 / 4 && LevelDone(x, pre, k, n, n1, coef, tm, j, m)
    requires OnlyQuadChanged(pre, post, m * n1 + j, n1 / 4)
    requires Block(post, n, n1, m, j) == LevelQuad(pre, k, n, n1, coef, tm, m, j)
    ensures LevelDone(x, post, k, n, n1, coef, tm, j, m + 1)
  {
    var n2 := n1 / 4;
    assert n1 == 4 * n2;
    forall mm, jj | 0 <= mm < n / n1 && 0 <= jj < n2
      ensures Block(post, n, n1, mm, jj) ==
        if jj < j || (jj == j && mm < m + 1) then LevelQuad(x, k, n, n1, coef, tm, mm, jj) else Block(x, n, n1, mm, jj)
    {
      if mm != m || jj != j {
        OtherBlockKept(pre, post, n, n1, m, j, mm, jj);
      }
    }
  }

  /** A step on butterfly (m, j) leaves every other butterfly's samples as
      they were. */
  lemma {:induction false} OtherBlockKept(pre: seq<Int16>, post: seq<Int16>, n: nat, n1: nat, m: nat, j: nat, mm: nat, jj: nat)
    requires LevelShape(n, n1) && |pre| == 2 * n
    requires m < n / n1 && j < n1 / 4 && mm < n / n1 && jj < n1 / 4 && (mm != m || jj != j)
    requires OnlyQuadChanged(pre, post, m * n1 + j, n1 / 4)
    ensures Block(post, n, n1, mm, jj) == Block(pre, n, n1, mm, jj)
  {
    var n2 := n1 / 4;
    BlockInRange(n, n1, mm, jj);
    var g := mm * n1 + jj;
    BlocksDisjoint(n1, m, j, mm, jj);
    DisjointQuadKept(pre, post, m * n1 + j, g, n2);
  }

  /** Two different butterfly of a level touch disjoint sets of samples. */
  lemma {:induction false} BlocksDisjoint(n1: nat, m: nat, j: nat, mm: nat, jj: nat)
    requires 4 <= n1 && n1 % 4 == 0 && j < n1 / 4 && jj < n1 / 4 && (m != mm || j != jj)
    ensures QuadIndices(mm * n1 + jj, n1 / 4) !! QuadIndices(m * n1 + j, n1 / 4)
  {
    var n2 := n1 / 4;
    assert n1 == 4 * n2;
    forall s, ss | 0 <= s < 4 && 0 <= ss < 4
      ensures m * n1 + j + s * n2 != mm * n1 + jj + ss * n2
    {
      BlocksApart(n2, m, j, s, mm, jj, ss);
    }
    assert m * n1 + j + 0 * n2 == m * n1 + j;
    assert mm * n1 + jj + 0 * n2 == mm * n1 + jj;
    assert m * n1 + j + 1 * n2 == m * n1 + j + n2;
    assert mm * n1 + jj + 1 * n2 == mm * n1 + jj + n2;
  }

  /** When the inner loop has passed every block, butterfly j is done
      everywhere. */
  lemma {:induction false} LevelRowDone(x: seq<Int16>, cur: seq<Int16>, k: Kernel, n: nat, n1: nat,
                                        coef: seq<Int16>, tm: nat, j: nat)
    requires LevelShape(n, n1) && |x| == 2 * n && |coef| >= TwiddleSpan(n1, tm)
    requires LevelDone(x, cur, k, n, n1, coef, tm, j, n / n1)
    ensures LevelDone(x, cur, k, n, n1, coef, tm, j + 1, 0)
  {
  }

  /** Once every butterfly is done, the buffer is the level's result. */
  lemma {:induction false} LevelDoneAll(x: seq<Int16>, cur: seq<Int16>, k: Kernel, n: nat, n1: nat,
                                        coef: seq<Int16>, tm: nat)
    requires LevelShape(n, n1) && |x| == 2 * n && |coef| >= TwiddleSpan(n1, tm)
    requires LevelDone(x, cur, k, n, n1, coef, tm, n1 / 4, 0)
    ensures cur == Level(x, k, n, n1, coef, tm)
  {
    var y := Level(x, k, n, n1, coef, tm);
    forall i | 0 <= i < |cur|
      ensures cur[i] == y[i]
    {
      LevelSampleDone(x, cur, k, n, n1, coef, tm, i / 2);
      assert y[i] == Lane(LevelAt(x, k, n, n1, coef, tm, i / 2), i % 2);
    }
  }

  /** ... sample by sample. */
  lemma {:induction false} LevelSampleDone(x: seq<Int16>, cur: seq<Int16>, k: Kernel, n: nat, n1: nat,
                                           coef: seq<Int16>, tm: nat, p: nat)
    requires LevelShape(n, n1) && |x| == 2 * n && |coef| >= TwiddleSpan(n1, tm) && p < n
    requires LevelDone(x, cur, k, n, n1, coef, tm, n1 / 4, 0)
    ensures Sample(cur, p) == LevelAt(x, k, n, n1, coef, tm, p)
  {
    var n2 := n1 / 4;
    BlockOf(n, n1, p);
    var m, j, s := p / n1, p % n2, (p % n1) / n2;
    assert Block(cur, n, n1, m, j) == LevelQuad(x, k, n, n1, coef, tm, m, j);
    assert p == m * n1 + j + s * n2;
    if s == 0 {} else if s == 1 {} else if s == 2 {} else {}
  }

  /** What a level writes to slot s of butterfly j of block m: slot s of
      that butterfly's outputs, computed from the level's input. */
  lemma {:induction false} LevelSample(x: seq<Int16>, k: Kernel, n: nat, n1: nat, coef: seq<Int16>, tm: nat,
                                       m: nat, j: nat, s: nat)
    requires LevelShape(n, n1) && |x| == 2 * n && |coef| >= TwiddleSpan(n1, tm)
    requires m < n / n1 && j < n1 / 4 && s < 4
    ensures m * n1 + j + s * (n1 / 4) < n
    ensures Sample(Level(x, k, n, n1, coef, tm), m * n1 + j + s * (n1 / 4)) == LevelQuad(x, k, n, n1, coef, tm, m, j).At(s)
  {
    var n2 := n1 / 4;
    BlockInRange(n, n1, m, j);
    MulMono(s, 3, n2);
    var p := m * n1 + j + s * n2;
    LevelSlotAt(p, m, s, j, n2);
    var y := Level(x, k, n, n1, coef, tm);
    assert y[2 * p] == LevelAt(x, k, n, n1, coef, tm, p).lo;
    assert y[2 * p + 1] == LevelAt(x, k, n, n1, coef, tm, p).hi;
  }

  /** Butterfly j of block m reads the samples from i0 = m n1 + j on and
      the twiddles of index ic = j tm, 2 ic and 3 ic. */
  lemma {:induction false} LevelQuadAt(x: seq<Int16>, k: Kernel, n: nat, n1: nat, coef: seq<Int16>, tm: nat,
                                       m: nat, j: nat, i0: nat, ic: nat)
    requires LevelShape(n, n1) && |x| == 2 * n && |coef| >= TwiddleSpan(n1, tm)
    requires m < n / n1 && j < n1 / 4 && i0 == m * n1 + j && ic == j * tm
    ensures 2 * (3 * ic) + 1 < |coef| && 2 * (i0 + 3 * (n1 / 4)) + 1 < |x|
    ensures LevelQuad(x, k, n, n1, coef, tm, m, j) ==
      k(Gather(x, i0, n1 / 4), Twiddle(coef, ic), Twiddle(coef, 2 * ic), Twiddle(coef, 3 * ic))
  {
    TwiddleIndexInSpan(j, n1, tm);
    BlockInRange(n, n1, m, j);
  }

  /** What a forward or inverse middle level writes to slot s of butterfly
      j of block m: the middle-pass combinations of the four inputs, slot 0
      as it is, slot 1 rotated by twiddle 2 ic, slot 2 by twiddle ic and
      slot 3 by twiddle 3 ic, where i0 = m n1 + j and ic = j * tm. */
  lemma {:induction false} LevelOutputs(x: seq<Int16>, dir: Direction, n: nat, n1: nat, coef: seq<Int16>, tm: nat,
                                        m: nat, j: nat, s: nat, i0: nat, ic: nat)
    requires LevelShape(n, n1) && |x| == 2 * n && |coef| >= TwiddleSpan(n1, tm)
    requires m < n / n1 && j < n1 / 4 && s < 4 && i0 == m * n1 + j && ic == j * tm
    ensures 2 * ic + 1 < |coef| && 2 * (2 * ic) + 1 < |coef| && 2 * (3 * ic) + 1 < |coef|
    ensures i0 + 3 * (n1 / 4) < n && i0 + s * (n1 / 4) < n
    ensures var n2 := n1 / 4;
      Sample(Level(x, MiddleKernel(dir), n, n1, coef, tm), i0 + s * n2) ==
        ApplyTwiddles(dir, MiddleTerms(dir, Sample(x, i0), Sample(x, i0 + n2), Sample(x, i0 + 2 * n2), Sample(x, i0 + 3 * n2)),
                      Twiddle(coef, ic), Twiddle(coef, 2 * ic), Twiddle(coef, 3 * ic)).At(s)
  {
    TwiddleIndexInSpan(j, n1, tm);
    BlockInRange(n, n1, m, j);
    var w1, w2, w3 := Twiddle(coef, ic), Twiddle(coef, 2 * ic), Twiddle(coef, 3 * ic);
    LevelSample(x, MiddleKernel(dir), n, n1, coef, tm, m, j, s);
    LevelQuadAt(x, MiddleKernel(dir), n, n1, coef, tm, m, j, i0, ic);
    MiddleKernelTerms(dir, Gather(x, i0, n1 / 4), w1, w2, w3);
  }

  /** One level in place: the `for (j ...)` loop over butterflies, loading
      the twiddles of index ic = j * tm before ic advances by tm. */
  method LevelPass(a: array<Int16>, k: Kernel, fftLen: nat, n1: nat, coef: seq<Int16>, tm: nat)
    requires LevelShape(fftLen, n1) && a.Length == 2 * fftLen && |coef| >= TwiddleSpan(n1, tm)
    modifies a
    ensures a[..] == Level(old(a[..]), k, fftLen, n1, coef, tm)
  {
    var n2: nat := n1 / 4;
    var ic: nat := 0;
    var j: nat := 0;
    while j <= n2 - 1
      invariant j <= n2 && ic == j * tm
      invariant LevelDone(old(a[..]), a[..], k, fftLen, n1, coef, tm, j, 0)
      decreases n2 - j
    {
      TwiddleIndexInSpan(j, n1, tm);
      var c1, c2, c3 := Twiddle(coef, ic), Twiddle(coef, 2 * ic), Twiddle(coef, 3 * ic);
      ic := ic + tm;
      ColumnPass(a, old(a[..]), k, fftLen, n1, coef, tm, j, c1, c2, c3);
      j := j + 1;
    }
    LevelDoneAll(old(a[..]), a[..], k, fftLen, n1, coef, tm);
  }

  /** Butterfly j of every block: the `for (i0 = j; i0 < fftLen; i0 += n1)`
      loop. */
  method ColumnPass(a: array<Int16>, ghost x: seq<Int16>, k: Kernel, fftLen: nat, n1: nat, coef: seq<Int16>,
                    tm: nat, j: nat, c1: Pair, c2: Pair, c3: Pair)
    requires LevelShape(fftLen, n1) && a.Length == 2 * fftLen && |x| == 2 * fftLen
    requires |coef| >= TwiddleSpan(n1, tm) && j < n1 / 4
    requires 2 * (3 * (j * tm)) + 1 < |coef|
    requires c1 == Twiddle(coef, j * tm) && c2 == Twiddle(coef, 2 * (j * tm)) && c3 == Twiddle(coef, 3 * (j * tm))
    requires LevelDone(x, a[..], k, fftLen, n1, coef, tm, j, 0)
    modifies a
    ensures LevelDone(x, a[..], k, fftLen, n1, coef, tm, j + 1, 0)
  {
    var n2: nat := n1 / 4;
    var i0: nat := j;
    ghost var m: nat := 0;
    while i0 < fftLen
      invariant i0 == m * n1 + j && m <= fftLen / n1
      invariant LevelDone(x, a[..], k, fftLen, n1, coef, tm, j, m)
      decreases fftLen - i0
    {
      ColumnInside(fftLen, n1, m, j);
      ghost var pre := a[..];
      TwiddledStep(a, k, i0, n2, c1, c2, c3);
      LevelStepKeepsDone(x, pre, a[..], k, fftLen, n1, coef, tm, j, m);
      i0 := i0 + n1;
      m := m + 1;
    }
    ColumnEnd(fftLen, n1, m, j);
    LevelRowDone(x, a[..], k, fftLen, n1, coef, tm, j);
  }

  /** All middle levels in place: the `for (k = fftLen / 4; k > 4; k >>= 2)`
      loop, with n2 and the twiddle stride updated as in fft.c. */
  method MiddlePasses(a: array<Int16>, k: Kernel, fftLen: nat, coef: seq<Int16>, twidCoefModifier: nat)
      returns (ghost levels: nat, ghost lastN2: nat, ghost lastTm: nat)
    requires ValidFftLen(fftLen) && a.Length == 2 * fftLen && |coef| >= TwiddleSpan(fftLen, twidCoefModifier)
    modifies a
    ensures a[..] == MiddleStage(old(a[..]), k, fftLen, coef, twidCoefModifier)
    ensures levels == Log4(fftLen) - 2 && lastN2 == 4 && lastTm == Pow4(levels + 1) * twidCoefModifier
    ensures Pow4(levels + 2) == fftLen && lastTm == fftLen / 4 * twidCoefModifier
  {
    FirstLevelShape(fftLen, twidCoefModifier);
    var n2: nat := fftLen / 4;
    var tm: nat := 4 * twidCoefModifier;
    var len: nat := fftLen / 4;
    levels := 0;
    while len > 4
      invariant n2 == len && IsPowerOf4(len) && LevelShape(fftLen, len) && |coef| >= TwiddleSpan(len, tm)
      invariant levels + Log4(len) == Log4(fftLen) - 1 && tm == Pow4(levels + 1) * twidCoefModifier
      invariant Levels(a[..], k, fftLen, len, coef, tm) == MiddleStage(old(a[..]), k, fftLen, coef, twidCoefModifier)
      decreases len
    {
      var n1 := n2;
      n2 := n2 / 4;
      NextLevelShape(fftLen, len, tm);
      ghost var pre := a[..];
      LevelPass(a, k, fftLen, n1, coef, tm);
      assert Levels(pre, k, fftLen, len, coef, tm) == Levels(a[..], k, fftLen, len / 4, coef, 4 * tm);
      Pow4Stride(levels + 1, twidCoefModifier);
      tm := tm * 4;
      len := len / 4;
      levels := levels + 1;
    }
    assert Log4(len) == 1;
    lastN2, lastTm := n2, tm;
    LastStride(fftLen, levels, twidCoefModifier);
  }

  /** After log4(N) - 2 levels the twiddle stride has grown to N/4 times
      twidCoefModifier. */
  lemma {:induction false} LastStride(n: nat, levels: nat, tcm: nat)
    requires IsPowerOf4(n) && levels + 2 == Log4(n)
    ensures Pow4(levels + 2) == n && Pow4(levels + 1) * tcm == n / 4 * tcm
  {
  }

  /** The first middle level (n1 = N/4, stride 4 * twidCoefModifier) is well
      formed and reads only what the first pass may read. */
  lemma {:induction false} FirstLevelShape(n: nat, tcm: nat)
    requires ValidFftLen(n)
    ensures IsPowerOf4(n / 4) && LevelShape(n, n / 4)
    ensures TwiddleSpan(n / 4, 4 * tcm) <= TwiddleSpan(n, tcm)
  {
    NextLevelShape(n, n, tcm);
  }

  /** For a 16-point transform the level loop does not run at all
      (k = 4 fails k > 4), so the middle passes leave the buffer unchanged. */
  lemma {:induction false} MiddleStageSixteen(x: seq<Int16>, k: Kernel, coef: seq<Int16>, tcm: nat)
    requires |x| == 32 && |coef| >= TwiddleSpan(16, tcm)
    ensures ValidFftLen(16) && MiddleStage(x, k, 16, coef, tcm) == x
  {
    assert IsPowerOf4(16) by {
      assert IsPowerOf4(4) by {
        assert IsPowerOf4(1);
      }
    }
  }

  /** arm_radix4_butterfly_q15_stage2. */
  method ButterflyStage2(a: array<Int16>, fftLen: nat, coef: seq<Int16>, twidCoefModifier: nat)
    requires ValidFftLen(fftLen) && a.Length == 2 * fftLen && |coef| >= TwiddleSpan(fftLen, twidCoefModifier)
    modifies a
    ensures a[..] == MiddleStage(old(a[..]), MiddleKernel(Forward), fftLen, coef, twidCoefModifier)
  {
    var _, _, _ := MiddlePasses(a, MiddleKernel(Forward), fftLen, coef, twidCoefModifier);
  }

  /** arm_radix4_butterfly_inverse_q15_stage2. */
  method InverseButterflyStage2(a: array<Int16>, fftLen: nat, coef: seq<Int16>, twidCoefModifier: nat)
    requires ValidFftLen(fftLen) && a.Length == 2 * fftLen && |coef| >= TwiddleSpan(fftLen, twidCoefModifier)
    modifies a
    ensures a[..] == MiddleStage(old(a[..]), MiddleKernel(Inverse), fftLen, coef, twidCoefModifier)
  {
    var _, _, _ := MiddlePasses(a, MiddleKernel(Inverse), fftLen, coef, twidCoefModifier);
  }
}
