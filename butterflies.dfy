/** The radix-4 butterflies of the three passes as pure functions of their
    four input samples and (for the first two passes) three twiddles. Each
    function follows the order of lane operations in fft.c; the lemmas below
    state what each output slot is in terms of the inputs. */
module Butterflies {
  import opened Q15Lanes

  /** Forward transform (ifftFlag != 1) or inverse transform (ifftFlag == 1). */
  datatype Direction = Forward | Inverse

  /** The four outputs of a butterfly: slot k is written back to the
      position of input k (offsets 0, n2, 2 n2 and 3 n2). */
  datatype Quad = Quad(s0: Pair, s1: Pair, s2: Pair, s3: Pair)
  {
    function At(slot: nat): Pair
      requires slot < 4
    {
      if slot == 0 then s0 else if slot == 1 then s1 else if slot == 2 then s2 else s3
    }
  }

  /** Twiddle rotation of `x` by `w = (cos, sin)` as the little-endian path
      computes it: out1 = dual multiply >> 16 supplies the low halfword,
      out2's high halfword the high one.
      Forward: out1 = SMUAD(w, x) >> 16, out2 = SMUSDX(w, x).
      Inverse: out1 = SMUSD(w, x) >> 16, out2 = SMUADX(w, x).
      Only the low 16 bits of out1 are kept, so whether `>>` shifts in sign
      bits or zeros makes no difference. */
  function Rotate(dir: Direction, w: Pair, x: Pair): Pair
  {
    match dir
    case Forward => Unpack(Combine(SMuad(w, x) / 0x1_0000, SMusdx(w, x)))
    case Inverse => Unpack(Combine(SMusd(w, x) / 0x1_0000, SMuadx(w, x)))
  }

  /** The ±j cross combinations of the difference terms `s = a - c` and
      `t = b - d`, saturating (first pass and last pass); the result is the
      pair (slot 2 input, slot 3 input). The forward pass sends QSAX to
      slot 2 and QASX to slot 3; the inverse pass swaps them. */
  function SatCross(dir: Direction, s: Pair, t: Pair): (Pair, Pair)
  {
    match dir
    case Forward => (QSax(s, t), QAsx(s, t))
    case Inverse => (QAsx(s, t), QSax(s, t))
  }

  /** The same cross combinations with the halving instructions (middle
      passes and last pass). */
  function HalvingCross(dir: Direction, s: Pair, t: Pair): (Pair, Pair)
  {
    match dir
    case Forward => (SHSax(s, t), SHAsx(s, t))
    case Inverse => (SHAsx(s, t), SHSax(s, t))
  }

  /** `((int16_t) (x & 0xFFFF)) >> 2` and the masked word shift: the input
      pre-scale of the first pass. */
  function PreScale(x: Pair): Pair
  {
    Unpack(ShiftLanesWord(Pack(x), 4))
  }

  /** The saturating combinations of the first pass, on already pre-scaled
      samples a, b, c, d: slot 0 is the halved sum, slot 1 the a - b + c - d
      term, slots 2 and 3 the two cross terms. */
  function SatTerms(dir: Direction, a: Pair, b: Pair, c: Pair, d: Pair): Quad
  {
    var r := QAdd16(a, c);
    var s := QSub16(a, c);
    var t := QAdd16(b, d);
    var cross := SatCross(dir, s, QSub16(b, d));
    Quad(SHAdd16(r, t), QSub16(r, t), cross.0, cross.1)
  }

  /** The first-pass combinations of the raw samples xa, xb, xc, xd before
      any twiddle: every input is pre-scaled as it is read. */
  function FirstTerms(dir: Direction, xa: Pair, xb: Pair, xc: Pair, xd: Pair): Quad
  {
    SatTerms(dir, PreScale(xa), PreScale(xb), PreScale(xc), PreScale(xd))
  }

  /** The middle-pass combinations: no pre-scale, the sum gets one more
      masked `>> 1`, the difference and the cross terms are halving. */
  function MiddleTerms(dir: Direction, xa: Pair, xb: Pair, xc: Pair, xd: Pair): Quad
  {
    var r := QAdd16(xa, xc);
    var s := QSub16(xa, xc);
    var t := QAdd16(xb, xd);
    var cross := HalvingCross(dir, s, QSub16(xb, xd));
    Quad(Unpack(ShiftLanesWord(Pack(SHAdd16(r, t)), 2)), SHSub16(r, t), cross.0, cross.1)
  }

  /** Slot 0 goes out as it is; slot 1 is rotated by w2 (twiddle index 2k),
      slot 2 by w1 (index k) and slot 3 by w3 (index 3k). */
  function ApplyTwiddles(dir: Direction, q: Quad, w1: Pair, w2: Pair, w3: Pair): Quad
  {
    Quad(q.s0, Rotate(dir, w2, q.s1), Rotate(dir, w1, q.s2), Rotate(dir, w3, q.s3))
  }

  /** The first-pass butterfly with twiddles w1 (index k), w2 (index 2k)
      and w3 (index 3k). */
  function FirstButterfly(dir: Direction, xa: Pair, xb: Pair, xc: Pair, xd: Pair,
                          w1: Pair, w2: Pair, w3: Pair): Quad
  {
    ApplyTwiddles(dir, FirstTerms(dir, xa, xb, xc, xd), w1, w2, w3)
  }

  /** The middle-pass butterfly. */
  function MiddleButterfly(dir: Direction, xa: Pair, xb: Pair, xc: Pair, xd: Pair,
                           w1: Pair, w2: Pair, w3: Pair): Quad
  {
    ApplyTwiddles(dir, MiddleTerms(dir, xa, xb, xc, xd), w1, w2, w3)
  }

  /** The last-pass butterfly on four adjacent samples: no twiddle. */
  function FinalButterfly(dir: Direction, xa: Pair, xb: Pair, xc: Pair, xd: Pair): Quad
  {
    var r := QAdd16(xa, xc);
    var t := QAdd16(xb, xd);
    var s := QSub16(xa, xc);
    var u := QSub16(xb, xd);
    var cross := HalvingCross(dir, s, u);
    Quad(SHAdd16(r, t), SHSub16(r, t), cross.0, cross.1)
  }

  /** A butterfly as the passes apply it: the four input samples and the
      twiddles of indices k, 2k and 3k give the four outputs. */
  type Kernel = (Quad, Pair, Pair, Pair) -> Quad

  /** A butterfly without twiddles (the last pass). */
  type PlainKernel = Quad -> Quad

  function FirstKernel(dir: Direction): Kernel
  {
    (v: Quad, w1: Pair, w2: Pair, w3: Pair) => FirstButterfly(dir, v.s0, v.s1, v.s2, v.s3, w1, w2, w3)
  }

  function MiddleKernel(dir: Direction): Kernel
  {
    (v: Quad, w1: Pair, w2: Pair, w3: Pair) => MiddleButterfly(dir, v.s0, v.s1, v.s2, v.s3, w1, w2, w3)
  }

  function FinalKernel(dir: Direction): PlainKernel
  {
    (v: Quad) => FinalButterfly(dir, v.s0, v.s1, v.s2, v.s3)
  }

  // ---------------------------------------------------------------------
  // Rotation

  lemma Signed16Id(x: Int16)
    ensures Signed16(x) == x
  {
  }

  /** The rotated halfwords are the high halfwords of the two 32-bit dual
      multiply results. */
  lemma RotateHalves(dir: Direction, w: Pair, x: Pair)
    ensures Rotate(dir, w, x) ==
      match dir
      case Forward => Pair(SMuad(w, x) / 0x1_0000, SMusdx(w, x) / 0x1_0000)
      case Inverse => Pair(SMusd(w, x) / 0x1_0000, SMuadx(w, x) / 0x1_0000)
  {
    match dir
    case Forward =>
      CombineHalves(SMuad(w, x) / 0x1_0000, SMusdx(w, x));
      Signed16Id(SMuad(w, x) / 0x1_0000);
    case Inverse =>
      CombineHalves(SMusd(w, x) / 0x1_0000, SMuadx(w, x));
      Signed16Id(SMusd(w, x) / 0x1_0000);
  }

  /** A product of a twiddle lane other than -32768 and any halfword. */
  lemma {:induction false} ProductBound(c: Int16, u: Int16)
    requires c != -0x8000
    ensures -0x7FFF * 0x8000 <= c * u <= 0x7FFF * 0x8000
  {
    if c >= 0 {
      MulMono(u, 0x7FFF, c);
      MulMono(-0x8000, u, c);
      MulMono(c, 0x7FFF, 0x8000);
    } else {
      MulMono(u, 0x7FFF, -c);
      MulMono(-0x8000, u, -c);
      MulMono(-c, 0x7FFF, 0x8000);
    }
  }

  /** Unless the twiddle is (-32768, -32768) the dual multiplies cannot
      overflow, and the rotation by w = (c, s) of x = (u, v) writes, per lane,
      forward: real = floor((u c + v s) / 2^16), imag = floor((v c - u s) / 2^16);
      inverse: real = floor((u c - v s) / 2^16), imag = floor((v c + u s) / 2^16). */
  lemma {:induction false} RotateExact(dir: Direction, w: Pair, x: Pair)
    requires w != Pair(-0x8000, -0x8000)
    ensures dir == Forward ==>
      && Rotate(dir, w, x).lo == (x.lo * w.lo + x.hi * w.hi) / 0x1_0000
      && Rotate(dir, w, x).hi == (x.hi * w.lo - x.lo * w.hi) / 0x1_0000
    ensures dir == Inverse ==>
      && Rotate(dir, w, x).lo == (x.lo * w.lo - x.hi * w.hi) / 0x1_0000
      && Rotate(dir, w, x).hi == (x.hi * w.lo + x.lo * w.hi) / 0x1_0000
  {
    DualProductsExact(w, x);
    RotateHalves(dir, w, x);
  }

  /** Any product of two halfwords lies in [-32767 * 32768, 2^30]; only
      (-32768) * (-32768) reaches 2^30. */
  lemma {:induction false} HalfProduct(c: Int16, u: Int16)
    ensures -0x7FFF * 0x8000 <= c * u <= 0x4000_0000
  {
    if c != -0x8000 {
      ProductBound(c, u);
    }
  }

  /** The four dual multiplies are exact for every twiddle except
      (-32768, -32768): the differences never overflow, and a sum can reach
      2^31 only when both of its products are 2^30. */
  lemma {:induction false} DualProductsExact(w: Pair, x: Pair)
    requires w != Pair(-0x8000, -0x8000)
    ensures SMuad(w, x) == x.lo * w.lo + x.hi * w.hi
    ensures SMusdx(w, x) == x.hi * w.lo - x.lo * w.hi
    ensures SMusd(w, x) == x.lo * w.lo - x.hi * w.hi
    ensures SMuadx(w, x) == x.hi * w.lo + x.lo * w.hi
  {
    var uc, vs, vc, us := w.lo * x.lo, w.hi * x.hi, w.lo * x.hi, w.hi * x.lo;
    HalfProduct(w.lo, x.lo);
    HalfProduct(w.hi, x.hi);
    HalfProduct(w.lo, x.hi);
    HalfProduct(w.hi, x.lo);
    if w.lo != -0x8000 {
      ProductBound(w.lo, x.lo);
      ProductBound(w.lo, x.hi);
    } else {
      ProductBound(w.hi, x.hi);
      ProductBound(w.hi, x.lo);
    }
    Wrap32Exact(uc + vs);
    Wrap32Exact(vc - us);
    Wrap32Exact(uc - vs);
    Wrap32Exact(vc + us);
  }

  /** The one excluded twiddle: SMUAD of (-32768, -32768) with itself is
      2^31, which wraps around to -2^31. */
  lemma SMuadWraps()
    ensures SMuad(Pair(-0x8000, -0x8000), Pair(-0x8000, -0x8000)) == -0x8000_0000
  {
  }

  /** The inverse rotation is the forward rotation by the conjugate
      twiddle (cos, -sin). */
  lemma InverseIsConjugate(w: Pair, x: Pair)
    requires w.hi != -0x8000
    ensures Rotate(Inverse, w, x) == Rotate(Forward, Pair(w.lo, -w.hi), x)
  {
    var cw := Pair(w.lo, -w.hi);
    assert cw.hi * x.hi == -(w.hi * x.hi);
    assert cw.hi * x.lo == -(w.hi * x.lo);
    assert SMusd(w, x) == SMuad(cw, x);
    assert SMuadx(w, x) == SMusdx(cw, x);
  }

  // ---------------------------------------------------------------------
  // What each butterfly slot holds

  /** Both halfwords divided by 4, rounding down. */
  function Quarter(x: Pair): (r: Pair)
    ensures r.lo * 4 <= x.lo < r.lo * 4 + 4 && r.hi * 4 <= x.hi < r.hi * 4 + 4
  {
    Pair(x.lo / 4, x.hi / 4)
  }

  /** The first-pass pre-scale divides both halfwords by 4, rounding down. */
  lemma PreScaleLanes(x: Pair)
    ensures PreScale(x) == Quarter(x)
  {
    ShiftLanesWordIsLaneShift(x, 4);
  }

  /** The first pass reads every input through the pre-scale: its
      combinations are those of the samples with both halfwords divided by 4
      (rounding down). */
  lemma {:induction false} FirstTermsPreScale(dir: Direction, xa: Pair, xb: Pair, xc: Pair, xd: Pair)
    ensures FirstTerms(dir, xa, xb, xc, xd) ==
      SatTerms(dir, Quarter(xa), Quarter(xb), Quarter(xc), Quarter(xd))
  {
    PreScaleLanes(xa);
    PreScaleLanes(xb);
    PreScaleLanes(xc);
    PreScaleLanes(xd);
  }

  /** The first-pass butterfly as the pass applies it: the saturating
      combinations of the quartered inputs, then the twiddle rotations. */
  lemma {:induction false} FirstKernelQuartered(dir: Direction, v: Quad, w1: Pair, w2: Pair, w3: Pair)
    ensures FirstKernel(dir)(v, w1, w2, w3) ==
      ApplyTwiddles(dir, SatTerms(dir, Quarter(v.s0), Quarter(v.s1), Quarter(v.s2), Quarter(v.s3)), w1, w2, w3)
  {
    FirstTermsPreScale(dir, v.s0, v.s1, v.s2, v.s3);
  }

  /** The middle-pass butterfly as the pass applies it. */
  lemma MiddleKernelTerms(dir: Direction, v: Quad, w1: Pair, w2: Pair, w3: Pair)
    ensures MiddleKernel(dir)(v, w1, w2, w3) ==
      ApplyTwiddles(dir, MiddleTerms(dir, v.s0, v.s1, v.s2, v.s3), w1, w2, w3)
  {
  }

  /** The last-pass butterfly as the pass applies it. */
  lemma FinalKernelIs(dir: Direction, v: Quad)
    ensures FinalKernel(dir)(v) == FinalButterfly(dir, v.s0, v.s1, v.s2, v.s3)
  {
  }

  /** First-pass sum and difference, lane by lane: slot 0 holds
      floor((sat(a + c) + sat(b + d)) / 2), slot 1 sat(sat(a + c) - sat(b + d)). */
  lemma SatTermsSums(dir: Direction, xa: Pair, xb: Pair, xc: Pair, xd: Pair)
    ensures var q := SatTerms(dir, xa, xb, xc, xd);
      var a, b, c, d := xa.lo, xb.lo, xc.lo, xd.lo;
      var a', b', c', d' := xa.hi, xb.hi, xc.hi, xd.hi;
      && q.s0 == Pair((Sat16(a + c) + Sat16(b + d)) / 2, (Sat16(a' + c') + Sat16(b' + d')) / 2)
      && q.s1 == Pair(Sat16(Sat16(a + c) - Sat16(b + d)), Sat16(Sat16(a' + c') - Sat16(b' + d')))
  {
  }

  /** First-pass cross terms, lane by lane: with s = sat(a - c) and
      t = sat(b - d), slot 2 holds the saturated s - j t and slot 3 the
      saturated s + j t; the inverse pass has them the other way round. */
  lemma {:induction false} SatTermsCross(dir: Direction, xa: Pair, xb: Pair, xc: Pair, xd: Pair)
    ensures var q := SatTerms(dir, xa, xb, xc, xd);
      var a, b, c, d := xa.lo, xb.lo, xc.lo, xd.lo;
      var a', b', c', d' := xa.hi, xb.hi, xc.hi, xd.hi;
      var minusJ := Pair(Sat16(Sat16(a - c) + Sat16(b' - d')), Sat16(Sat16(a' - c') - Sat16(b - d)));
      var plusJ := Pair(Sat16(Sat16(a - c) - Sat16(b' - d')), Sat16(Sat16(a' - c') + Sat16(b - d)));
      && q.s2 == (if dir == Forward then minusJ else plusJ)
      && q.s3 == (if dir == Forward then plusJ else minusJ)
  {
    var s, t := QSub16(xa, xc), QSub16(xb, xd);
    assert SatCross(dir, s, t) == if dir == Forward then (QSax(s, t), QAsx(s, t)) else (QAsx(s, t), QSax(s, t));
  }

  /** Middle-pass sum and difference: slot 0 holds
      floor(floor((sat(a + c) + sat(b + d)) / 2) / 2) per lane, the extra
      masked >> 1 included, and slot 1 floor((sat(a + c) - sat(b + d)) / 2). */
  lemma {:induction false} MiddleTermsSums(dir: Direction, xa: Pair, xb: Pair, xc: Pair, xd: Pair)
    ensures var q := MiddleTerms(dir, xa, xb, xc, xd);
      var a, b, c, d := xa.lo, xb.lo, xc.lo, xd.lo;
      var a', b', c', d' := xa.hi, xb.hi, xc.hi, xd.hi;
      && q.s0 == Pair((Sat16(a + c) + Sat16(b + d)) / 2 / 2, (Sat16(a' + c') + Sat16(b' + d')) / 2 / 2)
      && q.s1 == Pair((Sat16(a + c) - Sat16(b + d)) / 2, (Sat16(a' + c') - Sat16(b' + d')) / 2)
  {
    var r, t := QAdd16(xa, xc), QAdd16(xb, xd);
    var h := SHAdd16(r, t);
    ShiftLanesWordIsLaneShift(h, 2);
    assert MiddleTerms(dir, xa, xb, xc, xd).s0 == Unpack(ShiftLanesWord(Pack(h), 2));
  }

  /** Middle-pass cross terms: the halved s - j t and s + j t. */
  lemma {:induction false} MiddleTermsCross(dir: Direction, xa: Pair, xb: Pair, xc: Pair, xd: Pair)
    ensures var q := MiddleTerms(dir, xa, xb, xc, xd);
      var a, b, c, d := xa.lo, xb.lo, xc.lo, xd.lo;
      var a', b', c', d' := xa.hi, xb.hi, xc.hi, xd.hi;
      var minusJ := Pair((Sat16(a - c) + Sat16(b' - d')) / 2, (Sat16(a' - c') - Sat16(b - d)) / 2);
      var plusJ := Pair((Sat16(a - c) - Sat16(b' - d')) / 2, (Sat16(a' - c') + Sat16(b - d)) / 2);
      && q.s2 == (if dir == Forward then minusJ else plusJ)
      && q.s3 == (if dir == Forward then plusJ else minusJ)
  {
    var s, t := QSub16(xa, xc), QSub16(xb, xd);
    assert HalvingCross(dir, s, t) == if dir == Forward then (SHSax(s, t), SHAsx(s, t)) else (SHAsx(s, t), SHSax(s, t));
  }

  /** Last pass, per lane: SHADD16(R, T) and SHSUB16(R, T) of the
      saturating sums R = sat(a + c), T = sat(b + d). */
  lemma FinalButterflySums(dir: Direction, xa: Pair, xb: Pair, xc: Pair, xd: Pair)
    ensures var q := FinalButterfly(dir, xa, xb, xc, xd);
      var a, b, c, d := xa.lo, xb.lo, xc.lo, xd.lo;
      var a', b', c', d' := xa.hi, xb.hi, xc.hi, xd.hi;
      && q.s0 == Pair((Sat16(a + c) + Sat16(b + d)) / 2, (Sat16(a' + c') + Sat16(b' + d')) / 2)
      && q.s1 == Pair((Sat16(a + c) - Sat16(b + d)) / 2, (Sat16(a' + c') - Sat16(b' + d')) / 2)
  {
  }

  /** Last pass: SHSAX(S, U) then SHASX(S, U) of the saturating differences
      S = sat(a - c), U = sat(b - d) in the forward pass, swapped in the
      inverse pass; no twiddle is involved. */
  lemma {:induction false} FinalButterflyCross(dir: Direction, xa: Pair, xb: Pair, xc: Pair, xd: Pair)
    ensures var q := FinalButterfly(dir, xa, xb, xc, xd);
      var a, b, c, d := xa.lo, xb.lo, xc.lo, xd.lo;
      var a', b', c', d' := xa.hi, xb.hi, xc.hi, xd.hi;
      var minusJ := Pair((Sat16(a - c) + Sat16(b' - d')) / 2, (Sat16(a' - c') - Sat16(b - d)) / 2);
      var plusJ := Pair((Sat16(a - c) - Sat16(b' - d')) / 2, (Sat16(a' - c') + Sat16(b - d)) / 2);
      && q.s2 == (if dir == Forward then minusJ else plusJ)
      && q.s3 == (if dir == Forward then plusJ else minusJ)
  {
    var s, t := QSub16(xa, xc), QSub16(xb, xd);
    assert HalvingCross(dir, s, t) == if dir == Forward then (SHSax(s, t), SHAsx(s, t)) else (SHAsx(s, t), SHSax(s, t));
  }

  /** Forward and inverse butterflies of one pass agree on slots 0 and 1
      and write the two cross terms to opposite slots. */
  lemma {:induction false} DirectionSwapsCrossTerms(xa: Pair, xb: Pair, xc: Pair, xd: Pair)
    ensures var f, i := FirstTerms(Forward, xa, xb, xc, xd), FirstTerms(Inverse, xa, xb, xc, xd);
      i == Quad(f.s0, f.s1, f.s3, f.s2)
    ensures var f, i := MiddleTerms(Forward, xa, xb, xc, xd), MiddleTerms(Inverse, xa, xb, xc, xd);
      i == Quad(f.s0, f.s1, f.s3, f.s2)
    ensures var f, i := FinalButterfly(Forward, xa, xb, xc, xd), FinalButterfly(Inverse, xa, xb, xc, xd);
      i == Quad(f.s0, f.s1, f.s3, f.s2)
  {
  }
}
