/** Two-lane 16-bit fixed-point arithmetic of the ARMv7-M DSP extension
    (section A7.7 of the ARMv7-M Architecture Reference Manual), as used by
    the radix-4 Q15 FFT passes. A 32-bit register holding two halfwords is a
    `Pair`; the low halfword is the real part of a sample, the high halfword
    the imaginary part. */
module Q15Lanes {

  /** q15_t: a signed 16-bit value. */
  type Int16 = x: int | -0x8000 <= x < 0x8000

  /** q31_t: a signed 32-bit value. */
  type Int32 = x: int | -0x8000_0000 <= x < 0x8000_0000

  /** A register seen as two signed halfwords. */
  datatype Pair = Pair(lo: Int16, hi: Int16)

  // ---------------------------------------------------------------------
  // Scalar helpers

  /** Signed saturation to 16 bits: clamp into [-32768, 32767]. */
  function Sat16(x: int): Int16
  {
    if x > 0x7FFF then 0x7FFF else if x < -0x8000 then -0x8000 else x
  }

  /** Two's-complement reduction of an integer to its low 32 bits. */
  function Wrap32(x: int): Int32
  {
    (x + 0x8000_0000) % 0x1_0000_0000 - 0x8000_0000
  }

  /** The low halfword of an integer, reinterpreted as signed. */
  function Signed16(x: int): Int16
  {
    var u := x % 0x1_0000;
    if u >= 0x8000 then u - 0x1_0000 else u
  }

  // ---------------------------------------------------------------------
  // Packed words: the register that holds a Pair, and the bit masks that
  // fft.c applies to it.

  /** The 32-bit register value whose halfwords are `p` (hi in bits 31..16). */
  function Pack(p: Pair): Int32
  {
    p.hi * 0x1_0000 + p.lo % 0x1_0000
  }

  /** The halfwords of a 32-bit register value. */
  function Unpack(w: Int32): Pair
  {
    Pair(Signed16(w), w / 0x1_0000)
  }

  /** `x & 0xFFFF0000`, read back as a signed 32-bit value. */
  function HighMask(x: int): int
  {
    x - x % 0x1_0000
  }

  /** `x & 0x0000FFFF`. */
  function LowMask(x: int): int
  {
    x % 0x1_0000
  }

  /** `((w >> s) & 0xFFFF0000) | (((int16_t) (w & 0xFFFF)) >> s & 0xFFFF)`
      with `d == 2^s`: fft.c's way of shifting both halfwords of a register
      right at once. `>>` on a signed value is arithmetic, that is, a floor
      division by `d`. */
  function ShiftLanesWord(w: Int32, d: nat): Int32
    requires d == 2 || d == 4
  {
    HighMask(w / d) + LowMask(Unpack(w).lo / d)
  }

  /** `(out2 & 0xFFFF0000) | (out1 & 0x0000FFFF)`: the register that keeps
      the low halfword of `out1` and the high halfword of `out2`. */
  function Combine(out1: int, out2: Int32): Int32
  {
    HighMask(out2) + LowMask(out1)
  }

  // ---------------------------------------------------------------------
  // Parallel add and subtract (saturating Q and signed halving SH forms)

  /** QADD16: lane-wise saturating addition. */
  function QAdd16(x: Pair, y: Pair): Pair
  {
    Pair(Sat16(x.lo + y.lo), Sat16(x.hi + y.hi))
  }

  /** QSUB16: lane-wise saturating subtraction. */
  function QSub16(x: Pair, y: Pair): Pair
  {
    Pair(Sat16(x.lo - y.lo), Sat16(x.hi - y.hi))
  }

  /** QASX: low = x.lo - y.hi, high = x.hi + y.lo, both saturated. */
  function QAsx(x: Pair, y: Pair): Pair
  {
    Pair(Sat16(x.lo - y.hi), Sat16(x.hi + y.lo))
  }

  /** QSAX: low = x.lo + y.hi, high = x.hi - y.lo, both saturated. */
  function QSax(x: Pair, y: Pair): Pair
  {
    Pair(Sat16(x.lo + y.hi), Sat16(x.hi - y.lo))
  }

  /** SHADD16: lane-wise halved sum, floor((x + y) / 2); never saturates. */
  function SHAdd16(x: Pair, y: Pair): Pair
  {
    Pair((x.lo + y.lo) / 2, (x.hi + y.hi) / 2)
  }

  /** SHSUB16: lane-wise halved difference, floor((x - y) / 2). */
  function SHSub16(x: Pair, y: Pair): Pair
  {
    Pair((x.lo - y.lo) / 2, (x.hi - y.hi) / 2)
  }

  /** SHASX: low = floor((x.lo - y.hi) / 2), high = floor((x.hi + y.lo) / 2). */
  function SHAsx(x: Pair, y: Pair): Pair
  {
    Pair((x.lo - y.hi) / 2, (x.hi + y.lo) / 2)
  }

  /** SHSAX: low = floor((x.lo + y.hi) / 2), high = floor((x.hi - y.lo) / 2). */
  function SHSax(x: Pair, y: Pair): Pair
  {
    Pair((x.lo + y.hi) / 2, (x.hi - y.lo) / 2)
  }

  // ---------------------------------------------------------------------
  // Dual 16x16 multiplies; the architected result is the low 32 bits of
  // the exact sum (SMUAD and SMUADX set the sticky Q flag on overflow,
  // which the FFT never reads).

  /** SMUAD: x.lo * y.lo + x.hi * y.hi. */
  function SMuad(x: Pair, y: Pair): Int32
  {
    Wrap32(x.lo * y.lo + x.hi * y.hi)
  }

  /** SMUADX: x.lo * y.hi + x.hi * y.lo. */
  function SMuadx(x: Pair, y: Pair): Int32
  {
    Wrap32(x.lo * y.hi + x.hi * y.lo)
  }

  /** SMUSD: x.lo * y.lo - x.hi * y.hi. */
  function SMusd(x: Pair, y: Pair): Int32
  {
    Wrap32(x.lo * y.lo - x.hi * y.hi)
  }

  /** SMUSDX: x.lo * y.hi - x.hi * y.lo. */
  function SMusdx(x: Pair, y: Pair): Int32
  {
    Wrap32(x.lo * y.hi - x.hi * y.lo)
  }

  // ---------------------------------------------------------------------
  // Properties

  /** Saturation picks the representable value nearest to `x`, so it never
      wraps around to a value of the other sign. */
  lemma SatIsNearest(x: int, y: Int16)
    ensures (if x >= Sat16(x) then x - Sat16(x) else Sat16(x) - x)
         <= (if x >= y then x - y else y - x)
    ensures (x >= 0) == (Sat16(x) >= 0)
    ensures -0x8000 <= x < 0x8000 <==> Sat16(x) == x
  {
  }

  /** Wrap32 is the identity on values that fit, and keeps the residue
      modulo 2^32 of every value. */
  lemma Wrap32Exact(x: int)
    ensures -0x8000_0000 <= x < 0x8000_0000 <==> Wrap32(x) == x
    ensures (Wrap32(x) - x) % 0x1_0000_0000 == 0
  {
  }

  /** Packing a Pair into a register and reading its halfwords back is the
      identity, in both directions. */
  lemma {:induction false} PackUnpack(p: Pair, w: Int32)
    ensures Unpack(Pack(p)) == p
    ensures Pack(Unpack(w)) == w
  {
    var l := p.lo % 0x1_0000;
    assert Pack(p) == p.hi * 0x1_0000 + l;
    DivModUnique(Pack(p), 0x1_0000, p.hi, l);
    assert Signed16(Pack(p)) == p.lo;
    DivModUnique(w, 0x1_0000, w / 0x1_0000, w % 0x1_0000);
  }

  /** Division with remainder is unique: if p == q * d + r with 0 <= r < d
      then q and r are Dafny's floor quotient and remainder of p by d. */
  lemma {:induction false} DivModUnique(p: int, d: int, q: int, r: int)
    requires 0 < d && 0 <= r < d && p == q * d + r
    ensures p / d == q && p % d == r
  {
    var q', r' := p / d, p % d;
    assert (q - q') * d == r' - r;
    if q > q' {
      MulAtLeast(q - q', d);
      assert false;
    } else if q < q' {
      MulAtLeast(q' - q, d);
      assert false;
    }
  }

  lemma MulAtLeast(k: int, d: int)
    requires 1 <= k && 0 < d
    ensures k * d >= d
  {
  }

  /** A floor division of a floor division is one floor division. */
  lemma {:induction false} DivDiv(x: int, a: int, b: int)
    requires 0 < a && 0 < b
    ensures (x / a) / b == x / (a * b)
  {
    var q := x / a;
    var r := x % a;
    var q2 := q / b;
    var r2 := q % b;
    assert x == q * a + r;
    assert q == q2 * b + r2;
    assert x == q2 * (a * b) + (r2 * a + r) by {
      assert q * a == (q2 * b + r2) * a;
      assert (q2 * b + r2) * a == q2 * (a * b) + r2 * a;
    }
    assert r2 * a + r < a * b by {
      assert r2 <= b - 1;
      MulMono(r2, b - 1, a);
      assert (b - 1) * a == a * b - a;
    }
    assert 0 <= r2 * a;
    DivModUnique(x, a * b, q2, r2 * a + r);
  }

  lemma MulMono(x: int, y: int, c: int)
    requires x <= y && 0 <= c
    ensures x * c <= y * c
  {
    assert (y - x) * c >= 0;
  }

  /** fft.c's masked word shift (the input pre-scale `>> 2` and the extra
      `>> 1` of the middle-stage sum) shifts each halfword on its own: both
      lanes become floor(lane / d), bit-exactly as a lane-by-lane shift. */
  lemma {:induction false} ShiftLanesWordIsLaneShift(p: Pair, d: nat)
    requires d == 2 || d == 4
    ensures Unpack(ShiftLanesWord(Pack(p), d)) == Pair(p.lo / d, p.hi / d)
  {
    var w := Pack(p);
    PackUnpack(p, w);
    HighLaneShift(p, d);
    var r := Pair(p.lo / d, p.hi / d);
    assert ShiftLanesWord(w, d) == Pack(r);
    PackUnpack(r, w);
  }

  /** The high halfword of floor(w / d) is floor(hi / d). */
  lemma {:induction false} HighLaneShift(p: Pair, d: nat)
    requires d == 2 || d == 4
    ensures HighMask(Pack(p) / d) == (p.hi / d) * 0x1_0000
  {
    var w, l := Pack(p), p.lo % 0x1_0000;
    var qh, rh := p.hi / d, p.hi % d;
    var e := d * 0x1_0000;
    assert 0 <= rh * 0x1_0000 + l < e;
    assert w == qh * e + (rh * 0x1_0000 + l) by {
      assert p.hi * 0x1_0000 == (qh * d + rh) * 0x1_0000;
    }
    DivModUnique(w, e, qh, rh * 0x1_0000 + l);
    DivDiv(w, d, 0x1_0000);
    var v := w / d;
    assert v / 0x1_0000 == qh;
    assert HighMask(v) == v - v % 0x1_0000;
  }

  /** The packed output of a rotation: the low halfword is the low halfword
      of `out1`, the high halfword that of `out2`. */
  lemma CombineHalves(out1: int, out2: Int32)
    ensures Unpack(Combine(out1, out2)) == Pair(Signed16(out1), out2 / 0x1_0000)
  {
    var h := out2 / 0x1_0000;
    var l := out1 % 0x1_0000;
    assert HighMask(out2) == h * 0x1_0000;
    DivModUnique(Combine(out1, out2), 0x1_0000, h, l);
  }
}
