/** The in-place butterfly step shared by the first and the middle passes. */
module Steps {
  import opened Q15Lanes
  import opened Butterflies
  import opened BufferLayout

  /** One butterfly in place on the samples i0, i0 + n2, i0 + 2 n2 and
      i0 + 3 n2, with the twiddles w1, w2 and w3 already loaded. fft.c
      reads the samples at i1 and i3 a second time after it has written the
      outputs at i0 (and, before the second read of i3, at i1); since n2 > 0
      these four positions are distinct, so no write touches a sample before
      it is read again and each input is read here once. The outputs go back
      to i0, i1, i2, i3 in that order. */
  method TwiddledStep(a: array<Int16>, k: Kernel, i0: nat, n2: nat, w1: Pair, w2: Pair, w3: Pair)
    requires 0 < n2 && 2 * (i0 + 3 * n2) + 1 < a.Length
    modifies a
    ensures Gather(a[..], i0, n2) == k(Gather(old(a[..]), i0, n2), w1, w2, w3)
    ensures OnlyQuadChanged(old(a[..]), a[..], i0, n2)
  {
    var i1 := i0 + n2;
    var i2 := i1 + n2;
    var i3 := i2 + n2;
    var xa := Pair(a[2 * i0], a[2 * i0 + 1]);
    var xc := Pair(a[2 * i2], a[2 * i2 + 1]);
    var xb := Pair(a[2 * i1], a[2 * i1 + 1]);
    var xd := Pair(a[2 * i3], a[2 * i3 + 1]);
    assert Quad(xa, xb, xc, xd) == Gather(a[..], i0, n2);
    var out := k(Quad(xa, xb, xc, xd), w1, w2, w3);
    a[2 * i0], a[2 * i0 + 1] := out.s0.lo, out.s0.hi;
    a[2 * i1], a[2 * i1 + 1] := out.s1.lo, out.s1.hi;
    a[2 * i2], a[2 * i2 + 1] := out.s2.lo, out.s2.hi;
    a[2 * i3], a[2 * i3 + 1] := out.s3.lo, out.s3.hi;
  }
}
