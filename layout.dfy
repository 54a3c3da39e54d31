/** How the passes address the interleaved q15 buffer and the twiddle
    table, and the index arithmetic that shows each pass visits every
    complex sample exactly once. */
module BufferLayout {
  import opened Q15Lanes
  import opened Butterflies

  /** Complex sample `i` of an interleaved buffer: the halfword pair at
      elements 2i (real) and 2i + 1 (imaginary), as one 32-bit load reads it
      on the little-endian path. */
  function Sample(s: seq<Int16>, i: nat): Pair
    requires 2 * i + 1 < |s|
  {
    Pair(s[2 * i], s[2 * i + 1])
  }

  /** The four samples a butterfly reads: g, g + q, g + 2q and g + 3q. */
  function Gather(s: seq<Int16>, g: nat, q: nat): Quad
    requires 2 * (g + 3 * q) + 1 < |s|
  {
    Quad(Sample(s, g), Sample(s, g + q), Sample(s, g + 2 * q), Sample(s, g + 3 * q))
  }

  /** `post` differs from `pre` at most in the four samples i0, i0 + q,
      i0 + 2q and i0 + 3q. */
  ghost predicate OnlyQuadChanged(pre: seq<Int16>, post: seq<Int16>, i0: nat, q: nat)
  {
    && |post| == |pre|
    && forall p :: 0 <= 2 * p + 1 < |pre| && p != i0 && p != i0 + q && p != i0 + 2 * q && p != i0 + 3 * q ==>
         Sample(post, p) == Sample(pre, p)
  }

  /** The indices of the four samples g, g + q, g + 2q, g + 3q. */
  function QuadIndices(g: nat, q: nat): set<nat>
  {
    {g, g + q, g + 2 * q, g + 3 * q}
  }

  /** A buffer changed at most in the samples of butterfly i0 still holds
      the old samples of a butterfly g that shares none of them. */
  lemma {:induction false} DisjointQuadKept(pre: seq<Int16>, post: seq<Int16>, i0: nat, g: nat, q: nat)
    requires OnlyQuadChanged(pre, post, i0, q) && 2 * (g + 3 * q) + 1 < |pre|
    requires QuadIndices(g, q) !! QuadIndices(i0, q)
    ensures Gather(post, g, q) == Gather(pre, g, q)
  {
    assert g in QuadIndices(g, q);
    assert g + q in QuadIndices(g, q);
    assert g + 2 * q in QuadIndices(g, q);
    assert g + 3 * q in QuadIndices(g, q);
  }

  /** Halfword `r` of a pair: 0 is the low (real) one, 1 the high one. */
  function Lane(p: Pair, r: nat): Int16
    requires r < 2
  {
    if r == 0 then p.lo else p.hi
  }

  /** Twiddle `t`: the (cos, sin) pair a 32-bit load reads at element 2t of
      the coefficient table. */
  function Twiddle(coef: seq<Int16>, t: nat): Pair
    requires 2 * t + 1 < |coef|
  {
    Pair(coef[2 * t], coef[2 * t + 1])
  }

  predicate IsPowerOf4(n: nat)
  {
    if n <= 1 then n == 1 else n % 4 == 0 && IsPowerOf4(n / 4)
  }

  /** 4^i. */
  function Pow4(i: nat): (r: nat)
    ensures r >= 1
  {
    if i == 0 then 1 else 4 * Pow4(i - 1)
  }

  /** log4 of a power of 4: the exponent that gives n back. */
  function Log4(n: nat): (e: nat)
    requires IsPowerOf4(n)
    ensures Pow4(e) == n
  {
    if n <= 1 then 0 else 1 + Log4(n / 4)
  }

  /** Every power 4^i is a power of 4 whose log4 is i: Log4 and Pow4 are
      inverse to each other. */
  lemma {:induction false} Log4Pow4(i: nat)
    ensures IsPowerOf4(Pow4(i)) && Log4(Pow4(i)) == i
  {
    if i > 0 {
      Log4Pow4(i - 1);
      assert Pow4(i) / 4 == Pow4(i - 1);
    }
  }

  /** Multiplying a stride 4^i c by 4 gives 4^(i+1) c. */
  lemma {:induction false} Pow4Stride(i: nat, c: nat)
    ensures Pow4(i) * c * 4 == Pow4(i + 1) * c
  {
    assert Pow4(i + 1) == 4 * Pow4(i);
    assert Pow4(i) * c * 4 == (4 * Pow4(i)) * c;
  }

  /** The transform lengths the engine supports: 16, 64, 256, 1024, ... */
  predicate ValidFftLen(n: nat)
  {
    n >= 16 && IsPowerOf4(n)
  }

  /** Number of table elements a pass with block length `n1` and twiddle
      stride `tm` may read: butterfly j < n1/4 loads the words at elements
      2 j tm, 4 j tm and 6 j tm. */
  function TwiddleSpan(n1: nat, tm: nat): nat
    requires n1 >= 4
  {
    6 * (n1 / 4 - 1) * tm + 2
  }

  /** The three coefficient words of butterfly j lie inside the span. */
  lemma {:induction false} TwiddleIndexInSpan(j: nat, n1: nat, tm: nat)
    requires n1 >= 4 && j < n1 / 4
    ensures 2 * (j * tm) + 1 < TwiddleSpan(n1, tm)
    ensures 2 * (2 * (j * tm)) + 1 < TwiddleSpan(n1, tm)
    ensures 2 * (3 * (j * tm)) + 1 < TwiddleSpan(n1, tm)
  {
    MulMono(j, n1 / 4 - 1, tm);
    assert j * tm <= (n1 / 4 - 1) * tm;
    assert 6 * (j * tm) <= 6 * ((n1 / 4 - 1) * tm);
  }

  /** The floor quotient of a natural number by a positive one is natural. */
  lemma {:induction false} DivNonNeg(p: int, d: int)
    requires 0 <= p && 0 < d
    ensures 0 <= p / d
  {
  }

  /** Within one pass, complex index p < 4 q is slot p / q of butterfly
      p % q. */
  lemma {:induction false} SlotOf(p: nat, q: nat)
    requires 0 < q && p < 4 * q
    ensures 0 <= p / q < 4 && p == p % q + (p / q) * q
  {
  }

  /** ... and butterfly g, slot s is complex index g + s q. */
  lemma SlotAt(g: nat, s: nat, q: nat)
    requires g < q
    ensures (g + s * q) % q == g && (g + s * q) / q == s
  {
    DivModUnique(g + s * q, q, s, g);
  }

  /** In a middle pass with block length n1 = 4 n2, butterfly j of block m
      touches the indices p = m n1 + s n2 + j for s < 4. Each such index
      gives back j, m and s. */
  lemma {:induction false} LevelSlotAt(p: nat, m: nat, s: nat, j: nat, n2: nat)
    requires 0 < n2 && s < 4 && j < n2 && p == m * (4 * n2) + s * n2 + j
    ensures p % n2 == j && p / (4 * n2) == m && (p % (4 * n2)) / n2 == s
  {
    var n1 := 4 * n2;
    assert p == (4 * m + s) * n2 + j;
    DivModUnique(p, n2, 4 * m + s, j);
    assert s * n2 + j < n1 by {
      MulMono(s, 3, n2);
    }
    DivModUnique(p, n1, m, s * n2 + j);
    DivModUnique(s * n2 + j, n2, s, j);
  }

  /** Every index p is reached that way, with m = p / n1, s = (p % n1) / n2
      and j = p % n2. */
  lemma {:induction false} LevelDecompose(p: nat, n2: nat)
    requires 0 < n2
    ensures var n1 := 4 * n2;
      && (p % n1) / n2 < 4
      && p == (p / n1) * n1 + ((p % n1) / n2) * n2 + p % n2
  {
    var n1 := 4 * n2;
    var m, r := p / n1, p % n1;
    SlotOf(r, n2);
    var s, j := r / n2, r % n2;
    LevelSplit(p, n1, m, r, s, j, n2);
    LevelSlotAt(p, m, s, j, n2);
  }

  lemma LevelSplit(p: nat, n1: nat, m: int, r: nat, s: nat, j: nat, n2: nat)
    requires 0 < n1 && m == p / n1 && r == p % n1 && r == j + s * n2
    ensures m >= 0 && p == m * n1 + s * n2 + j
  {
  }
}
