/**
 * Arithmetic on flattened indices. A buffer position `lo + base * hi` with
 * `lo < base` is a two-digit mixed-radix number; the kernels of src/blas.rs
 * nest several of these, and the lemmas here say that such a position stays
 * below the buffer size and can be taken apart again with `/` and `%`.
 */
module Indexing {

  /** The position of digit `lo` (below `base`) under the higher part `hi`. */
  function Pos(lo: nat, hi: nat, base: nat): nat {
    lo + base * hi
  }

  lemma MulMono(a: nat, b: nat, c: nat)
    requires b <= c
    ensures a * b <= a * c
  {
  }

  /** The two fastest extents of a three-level buffer can be taken in either order. */
  lemma Commute3(a: nat, b: nat, n: nat)
    ensures a * (b * n) == b * (a * n)
  {
  }

  /** A position with digits in range lies below the product of the bases. */
  lemma PosBound(lo: nat, hi: nat, base: nat, n: nat)
    requires lo < base && hi < n
    ensures Pos(lo, hi, base) < base * n
  {
    MulMono(base, hi, n - 1);
    assert base * (n - 1) == base * n - base;
  }

  /** The digits of a position are recovered by `%` and `/`. */
  lemma PosDigits(lo: nat, hi: nat, base: nat)
    requires lo < base
    ensures Pos(lo, hi, base) % base == lo
    ensures Pos(lo, hi, base) / base == hi
  {
    var p := Pos(lo, hi, base);
    var q, r := p / base, p % base;
    assert base * q + r == base * hi + lo;
    if q > hi {
      MulMono(base, 1, q - hi);
      assert false;
    } else if q < hi {
      MulMono(base, 1, hi - q);
      assert false;
    }
  }

  /** Every position is put back together from its `%` and `/` digits. */
  lemma PosOfDigits(p: nat, base: nat)
    requires base > 0
    ensures p % base < base
    ensures Pos(p % base, p / base, base) == p
  {
  }

  /** A position below base * n has its higher part below n. */
  lemma HighBound(p: nat, base: nat, n: nat)
    requires base > 0 && p < base * n
    ensures p / base < n
  {
    if p / base >= n {
      MulMono(base, n, p / base);
    }
  }

  /** Running the lowest digit up to its base carries one into the higher part. */
  lemma Carry(base: nat, hi: nat)
    ensures Pos(base, hi, base) == Pos(0, hi + 1, base)
  {
  }

  /** A position in a four-dimensional buffer: d0 varies fastest, d3 slowest. */
  datatype Coord = Coord(d0: nat, d1: nat, d2: nat, d3: nat)

  /** The extents of the three fastest dimensions; the slowest one is unbounded. */
  datatype Radix = Radix(b0: nat, b1: nat, b2: nat) {
    predicate Positive() {
      b0 > 0 && b1 > 0 && b2 > 0
    }

    predicate Holds(c: Coord) {
      c.d0 < b0 && c.d1 < b1 && c.d2 < b2
    }

    /** The number of positions with d3 below n. */
    function Volume(n: nat): nat {
      b0 * (b1 * (b2 * n))
    }
  }

  /** The buffer offset d0 + b0 * (d1 + b1 * (d2 + b2 * d3)). */
  function Flat(c: Coord, r: Radix): nat {
    Pos(c.d0, Pos(c.d1, Pos(c.d2, c.d3, r.b2), r.b1), r.b0)
  }

  /** The coordinates of a buffer offset. */
  function Unflat(p: nat, r: Radix): Coord
    requires r.Positive()
  {
    Coord(p % r.b0, p / r.b0 % r.b1, p / r.b0 / r.b1 % r.b2, p / r.b0 / r.b1 / r.b2)
  }

  lemma FlatUnflat(c: Coord, r: Radix)
    requires r.Holds(c)
    ensures r.Positive() && Unflat(Flat(c, r), r) == c
  {
    PosDigits(c.d2, c.d3, r.b2);
    PosDigits(c.d1, Pos(c.d2, c.d3, r.b2), r.b1);
    PosDigits(c.d0, Pos(c.d1, Pos(c.d2, c.d3, r.b2), r.b1), r.b0);
  }

  lemma UnflatFlat(p: nat, r: Radix)
    requires r.Positive()
    ensures r.Holds(Unflat(p, r)) && Flat(Unflat(p, r), r) == p
  {
    PosOfDigits(p / r.b0 / r.b1, r.b2);
    PosOfDigits(p / r.b0, r.b1);
    PosOfDigits(p, r.b0);
  }

  /** A position inside the extents lies inside the buffer. */
  lemma FlatBound(c: Coord, r: Radix, n: nat)
    requires r.Holds(c) && c.d3 < n
    ensures Flat(c, r) < r.Volume(n)
  {
    PosBound(c.d2, c.d3, r.b2, n);
    PosBound(c.d1, Pos(c.d2, c.d3, r.b2), r.b1, r.b2 * n);
    PosBound(c.d0, Pos(c.d1, Pos(c.d2, c.d3, r.b2), r.b1), r.b0, r.b1 * (r.b2 * n));
  }

  /** An offset inside the buffer has its slowest coordinate below n. */
  lemma UnflatBound(p: nat, r: Radix, n: nat)
    requires r.Positive() && p < r.Volume(n)
    ensures Unflat(p, r).d3 < n
  {
    HighBound(p, r.b0, r.b1 * (r.b2 * n));
    HighBound(p / r.b0, r.b1, r.b2 * n);
    HighBound(p / r.b0 / r.b1, r.b2, n);
  }

  /** A non-empty buffer has non-zero extents. */
  lemma VolumePositive(r: Radix, n: nat)
    requires r.Volume(n) > 0
    ensures r.Positive() && n > 0
  {
  }
}
