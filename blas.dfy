/**
 * The darknet-style CPU kernels of src/blas.rs over exact reals.
 *
 * Every kernel writes `&mut [f32]` buffers inside nested loops; here each is a
 * method over arrays with the source's loops, proved against a specification
 * function on the buffers' contents. `reorg_cpu` and `flatten` are index
 * permutations and come with their inverse; `shortcut_cpu` visits a strided
 * sub-grid of its output; `mean_cpu` and `variance_cpu` are per-filter sums.
 */
module Blas {
  import opened Results
  import opened Indexing

  // ---------------------------------------------------------------------------
  // flatten

  /**
   * Reads p as the digits (d0 below a, d1 below b, rest) and returns the
   * position with the two fastest digits exchanged: (d1 below b, d0 below a, rest).
   * With a = size and b = layers this takes flatten's channel-major offset
   * b * layers * size + c * size + i to its interleaved offset
   * b * layers * size + i * layers + c.
   */
  function SwapDigits(p: nat, a: nat, b: nat): nat
    requires a > 0 && b > 0
  {
    Pos(p / a % b, Pos(p % a, p / a / b, a), b)
  }

  /** Exchanging the two fastest digits twice gives the position back, and stays in the buffer. */
  lemma SwapDigitsInverse(p: nat, a: nat, b: nat, n: nat)
    requires a > 0 && b > 0 && p < a * (b * n)
    ensures SwapDigits(p, a, b) < b * (a * n) && SwapDigits(p, a, b) < a * (b * n)
    ensures SwapDigits(SwapDigits(p, a, b), b, a) == p
  {
    Commute3(a, b, n);
    var d0, d1, d2 := p % a, p / a % b, p / a / b;
    HighBound(p, a, b * n);
    HighBound(p / a, b, n);
    PosBound(d0, d2, a, n);
    PosBound(d1, Pos(d0, d2, a), b, a * n);
    PosDigits(d1, Pos(d0, d2, a), b);
    PosDigits(d0, d2, a);
    PosOfDigits(p / a, b);
    PosOfDigits(p, a);
  }

  /**
   * The contents flatten leaves in a buffer of size * layers * batch values:
   * forward, the value at channel-major offset t moves to interleaved offset
   * SwapDigits(t, size, layers); backward, the other way round.
   */
  function Flattened(x: seq<real>, size: nat, layers: nat, batch: nat, forward: bool): (y: seq<real>)
    requires |x| == size * (layers * batch)
    ensures |y| == |x|
  {
    seq(|x|, q requires 0 <= q < |x| =>
      if forward then
        Commute3(size, layers, batch);
        SwapDigitsInverse(q, layers, size, batch);
        x[SwapDigits(q, layers, size)]
      else
        SwapDigitsInverse(q, size, layers, batch);
        x[SwapDigits(q, size, layers)])
  }

  /** flatten forward and then backward (or backward and then forward) restores the buffer. */
  lemma FlattenRoundTrip(x: seq<real>, size: nat, layers: nat, batch: nat, forward: bool)
    requires |x| == size * (layers * batch)
    ensures Flattened(Flattened(x, size, layers, batch, forward), size, layers, batch, !forward) == x
  {
    var y := Flattened(x, size, layers, batch, forward);
    var z := Flattened(y, size, layers, batch, !forward);
    Commute3(size, layers, batch);
    forall q | 0 <= q < |x|
      ensures z[q] == x[q]
    {
      if forward {
        SwapDigitsInverse(q, size, layers, batch);
      } else {
        SwapDigitsInverse(q, layers, size, batch);
      }
    }
  }

  /** The swap buffer after the first t steps of flatten's loops: the entries written so far. */
  ghost predicate FlattenedUpTo(swap: seq<real>, x: seq<real>, size: nat, layers: nat, batch: nat,
                                forward: bool, t: nat)
    requires |x| == size * (layers * batch) && size > 0 && layers > 0
  {
    var y := Flattened(x, size, layers, batch, forward);
    && |swap| == |x|
    && forall q :: 0 <= q < |x| ==>
         swap[q] == if (if forward then SwapDigits(q, layers, size) else q) < t then y[q] else 0.0
  }

  /** Step t of flatten's loops writes one entry of the swap buffer. */
  lemma FlattenStep(swap: seq<real>, x: seq<real>, size: nat, layers: nat, batch: nat, forward: bool, t: nat)
    requires |x| == size * (layers * batch) && size > 0 && layers > 0 && t < |x|
    requires FlattenedUpTo(swap, x, size, layers, batch, forward, t)
    ensures SwapDigits(t, size, layers) < |x|
    ensures forward ==>
      FlattenedUpTo(swap[SwapDigits(t, size, layers) := x[t]], x, size, layers, batch, forward, t + 1)
    ensures !forward ==>
      FlattenedUpTo(swap[t := x[SwapDigits(t, size, layers)]], x, size, layers, batch, forward, t + 1)
  {
    SwapDigitsInverse(t, size, layers, batch);
    var y := Flattened(x, size, layers, batch, forward);
    Commute3(size, layers, batch);
    if forward {
      var i2 := SwapDigits(t, size, layers);
      var swap' := swap[i2 := x[t]];
      forall q | 0 <= q < |x|
        ensures swap'[q] == if SwapDigits(q, layers, size) < t + 1 then y[q] else 0.0
      {
        SwapDigitsInverse(q, layers, size, batch);
      }
    }
  }

  /** After all size * layers * batch steps the swap buffer holds the flattened contents. */
  lemma FlattenDone(swap: seq<real>, x: seq<real>, size: nat, layers: nat, batch: nat, forward: bool)
    requires |x| == size * (layers * batch) && size > 0 && layers > 0
    requires FlattenedUpTo(swap, x, size, layers, batch, forward, |x|)
    ensures swap == Flattened(x, size, layers, batch, forward)
  {
    Commute3(size, layers, batch);
    forall q | 0 <= q < |x|
      ensures swap[q] == Flattened(x, size, layers, batch, forward)[q]
    {
      SwapDigitsInverse(q, layers, size, batch);
    }
  }

  /** The two offsets flatten computes, as positions in the mixed radix. */
  lemma FlattenOffsets(b: nat, c: nat, i: nat, size: nat, layers: nat)
    requires i < size && c < layers
    ensures b * layers * size + c * size + i == Pos(i, Pos(c, b, layers), size)
    ensures b * layers * size + i * layers + c == SwapDigits(Pos(i, Pos(c, b, layers), size), size, layers)
  {
    PosDigits(i, Pos(c, b, layers), size);
    PosDigits(c, b, layers);
    assert size * (c + layers * b) == c * size + b * layers * size;
    assert layers * (i + size * b) == i * layers + b * layers * size;
  }

  /**
   * flatten: forward, moves channel-major data (one plane of `size` values per
   * layer) into interleaved order (the `layers` values of one position next to
   * each other); backward, the reverse. The buffer must hold exactly
   * size * layers * batch values, or the copy back at the end panics.
   */
  method Flatten(x: array<real>, size: nat, layers: nat, batch: nat, forward: bool)
    requires x.Length == size * (layers * batch)
    modifies x
    ensures x[..] == Flattened(old(x[..]), size, layers, batch, forward)
  {
    var swap := new real[size * layers * batch](_ => 0.0);
    FlattenInto(x, swap, size, layers, batch, forward);
    ghost var result := swap[..];
    forall k | 0 <= k < x.Length {
      x[k] := swap[k];
    }
    assert x[..] == result;
  }

  /** The loops of flatten: scatter (forward) or gather (backward) `x` into the zeroed `swap`. */
  method FlattenInto(x: array<real>, swap: array<real>, size: nat, layers: nat, batch: nat, forward: bool)
    requires x.Length == swap.Length == size * (layers * batch) && x != swap
    requires forall k :: 0 <= k < swap.Length ==> swap[k] == 0.0
    modifies swap
    ensures swap[..] == Flattened(x[..], size, layers, batch, forward)
  {
    // src/blas.rs has no such test: with an empty extent its loops copy
    // nothing, and returning here only spares the proof that case.
    if size == 0 || layers == 0 {
      return;
    }
    ghost var t: nat := 0;
    for b := 0 to batch
      invariant t == Pos(0, Pos(0, b, layers), size)
      invariant FlattenedUpTo(swap[..], x[..], size, layers, batch, forward, t)
    {
      for c := 0 to layers
        invariant t == Pos(0, Pos(c, b, layers), size)
        invariant FlattenedUpTo(swap[..], x[..], size, layers, batch, forward, t)
      {
        for i := 0 to size
          invariant t == Pos(i, Pos(c, b, layers), size)
          invariant FlattenedUpTo(swap[..], x[..], size, layers, batch, forward, t)
        {
          var i1 := b * layers * size + c * size + i;
          var i2 := b * layers * size + i * layers + c;
          FlattenOffsets(b, c, i, size, layers);
          PosBound(c, b, layers, batch);
          PosBound(i, Pos(c, b, layers), size, layers * batch);
          FlattenStep(swap[..], x[..], size, layers, batch, forward, t);
          if forward {
            swap[i2] := x[i1];
          } else {
            swap[i1] := x[i2];
          }
          t := t + 1;
        }
        Carry(size, Pos(c, b, layers));
      }
      Carry(layers, b);
    }
    assert t == x.Length;
    FlattenDone(swap[..], x[..], size, layers, batch, forward);
  }

  // ---------------------------------------------------------------------------
  // reorg_cpu

  /**
   * The geometry of reorg_cpu: `batch` images of `c` channels of h x w values
   * on the input side; `c / (stride * stride)` channels of (h * stride) x
   * (w * stride) values on the output side.
   */
  datatype ReorgShape = ReorgShape(w: nat, h: nat, c: nat, batch: nat, stride: nat)
  {
    /** The stride divides out (the source divides by it) and `c` splits evenly into output channels. */
    predicate Valid() {
      stride > 0 && c % (stride * stride) == 0
    }

    function OutC(): nat
      requires stride > 0
    {
      c / (stride * stride)
    }

    function InRadix(): Radix {
      Radix(w, h, c)
    }

    function OutRadix(): Radix
      requires stride > 0
    {
      Radix(w * stride, h * stride, OutC())
    }

    /** The number of values either side holds: w * h * c * batch. */
    function Size(): nat {
      InRadix().Volume(batch)
    }

    /** The source's out_index for the value it reads at in_index t. */
    function Dst(t: nat): nat
      requires Valid() && t < Size()
    {
      ReorgExtents(this);
      Flat(OutCoord(Unflat(t, InRadix()), stride, OutC()), OutRadix())
    }

    /** The in_index whose value lands at out_index p. */
    function Src(p: nat): nat
      requires Valid() && p < Size()
    {
      ReorgExtents(this);
      Flat(InCoord(Unflat(p, OutRadix()), stride, OutC()), InRadix())
    }
  }

  /**
   * Input coordinates (i, j, k, b) to output coordinates (w2, h2, c2, b): the
   * channel k splits into c2 = k % outC and offset = k / outC, and the offset's
   * two digits below the stride go to the column and the row.
   */
  function OutCoord(co: Coord, stride: nat, outC: nat): Coord
    requires stride > 0 && outC > 0
  {
    var offset: nat := co.d2 / outC;
    var column: nat := offset % stride;
    var row: nat := offset / stride;
    var channel: nat := co.d2 % outC;
    Coord(Pos(column, co.d0, stride), Pos(row, co.d1, stride), channel, co.d3)
  }

  /** Output coordinates back to input coordinates. */
  function InCoord(co: Coord, stride: nat, outC: nat): Coord
    requires stride > 0 && outC > 0
  {
    var column: nat := co.d0 % stride;
    var row: nat := co.d1 % stride;
    var i: nat := co.d0 / stride;
    var j: nat := co.d1 / stride;
    Coord(i, j, Pos(co.d2, Pos(column, row, stride), outC), co.d3)
  }

  /** A non-empty reorg has positive extents on both sides. */
  lemma ReorgExtents(g: ReorgShape)
    requires g.Valid() && g.Size() > 0
    ensures g.InRadix().Positive() && g.OutRadix().Positive() && g.batch > 0
  {
    VolumePositive(g.InRadix(), g.batch);
    MulMono(g.w, 1, g.stride);
    MulMono(g.h, 1, g.stride);
  }

  /** Both sides of a non-empty reorg hold the same number of values. */
  lemma ReorgPositive(g: ReorgShape)
    requires g.Valid() && g.Size() > 0
    ensures g.InRadix().Positive() && g.OutRadix().Positive() && g.batch > 0
    ensures g.c == g.OutC() * (g.stride * g.stride)
    ensures g.OutRadix().Volume(g.batch) == g.Size()
  {
    ReorgExtents(g);
    var s, oc := g.stride, g.OutC();
    assert g.c == oc * (s * s);
    MulMono(g.w, 1, s);
    MulMono(g.h, 1, s);
    calc {
      g.OutRadix().Volume(g.batch);
      (g.w * s) * ((g.h * s) * (oc * g.batch));
      g.w * (g.h * ((oc * (s * s)) * g.batch));
      g.Size();
    }
  }

  /** Dst and Src are inverse to each other and stay below Size: reorg is a permutation. */
  lemma ReorgInverse(g: ReorgShape, t: nat)
    requires g.Valid() && t < g.Size()
    ensures g.Dst(t) < g.Size() && g.Src(g.Dst(t)) == t
  {
    ReorgPositive(g);
    var s, oc := g.stride, g.OutC();
    var co := Unflat(t, g.InRadix());
    UnflatFlat(t, g.InRadix());
    UnflatBound(t, g.InRadix(), g.batch);
    var k := co.d2;
    var offset := k / oc;
    HighBound(k, oc, s * s);
    HighBound(offset, s, s);
    var w2 := Pos(offset % s, co.d0, s);
    var h2 := Pos(offset / s, co.d1, s);
    PosBound(offset % s, co.d0, s, g.w);
    PosBound(offset / s, co.d1, s, g.h);
    var out := Coord(w2, h2, k % oc, co.d3);
    assert g.Dst(t) == Flat(out, g.OutRadix());
    FlatBound(out, g.OutRadix(), g.batch);
    FlatUnflat(out, g.OutRadix());
    PosDigits(offset % s, co.d0, s);
    PosDigits(offset / s, co.d1, s);
    PosOfDigits(offset, s);
    PosOfDigits(k, oc);
  }

  /** Src and Dst are inverse to each other the other way round. */
  lemma ReorgInverseOut(g: ReorgShape, p: nat)
    requires g.Valid() && p < g.Size()
    ensures g.Src(p) < g.Size() && g.Dst(g.Src(p)) == p
  {
    ReorgPositive(g);
    var s, oc := g.stride, g.OutC();
    var co := Unflat(p, g.OutRadix());
    UnflatFlat(p, g.OutRadix());
    UnflatBound(p, g.OutRadix(), g.batch);
    var w2, h2 := co.d0, co.d1;
    HighBound(w2, s, g.w);
    HighBound(h2, s, g.h);
    var offset := Pos(w2 % s, h2 % s, s);
    PosBound(w2 % s, h2 % s, s, s);
    var k := Pos(co.d2, offset, oc);
    PosBound(co.d2, offset, oc, s * s);
    var inp := Coord(w2 / s, h2 / s, k, co.d3);
    assert g.Src(p) == Flat(inp, g.InRadix());
    FlatBound(inp, g.InRadix(), g.batch);
    FlatUnflat(inp, g.InRadix());
    PosDigits(co.d2, offset, oc);
    PosDigits(w2 % s, h2 % s, s);
    PosOfDigits(w2, s);
    PosOfDigits(h2, s);
  }

  /**
   * The contents of `out` after reorg_cpu: forward, the value at in_index t
   * lands at out_index Dst(t); backward, in_index t receives the value at
   * out_index Dst(t). Entries from Size() on keep their old values.
   */
  ghost function Reorged(x: seq<real>, o: seq<real>, g: ReorgShape, forward: bool): (r: seq<real>)
    requires g.Valid() && |x| >= g.Size() && |o| >= g.Size()
    ensures |r| == |o|
  {
    seq(|o|, p requires 0 <= p < |o| =>
      if p >= g.Size() then o[p]
      else if forward then
        ReorgInverseOut(g, p);
        x[g.Src(p)]
      else
        ReorgInverse(g, p);
        x[g.Dst(p)])
  }

  /** reorg forward and then backward (or backward and then forward) gives back the first Size() values. */
  lemma ReorgRoundTrip(x: seq<real>, o: seq<real>, z: seq<real>, g: ReorgShape, forward: bool)
    requires g.Valid() && |x| >= g.Size() && |o| >= g.Size() && |z| >= g.Size()
    ensures Reorged(Reorged(x, o, g, forward), z, g, !forward)[..g.Size()] == x[..g.Size()]
  {
    var y := Reorged(x, o, g, forward);
    var r := Reorged(y, z, g, !forward);
    forall p | 0 <= p < g.Size()
      ensures r[p] == x[p]
    {
      ReorgInverse(g, p);
      ReorgInverseOut(g, p);
    }
  }

  /** `out` after the first t steps of reorg_cpu's loops. */
  ghost predicate ReorgedUpTo(o: seq<real>, o0: seq<real>, x: seq<real>, g: ReorgShape, forward: bool, t: nat)
    requires g.Valid() && |x| >= g.Size() && |o0| >= g.Size()
  {
    var y := Reorged(x, o0, g, forward);
    && |o| == |o0|
    && forall p :: 0 <= p < |o| ==>
         o[p] == if p < g.Size() && (if forward then g.Src(p) else p) < t then y[p] else o0[p]
  }

  /** Step t of reorg_cpu's loops writes one entry of `out`. */
  lemma ReorgStep(o: seq<real>, o0: seq<real>, x: seq<real>, g: ReorgShape, forward: bool, t: nat)
    requires g.Valid() && |x| >= g.Size() && |o0| >= g.Size() && t < g.Size()
    requires ReorgedUpTo(o, o0, x, g, forward, t)
    ensures g.Dst(t) < g.Size()
    ensures forward ==> ReorgedUpTo(o[g.Dst(t) := x[t]], o0, x, g, forward, t + 1)
    ensures !forward ==> ReorgedUpTo(o[t := x[g.Dst(t)]], o0, x, g, forward, t + 1)
  {
    ReorgInverse(g, t);
    if forward {
      var y := Reorged(x, o0, g, forward);
      var o' := o[g.Dst(t) := x[t]];
      forall p | 0 <= p < |o|
        ensures o'[p] == if p < g.Size() && g.Src(p) < t + 1 then y[p] else o0[p]
      {
        if p < g.Size() {
          ReorgInverseOut(g, p);
        }
      }
    }
  }

  /** After all Size() steps `out` holds the reorganised contents. */
  lemma ReorgDone(o: seq<real>, o0: seq<real>, x: seq<real>, g: ReorgShape, forward: bool)
    requires g.Valid() && |x| >= g.Size() && |o0| >= g.Size()
    requires ReorgedUpTo(o, o0, x, g, forward, g.Size())
    ensures o == Reorged(x, o0, g, forward)
  {
    forall p | 0 <= p < |o|
      ensures o[p] == Reorged(x, o0, g, forward)[p]
    {
      if p < g.Size() {
        ReorgInverseOut(g, p);
      }
    }
  }

  /** The two offsets reorg_cpu computes for loop indices (b, k, j, i). */
  lemma ReorgOffsets(g: ReorgShape, i: nat, j: nat, k: nat, b: nat)
    requires g.Valid() && i < g.w && j < g.h && k < g.c && b < g.batch
    ensures Flat(Coord(i, j, k, b), g.InRadix()) < g.Size()
    ensures g.OutC() > 0
    ensures var offset := k / g.OutC();
      g.Dst(Flat(Coord(i, j, k, b), g.InRadix())) ==
        (i * g.stride + offset % g.stride)
        + g.w * g.stride * ((j * g.stride + offset / g.stride) + g.h * g.stride * (k % g.OutC() + g.OutC() * b))
  {
    var t := Flat(Coord(i, j, k, b), g.InRadix());
    FlatBound(Coord(i, j, k, b), g.InRadix(), g.batch);
    ReorgExtents(g);
    FlatUnflat(Coord(i, j, k, b), g.InRadix());
  }

  /**
   * reorg_cpu: moves every value between the input layout (batch, c, h, w)
   * and the space-to-depth layout (batch, c / stride^2, h * stride, w * stride).
   * Forward reads `x` in input order and scatters into `out`; backward gathers
   * into `out` in input order. `x` is only read. The stride must be non-zero
   * (the source divides by it) and the model requires `c` to be a multiple of
   * stride * stride, which makes the two index maps inverse to each other.
   */
  method ReorgCpu(x: array<real>, w: nat, h: nat, c: nat, batch: nat, stride: nat, forward: bool, out: array<real>)
    requires stride > 0 && c % (stride * stride) == 0
    requires x.Length >= w * (h * (c * batch)) && out.Length >= w * (h * (c * batch)) && x != out
    modifies out
    ensures out[..] == Reorged(x[..], old(out[..]), ReorgShape(w, h, c, batch, stride), forward)
  {
    ghost var g := ReorgShape(w, h, c, batch, stride);
    var outC := c / (stride * stride);
    ghost var t: nat := 0;
    for b := 0 to batch
      invariant t == Flat(Coord(0, 0, 0, b), g.InRadix())
      invariant ReorgedUpTo(out[..], old(out[..]), x[..], g, forward, t)
    {
      for k := 0 to c
        invariant t == Flat(Coord(0, 0, k, b), g.InRadix())
        invariant ReorgedUpTo(out[..], old(out[..]), x[..], g, forward, t)
      {
        for j := 0 to h
          invariant t == Flat(Coord(0, j, k, b), g.InRadix())
          invariant ReorgedUpTo(out[..], old(out[..]), x[..], g, forward, t)
        {
          for i := 0 to w
            invariant t == Flat(Coord(i, j, k, b), g.InRadix())
            invariant ReorgedUpTo(out[..], old(out[..]), x[..], g, forward, t)
          {
            ReorgOffsets(g, i, j, k, b);
            var inIndex := i + w * (j + h * (k + c * b));
            var c2 := k % outC;
            var offset := k / outC;
            var w2 := i * stride + offset % stride;
            var h2 := j * stride + offset / stride;
            var outIndex := w2 + w * stride * (h2 + h * stride * (c2 + outC * b));
            ReorgStep(out[..], old(out[..]), x[..], g, forward, t);
            if forward {
              out[outIndex] := x[inIndex];
            } else {
              out[inIndex] := x[outIndex];
            }
            t := t + 1;
          }
          Carry(w, Pos(j, Pos(k, b, c), h));
        }
        Carry(h, Pos(k, b, c));
        Carry(w, Pos(0, Pos(k, b, c) + 1, h));
      }
      Carry(c, b);
      Carry(h, Pos(0, b + 1, c));
      Carry(w, Pos(0, Pos(0, b + 1, c), h));
    }
    ReorgDone(out[..], old(out[..]), x[..], g, forward);
  }

  // ---------------------------------------------------------------------------
  // weighted_sum_cpu and weighted_delta_cpu

  /** The arrays an optional buffer stands for. */
  function Footprint(o: Option<array<real>>): set<array<real>> {
    if o.Some? then {o.value} else {}
  }

  /** Entry i of an optional buffer, where an absent buffer reads as 0. */
  function ValueOr(o: Option<array<real>>, i: nat): real
    requires o.Some? ==> i < o.value.Length
    reads Footprint(o)
  {
    if o.Some? then o.value[i] else 0.0
  }

  /** The gate: s * a + (1 - s) * b. */
  function Blend(a: real, b: real, s: real): real {
    s * a + (1.0 - s) * b
  }

  /** A gate between 0 and 1 keeps the blend between its two inputs. */
  lemma BlendBetween(a: real, b: real, s: real)
    requires 0.0 <= s <= 1.0
    ensures a <= b ==> a <= Blend(a, b, s) <= b
    ensures b <= a ==> b <= Blend(a, b, s) <= a
  {
    if a <= b {
      assert Blend(a, b, s) - a == (1.0 - s) * (b - a);
      NonNegativeProduct(1.0 - s, b - a);
      assert b - Blend(a, b, s) == s * (b - a);
      NonNegativeProduct(s, b - a);
    } else {
      assert Blend(a, b, s) - b == s * (a - b);
      NonNegativeProduct(s, a - b);
      assert a - Blend(a, b, s) == (1.0 - s) * (a - b);
      NonNegativeProduct(1.0 - s, a - b);
    }
  }

  lemma NonNegativeProduct(x: real, y: real)
    requires x >= 0.0 && y >= 0.0
    ensures x * y >= 0.0
  {
  }

  /** The gate picks a when s = 1 and b when s = 0. */
  lemma BlendEnds(a: real, b: real)
    ensures Blend(a, b, 1.0) == a && Blend(a, b, 0.0) == b
  {
  }

  /**
   * The blend is linear in each input, with slopes s, 1 - s and a - b: the
   * three increments weighted_delta_cpu scales `dc` by are its exact
   * partial derivatives.
   */
  lemma BlendSlopes(a: real, b: real, s: real, h: real)
    ensures Blend(a + h, b, s) == Blend(a, b, s) + h * s
    ensures Blend(a, b + h, s) == Blend(a, b, s) + h * (1.0 - s)
    ensures Blend(a, b, s + h) == Blend(a, b, s) + h * (a - b)
  {
  }

  /**
   * weighted_sum_cpu: `c[i]` becomes the blend of `a[i]` and `b[i]` (0 when
   * `b` is absent) gated by `s[i]`, for every entry of `c`. The inputs are
   * only read.
   */
  method WeightedSumCpu(a: array<real>, b: Option<array<real>>, s: array<real>, c: array<real>)
    requires c != a && c != s && c !in Footprint(b)
    requires a.Length >= c.Length && s.Length >= c.Length && (b.Some? ==> b.value.Length >= c.Length)
    modifies c
    ensures forall i :: 0 <= i < c.Length ==> c[i] == Blend(a[i], ValueOr(b, i), s[i])
  {
    for i := 0 to c.Length
      invariant forall p :: 0 <= p < i ==> c[p] == Blend(a[p], ValueOr(b, p), s[p])
    {
      c[i] := s[i] * a[i] + (1.0 - s[i]) * (if b.Some? then b.value[i] else 0.0);
    }
  }

  /** One iteration of weighted_delta_cpu's loop: entry i of each gradient buffer. */
  method WeightedDeltaAt(a: array<real>, b: Option<array<real>>, s: array<real>,
                         da: Option<array<real>>, db: Option<array<real>>, ds: array<real>, dc: array<real>, i: nat)
    requires ds !in {a, s, dc} + Footprint(b) + Footprint(da) + Footprint(db)
    requires Footprint(da) !! {a, s, dc} + Footprint(b) + Footprint(db)
    requires Footprint(db) !! {a, s, dc} + Footprint(b)
    requires i < dc.Length && i < a.Length && i < s.Length && i < ds.Length
    requires b.Some? ==> i < b.value.Length
    requires da.Some? ==> i < da.value.Length
    requires db.Some? ==> i < db.value.Length
    modifies ds, Footprint(da), Footprint(db)
    ensures ds[i] == old(ds[i]) + dc[i] * (a[i] - ValueOr(b, i))
    ensures forall p :: 0 <= p < ds.Length && p != i ==> ds[p] == old(ds[p])
    ensures da.Some? ==> da.value[i] == old(da.value[i]) + dc[i] * s[i]
    ensures da.Some? ==> forall p :: 0 <= p < da.value.Length && p != i ==> da.value[p] == old(da.value[p])
    ensures db.Some? ==> db.value[i] == old(db.value[i]) + dc[i] * (1.0 - s[i])
    ensures db.Some? ==> forall p :: 0 <= p < db.value.Length && p != i ==> db.value[p] == old(db.value[p])
  {
    ghost var bi := ValueOr(b, i);
    if da.Some? {
      da.value[i] := da.value[i] + dc[i] * s[i];
    }
    if db.Some? {
      db.value[i] := db.value[i] + dc[i] * (1.0 - s[i]);
    }
    ds[i] := ds[i] + dc[i] * (a[i] - (if b.Some? then b.value[i] else 0.0));
    assert bi == ValueOr(b, i);
  }

  /**
   * weighted_delta_cpu: for every entry of `dc`, adds `dc[i] * s[i]` to
   * `da[i]`, `dc[i] * (1 - s[i])` to `db[i]` (each when present) and
   * `dc[i] * (a[i] - b[i])` to `ds[i]`; entries past `dc` are kept.
   */
  method WeightedDeltaCpu(a: array<real>, b: Option<array<real>>, s: array<real>,
                          da: Option<array<real>>, db: Option<array<real>>, ds: array<real>, dc: array<real>)
    requires ds !in {a, s, dc} + Footprint(b) + Footprint(da) + Footprint(db)
    requires Footprint(da) !! {a, s, dc} + Footprint(b) + Footprint(db)
    requires Footprint(db) !! {a, s, dc} + Footprint(b)
    requires a.Length >= dc.Length && s.Length >= dc.Length && ds.Length >= dc.Length
    requires b.Some? ==> b.value.Length >= dc.Length
    requires da.Some? ==> da.value.Length >= dc.Length
    requires db.Some? ==> db.value.Length >= dc.Length
    modifies ds, Footprint(da), Footprint(db)
    ensures forall i :: 0 <= i < ds.Length ==>
      ds[i] == if i < dc.Length then old(ds[i] + dc[i] * (a[i] - ValueOr(b, i))) else old(ds[i])
    ensures da.Some? ==> forall i :: 0 <= i < da.value.Length ==>
      da.value[i] == if i < dc.Length then old(da.value[i] + dc[i] * s[i]) else old(da.value[i])
    ensures db.Some? ==> forall i :: 0 <= i < db.value.Length ==>
      db.value[i] == if i < dc.Length then old(db.value[i] + dc[i] * (1.0 - s[i])) else old(db.value[i])
  {
    for i := 0 to dc.Length
      invariant unchanged(a, s, dc) && (b.Some? ==> unchanged(b.value))
      invariant forall p :: 0 <= p < ds.Length ==>
        ds[p] == if p < i then old(ds[p] + dc[p] * (a[p] - ValueOr(b, p))) else old(ds[p])
      invariant da.Some? ==> forall p :: 0 <= p < da.value.Length ==>
        da.value[p] == if p < i then old(da.value[p] + dc[p] * s[p]) else old(da.value[p])
      invariant db.Some? ==> forall p :: 0 <= p < db.value.Length ==>
        db.value[p] == if p < i then old(db.value[p] + dc[p] * (1.0 - s[p])) else old(db.value[p])
    {
      WeightedDeltaAt(a, b, s, da, db, ds, dc, i);
    }
  }


  // ---------------------------------------------------------------------------
  // shortcut_cpu

  /** The message of a failing `assert_eq!`. */
  const ShortcutMismatch := "assertion `left == right` failed"

  function Min(a: nat, b: nat): nat {
    if a < b then a else b
  }

  /**
   * The geometry of shortcut_cpu: `add` is w1 x h1 x c1 per image, `out` is
   * w2 x h2 x c2 per image; the loops visit the common min(w) x min(h) x min(c)
   * grid, stepping `stride` in `add` and `sample` in `out`.
   */
  datatype ShortcutShape = ShortcutShape(batch: nat, w1: nat, h1: nat, c1: nat, w2: nat, h2: nat, c2: nat)
  {
    /** The source divides by all four spatial extents. */
    predicate Divisible() {
      w1 > 0 && h1 > 0 && w2 > 0 && h2 > 0
    }

    /**
     * The two equalities the source asserts: both axes scale by the same
     * factor. The first divides by w2 and h2 only; the second, reached only
     * when the first holds, divides by h1, so `h1 > 0` is part of passing it.
     */
    predicate Consistent()
      requires w1 > 0 && w2 > 0 && h2 > 0
    {
      w1 / w2 == h1 / h2 && h1 > 0 && w2 / w1 == h2 / h1
    }

    function Stride(): nat
      requires Divisible()
    {
      if w1 / w2 < 1 then 1 else w1 / w2
    }

    function Sample(): nat
      requires Divisible()
    {
      if w2 / w1 < 1 then 1 else w2 / w1
    }

    /** The extents of the visited grid; the batch index is the slowest. */
    function Steps(): Radix {
      Radix(Min(w1, w2), Min(h1, h2), Min(c1, c2))
    }

    /** The number of entries the loops visit. */
    function Count(): nat {
      Steps().Volume(batch)
    }

    function OutRadix(): Radix {
      Radix(w2, h2, c2)
    }

    function AddRadix(): Radix {
      Radix(w1, h1, c1)
    }

    /** The out_index of step t. */
    function OutAt(t: nat): nat
      requires Divisible() && t < Count()
    {
      VolumePositive(Steps(), batch);
      var co := Unflat(t, Steps());
      Flat(Coord(co.d0 * Sample(), co.d1 * Sample(), co.d2, co.d3), OutRadix())
    }

    /** The add_index of step t. */
    function AddAt(t: nat): nat
      requires Divisible() && t < Count()
    {
      VolumePositive(Steps(), batch);
      var co := Unflat(t, Steps());
      Flat(Coord(co.d0 * Stride(), co.d1 * Stride(), co.d2, co.d3), AddRadix())
    }

    /** Every step reads and writes inside buffers of the given lengths. */
    predicate InBounds(addLength: nat, outLength: nat)
      requires Divisible()
    {
      forall t :: 0 <= t < Count() ==> OutAt(t) < outLength && AddAt(t) < addLength
    }

    /** Whether some step writes out offset p. */
    predicate Visited(p: nat)
      requires Divisible()
    {
      Steps().Positive() &&
      var co := Unflat(p, OutRadix());
      var sample := Sample();
      && co.d0 % sample == 0 && co.d0 / sample < Steps().b0
      && co.d1 % sample == 0 && co.d1 / sample < Steps().b1
      && co.d2 < Steps().b2 && co.d3 < batch
    }

    /** The step that writes out offset p. */
    function StepOf(p: nat): nat
      requires Divisible() && Visited(p)
    {
      var co := Unflat(p, OutRadix());
      var i: nat := co.d0 / Sample();
      var j: nat := co.d1 / Sample();
      Flat(Coord(i, j, co.d2, co.d3), Steps())
    }
  }

  /** Scaling an index below min(lo, hi) by max(hi / lo, 1) keeps it below hi. */
  lemma ScaledBelow(i: nat, lo: nat, hi: nat, f: nat)
    requires lo > 0 && hi > 0 && i < Min(lo, hi)
    requires f == if hi / lo < 1 then 1 else hi / lo
    ensures i * f < hi
  {
    if hi / lo >= 1 {
      MulMono(f, i, lo - 1);
      assert lo * (hi / lo) <= hi;
      assert (lo - 1) * f == lo * f - f;
    }
  }

  /** A multiple of f has remainder 0 and quotient its other factor. */
  lemma ScaledDigits(i: nat, f: nat)
    requires f > 0
    ensures (i * f) % f == 0 && (i * f) / f == i
  {
    PosDigits(0, i, f);
    assert Pos(0, i, f) == i * f;
  }

  /** The coordinates of step t, scaled by sample, lie inside `out`'s extents. */
  lemma ShortcutOutCoord(g: ShortcutShape, t: nat)
    requires g.Divisible() && g.Consistent() && t < g.Count()
    ensures g.Steps().Positive()
    ensures var co := Unflat(t, g.Steps());
      && g.OutRadix().Holds(Coord(co.d0 * g.Sample(), co.d1 * g.Sample(), co.d2, co.d3))
      && g.Steps().Holds(co) && co.d3 < g.batch && Flat(co, g.Steps()) == t
  {
    VolumePositive(g.Steps(), g.batch);
    var co := Unflat(t, g.Steps());
    UnflatFlat(t, g.Steps());
    UnflatBound(t, g.Steps(), g.batch);
    ScaledBelow(co.d0, g.w1, g.w2, g.Sample());
    ScaledBelow(co.d1, g.h1, g.h2, g.Sample());
  }

  /** The coordinates of step t, scaled by stride, lie inside `add`'s extents. */
  lemma ShortcutAddCoord(g: ShortcutShape, t: nat)
    requires g.Divisible() && g.Consistent() && t < g.Count()
    ensures g.Steps().Positive()
    ensures var co := Unflat(t, g.Steps());
      g.AddRadix().Holds(Coord(co.d0 * g.Stride(), co.d1 * g.Stride(), co.d2, co.d3)) && co.d3 < g.batch
  {
    VolumePositive(g.Steps(), g.batch);
    var co := Unflat(t, g.Steps());
    UnflatFlat(t, g.Steps());
    UnflatBound(t, g.Steps(), g.batch);
    ScaledBelow(co.d0, g.w2, g.w1, g.Stride());
    ScaledBelow(co.d1, g.h2, g.h1, g.Stride());
  }

  /** Step t writes a visited offset, and that offset is written by step t only. */
  lemma ShortcutStepInverse(g: ShortcutShape, t: nat)
    requires g.Divisible() && g.Consistent() && t < g.Count()
    ensures g.Visited(g.OutAt(t)) && g.StepOf(g.OutAt(t)) == t
    ensures g.OutAt(t) < g.OutRadix().Volume(g.batch) && g.AddAt(t) < g.AddRadix().Volume(g.batch)
  {
    ShortcutOutCoord(g, t);
    ShortcutAddCoord(g, t);
    var co := Unflat(t, g.Steps());
    var sample: nat := g.Sample();
    var stride: nat := g.Stride();
    var out := Coord(co.d0 * sample, co.d1 * sample, co.d2, co.d3);
    var add := Coord(co.d0 * stride, co.d1 * stride, co.d2, co.d3);
    assert g.OutAt(t) == Flat(out, g.OutRadix());
    assert g.AddAt(t) == Flat(add, g.AddRadix());
    FlatBound(out, g.OutRadix(), g.batch);
    FlatBound(add, g.AddRadix(), g.batch);
    FlatUnflat(out, g.OutRadix());
    ScaledDigits(co.d0, sample);
    ScaledDigits(co.d1, sample);
    assert g.Visited(g.OutAt(t));
    assert g.StepOf(g.OutAt(t)) == Flat(co, g.Steps());
  }

  /** A visited offset is written by a step of the loops, and that step writes it. */
  lemma ShortcutOffsetInverse(g: ShortcutShape, p: nat)
    requires g.Divisible() && g.Visited(p)
    ensures g.StepOf(p) < g.Count() && g.OutAt(g.StepOf(p)) == p
  {
    var co := Unflat(p, g.OutRadix());
    UnflatFlat(p, g.OutRadix());
    var sample: nat := g.Sample();
    var i: nat := co.d0 / sample;
    var j: nat := co.d1 / sample;
    ScaledBack(co.d0, sample);
    ScaledBack(co.d1, sample);
    var step := Coord(i, j, co.d2, co.d3);
    FlatBound(step, g.Steps(), g.batch);
    FlatUnflat(step, g.Steps());
    assert g.StepOf(p) == Flat(step, g.Steps());
    assert Coord(i * sample, j * sample, co.d2, co.d3) == co;
  }

  /** A multiple of f is its quotient by f times f. */
  lemma ScaledBack(x: nat, f: nat)
    requires f > 0 && x % f == 0
    ensures (x / f) * f == x
  {
    PosOfDigits(x, f);
  }

  /** Buffers holding full w * h * c * batch volumes are large enough for every step. */
  lemma ShortcutFullBuffers(g: ShortcutShape, addLength: nat, outLength: nat)
    requires g.Divisible() && g.Consistent()
    requires addLength >= g.AddRadix().Volume(g.batch) && outLength >= g.OutRadix().Volume(g.batch)
    ensures g.InBounds(addLength, outLength)
  {
    forall t | 0 <= t < g.Count()
      ensures g.OutAt(t) < outLength && g.AddAt(t) < addLength
    {
      ShortcutStepInverse(g, t);
    }
  }

  /**
   * The contents of `out` after shortcut_cpu: every visited entry becomes
   * s1 * out + s2 * add at the matching `add` entry; every other entry is left alone.
   */
  ghost function Shortcut(o: seq<real>, add: seq<real>, g: ShortcutShape, s1: real, s2: real): (r: seq<real>)
    requires g.Divisible() && g.Consistent() && g.InBounds(|add|, |o|)
    ensures |r| == |o|
  {
    seq(|o|, p requires 0 <= p < |o| =>
      if g.Visited(p) then
        ShortcutOffsetInverse(g, p);
        s1 * o[p] + s2 * add[g.AddAt(g.StepOf(p))]
      else o[p])
  }

  /** With s1 = 1 and s2 = 0 the shortcut leaves `out` as it was. */
  lemma ShortcutKeeps(o: seq<real>, add: seq<real>, g: ShortcutShape)
    requires g.Divisible() && g.Consistent() && g.InBounds(|add|, |o|)
    ensures Shortcut(o, add, g, 1.0, 0.0) == o
  {
  }

  /**
   * When both sides have the same shape, the shortcut is the entrywise
   * s1 * out + s2 * add over the whole w * h * c * batch volume.
   */
  lemma ShortcutSameShape(o: seq<real>, add: seq<real>, g: ShortcutShape, s1: real, s2: real)
    requires g.Divisible() && g.w1 == g.w2 && g.h1 == g.h2 && g.c1 == g.c2
    requires |o| >= g.OutRadix().Volume(g.batch) && |add| >= g.AddRadix().Volume(g.batch)
    ensures g.Consistent() && g.InBounds(|add|, |o|)
    ensures forall p :: 0 <= p < g.OutRadix().Volume(g.batch) ==> Shortcut(o, add, g, s1, s2)[p] == s1 * o[p] + s2 * add[p]
  {
    ShortcutFullBuffers(g, |add|, |o|);
    forall p | 0 <= p < g.OutRadix().Volume(g.batch)
      ensures Shortcut(o, add, g, s1, s2)[p] == s1 * o[p] + s2 * add[p]
    {
      VolumePositive(g.OutRadix(), g.batch);
      var co := Unflat(p, g.OutRadix());
      UnflatFlat(p, g.OutRadix());
      UnflatBound(p, g.OutRadix(), g.batch);
      assert g.Visited(p);
      ShortcutOffsetInverse(g, p);
      var t := g.StepOf(p);
      assert t == p;
      FlatUnflat(co, g.Steps());
    }
  }

  /** For each out offset, the step of shortcut_cpu's loops that writes it, or -1. */
  ghost function ShortcutWrites(g: ShortcutShape, n: nat): (w: seq<int>)
    requires g.Divisible()
    ensures |w| == n
  {
    seq(n, p requires 0 <= p < n => if g.Visited(p) then g.StepOf(p) else -1)
  }

  /**
   * A buffer that a loop fills in order: after t steps, exactly the entries
   * whose writing step `w[p]` is below t hold their final value `y[p]`; the
   * others still hold their initial value.
   */
  ghost predicate ScatteredUpTo(o: seq<real>, o0: seq<real>, y: seq<real>, w: seq<int>, t: nat) {
    && |o| == |o0| == |y| == |w|
    && forall p :: 0 <= p < |o| ==> o[p] == if 0 <= w[p] < t then y[p] else o0[p]
  }

  /** Writing its final value into the one entry of step t advances the fill by one step. */
  lemma ScatterStep(o: seq<real>, o0: seq<real>, y: seq<real>, w: seq<int>, t: nat, q: nat)
    requires ScatteredUpTo(o, o0, y, w, t) && q < |o| && w[q] == t
    requires forall p :: 0 <= p < |w| && w[p] == t ==> p == q
    ensures ScatteredUpTo(o[q := y[q]], o0, y, w, t + 1)
  {
  }

  /** What step t of shortcut_cpu's loops reads and writes. */
  lemma ShortcutStepFacts(g: ShortcutShape, o0: seq<real>, add: seq<real>, s1: real, s2: real,
                          t: nat, outIndex: nat, addIndex: nat)
    requires g.Divisible() && g.Consistent() && g.InBounds(|add|, |o0|) && t < g.Count()
    requires outIndex == g.OutAt(t) && addIndex == g.AddAt(t)
    ensures outIndex < |o0| && addIndex < |add|
    ensures ShortcutWrites(g, |o0|)[outIndex] == t
    ensures forall p :: 0 <= p < |o0| && ShortcutWrites(g, |o0|)[p] == t ==> p == outIndex
    ensures Shortcut(o0, add, g, s1, s2)[outIndex] == s1 * o0[outIndex] + s2 * add[addIndex]
  {
    ShortcutStepInverse(g, t);
    var w := ShortcutWrites(g, |o0|);
    forall p | 0 <= p < |o0| && w[p] == t
      ensures p == outIndex
    {
      ShortcutOffsetInverse(g, p);
    }
  }

  /** Once every step has run, `out` holds the shortcut contents. */
  lemma ShortcutDone(o: seq<real>, o0: seq<real>, add: seq<real>, g: ShortcutShape, s1: real, s2: real)
    requires g.Divisible() && g.Consistent() && g.InBounds(|add|, |o0|)
    requires ScatteredUpTo(o, o0, Shortcut(o0, add, g, s1, s2), ShortcutWrites(g, |o0|), g.Count())
    ensures o == Shortcut(o0, add, g, s1, s2)
  {
    var y := Shortcut(o0, add, g, s1, s2);
    forall p | 0 <= p < |o|
      ensures o[p] == y[p]
    {
      if g.Visited(p) {
        ShortcutOffsetInverse(g, p);
      }
    }
  }

  /** The two offsets shortcut_cpu computes for loop indices (b, k, j, i). */
  lemma ShortcutOffsets(g: ShortcutShape, i: nat, j: nat, k: nat, b: nat)
    requires g.Divisible() && g.Steps().Holds(Coord(i, j, k, b)) && b < g.batch
    ensures Flat(Coord(i, j, k, b), g.Steps()) < g.Count()
    ensures g.OutAt(Flat(Coord(i, j, k, b), g.Steps())) ==
      i * g.Sample() + g.w2 * (j * g.Sample() + g.h2 * (k + g.c2 * b))
    ensures g.AddAt(Flat(Coord(i, j, k, b), g.Steps())) ==
      i * g.Stride() + g.w1 * (j * g.Stride() + g.h1 * (k + g.c1 * b))
  {
    FlatBound(Coord(i, j, k, b), g.Steps(), g.batch);
    FlatUnflat(Coord(i, j, k, b), g.Steps());
  }

  /** Writes the entry of step t: its final value, given that the step is the only writer. */
  method ShortcutWrite(out: array<real>, add: array<real>, outIndex: nat, addIndex: nat, s1: real, s2: real,
                       ghost o0: seq<real>, ghost y: seq<real>, ghost w: seq<int>, ghost t: nat)
    requires ScatteredUpTo(out[..], o0, y, w, t) && outIndex < out.Length && addIndex < add.Length
    requires w[outIndex] == t && forall p :: 0 <= p < |w| && w[p] == t ==> p == outIndex
    requires y[outIndex] == s1 * o0[outIndex] + s2 * add[addIndex]
    modifies out
    ensures ScatteredUpTo(out[..], o0, y, w, t + 1)
  {
    ScatterStep(out[..], o0, y, w, t, outIndex);
    out[outIndex] := s1 * out[outIndex] + s2 * add[addIndex];
  }

  /** The body of shortcut_cpu's loops: step (b, k, j, i) writes its one entry of `out`. */
  method ShortcutEntry(out: array<real>, add: array<real>, s1: real, s2: real, stride: nat, sample: nat,
                       i: nat, j: nat, k: nat, b: nat, g: ShortcutShape,
                       ghost o0: seq<real>, ghost y: seq<real>, ghost w: seq<int>)
    requires g.Divisible() && g.Consistent() && g.InBounds(add.Length, |o0|) && add != out
    requires stride == g.Stride() && sample == g.Sample()
    requires g.Steps().Holds(Coord(i, j, k, b)) && b < g.batch
    requires y == Shortcut(o0, add[..], g, s1, s2) && w == ShortcutWrites(g, |o0|)
    requires ScatteredUpTo(out[..], o0, y, w, Flat(Coord(i, j, k, b), g.Steps()))
    modifies out
    ensures ScatteredUpTo(out[..], o0, y, w, Flat(Coord(i, j, k, b), g.Steps()) + 1)
  {
    ghost var t := Flat(Coord(i, j, k, b), g.Steps());
    ShortcutOffsets(g, i, j, k, b);
    var outIndex := i * sample + g.w2 * (j * sample + g.h2 * (k + g.c2 * b));
    var addIndex := i * stride + g.w1 * (j * stride + g.h1 * (k + g.c1 * b));
    ShortcutStepFacts(g, o0, add[..], s1, s2, t, outIndex, addIndex);
    assert add[addIndex] == add[..][addIndex];
    ShortcutWrite(out, add, outIndex, addIndex, s1, s2, o0, y, w, t);
  }

  /**
   * The innermost loop of shortcut_cpu: the steps with indices (b, k, j, 0)
   * up to (b, k, j, min(w1, w2) - 1).
   */
  method ShortcutRow(out: array<real>, add: array<real>, s1: real, s2: real, stride: nat, sample: nat,
                     b: nat, k: nat, j: nat, g: ShortcutShape,
                     ghost o0: seq<real>, ghost y: seq<real>, ghost w: seq<int>)
    requires g.Divisible() && g.Consistent() && g.InBounds(add.Length, |o0|) && add != out
    requires stride == g.Stride() && sample == g.Sample()
    requires b < g.batch && k < g.Steps().b2 && j < g.Steps().b1
    requires y == Shortcut(o0, add[..], g, s1, s2) && w == ShortcutWrites(g, |o0|)
    requires ScatteredUpTo(out[..], o0, y, w, Flat(Coord(0, j, k, b), g.Steps()))
    modifies out
    ensures ScatteredUpTo(out[..], o0, y, w, Flat(Coord(0, j + 1, k, b), g.Steps()))
  {
    ghost var t: nat := Flat(Coord(0, j, k, b), g.Steps());
    for i := 0 to g.Steps().b0
      invariant t == Flat(Coord(i, j, k, b), g.Steps())
      invariant ScatteredUpTo(out[..], o0, y, w, t)
    {
      ShortcutEntry(out, add, s1, s2, stride, sample, i, j, k, b, g, o0, y, w);
      t := t + 1;
    }
    Carry(g.Steps().b0, Pos(j, Pos(k, b, g.Steps().b2), g.Steps().b1));
  }

  /**
   * shortcut_cpu: the residual connection out = s1 * out + s2 * add over the
   * grid both tensors share, with `add` and `out` possibly of different
   * spatial sizes. Panics unless both axes scale by the same factor. The
   * first assertion's divisions need non-zero w1, w2 and h2, the second's a
   * non-zero h1 (the second only runs when the first holds), and every
   * visited offset must lie inside its buffer.
   */
  method ShortcutCpu(batch: nat, w1: nat, h1: nat, c1: nat, add: array<real>,
                     w2: nat, h2: nat, c2: nat, s1: real, s2: real, out: array<real>) returns (r: Result<()>)
    requires w1 > 0 && w2 > 0 && h2 > 0 && (w1 / w2 == h1 / h2 ==> h1 > 0) && add != out
    requires ShortcutShape(batch, w1, h1, c1, w2, h2, c2).Consistent() ==>
             ShortcutShape(batch, w1, h1, c1, w2, h2, c2).InBounds(add.Length, out.Length)
    modifies out
    ensures !ShortcutShape(batch, w1, h1, c1, w2, h2, c2).Consistent() ==>
            r == Panic(ShortcutMismatch) && out[..] == old(out[..])
    ensures ShortcutShape(batch, w1, h1, c1, w2, h2, c2).Consistent() ==>
            r == Ok(()) && out[..] == Shortcut(old(out[..]), add[..], ShortcutShape(batch, w1, h1, c1, w2, h2, c2), s1, s2)
  {
    var g := ShortcutShape(batch, w1, h1, c1, w2, h2, c2);
    var stride := w1 / w2;
    var sample := w2 / w1;
    if stride != h1 / h2 || sample != h2 / h1 {
      return Panic(ShortcutMismatch);
    }
    stride := if stride < 1 then 1 else stride;
    sample := if sample < 1 then 1 else sample;
    var minw := Min(w1, w2);
    var minh := Min(h1, h2);
    var minc := Min(c1, c2);
    ghost var o0, a := out[..], add[..];
    ghost var y, w := Shortcut(o0, a, g, s1, s2), ShortcutWrites(g, |o0|);
    ghost var t: nat := 0;
    for b := 0 to batch
      invariant t == Flat(Coord(0, 0, 0, b), g.Steps())
      invariant ScatteredUpTo(out[..], o0, y, w, t)
    {
      for k := 0 to minc
        invariant t == Flat(Coord(0, 0, k, b), g.Steps())
        invariant ScatteredUpTo(out[..], o0, y, w, t)
      {
        for j := 0 to minh
          invariant t == Flat(Coord(0, j, k, b), g.Steps())
          invariant ScatteredUpTo(out[..], o0, y, w, t)
        {
          ShortcutRow(out, add, s1, s2, stride, sample, b, k, j, g, o0, y, w);
          t := Flat(Coord(0, j + 1, k, b), g.Steps());
        }
        Carry(minh, Pos(k, b, minc));
        Carry(minw, Pos(0, Pos(k, b, minc) + 1, minh));
      }
      Carry(minc, b);
      Carry(minh, Pos(0, b + 1, minc));
      Carry(minw, Pos(0, Pos(0, b + 1, minc), minh));
    }
    ShortcutDone(out[..], o0, a, g, s1, s2);
    return Ok(());
  }

  // ---------------------------------------------------------------------------
  // mean_cpu and variance_cpu

  /** The offset of spatial entry k of filter i in image j. */
  function Entry(j: nat, i: nat, k: nat, filters: nat, spatial: nat): nat {
    Pos(k, Pos(i, j, filters), spatial)
  }

  /** The source's offset expression is Entry, and it lies inside the batch. */
  lemma EntryOffset(j: nat, i: nat, k: nat, batch: nat, filters: nat, spatial: nat)
    requires j < batch && i < filters && k < spatial
    ensures j * filters * spatial + i * spatial + k == Entry(j, i, k, filters, spatial)
    ensures Entry(j, i, k, filters, spatial) < spatial * (filters * batch)
  {
    PosBound(i, j, filters, batch);
    PosBound(k, Pos(i, j, filters), spatial, filters * batch);
    assert spatial * (i + filters * j) == i * spatial + j * filters * spatial;
  }

  /** f at spatial entry k of filter i in image j. */
  function Term(x: seq<real>, f: real -> real, i: nat, j: nat, k: nat, batch: nat, filters: nat, spatial: nat): real
    requires i < filters && j < batch && k < spatial && |x| >= spatial * (filters * batch)
  {
    EntryOffset(j, i, k, batch, filters, spatial);
    f(x[Entry(j, i, k, filters, spatial)])
  }

  /** The sum of f over the first k spatial entries of filter i in image j. */
  function RowSum(x: seq<real>, f: real -> real, i: nat, j: nat, k: nat, batch: nat, filters: nat, spatial: nat): real
    requires i < filters && j < batch && k <= spatial && |x| >= spatial * (filters * batch)
  {
    if k == 0 then 0.0
    else RowSum(x, f, i, j, k - 1, batch, filters, spatial) + Term(x, f, i, j, k - 1, batch, filters, spatial)
  }

  /** The sum of f over the entries of filter i in the first j images. */
  function BlockSum(x: seq<real>, f: real -> real, i: nat, j: nat, batch: nat, filters: nat, spatial: nat): real
    requires i < filters && j <= batch && |x| >= spatial * (filters * batch)
  {
    if j == 0 then 0.0
    else BlockSum(x, f, i, j - 1, batch, filters, spatial) + RowSum(x, f, i, j - 1, spatial, batch, filters, spatial)
  }

  /** The sum of f over every entry of filter i. */
  function FilterSum(x: seq<real>, f: real -> real, i: nat, batch: nat, filters: nat, spatial: nat): real
    requires i < filters && |x| >= spatial * (filters * batch)
  {
    BlockSum(x, f, i, batch, batch, filters, spatial)
  }

  function Identity(v: real): real {
    v
  }

  /** The squared deviation from m, as `(v - m).powi(2)`. */
  function Deviation(m: real): real -> real {
    v => (v - m) * (v - m)
  }

  /** A total scaled by 1 / n, as `mean[i] *= 1.0 / n as f32`. */
  function Scaled(total: real, n: nat): real
    requires n > 0
  {
    total * (1.0 / n as real)
  }

  /** The mean of filter i over the batch and the spatial extent. */
  function Mean(x: seq<real>, batch: nat, filters: nat, spatial: nat, i: nat): real
    requires i < filters && batch * spatial > 0 && |x| >= spatial * (filters * batch)
  {
    Scaled(FilterSum(x, Identity, i, batch, filters, spatial), batch * spatial)
  }

  /**
   * The sample variance of filter i around m: the squared deviations divided
   * by n - 1, where n = batch * spatial (n = 0 scales the empty sum by -1).
   */
  function Variance(x: seq<real>, m: real, batch: nat, filters: nat, spatial: nat, i: nat): real
    requires i < filters && batch * spatial != 1 && |x| >= spatial * (filters * batch)
  {
    FilterSum(x, Deviation(m), i, batch, filters, spatial) * (1.0 / ((batch * spatial) as real - 1.0))
  }

  /** f is at least lo on every entry of filter i. */
  ghost predicate FilterAbove(x: seq<real>, f: real -> real, i: nat, batch: nat, filters: nat, spatial: nat, lo: real)
    requires i < filters && |x| >= spatial * (filters * batch)
  {
    forall j: nat, k: nat :: j < batch && k < spatial ==> lo <= Term(x, f, i, j, k, batch, filters, spatial)
  }

  /** f is at most hi on every entry of filter i. */
  ghost predicate FilterBelow(x: seq<real>, f: real -> real, i: nat, batch: nat, filters: nat, spatial: nat, hi: real)
    requires i < filters && |x| >= spatial * (filters * batch)
  {
    forall j: nat, k: nat :: j < batch && k < spatial ==> Term(x, f, i, j, k, batch, filters, spatial) <= hi
  }

  lemma {:induction false} RowSumAbove(x: seq<real>, f: real -> real, i: nat, j: nat, k: nat,
                                       batch: nat, filters: nat, spatial: nat, lo: real)
    requires i < filters && j < batch && k <= spatial && |x| >= spatial * (filters * batch)
    requires FilterAbove(x, f, i, batch, filters, spatial, lo)
    ensures k as real * lo <= RowSum(x, f, i, j, k, batch, filters, spatial)
  {
    if k > 0 {
      RowSumAbove(x, f, i, j, k - 1, batch, filters, spatial, lo);
    }
  }

  lemma {:induction false} RowSumBelow(x: seq<real>, f: real -> real, i: nat, j: nat, k: nat,
                                       batch: nat, filters: nat, spatial: nat, hi: real)
    requires i < filters && j < batch && k <= spatial && |x| >= spatial * (filters * batch)
    requires FilterBelow(x, f, i, batch, filters, spatial, hi)
    ensures RowSum(x, f, i, j, k, batch, filters, spatial) <= k as real * hi
  {
    if k > 0 {
      RowSumBelow(x, f, i, j, k - 1, batch, filters, spatial, hi);
    }
  }


  /** Terms of at least lo sum to at least j * spatial * lo over j images. */
  lemma {:induction false} BlockSumAbove(x: seq<real>, f: real -> real, i: nat, j: nat,
                                         batch: nat, filters: nat, spatial: nat, lo: real)
    requires i < filters && j <= batch && |x| >= spatial * (filters * batch)
    requires FilterAbove(x, f, i, batch, filters, spatial, lo)
    ensures j as real * (spatial as real * lo) <= BlockSum(x, f, i, j, batch, filters, spatial)
  {
    if j > 0 {
      BlockSumAbove(x, f, i, j - 1, batch, filters, spatial, lo);
      RowSumAbove(x, f, i, j - 1, spatial, batch, filters, spatial, lo);
      assert j as real * (spatial as real * lo) == (j - 1) as real * (spatial as real * lo) + spatial as real * lo;
    }
  }


  /** Terms of at most hi sum to at most j * spatial * hi over j images. */
  lemma {:induction false} BlockSumBelow(x: seq<real>, f: real -> real, i: nat, j: nat,
                                         batch: nat, filters: nat, spatial: nat, hi: real)
    requires i < filters && j <= batch && |x| >= spatial * (filters * batch)
    requires FilterBelow(x, f, i, batch, filters, spatial, hi)
    ensures BlockSum(x, f, i, j, batch, filters, spatial) <= j as real * (spatial as real * hi)
  {
    if j > 0 {
      BlockSumBelow(x, f, i, j - 1, batch, filters, spatial, hi);
      RowSumBelow(x, f, i, j - 1, spatial, batch, filters, spatial, hi);
      assert j as real * (spatial as real * hi) == (j - 1) as real * (spatial as real * hi) + spatial as real * hi;
    }
  }


  /** The mean lies between any lower and any upper bound of its filter's entries. */
  lemma MeanWithin(x: seq<real>, batch: nat, filters: nat, spatial: nat, i: nat, lo: real, hi: real)
    requires i < filters && batch * spatial > 0 && |x| >= spatial * (filters * batch)
    requires FilterAbove(x, Identity, i, batch, filters, spatial, lo)
    requires FilterBelow(x, Identity, i, batch, filters, spatial, hi)
    ensures lo <= Mean(x, batch, filters, spatial, i) <= hi
  {
    TotalWithin(x, Identity, batch, filters, spatial, i, lo, hi);
    MeanOfTotal(x, batch, filters, spatial, i, lo, hi);
  }

  /** The mean of a filter whose sum lies between n * lo and n * hi lies between lo and hi. */
  lemma MeanOfTotal(x: seq<real>, batch: nat, filters: nat, spatial: nat, i: nat, lo: real, hi: real)
    requires i < filters && batch * spatial > 0 && |x| >= spatial * (filters * batch)
    requires (batch * spatial) as real * lo <= FilterSum(x, Identity, i, batch, filters, spatial) <= (batch * spatial) as real * hi
    ensures lo <= Mean(x, batch, filters, spatial, i) <= hi
  {
    ScaleWithin(FilterSum(x, Identity, i, batch, filters, spatial), batch * spatial, lo, hi);
  }

  /** The sum over a whole filter of terms between lo and hi lies between n * lo and n * hi. */
  lemma TotalWithin(x: seq<real>, f: real -> real, batch: nat, filters: nat, spatial: nat, i: nat, lo: real, hi: real)
    requires i < filters && |x| >= spatial * (filters * batch)
    requires FilterAbove(x, f, i, batch, filters, spatial, lo)
    requires FilterBelow(x, f, i, batch, filters, spatial, hi)
    ensures (batch * spatial) as real * lo <= FilterSum(x, f, i, batch, filters, spatial) <= (batch * spatial) as real * hi
  {
    BlockSumAbove(x, f, i, batch, batch, filters, spatial, lo);
    BlockSumBelow(x, f, i, batch, batch, filters, spatial, hi);
    CastProduct(batch, spatial, lo);
    CastProduct(batch, spatial, hi);
  }

  /** The count of a batch times a bound, in the order the block sums use. */
  lemma CastProduct(batch: nat, spatial: nat, v: real)
    ensures batch as real * (spatial as real * v) == (batch * spatial) as real * v
  {
    assert (batch * spatial) as real == batch as real * spatial as real;
  }

  /** A total between n * lo and n * hi, scaled by 1 / n, lies between lo and hi. */
  lemma ScaleWithin(total: real, n: nat, lo: real, hi: real)
    requires n > 0 && n as real * lo <= total <= n as real * hi
    ensures lo <= Scaled(total, n) <= hi
  {
    var d := n as real;
    assert total * (1.0 / d) == total / d;
    assert (d * lo) / d == lo && (d * hi) / d == hi;
  }

  /** A filter whose entries all equal c has mean c. */
  lemma MeanOfConstant(x: seq<real>, batch: nat, filters: nat, spatial: nat, i: nat, c: real)
    requires i < filters && batch * spatial > 0 && |x| >= spatial * (filters * batch)
    requires FilterAbove(x, Identity, i, batch, filters, spatial, c)
    requires FilterBelow(x, Identity, i, batch, filters, spatial, c)
    ensures Mean(x, batch, filters, spatial, i) == c
  {
    MeanWithin(x, batch, filters, spatial, i, c, c);
  }

  /** With at least two entries per filter, the variance is never negative. */
  lemma VarianceNonNegative(x: seq<real>, m: real, batch: nat, filters: nat, spatial: nat, i: nat)
    requires i < filters && batch * spatial >= 2 && |x| >= spatial * (filters * batch)
    ensures Variance(x, m, batch, filters, spatial, i) >= 0.0
  {
    forall j: nat, k: nat | j < batch && k < spatial
      ensures 0.0 <= Term(x, Deviation(m), i, j, k, batch, filters, spatial)
    {
      var d := Term(x, Identity, i, j, k, batch, filters, spatial) - m;
      assert d * d >= 0.0;
    }
    BlockSumAbove(x, Deviation(m), i, batch, batch, filters, spatial, 0.0);
    var total := BlockSum(x, Deviation(m), i, batch, batch, filters, spatial);
    assert total >= 0.0;
    var scale := 1.0 / ((batch * spatial) as real - 1.0);
    assert scale > 0.0;
    assert total * scale >= 0.0;
  }


  /** A filter whose entries all equal m has variance 0 around m. */
  lemma VarianceOfConstant(x: seq<real>, m: real, batch: nat, filters: nat, spatial: nat, i: nat)
    requires i < filters && batch * spatial != 1 && |x| >= spatial * (filters * batch)
    requires FilterAbove(x, Identity, i, batch, filters, spatial, m)
    requires FilterBelow(x, Identity, i, batch, filters, spatial, m)
    ensures Variance(x, m, batch, filters, spatial, i) == 0.0
  {
    forall j: nat, k: nat | j < batch && k < spatial
      ensures Term(x, Deviation(m), i, j, k, batch, filters, spatial) == 0.0
    {
      assert Term(x, Identity, i, j, k, batch, filters, spatial) == m;
    }
    BlockSumAbove(x, Deviation(m), i, batch, batch, filters, spatial, 0.0);
    BlockSumBelow(x, Deviation(m), i, batch, batch, filters, spatial, 0.0);
    assert BlockSum(x, Deviation(m), i, batch, batch, filters, spatial) == 0.0;
  }

  /**
   * The accumulation loops shared by mean_cpu and variance_cpu: zero `out[i]`,
   * then add f of every entry of filter i, image by image.
   */
  method SumInto(x: array<real>, f: real -> real, batch: nat, filters: nat, spatial: nat, i: nat, out: array<real>)
    requires x != out && i < filters && i < out.Length && x.Length >= spatial * (filters * batch)
    modifies out
    ensures out[i] == BlockSum(x[..], f, i, batch, batch, filters, spatial)
    ensures forall p :: 0 <= p < out.Length && p != i ==> out[p] == old(out[p])
  {
    out[i] := 0.0;
    for j := 0 to batch
      invariant out[i] == BlockSum(x[..], f, i, j, batch, filters, spatial)
      invariant forall p :: 0 <= p < out.Length && p != i ==> out[p] == old(out[p])
    {
      for k := 0 to spatial
        invariant out[i] == BlockSum(x[..], f, i, j, batch, filters, spatial) + RowSum(x[..], f, i, j, k, batch, filters, spatial)
        invariant forall p :: 0 <= p < out.Length && p != i ==> out[p] == old(out[p])
      {
        EntryOffset(j, i, k, batch, filters, spatial);
        var index := j * filters * spatial + i * spatial + k;
        out[i] := out[i] + f(x[index]);
      }
    }
  }

  /**
   * mean_cpu: `mean[i]` becomes the mean of filter i over the batch and the
   * spatial extent, for every filter; later entries of `mean` are kept.
   * With no entries per filter the source scales by 1 / 0.
   */
  method MeanCpu(x: array<real>, batch: nat, filters: nat, spatial: nat, mean: array<real>)
    requires x != mean && (filters == 0 || batch * spatial > 0)
    requires x.Length >= spatial * (filters * batch) && mean.Length >= filters
    modifies mean
    ensures forall i :: 0 <= i < filters ==> mean[i] == Mean(x[..], batch, filters, spatial, i)
    ensures forall i :: filters <= i < mean.Length ==> mean[i] == old(mean[i])
  {
    for i := 0 to filters
      invariant forall p :: 0 <= p < i ==> mean[p] == Mean(x[..], batch, filters, spatial, p)
      invariant forall p :: i <= p < mean.Length ==> mean[p] == old(mean[p])
    {
      SumInto(x, Identity, batch, filters, spatial, i, mean);
      mean[i] := mean[i] * (1.0 / (batch * spatial) as real);
    }
  }

  /**
   * variance_cpu: `variance[i]` becomes the sum of squared deviations of
   * filter i from `mean[i]`, divided by batch * spatial - 1; later entries
   * are kept. With exactly one entry per filter the source scales by 1 / 0.
   */
  method VarianceCpu(x: array<real>, mean: array<real>, batch: nat, filters: nat, spatial: nat, variance: array<real>)
    requires x != variance && mean != variance && (filters == 0 || batch * spatial != 1)
    requires x.Length >= spatial * (filters * batch) && mean.Length >= filters && variance.Length >= filters
    modifies variance
    ensures forall i :: 0 <= i < filters ==> variance[i] == Variance(x[..], mean[i], batch, filters, spatial, i)
    ensures forall i :: filters <= i < variance.Length ==> variance[i] == old(variance[i])
  {
    ghost var m := mean[..];
    for i := 0 to filters
      invariant mean[..] == m
      invariant forall p :: 0 <= p < i ==> variance[p] == Variance(x[..], m[p], batch, filters, spatial, p)
      invariant forall p :: i <= p < variance.Length ==> variance[p] == old(variance[p])
    {
      SumInto(x, Deviation(mean[i]), batch, filters, spatial, i, variance);
      variance[i] := variance[i] * (1.0 / ((batch * spatial) as real - 1.0));
      assert variance[i] == Variance(x[..], m[i], batch, filters, spatial, i);
    }
  }
}
