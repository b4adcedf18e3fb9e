/**
 * `convolution_2d` of src/main.rs: a valid (unpadded) 2-D sliding-window
 * sum over exact reals. An R x C input and a K x L kernel give an
 * (R - K + 1) x (C - L + 1) output, row-major, each entry the window's
 * weighted sum plus a constant `padding`.
 */
module Convolution {
  import opened Indexing

  /**
   * What the source needs to run without a panic: `input[0]` and `kernel[0]`
   * exist, the unsigned output extents do not underflow, every kernel row
   * has the first row's width, and, when the kernel has columns, every
   * input row has the first row's width.
   */
  predicate Shaped(input: seq<seq<real>>, kernel: seq<seq<real>>) {
    && |input| > 0 && |kernel| > 0
    && |kernel| <= |input| && |kernel[0]| <= |input[0]|
    && (forall m :: 0 <= m < |kernel| ==> |kernel[m]| >= |kernel[0]|)
    && (|kernel[0]| == 0 || forall q :: 0 <= q < |input| ==> |input[q]| >= |input[0]|)
  }

  function OutputRows(input: seq<seq<real>>, kernel: seq<seq<real>>): nat
    requires Shaped(input, kernel)
  {
    |input| - |kernel| + 1
  }

  function OutputCols(input: seq<seq<real>>, kernel: seq<seq<real>>): nat
    requires Shaped(input, kernel)
  {
    |input[0]| - |kernel[0]| + 1
  }

  /** Kernel row m laid over the input at (i + m, j): the sum of its first n products. */
  function RowDot(input: seq<seq<real>>, kernel: seq<seq<real>>, i: nat, j: nat, m: nat, n: nat): real
    requires Shaped(input, kernel) && i < OutputRows(input, kernel) && j < OutputCols(input, kernel)
    requires m < |kernel| && n <= |kernel[0]|
  {
    if n == 0 then 0.0
    else RowDot(input, kernel, i, j, m, n - 1) + input[i + m][j + n - 1] * kernel[m][n - 1]
  }

  /** The weighted sum of the window at (i, j) over the first m kernel rows. */
  function WindowSum(input: seq<seq<real>>, kernel: seq<seq<real>>, i: nat, j: nat, m: nat): real
    requires Shaped(input, kernel) && i < OutputRows(input, kernel) && j < OutputCols(input, kernel)
    requires m <= |kernel|
  {
    if m == 0 then 0.0
    else WindowSum(input, kernel, i, j, m - 1) + RowDot(input, kernel, i, j, m - 1, |kernel[0]|)
  }

  /** Output entry p, row-major: the window at (p / cols, p % cols) plus padding. */
  function OutputAt(input: seq<seq<real>>, kernel: seq<seq<real>>, padding: real, p: nat): real
    requires Shaped(input, kernel) && p < OutputRows(input, kernel) * OutputCols(input, kernel)
  {
    var cols := OutputCols(input, kernel);
    HighBound(p, cols, OutputRows(input, kernel));
    WindowSum(input, kernel, p / cols, p % cols, |kernel|) + padding
  }

  /** The whole output of convolution_2d. */
  function Convolved(input: seq<seq<real>>, kernel: seq<seq<real>>, padding: real): (r: seq<real>)
    requires Shaped(input, kernel)
    ensures |r| == OutputRows(input, kernel) * OutputCols(input, kernel)
  {
    seq(OutputRows(input, kernel) * OutputCols(input, kernel), p requires 0 <= p < OutputRows(input, kernel) * OutputCols(input, kernel) =>
      OutputAt(input, kernel, padding, p))
  }

  /** Entry i * cols + j of the output is the window at (i, j) plus padding. */
  lemma ConvolvedAt(input: seq<seq<real>>, kernel: seq<seq<real>>, padding: real, i: nat, j: nat)
    requires Shaped(input, kernel) && i < OutputRows(input, kernel) && j < OutputCols(input, kernel)
    ensures i * OutputCols(input, kernel) + j < |Convolved(input, kernel, padding)|
    ensures Convolved(input, kernel, padding)[i * OutputCols(input, kernel) + j] ==
            WindowSum(input, kernel, i, j, |kernel|) + padding
    ensures Pos(j, i, OutputCols(input, kernel)) == i * OutputCols(input, kernel) + j
  {
    var cols := OutputCols(input, kernel);
    PosBound(j, i, cols, OutputRows(input, kernel));
    PosDigits(j, i, cols);
    assert Pos(j, i, cols) == i * cols + j;
  }

  /** The two inner loops of convolution_2d: the weighted sum of the window at (i, j). */
  method Window(input: seq<seq<real>>, kernel: seq<seq<real>>, i: nat, j: nat) returns (sum: real)
    requires Shaped(input, kernel) && i < OutputRows(input, kernel) && j < OutputCols(input, kernel)
    ensures sum == WindowSum(input, kernel, i, j, |kernel|)
  {
    sum := 0.0;
    for m := 0 to |kernel|
      invariant sum == WindowSum(input, kernel, i, j, m)
    {
      for n := 0 to |kernel[0]|
        invariant sum == WindowSum(input, kernel, i, j, m) + RowDot(input, kernel, i, j, m, n)
      {
        sum := sum + input[i + m][j + n] * kernel[m][n];
      }
    }
  }

  /**
   * convolution_2d: slides the kernel over every valid position, row by row,
   * and pushes each window's weighted sum plus `padding`.
   */
  method Convolution2D(input: seq<seq<real>>, kernel: seq<seq<real>>, padding: real) returns (r: seq<real>)
    requires Shaped(input, kernel)
    ensures r == Convolved(input, kernel, padding)
  {
    r := [];
    var inputRows := |input|;
    var inputCols := |input[0]|;
    var kernelRows := |kernel|;
    var kernelCols := |kernel[0]|;
    var outputRows := inputRows - kernelRows + 1;
    var outputCols := inputCols - kernelCols + 1;
    ghost var y := Convolved(input, kernel, padding);
    for i := 0 to outputRows
      invariant |r| == Pos(0, i, outputCols)
      invariant Pos(0, i, outputCols) <= |y| && r == y[..|r|]
    {
      for j := 0 to outputCols
        invariant |r| == Pos(j, i, outputCols)
        invariant Pos(j, i, outputCols) <= |y| && r == y[..|r|]
      {
        var sum := Window(input, kernel, i, j);
        ConvolvedAt(input, kernel, padding, i, j);
        assert outputCols == OutputCols(input, kernel);
        assert y[Pos(j, i, outputCols)] == sum + padding;
        r := r + [sum + padding];
      }
      Carry(outputCols, i);
    }
    assert |r| == |y|;
  }

  /** The window of a single-entry kernel of weight 1 is the input entry under it. */
  lemma IdentityWindow(input: seq<seq<real>>, i: nat, j: nat)
    requires Shaped(input, [[1.0]]) && i < |input| && j < |input[0]|
    ensures WindowSum(input, [[1.0]], i, j, 1) == input[i][j]
  {
    var kernel := [[1.0]];
    assert RowDot(input, kernel, i, j, 0, 1) == RowDot(input, kernel, i, j, 0, 0) + input[i][j] * 1.0;
    assert WindowSum(input, kernel, i, j, 1) == WindowSum(input, kernel, i, j, 0) + RowDot(input, kernel, i, j, 0, 1);
  }

  /**
   * A single-entry kernel of weight 1 and no padding reproduces the input:
   * output entry p is input entry (p / cols, p % cols), over the whole input.
   */
  lemma IdentityKernel(input: seq<seq<real>>)
    requires |input| > 0 && |input[0]| > 0 && forall q :: 0 <= q < |input| ==> |input[q]| >= |input[0]|
    ensures Shaped(input, [[1.0]])
    ensures |Convolved(input, [[1.0]], 0.0)| == |input| * |input[0]|
    ensures forall p :: 0 <= p < |Convolved(input, [[1.0]], 0.0)| ==>
      p / |input[0]| < |input| && p % |input[0]| < |input[p / |input[0]|]| &&
      Convolved(input, [[1.0]], 0.0)[p] == input[p / |input[0]|][p % |input[0]|]
  {
    var cols := |input[0]|;
    assert Shaped(input, [[1.0]]);
    forall p | 0 <= p < |Convolved(input, [[1.0]], 0.0)|
      ensures p / cols < |input| && p % cols < |input[p / cols]|
      ensures Convolved(input, [[1.0]], 0.0)[p] == input[p / cols][p % cols]
    {
      HighBound(p, cols, |input|);
      IdentityWindow(input, p / cols, p % cols);
    }
  }

  lemma {:induction false} RowDotOfZero(input: seq<seq<real>>, kernel: seq<seq<real>>, i: nat, j: nat, m: nat, n: nat)
    requires Shaped(input, kernel) && i < OutputRows(input, kernel) && j < OutputCols(input, kernel)
    requires m < |kernel| && n <= |kernel[0]|
    requires forall k :: 0 <= k < |kernel[0]| ==> kernel[m][k] == 0.0
    ensures RowDot(input, kernel, i, j, m, n) == 0.0
  {
    if n > 0 {
      RowDotOfZero(input, kernel, i, j, m, n - 1);
    }
  }

  lemma {:induction false} WindowSumOfZero(input: seq<seq<real>>, kernel: seq<seq<real>>, i: nat, j: nat, m: nat)
    requires Shaped(input, kernel) && i < OutputRows(input, kernel) && j < OutputCols(input, kernel)
    requires m <= |kernel|
    requires forall a, b :: 0 <= a < |kernel| && 0 <= b < |kernel[0]| ==> kernel[a][b] == 0.0
    ensures WindowSum(input, kernel, i, j, m) == 0.0
  {
    if m > 0 {
      WindowSumOfZero(input, kernel, i, j, m - 1);
      RowDotOfZero(input, kernel, i, j, m - 1, |kernel[0]|);
    }
  }

  /** An all-zero kernel outputs `padding` at every position. */
  lemma ZeroKernel(input: seq<seq<real>>, kernel: seq<seq<real>>, padding: real)
    requires Shaped(input, kernel)
    requires forall a, b :: 0 <= a < |kernel| && 0 <= b < |kernel[0]| ==> kernel[a][b] == 0.0
    ensures forall p :: 0 <= p < |Convolved(input, kernel, padding)| ==> Convolved(input, kernel, padding)[p] == padding
  {
    var cols := OutputCols(input, kernel);
    forall p | 0 <= p < |Convolved(input, kernel, padding)|
      ensures Convolved(input, kernel, padding)[p] == padding
    {
      HighBound(p, cols, OutputRows(input, kernel));
      WindowSumOfZero(input, kernel, p / cols, p % cols, |kernel|);
    }
  }
}
