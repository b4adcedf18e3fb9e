/**
 * Dense matrices (`Tensor2D`, src/tensor.rs) over exact reals.
 *
 * A matrix is a value: every operation returns a fresh matrix and leaves its
 * operands alone. The operations that the source writes as nested loops into a
 * zeroed result (multiply, add, dot_multiply, subtract, transpose) are methods
 * proved equal to the ghost specification functions Product, Entrywise and
 * Transposed; the operations the source writes as constructors or iterator
 * chains (zeros, from, map) are functions.
 */
module Tensor {
  import opened Results

  const MultiplyMismatch := "Attempted to multiply by matrix of incorrect dimensions"
  const AddMismatch := "Attempted to add matrix of incorrect dimensions"
  const DotMultiplyMismatch := "Attempted to dot multiply by matrix of incorrect dimensions"
  const SubtractMismatch := "Attempted to subtract matrix of incorrect dimensions"

  datatype Tensor2D = Tensor2D(rows: nat, cols: nat, data: seq<seq<real>>)
  {
    /** `data` holds exactly `rows` rows of exactly `cols` entries each. */
    predicate Valid() {
      |data| == rows && forall i :: 0 <= i < |data| ==> |data[i]| == cols
    }

    predicate HasShape(r: nat, c: nat) {
      Valid() && rows == r && cols == c
    }

    /**
     * Every entry (i, j) with i below `rows` and j below `cols` exists. The
     * fields are public, so `data` may be ragged or longer than the extents.
     */
    predicate Readable() {
      |data| >= rows && forall i :: 0 <= i < rows ==> |data[i]| >= cols
    }
  }

  /** Two well-formed matrices of one shape with the same entries are the same matrix. */
  lemma Extensionality(a: Tensor2D, b: Tensor2D)
    requires a.Valid() && b.HasShape(a.rows, a.cols)
    requires forall i, j :: 0 <= i < a.rows && 0 <= j < a.cols ==> a.data[i][j] == b.data[i][j]
    ensures a == b
  {
    forall i | 0 <= i < a.rows
      ensures a.data[i] == b.data[i]
    {
    }
  }

  // ---------------------------------------------------------------------------
  // Constructors

  function Zeros(rows: nat, cols: nat): (z: Tensor2D)
    ensures z.HasShape(rows, cols)
    ensures forall i, j :: 0 <= i < rows && 0 <= j < cols ==> z.data[i][j] == 0.0
  {
    Tensor2D(rows, cols, seq(rows, _ => seq(cols, _ => 0.0)))
  }

  /**
   * Wraps a grid: the row count is the grid's length and the column count the
   * length of its first row, so the grid must have a first row. The result is
   * well formed exactly when every row is as long as the first.
   */
  function From(grid: seq<seq<real>>): (t: Tensor2D)
    requires |grid| > 0
    ensures t.rows == |grid| && t.cols == |grid[0]| && t.data == grid
    ensures t.Valid() <==> forall i :: 0 <= i < |grid| ==> |grid[i]| == |grid[0]|
  {
    Tensor2D(|grid|, |grid[0]|, grid)
  }

  /**
   * A `rows` x `cols` matrix whose entry (i, j) is `2 u(i, j) - 1`, where `u`
   * stands for the uniform draws from [0, 1) that the source takes from the
   * thread-local generator.
   */
  function Random(rows: nat, cols: nat, u: (nat, nat) -> real): (t: Tensor2D)
    requires forall i, j :: 0.0 <= u(i, j) < 1.0
    ensures t.HasShape(rows, cols)
    ensures forall i, j :: 0 <= i < rows && 0 <= j < cols ==> -1.0 <= t.data[i][j] < 1.0
  {
    Tensor2D(rows, cols, seq(rows, (i: nat) => seq(cols, (j: nat) => u(i, j) * 2.0 - 1.0)))
  }

  /**
   * Applies `f` to every entry of every row of `data`, whatever `rows` and
   * `cols` say. The source rebuilds the matrix with `from`, which reads the
   * first row, so `data` needs at least one row; a well-formed matrix keeps
   * its shape.
   */
  function Map(a: Tensor2D, f: real -> real): (m: Tensor2D)
    requires |a.data| > 0
    ensures m.rows == |a.data| && m.cols == |a.data[0]| && |m.data| == |a.data|
    ensures forall i :: 0 <= i < |a.data| ==> |m.data[i]| == |a.data[i]|
    ensures forall i, j :: 0 <= i < |a.data| && 0 <= j < |a.data[i]| ==> m.data[i][j] == f(a.data[i][j])
    ensures a.Valid() ==> m.HasShape(a.rows, a.cols)
  {
    From(seq(|a.data|, i requires 0 <= i < |a.data| =>
      seq(|a.data[i]|, j requires 0 <= j < |a.data[i]| => f(a.data[i][j]))))
  }

  // ---------------------------------------------------------------------------
  // Specification functions

  /** The sum of the first `n` products a[i][k] * b[k][j]. */
  ghost function Dot(a: Tensor2D, b: Tensor2D, i: nat, j: nat, n: nat): real
    requires a.Readable() && b.Readable() && i < a.rows && j < b.cols && n <= a.cols && n <= b.rows
  {
    if n == 0 then 0.0 else Dot(a, b, i, j, n - 1) + a.data[i][n - 1] * b.data[n - 1][j]
  }

  ghost function Product(a: Tensor2D, b: Tensor2D): (p: Tensor2D)
    requires a.Readable() && b.Readable() && a.cols == b.rows
    ensures p.HasShape(a.rows, b.cols)
    ensures forall i, j :: 0 <= i < a.rows && 0 <= j < b.cols ==> p.data[i][j] == Dot(a, b, i, j, a.cols)
  {
    Tensor2D(a.rows, b.cols,
      seq(a.rows, i requires 0 <= i < a.rows =>
        seq(b.cols, j requires 0 <= j < b.cols => Dot(a, b, i, j, a.cols))))
  }

  function Plus(x: real, y: real): real { x + y }
  function Minus(x: real, y: real): real { x - y }
  function Times(x: real, y: real): real { x * y }

  /** The matrix combining the entries of `a` and `b` at each position with `op`. */
  ghost function Entrywise(a: Tensor2D, b: Tensor2D, op: (real, real) -> real): (e: Tensor2D)
    requires a.Readable() && b.Readable() && b.rows == a.rows && b.cols == a.cols
    ensures e.HasShape(a.rows, a.cols)
    ensures forall i, j :: 0 <= i < a.rows && 0 <= j < a.cols ==> e.data[i][j] == op(a.data[i][j], b.data[i][j])
  {
    Tensor2D(a.rows, a.cols,
      seq(a.rows, i requires 0 <= i < a.rows =>
        seq(a.cols, j requires 0 <= j < a.cols => op(a.data[i][j], b.data[i][j]))))
  }

  ghost function Transposed(a: Tensor2D): (t: Tensor2D)
    requires a.Readable()
    ensures t.HasShape(a.cols, a.rows)
    ensures forall i, j :: 0 <= i < a.rows && 0 <= j < a.cols ==> t.data[j][i] == a.data[i][j]
  {
    Tensor2D(a.cols, a.rows,
      seq(a.cols, j requires 0 <= j < a.cols =>
        seq(a.rows, i requires 0 <= i < a.rows => a.data[i][j])))
  }

  // ---------------------------------------------------------------------------
  // Operations, as the source computes them

  /**
   * Matrix product: panics unless the column count of `a` is the row count of
   * `b`; otherwise the `a.rows` x `b.cols` product.
   */
  method Multiply(a: Tensor2D, b: Tensor2D) returns (r: Result<Tensor2D>)
    requires a.cols == b.rows ==> a.Readable() && b.Readable()
    ensures a.cols != b.rows ==> r == Panic(MultiplyMismatch)
    ensures a.cols == b.rows ==> r == Ok(Product(a, b))
  {
    if a.cols != b.rows {
      return Panic(MultiplyMismatch);
    }
    var res := Zeros(a.rows, b.cols);
    for i := 0 to a.rows
      invariant res.HasShape(a.rows, b.cols)
      invariant forall i', j :: 0 <= i' < i && 0 <= j < b.cols ==> res.data[i'][j] == Dot(a, b, i', j, a.cols)
    {
      for j := 0 to b.cols
        invariant res.HasShape(a.rows, b.cols)
        invariant forall i', j' :: 0 <= i' < i && 0 <= j' < b.cols ==> res.data[i'][j'] == Dot(a, b, i', j', a.cols)
        invariant forall j' :: 0 <= j' < j ==> res.data[i][j'] == Dot(a, b, i, j', a.cols)
      {
        var sum := 0.0;
        for k := 0 to a.cols
          invariant sum == Dot(a, b, i, j, k)
        {
          sum := sum + a.data[i][k] * b.data[k][j];
        }
        res := res.(data := res.data[i := res.data[i][j := sum]]);
      }
    }
    Extensionality(res, Product(a, b));
    return Ok(res);
  }

  /**
   * The loop shared by add, dot_multiply and subtract: panics with `mismatch`
   * unless both shapes agree; otherwise combines the entries with `op`.
   */
  method Combine(a: Tensor2D, b: Tensor2D, op: (real, real) -> real, mismatch: string) returns (r: Result<Tensor2D>)
    requires a.rows == b.rows && a.cols == b.cols ==> a.Readable() && b.Readable()
    ensures (a.rows != b.rows || a.cols != b.cols) ==> r == Panic(mismatch)
    ensures (a.rows == b.rows && a.cols == b.cols) ==> r == Ok(Entrywise(a, b, op))
  {
    if a.rows != b.rows || a.cols != b.cols {
      return Panic(mismatch);
    }
    var res := Zeros(a.rows, a.cols);
    for i := 0 to a.rows
      invariant res.HasShape(a.rows, a.cols)
      invariant forall i', j :: 0 <= i' < i && 0 <= j < a.cols ==> res.data[i'][j] == op(a.data[i'][j], b.data[i'][j])
    {
      for j := 0 to a.cols
        invariant res.HasShape(a.rows, a.cols)
        invariant forall i', j' :: 0 <= i' < i && 0 <= j' < a.cols ==> res.data[i'][j'] == op(a.data[i'][j'], b.data[i'][j'])
        invariant forall j' :: 0 <= j' < j ==> res.data[i][j'] == op(a.data[i][j'], b.data[i][j'])
      {
        res := res.(data := res.data[i := res.data[i][j := op(a.data[i][j], b.data[i][j])]]);
      }
    }
    Extensionality(res, Entrywise(a, b, op));
    return Ok(res);
  }

  method Add(a: Tensor2D, b: Tensor2D) returns (r: Result<Tensor2D>)
    requires a.rows == b.rows && a.cols == b.cols ==> a.Readable() && b.Readable()
    ensures (a.rows != b.rows || a.cols != b.cols) ==> r == Panic(AddMismatch)
    ensures (a.rows == b.rows && a.cols == b.cols) ==> r.Ok? && r.value.HasShape(a.rows, a.cols)
    ensures r.Ok? ==> forall i, j :: 0 <= i < a.rows && 0 <= j < a.cols ==> r.value.data[i][j] == a.data[i][j] + b.data[i][j]
    ensures r.Ok? ==> r.value == Entrywise(a, b, Plus)
  {
    r := Combine(a, b, Plus, AddMismatch);
  }

  method DotMultiply(a: Tensor2D, b: Tensor2D) returns (r: Result<Tensor2D>)
    requires a.rows == b.rows && a.cols == b.cols ==> a.Readable() && b.Readable()
    ensures (a.rows != b.rows || a.cols != b.cols) ==> r == Panic(DotMultiplyMismatch)
    ensures (a.rows == b.rows && a.cols == b.cols) ==> r.Ok? && r.value.HasShape(a.rows, a.cols)
    ensures r.Ok? ==> forall i, j :: 0 <= i < a.rows && 0 <= j < a.cols ==> r.value.data[i][j] == a.data[i][j] * b.data[i][j]
    ensures r.Ok? ==> r.value == Entrywise(a, b, Times)
  {
    r := Combine(a, b, Times, DotMultiplyMismatch);
  }

  method Subtract(a: Tensor2D, b: Tensor2D) returns (r: Result<Tensor2D>)
    requires a.rows == b.rows && a.cols == b.cols ==> a.Readable() && b.Readable()
    ensures (a.rows != b.rows || a.cols != b.cols) ==> r == Panic(SubtractMismatch)
    ensures (a.rows == b.rows && a.cols == b.cols) ==> r.Ok? && r.value.HasShape(a.rows, a.cols)
    ensures r.Ok? ==> forall i, j :: 0 <= i < a.rows && 0 <= j < a.cols ==> r.value.data[i][j] == a.data[i][j] - b.data[i][j]
    ensures r.Ok? ==> r.value == Entrywise(a, b, Minus)
  {
    r := Combine(a, b, Minus, SubtractMismatch);
  }

  /**
   * Transposition reads entry (i, j) for every i below `rows` and j below
   * `cols`, so it needs those entries and ignores any others; the result is
   * `cols` x `rows` with res[j][i] == a[i][j].
   */
  method Transpose(a: Tensor2D) returns (t: Tensor2D)
    requires a.Readable()
    ensures t == Transposed(a)
  {
    t := Zeros(a.cols, a.rows);
    for i := 0 to a.rows
      invariant t.HasShape(a.cols, a.rows)
      invariant forall i', j :: 0 <= i' < i && 0 <= j < a.cols ==> t.data[j][i'] == a.data[i'][j]
    {
      for j := 0 to a.cols
        invariant t.HasShape(a.cols, a.rows)
        invariant forall i', j' :: 0 <= i' < i && 0 <= j' < a.cols ==> t.data[j'][i'] == a.data[i'][j']
        invariant forall j' :: 0 <= j' < j ==> t.data[j'][i] == a.data[i][j']
      {
        t := t.(data := t.data[j := t.data[j][i := a.data[i][j]]]);
      }
    }
    Extensionality(t, Transposed(a));
  }

  // ---------------------------------------------------------------------------
  // Algebraic laws

  /** Transposing twice gives back the original matrix, including 0-row and 0-column ones. */
  lemma TransposeInvolution(a: Tensor2D)
    requires a.Valid()
    ensures Transposed(Transposed(a)) == a
  {
    Extensionality(Transposed(Transposed(a)), a);
  }

  lemma AddCommutes(a: Tensor2D, b: Tensor2D)
    requires a.Valid() && b.HasShape(a.rows, a.cols)
    ensures Entrywise(a, b, Plus) == Entrywise(b, a, Plus)
  {
    Extensionality(Entrywise(a, b, Plus), Entrywise(b, a, Plus));
  }

  lemma DotMultiplyCommutes(a: Tensor2D, b: Tensor2D)
    requires a.Valid() && b.HasShape(a.rows, a.cols)
    ensures Entrywise(a, b, Times) == Entrywise(b, a, Times)
  {
    Extensionality(Entrywise(a, b, Times), Entrywise(b, a, Times));
  }

  lemma SubtractSelfIsZero(a: Tensor2D)
    requires a.Valid()
    ensures Entrywise(a, a, Minus) == Zeros(a.rows, a.cols)
  {
    Extensionality(Entrywise(a, a, Minus), Zeros(a.rows, a.cols));
  }

  lemma MapIdentity(a: Tensor2D)
    requires a.Valid() && a.rows > 0
    ensures Map(a, x => x) == a
  {
    Extensionality(Map(a, x => x), a);
  }

  /** Adding the zero matrix changes nothing. */
  lemma AddZero(a: Tensor2D)
    requires a.Valid()
    ensures Entrywise(a, Zeros(a.rows, a.cols), Plus) == a
  {
    Extensionality(Entrywise(a, Zeros(a.rows, a.cols), Plus), a);
  }

  /** The Hadamard product with the zero matrix is the zero matrix. */
  lemma DotMultiplyZero(a: Tensor2D)
    requires a.Valid()
    ensures Entrywise(a, Zeros(a.rows, a.cols), Times) == Zeros(a.rows, a.cols)
  {
    Extensionality(Entrywise(a, Zeros(a.rows, a.cols), Times), Zeros(a.rows, a.cols));
  }

  /** A map that fixes 0 sends a zero matrix to itself. */
  lemma MapZero(rows: nat, cols: nat, f: real -> real)
    requires rows > 0 && f(0.0) == 0.0
    ensures Map(Zeros(rows, cols), f) == Zeros(rows, cols)
  {
    Extensionality(Map(Zeros(rows, cols), f), Zeros(rows, cols));
  }

  lemma {:induction false} DotZeroLeft(a: Tensor2D, b: Tensor2D, i: nat, j: nat, n: nat)
    requires a.Valid() && b.Valid() && i < a.rows && j < b.cols && n <= a.cols && n <= b.rows
    requires forall k :: 0 <= k < a.cols ==> a.data[i][k] == 0.0
    ensures Dot(a, b, i, j, n) == 0.0
  {
    if n > 0 {
      DotZeroLeft(a, b, i, j, n - 1);
    }
  }

  lemma {:induction false} DotZeroRight(a: Tensor2D, b: Tensor2D, i: nat, j: nat, n: nat)
    requires a.Valid() && b.Valid() && i < a.rows && j < b.cols && n <= a.cols && n <= b.rows
    requires forall k :: 0 <= k < b.rows ==> b.data[k][j] == 0.0
    ensures Dot(a, b, i, j, n) == 0.0
  {
    if n > 0 {
      DotZeroRight(a, b, i, j, n - 1);
    }
  }

  /** Multiplying the zero matrix by anything gives the zero matrix. */
  lemma ProductZeroLeft(m: nat, b: Tensor2D)
    requires b.Valid()
    ensures Product(Zeros(m, b.rows), b) == Zeros(m, b.cols)
  {
    var z := Zeros(m, b.rows);
    forall i, j | 0 <= i < m && 0 <= j < b.cols
      ensures Dot(z, b, i, j, b.rows) == 0.0
    {
      DotZeroLeft(z, b, i, j, b.rows);
    }
    Extensionality(Product(z, b), Zeros(m, b.cols));
  }

  /** Multiplying anything by the zero matrix gives the zero matrix. */
  lemma ProductZeroRight(a: Tensor2D, p: nat)
    requires a.Valid()
    ensures Product(a, Zeros(a.cols, p)) == Zeros(a.rows, p)
  {
    var z := Zeros(a.cols, p);
    forall i, j | 0 <= i < a.rows && 0 <= j < p
      ensures Dot(a, z, i, j, a.cols) == 0.0
    {
      DotZeroRight(a, z, i, j, a.cols);
    }
    Extensionality(Product(a, z), Zeros(a.rows, p));
  }

  lemma {:induction false} DotTransposed(a: Tensor2D, b: Tensor2D, i: nat, j: nat, n: nat)
    requires a.Valid() && b.Valid() && a.cols == b.rows
    requires i < a.rows && j < b.cols && n <= a.cols
    ensures Dot(Transposed(b), Transposed(a), j, i, n) == Dot(a, b, i, j, n)
  {
    if n > 0 {
      DotTransposed(a, b, i, j, n - 1);
    }
  }

  /** The transpose of a product is the product of the transposes in reverse order. */
  lemma ProductTransposed(a: Tensor2D, b: Tensor2D)
    requires a.Valid() && b.Valid() && a.cols == b.rows
    ensures Transposed(Product(a, b)) == Product(Transposed(b), Transposed(a))
  {
    forall i, j | 0 <= i < a.rows && 0 <= j < b.cols
      ensures Dot(Transposed(b), Transposed(a), j, i, a.cols) == Dot(a, b, i, j, a.cols)
    {
      DotTransposed(a, b, i, j, a.cols);
    }
    Extensionality(Transposed(Product(a, b)), Product(Transposed(b), Transposed(a)));
  }
}
