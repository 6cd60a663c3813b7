/**
 * A dense matrix of reals stored as one row-major buffer of Count(rows, cols)
 * elements, with the bounds- and shape-checked operations of the toolbox's
 * Matrix class.
 *
 * The value of a matrix is a `Grid`; the functions on grids specify each
 * operation, and the class `Matrix` implements them with the source's loops.
 */
module Matrices {
  import opened Wrappers

  /** The exceptions the operations throw, with their messages. */
  datatype MatrixError = InvalidArgument(what: string) | OutOfRange(what: string)

  // ------------------------------------------------------------------
  // Row-major index arithmetic
  // ------------------------------------------------------------------

  /**
   * Count(rows, cols), the length of the buffer, written as repeated addition so
   * that the verifier treats it as a quantity of its own rather than as
   * non-linear arithmetic; CountIsProduct ties it to multiplication.
   */
  function Count(rows: nat, cols: nat): nat
  {
    if rows == 0 then 0 else Count(rows - 1, cols) + cols
  }

  lemma {:induction false} CountIsProduct(rows: nat, cols: nat)
    ensures Count(rows, cols) == rows * cols
  {
    if rows > 0 {
      CountIsProduct(rows - 1, cols);
      assert (rows - 1) * cols + cols == rows * cols;
    }
  }

  lemma {:induction false} CountMonotonic(a: nat, b: nat, cols: nat)
    requires a <= b
    ensures Count(a, cols) <= Count(b, cols)
  {
    if a < b { CountMonotonic(a, b - 1, cols); }
  }

  lemma {:induction false} CountZeroCols(rows: nat)
    ensures Count(rows, 0) == 0
  {
    if rows > 0 { CountZeroCols(rows - 1); }
  }

  /** Flat position i * cols + j of element (i, j) in a buffer whose rows are `cols` long. */
  function Offset(cols: nat, i: nat, j: nat): nat { Count(i, cols) + j }

  /** The row of flat position k (k / cols). */
  function RowOf(cols: nat, k: nat): nat
    requires cols > 0
  {
    if k < cols then 0 else RowOf(cols, k - cols) + 1
  }

  /** The column of flat position k (k % cols). */
  function ColOf(cols: nat, k: nat): (j: nat)
    requires cols > 0
    ensures j < cols
  {
    if k < cols then k else ColOf(cols, k - cols)
  }

  /** Every element of an r x c matrix lies inside its buffer. */
  lemma OffsetInRange(rows: nat, cols: nat, i: nat, j: nat)
    requires i < rows && j < cols
    ensures Offset(cols, i, j) < Count(rows, cols)
  {
    CountMonotonic(i + 1, rows, cols);
  }

  /** Distinct elements occupy distinct positions. */
  lemma OffsetInjective(cols: nat, i: nat, j: nat, i2: nat, j2: nat)
    requires j < cols && j2 < cols
    requires Offset(cols, i, j) == Offset(cols, i2, j2)
    ensures i == i2 && j == j2
  {
    if i < i2 {
      CountMonotonic(i + 1, i2, cols);
    } else if i2 < i {
      CountMonotonic(i2 + 1, i, cols);
    }
  }

  lemma {:induction false} OffsetOfSplit(cols: nat, k: nat)
    requires cols > 0
    ensures Offset(cols, RowOf(cols, k), ColOf(cols, k)) == k
  {
    if k >= cols { OffsetOfSplit(cols, k - cols); }
  }

  /** Every position of the buffer holds some element. */
  lemma OffsetSplit(rows: nat, cols: nat, k: nat)
    requires k < Count(rows, cols)
    ensures cols > 0 && RowOf(cols, k) < rows && ColOf(cols, k) < cols
    ensures Offset(cols, RowOf(cols, k), ColOf(cols, k)) == k
  {
    if cols == 0 {
      CountZeroCols(rows);
      assert false;
    } else {
      OffsetOfSplit(cols, k);
      if RowOf(cols, k) >= rows { CountMonotonic(rows, RowOf(cols, k), cols); }
    }
  }

  /** A whole row lies inside the buffer. */
  lemma RowInRange(rows: nat, cols: nat, r: nat)
    requires r < rows
    ensures Offset(cols, r, 0) + cols <= Count(rows, cols)
  {
    CountMonotonic(r + 1, rows, cols);
  }

  /** Element (i, j) lies in the stretch of row r exactly when i == r. */
  lemma OffsetInRow(cols: nat, i: nat, j: nat, r: nat)
    requires j < cols
    ensures Offset(cols, r, 0) <= Offset(cols, i, j) < Offset(cols, r, 0) + cols <==> i == r
  {
    if i < r {
      CountMonotonic(i + 1, r, cols);
    } else if r < i {
      CountMonotonic(r + 1, i, cols);
    }
  }

  // ------------------------------------------------------------------
  // Matrix values
  // ------------------------------------------------------------------

  /** A matrix value: its shape and its row-major buffer. */
  datatype Grid = Grid(rows: nat, cols: nat, cells: seq<real>) {

    /** The buffer holds exactly Count(rows, cols) elements. */
    predicate WellFormed() { |cells| == Count(rows, cols) }

    predicate IsRowVector() { rows == 1 }

    predicate IsColVector() { cols == 1 }

    /** A 0 x 0 matrix is not square. */
    predicate IsSquare() { rows != 0 && rows == cols }

    /** Element (i, j), for in-range indices. */
    function At(i: nat, j: nat): real
      requires WellFormed() && i < rows && j < cols
    {
      OffsetInRange(rows, cols, i, j);
      cells[Offset(cols, i, j)]
    }

    /** The same matrix with element (i, j) replaced by x. */
    function Updated(i: nat, j: nat, x: real): (g: Grid)
      requires WellFormed() && i < rows && j < cols
      ensures g.WellFormed() && g.rows == rows && g.cols == cols
      ensures Offset(cols, i, j) < |cells| && g.cells == cells[Offset(cols, i, j) := x]
      ensures forall p: nat, q: nat | p < rows && q < cols ::
                g.At(p, q) == if p == i && q == j then x else At(p, q)
    {
      OffsetInRange(rows, cols, i, j);
      var g := Grid(rows, cols, cells[Offset(cols, i, j) := x]);
      forall p: nat, q: nat | p < rows && q < cols
        ensures g.At(p, q) == if p == i && q == j then x else At(p, q)
      {
        OffsetInRange(rows, cols, p, q);
        if Offset(cols, p, q) == Offset(cols, i, j) { OffsetInjective(cols, p, q, i, j); }
      }
      g
    }
  }

  /** Two well-formed matrices of one shape that agree on every element are equal. */
  lemma SameElements(a: Grid, b: Grid)
    requires a.WellFormed() && b.WellFormed() && a.rows == b.rows && a.cols == b.cols
    requires forall i: nat, j: nat | i < a.rows && j < a.cols :: a.At(i, j) == b.At(i, j)
    ensures a == b
  {
    forall k | 0 <= k < |a.cells| ensures a.cells[k] == b.cells[k] {
      OffsetSplit(a.rows, a.cols, k);
      assert a.At(RowOf(a.cols, k), ColOf(a.cols, k)) == b.At(RowOf(a.cols, k), ColOf(a.cols, k));
    }
  }

  /** A new r x c matrix holds r * c zeros. */
  function Zeros(rows: nat, cols: nat): (g: Grid)
    ensures g.WellFormed() && g.rows == rows && g.cols == cols
    ensures forall i: nat, j: nat | i < rows && j < cols :: g.At(i, j) == 0.0
  {
    var g := Grid(rows, cols, seq(Count(rows, cols), _ => 0.0));
    forall i: nat, j: nat | i < rows && j < cols ensures g.At(i, j) == 0.0 {
      OffsetInRange(rows, cols, i, j);
    }
    g
  }

  /** Checked access through the non-const operator(): the row is checked first, then the column. */
  function Element(g: Grid, i: nat, j: nat): (r: Result<real, MatrixError>)
    requires g.WellFormed()
    ensures r.Failure? <==> i >= g.rows || j >= g.cols
    ensures i >= g.rows ==> r == Failure(OutOfRange("operator(): row"))
    ensures i < g.rows && j >= g.cols ==> r == Failure(OutOfRange("operator(): column"))
    ensures r.Success? ==> Offset(g.cols, i, j) < |g.cells| && r.value == g.cells[Offset(g.cols, i, j)]
  {
    if i >= g.rows then Failure(OutOfRange("operator(): row"))
    else if j >= g.cols then Failure(OutOfRange("operator(): column"))
    else OffsetInRange(g.rows, g.cols, i, j); Success(g.At(i, j))
  }

  /**
   * Access through the const operator(), which checks nothing: any pair whose
   * flat position lies inside the buffer is accepted.
   */
  function Peek(g: Grid, i: nat, j: nat): (r: real)
    requires Offset(g.cols, i, j) < |g.cells|
    ensures r in g.cells
  {
    g.cells[Offset(g.cols, i, j)]
  }

  /** Unchecked access agrees with checked access on in-range indices... */
  lemma PeekInRange(g: Grid, i: nat, j: nat)
    requires g.WellFormed() && i < g.rows && j < g.cols
    ensures Offset(g.cols, i, j) < |g.cells| && Element(g, i, j) == Success(Peek(g, i, j))
  {
    OffsetInRange(g.rows, g.cols, i, j);
  }

  /** ...but a column one past the end silently reads the first element of the next row. */
  lemma PeekPastRowEnd(g: Grid, i: nat)
    requires g.WellFormed() && i + 1 < g.rows && g.cols > 0
    ensures Offset(g.cols, i, g.cols) < |g.cells| && Element(g, i, g.cols).Failure?
    ensures Peek(g, i, g.cols) == g.At(i + 1, 0)
  {
    OffsetInRange(g.rows, g.cols, i + 1, 0);
  }

  // ------------------------------------------------------------------
  // Specifications of the value-returning operations
  // ------------------------------------------------------------------

  /** operator+: element-wise sum of two matrices of one shape. */
  function Sum(a: Grid, b: Grid): (r: Result<Grid, MatrixError>)
    requires a.WellFormed() && b.WellFormed()
    ensures r.Failure? <==> a.rows != b.rows || a.cols != b.cols
    ensures r.Failure? ==> r.error == InvalidArgument("operator+: Cannot add matrices of different size")
    ensures r.Success? ==> r.value.WellFormed() && r.value.rows == a.rows && r.value.cols == a.cols
    ensures r.Success? ==> forall i: nat, j: nat | i < a.rows && j < a.cols ::
              r.value.At(i, j) == a.At(i, j) + b.At(i, j)
  {
    if a.rows != b.rows || a.cols != b.cols then
      Failure(InvalidArgument("operator+: Cannot add matrices of different size"))
    else
      var r := Grid(a.rows, a.cols, seq(|a.cells|, k requires 0 <= k < |a.cells| => a.cells[k] + b.cells[k]));
      assert forall i: nat, j: nat | i < a.rows && j < a.cols :: r.At(i, j) == a.At(i, j) + b.At(i, j) by {
        forall i: nat, j: nat | i < a.rows && j < a.cols ensures r.At(i, j) == a.At(i, j) + b.At(i, j) {
          OffsetInRange(a.rows, a.cols, i, j);
        }
      }
      Success(r)
  }

  /** operator-: element-wise difference of two matrices of one shape. */
  function Difference(a: Grid, b: Grid): (r: Result<Grid, MatrixError>)
    requires a.WellFormed() && b.WellFormed()
    ensures r.Failure? <==> a.rows != b.rows || a.cols != b.cols
    ensures r.Failure? ==> r.error == InvalidArgument("operator-: Cannot subtract matrices of different size")
    ensures r.Success? ==> r.value.WellFormed() && r.value.rows == a.rows && r.value.cols == a.cols
    ensures r.Success? ==> forall i: nat, j: nat | i < a.rows && j < a.cols ::
              r.value.At(i, j) == a.At(i, j) - b.At(i, j)
  {
    if a.rows != b.rows || a.cols != b.cols then
      Failure(InvalidArgument("operator-: Cannot subtract matrices of different size"))
    else
      var r := Grid(a.rows, a.cols, seq(|a.cells|, k requires 0 <= k < |a.cells| => a.cells[k] - b.cells[k]));
      assert forall i: nat, j: nat | i < a.rows && j < a.cols :: r.At(i, j) == a.At(i, j) - b.At(i, j) by {
        forall i: nat, j: nat | i < a.rows && j < a.cols ensures r.At(i, j) == a.At(i, j) - b.At(i, j) {
          OffsetInRange(a.rows, a.cols, i, j);
        }
      }
      Success(r)
  }

  /** Subtracting what was added gives back the original matrix. */
  lemma SumThenDifference(a: Grid, b: Grid)
    requires a.WellFormed() && b.WellFormed() && a.rows == b.rows && a.cols == b.cols
    ensures Sum(a, b).Success? && Difference(Sum(a, b).value, b) == Success(a)
  {
    var s := Sum(a, b).value;
    SameElements(Difference(s, b).value, a);
  }

  /** operator*: every element scaled; the shape is kept. */
  function Scaled(a: Grid, scalar: real): (r: Grid)
    requires a.WellFormed()
    ensures r.WellFormed() && r.rows == a.rows && r.cols == a.cols
    ensures forall i: nat, j: nat | i < a.rows && j < a.cols :: r.At(i, j) == a.At(i, j) * scalar
  {
    var r := Grid(a.rows, a.cols, seq(|a.cells|, k requires 0 <= k < |a.cells| => a.cells[k] * scalar));
    assert forall i: nat, j: nat | i < a.rows && j < a.cols :: r.At(i, j) == a.At(i, j) * scalar by {
      forall i: nat, j: nat | i < a.rows && j < a.cols ensures r.At(i, j) == a.At(i, j) * scalar {
        OffsetInRange(a.rows, a.cols, i, j);
      }
    }
    r
  }

  /** Scaling by a non-zero factor is undone by scaling by its inverse. */
  lemma ScaledInverse(a: Grid, scalar: real)
    requires a.WellFormed() && scalar != 0.0
    ensures Scaled(Scaled(a, scalar), 1.0 / scalar) == a
  {
    SameElements(Scaled(Scaled(a, scalar), 1.0 / scalar), a);
  }

  /** Transpose: a cols x rows matrix whose (j, i) element is this matrix's (i, j). */
  function Transposed(a: Grid): (r: Grid)
    requires a.WellFormed()
    ensures r.WellFormed() && r.rows == a.cols && r.cols == a.rows
    ensures forall i: nat, j: nat | i < a.rows && j < a.cols :: r.At(j, i) == a.At(i, j)
  {
    var r := Grid(a.cols, a.rows, seq(Count(a.cols, a.rows), k requires 0 <= k < Count(a.cols, a.rows) =>
                (OffsetSplit(a.cols, a.rows, k); a.At(ColOf(a.rows, k), RowOf(a.rows, k)))));
    forall i: nat, j: nat | i < a.rows && j < a.cols ensures r.At(j, i) == a.At(i, j) {
      var k := Offset(a.rows, j, i);
      OffsetInRange(a.cols, a.rows, j, i);
      OffsetSplit(a.cols, a.rows, k);
      OffsetInjective(a.rows, j, i, RowOf(a.rows, k), ColOf(a.rows, k));
    }
    r
  }

  /** Transposing twice gives back the original matrix. */
  lemma TransposeTwice(a: Grid)
    requires a.WellFormed()
    ensures Transposed(Transposed(a)) == a
  {
    SameElements(Transposed(Transposed(a)), a);
  }

  /** Transposition exchanges row and column vectors and keeps squareness. */
  lemma TransposeShapes(a: Grid)
    requires a.WellFormed()
    ensures Transposed(a).IsColVector() <==> a.IsRowVector()
    ensures Transposed(a).IsRowVector() <==> a.IsColVector()
    ensures Transposed(a).IsSquare() <==> a.IsSquare()
  {}

  /** x[0] * y[0] + ... + x[n - 1] * y[n - 1], accumulated left to right. */
  function SumOfProducts(x: seq<real>, y: seq<real>, n: nat): real
    requires n <= |x| && n <= |y|
  {
    if n == 0 then 0.0 else SumOfProducts(x, y, n - 1) + x[n - 1] * y[n - 1]
  }

  /** DotProduct: both operands one-dimensional with equally many elements. */
  function Dot(a: Grid, b: Grid): (r: Result<real, MatrixError>)
    requires a.WellFormed() && b.WellFormed()
    ensures r.Success? <==>
              (a.IsRowVector() || a.IsColVector()) && (b.IsRowVector() || b.IsColVector()) && |a.cells| == |b.cells|
    ensures !(a.IsRowVector() || a.IsColVector()) ==>
              r == Failure(InvalidArgument("DotProduct: This matrix is not one-dimensional"))
    ensures (a.IsRowVector() || a.IsColVector()) && !(b.IsRowVector() || b.IsColVector()) ==>
              r == Failure(InvalidArgument("DotProduct: The other matrix is not one-dimensional"))
    ensures (a.IsRowVector() || a.IsColVector()) && (b.IsRowVector() || b.IsColVector()) && |a.cells| != |b.cells| ==>
              r == Failure(InvalidArgument("DotProduct: The matrices are not the same size"))
    ensures r.Success? ==> r.value == SumOfProducts(a.cells, b.cells, |a.cells|)
  {
    if !(a.rows == 1 || a.cols == 1) then
      Failure(InvalidArgument("DotProduct: This matrix is not one-dimensional"))
    else if !(b.rows == 1 || b.cols == 1) then
      Failure(InvalidArgument("DotProduct: The other matrix is not one-dimensional"))
    else if Count(a.rows, a.cols) != Count(b.rows, b.cols) then
      Failure(InvalidArgument("DotProduct: The matrices are not the same size"))
    else
      Success(SumOfProducts(a.cells, b.cells, Count(a.rows, a.cols)))
  }

  lemma {:induction false} SumOfProductsSymmetric(x: seq<real>, y: seq<real>, n: nat)
    requires n <= |x| && n <= |y|
    ensures SumOfProducts(x, y, n) == SumOfProducts(y, x, n)
  {
    if n > 0 { SumOfProductsSymmetric(x, y, n - 1); }
  }

  lemma {:induction false} SumOfSquaresNonNegative(x: seq<real>, n: nat)
    requires n <= |x|
    ensures SumOfProducts(x, x, n) >= 0.0
  {
    if n > 0 { SumOfSquaresNonNegative(x, n - 1); }
  }

  /** When both dot products are defined they agree. */
  lemma DotSymmetric(a: Grid, b: Grid)
    requires a.WellFormed() && b.WellFormed() && Dot(a, b).Success?
    ensures Dot(b, a) == Dot(a, b)
  {
    SumOfProductsSymmetric(a.cells, b.cells, |a.cells|);
  }

  /** The dot product of a vector with itself is never negative. */
  lemma DotSelfNonNegative(a: Grid)
    requires a.WellFormed() && Dot(a, a).Success?
    ensures Dot(a, a).value >= 0.0
  {
    SumOfSquaresNonNegative(a.cells, |a.cells|);
  }

  /** a(i, 0) * b(0, j) + ... + a(i, n - 1) * b(n - 1, j), accumulated left to right. */
  function RowTimesCol(a: Grid, b: Grid, i: nat, j: nat, n: nat): real
    requires a.WellFormed() && b.WellFormed() && i < a.rows && j < b.cols && n <= a.cols && n <= b.rows
  {
    if n == 0 then 0.0 else RowTimesCol(a, b, i, j, n - 1) + a.At(i, n - 1) * b.At(n - 1, j)
  }

  /** Multiply: needs cols == other.rows; the result is rows x other.cols. */
  function Product(a: Grid, b: Grid): (r: Result<Grid, MatrixError>)
    requires a.WellFormed() && b.WellFormed()
    ensures r.Failure? <==> a.cols != b.rows
    ensures r.Failure? ==> r.error == InvalidArgument(
              "Multiply: Number of rows in other matrix must equal the number of columns in this")
    ensures r.Success? ==> r.value.WellFormed() && r.value.rows == a.rows && r.value.cols == b.cols
    ensures r.Success? ==> forall i: nat, j: nat | i < a.rows && j < b.cols ::
              r.value.At(i, j) == RowTimesCol(a, b, i, j, a.cols)
  {
    if a.cols != b.rows then
      Failure(InvalidArgument("Multiply: Number of rows in other matrix must equal the number of columns in this"))
    else
      var r := Grid(a.rows, b.cols, seq(Count(a.rows, b.cols), k requires 0 <= k < Count(a.rows, b.cols) =>
                  (OffsetSplit(a.rows, b.cols, k); RowTimesCol(a, b, RowOf(b.cols, k), ColOf(b.cols, k), a.cols))));
      assert forall i: nat, j: nat | i < a.rows && j < b.cols :: r.At(i, j) == RowTimesCol(a, b, i, j, a.cols) by {
        forall i: nat, j: nat | i < a.rows && j < b.cols ensures r.At(i, j) == RowTimesCol(a, b, i, j, a.cols) {
          var k := Offset(b.cols, i, j);
          OffsetInRange(a.rows, b.cols, i, j);
          OffsetSplit(a.rows, b.cols, k);
          OffsetInjective(b.cols, i, j, RowOf(b.cols, k), ColOf(b.cols, k));
        }
      }
      Success(r)
  }

  /** Row i of a times column j of b is column i of a's transpose times row j of b's transpose. */
  lemma {:induction false} RowTimesColTransposed(a: Grid, b: Grid, at: Grid, bt: Grid, i: nat, j: nat, n: nat)
    requires a.WellFormed() && b.WellFormed() && at.WellFormed() && bt.WellFormed()
    requires at.rows == a.cols && at.cols == a.rows && bt.rows == b.cols && bt.cols == b.rows
    requires forall p: nat, q: nat | p < a.rows && q < a.cols :: at.At(q, p) == a.At(p, q)
    requires forall p: nat, q: nat | p < b.rows && q < b.cols :: bt.At(q, p) == b.At(p, q)
    requires i < a.rows && j < b.cols && n <= a.cols && n <= b.rows
    ensures RowTimesCol(bt, at, j, i, n) == RowTimesCol(a, b, i, j, n)
  {
    if n > 0 {
      RowTimesColTransposed(a, b, at, bt, i, j, n - 1);
      assert bt.At(j, n - 1) == b.At(n - 1, j);
      assert at.At(n - 1, i) == a.At(i, n - 1);
    }
  }

  /** The transpose of a product is the product of the transposes in reverse order. */
  lemma ProductTransposed(a: Grid, b: Grid)
    requires a.WellFormed() && b.WellFormed() && a.cols == b.rows
    ensures Product(a, b).Success? && Product(Transposed(b), Transposed(a)).Success?
    ensures Transposed(Product(a, b).value) == Product(Transposed(b), Transposed(a)).value
  {
    var left := Transposed(Product(a, b).value);
    var right := Product(Transposed(b), Transposed(a)).value;
    forall j: nat, i: nat | j < b.cols && i < a.rows ensures left.At(j, i) == right.At(j, i) {
      RowTimesColTransposed(a, b, Transposed(a), Transposed(b), i, j, a.cols);
    }
    SameElements(left, right);
  }

  /** GetRow: a 1 x cols copy of row `index`. */
  function Row(a: Grid, index: nat): (r: Result<Grid, MatrixError>)
    requires a.WellFormed()
    ensures r.Failure? <==> index >= a.rows
    ensures r.Failure? ==> r.error == InvalidArgument("GetRow: Row does not exist")
    ensures r.Success? ==> r.value.WellFormed() && r.value.rows == 1 && r.value.cols == a.cols
    ensures r.Success? ==> forall j: nat | j < a.cols :: r.value.At(0, j) == a.At(index, j)
  {
    if index >= a.rows then
      Failure(InvalidArgument("GetRow: Row does not exist"))
    else
      RowInRange(a.rows, a.cols, index);
      var start := Offset(a.cols, index, 0);
      Success(Grid(1, a.cols, a.cells[start .. start + a.cols]))
  }

  /** AddRowToRow: checks the vector, then its length, then the index; only row `rowIndex` changes. */
  function RowAdded(a: Grid, rowIndex: nat, v: Grid): (r: Result<Grid, MatrixError>)
    requires a.WellFormed() && v.WellFormed()
    ensures r.Failure? <==> !v.IsRowVector() || v.cols != a.cols || rowIndex >= a.rows
    ensures !v.IsRowVector() ==> r == Failure(InvalidArgument("AddToRow: Not a row vector"))
    ensures v.IsRowVector() && v.cols != a.cols ==> r == Failure(InvalidArgument("AddToRow: Column count mismatch"))
    ensures v.IsRowVector() && v.cols == a.cols && rowIndex >= a.rows ==>
              r == Failure(InvalidArgument("AddRow: Invalid row index"))
    ensures r.Success? ==> r.value.WellFormed() && r.value.rows == a.rows && r.value.cols == a.cols
    ensures r.Success? ==> forall i: nat, j: nat | i < a.rows && j < a.cols ::
              r.value.At(i, j) == if i == rowIndex then a.At(i, j) + v.At(0, j) else a.At(i, j)
  {
    if !v.IsRowVector() then Failure(InvalidArgument("AddToRow: Not a row vector"))
    else if v.cols != a.cols then Failure(InvalidArgument("AddToRow: Column count mismatch"))
    else if rowIndex >= a.rows then Failure(InvalidArgument("AddRow: Invalid row index"))
    else
      var start := Offset(a.cols, rowIndex, 0);
      var r := Grid(a.rows, a.cols, seq(|a.cells|, k requires 0 <= k < |a.cells| =>
                  if start <= k < start + a.cols then a.cells[k] + v.cells[k - start] else a.cells[k]));
      assert forall i: nat, j: nat | i < a.rows && j < a.cols ::
               r.At(i, j) == if i == rowIndex then a.At(i, j) + v.At(0, j) else a.At(i, j) by {
        forall i: nat, j: nat | i < a.rows && j < a.cols
          ensures r.At(i, j) == if i == rowIndex then a.At(i, j) + v.At(0, j) else a.At(i, j)
        {
          OffsetInRow(a.cols, i, j, rowIndex);
          OffsetInRange(a.rows, a.cols, i, j);
        }
      }
      Success(r)
  }

  /** Adding a row vector and then its negation to the same row restores the matrix. */
  lemma AddRowThenSubtract(a: Grid, rowIndex: nat, v: Grid)
    requires a.WellFormed() && v.WellFormed() && RowAdded(a, rowIndex, v).Success?
    ensures RowAdded(RowAdded(a, rowIndex, v).value, rowIndex, Scaled(v, -1.0)) == Success(a)
  {
    var once := RowAdded(a, rowIndex, v).value;
    SameElements(RowAdded(once, rowIndex, Scaled(v, -1.0)).value, a);
  }

  /** The row that row i holds after exchanging rows r1 and r2. */
  function SwappedIndex(i: nat, r1: nat, r2: nat): nat
  {
    if i == r1 then r2 else if i == r2 then r1 else i
  }

  /** The buffer with the n-element stretches starting at o1 and o2 exchanged. */
  function SwapSpans(cells: seq<real>, o1: nat, o2: nat, n: nat): (s: seq<real>)
    requires o1 + n <= |cells| && o2 + n <= |cells|
    ensures |s| == |cells|
    ensures forall k | 0 <= k < |s| ::
              s[k] == if o1 <= k < o1 + n then cells[k - o1 + o2]
                      else if o2 <= k < o2 + n then cells[k - o2 + o1]
                      else cells[k]
  {
    seq(|cells|, k requires 0 <= k < |cells| =>
      if o1 <= k < o1 + n then cells[k - o1 + o2]
      else if o2 <= k < o2 + n then cells[k - o2 + o1]
      else cells[k])
  }

  /** Element (i, j) after exchanging the stretches of rows r1 and r2 comes from row SwappedIndex(i). */
  lemma SwappedRowsAt(a: Grid, r1: nat, r2: nat, i: nat, j: nat)
    requires a.WellFormed() && r1 < a.rows && r2 < a.rows && i < a.rows && j < a.cols
    requires Offset(a.cols, r1, 0) + a.cols <= |a.cells| && Offset(a.cols, r2, 0) + a.cols <= |a.cells|
    ensures Grid(a.rows, a.cols, SwapSpans(a.cells, Offset(a.cols, r1, 0), Offset(a.cols, r2, 0), a.cols)).At(i, j) ==
            a.At(SwappedIndex(i, r1, r2), j)
  {
    OffsetInRow(a.cols, i, j, r1);
    OffsetInRow(a.cols, i, j, r2);
    OffsetInRange(a.rows, a.cols, i, j);
  }

  /** SwapRows: exchanges two rows; equal indices leave the matrix as it is. */
  function RowsSwapped(a: Grid, r1: nat, r2: nat): (r: Result<Grid, MatrixError>)
    requires a.WellFormed()
    ensures r.Failure? <==> r1 >= a.rows || r2 >= a.rows
    ensures r.Failure? ==> r.error == InvalidArgument("SwapRows: Invalid row index")
    ensures r.Success? ==> r.value.WellFormed() && r.value.rows == a.rows && r.value.cols == a.cols
    ensures r.Success? ==> forall i: nat, j: nat | i < a.rows && j < a.cols ::
              r.value.At(i, j) == a.At(SwappedIndex(i, r1, r2), j)
  {
    if r1 >= a.rows || r2 >= a.rows then
      Failure(InvalidArgument("SwapRows: Invalid row index"))
    else if r1 == r2 then
      Success(a)
    else
      RowInRange(a.rows, a.cols, r1);
      RowInRange(a.rows, a.cols, r2);
      var r := Grid(a.rows, a.cols, SwapSpans(a.cells, Offset(a.cols, r1, 0), Offset(a.cols, r2, 0), a.cols));
      assert forall i: nat, j: nat | i < a.rows && j < a.cols :: r.At(i, j) == a.At(SwappedIndex(i, r1, r2), j) by {
        forall i: nat, j: nat | i < a.rows && j < a.cols ensures r.At(i, j) == a.At(SwappedIndex(i, r1, r2), j) {
          SwappedRowsAt(a, r1, r2, i, j);
        }
      }
      Success(r)
  }

  /** Exchanging one more element of two disjoint stretches is a pair of updates. */
  lemma SwapSpansStep(cells: seq<real>, o1: nat, o2: nat, j: nat)
    requires o1 + j < |cells| && o2 + j < |cells|
    requires o1 + j < o2 || o2 + j < o1
    ensures SwapSpans(cells, o1, o2, j + 1) ==
            SwapSpans(cells, o1, o2, j)[o1 + j := cells[o2 + j]][o2 + j := cells[o1 + j]]
  {
    var s := SwapSpans(cells, o1, o2, j)[o1 + j := cells[o2 + j]][o2 + j := cells[o1 + j]];
    forall k | 0 <= k < |cells| ensures SwapSpans(cells, o1, o2, j + 1)[k] == s[k] { }
  }

  /** Swapping the same two rows twice restores the matrix. */
  lemma SwapRowsTwice(a: Grid, r1: nat, r2: nat)
    requires a.WellFormed() && r1 < a.rows && r2 < a.rows
    ensures RowsSwapped(a, r1, r2).Success?
    ensures RowsSwapped(RowsSwapped(a, r1, r2).value, r1, r2) == Success(a)
  {
    var once := RowsSwapped(a, r1, r2).value;
    SameElements(RowsSwapped(once, r1, r2).value, a);
  }

  // ------------------------------------------------------------------
  // The class
  // ------------------------------------------------------------------

  /** The value a successful operation produced, read out of its fresh Matrix. */
  function Snapshot(r: Result<Matrix, MatrixError>): Result<Grid, MatrixError>
    reads if r.Success? then {r.value} else {}
  {
    match r
    case Success(m) => Success(m.Value())
    case Failure(e) => Failure(e)
  }

  class Matrix {
    const rows: nat
    const cols: nat
    var elements: seq<real>

    ghost predicate Valid()
      reads this
    {
      |elements| == Count(rows, cols)
    }

    function Value(): Grid
      reads this
    {
      Grid(rows, cols, elements)
    }

    /** A new rows x cols matrix of zeros. */
    constructor (rows: nat, cols: nat)
      ensures Valid() && Value() == Zeros(rows, cols)
    {
      this.rows := rows;
      this.cols := cols;
      elements := seq(Count(rows, cols), _ => 0.0);
    }

    /** Assignment through the non-const operator(): bounds-checked, then writes flat index i * cols + j. */
    method Set(i: nat, j: nat, x: real) returns (r: Outcome<MatrixError>)
      requires Valid()
      modifies this
      ensures Valid()
      ensures match Element(old(Value()), i, j)
        case Failure(e) => r == Fail(e) && elements == old(elements)
        case Success(_) => r == Pass && Value() == old(Value()).Updated(i, j, x)
    {
      if i >= rows {
        return Fail(OutOfRange("operator(): row"));
      }
      if j >= cols {
        return Fail(OutOfRange("operator(): column"));
      }
      OffsetInRange(rows, cols, i, j);
      elements := elements[Offset(cols, i, j) := x];
      r := Pass;
    }

    /** operator+ */
    method Plus(other: Matrix) returns (r: Result<Matrix, MatrixError>)
      requires Valid() && other.Valid()
      ensures r.Success? ==> fresh(r.value) && r.value.Valid()
      ensures Snapshot(r) == Sum(Value(), other.Value())
    {
      if rows != other.rows || cols != other.cols {
        return Failure(InvalidArgument("operator+: Cannot add matrices of different size"));
      }
      var m := new Matrix(rows, cols);
      var k := 0;
      while k < Count(rows, cols)
        invariant 0 <= k <= Count(rows, cols)
        invariant m.Valid() && m.rows == rows && m.cols == cols
        invariant forall q | 0 <= q < k :: m.elements[q] == elements[q] + other.elements[q]
      {
        m.elements := m.elements[k := elements[k] + other.elements[k]];
        k := k + 1;
      }
      assert m.elements == Sum(Value(), other.Value()).value.cells;
      r := Success(m);
    }

    /** operator- */
    method Minus(other: Matrix) returns (r: Result<Matrix, MatrixError>)
      requires Valid() && other.Valid()
      ensures r.Success? ==> fresh(r.value) && r.value.Valid()
      ensures Snapshot(r) == Difference(Value(), other.Value())
    {
      if rows != other.rows || cols != other.cols {
        return Failure(InvalidArgument("operator-: Cannot subtract matrices of different size"));
      }
      var m := new Matrix(rows, cols);
      var k := 0;
      while k < Count(rows, cols)
        invariant 0 <= k <= Count(rows, cols)
        invariant m.Valid() && m.rows == rows && m.cols == cols
        invariant forall q | 0 <= q < k :: m.elements[q] == elements[q] - other.elements[q]
      {
        m.elements := m.elements[k := elements[k] - other.elements[k]];
        k := k + 1;
      }
      assert m.elements == Difference(Value(), other.Value()).value.cells;
      r := Success(m);
    }

    /** operator* (scalar multiplication) */
    method Times(scalar: real) returns (m: Matrix)
      requires Valid()
      ensures fresh(m) && m.Valid() && m.Value() == Scaled(Value(), scalar)
    {
      m := new Matrix(rows, cols);
      var k := 0;
      while k < Count(rows, cols)
        invariant 0 <= k <= Count(rows, cols)
        invariant m.Valid() && m.rows == rows && m.cols == cols
        invariant forall q | 0 <= q < k :: m.elements[q] == elements[q] * scalar
      {
        m.elements := m.elements[k := elements[k] * scalar];
        k := k + 1;
      }
      assert forall q | 0 <= q < |elements| :: Scaled(Value(), scalar).cells[q] == elements[q] * scalar;
      assert m.elements == Scaled(Value(), scalar).cells;
    }

    /** Transpose: m(j, i) = this(i, j), row by row. */
    method Transpose() returns (m: Matrix)
      requires Valid()
      ensures fresh(m) && m.Valid() && m.Value() == Transposed(Value())
    {
      m := new Matrix(cols, rows);
      var i := 0;
      while i < rows
        invariant 0 <= i <= rows
        invariant m.Valid() && m.rows == cols && m.cols == rows
        invariant forall p: nat, q: nat | p < rows && q < cols ::
                    m.Value().At(q, p) == if p < i then Value().At(p, q) else 0.0
      {
        var j := 0;
        while j < cols
          invariant 0 <= j <= cols
          invariant m.Valid() && m.rows == cols && m.cols == rows
          invariant forall p: nat, q: nat | p < rows && q < cols ::
                      m.Value().At(q, p) == if p < i || (p == i && q < j) then Value().At(p, q) else 0.0
        {
          var _ := m.Set(j, i, Value().At(i, j));
          j := j + 1;
        }
        i := i + 1;
      }
      SameElements(m.Value(), Transposed(Value()));
    }

    /** DotProduct */
    method DotProduct(other: Matrix) returns (r: Result<real, MatrixError>)
      requires Valid() && other.Valid()
      ensures r == Dot(Value(), other.Value())
    {
      if !(rows == 1 || cols == 1) {
        return Failure(InvalidArgument("DotProduct: This matrix is not one-dimensional"));
      }
      if !(other.rows == 1 || other.cols == 1) {
        return Failure(InvalidArgument("DotProduct: The other matrix is not one-dimensional"));
      }
      if Count(rows, cols) != Count(other.rows, other.cols) {
        return Failure(InvalidArgument("DotProduct: The matrices are not the same size"));
      }
      var dot := 0.0;
      var i := 0;
      while i < Count(rows, cols)
        invariant 0 <= i <= Count(rows, cols)
        invariant dot == SumOfProducts(elements, other.elements, i)
      {
        dot := dot + elements[i] * other.elements[i];
        i := i + 1;
      }
      r := Success(dot);
    }

    /** Multiply: product(i, j) accumulates this(i, k) * other(k, j) over k. */
    method Multiply(other: Matrix) returns (r: Result<Matrix, MatrixError>)
      requires Valid() && other.Valid()
      ensures r.Success? ==> fresh(r.value) && r.value.Valid()
      ensures Snapshot(r) == Product(Value(), other.Value())
    {
      if cols != other.rows {
        return Failure(InvalidArgument("Multiply: Number of rows in other matrix must equal the number of columns in this"));
      }
      var a, b := Value(), other.Value();
      var product := new Matrix(rows, other.cols);
      var i := 0;
      while i < product.rows
        invariant 0 <= i <= rows
        invariant product.Valid() && product.rows == rows && product.cols == other.cols
        invariant forall p: nat, q: nat | p < rows && q < other.cols ::
                    product.Value().At(p, q) == if p < i then RowTimesCol(a, b, p, q, cols) else 0.0
      {
        var j := 0;
        while j < product.cols
          invariant 0 <= j <= other.cols
          invariant product.Valid() && product.rows == rows && product.cols == other.cols
          invariant forall p: nat, q: nat | p < rows && q < other.cols ::
                      product.Value().At(p, q) ==
                        if p < i || (p == i && q < j) then RowTimesCol(a, b, p, q, cols) else 0.0
        {
          product.AccumulateEntry(a, b, i, j);
          j := j + 1;
        }
        i := i + 1;
      }
      SameElements(product.Value(), Product(a, b).value);
      r := Success(product);
    }

    /**
     * The innermost loop of Multiply, run on the product: adds a(i, k) * b(k, j)
     * to element (i, j) for k = 0, 1, ..., a.cols - 1.
     */
    method AccumulateEntry(a: Grid, b: Grid, i: nat, j: nat)
      requires Valid() && a.WellFormed() && b.WellFormed() && a.cols == b.rows
      requires i < rows && j < cols && i < a.rows && j < b.cols
      modifies this
      ensures Valid()
      ensures Value() == old(Value()).Updated(i, j, old(Value()).At(i, j) + RowTimesCol(a, b, i, j, a.cols))
    {
      ghost var start := Value();
      var k := 0;
      while k < a.cols
        invariant 0 <= k <= a.cols
        invariant Valid() && Value() == start.Updated(i, j, start.At(i, j) + RowTimesCol(a, b, i, j, k))
      {
        ghost var before := Value();
        assert before.At(i, j) == start.At(i, j) + RowTimesCol(a, b, i, j, k);
        var _ := Set(i, j, Value().At(i, j) + a.At(i, k) * b.At(k, j));
        OffsetInRange(rows, cols, i, j);
        assert elements == start.cells[Offset(cols, i, j) := before.At(i, j) + a.At(i, k) * b.At(k, j)];
        assert RowTimesCol(a, b, i, j, k + 1) == RowTimesCol(a, b, i, j, k) + a.At(i, k) * b.At(k, j);
        assert start.Updated(i, j, start.At(i, j) + RowTimesCol(a, b, i, j, k + 1)).cells == elements;
        k := k + 1;
      }
    }

    /** GetRow */
    method GetRow(index: nat) returns (r: Result<Matrix, MatrixError>)
      requires Valid()
      ensures r.Success? ==> fresh(r.value) && r.value.Valid()
      ensures Snapshot(r) == Row(Value(), index)
    {
      if index >= rows {
        return Failure(InvalidArgument("GetRow: Row does not exist"));
      }
      var row := new Matrix(1, cols);
      var j := 0;
      while j < cols
        invariant 0 <= j <= cols
        invariant row.Valid() && row.rows == 1 && row.cols == cols
        invariant forall q: nat | q < cols :: row.Value().At(0, q) == if q < j then Value().At(index, q) else 0.0
      {
        var _ := row.Set(0, j, Value().At(index, j));
        j := j + 1;
      }
      SameElements(row.Value(), Row(Value(), index).value);
      r := Success(row);
    }

    /** AddRowToRow: `rowVector` may be this matrix itself. */
    method AddRowToRow(rowIndex: nat, rowVector: Matrix) returns (r: Outcome<MatrixError>)
      requires Valid() && rowVector.Valid()
      modifies this
      ensures Valid()
      ensures match RowAdded(old(Value()), rowIndex, old(rowVector.Value()))
        case Failure(e) => r == Fail(e) && elements == old(elements)
        case Success(g) => r == Pass && Value() == g
    {
      if !(rowVector.rows == 1) {
        return Fail(InvalidArgument("AddToRow: Not a row vector"));
      }
      if rowVector.cols != cols {
        return Fail(InvalidArgument("AddToRow: Column count mismatch"));
      }
      if rowIndex >= rows {
        return Fail(InvalidArgument("AddRow: Invalid row index"));
      }
      RowInRange(rows, cols, rowIndex);
      var offset := Offset(cols, rowIndex, 0);
      var j := 0;
      while j < cols
        invariant 0 <= j <= cols
        invariant |elements| == Count(rows, cols)
        invariant forall q | 0 <= q < |elements| ::
                    elements[q] == if offset <= q < offset + j then old(elements[q]) + old(rowVector.elements[q - offset])
                                   else old(elements[q])
        invariant forall q | j <= q < cols :: rowVector.elements[q] == old(rowVector.elements[q])
      {
        elements := elements[offset + j := elements[offset + j] + rowVector.elements[j]];
        j := j + 1;
      }
      r := Pass;
    }

    /** The loop of SwapRows: exchanges two disjoint n-element stretches of the buffer through a temporary. */
    method SwapSpansInPlace(offset1: nat, offset2: nat, n: nat)
      requires offset1 + n <= |elements| && offset2 + n <= |elements|
      requires offset1 + n <= offset2 || offset2 + n <= offset1
      modifies this
      ensures elements == SwapSpans(old(elements), offset1, offset2, n)
    {
      var j := 0;
      while j < n
        invariant 0 <= j <= n
        invariant elements == SwapSpans(old(elements), offset1, offset2, j)
      {
        SwapSpansStep(old(elements), offset1, offset2, j);
        var temp := elements[offset1 + j];
        elements := elements[offset1 + j := elements[offset2 + j]];
        elements := elements[offset2 + j := temp];
        j := j + 1;
      }
    }

    /** SwapRows: exchanges rows element by element through a temporary. */
    method SwapRows(rowIndex1: nat, rowIndex2: nat) returns (r: Outcome<MatrixError>)
      requires Valid()
      modifies this
      ensures Valid()
      ensures match RowsSwapped(old(Value()), rowIndex1, rowIndex2)
        case Failure(e) => r == Fail(e) && elements == old(elements)
        case Success(g) => r == Pass && Value() == g
    {
      if rowIndex1 >= rows || rowIndex2 >= rows {
        return Fail(InvalidArgument("SwapRows: Invalid row index"));
      }
      if rowIndex1 == rowIndex2 {
        return Pass;
      }
      RowInRange(rows, cols, rowIndex1);
      RowInRange(rows, cols, rowIndex2);
      var offset1 := Offset(cols, rowIndex1, 0);
      var offset2 := Offset(cols, rowIndex2, 0);
      if rowIndex1 < rowIndex2 { CountMonotonic(rowIndex1 + 1, rowIndex2, cols); } else { CountMonotonic(rowIndex2 + 1, rowIndex1, cols); }
      SwapSpansInPlace(offset1, offset2, cols);
      r := Pass;
    }
  }
}
