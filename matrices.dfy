/** Dense real matrices as the PCA code uses them: two-dimensional arrays in place of the
    matrix library's objects, and row-by-row sequences as their mathematical content. */
module Matrices {

  /** `m` has `rows` rows of `cols` entries each. */
  ghost predicate IsMatrix(m: seq<seq<real>>, rows: nat, cols: nat)
  {
    |m| == rows && forall i :: 0 <= i < rows ==> |m[i]| == cols
  }

  /** The entries of an array, row by row. */
  function Cells(a: array2<real>): (c: seq<seq<real>>)
    reads a
    ensures IsMatrix(c, a.Length0, a.Length1)
    ensures forall i, j :: 0 <= i < a.Length0 && 0 <= j < a.Length1 ==> c[i][j] == a[i, j]
  {
    seq(a.Length0, i requires 0 <= i < a.Length0 reads a =>
      seq(a.Length1, j requires 0 <= j < a.Length1 reads a => a[i, j]))
  }

  /** The sum of the products of corresponding entries, accumulated from the first. */
  function Dot(u: seq<real>, v: seq<real>): real
    requires |u| == |v|
  {
    if |u| == 0 then 0.0 else Dot(u[..|u| - 1], v[..|v| - 1]) + u[|u| - 1] * v[|v| - 1]
  }

  /** The order of the two vectors does not matter. */
  lemma {:induction false} DotSymmetric(u: seq<real>, v: seq<real>)
    requires |u| == |v|
    ensures Dot(u, v) == Dot(v, u)
  {
    if |u| > 0 {
      DotSymmetric(u[..|u| - 1], v[..|v| - 1]);
    }
  }

  /** Entry `j` of every row. */
  function Column(m: seq<seq<real>>, j: nat): (col: seq<real>)
    requires forall i :: 0 <= i < |m| ==> j < |m[i]|
    ensures |col| == |m| && forall i :: 0 <= i < |m| ==> col[i] == m[i][j]
  {
    seq(|m|, i requires 0 <= i < |m| => m[i][j])
  }

  /** The `cols` columns of `m`, each as a row. */
  function Transpose(m: seq<seq<real>>, cols: nat): (t: seq<seq<real>>)
    requires forall i :: 0 <= i < |m| ==> |m[i]| == cols
    ensures IsMatrix(t, cols, |m|)
    ensures forall j, i :: 0 <= j < cols && 0 <= i < |m| ==> t[j][i] == m[i][j]
  {
    seq(cols, j requires 0 <= j < cols => Column(m, j))
  }

  /** The matrix product of `a` (rows of `|b|` entries) and `b` (rows of `cols` entries). */
  function Product(a: seq<seq<real>>, b: seq<seq<real>>, cols: nat): (p: seq<seq<real>>)
    requires forall i :: 0 <= i < |a| ==> |a[i]| == |b|
    requires forall k :: 0 <= k < |b| ==> |b[k]| == cols
    ensures IsMatrix(p, |a|, cols)
    ensures forall i, j :: 0 <= i < |a| && 0 <= j < cols ==> p[i][j] == Dot(a[i], Column(b, j))
  {
    seq(|a|, i requires 0 <= i < |a| => seq(cols, j requires 0 <= j < cols => Dot(a[i], Column(b, j))))
  }

  /** The library's `times`: a new array holding the product. */
  method Times(a: array2<real>, b: array2<real>) returns (c: array2<real>)
    requires a.Length1 == b.Length0
    ensures fresh(c) && c.Length0 == a.Length0 && c.Length1 == b.Length1
    ensures forall i, j :: 0 <= i < c.Length0 && 0 <= j < c.Length1 ==>
              c[i, j] == Product(Cells(a), Cells(b), b.Length1)[i][j]
  {
    var p := Product(Cells(a), Cells(b), b.Length1);
    c := new real[a.Length0, b.Length1]((i, j) requires 0 <= i < |p| && 0 <= j < b.Length1 => p[i][j]);
  }

  /** Row-major flattening: the rows one after another. */
  function Flatten(m: seq<seq<real>>): seq<real>
  {
    if |m| == 0 then [] else m[0] + Flatten(m[1..])
  }

  /** A matrix of `rows` rows of `cols` entries flattens to `rows * cols` values. */
  lemma {:induction false} FlattenLength(m: seq<seq<real>>, rows: nat, cols: nat)
    requires IsMatrix(m, rows, cols)
    ensures |Flatten(m)| == rows * cols
  {
    if rows > 0 {
      FlattenLength(m[1..], rows - 1, cols);
      assert rows * cols == cols + (rows - 1) * cols;
    }
  }

  /** Entry (i, j) lands at position `i * cols + j` of the flattening. */
  lemma {:induction false} FlattenAt(m: seq<seq<real>>, rows: nat, cols: nat, i: nat, j: nat)
    requires IsMatrix(m, rows, cols) && i < rows && j < cols
    ensures FlatIndex(i, j, cols) < |Flatten(m)| == rows * cols
    ensures Flatten(m)[FlatIndex(i, j, cols)] == m[i][j]
  {
    FlattenLength(m, rows, cols);
    FlatIndexInBounds(i, j, rows, cols);
    assert Flatten(m) == m[0] + Flatten(m[1..]);
    if i > 0 {
      FlattenAt(m[1..], rows - 1, cols, i - 1, j);
      assert FlatIndex(i, j, cols) == cols + FlatIndex(i - 1, j, cols);
      assert m[1..][i - 1] == m[i];
    } else {
      assert FlatIndex(i, j, cols) == j;
    }
  }

  /** The position of entry (i, j) in a row-major column of rows of `cols` entries. */
  function FlatIndex(i: int, j: int, cols: int): int
  {
    i * cols + j
  }

  /** Every entry of a `rows` by `cols` matrix has a position inside the column. */
  lemma FlatIndexInBounds(i: nat, j: nat, rows: nat, cols: nat)
    requires i < rows && j < cols
    ensures 0 <= FlatIndex(i, j, cols) < rows * cols
  {
    assert (i + 1) * cols <= rows * cols by {
      MultiplyMonotone(i + 1, rows, cols);
    }
  }

  /** Distinct entries have distinct positions. */
  lemma FlatIndexInjective(i: nat, j: nat, i2: nat, j2: nat, cols: nat)
    requires j < cols && j2 < cols
    requires FlatIndex(i, j, cols) == FlatIndex(i2, j2, cols)
    ensures i == i2 && j == j2
  {
    if i < i2 {
      MultiplyMonotone(i + 1, i2, cols);
      assert false;
    } else if i2 < i {
      MultiplyMonotone(i2 + 1, i, cols);
      assert false;
    }
  }

  /** Every position of the column belongs to exactly the entry (k / cols, k % cols). */
  lemma FlatIndexCovers(k: nat, rows: nat, cols: nat)
    requires k < rows * cols
    ensures cols > 0 && k / cols < rows && k % cols < cols
    ensures FlatIndex(k / cols, k % cols, cols) == k
  {
    if k / cols >= rows {
      MultiplyMonotone(rows, k / cols, cols);
      assert false;
    }
  }

  lemma MultiplyMonotone(a: nat, b: nat, c: nat)
    requires a <= b
    ensures a * c <= b * c
  {
  }

  /** The inverse of `Flatten`: position `i * cols + j` of `flat` becomes entry (i, j). */
  function Unflatten(flat: seq<real>, rows: nat, cols: nat): (m: seq<seq<real>>)
    requires |flat| >= rows * cols
    ensures IsMatrix(m, rows, cols)
  {
    seq(rows, i requires 0 <= i < rows =>
      seq(cols, j requires 0 <= j < cols => FlatIndexInBounds(i, j, rows, cols); flat[FlatIndex(i, j, cols)]))
  }

  /** Entry (i, j) of the unflattened matrix is position `i * cols + j` of the column. */
  lemma UnflattenAt(flat: seq<real>, rows: nat, cols: nat, i: nat, j: nat)
    requires |flat| >= rows * cols && i < rows && j < cols
    ensures FlatIndex(i, j, cols) < |flat|
    ensures Unflatten(flat, rows, cols)[i][j] == flat[FlatIndex(i, j, cols)]
  {
    FlatIndexInBounds(i, j, rows, cols);
  }

  /** Flattening then unflattening gives the matrix back. */
  lemma UnflattenFlatten(m: seq<seq<real>>, rows: nat, cols: nat)
    requires IsMatrix(m, rows, cols)
    ensures |Flatten(m)| == rows * cols
    ensures Unflatten(Flatten(m), rows, cols) == m
  {
    FlattenLength(m, rows, cols);
    var u := Unflatten(Flatten(m), rows, cols);
    forall i | 0 <= i < rows
      ensures u[i] == m[i]
    {
      forall j | 0 <= j < cols
        ensures u[i][j] == m[i][j]
      {
        FlattenAt(m, rows, cols, i, j);
        UnflattenAt(Flatten(m), rows, cols, i, j);
      }
    }
  }

  /** Unflattening then flattening gives the column back. */
  lemma FlattenUnflatten(flat: seq<real>, rows: nat, cols: nat)
    requires |flat| == rows * cols
    ensures Flatten(Unflatten(flat, rows, cols)) == flat
  {
    var u := Unflatten(flat, rows, cols);
    FlattenLength(u, rows, cols);
    forall k | 0 <= k < |flat|
      ensures Flatten(u)[k] == flat[k]
    {
      FlatIndexCovers(k, rows, cols);
      FlattenAt(u, rows, cols, k / cols, k % cols);
      UnflattenAt(flat, rows, cols, k / cols, k % cols);
    }
  }

  /** Row `i` of the matrix is the `cols` positions of the flattening from `i * cols` on. */
  lemma FlattenRow(m: seq<seq<real>>, rows: nat, cols: nat, i: nat)
    requires IsMatrix(m, rows, cols) && i < rows
    ensures i * cols + cols <= |Flatten(m)|
    ensures Flatten(m)[i * cols..i * cols + cols] == m[i]
  {
    FlattenLength(m, rows, cols);
    MultiplyMonotone(i + 1, rows, cols);
    assert (i + 1) * cols == i * cols + cols;
    forall j | 0 <= j < cols
      ensures Flatten(m)[i * cols..i * cols + cols][j] == m[i][j]
    {
      FlattenAt(m, rows, cols, i, j);
    }
  }

  /** A column that holds entry (i, j) at `i * cols + j` for every entry is the flattening. */
  lemma FlattenByIndex(m: seq<seq<real>>, rows: nat, cols: nat, flat: seq<real>)
    requires IsMatrix(m, rows, cols) && |flat| == rows * cols
    requires forall i, j :: 0 <= i < rows && 0 <= j < cols ==>
               FlatIndex(i, j, cols) < |flat| && flat[FlatIndex(i, j, cols)] == m[i][j]
    ensures flat == Flatten(m)
  {
    FlattenLength(m, rows, cols);
    forall k | 0 <= k < |flat|
      ensures flat[k] == Flatten(m)[k]
    {
      FlatIndexCovers(k, rows, cols);
      FlattenAt(m, rows, cols, k / cols, k % cols);
    }
  }
}
