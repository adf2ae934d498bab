/** The pixel store of the PCA program: one list of grey values per image row, and the two
    ways it is turned into a matrix (as it is, and flattened to one column). */
module PcaImageData {
  import opened JavaLang
  import opened Matrices

  /** A value `nextInt(10)` can return. */
  type Digit = x: int | 0 <= x < 10

  /** The first `m` values of every row, as reals. */
  function Grid(pixels: seq<seq<int>>, m: nat): (g: seq<seq<real>>)
    requires forall i :: 0 <= i < |pixels| ==> m <= |pixels[i]|
    ensures IsMatrix(g, |pixels|, m)
    ensures forall i, j :: 0 <= i < |pixels| && 0 <= j < m ==> g[i][j] == pixels[i][j] as real
  {
    seq(|pixels|, i requires 0 <= i < |pixels| => seq(m, j requires 0 <= j < m => pixels[i][j] as real))
  }

  /** There is a row 0 and no row is shorter than it: reading `m = row 0's length` values of
      every row stays in range. */
  ghost predicate RowsCover(pixels: seq<seq<int>>)
  {
    |pixels| > 0 && forall i :: 0 <= i < |pixels| ==> |pixels[0]| <= |pixels[i]|
  }

  function Max0(n: int): nat
  {
    if n < 0 then 0 else n
  }

  class Dataset {
    var filePath: Option<string>
    var imagePixelsVec: seq<seq<int>>

    constructor ()
      ensures filePath == None && imagePixelsVec == []
    {
      filePath := None;
      imagePixelsVec := [];
    }

    constructor WithPath(path: string)
      ensures filePath == Some(path) && imagePixelsVec == []
    {
      filePath := Some(path);
      imagePixelsVec := [];
    }

    /** `generateDefaultDataset`: replaces the store by `n` rows of `m` random digits (none
        when `n` or `m` is not positive). `nextInt(i, j)` is the digit drawn for cell (i, j). */
    method GenerateDefaultDataset(n: int, m: int, nextInt: (int, int) -> Digit)
      modifies this`imagePixelsVec
      ensures |imagePixelsVec| == Max0(n)
      ensures forall i :: 0 <= i < |imagePixelsVec| ==> |imagePixelsVec[i]| == Max0(m)
      ensures forall i, j :: 0 <= i < |imagePixelsVec| && 0 <= j < |imagePixelsVec[i]| ==>
                imagePixelsVec[i][j] == nextInt(i, j) && 0 <= imagePixelsVec[i][j] <= 9
    {
      imagePixelsVec := [];
      var i := 0;
      while i < n
        invariant 0 <= i <= Max0(n) && |imagePixelsVec| == i
        invariant forall k :: 0 <= k < i ==> |imagePixelsVec[k]| == Max0(m)
        invariant forall k, l :: 0 <= k < i && 0 <= l < |imagePixelsVec[k]| ==> imagePixelsVec[k][l] == nextInt(k, l)
      {
        var vector: seq<int> := [];
        var j := 0;
        while j < m
          invariant 0 <= j <= Max0(m) && |vector| == j
          invariant forall l :: 0 <= l < j ==> vector[l] == nextInt(i, l)
        {
          var value := nextInt(i, j);
          vector := vector + [value];
          j := j + 1;
        }
        imagePixelsVec := imagePixelsVec + [vector];
        i := i + 1;
      }
    }

    /** `getPixelMatrix`: an n by m matrix of the stored values, m being row 0's length.
        With no rows, or a row shorter than row 0, the list lookup throws. */
    method GetPixelMatrix() returns (r: Result<array2<real>>)
      ensures r.Throws? <==> !RowsCover(imagePixelsVec)
      ensures r.Throws? ==> r.error == IndexOutOfBounds
      ensures r.Ok? ==> fresh(r.value)
      ensures r.Ok? ==> r.value.Length0 == |imagePixelsVec| && r.value.Length1 == |imagePixelsVec[0]|
      ensures r.Ok? ==> Cells(r.value) == Grid(imagePixelsVec, |imagePixelsVec[0]|)
    {
      var n := |imagePixelsVec|;
      if n == 0 {
        return Throws(IndexOutOfBounds);
      }
      var m := |imagePixelsVec[0]|;
      var matrix := new real[n, m];
      for i := 0 to n
        invariant forall k :: 0 <= k < i ==> m <= |imagePixelsVec[k]|
        invariant forall k, l :: 0 <= k < i && 0 <= l < m ==> matrix[k, l] == imagePixelsVec[k][l] as real
      {
        for j := 0 to m
          invariant j <= |imagePixelsVec[i]|
          invariant forall k, l :: 0 <= k < i && 0 <= l < m ==> matrix[k, l] == imagePixelsVec[k][l] as real
          invariant forall l :: 0 <= l < j ==> matrix[i, l] == imagePixelsVec[i][l] as real
        {
          if j >= |imagePixelsVec[i]| {
            return Throws(IndexOutOfBounds);
          }
          matrix[i, j] := imagePixelsVec[i][j] as real;
        }
      }
      var grid := Grid(imagePixelsVec, m);
      forall k | 0 <= k < n
        ensures Cells(matrix)[k] == grid[k]
      {
      }
      r := Ok(matrix);
    }

    /** `getOneColumnPixelMatrix` with the intended index `i * m + j`: an (n * m) by 1
        matrix holding the pixel grid in row-major order, as the PCA code flattens it. When
        row 0 is empty the array has no rows, and Jama's `Matrix` constructor throws on
        reading the length of its row 0. */
    method GetOneColumnPixelMatrix() returns (r: Result<array2<real>>)
      ensures r.Throws? <==> !RowsCover(imagePixelsVec) || |imagePixelsVec[0]| == 0
      ensures r.Throws? ==> r.error == IndexOutOfBounds
      ensures r.Ok? ==> fresh(r.value)
      ensures r.Ok? ==> r.value.Length0 == |imagePixelsVec| * |imagePixelsVec[0]| && r.value.Length1 == 1
      ensures r.Ok? ==> Column(Cells(r.value), 0) == Flatten(Grid(imagePixelsVec, |imagePixelsVec[0]|))
    {
      var n := |imagePixelsVec|;
      if n == 0 {
        return Throws(IndexOutOfBounds);
      }
      var m := |imagePixelsVec[0]|;
      var matrix := new real[n * m, 1];
      for i := 0 to n
        invariant forall k :: 0 <= k < i ==> m <= |imagePixelsVec[k]|
        invariant forall k, l :: 0 <= k < i && 0 <= l < m ==>
                    0 <= FlatIndex(k, l, m) < matrix.Length0 && matrix[FlatIndex(k, l, m), 0] == imagePixelsVec[k][l] as real
      {
        for j := 0 to m
          invariant j <= |imagePixelsVec[i]|
          invariant forall k, l :: ((0 <= k < i && 0 <= l < m) || (k == i && 0 <= l < j)) ==>
                      0 <= FlatIndex(k, l, m) < matrix.Length0 &&
                      matrix[FlatIndex(k, l, m), 0] == imagePixelsVec[k][l] as real
        {
          FlatIndexInBounds(i, j, n, m);
          if j >= |imagePixelsVec[i]| {
            return Throws(IndexOutOfBounds);
          }
          forall k, l | (0 <= k < i && 0 <= l < m) || (k == i && 0 <= l < j)
            ensures FlatIndex(k, l, m) != FlatIndex(i, j, m)
          {
            if FlatIndex(k, l, m) == FlatIndex(i, j, m) {
              FlatIndexInjective(k, l, i, j, m);
            }
          }
          matrix[FlatIndex(i, j, m), 0] := imagePixelsVec[i][j] as real;
        }
      }
      if m == 0 {
        return Throws(IndexOutOfBounds);
      }
      FlattenByIndex(Grid(imagePixelsVec, m), n, m, Column(Cells(matrix), 0));
      r := Ok(matrix);
    }
  }

  /** `getOneColumnPixelMatrix` as the source writes it: cell (i, j) goes to position
      `i * n + j`, with n the row count, of a column of n * m zeros, row by row. A position
      past the end throws, as does a row shorter than row 0; and with row 0 empty, the loop
      writes nothing and Jama's `Matrix` constructor throws on the column of no rows. */
  function OneColumnAsWritten(pixels: seq<seq<int>>): (r: Result<seq<real>>)
    ensures r.Throws? ==> r.error == IndexOutOfBounds
    ensures r.Ok? ==> |pixels| > 0 && |pixels[0]| > 0 && |r.value| == |pixels| * |pixels[0]|
  {
    if |pixels| == 0 then Throws(IndexOutOfBounds)
    else
      var n, m := |pixels|, |pixels[0]|;
      match WriteRowsAsWritten(seq(n * m, k => 0.0), pixels, m, 0)
      case Throws(e) => Throws(e)
      case Ok(column) => if m == 0 then Throws(IndexOutOfBounds) else Ok(column)
  }

  /** Rows i, i + 1, ... of the as-written loop. */
  function WriteRowsAsWritten(column: seq<real>, pixels: seq<seq<int>>, m: nat, i: nat): (r: Result<seq<real>>)
    ensures r.Throws? ==> r.error == IndexOutOfBounds
    ensures r.Ok? ==> |r.value| == |column|
    decreases |pixels| - i
  {
    if i >= |pixels| then Ok(column)
    else
      match WriteRowAsWritten(column, pixels[i], i * |pixels|, m, 0)
      case Ok(next) => WriteRowsAsWritten(next, pixels, m, i + 1)
      case Throws(e) => Throws(e)
  }

  /** Cells j, j + 1, ... of one row, written from position `start + j` on. */
  function WriteRowAsWritten(column: seq<real>, row: seq<int>, start: nat, m: nat, j: nat): (r: Result<seq<real>>)
    ensures r.Throws? ==> r.error == IndexOutOfBounds
    ensures r.Ok? ==> |r.value| == |column|
    decreases m - j
  {
    if j >= m then Ok(column)
    else if start + j >= |column| || j >= |row| then Throws(IndexOutOfBounds)
    else WriteRowAsWritten(column[start + j := row[j] as real], row, start, m, j + 1)
  }

  /** Two rows of three: cell (0, 2) and cell (1, 0) both go to position 2, so the value 3
      is lost and the last position is never written. The intended column is 1..6. */
  lemma AsWrittenLosesCells()
    ensures OneColumnAsWritten([[1, 2, 3], [4, 5, 6]]) == Ok([1.0, 2.0, 4.0, 5.0, 6.0, 0.0])
    ensures Flatten(Grid([[1, 2, 3], [4, 5, 6]], 3)) == [1.0, 2.0, 3.0, 4.0, 5.0, 6.0]
  {
    var pixels := [[1, 2, 3], [4, 5, 6]];
    var zeros := seq(6, k => 0.0);
    assert zeros == [0.0, 0.0, 0.0, 0.0, 0.0, 0.0];
    var afterRow0 := [1.0, 2.0, 3.0, 0.0, 0.0, 0.0];
    assert WriteRowAsWritten(afterRow0, pixels[0], 0, 3, 3) == Ok(afterRow0);
    assert zeros[0 := 1.0][1 := 2.0][2 := 3.0] == afterRow0;
    assert WriteRowAsWritten(zeros[0 := 1.0][1 := 2.0], pixels[0], 0, 3, 2) == Ok(afterRow0);
    assert WriteRowAsWritten(zeros[0 := 1.0], pixels[0], 0, 3, 1) == Ok(afterRow0);
    assert WriteRowAsWritten(zeros, pixels[0], 0, 3, 0) == Ok(afterRow0);
    var afterRow1 := [1.0, 2.0, 4.0, 5.0, 6.0, 0.0];
    assert WriteRowAsWritten(afterRow1, pixels[1], 2, 3, 3) == Ok(afterRow1);
    assert afterRow0[2 := 4.0][3 := 5.0][4 := 6.0] == afterRow1;
    assert WriteRowAsWritten(afterRow0[2 := 4.0][3 := 5.0], pixels[1], 2, 3, 2) == Ok(afterRow1);
    assert WriteRowAsWritten(afterRow0[2 := 4.0], pixels[1], 2, 3, 1) == Ok(afterRow1);
    assert WriteRowAsWritten(afterRow0, pixels[1], 2, 3, 0) == Ok(afterRow1);
    assert WriteRowsAsWritten(afterRow1, pixels, 3, 2) == Ok(afterRow1);
    assert WriteRowsAsWritten(afterRow0, pixels, 3, 1) == Ok(afterRow1);
    var grid := Grid(pixels, 3);
    assert grid[0] == [1.0, 2.0, 3.0] && grid[1] == [4.0, 5.0, 6.0];
    assert grid[1..][1..] == [];
    assert Flatten(grid[1..]) == grid[1] + Flatten(grid[1..][1..]);
  }

  /** Three rows of two: cell (2, 0) goes to position 6 of a column of 6, so the method
      throws, while the intended column exists. */
  lemma AsWrittenThrowsOnTallImage()
    ensures OneColumnAsWritten([[1, 2], [3, 4], [5, 6]]) == Throws(IndexOutOfBounds)
    ensures RowsCover([[1, 2], [3, 4], [5, 6]])
  {
    var pixels := [[1, 2], [3, 4], [5, 6]];
    var zeros := seq(6, k => 0.0);
    var afterRow0 := zeros[0 := 1.0][1 := 2.0];
    assert WriteRowAsWritten(zeros, pixels[0], 0, 2, 0) == Ok(afterRow0);
    var afterRow1 := afterRow0[3 := 3.0][4 := 4.0];
    assert WriteRowAsWritten(afterRow0, pixels[1], 3, 2, 0) == Ok(afterRow1);
    assert WriteRowAsWritten(afterRow1, pixels[2], 6, 2, 0) == Throws(IndexOutOfBounds);
    assert WriteRowsAsWritten(afterRow1, pixels, 2, 2) == Throws(IndexOutOfBounds);
    assert WriteRowsAsWritten(afterRow0, pixels, 2, 1) == Throws(IndexOutOfBounds);
  }

  /** The as-written positions `i * n + j` all fall inside the n * m column exactly when
      there is at most one row, no column, or at least as many columns as rows. */
  lemma AsWrittenIndicesInBounds(n: nat, m: nat)
    ensures (forall i, j :: 0 <= i < n && 0 <= j < m ==> FlatIndex(i, j, n) < n * m)
            <==> (n <= 1 || m == 0 || n <= m)
  {
    if n <= 1 || m == 0 || n <= m {
      forall i, j | 0 <= i < n && 0 <= j < m
        ensures FlatIndex(i, j, n) < n * m
      {
        if n == 1 {
          assert FlatIndex(i, j, n) == j;
        } else {
          MultiplyMonotone(i, n - 1, n);
          assert (n - 1) * n + m - 1 < n * m by {
            assert n * m == (n - 1) * m + m;
            MultiplyMonotone(n, m, n - 1);
            assert (n - 1) * n == n * (n - 1);
            assert (n - 1) * m == m * (n - 1);
          }
        }
      }
    } else {
      var i, j := n - 1, m - 1;
      assert FlatIndex(i, j, n) >= n * m by {
        assert (n - 1) * n + m - 1 - n * m == (n - 1) * (n - m) - 1;
        MultiplyMonotone(1, n - 1, n - m);
      }
    }
  }

  /** The values of `row` as reals. */
  function Reals(row: seq<int>): (r: seq<real>)
    ensures |r| == |row| && forall k :: 0 <= k < |row| ==> r[k] == row[k] as real
  {
    seq(|row|, k requires 0 <= k < |row| => row[k] as real)
  }

  /** Overwriting position `p` and keeping `lo..hi` spliced is splicing one more value. */
  lemma SpliceStep(column: seq<real>, p: nat, hi: nat, v: real, rest: seq<real>)
    requires p < hi <= |column|
    ensures column[p := v][..p + 1] + rest + column[p := v][hi..] == column[..p] + ([v] + rest) + column[hi..]
  {
    var next := column[p := v];
    assert next[..p + 1] == column[..p] + [v];
    assert next[hi..] == column[hi..];
  }

  /** One as-written row whose positions all fit writes the row's first `m` values over
      positions `start` to `start + m - 1` and leaves the rest of the column alone. */
  lemma {:induction false} WriteRowInRange(column: seq<real>, row: seq<int>, start: nat, m: nat, j: nat)
    requires j <= m <= |row| && start + m <= |column|
    ensures WriteRowAsWritten(column, row, start, m, j)
            == Ok(column[..start + j] + Reals(row[j..m]) + column[start + m..])
    decreases m - j
  {
    if j == m {
      assert column[..start + j] + Reals(row[j..m]) + column[start + m..] == column;
    } else {
      var next := column[start + j := row[j] as real];
      WriteRowInRange(next, row, start, m, j + 1);
      assert Reals(row[j..m]) == [row[j] as real] + Reals(row[j + 1..m]);
      SpliceStep(column, start + j, start + m, row[j] as real, Reals(row[j + 1..m]));
    }
  }

  /** Writing the next `m` values of `flat` after a prefix of it extends the prefix. */
  lemma PrefixGrows(column: seq<real>, flat: seq<real>, values: seq<real>, start: nat, m: nat)
    requires start + m <= |column| && start + m <= |flat| && |values| == m
    requires column[..start] <= flat && flat[start..start + m] == values
    ensures (column[..start] + values + column[start + m..])[..start + m] == flat[..start + m]
  {
    var next := column[..start] + values + column[start + m..];
    assert flat[..start + m] == flat[..start] + flat[start..start + m];
    assert next[..start + m] == column[..start] + values;
  }

  /** With as many columns as rows, the as-written loop from row `i` on completes a column
      whose first `i` rows are already in place. */
  lemma {:induction false} WriteRowsSquare(column: seq<real>, pixels: seq<seq<int>>, m: nat, i: nat)
    requires |pixels| == m && forall k :: 0 <= k < |pixels| ==> m <= |pixels[k]|
    requires i <= m && |column| == m * m && i * m <= |column|
    requires column[..i * m] <= Flatten(Grid(pixels, m))
    ensures WriteRowsAsWritten(column, pixels, m, i) == Ok(Flatten(Grid(pixels, m)))
    decreases m - i
  {
    var grid := Grid(pixels, m);
    FlattenLength(grid, m, m);
    if i < m {
      FlattenRow(grid, m, m, i);
      WriteRowInRange(column, pixels[i], i * m, m, 0);
      var next := column[..i * m] + Reals(pixels[i][0..m]) + column[i * m + m..];
      assert Reals(pixels[i][0..m]) == grid[i];
      PrefixGrows(column, Flatten(grid), grid[i], i * m, m);
      assert (i + 1) * m == i * m + m;
      MultiplyMonotone(i + 1, m, m);
      WriteRowsSquare(next, pixels, m, i + 1);
    } else {
      assert i * m == |column| == |Flatten(grid)|;
      assert column[..i * m] == column;
      assert column == Flatten(grid);
    }
  }

  /** Square images are flattened correctly as written: the two strides agree. */
  lemma AsWrittenCorrectWhenSquare(pixels: seq<seq<int>>)
    requires RowsCover(pixels) && |pixels| == |pixels[0]|
    ensures OneColumnAsWritten(pixels) == Ok(Flatten(Grid(pixels, |pixels[0]|)))
  {
    var m := |pixels|;
    WriteRowsSquare(seq(m * m, k => 0.0), pixels, m, 0);
  }

  /** With at least two rows and more columns than rows, cells (0, n) and (1, 0) share a
      position, so one of them is overwritten. */
  lemma AsWrittenCollides(n: nat, m: nat)
    requires 2 <= n < m
    ensures FlatIndex(0, n, n) == FlatIndex(1, 0, n) && (0, n) != (1, 0)
  {
  }
}
