/** The bookkeeping of the PCA image compressor: row-mean centring, flattening the image to
    one column, the outer-product covariance, storing and selecting eigenvectors, and the
    way back from the reduced column to an image. The eigendecomposition itself is an input. */
module PrincipalComponents {
  import opened JavaLang
  import opened Matrices

  /** The sum of a row's entries, each first cut to `int`, accumulated from the first. */
  function TruncSum(row: seq<real>): int
  {
    if |row| == 0 then 0 else TruncSum(row[..|row| - 1]) + TruncToInt(row[|row| - 1])
  }

  /** The integer mean of a row: the truncated sum divided by the entry count, rounded
      toward zero as Java's `int` division does. */
  function RowMean(row: seq<real>): (mean: int)
    requires |row| > 0
    ensures TruncSum(row) >= 0 ==> mean == TruncSum(row) / |row|
    ensures Abs(mean) * |row| <= Abs(TruncSum(row)) < (Abs(mean) + 1) * |row|
    ensures TruncSum(row) < 0 ==> mean == -((-TruncSum(row)) / |row|)
  {
    Div(TruncSum(row), |row|)
  }

  lemma {:induction false} TruncSumBounds(row: seq<real>, hi: nat)
    requires forall k :: 0 <= k < |row| ==> 0.0 <= row[k] <= hi as real
    ensures 0 <= TruncSum(row) <= |row| * hi
  {
    if |row| > 0 {
      TruncSumBounds(row[..|row| - 1], hi);
      assert |row| * hi == (|row| - 1) * hi + hi;
    }
  }

  /** The mean of a row of pixel values in 0..hi is itself in 0..hi. */
  lemma RowMeanInRange(row: seq<real>, hi: nat)
    requires |row| > 0
    requires forall k :: 0 <= k < |row| ==> 0.0 <= row[k] <= hi as real
    ensures 0 <= RowMean(row) <= hi
  {
    TruncSumBounds(row, hi);
    var sum, n := TruncSum(row), |row|;
    QuotientBounds(sum, n);
    assert (hi + 1) * n == n * hi + n;
    if sum / n > hi {
      MultiplyMonotone(hi + 1, sum / n, n);
      assert false;
    }
  }

  /** Row i of `m` with `means[i]` subtracted from every entry. */
  function Centred(m: seq<seq<real>>, means: seq<int>): (c: seq<seq<real>>)
    requires |means| == |m|
    ensures |c| == |m| && forall i :: 0 <= i < |m| ==> |c[i]| == |m[i]|
  {
    seq(|m|, i requires 0 <= i < |m| => seq(|m[i]|, j requires 0 <= j < |m[i]| => m[i][j] - means[i] as real))
  }

  /** Row i of `m` with `means[i]` added to every entry. */
  function Restored(m: seq<seq<real>>, means: seq<int>): (c: seq<seq<real>>)
    requires |means| == |m|
    ensures |c| == |m| && forall i :: 0 <= i < |m| ==> |c[i]| == |m[i]|
  {
    seq(|m|, i requires 0 <= i < |m| => seq(|m[i]|, j requires 0 <= j < |m[i]| => m[i][j] + means[i] as real))
  }

  /** Adding the means back undoes the centring. */
  lemma RestoreCentred(m: seq<seq<real>>, means: seq<int>)
    requires |means| == |m|
    ensures Restored(Centred(m, means), means) == m
  {
    var r := Restored(Centred(m, means), means);
    forall i | 0 <= i < |m|
      ensures r[i] == m[i]
    {
    }
  }

  /** When the way back through the eigenvectors returns the centred column unchanged, the
      reconstructed image is exactly the image before centring. */
  lemma ReconstructionOfUnchangedColumn(m: seq<seq<real>>, means: seq<int>, rows: nat, cols: nat)
    requires IsMatrix(m, rows, cols) && |means| == rows
    ensures |Flatten(Centred(m, means))| == rows * cols
    ensures Restored(Unflatten(Flatten(Centred(m, means)), rows, cols), means) == m
  {
    UnflattenFlatten(Centred(m, means), rows, cols);
    RestoreCentred(m, means);
  }

  /** `mat * mat^T * (1 / c)` for a matrix of rows of `c` entries. */
  function Covariance(m: seq<seq<real>>, cols: nat): (cov: seq<seq<real>>)
    requires cols > 0 && forall i :: 0 <= i < |m| ==> |m[i]| == cols
    ensures IsMatrix(cov, |m|, |m|)
  {
    seq(|m|, i requires 0 <= i < |m| =>
      seq(|m|, j requires 0 <= j < |m| => Dot(m[i], m[j]) * (1.0 / cols as real)))
  }

  /** The covariance is symmetric. */
  lemma CovarianceSymmetric(m: seq<seq<real>>, cols: nat, i: nat, j: nat)
    requires cols > 0 && forall k :: 0 <= k < |m| ==> |m[k]| == cols
    requires i < |m| && j < |m|
    ensures Covariance(m, cols)[i][j] == Covariance(m, cols)[j][i]
  {
    DotSymmetric(m[i], m[j]);
  }

  /** For the one-column matrix of a flattened image, entry (i, j) is `v_i * v_j`. */
  lemma CovarianceOfColumn(m: seq<seq<real>>, i: nat, j: nat)
    requires forall k :: 0 <= k < |m| ==> |m[k]| == 1
    requires i < |m| && j < |m|
    ensures Covariance(m, 1)[i][j] == m[i][0] * m[j][0]
  {
    assert m[i][..0] == [] && m[j][..0] == [];
    assert Dot(m[i], m[j]) == m[i][0] * m[j][0];
  }

  /** The diagonal of a square matrix. */
  function Diagonal(d: seq<seq<real>>): (v: seq<real>)
    requires forall i :: 0 <= i < |d| ==> i < |d[i]|
    ensures |v| == |d| && forall i :: 0 <= i < |d| ==> v[i] == d[i][i]
  {
    seq(|d|, i requires 0 <= i < |d| => d[i][i])
  }

  /** The `dim` last entries of `s`, last first. */
  function Selected<T>(s: seq<T>, dim: nat): (r: seq<T>)
    requires dim <= |s|
    ensures |r| == dim && forall k :: 0 <= k < dim ==> r[k] == s[|s| - 1 - k]
  {
    seq(dim, k requires 0 <= k < dim => s[|s| - 1 - k])
  }

  function Reverse<T>(s: seq<T>): seq<T>
  {
    if |s| == 0 then [] else Reverse(s[1..]) + [s[0]]
  }

  /** Selecting is reversing the tail of length `dim`. */
  lemma {:induction false} SelectedIsReversedTail<T>(s: seq<T>, dim: nat)
    requires dim <= |s|
    ensures Selected(s, dim) == Reverse(s[|s| - dim..])
  {
    if dim > 0 {
      var tail := s[|s| - dim..];
      SelectedIsReversedTail(s, dim - 1);
      assert tail[1..] == s[|s| - (dim - 1)..];
      assert Selected(s, dim) == Selected(s, dim - 1) + [tail[0]];
    }
  }

  /** With the eigenvalues stored in ascending order, the selection takes them largest
      first. */
  lemma SelectedLargestFirst(values: seq<real>, dim: nat)
    requires dim <= |values|
    requires forall a, b :: 0 <= a < b < |values| ==> values[a] <= values[b]
    ensures forall a, b :: 0 <= a < b < dim ==> Selected(values, dim)[a] >= Selected(values, dim)[b]
    ensures forall a, k :: 0 <= a < dim && 0 <= k < |values| - dim ==> Selected(values, dim)[a] >= values[k]
  {
  }

  /** Entry `j` of a vector, or 0 past its end (the unset cells of a new matrix). */
  function Entry(v: seq<real>, j: nat): real
  {
    if j < |v| then v[j] else 0.0
  }

  class PCAMethod {
    var pcaDim: int
    var dimReductedMat: array2?<real>
    var unifiedOriginalMat: array2<real>
    var columnMat: array2<real>
    var meanVec: seq<int>
    var rowDim: int
    var columnDim: int
    var covarianceMat: array2<real>
    var eigenVectors: seq<seq<real>>
    var eigenValues: seq<real>
    var pcaEigenMat: array2?<real>

    /** The dimensions the methods rely on: one mean per row, a column of one entry per
        pixel, one eigenvalue per eigenvector, and a reduced column that fits the selected
        eigenvectors. */
    ghost predicate Valid()
      reads this
    {
      && rowDim == unifiedOriginalMat.Length0 && columnDim == unifiedOriginalMat.Length1
      && |meanVec| == rowDim
      && columnMat.Length0 == rowDim * columnDim && columnMat.Length1 == 1
      && |eigenVectors| == |eigenValues|
      && (forall k :: 0 <= k < |eigenVectors| ==> |eigenVectors[k]| <= |eigenValues|)
      && (pcaEigenMat != null ==>
            && pcaEigenMat.Length1 == rowDim * columnDim
            && dimReductedMat != null
            && dimReductedMat.Length0 == pcaEigenMat.Length0 && dimReductedMat.Length1 == 1)
    }

    /** The constructor past `unifyByRow`: `mat` is already centred, with row means `means`;
        flattens it and takes the covariance of the column. */
    constructor FromCentred(mat: array2<real>, means: seq<int>, pcaDim: int)
      requires |means| == mat.Length0
      ensures Valid()
      ensures unifiedOriginalMat == mat && rowDim == mat.Length0 && columnDim == mat.Length1
      ensures this.pcaDim == pcaDim && meanVec == means
      ensures fresh(columnMat) && Column(Cells(columnMat), 0) == Flatten(Cells(mat))
      ensures fresh(covarianceMat) && covarianceMat.Length0 == covarianceMat.Length1 == columnMat.Length0
      ensures forall i, j :: 0 <= i < covarianceMat.Length0 && 0 <= j < covarianceMat.Length0 ==>
                covarianceMat[i, j] == Covariance(Cells(columnMat), 1)[i][j]
      ensures eigenValues == [] && eigenVectors == []
      ensures pcaEigenMat == null && dimReductedMat == null
    {
      unifiedOriginalMat := mat;
      rowDim := mat.Length0;
      columnDim := mat.Length1;
      meanVec := means;
      columnMat := new real[0, 1];
      covarianceMat := columnMat;
      this.pcaDim := pcaDim;
      eigenVectors, eigenValues := [], [];
      pcaEigenMat, dimReductedMat := null, null;
      new;
      ChangeUnifiedMatIntoRowMat();
      covarianceMat := CalculateCovarianceMat(columnMat);
    }

    /** `new PCAMethod(mat, pcaDim)`: centres `mat` in place, flattens it and takes the
        covariance of the column. An image of rows but no columns makes `unifyByRow` divide
        by zero, and nothing is built. */
    static method Create(mat: array2<real>, pcaDim: int) returns (r: Result<PCAMethod>)
      modifies mat
      ensures r.Throws? <==> mat.Length0 > 0 && mat.Length1 == 0
      ensures r.Throws? ==> r.error == Arithmetic && Cells(mat) == old(Cells(mat))
      ensures r.Ok? ==> fresh(r.value) && r.value.Valid()
      ensures r.Ok? ==> r.value.unifiedOriginalMat == mat && r.value.rowDim == mat.Length0 && r.value.columnDim == mat.Length1
      ensures r.Ok? ==> r.value.pcaDim == pcaDim
      ensures r.Ok? ==> forall i :: 0 <= i < mat.Length0 ==> r.value.meanVec[i] == RowMean(old(Cells(mat))[i])
      ensures r.Ok? ==> Cells(mat) == Centred(old(Cells(mat)), r.value.meanVec)
      ensures r.Ok? ==> fresh(r.value.columnMat) && Column(Cells(r.value.columnMat), 0) == Flatten(Cells(mat))
      ensures r.Ok? ==> var p := r.value;
                fresh(p.covarianceMat) && p.covarianceMat.Length0 == p.covarianceMat.Length1 == p.columnMat.Length0 &&
                forall i, j :: 0 <= i < p.covarianceMat.Length0 && 0 <= j < p.covarianceMat.Length0 ==>
                  p.covarianceMat[i, j] == Covariance(Cells(p.columnMat), 1)[i][j]
      ensures r.Ok? ==> r.value.eigenValues == [] && r.value.eigenVectors == []
      ensures r.Ok? ==> r.value.pcaEigenMat == null && r.value.dimReductedMat == null
    {
      var means := UnifyByRow(mat);
      if means.Throws? {
        return Throws(means.error);
      }
      var pca := new PCAMethod.FromCentred(mat, means.value, pcaDim);
      r := Ok(pca);
    }

    /** `unifyByRow`: subtracts from every entry of each row that row's integer mean, in
        place, and returns the means. */
    static method UnifyByRow(mat: array2<real>) returns (r: Result<seq<int>>)
      modifies mat
      ensures r.Throws? <==> mat.Length0 > 0 && mat.Length1 == 0
      ensures r.Throws? ==> r.error == Arithmetic && Cells(mat) == old(Cells(mat))
      ensures r.Ok? ==> |r.value| == mat.Length0
      ensures r.Ok? ==> forall i :: 0 <= i < mat.Length0 ==> r.value[i] == RowMean(old(Cells(mat))[i])
      ensures r.Ok? ==> Cells(mat) == Centred(old(Cells(mat)), r.value)
    {
      ghost var before := Cells(mat);
      var n := mat.Length0;
      var m := mat.Length1;
      var meanVec := [];
      for i := 0 to n
        invariant |meanVec| == i && (i > 0 ==> m > 0)
        invariant forall k :: 0 <= k < i ==> meanVec[k] == RowMean(before[k])
        invariant forall k, j :: 0 <= k < i && 0 <= j < m ==> mat[k, j] == before[k][j] - meanVec[k] as real
        invariant forall k, j :: i <= k < n && 0 <= j < m ==> mat[k, j] == before[k][j]
      {
        var sum := RowSum(mat, i);
        assert Cells(mat)[i] == before[i];
        if m == 0 {
          return Throws(Arithmetic);
        }
        var mean := Div(sum, m);
        SubtractFromRow(mat, i, mean);
        meanVec := meanVec + [mean];
      }
      ghost var centred := Centred(before, meanVec);
      forall k | 0 <= k < n
        ensures Cells(mat)[k] == centred[k]
      {
      }
      r := Ok(meanVec);
    }

    /** The first inner loop of `unifyByRow`: the sum of row i's entries cut to `int`. */
    static method RowSum(mat: array2<real>, i: nat) returns (sum: int)
      requires i < mat.Length0
      ensures sum == TruncSum(Cells(mat)[i])
    {
      ghost var row := Cells(mat)[i];
      sum := 0;
      for j := 0 to mat.Length1
        invariant sum == TruncSum(row[..j])
      {
        assert row[..j + 1][..j] == row[..j];
        sum := sum + TruncToInt(mat[i, j]);
      }
      assert row[..mat.Length1] == row;
    }

    /** The second inner loop of `unifyByRow`: row i less `mean`, other rows unchanged. */
    static method SubtractFromRow(mat: array2<real>, i: nat, mean: int)
      requires i < mat.Length0
      modifies mat
      ensures forall k, l :: 0 <= k < mat.Length0 && 0 <= l < mat.Length1 ==>
                mat[k, l] == if k == i then old(mat[k, l]) - mean as real else old(mat[k, l])
    {
      for j := 0 to mat.Length1
        invariant forall k, l :: 0 <= k < mat.Length0 && 0 <= l < mat.Length1 ==>
                    mat[k, l] == if k == i && l < j then old(mat[k, l]) - mean as real else old(mat[k, l])
      {
        mat[i, j] := mat[i, j] - mean as real;
      }
    }

    /** `changeUnifiedMatIntoRowMat`: a new one-column matrix with entry (i, j) of the
        centred image at position `i * columnDim + j`, that is, its row-major flattening. */
    method ChangeUnifiedMatIntoRowMat()
      requires rowDim == unifiedOriginalMat.Length0 && columnDim == unifiedOriginalMat.Length1
      modifies this`columnMat
      ensures fresh(columnMat) && columnMat.Length0 == rowDim * columnDim && columnMat.Length1 == 1
      ensures Column(Cells(columnMat), 0) == Flatten(Cells(unifiedOriginalMat))
    {
      var col := new real[rowDim * columnDim, 1];
      for i := 0 to rowDim
        invariant forall k, l :: 0 <= k < i && 0 <= l < columnDim ==>
                    0 <= FlatIndex(k, l, columnDim) < col.Length0 &&
                    col[FlatIndex(k, l, columnDim), 0] == unifiedOriginalMat[k, l]
      {
        for j := 0 to columnDim
          invariant forall k, l :: ((0 <= k < i && 0 <= l < columnDim) || (k == i && 0 <= l < j)) ==>
                      0 <= FlatIndex(k, l, columnDim) < col.Length0 &&
                      col[FlatIndex(k, l, columnDim), 0] == unifiedOriginalMat[k, l]
        {
          FlatIndexInBounds(i, j, rowDim, columnDim);
          forall k, l | (0 <= k < i && 0 <= l < columnDim) || (k == i && 0 <= l < j)
            ensures FlatIndex(k, l, columnDim) != FlatIndex(i, j, columnDim)
          {
            if FlatIndex(k, l, columnDim) == FlatIndex(i, j, columnDim) {
              FlatIndexInjective(k, l, i, j, columnDim);
            }
          }
          col[FlatIndex(i, j, columnDim), 0] := unifiedOriginalMat[i, j];
        }
      }
      FlattenByIndex(Cells(unifiedOriginalMat), rowDim, columnDim, Column(Cells(col), 0));
      columnMat := col;
    }

    /** `calculateCovarianceMat`: `mat * mat^T * (1 / m)` with m the column count. */
    static method CalculateCovarianceMat(mat: array2<real>) returns (cov: array2<real>)
      requires mat.Length1 > 0
      ensures fresh(cov) && cov.Length0 == cov.Length1 == mat.Length0
      ensures forall i, j :: 0 <= i < mat.Length0 && 0 <= j < mat.Length0 ==>
                cov[i, j] == Covariance(Cells(mat), mat.Length1)[i][j]
    {
      var c := Covariance(Cells(mat), mat.Length1);
      cov := new real[mat.Length0, mat.Length0]((i, j) requires 0 <= i < |c| && 0 <= j < |c| => c[i][j]);
    }

    /** The storage loop of `eigProcess`, given the decomposition's D and V. When either is
        not square the program exits (`halted`); otherwise it appends D's diagonal to the
        eigenvalues and V's columns, as they are, to the eigenvectors. */
    method EigProcess(matD: array2<real>, matV: array2<real>) returns (halted: bool)
      requires Valid() && matD.Length0 == matV.Length0
      modifies this`eigenValues, this`eigenVectors
      ensures Valid()
      ensures halted <==> !(matD.Length0 == matD.Length1 && matV.Length0 == matV.Length1)
      ensures halted ==> eigenValues == old(eigenValues) && eigenVectors == old(eigenVectors)
      ensures !halted ==> eigenValues == old(eigenValues) + Diagonal(Cells(matD))
      ensures !halted ==> eigenVectors == old(eigenVectors) + Transpose(Cells(matV), matV.Length1)
    {
      if matD.Length0 != matD.Length1 || matV.Length0 != matV.Length1 {
        return true;
      }
      var n := matD.Length0;
      ghost var values0, vectors0 := eigenValues, eigenVectors;
      ghost var diagonal, columns := Diagonal(Cells(matD)), Transpose(Cells(matV), n);
      for i := 0 to n
        invariant eigenValues == values0 + diagonal[..i]
        invariant eigenVectors == vectors0 + columns[..i]
      {
        var eigenValue := matD[i, i];
        var eigenVector: seq<real> := [];
        for j := 0 to matV.Length0
          invariant eigenVector == columns[i][..j]
        {
          eigenVector := eigenVector + [matV[j, i]];
        }
        assert eigenVector == columns[i];
        assert diagonal[..i + 1] == diagonal[..i] + [eigenValue];
        assert columns[..i + 1] == columns[..i] + [eigenVector];
        eigenValues := eigenValues + [eigenValue];
        eigenVectors := eigenVectors + [eigenVector];
      }
      assert diagonal[..n] == diagonal && columns[..n] == columns;
      return false;
    }

    /** `selectPCAEigenMat`: a new `dim` by (eigenvalue count) matrix whose row r is the
        eigenvector stored r-th from the end, so the largest eigenvalue comes first. */
    method SelectPCAEigenMat(dim: int) returns (pcaMat: array2<real>)
      requires Valid() && 0 <= dim <= |eigenVectors|
      ensures fresh(pcaMat) && pcaMat.Length0 == dim && pcaMat.Length1 == |eigenValues|
      ensures forall r, j :: 0 <= r < dim && 0 <= j < |eigenValues| ==>
                pcaMat[r, j] == Entry(Selected(eigenVectors, dim)[r], j)
    {
      var vecNum := |eigenVectors|;
      pcaMat := new real[dim, |eigenValues|]((r, j) => 0.0);
      var i := vecNum - 1;
      while i > vecNum - 1 - dim
        invariant vecNum - 1 - dim <= i <= vecNum - 1
        invariant forall r, j :: 0 <= r < vecNum - 1 - i && 0 <= j < |eigenValues| ==>
                    pcaMat[r, j] == Entry(eigenVectors[vecNum - 1 - r], j)
        invariant forall r, j :: vecNum - 1 - i <= r < dim && 0 <= j < |eigenValues| ==> pcaMat[r, j] == 0.0
      {
        var eigenVector := eigenVectors[i];
        var row := vecNum - 1 - i;
        for j := 0 to |eigenVector|
          invariant forall r, l :: 0 <= r < row && 0 <= l < |eigenValues| ==>
                      pcaMat[r, l] == Entry(eigenVectors[vecNum - 1 - r], l)
          invariant forall l :: 0 <= l < j ==> pcaMat[row, l] == eigenVector[l]
          invariant forall l :: j <= l < |eigenValues| ==> pcaMat[row, l] == 0.0
          invariant forall r, l :: row < r < dim && 0 <= l < |eigenValues| ==> pcaMat[r, l] == 0.0
        {
          pcaMat[row, j] := eigenVector[j];
        }
        i := i - 1;
      }
    }

    /** `pcaExecute`: stores the decomposition, selects `pcaDim` eigenvectors and projects
        the centred column onto them. */
    method PcaExecute(matD: array2<real>, matV: array2<real>) returns (halted: bool)
      requires Valid() && matD.Length0 == matV.Length0
      requires 0 <= pcaDim <= |eigenVectors| + matD.Length0
      requires |eigenValues| + matD.Length0 == rowDim * columnDim
      modifies this`eigenValues, this`eigenVectors, this`pcaEigenMat, this`dimReductedMat
      ensures Valid()
      ensures halted <==> !(matD.Length0 == matD.Length1 && matV.Length0 == matV.Length1)
      ensures halted ==> eigenValues == old(eigenValues) && eigenVectors == old(eigenVectors)
      ensures halted ==> pcaEigenMat == old(pcaEigenMat) && dimReductedMat == old(dimReductedMat)
      ensures !halted ==> eigenValues == old(eigenValues) + Diagonal(Cells(matD))
      ensures !halted ==> eigenVectors == old(eigenVectors) + Transpose(Cells(matV), matV.Length1)
      ensures !halted ==> pcaEigenMat != null && fresh(pcaEigenMat) && pcaEigenMat.Length0 == pcaDim
      ensures !halted ==> (pcaEigenMat != null &&
                forall r, j :: 0 <= r < pcaDim && 0 <= j < |eigenValues| ==>
                  pcaEigenMat[r, j] == Entry(Selected(eigenVectors, pcaDim)[r], j))
      ensures !halted ==> (pcaEigenMat != null && dimReductedMat != null && fresh(dimReductedMat) &&
                forall r :: 0 <= r < pcaDim ==>
                  dimReductedMat[r, 0] == Product(Cells(pcaEigenMat), Cells(columnMat), 1)[r][0])
    {
      halted := EigProcess(matD, matV);
      if halted {
        return;
      }
      var pcaMat := SelectPCAEigenMat(pcaDim);
      pcaEigenMat := pcaMat;
      dimReductedMat := Times(pcaMat, columnMat);
    }

    /** `pcaEigenMat^T * dimReductedMat` as a column: the flattened image seen through the
        selected eigenvectors. */
    function ReconstructedColumn(): (col: seq<real>)
      reads this, pcaEigenMat, dimReductedMat
      requires Valid() && pcaEigenMat != null
      ensures |col| == rowDim * columnDim
    {
      var p := pcaEigenMat;
      var back := Product(Transpose(Cells(p), p.Length1), Cells(dimReductedMat), 1);
      Column(back, 0)
    }

    /** `getReconstructedMat`: a new `rowDim` by `columnDim` matrix, the column above
        unflattened row-major with each row's mean added back. */
    method GetReconstructedMat() returns (reconstructedMat: array2<real>)
      requires Valid() && pcaEigenMat != null
      ensures fresh(reconstructedMat)
      ensures reconstructedMat.Length0 == rowDim && reconstructedMat.Length1 == columnDim
      ensures forall i, j :: 0 <= i < rowDim && 0 <= j < columnDim ==>
                reconstructedMat[i, j] ==
                  Restored(Unflatten(ReconstructedColumn(), rowDim, columnDim), meanVec)[i][j]
    {
      var reconstructedRowMat := ReconstructedColumn();
      reconstructedMat := RestoreRows(reconstructedRowMat, rowDim, columnDim, meanVec);
    }

    /** The loops of `getReconstructedMat`: entry (i, j) is position `i * m + j` of the
        column plus the mean of row i. */
    static method RestoreRows(flat: seq<real>, n: nat, m: nat, means: seq<int>) returns (mat: array2<real>)
      requires |flat| == n * m && |means| == n
      ensures fresh(mat) && mat.Length0 == n && mat.Length1 == m
      ensures forall i, j :: 0 <= i < n && 0 <= j < m ==> mat[i, j] == Restored(Unflatten(flat, n, m), means)[i][j]
    {
      ghost var image := Restored(Unflatten(flat, n, m), means);
      mat := new real[n, m];
      for i := 0 to n
        invariant forall k, l :: 0 <= k < i && 0 <= l < m ==> mat[k, l] == image[k][l]
      {
        var meanValue := means[i];
        for j := 0 to m
          invariant forall k, l :: 0 <= k < i && 0 <= l < m ==> mat[k, l] == image[k][l]
          invariant forall l :: 0 <= l < j ==> mat[i, l] == image[i][l]
        {
          UnflattenAt(flat, n, m, i, j);
          mat[i, j] := flat[FlatIndex(i, j, m)] + meanValue as real;
        }
      }
    }

    /** `getOriginalMat`: a new matrix, the centred image with each row's mean added back. */
    method GetOriginalMat() returns (pixelMat: array2<real>)
      requires Valid()
      ensures fresh(pixelMat)
      ensures pixelMat.Length0 == rowDim && pixelMat.Length1 == columnDim
      ensures forall i, j :: 0 <= i < rowDim && 0 <= j < columnDim ==>
                pixelMat[i, j] == Restored(Cells(unifiedOriginalMat), meanVec)[i][j]
    {
      pixelMat := WithMeansAdded(unifiedOriginalMat, meanVec);
    }

    /** The loops of `getOriginalMat`: a copy of `source` with `means[i]` added to every
        entry of row i. */
    static method WithMeansAdded(source: array2<real>, means: seq<int>) returns (pixelMat: array2<real>)
      requires |means| == source.Length0
      ensures fresh(pixelMat) && pixelMat.Length0 == source.Length0 && pixelMat.Length1 == source.Length1
      ensures forall i, j :: 0 <= i < source.Length0 && 0 <= j < source.Length1 ==>
                pixelMat[i, j] == Restored(Cells(source), means)[i][j]
    {
      var cells := Cells(source);
      var n, m := source.Length0, source.Length1;
      ghost var image := Restored(cells, means);
      pixelMat := new real[n, m]((i, j) requires 0 <= i < n && 0 <= j < m => cells[i][j]);
      for i := 0 to n
        invariant forall k, l :: 0 <= k < i && 0 <= l < m ==> pixelMat[k, l] == image[k][l]
      {
        var meanValue := means[i];
        for j := 0 to m
          invariant forall k, l :: 0 <= k < i && 0 <= l < m ==> pixelMat[k, l] == image[k][l]
          invariant forall l :: 0 <= l < j ==> pixelMat[i, l] == image[i][l]
        {
          pixelMat[i, j] := source[i, j] + meanValue as real;
        }
      }
    }

    /** The steps the constructor and `reconstructAnotherMatrix` share: take `mat` as the
        image, centre it in place and flatten it. */
    method LoadMatrix(mat: array2<real>) returns (thrown: Option<Exception>)
      modifies this`unifiedOriginalMat, this`rowDim, this`columnDim, this`meanVec, this`columnMat, mat
      ensures unifiedOriginalMat == mat && rowDim == mat.Length0 && columnDim == mat.Length1
      ensures thrown.Some? <==> mat.Length0 > 0 && mat.Length1 == 0
      ensures thrown.Some? ==> thrown.value == Arithmetic && Cells(mat) == old(Cells(mat))
      ensures thrown.Some? ==> meanVec == old(meanVec) && columnMat == old(columnMat)
      ensures thrown.None? ==> |meanVec| == mat.Length0
      ensures thrown.None? ==> forall i :: 0 <= i < mat.Length0 ==> meanVec[i] == RowMean(old(Cells(mat))[i])
      ensures thrown.None? ==> Cells(mat) == Centred(old(Cells(mat)), meanVec)
      ensures thrown.None? ==> fresh(columnMat) && columnMat.Length0 == rowDim * columnDim && columnMat.Length1 == 1
      ensures thrown.None? ==> Column(Cells(columnMat), 0) == Flatten(Cells(mat))
    {
      unifiedOriginalMat := mat;
      rowDim := mat.Length0;
      columnDim := mat.Length1;
      var means := UnifyByRow(unifiedOriginalMat);
      if means.Throws? {
        return Some(means.error);
      }
      meanVec := means.value;
      ChangeUnifiedMatIntoRowMat();
      thrown := None;
    }

    /** `reconstructAnotherMatrix`: centres and flattens another image in place of the first,
        projects it with the eigenvectors already selected, and rebuilds it. An image of rows
        but no columns throws from `unifyByRow`, after the image and its dimensions have
        been stored. */
    method ReconstructAnotherMatrix(mat: array2<real>) returns (r: Result<array2<real>>)
      requires Valid() && pcaEigenMat != null && mat != pcaEigenMat
      requires (mat.Length0 > 0 && mat.Length1 == 0) || pcaEigenMat.Length1 == mat.Length0 * mat.Length1
      modifies this`unifiedOriginalMat, this`rowDim, this`columnDim, this`meanVec
      modifies this`columnMat, this`dimReductedMat, mat
      ensures pcaEigenMat == old(pcaEigenMat) && unchanged(pcaEigenMat)
      ensures unifiedOriginalMat == mat && rowDim == mat.Length0 && columnDim == mat.Length1
      ensures r.Throws? <==> mat.Length0 > 0 && mat.Length1 == 0
      ensures r.Throws? ==> r.error == Arithmetic && Cells(mat) == old(Cells(mat))
      ensures r.Throws? ==> meanVec == old(meanVec) && columnMat == old(columnMat) && dimReductedMat == old(dimReductedMat)
      ensures r.Ok? ==> Valid()
      ensures r.Ok? ==> forall i :: 0 <= i < mat.Length0 ==> meanVec[i] == RowMean(old(Cells(mat))[i])
      ensures r.Ok? ==> Cells(mat) == Centred(old(Cells(mat)), meanVec)
      ensures r.Ok? ==> fresh(columnMat) && Column(Cells(columnMat), 0) == Flatten(Cells(mat))
      ensures r.Ok? ==> dimReductedMat != null && fresh(dimReductedMat)
      ensures r.Ok? ==> (dimReductedMat != null &&
                forall k :: 0 <= k < pcaEigenMat.Length0 ==>
                  dimReductedMat[k, 0] == Product(Cells(pcaEigenMat), Cells(columnMat), 1)[k][0])
      ensures r.Ok? ==> fresh(r.value)
      ensures r.Ok? ==> r.value.Length0 == rowDim && r.value.Length1 == columnDim
      ensures r.Ok? ==> (Valid() && pcaEigenMat != null &&
                forall i, j :: 0 <= i < rowDim && 0 <= j < columnDim ==>
                  r.value[i, j] == Restored(Unflatten(ReconstructedColumn(), rowDim, columnDim), meanVec)[i][j])
    {
      var thrown := LoadMatrix(mat);
      if thrown.Some? {
        return Throws(thrown.value);
      }
      dimReductedMat := Times(pcaEigenMat, columnMat);
      var reconstructedMatrix := GetReconstructedMat();
      r := Ok(reconstructedMatrix);
    }
  }

  /** Building the PCA object and asking for the original matrix gives back the matrix
      before centring. */
  method OriginalAfterCentring(mat: array2<real>, pcaDim: int) returns (r: Result<array2<real>>)
    modifies mat
    ensures r.Throws? <==> mat.Length0 > 0 && mat.Length1 == 0
    ensures r.Ok? ==> fresh(r.value) && Cells(r.value) == old(Cells(mat))
  {
    ghost var before := Cells(mat);
    var created := PCAMethod.Create(mat, pcaDim);
    if created.Throws? {
      return Throws(created.error);
    }
    var pca := created.value;
    var original := pca.GetOriginalMat();
    RestoreCentred(before, pca.meanVec);
    forall i | 0 <= i < original.Length0
      ensures Cells(original)[i] == before[i]
    {
    }
    r := Ok(original);
  }
}
