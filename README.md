# Machine-learning exercises: the bookkeeping layer, verified

This project models the sequential, non-numeric layer of three small Java programs.

- **Logistic regression.** A dataset class of three parallel lists plus a flag, and a CSV reader that fills it. The classifier's side of the program is also modelled: argument checks, the intercept column, the 0.5 threshold on the linear score, and the recall rate.
- **Polynomial curve fitting.** The chart dataset `MyXYDataset`: a collection of XY series with one "line visible" and one "shape visible" flag per series.
- **PCA image compression.** Row-mean centring done in place, row-major flattening to one column and back, the outer-product covariance, storing and selecting eigenvectors, and rebuilding an image. Also covered: the pixel store of the PCA program and the 32-bit pixel bit arithmetic of its image code.

Modelling choices:

- **Objects whose fields a method updates are Dafny classes.** Each method has a `modifies` frame and a postcondition giving the new state. Loops stay loops, with invariants.
- **Java lists and vectors are `seq` values.** Jama matrices are `array2<real>`, and a matrix's content is written `Cells(a)`.
- **Exceptions the code throws or lets escape are values.** A result is a `Result` (`Ok` or `Throws`), defined in `JavaLang`.
- **Java semantics are written out:**
  - `String.split` drops trailing empty fields (`JavaStrings.Split`).
  - `(int)` on a double rounds toward zero (`JavaLang.TruncToInt`).
  - `int` division rounds toward zero (`JavaLang.Div`).
  - `>>` on `int` copies the sign bit (`PixelBits.ArithmeticShiftRight`).
- **Foreign results are parameters.** These are what `Double.valueOf` parses, what `Random.nextInt` draws, the sine and noise values of the chart, the matrices D and V of the eigendecomposition, and the weights gradient descent finds.

Modules:

| module | file | models |
|---|---|---|
| `JavaLang` | java_lang.dfy | exceptions, `(int)` casts, `int` division |
| `JavaStrings` | java_strings.dfy | `String.split` and `String.replace` of one character |
| `LogisticRegressionData` | lr_dataset.dfy | `LogisticRegressionDataset` |
| `LogisticRegressionCsv` | lr_csv_reader.dfy | `LogisticRegressionCSVFileReader` |
| `LogisticRegressionModel` | lr_model.dfy | `LogisticRegression`, without gradient descent |
| `ChartData` | xy_dataset.dfy | `MyXYDataset` |
| `Matrices` | matrices.dfy | dense matrices, product, row-major flattening |
| `PrincipalComponents` | pca_method.dfy | `PCAMethod` |
| `PcaImageData` | pca_dataset.dfy | the PCA `Dataset` pixel store |
| `PixelBits` | image_operation.dfy | channel extraction and grey packing of `ImageOperation` and `outputGrayImage` |

## Model

| member | source | states |
|---|---|---|
| JavaLang.TruncToInt | PCA/src/pca/PCAMethod.java:137 | `(int)` of a double rounds toward zero: it never exceeds a non-negative argument by a unit or more, and the same holds mirrored for a negative one |
| JavaLang.Div | PCA/src/pca/PCAMethod.java:139 | Java `int` division: it agrees with Euclidean division for a non-negative dividend and positive divisor, and its magnitude is the magnitude quotient |
| JavaLang.DivNegatedDividend | PCA/src/pca/PCAMethod.java:139 | Java's quotient is odd in the dividend, unlike Dafny's |
| JavaStrings.SplitAll | logistic_regression/src/datareading/LogisticRegressionCSVFileReader.java:67 | the full split yields at least one field |
| JavaStrings.DropTrailingEmpty | logistic_regression/src/datareading/LogisticRegressionCSVFileReader.java:81 | the kept fields are a prefix, end in a non-empty field, and only empty fields were dropped |
| JavaStrings.Split | logistic_regression/src/datareading/LogisticRegressionCSVFileReader.java:81 | `split`: `[s]` when the separator does not occur, otherwise the full split less its trailing empty fields; always a prefix of the full split, and only empty fields are dropped |
| JavaStrings.JoinSplitAll | logistic_regression/src/datareading/LogisticRegressionCSVFileReader.java:67 | joining the fields with the separator gives the split string back |
| JavaStrings.SplitAllFieldsFree | logistic_regression/src/datareading/LogisticRegressionCSVFileReader.java:67 | no field holds the separator |
| JavaStrings.SplitAllCount | logistic_regression/src/datareading/LogisticRegressionCSVFileReader.java:67 | there is one field more than there are separators |
| JavaStrings.SplitIsPrefixOfSplitAll | logistic_regression/src/datareading/LogisticRegressionCSVFileReader.java:42 | `split` is the full split minus trailing empty fields, fields are separator-free, and a string without the separator splits to itself alone |
| JavaStrings.RemoveAll | logistic_regression/src/datareading/LogisticRegressionCSVFileReader.java:71 | `replace("\r", "")` leaves no `\r` and keeps every other character's count |
| JavaStrings.RemoveAllSingle | logistic_regression/src/datareading/LogisticRegressionCSVFileReader.java:71 | a single character is dropped exactly when it is the removed one, and kept otherwise |
| JavaStrings.RemoveAllAppend | logistic_regression/src/datareading/LogisticRegressionCSVFileReader.java:71 | removal distributes over concatenation, so the kept characters stay in their order |
| JavaStrings.RemoveAllAbsent | logistic_regression/src/datareading/LogisticRegressionCSVFileReader.java:70-72 | replacing an absent character changes nothing, so the `contains` guard is redundant |
| LogisticRegressionData.LogisticRegressionDataset.constructor | logistic_regression/src/dataformat/LogisticRegressionDataset.java:19-26 | starts with three empty lists and the flag unset |
| LogisticRegressionData.LogisticRegressionDataset.SetArgNames | logistic_regression/src/dataformat/LogisticRegressionDataset.java:54-60 | names replaced by the argument, samples and labels emptied, flag set |
| LogisticRegressionData.LogisticRegressionDataset.SetSamples | logistic_regression/src/dataformat/LogisticRegressionDataset.java:71-90 | on a count mismatch or a wrong first-sample width it stores nothing and returns false. If both lists are empty, `get(0)` throws. Otherwise samples and labels are replaced and the names are kept. Sample count equals label count throughout |
| LogisticRegressionData.Accepts | logistic_regression/src/dataformat/LogisticRegressionDataset.java:73-83 | accepted exactly when the counts agree, are positive, and the first sample has one value fewer than there are names; throws exactly on two empty lists |
| LogisticRegressionData.NoNamesNoSamples | logistic_regression/src/dataformat/LogisticRegressionDataset.java:80 | with no names, as after construction or `clear`, no sample list is ever accepted |
| LogisticRegressionData.OnlyFirstSampleChecked | logistic_regression/src/dataformat/LogisticRegressionDataset.java:79-83 | a later sample of any width is accepted once the first sample fits |
| LogisticRegressionData.LogisticRegressionDataset.Clear | logistic_regression/src/dataformat/LogisticRegressionDataset.java:99-104 | all three lists empty and the flag reset |
| LogisticRegressionData.LogisticRegressionDataset.GetSamplesValueVector | logistic_regression/src/dataformat/LogisticRegressionDataset.java:111-121 | a copy equal sample by sample and value by value to the stored samples |
| LogisticRegressionData.LogisticRegressionDataset.GetSamplesClassificationVector | logistic_regression/src/dataformat/LogisticRegressionDataset.java:128-134 | a copy equal label by label to the stored labels |
| LogisticRegressionCsv.HeaderNames | logistic_regression/src/datareading/LogisticRegressionCSVFileReader.java:67-74 | one name per `;` field of the header, none holding `\r` or `;` |
| LogisticRegressionCsv.ReadHeader | logistic_regression/src/datareading/LogisticRegressionCSVFileReader.java:66-74 | the loop yields name k = field k of line 0 with every `\r` removed, in order |
| LogisticRegressionCsv.Label | logistic_regression/src/datareading/LogisticRegressionCSVFileReader.java:91-95 | the label is 0 or 1, and 1 exactly when the last field less `\r` is `"1"` |
| LogisticRegressionCsv.ParseValues | logistic_regression/src/datareading/LogisticRegressionCSVFileReader.java:84-86 | the values parse exactly when every field parses, one value per field, in order |
| LogisticRegressionCsv.ParseRecord | logistic_regression/src/datareading/LogisticRegressionCSVFileReader.java:81-96 | a line yields the parses of all fields but the last, in order, and the `Label` of the last field; it throws `NumberFormat` exactly when a field before the last does not parse, and `IndexOutOfBounds` exactly when the line is separators only |
| LogisticRegressionCsv.ParseRecords | logistic_regression/src/datareading/LogisticRegressionCSVFileReader.java:80-97 | the data-line loop: one sample and one label per line when every line parses, otherwise the first failing line's exception, which is an index or number-format exception |
| LogisticRegressionCsv.ReadRecord | logistic_regression/src/datareading/LogisticRegressionCSVFileReader.java:81-96 | the loop body computes exactly `ParseRecord`, throwing `NumberFormatException` at the first bad field |
| LogisticRegressionCsv.NumberFormatAtField | logistic_regression/src/datareading/LogisticRegressionCSVFileReader.java:85 | one unparsable field after parsable ones makes the whole line fail |
| LogisticRegressionCsv.ParseRecordsLineByLine | logistic_regression/src/datareading/LogisticRegressionCSVFileReader.java:80-97 | the data lines parse exactly when each line does, and then yield one sample and one label per line, in line order |
| LogisticRegressionCsv.FirstFailureDecides | logistic_regression/src/datareading/LogisticRegressionCSVFileReader.java:80-97 | the first failing line decides the exception, whatever follows it |
| LogisticRegressionCsv.Generate | logistic_regression/src/datareading/LogisticRegressionCSVFileReader.java:62-101 | the outcome of `datasetGenerate`: no line throws `lines[0]`'s index exception; otherwise only index or number-format exceptions, and on success the header's names with either no samples or one sample and label per data line |
| LogisticRegressionCsv.ReadSamples | logistic_regression/src/datareading/LogisticRegressionCSVFileReader.java:78-97 | the loop over lines 1.. computes exactly `ParseRecords` of those lines |
| LogisticRegressionCsv.HeaderOnlyThrows | logistic_regression/src/datareading/LogisticRegressionCSVFileReader.java:98 | a file of a header alone throws in `setSamples` |
| LogisticRegressionCsv.GenerateContents | logistic_regression/src/datareading/LogisticRegressionCSVFileReader.java:62-101 | a read keeps the header's names. If the first data line's width does not fit the names, there are no samples. Otherwise there is one sample and label per data line, in order, every label in {0, 1} |
| LogisticRegressionCsv.DatasetGenerate | logistic_regression/src/datareading/LogisticRegressionCSVFileReader.java:62-101 | a fresh dataset with the names set and the contents `Generate` gives, throwing exactly when `Generate` throws |
| LogisticRegressionCsv.ReadData | logistic_regression/src/datareading/LogisticRegressionCSVFileReader.java:42-53 | the content split on `\n` is generated: it throws exactly the exception `Generate` names, otherwise a fresh valid dataset with its names set, holding exactly what `Generate` gives |
| LogisticRegressionModel.Classification | logistic_regression/src/logisticregression/LogisticRegression.java:240-244 | class 0 exactly when the score is at most 0.5, class 1 exactly when it is above |
| LogisticRegressionModel.Score | logistic_regression/src/logisticregression/LogisticRegression.java:237 | one entry of `matX.times(matW)`: the sum of products of a row with the weights, zero when the weights or the row are all zero |
| LogisticRegressionModel.ConstructorCheck | logistic_regression/src/logisticregression/LogisticRegression.java:57-67 | no exception exactly when there is a sample, the first sample is non-empty and the X and Y counts agree; the exception is always `IllegalArgumentException` |
| LogisticRegressionModel.LogisticRegression.Create | logistic_regression/src/logisticregression/LogisticRegression.java:53-79 | throws exactly what `ConstructorCheck` names, otherwise a fresh object with 1.0 in front of every sample, M+1 zero weights, no optimised weights and the given regularisation flag |
| LogisticRegressionModel.LogisticRegression.constructor | logistic_regression/src/logisticregression/LogisticRegression.java:69-78 | `vectW` is M+1 zeros, every row gains a leading 1.0, labels and flag stored |
| LogisticRegressionModel.LogisticRegression.RowsFitWeights | logistic_regression/src/logisticregression/LogisticRegression.java:143-149 | true exactly when every sample row has one value per weight |
| LogisticRegressionModel.LogisticRegression.Execute | logistic_regression/src/logisticregression/LogisticRegression.java:129-153 | weights are appended only when the object was constructed correctly and every row fits; otherwise nothing is stored |
| LogisticRegressionModel.LogisticRegression.GetOptimizedVectW | logistic_regression/src/logisticregression/LogisticRegression.java:122-124 | a value equal entry by entry to the stored weights |
| LogisticRegressionModel.ClassifyCheck | logistic_regression/src/logisticregression/LogisticRegression.java:256-277 | no exception exactly when there is a sample, the first is non-empty and every sample has one value fewer than there are weights |
| LogisticRegressionModel.ClassifyNeedsWeights | logistic_regression/src/logisticregression/LogisticRegression.java:269-277 | before any weights are stored, `classify` throws on every input |
| LogisticRegressionModel.LogisticRegression.Classify | logistic_regression/src/logisticregression/LogisticRegression.java:255-304 | throws exactly what `ClassifyCheck` names, otherwise one class per sample from the score of [1, x...] against the weights |
| LogisticRegressionModel.ClassifySamples | logistic_regression/src/logisticregression/LogisticRegression.java:235-247 | one class per row, 0 exactly when the row's score is at most 0.5 |
| LogisticRegressionModel.ScoreOf | logistic_regression/src/logisticregression/LogisticRegression.java:237 | the loop computes the row-by-weights product entry |
| LogisticRegressionModel.Hits | logistic_regression/src/logisticregression/LogisticRegression.java:319-323 | the number of matches never exceeds the number of samples |
| LogisticRegressionModel.HitsOfEqualLabels | logistic_regression/src/logisticregression/LogisticRegression.java:319-323 | labels that agree everywhere are all hits |
| LogisticRegressionModel.RecallRate | logistic_regression/src/logisticregression/LogisticRegression.java:313-325 | the share of samples whose truncated labels match, in [0, 1]; no value, as Java's NaN, exactly when there are no samples |
| ChartData.SampledSeries | polynomial_fitting/src/dataset/MyXYDataset.java:30-34 | n + 1 points at x = (1/n)·i with the given y, in order |
| ChartData.MyXYDataset.Default | polynomial_fitting/src/dataset/MyXYDataset.java:23-50 | keys "sin(2πx)" and "random noise added", line flags [true, false], shape flags [false, true], 101 points each |
| ChartData.MyXYDataset.constructor | polynomial_fitting/src/dataset/MyXYDataset.java:59-63 | holds the given parts, and is well-formed exactly when their lengths agree |
| ChartData.AddSeriesReadBack | polynomial_fitting/src/dataset/MyXYDataset.java:71-106 | after `addSeries`, `getSeries`, `lineVisible` and `shapeVisible` at the old count read the added series and its flags, and every earlier index reads as before |
| ChartData.RemoveSeriesReadBack | polynomial_fitting/src/dataset/MyXYDataset.java:71-83 | after `removeSeries(index)`, the getters read as before below `index` and read the next index's old series and flags from `index` on |
| ChartData.MyXYDataset.AddSeries | polynomial_fitting/src/dataset/MyXYDataset.java:92-96 | series and both flags appended at the end, all three lengths kept equal |
| ChartData.SelectSeriesReadBack | polynomial_fitting/src/dataset/MyXYDataset.java:161-175 | through the getters, position k of the selection reads this dataset's position `selection[k]` |
| ChartData.MyXYDataset.GetVectX | polynomial_fitting/src/dataset/MyXYDataset.java:114-125 | the x of every item, in item order |
| ChartData.MyXYDataset.GetVectY | polynomial_fitting/src/dataset/MyXYDataset.java:133-144 | the y of every item, in item order |
| ChartData.MyXYDataset.SelectSeries | polynomial_fitting/src/dataset/MyXYDataset.java:161-175 | a fresh dataset whose k-th series and flags are this one's `selection[k]`-th; the default series are all removed first |
| ChartData.MyXYDataset.RemoveSeries | polynomial_fitting/src/dataset/MyXYDataset.java:182-186 | position `index` deleted from all three collections, later entries shifted down |
| ChartData.MyXYDataset.Clear | polynomial_fitting/src/dataset/MyXYDataset.java:191-195 | all three collections empty |
| ChartData.MyXYDataset.SeriesCount | polynomial_fitting/src/dataset/MyXYDataset.java:202-204 | the series count equals each flag list's length |
| ChartData.MyXYDataset.Clone | polynomial_fitting/src/dataset/MyXYDataset.java:222-237 | a fresh dataset with the same series and flags in the same order |
| ChartData.CloneThenChange | polynomial_fitting/src/dataset/MyXYDataset.java:222-237 | adding to and removing from a clone leave the original's series and flags as they were |
| Matrices.Cells | PCA/src/pca/PCAMethod.java:243 | the content of an array, entry by entry |
| Matrices.DotSymmetric | PCA/src/pca/PCAMethod.java:120 | the dot product does not depend on the order of its vectors |
| Matrices.Transpose | PCA/src/pca/PCAMethod.java:302 | entry (j, i) of the transpose is entry (i, j) |
| Matrices.Product | PCA/src/pca/PCAMethod.java:291 | entry (i, j) of the product is row i dotted with column j |
| Matrices.Times | PCA/src/pca/PCAMethod.java:233 | Jama's `times`: a fresh array holding the product |
| Matrices.FlattenLength | PCA/src/pca/PCAMethod.java:154 | a rows by cols matrix flattens to rows·cols values |
| Matrices.FlattenAt | PCA/src/pca/PCAMethod.java:157 | entry (i, j) lands at position i·cols + j |
| Matrices.FlattenRow | PCA/src/pca/PCAMethod.java:155-158 | row i is the cols positions from i·cols on |
| Matrices.FlatIndexInBounds | PCA/src/pca/PCAMethod.java:157 | the index i·columnDim + j stays inside the column |
| Matrices.FlatIndexInjective | PCA/src/pca/PCAMethod.java:157 | distinct cells get distinct indices |
| Matrices.FlatIndexCovers | PCA/src/pca/PCAMethod.java:157 | every position of the column is the index of exactly one cell |
| Matrices.UnflattenAt | PCA/src/pca/PCAMethod.java:308 | cell (i, j) of the unflattened matrix is position i·cols + j |
| Matrices.UnflattenFlatten | PCA/src/pca/PCAMethod.java:305-311 | the unflattening reads back the matrix that was flattened |
| Matrices.FlattenUnflatten | PCA/src/pca/PCAMethod.java:305-311 | flattening the unflattened column gives the column back |
| Matrices.FlattenByIndex | PCA/src/pca/PCAMethod.java:155-158 | a column holding every cell (i, j) at i·cols + j is the flattening |
| PrincipalComponents.TruncSumBounds | PCA/src/pca/PCAMethod.java:135-138 | the truncated sum of a row of values in 0..hi lies in 0..n·hi |
| PrincipalComponents.RowMean | PCA/src/pca/PCAMethod.java:135-139 | `sum / m` on `int`s: Euclidean quotient for a non-negative sum, the negated quotient of the magnitude for a negative one, so the mean times m never exceeds the sum in magnitude |
| PrincipalComponents.RowMeanInRange | PCA/src/pca/PCAMethod.java:135-139 | the integer mean of a row of values in 0..hi is in 0..hi |
| PrincipalComponents.RestoreCentred | PCA/src/pca/PCAMethod.java:244-249 | adding the means back undoes the centring |
| PrincipalComponents.ReconstructionOfUnchangedColumn | PCA/src/pca/PCAMethod.java:301-313 | if the eigenvectors return the centred column unchanged, the rebuilt image is the original |
| PrincipalComponents.Covariance | PCA/src/pca/PCAMethod.java:118-121 | the covariance of an n-row matrix is n by n |
| PrincipalComponents.CovarianceSymmetric | PCA/src/pca/PCAMethod.java:118-121 | the covariance is symmetric |
| PrincipalComponents.CovarianceOfColumn | PCA/src/pca/PCAMethod.java:118-121 | for the flattened column v, entry (i, j) is v_i·v_j |
| PrincipalComponents.Diagonal | PCA/src/pca/PCAMethod.java:87 | entry i is D(i, i) |
| PrincipalComponents.Selected | PCA/src/pca/PCAMethod.java:59-63 | the dim last entries, last first |
| PrincipalComponents.SelectedIsReversedTail | PCA/src/pca/PCAMethod.java:59-63 | selecting is reversing the tail of length dim |
| PrincipalComponents.SelectedLargestFirst | PCA/src/pca/PCAMethod.java:58-66 | with eigenvalues stored ascending, the selection is descending and dominates every unselected value |
| PrincipalComponents.PCAMethod.Create | PCA/src/pca/PCAMethod.java:38-46 | throws `Arithmetic` exactly for an image of rows but no columns, leaving it as it was; otherwise the image is centred in place by its row means, flattened to a fresh column, and its covariance taken, with no eigenvectors stored yet |
| PrincipalComponents.PCAMethod.FromCentred | PCA/src/pca/PCAMethod.java:38-46 | the constructor after `unifyByRow`: the given means are kept, the image flattened to a fresh column and its covariance taken |
| PrincipalComponents.PCAMethod.UnifyByRow | PCA/src/pca/PCAMethod.java:129-148 | throws `Arithmetic` (the `int` division by zero) exactly when there are rows but no columns; otherwise one mean per row, each the truncated row sum divided in Java's way by the column count, and every entry less its row's mean, in place |
| PrincipalComponents.PCAMethod.RowSum | PCA/src/pca/PCAMethod.java:135-138 | the sum of the row's entries, each cut to `int` |
| PrincipalComponents.PCAMethod.SubtractFromRow | PCA/src/pca/PCAMethod.java:140-142 | row i less the mean, every other row unchanged |
| PrincipalComponents.PCAMethod.ChangeUnifiedMatIntoRowMat | PCA/src/pca/PCAMethod.java:153-160 | a fresh rows·cols by 1 column that is the row-major flattening of the centred image |
| PrincipalComponents.PCAMethod.CalculateCovarianceMat | PCA/src/pca/PCAMethod.java:118-121 | a fresh square matrix equal to `mat·matᵀ·(1/m)` |
| PrincipalComponents.PCAMethod.EigProcess | PCA/src/pca/PCAMethod.java:75-100 | halts exactly when D or V is not square. Otherwise it appends D's diagonal to the eigenvalues and V's columns, unscaled, to the eigenvectors |
| PrincipalComponents.PCAMethod.SelectPCAEigenMat | PCA/src/pca/PCAMethod.java:54-68 | a fresh dim by (value count) matrix whose row r is the eigenvector r-th from the end, zeros past its length |
| PrincipalComponents.PCAMethod.PcaExecute | PCA/src/pca/PCAMethod.java:283-294 | stores the decomposition, selects pcaDim eigenvectors and sets the reduced column to their product with the centred column |
| PrincipalComponents.PCAMethod.ReconstructedColumn | PCA/src/pca/PCAMethod.java:302 | `pcaEigenMatᵀ · dimReductedMat` has one entry per pixel |
| PrincipalComponents.PCAMethod.GetReconstructedMat | PCA/src/pca/PCAMethod.java:301-313 | a fresh rowDim by columnDim matrix: the reconstructed column unflattened, each row's mean added |
| PrincipalComponents.PCAMethod.RestoreRows | PCA/src/pca/PCAMethod.java:303-311 | cell (i, j) is position i·m + j of the column plus mean i |
| PrincipalComponents.PCAMethod.GetOriginalMat | PCA/src/pca/PCAMethod.java:242-251 | a fresh matrix, the centred image with each row's mean added back; the object is not changed |
| PrincipalComponents.PCAMethod.WithMeansAdded | PCA/src/pca/PCAMethod.java:243-249 | a copy of the source with mean i added to row i |
| PrincipalComponents.PCAMethod.LoadMatrix | PCA/src/pca/PCAMethod.java:227-231 | the new image and its dimensions become the object's; with rows but no columns it throws `Arithmetic` and keeps the old means and column, otherwise the image is centred in place and flattened to a fresh column |
| PrincipalComponents.PCAMethod.ReconstructAnotherMatrix | PCA/src/pca/PCAMethod.java:225-235 | throws `Arithmetic` exactly for rows but no columns, after storing the image and its dimensions; otherwise re-centres and re-flattens the new image, keeps the selected eigenvectors unchanged, projects and rebuilds |
| PrincipalComponents.OriginalAfterCentring | PCA/src/pca/PCAMethod.java:242-251 | building the object throws exactly for rows but no columns; otherwise asking for the original gives back the image as it was before centring |
| PcaImageData.Grid | PCA/src/pca/Dataset.java:160-165 | the stored values as an n by m real matrix |
| PcaImageData.Dataset.constructor | PCA/src/pca/Dataset.java:21-23 | no path and no pixels |
| PcaImageData.Dataset.WithPath | PCA/src/pca/Dataset.java:25-27 | the path, and no pixels |
| PcaImageData.Dataset.GenerateDefaultDataset | PCA/src/pca/Dataset.java:45-56 | the store is replaced by max(n, 0) rows of max(m, 0) values, each the digit drawn for its cell, so in 0..9 |
| PcaImageData.Dataset.GetPixelMatrix | PCA/src/pca/Dataset.java:157-167 | throws exactly when there is no row or a row is shorter than row 0, otherwise a fresh n by m matrix of the stored values |
| PcaImageData.Dataset.GetOneColumnPixelMatrix | PCA/src/pca/Dataset.java:174-184 | with the index `i*m+j`: throws when `getPixelMatrix` does or row 0 is empty (Jama's `Matrix` reads row 0 of the empty array); otherwise a fresh n·m by 1 column that is the row-major flattening |
| PcaImageData.OneColumnAsWritten | PCA/src/pca/Dataset.java:174-184 | `getOneColumnPixelMatrix` with its `i * n + j` index: only index exceptions, and on success a column of n·m values |
| PcaImageData.WriteRowsAsWritten | PCA/src/pca/Dataset.java:178-182 | the outer loop as written: only index exceptions, and the column keeps its length |
| PcaImageData.WriteRowAsWritten | PCA/src/pca/Dataset.java:179-181 | the inner loop as written: only index exceptions, and the column keeps its length |
| PcaImageData.Reals | PCA/src/pca/Dataset.java:180 | each stored value as a real |
| PcaImageData.AsWrittenLosesCells | PCA/src/pca/Dataset.java:180 | as written, [[1,2,3],[4,5,6]] gives [1,2,4,5,6,0] where the flattening is [1..6] |
| PcaImageData.AsWrittenThrowsOnTallImage | PCA/src/pca/Dataset.java:180 | as written, [[1,2],[3,4],[5,6]] throws although the image is well-formed |
| PcaImageData.AsWrittenIndicesInBounds | PCA/src/pca/Dataset.java:177-181 | the indices i·n + j all fit exactly when n ≤ 1, m = 0 or n ≤ m |
| PcaImageData.AsWrittenCollides | PCA/src/pca/Dataset.java:180 | with 2 ≤ n < m, cells (0, n) and (1, 0) take the same index |
| PcaImageData.WriteRowInRange | PCA/src/pca/Dataset.java:179-181 | the as-written inner loop writes the row's values over positions start.. and nothing else |
| PcaImageData.WriteRowsSquare | PCA/src/pca/Dataset.java:178-182 | on a square image the as-written loop completes the flattening |
| PcaImageData.AsWrittenCorrectWhenSquare | PCA/src/pca/Dataset.java:174-184 | square images are flattened correctly as written |
| PixelBits.ArithmeticShiftRight | PCA/src/rgboperation/ImageOperation.java:73 | Java's `>>` agrees with the logical shift when the sign bit is clear |
| PixelBits.RedOf | PCA/src/rgboperation/ImageOperation.java:73 | red is in 0..255 |
| PixelBits.GreenOf | PCA/src/rgboperation/ImageOperation.java:74 | green is in 0..255 |
| PixelBits.BlueOf | PCA/src/rgboperation/ImageOperation.java:75 | blue is in 0..255 |
| PixelBits.ExtractLogical | PCA/src/rgboperation/ImageOperation.java:134-135 | the sign bits the shift copies in are masked away |
| PixelBits.ExtractionOrderIrrelevant | PCA/src/rgboperation/ImageOperation.java:49-51 | masking before the shift reads the same red and green as masking after it, for every pixel |
| PixelBits.PackGray | PCA/src/rgboperation/ImageOperation.java:79-81 | the top byte is kept and red, green and blue all become the low byte of the grey value |
| PixelBits.PackThenExtract | PCA/src/rgboperation/ImageOperation.java:73-81 | a grey value in 0..255 is read back unchanged from each channel |
| PixelBits.PackGrayDetermined | PCA/src/rgboperation/ImageOperation.java:79-81 | the packed pixel is the top byte or the grey byte copied into three bytes |
| PixelBits.PackGrayIdempotent | PCA/src/rgboperation/ImageOperation.java:79-81 | packing the same grey value twice is packing it once |
| PixelBits.OutputGrayPixel | PCA/src/pca/PCAMethod.java:355-359 | the pixel written for a grey value has a zero top byte and the grey byte in every channel |
| PixelBits.SingleChannelPixels | PCA/src/rgboperation/ImageOperation.java:141-143 | `r << 16`, `g << 8` and `b << 0` carry their channel and zero in every other byte |

## Left out

- File and image input and output are not modelled. This covers reading the CSV file, `ImageIO.read` and `ImageIO.write`, `readGrayImage` and `readRGBImage`, and the JPG writing of `outputGrayImage`. `ReadData` starts from the file's content. A failed read would leave `lines` null and then throw; that case is not modelled.
- Console output is not modelled: the `System.out` lines, `display`, `displayData` and `readPrintPixel`'s printing.
- `System.exit(-1)` in `eigProcess` becomes the `halted` result of `EigProcess` and `PcaExecute`.
- Floating-point numerics are out of scope. This covers gradient descent, `loss`, `lossGradient`, `logit`, `lnSumExp`, `getVectNorm`, the eigendecomposition, `calculatePSNR`, the sine and Gaussian noise of the chart data, the polynomial fitters, and the weighted grey formula of `transformToGray`. Their results are parameters: the trained weights, D and V, the two y functions, and the grey value.
- Doubles are modelled as mathematical reals. The model does not capture rounding, NaN, or overflow of the `(int)` cast or of the `int` sum in `unifyByRow`. The one NaN the code returns on purpose, `recallRate` with no samples, is `None`.
- EigProcess: stores V's columns unscaled. Line 96 of `PCAMethod.java` computes a normalised vector and discards it, so the model stores the columns as the code does.
- Java `Vector`s, `List`s and rows are values in the model, so aliasing is not modelled. The `LogisticRegression` constructor inserts 1.0 into the caller's own row vectors; the model gives the object new rows. `clone` shares the series objects themselves; the model has no series identity. `MyXYDataset`'s three-argument constructor shares the caller's collections. `setArgNames(this.argNames)` would empty its own argument.
- Library index exceptions that no modelled caller can reach are preconditions. Examples: `get(i)` past the end in `GetVectX`, `RemoveSeries` or `SelectSeries`; a short `classifyClass` in `RecallRate`; Jama's dimension checks in `Times` and `SelectPCAEigenMat`; a negative `dim`.
- GetReconstructedMat and ReconstructAnotherMatrix: both require `pcaEigenMat != null`. Called before `pcaExecute`, Java dereferences the null `pcaEigenMat` and throws `NullPointerException` (`PCAMethod.java:233` and `:302`); the model does not capture that throw.
- Jama's sources are not part of this model. Its `Matrix(double[][])` constructor is taken to read the length of row 0 first, as Jama 1.0.3 does, so an array with no rows throws an index exception (`GetOneColumnPixelMatrix`, `OneColumnAsWritten`).
- CalculateCovarianceMat: requires at least one column. With no columns the Java code multiplies by 1/0, which is infinity.
- AddSeries: does not model the duplicate-key check `XYSeriesCollection.addSeries` performs.
- SelectSeries: for the same reason, a selection that names one series twice returns a dataset in the model, where Java's `addSeries` at `MyXYDataset.java:171` throws `IllegalArgumentException`.
- `getPcaEigenMat`, `getDimReductedMat` and `getCovarianceMat` are not modelled. They only return copies of fields the model exposes.
- GenerateDefaultDataset: the unseeded `Random` stream is a function from cell to digit. The model does not capture which sequence of draws a real generator yields.
- The `main` methods, test drivers, the chart UI and Swing code, and `MyNumbers` are not part of this model. The two point counts of 100 are inlined as constants.

## Findings

| source | as written | input that shows it | evidently intended | confidence | as-written member | corrected member |
|---|---|---|---|---|---|---|
| PCA/src/pca/Dataset.java:180 | `getOneColumnPixelMatrix` writes cell (i, j) to index `i * n + j`, with n the row count | [[1,2,3],[4,5,6]] yields [1,2,4,5,6,0], losing the 3. [[1,2],[3,4],[5,6]] throws `ArrayIndexOutOfBoundsException` | the row-major index `i * m + j`, as `changeUnifiedMatIntoRowMat` uses at PCA/src/pca/PCAMethod.java:157 | high for any image that is not square; not executed | PcaImageData.AsWrittenLosesCells | PcaImageData.Dataset.GetOneColumnPixelMatrix |
