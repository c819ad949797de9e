# Confusion-matrix metrics, modelled in Dafny

`useConfusionMatrixMetrics` takes a square matrix of counts and one label per
row. The source is not consistent about the orientation. Its FN and FP
formulas (lines 109-133 of src/lib/useConfusionMatrixMetrics.js) take the false
negatives of class `k` from row `k` and the false positives from column `k`, so
rows read as actual classes and columns as predicted ones. Its doc comments at
lines 136 and 144 call TP + FN and total − positive the numbers of positive and
negative predictions, which reads the other way. The model follows the
formulas. It returns a set of closures over that matrix:

- construction checks;
- label lookup (`getIndex`);
- whole-matrix counts (total, true, false, accuracy);
- per-class counts (TP, TN, FP, FN, positive, negative);
- the per-class rates and scores built from those counts, and the 2×2 confusion table.

The inputs are never changed.

The project has six modules:

- `Wrappers` (wrappers.dfy): `Option` and `Result`. A `Result` failure stands for an exception the source throws. `None` stands for a non-finite number (NaN or Infinity).
- `MatrixSums` (sums.dfy): recursive prefix sums over the matrix. These are the row sum, the row without one column, the total, the trace, the off-diagonal cells, the column without its diagonal cell, and the block outside one row and column. The file also holds the lemmas that show these sums partition the matrix.
- `Rates` (rates.dfy): the per-class 2×2 table `Counts(tp, fn, fp, tn)` and every rate over it, as exact rationals. Each rate is proved to lie in its range and, where it has one, to complement its partner rate. It also holds the Matthews numerator and radicand, with the bound that puts the coefficient in [-1, 1].
- `ConfusionMatrixMetrics` (metrics.dfy): the engine.
  - `Create` makes the source's three checks in the source's order.
  - `GetIndex` and `IndexOf` resolve a label to its first position.
  - Every counting loop of the source is a method with loop invariants. Each one is proved equal to a `MatrixSums` function.
  - The per-label rate functions fail exactly when the label is unknown.
- `IdentityExample` (examples.dfy): the source's test cases on the 3×3 identity matrix with labels A, B, C, and the three failing constructions.
- `TwoByTwoExamples` (examples.dfy): one 2×2 matrix on which the coded false omission rate and the intended one differ, and one whose second row is too short.

The engine is an immutable datatype `Engine(matrix, labels)`. Its fields are
what `getMatrix` and `getLabels` return. Queries require `Engine.Valid()`:
there is one label per row, and every row is at least as long as the matrix
has rows. Every loop reads `matrix[i][j]` for `i, j < matrix.length`, and
`Valid()` says exactly that those cells exist. `Create` checks only row 0,
as the source does. It is proved to give a valid engine exactly when every
row is long enough.

## Model

| member | source | states |
|---|---|---|
| ConfusionMatrixMetrics.Create | src/lib/useConfusionMatrixMetrics.js:8-15 | Checks run in the source's order. An empty matrix fails with EmptyMatrix. Otherwise a matrix whose row count differs from row 0's length fails with NotSquare. Otherwise a label count different from the row count fails with LabelMismatch. Success holds exactly when all three checks pass. The engine then keeps the given matrix and labels, and it is valid exactly when every row covers the matrix. |
| ConfusionMatrixMetrics.IndexOf | src/lib/useConfusionMatrixMetrics.js:38 | Returns -1 exactly when the label is absent. Otherwise it returns a position holding the label with no earlier position holding it, so it is the first match. |
| ConfusionMatrixMetrics.GetIndex | src/lib/useConfusionMatrixMetrics.js:37-43 | Fails, with UnknownLabel, exactly when the label is not among the labels. Otherwise it returns the smallest index holding the label. |
| ConfusionMatrixMetrics.Table | src/lib/useConfusionMatrixMetrics.js:83-133 | The label's TP/FN/FP/TN. It fails, with UnknownLabel, exactly when getIndex fails. |
| ConfusionMatrixMetrics.TablePartitionsTotal | src/lib/useConfusionMatrixMetrics.js:83-149 | For a known label, TP + FN + FP + TN equals the matrix total, so each of the four is at most the total. TP + FN is the label's whole row. |
| ConfusionMatrixMetrics.TotalCount | src/lib/useConfusionMatrixMetrics.js:49-57 | The double loop returns the sum of every cell (Total). |
| ConfusionMatrixMetrics.TrueCount | src/lib/useConfusionMatrixMetrics.js:63-69 | The loop returns the sum of the diagonal (Trace). |
| ConfusionMatrixMetrics.FalseCount | src/lib/useConfusionMatrixMetrics.js:75-77 | The false count plus the true count is the total. The false count is the off-diagonal sum and never negative. |
| ConfusionMatrixMetrics.Accuracy | src/lib/useConfusionMatrixMetrics.js:279-289 | The loop's correct and incorrect sums give trueCount / totalCount. The result is undefined (NaN) exactly when the total is zero, and otherwise lies in [0, 1]. |
| ConfusionMatrixMetrics.TruePositiveCount | src/lib/useConfusionMatrixMetrics.js:83-86 | Fails with UnknownLabel exactly for an unknown label. Otherwise it returns the diagonal cell of the label's table. |
| ConfusionMatrixMetrics.TrueNegativeCount | src/lib/useConfusionMatrixMetrics.js:92-103 | Fails with UnknownLabel exactly for an unknown label. Otherwise the double loop returns the sum of the cells outside the label's row and column (the table's TN). |
| ConfusionMatrixMetrics.FalsePositiveCount | src/lib/useConfusionMatrixMetrics.js:109-118 | Fails with UnknownLabel exactly for an unknown label. Otherwise the loop returns the label's column without its diagonal cell (FP). |
| ConfusionMatrixMetrics.FalseNegativeCount | src/lib/useConfusionMatrixMetrics.js:124-133 | Fails with UnknownLabel exactly for an unknown label. Otherwise the loop returns the label's row without its diagonal cell (FN). |
| ConfusionMatrixMetrics.PositiveCount | src/lib/useConfusionMatrixMetrics.js:139-141 | Fails exactly for an unknown label. Otherwise it returns TP + FN, which equals the full sum of the label's row. |
| ConfusionMatrixMetrics.NegativeCount | src/lib/useConfusionMatrixMetrics.js:147-149 | Fails exactly for an unknown label. Otherwise it returns the total less the positive count. This is never negative and equals FP + TN, so positive and negative add up to the total. |
| ConfusionMatrixMetrics.ConfusionTable | src/lib/useConfusionMatrixMetrics.js:268-273 | Fails exactly for an unknown label. Otherwise it returns exactly [[TP, FN], [FP, TN]] of the label's table, computed by the four count methods. |
| ConfusionMatrixMetrics.TruePositiveRate | src/lib/useConfusionMatrixMetrics.js:155-157 | Fails, with UnknownLabel, exactly for an unknown label. Otherwise it is TP over the positive count, which is the label's whole row. It is defined exactly when that row sums to non-zero, and the rate times the row sum is TP. |
| ConfusionMatrixMetrics.TrueNegativeRate | src/lib/useConfusionMatrixMetrics.js:163-165 | Fails, with UnknownLabel, exactly for an unknown label. Otherwise it is TN over the negative count, total − positive. It is defined exactly when that count is non-zero, and the rate times the count is TN. It agrees with the TNR of the label's table. |
| ConfusionMatrixMetrics.PositivePredictiveValue | src/lib/useConfusionMatrixMetrics.js:171-174 | Fails, with UnknownLabel, exactly for an unknown label. Otherwise it is the PPV of the label's table. |
| ConfusionMatrixMetrics.NegativePredictiveValue | src/lib/useConfusionMatrixMetrics.js:180-183 | Fails, with UnknownLabel, exactly for an unknown label. Otherwise it is the NPV of the label's table. |
| ConfusionMatrixMetrics.FalseNegativeRate | src/lib/useConfusionMatrixMetrics.js:189-191 | Fails, with UnknownLabel, exactly for an unknown label. Otherwise it is the FNR of the label's table. |
| ConfusionMatrixMetrics.FalsePositiveRate | src/lib/useConfusionMatrixMetrics.js:197-199 | Fails, with UnknownLabel, exactly for an unknown label. Otherwise it is the FPR of the label's table. |
| ConfusionMatrixMetrics.FalseDiscoveryRate | src/lib/useConfusionMatrixMetrics.js:205-208 | Fails, with UnknownLabel, exactly for an unknown label. Otherwise it is the FDR of the label's table. |
| ConfusionMatrixMetrics.FalseOmissionRate | src/lib/useConfusionMatrixMetrics.js:214-217 | Fails, with UnknownLabel, exactly for an unknown label. Otherwise it is FN / (FN + TP) of the label's table, as coded. For every label it returns exactly what FalseNegativeRate returns (see Findings). |
| ConfusionMatrixMetrics.CorrectedFalseOmissionRate | src/lib/useConfusionMatrixMetrics.js:214-217 | Fails, with UnknownLabel, exactly for an unknown label. Otherwise it is the intended FN / (FN + TN) of the label's table. It is defined exactly when the label's NPV is, and the two add up to 1. |
| ConfusionMatrixMetrics.F1Score | src/lib/useConfusionMatrixMetrics.js:223-229 | Fails, with UnknownLabel, exactly for an unknown label. Otherwise it is the F1 score of the label's table. |
| ConfusionMatrixMetrics.MatthewsTerms | src/lib/useConfusionMatrixMetrics.js:235-244 | Fails, with UnknownLabel, exactly for an unknown label. Otherwise it returns the pair (TP·TN − FP·FN, (TP+FP)(TP+FN)(TN+FP)(TN+FN)) of the label's table. The numerator squared never exceeds the radicand, and a zero radicand comes with a zero numerator. |
| ConfusionMatrixMetrics.Informedness | src/lib/useConfusionMatrixMetrics.js:250-252 | Fails, with UnknownLabel, exactly for an unknown label. Otherwise it is the informedness of the label's table. |
| ConfusionMatrixMetrics.Markedness | src/lib/useConfusionMatrixMetrics.js:258-262 | Fails, with UnknownLabel, exactly for an unknown label. Otherwise it is the markedness of the label's table. |
| MatrixSums.RowSplit | src/lib/useConfusionMatrixMetrics.js:124-141 | A row's sum is the row without column k plus cell k (cell k counts only when the prefix reaches it), so TP + FN is the whole row. |
| MatrixSums.TotalIsTracePlusOffDiagonal | src/lib/useConfusionMatrixMetrics.js:49-77 | The total is the diagonal plus the off-diagonal cells, so trueCount + falseCount == totalCount. These are also accuracy's correct + incorrect. |
| MatrixSums.TotalSplitsAround | src/lib/useConfusionMatrixMetrics.js:92-133 | Over any prefix of rows, the total is row k (once it is reached) plus the rest of column k plus the block outside row k and column k. |
| MatrixSums.FourWayPartition | src/lib/useConfusionMatrixMetrics.js:83-133 | The diagonal cell, the rest of row k, the rest of column k and the remaining block add up to the total. |
| Rates.Counts.AsTable | src/lib/useConfusionMatrixMetrics.js:268-273 | The table is 2×2, row-major [[TP, FN], [FP, TN]]. |
| Rates.Ratio | src/lib/useConfusionMatrixMetrics.js:156 | Defined exactly when the denominator is non-zero. Its value times the denominator is the numerator, and it is non-negative. |
| Rates.TruePositiveRate | src/lib/useConfusionMatrixMetrics.js:155-157 | Defined exactly when TP + FN ≠ 0. It then lies in [0, 1], and times TP + FN it gives TP. |
| Rates.TrueNegativeRate | src/lib/useConfusionMatrixMetrics.js:163-165 | Defined exactly when FP + TN ≠ 0. It then lies in [0, 1], and times FP + TN it gives TN. |
| Rates.PositivePredictiveValue | src/lib/useConfusionMatrixMetrics.js:171-174 | Defined exactly when TP + FP ≠ 0. It then lies in [0, 1], and times TP + FP it gives TP. |
| Rates.NegativePredictiveValue | src/lib/useConfusionMatrixMetrics.js:180-183 | Defined exactly when TN + FN ≠ 0. It then lies in [0, 1], and times TN + FN it gives TN. |
| Rates.FalseNegativeRate | src/lib/useConfusionMatrixMetrics.js:189-191 | Defined exactly when TPR is, then in [0, 1], and TPR + FNR == 1. |
| Rates.FalsePositiveRate | src/lib/useConfusionMatrixMetrics.js:197-199 | Defined exactly when TNR is, then in [0, 1], and TNR + FPR == 1. |
| Rates.FalseDiscoveryRate | src/lib/useConfusionMatrixMetrics.js:205-208 | Defined exactly when PPV is, then in [0, 1], and PPV + FDR == 1. |
| Rates.FalseOmissionRateAsWritten | src/lib/useConfusionMatrixMetrics.js:214-217 | The rate as coded, FN / (FN + TP), is identical to the false negative rate, and lies in [0, 1] when defined. |
| Rates.FalseOmissionRateAsWrittenIsNotNpvComplement | src/lib/useConfusionMatrixMetrics.js:214-217 | On TP = 1, FN = 1, FP = 0, TN = 2, the coded rate plus NPV is not 1. |
| Rates.FalseOmissionRate | src/lib/useConfusionMatrixMetrics.js:214-217 | The corrected FN / (FN + TN) is defined exactly when NPV is, then in [0, 1], and NPV + FOR == 1. |
| Rates.F1Score | src/lib/useConfusionMatrixMetrics.js:223-229 | Defined exactly when TP + FP + FN ≠ 0, and then lies in [0, 1]. |
| Rates.F1IsHarmonicMean | src/lib/useConfusionMatrixMetrics.js:223-229 | When TP ≠ 0, precision and recall are defined and F1 is their harmonic mean 2PR / (P + R). |
| Rates.Informedness | src/lib/useConfusionMatrixMetrics.js:250-252 | Defined exactly when TPR and TNR are both defined, and then lies in [-1, 1]. |
| Rates.Markedness | src/lib/useConfusionMatrixMetrics.js:258-262 | Defined exactly when PPV and NPV are both defined, and then lies in [-1, 1]. |
| Rates.MatthewsNumerator | src/lib/useConfusionMatrixMetrics.js:241 | TP·TN − FP·FN, which is the determinant of the class's 2×2 table [[TP, FN], [FP, TN]]. |
| Rates.MatthewsRadicand | src/lib/useConfusionMatrixMetrics.js:242 | The radicand is a natural number. It is zero exactly when one of TP+FP, TP+FN, TN+FP, TN+FN is zero. |
| Rates.MatthewsZeroRadicand | src/lib/useConfusionMatrixMetrics.js:240-243 | A zero radicand forces a zero numerator, so the division is 0/0 and never x/0 with x ≠ 0. |
| Rates.MatthewsNumeratorBounded | src/lib/useConfusionMatrixMetrics.js:240-243 | (TP·TN − FP·FN)² is at most the radicand. |
| Rates.MatthewsBounded | src/lib/useConfusionMatrixMetrics.js:235-244 | Any value that is the coefficient (right sign, square times radicand equals squared numerator) lies in [-1, 1]. |
| Rates.IsMatthews | src/lib/useConfusionMatrixMetrics.js:240-243 | Characterises numerator / sqrt(radicand) without a square root. The radicand is non-zero, v has the numerator's sign, and v²·radicand equals the numerator squared. |
| Rates.MatthewsUnique | src/lib/useConfusionMatrixMetrics.js:240-243 | At most one value satisfies IsMatthews, so it pins the coefficient down. |
| IdentityExample.Construction | src/__tests__/useConfusionMatrixMetrics_test.js:13-21 | `[]` fails with EmptyMatrix, `[[1],[2]]` with NotSquare, and `[[1]]` with no labels with LabelMismatch. The identity example is built and is valid. |
| IdentityExample.WholeMatrixSums | src/__tests__/useConfusionMatrixMetrics_test.js:38-44 | On the identity, total and trace are both 3. |
| IdentityExample.TableOfA | src/__tests__/useConfusionMatrixMetrics_test.js:50-64 | A's table is TP 1, FN 0, FP 0, TN 2. |
| IdentityExample.UnknownLabelFails | src/__tests__/useConfusionMatrixMetrics_test.js:32-35 | Label D fails with UnknownLabel in the table and in every per-class rate. |
| IdentityExample.RatesOfA | src/__tests__/useConfusionMatrixMetrics_test.js:74-122 | For A, TPR, TNR, PPV, NPV, F1, informedness and markedness are 1, and FNR, FPR, FDR and FOR are 0. The Matthews terms are (2, 4), and 1 is A's coefficient. |
| TwoByTwoExamples.FalseOmissionRateOfSkewedMatrix | src/lib/useConfusionMatrixMetrics.js:214-217 | On [[1, 1], [0, 2]] with labels A, B, A's table is (1, 1, 0, 2). The engine's false omission rate and false negative rate are both 1/2, and the corrected rate is 1/3. |
| TwoByTwoExamples.RaggedMatrixPassesConstruction | src/lib/useConfusionMatrixMetrics.js:8-15 | `[[1, 2], [3]]` with labels A, B passes all three construction checks, because only row 0's length is checked. The engine it builds is not valid, since cell (1, 1) is missing. |
| IdentityExample.WholeMatrixQueries | src/__tests__/useConfusionMatrixMetrics_test.js:38-133 | The count methods return total 3, true 3, false 0 and accuracy 1. |
| IdentityExample.QueriesOfA | src/__tests__/useConfusionMatrixMetrics_test.js:50-129 | The count methods return TP 1, TN 2, FP 0, FN 0, positive 1 and negative 2 for A. The table method returns [[1, 0], [0, 2]]. |
| IdentityExample.QueryOfUnknownLabel | src/__tests__/useConfusionMatrixMetrics_test.js:32-35 | getTruePositiveCount('D') fails with UnknownLabel. |

## Left out

- IEEE-754 arithmetic. Rates are exact rationals. NaN and Infinity from a zero denominator are both `None`, and `None` carries through `1 - x` and `x + y - 1`. Rounding and the NaN/Infinity distinction are not modelled.
- Counts beyond 2^53. JavaScript numbers lose integer precision there; the model's counts are unbounded natural numbers. Negative or fractional cells are excluded by the type `nat`.
- Ragged matrices. A matrix whose row 0 has the right length passes construction even if a later row is shorter. In the source, a query that reads a missing cell gets `undefined` and yields NaN or `undefined` (`getTruePositiveCount` returns the missing cell itself, and `getConfusionTable` can hold it). Queries that read only existing cells, such as `getFalseNegativeCount` of a label whose row is complete, still return ordinary numbers. The model answers none of them: `TwoByTwoExamples.RaggedMatrixPassesConstruction` shows `[[1, 2], [3]]` is accepted by `Create` but is not `Valid`. The queries here require every row to be long enough (`Engine.Valid`). `Create` states exactly when that holds.
- The exact JavaScript `TypeError` message for an empty matrix. It is modelled as the distinct error `EmptyMatrix`. The other error constructors stand for the source's messages, which are not modelled as strings.
- ConfusionMatrixMetrics.MatthewsTerms: `Math.sqrt` is a floating-point call, so the model does not compute the coefficient. It returns the numerator and the radicand. `Rates.IsMatthews` characterises the coefficient without a square root, and `Rates.MatthewsBounded` bounds it.
- Reference sharing in `getMatrix` and `getLabels`. They are the `matrix` and `labels` fields of `Engine`, which `Create` proves are the inputs themselves.
- The per-label rate functions read the label's table (`Table`) from the sum functions. They do not call the count methods, because Dafny functions cannot call methods. Each count method is proved to return the matching cell of `Table`.
- jest.config.js and .eslintrc.js, which configure tooling only.

## Findings

| source | as written | input that shows it | evidently intended | confidence | as-written member | corrected member |
|---|---|---|---|---|---|---|
| src/lib/useConfusionMatrixMetrics.js:214-217 | `getFalseOmissionRate` returns FN / (FN + TP). Its denominator is the positive count, so it equals `getFalseNegativeRate` in exact arithmetic (the doubles can differ in the last place). | TP = 1, FN = 1, FP = 0, TN = 2 (for example matrix [[1, 1], [0, 2]], label of row 0). The coded rate is 1/2, NPV is 2/3, and the two do not sum to 1. | FN / (FN + TN), the complement of the negative predictive value. This mirrors how `getFalseDiscoveryRate` (lines 205-208) complements precision. | high; not executed | Rates.FalseOmissionRateAsWritten, Rates.FalseOmissionRateAsWrittenIsNotNpvComplement | Rates.FalseOmissionRate, ConfusionMatrixMetrics.CorrectedFalseOmissionRate |
