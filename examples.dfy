/** The example the source's tests are built on: the 3x3 identity matrix
    with labels A, B and C, plus the three failing constructions. */
module IdentityExample {
  import opened Wrappers
  import opened MatrixSums
  import opened ConfusionMatrixMetrics
  import Rates

  const identity: Matrix := [[1, 0, 0], [0, 1, 0], [0, 0, 1]]
  const names: seq<string> := ["A", "B", "C"]

  /** An empty matrix, a non-square one and a label count that does not
      match each fail with their own error; the identity example is built. */
  lemma Construction()
    ensures Create([], []) == Failure(EmptyMatrix)
    ensures Create([[1], [2]], []) == Failure(NotSquare)
    ensures Create([[1]], []) == Failure(LabelMismatch)
    ensures Create(identity, names) == Success(Engine(identity, names))
    ensures Engine(identity, names).Valid()
  {
  }

  /** The whole-matrix sums of the identity: three cells, all on the diagonal. */
  lemma WholeMatrixSums()
    ensures Total(identity, 3) == 3 && Trace(identity, 3) == 3
  {
    assert RowSum(identity[0], 3) == 1 && RowSum(identity[1], 3) == 1 && RowSum(identity[2], 3) == 1;
    assert Total(identity, 1) == 1 && Total(identity, 2) == 2;
    assert Trace(identity, 1) == 1 && Trace(identity, 2) == 2;
  }

  /** The table of A: the diagonal cell, nothing else in its row or column,
      and the two other diagonal cells outside them. */
  lemma TableOfA()
    ensures Table(Engine(identity, names), "A") == Success(Rates.Counts(1, 0, 0, 2))
  {
    var e := Engine(identity, names);
    assert GetIndex(e, "A") == Success(0);
    assert RowSumExcept(identity[0], 3, 0) == 0;
    assert ColumnSumExcept(identity, 3, 0) == 0;
    assert RowSumExcept(identity[1], 3, 0) == 1 && RowSumExcept(identity[2], 3, 0) == 1;
    assert BlockExcept(identity, 3, 0) == 2;
  }

  /** D is not a label, so every per-class query fails. */
  lemma UnknownLabelFails()
    ensures var e := Engine(identity, names);
            && Table(e, "D") == Failure(UnknownLabel)
            && TruePositiveRate(e, "D") == Failure(UnknownLabel) && TrueNegativeRate(e, "D") == Failure(UnknownLabel)
            && PositivePredictiveValue(e, "D") == Failure(UnknownLabel) && NegativePredictiveValue(e, "D") == Failure(UnknownLabel)
            && FalseNegativeRate(e, "D") == Failure(UnknownLabel) && FalsePositiveRate(e, "D") == Failure(UnknownLabel)
            && FalseDiscoveryRate(e, "D") == Failure(UnknownLabel) && FalseOmissionRate(e, "D") == Failure(UnknownLabel)
            && CorrectedFalseOmissionRate(e, "D") == Failure(UnknownLabel)
            && F1Score(e, "D") == Failure(UnknownLabel) && MatthewsTerms(e, "D") == Failure(UnknownLabel)
            && Informedness(e, "D") == Failure(UnknownLabel) && Markedness(e, "D") == Failure(UnknownLabel)
  {
    assert "D" !in names;
  }

  /** Every rate of A is perfect: the four rates and F1, informedness,
      markedness and the Matthews coefficient are 1, their complements 0. */
  lemma RatesOfA()
    ensures var e := Engine(identity, names);
            && TruePositiveRate(e, "A") == Success(Some(1.0))
            && TrueNegativeRate(e, "A") == Success(Some(1.0))
            && PositivePredictiveValue(e, "A") == Success(Some(1.0))
            && NegativePredictiveValue(e, "A") == Success(Some(1.0))
            && FalseNegativeRate(e, "A") == Success(Some(0.0))
            && FalsePositiveRate(e, "A") == Success(Some(0.0))
            && FalseDiscoveryRate(e, "A") == Success(Some(0.0))
            && FalseOmissionRate(e, "A") == Success(Some(0.0))
            && CorrectedFalseOmissionRate(e, "A") == Success(Some(0.0))
            && F1Score(e, "A") == Success(Some(1.0))
            && Informedness(e, "A") == Success(Some(1.0))
            && Markedness(e, "A") == Success(Some(1.0))
            && MatthewsTerms(e, "A") == Success((2, 4))
            && Rates.IsMatthews(Table(e, "A").value, 1.0)
  {
    TableOfA();
  }

  /** The whole-matrix queries on the identity: total 3, true 3, false 0, accuracy 1. */
  method WholeMatrixQueries() returns (total: nat, trueCount: nat, falseCount: nat, accuracy: Option<real>)
    ensures total == 3 && trueCount == 3 && falseCount == 0 && accuracy == Some(1.0)
  {
    var e := Engine(identity, names);
    WholeMatrixSums();
    total := TotalCount(e);
    trueCount := TrueCount(e);
    falseCount := FalseCount(e);
    accuracy := Accuracy(e);
  }

  /** The per-class counts of A on the identity, and its table [[1, 0], [0, 2]]. */
  method QueriesOfA() returns (tp: Result<nat, Error>, tn: Result<nat, Error>, fp: Result<nat, Error>,
                               fn: Result<nat, Error>, positive: Result<nat, Error>,
                               negative: Result<nat, Error>, table: Result<seq<seq<nat>>, Error>)
    ensures tp == Success(1) && tn == Success(2) && fp == Success(0) && fn == Success(0)
    ensures positive == Success(1) && negative == Success(2)
    ensures table == Success([[1, 0], [0, 2]])
  {
    var e := Engine(identity, names);
    TableOfA();
    tp := TruePositiveCount(e, "A");
    tn := TrueNegativeCount(e, "A");
    fp := FalsePositiveCount(e, "A");
    fn := FalseNegativeCount(e, "A");
    positive := PositiveCount(e, "A");
    negative := NegativeCount(e, "A");
    table := ConfusionTable(e, "A");
  }

  /** Asking for the true positives of D fails with UnknownLabel. */
  method QueryOfUnknownLabel() returns (tp: Result<nat, Error>)
    ensures tp == Failure(UnknownLabel)
  {
    var e := Engine(identity, names);
    assert "D" !in e.labels;
    tp := TruePositiveCount(e, "D");
  }
}

/** Two 2x2 matrices beyond the identity: one whose class table separates the
    coded false omission rate from the intended one, and one whose second row
    is too short. */
module TwoByTwoExamples {
  import opened Wrappers
  import opened MatrixSums
  import opened ConfusionMatrixMetrics
  import Rates

  /** On [[1, 1], [0, 2]] the table of A is TP 1, FN 1, FP 0, TN 2. The
      engine's false omission rate, as the source computes it, is 1/2 like
      the false negative rate; the corrected rate is 1/3. */
  lemma FalseOmissionRateOfSkewedMatrix()
    ensures var e := Engine([[1, 1], [0, 2]], ["A", "B"]);
            && e.Valid()
            && Table(e, "A") == Success(Rates.Counts(1, 1, 0, 2))
            && FalseOmissionRate(e, "A") == Success(Some(0.5))
            && FalseNegativeRate(e, "A") == Success(Some(0.5))
            && CorrectedFalseOmissionRate(e, "A") == Success(Some(1.0 / 3.0))
  {
    var m: Matrix := [[1, 1], [0, 2]];
    var e := Engine(m, ["A", "B"]);
    assert GetIndex(e, "A") == Success(0);
    assert RowSumExcept(m[0], 2, 0) == 1;
    assert ColumnSumExcept(m, 2, 0) == 0;
    assert RowSumExcept(m[1], 2, 0) == 2;
    assert BlockExcept(m, 2, 0) == 2;
  }

  /** [[1, 2], [3]] passes the source's construction checks, which look at
      row 0 only, but its cell (1, 1) is missing, so the engine is not valid. */
  lemma RaggedMatrixPassesConstruction()
    ensures Create([[1, 2], [3]], ["A", "B"]) == Success(Engine([[1, 2], [3]], ["A", "B"]))
    ensures !Engine([[1, 2], [3]], ["A", "B"]).Valid()
  {
    var m: Matrix := [[1, 2], [3]];
    assert |m[1]| < |m|;
  }
}
