/** The metrics engine that `useConfusionMatrixMetrics` builds from a square
    count matrix and its labels: construction checks, label resolution, the
    whole-matrix and per-class counts (each a loop over the matrix, as in the
    source) and the per-class rates derived from them.

    The false negatives of class k are row k without its diagonal cell and
    the false positives column k without it, so rows read as actual classes
    and columns as predicted ones. */
module ConfusionMatrixMetrics {
  import opened Wrappers
  import opened MatrixSums
  import Rates

  /** The errors the source throws. */
  datatype Error =
    | EmptyMatrix    // a matrix without rows: reading the length of row 0 fails
    | NotSquare      // "Confusion matrix must be square"
    | LabelMismatch  // "Confusion matrix and labels should have the same length"
    | UnknownLabel   // "The label does not exist"

  /** The state every query closure shares: the matrix and labels as given,
      never changed. `matrix` and `labels` are what getMatrix and getLabels return. */
  datatype Engine = Engine(matrix: Matrix, labels: seq<string>) {

    /** The labels index the rows, and every cell the loops read exists. */
    predicate Valid() {
      |labels| == |matrix| && Covers(matrix)
    }
  }

  /** Construction: the three checks of the source, in its order. The square
      check looks at row 0 only. */
  function Create(matrix: Matrix, labels: seq<string>): (r: Result<Engine, Error>)
    ensures |matrix| == 0 ==> r == Failure(EmptyMatrix)
    ensures |matrix| != 0 && |matrix[0]| != |matrix| ==> r == Failure(NotSquare)
    ensures |matrix| != 0 && |matrix[0]| == |matrix| && |labels| != |matrix| ==> r == Failure(LabelMismatch)
    ensures r.Success? <==> |matrix| != 0 && |matrix[0]| == |matrix| && |labels| == |matrix|
    ensures r.Success? ==> r.value.matrix == matrix && r.value.labels == labels
    ensures r.Success? ==> (r.value.Valid() <==> Covers(matrix))
  {
    if |matrix| == 0 then Failure(EmptyMatrix)
    else if |matrix| != |matrix[0]| then Failure(NotSquare)
    else if |labels| != |matrix| then Failure(LabelMismatch)
    else Success(Engine(matrix, labels))
  }

  /** Array.prototype.indexOf: the first position of x in s, or -1. */
  function IndexOf(s: seq<string>, x: string): (k: int)
    ensures -1 <= k < |s|
    ensures k == -1 <==> x !in s
    ensures 0 <= k ==> s[k] == x && forall j :: 0 <= j < k ==> s[j] != x
  {
    if |s| == 0 then -1
    else if s[0] == x then 0
    else
      var k := IndexOf(s[1..], x);
      if k == -1 then -1 else k + 1
  }

  /** getIndex: the first position of the label, or UnknownLabel. */
  function GetIndex(e: Engine, name: string): (r: Result<nat, Error>)
    ensures r.Failure? <==> name !in e.labels
    ensures r.Failure? ==> r.error == UnknownLabel
    ensures r.Success? ==> r.value < |e.labels| && e.labels[r.value] == name
    ensures r.Success? ==> forall j :: 0 <= j < r.value ==> e.labels[j] != name
  {
    var k := IndexOf(e.labels, name);
    if k == -1 then Failure(UnknownLabel) else Success(k)
  }

  /** The 2x2 table of class k: the diagonal cell, the rest of row k, the
      rest of column k and everything outside both. */
  function ClassCounts(m: Matrix, k: nat): Rates.Counts
    requires Covers(m) && k < |m|
  {
    Rates.Counts(m[k][k], RowSumExcept(m[k], |m|, k), ColumnSumExcept(m, |m|, k), BlockExcept(m, |m|, k))
  }

  /** The table of a label, failing exactly when getIndex does. */
  function Table(e: Engine, name: string): (r: Result<Rates.Counts, Error>)
    requires e.Valid()
    ensures r.Failure? <==> name !in e.labels
    ensures r.Failure? ==> r.error == UnknownLabel
  {
    var k :- GetIndex(e, name);
    Success(ClassCounts(e.matrix, k))
  }

  /** The sum of the label's row: its positive count. */
  function RowTotal(e: Engine, name: string): nat
    requires e.Valid() && name in e.labels
  {
    RowSum(e.matrix[GetIndex(e, name).value], |e.matrix|)
  }

  /** For a known label the four cells of its table partition the matrix, so
      none of them exceeds the total; TP + FN is the full row of the label. */
  lemma TablePartitionsTotal(e: Engine, name: string)
    requires e.Valid() && name in e.labels
    ensures var c, total := Table(e, name).value, Total(e.matrix, |e.matrix|);
            && c.tp + c.fn + c.fp + c.tn == total
            && c.tp <= total && c.fn <= total && c.fp <= total && c.tn <= total
            && c.tp + c.fn == RowTotal(e, name)
  {
    var k := GetIndex(e, name).value;
    FourWayPartition(e.matrix, k);
    RowSplit(e.matrix[k], |e.matrix|, k);
  }

  // ---------------------------------------------------------------------
  // Whole-matrix counts

  /** getTotalCount: every cell, row by row. */
  method TotalCount(e: Engine) returns (total: nat)
    requires e.Valid()
    ensures total == Total(e.matrix, |e.matrix|)
  {
    var n := |e.matrix|;
    total := 0;
    var i := 0;
    while i < n
      invariant 0 <= i <= n
      invariant total == Total(e.matrix, i)
    {
      var j := 0;
      while j < n
        invariant 0 <= j <= n
        invariant total == Total(e.matrix, i) + RowSum(e.matrix[i], j)
      {
        total := total + e.matrix[i][j];
        j := j + 1;
      }
      i := i + 1;
    }
  }

  /** getTrueCount: the diagonal. */
  method TrueCount(e: Engine) returns (count: nat)
    requires e.Valid()
    ensures count == Trace(e.matrix, |e.matrix|)
  {
    var n := |e.matrix|;
    count := 0;
    var i := 0;
    while i < n
      invariant 0 <= i <= n
      invariant count == Trace(e.matrix, i)
    {
      count := count + e.matrix[i][i];
      i := i + 1;
    }
  }

  /** getFalseCount: total less true count, which is the off-diagonal sum, so
      true and false counts add up to the total. */
  method FalseCount(e: Engine) returns (count: nat)
    requires e.Valid()
    ensures count + Trace(e.matrix, |e.matrix|) == Total(e.matrix, |e.matrix|)
    ensures count == OffDiagonal(e.matrix, |e.matrix|)
  {
    var total := TotalCount(e);
    var trueCount := TrueCount(e);
    TotalIsTracePlusOffDiagonal(e.matrix, |e.matrix|);
    count := total - trueCount;
  }

  /** getAccuracy: the diagonal over the total, through separate sums of the
      correct and incorrect cells; not a number when the matrix sums to zero. */
  method Accuracy(e: Engine) returns (r: Option<real>)
    requires e.Valid()
    ensures r == Rates.Ratio(Trace(e.matrix, |e.matrix|), Total(e.matrix, |e.matrix|))
    ensures r.Some? <==> Total(e.matrix, |e.matrix|) != 0
    ensures r.Some? ==> 0.0 <= r.value <= 1.0
  {
    var n := |e.matrix|;
    var correct, incorrect := 0, 0;
    var i := 0;
    while i < n
      invariant 0 <= i <= n
      invariant correct == Trace(e.matrix, i)
      invariant incorrect == OffDiagonal(e.matrix, i)
    {
      var j := 0;
      while j < n
        invariant 0 <= j <= n
        invariant correct == Trace(e.matrix, i) + (if i < j then e.matrix[i][i] else 0)
        invariant incorrect == OffDiagonal(e.matrix, i) + RowSumExcept(e.matrix[i], j, i)
      {
        if i == j {
          correct := correct + e.matrix[i][j];
        } else {
          incorrect := incorrect + e.matrix[i][j];
        }
        j := j + 1;
      }
      i := i + 1;
    }
    TotalIsTracePlusOffDiagonal(e.matrix, n);
    Rates.RatioAtMostOne(correct, correct + incorrect);
    r := Rates.Ratio(correct, correct + incorrect);
  }

  // ---------------------------------------------------------------------
  // Per-class counts: each resolves the label first and fails with it

  /** getTruePositiveCount: the diagonal cell of the label. */
  method TruePositiveCount(e: Engine, name: string) returns (r: Result<nat, Error>)
    requires e.Valid()
    ensures name !in e.labels ==> r == Failure(UnknownLabel)
    ensures name in e.labels ==> r == Success(Table(e, name).value.tp)
  {
    var index :- GetIndex(e, name);
    r := Success(e.matrix[index][index]);
  }

  /** getTrueNegativeCount: every cell outside the label's row and column. */
  method TrueNegativeCount(e: Engine, name: string) returns (r: Result<nat, Error>)
    requires e.Valid()
    ensures name !in e.labels ==> r == Failure(UnknownLabel)
    ensures name in e.labels ==> r == Success(Table(e, name).value.tn)
  {
    var index :- GetIndex(e, name);
    var n := |e.matrix|;
    var count := 0;
    var i := 0;
    while i < n
      invariant 0 <= i <= n
      invariant count == BlockExcept(e.matrix, i, index)
    {
      var j := 0;
      while j < n
        invariant 0 <= j <= n
        invariant count == BlockExcept(e.matrix, i, index)
                           + (if i != index then RowSumExcept(e.matrix[i], j, index) else 0)
      {
        if i != index && j != index {
          count := count + e.matrix[i][j];
        }
        j := j + 1;
      }
      i := i + 1;
    }
    r := Success(count);
  }

  /** getFalsePositiveCount: the label's column without its diagonal cell. */
  method FalsePositiveCount(e: Engine, name: string) returns (r: Result<nat, Error>)
    requires e.Valid()
    ensures name !in e.labels ==> r == Failure(UnknownLabel)
    ensures name in e.labels ==> r == Success(Table(e, name).value.fp)
  {
    var index :- GetIndex(e, name);
    var n := |e.matrix|;
    var count := 0;
    var i := 0;
    while i < n
      invariant 0 <= i <= n
      invariant count == ColumnSumExcept(e.matrix, i, index)
    {
      if i != index {
        count := count + e.matrix[i][index];
      }
      i := i + 1;
    }
    r := Success(count);
  }

  /** getFalseNegativeCount: the label's row without its diagonal cell. */
  method FalseNegativeCount(e: Engine, name: string) returns (r: Result<nat, Error>)
    requires e.Valid()
    ensures name !in e.labels ==> r == Failure(UnknownLabel)
    ensures name in e.labels ==> r == Success(Table(e, name).value.fn)
  {
    var index :- GetIndex(e, name);
    var n := |e.matrix|;
    var count := 0;
    var i := 0;
    while i < n
      invariant 0 <= i <= n
      invariant count == RowSumExcept(e.matrix[index], i, index)
    {
      if i != index {
        count := count + e.matrix[index][i];
      }
      i := i + 1;
    }
    r := Success(count);
  }

  /** getPositiveCount: TP + FN, which is the label's whole row. */
  method PositiveCount(e: Engine, name: string) returns (r: Result<nat, Error>)
    requires e.Valid()
    ensures name !in e.labels ==> r == Failure(UnknownLabel)
    ensures name in e.labels ==> r.Success? && r.value == Table(e, name).value.tp + Table(e, name).value.fn
    ensures name in e.labels ==> r.Success? && r.value == RowTotal(e, name)
  {
    var tp := TruePositiveCount(e, name);
    var fn := FalseNegativeCount(e, name);
    if tp.Failure? {
      r := tp;
    } else {
      TablePartitionsTotal(e, name);
      r := Success(tp.value + fn.value);
    }
  }

  /** getNegativeCount: total less positive, which is FP + TN, so positive
      and negative counts add up to the total. */
  method NegativeCount(e: Engine, name: string) returns (r: Result<nat, Error>)
    requires e.Valid()
    ensures name !in e.labels ==> r == Failure(UnknownLabel)
    ensures name in e.labels ==> r.Success? && r.value == Table(e, name).value.fp + Table(e, name).value.tn
    ensures name in e.labels ==>
              r.Success? && r.value + RowTotal(e, name) == Total(e.matrix, |e.matrix|)
  {
    var total := TotalCount(e);
    var positive :- PositiveCount(e, name);
    TablePartitionsTotal(e, name);
    r := Success(total - positive);
  }

  /** getConfusionTable: [[TP, FN], [FP, TN]] from the four count queries. */
  method ConfusionTable(e: Engine, name: string) returns (r: Result<seq<seq<nat>>, Error>)
    requires e.Valid()
    ensures name !in e.labels ==> r == Failure(UnknownLabel)
    ensures name in e.labels ==> r == Success(Table(e, name).value.AsTable())
  {
    var tp := TruePositiveCount(e, name);
    var fn := FalseNegativeCount(e, name);
    var fp := FalsePositiveCount(e, name);
    var tn := TrueNegativeCount(e, name);
    if tp.Failure? {
      r := Failure(tp.error);
    } else {
      r := Success([[tp.value, fn.value], [fp.value, tn.value]]);
    }
  }

  // ---------------------------------------------------------------------
  // Per-class rates: each fails exactly when the label is unknown, and is
  // otherwise the rate of the label's table (`None` for NaN or Infinity)

  /** getTruePositiveRate: TP over the positive count, the label's whole row. */
  function TruePositiveRate(e: Engine, name: string): (r: Result<Option<real>, Error>)
    requires e.Valid()
    ensures r.Failure? <==> name !in e.labels
    ensures name !in e.labels ==> r == Failure(UnknownLabel)
    ensures r.Success? ==> r.value == Rates.TruePositiveRate(Table(e, name).value)
    ensures r.Success? ==> (r.value.Some? <==> RowTotal(e, name) != 0)
    ensures r.Success? && r.value.Some? ==> r.value.value * RowTotal(e, name) as real == Table(e, name).value.tp as real
  {
    var c :- Table(e, name);
    TablePartitionsTotal(e, name);
    Success(Rates.TruePositiveRate(c))
  }

  /** getTrueNegativeRate: TN over the negative count, the total less the label's row. */
  function TrueNegativeRate(e: Engine, name: string): (r: Result<Option<real>, Error>)
    requires e.Valid()
    ensures r.Failure? <==> name !in e.labels
    ensures name !in e.labels ==> r == Failure(UnknownLabel)
    ensures r.Success? ==> r.value == Rates.TrueNegativeRate(Table(e, name).value)
    ensures r.Success? ==> (r.value.Some? <==> Total(e.matrix, |e.matrix|) != RowTotal(e, name))
    ensures r.Success? && r.value.Some? ==>
              r.value.value * (Total(e.matrix, |e.matrix|) - RowTotal(e, name)) as real == Table(e, name).value.tn as real
  {
    var c :- Table(e, name);
    TablePartitionsTotal(e, name);
    Success(Rates.TrueNegativeRate(c))
  }

  /** getPositivePredictiveValue: TP / (TP + FP). */
  function PositivePredictiveValue(e: Engine, name: string): (r: Result<Option<real>, Error>)
    requires e.Valid()
    ensures r.Failure? <==> name !in e.labels
    ensures name !in e.labels ==> r == Failure(UnknownLabel)
    ensures r.Success? ==> r.value == Rates.PositivePredictiveValue(Table(e, name).value)
  {
    var c :- Table(e, name);
    Success(Rates.PositivePredictiveValue(c))
  }

  /** getNegativePredictiveValue: TN / (TN + FN). */
  function NegativePredictiveValue(e: Engine, name: string): (r: Result<Option<real>, Error>)
    requires e.Valid()
    ensures r.Failure? <==> name !in e.labels
    ensures name !in e.labels ==> r == Failure(UnknownLabel)
    ensures r.Success? ==> r.value == Rates.NegativePredictiveValue(Table(e, name).value)
  {
    var c :- Table(e, name);
    Success(Rates.NegativePredictiveValue(c))
  }

  /** getFalseNegativeRate: 1 - TPR. */
  function FalseNegativeRate(e: Engine, name: string): (r: Result<Option<real>, Error>)
    requires e.Valid()
    ensures r.Failure? <==> name !in e.labels
    ensures name !in e.labels ==> r == Failure(UnknownLabel)
    ensures r.Success? ==> r.value == Rates.FalseNegativeRate(Table(e, name).value)
  {
    var c :- Table(e, name);
    Success(Rates.FalseNegativeRate(c))
  }

  /** getFalsePositiveRate: 1 - TNR. */
  function FalsePositiveRate(e: Engine, name: string): (r: Result<Option<real>, Error>)
    requires e.Valid()
    ensures r.Failure? <==> name !in e.labels
    ensures name !in e.labels ==> r == Failure(UnknownLabel)
    ensures r.Success? ==> r.value == Rates.FalsePositiveRate(Table(e, name).value)
  {
    var c :- Table(e, name);
    Success(Rates.FalsePositiveRate(c))
  }

  /** getFalseDiscoveryRate: FP / (FP + TP). */
  function FalseDiscoveryRate(e: Engine, name: string): (r: Result<Option<real>, Error>)
    requires e.Valid()
    ensures r.Failure? <==> name !in e.labels
    ensures name !in e.labels ==> r == Failure(UnknownLabel)
    ensures r.Success? ==> r.value == Rates.FalseDiscoveryRate(Table(e, name).value)
  {
    var c :- Table(e, name);
    Success(Rates.FalseDiscoveryRate(c))
  }

  /** getFalseOmissionRate as the source computes it, FN / (FN + TP): the
      same answer as getFalseNegativeRate for every label. */
  function FalseOmissionRate(e: Engine, name: string): (r: Result<Option<real>, Error>)
    requires e.Valid()
    ensures r.Failure? <==> name !in e.labels
    ensures name !in e.labels ==> r == Failure(UnknownLabel)
    ensures r.Success? ==> r.value == Rates.FalseOmissionRateAsWritten(Table(e, name).value)
    ensures r == FalseNegativeRate(e, name)
  {
    var c :- Table(e, name);
    Success(Rates.FalseOmissionRateAsWritten(c))
  }

  /** The false omission rate FN / (FN + TN) that getFalseOmissionRate
      evidently intends: defined exactly when the negative predictive value
      is, and its complement. */
  function CorrectedFalseOmissionRate(e: Engine, name: string): (r: Result<Option<real>, Error>)
    requires e.Valid()
    ensures r.Failure? <==> name !in e.labels
    ensures name !in e.labels ==> r == Failure(UnknownLabel)
    ensures r.Success? ==> r.value == Rates.FalseOmissionRate(Table(e, name).value)
    ensures r.Success? ==> (r.value.Some? <==> NegativePredictiveValue(e, name).value.Some?)
    ensures r.Success? && r.value.Some? ==> r.value.value + NegativePredictiveValue(e, name).value.value == 1.0
  {
    var c :- Table(e, name);
    Success(Rates.FalseOmissionRate(c))
  }

  /** getF1Score: 2TP / (2TP + FP + FN). */
  function F1Score(e: Engine, name: string): (r: Result<Option<real>, Error>)
    requires e.Valid()
    ensures r.Failure? <==> name !in e.labels
    ensures name !in e.labels ==> r == Failure(UnknownLabel)
    ensures r.Success? ==> r.value == Rates.F1Score(Table(e, name).value)
  {
    var c :- Table(e, name);
    Success(Rates.F1Score(c))
  }

  /** getMatthewsCorrelationCoefficient without its square root: the
      numerator TP*TN - FP*FN and the radicand, whose square the numerator's
      square never exceeds. */
  function MatthewsTerms(e: Engine, name: string): (r: Result<(int, nat), Error>)
    requires e.Valid()
    ensures r.Failure? <==> name !in e.labels
    ensures name !in e.labels ==> r == Failure(UnknownLabel)
    ensures r.Success? ==> r.value == (Rates.MatthewsNumerator(Table(e, name).value), Rates.MatthewsRadicand(Table(e, name).value))
    ensures r.Success? ==> r.value.0 * r.value.0 <= r.value.1
    ensures r.Success? ==> (r.value.1 == 0 ==> r.value.0 == 0)
  {
    var c :- Table(e, name);
    Rates.MatthewsNumeratorBounded(c);
    Success((Rates.MatthewsNumerator(c), Rates.MatthewsRadicand(c)))
  }

  /** getInformedness: TPR + TNR - 1. */
  function Informedness(e: Engine, name: string): (r: Result<Option<real>, Error>)
    requires e.Valid()
    ensures r.Failure? <==> name !in e.labels
    ensures name !in e.labels ==> r == Failure(UnknownLabel)
    ensures r.Success? ==> r.value == Rates.Informedness(Table(e, name).value)
  {
    var c :- Table(e, name);
    Success(Rates.Informedness(c))
  }

  /** getMarkedness: PPV + NPV - 1. */
  function Markedness(e: Engine, name: string): (r: Result<Option<real>, Error>)
    requires e.Valid()
    ensures r.Failure? <==> name !in e.labels
    ensures name !in e.labels ==> r == Failure(UnknownLabel)
    ensures r.Success? ==> r.value == Rates.Markedness(Table(e, name).value)
  {
    var c :- Table(e, name);
    Success(Rates.Markedness(c))
  }
}
