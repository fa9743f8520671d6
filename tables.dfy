/** N×k tables of reals (one row per sample, one column per mixture
    component) and the row/column operations the E- and M-steps apply to
    them: row sums, column sums, row normalisation and the first-maximum
    argmax of each row. */
module Tables {
  import opened Sums

  type Vector = seq<real>
  type Matrix = seq<seq<real>>

  /** `t` has `rows` rows, each of length `cols`. */
  predicate IsTable(t: Matrix, rows: nat, cols: nat) {
    |t| == rows && forall r :: 0 <= r < |t| ==> |t[r]| == cols
  }

  /** Column j of a table (numpy `t[:, j]`). */
  function Column(t: Matrix, j: nat): (c: Vector)
    requires forall r :: 0 <= r < |t| ==> j < |t[r]|
    ensures |c| == |t|
  {
    seq(|t|, r requires 0 <= r < |t| => t[r][j])
  }

  function RowSums(t: Matrix): (s: Vector)
    ensures |s| == |t|
  {
    seq(|t|, r requires 0 <= r < |t| => Sum(t[r]))
  }

  /** Sum of every entry (numpy `t.sum()`). */
  function TotalSum(t: Matrix): real {
    Sum(RowSums(t))
  }

  /** Vector of the k column sums (numpy `t.sum(axis=0)`). */
  function ColumnSums(t: Matrix, k: nat): (s: Vector)
    requires IsTable(t, |t|, k)
    ensures |s| == k
  {
    seq(k, j requires 0 <= j < k => Sum(Column(t, j)))
  }

  predicate PositiveRows(t: Matrix) {
    forall r :: 0 <= r < |t| ==> Sum(t[r]) > 0.0
  }

  /** A row divided by its own sum. */
  function NormalizeRow(row: Vector): (n: Vector)
    requires Sum(row) > 0.0
    ensures |n| == |row|
  {
    seq(|row|, j requires 0 <= j < |row| => row[j] / Sum(row))
  }

  /** Every row divided by its own sum
      (numpy `t /= t.sum(axis=1)[:, np.newaxis]`). */
  function Normalized(t: Matrix): (n: Matrix)
    requires PositiveRows(t)
    ensures |n| == |t|
    ensures forall r :: 0 <= r < |t| ==> |n[r]| == |t[r]|
  {
    seq(|t|, r requires 0 <= r < |t| => NormalizeRow(t[r]))
  }

  /** i is the lowest index at which `row` attains its maximum. */
  predicate IsFirstMax(row: Vector, i: nat) {
    && i < |row|
    && (forall j :: 0 <= j < |row| ==> row[j] <= row[i])
    && (forall j :: 0 <= j < i ==> row[j] < row[i])
  }

  /** numpy `argmax` of one row: the first index of a maximal entry. */
  function FirstArgMax(row: Vector): (i: nat)
    requires |row| > 0
    ensures IsFirstMax(row, i)
    decreases |row|
  {
    if |row| == 1 then 0
    else
      var best := FirstArgMax(row[..|row| - 1]);
      if row[|row| - 1] > row[best] then |row| - 1 else best
  }

  /** numpy `argmax(axis=1)`: the first-maximum index of every row. */
  function ArgMaxRows(t: Matrix): (a: seq<nat>)
    requires forall r :: 0 <= r < |t| ==> |t[r]| > 0
    ensures |a| == |t|
    ensures forall r :: 0 <= r < |t| ==> IsFirstMax(t[r], a[r])
  {
    seq(|t|, r requires 0 <= r < |t| => FirstArgMax(t[r]))
  }

  /** The first maximum is unique, so the assignment of a row is determined
      by the row alone. */
  lemma FirstMaxIsUnique(row: Vector, i: nat, j: nat)
    requires IsFirstMax(row, i) && IsFirstMax(row, j)
    ensures i == j
  {
    assert row[i] == row[j];
  }

  /** A normalised nonnegative row is a probability distribution: its
      entries lie in [0, 1] and add up to 1. */
  lemma NormalizedRowIsDistribution(row: Vector)
    requires Sum(row) > 0.0
    requires forall j :: 0 <= j < |row| ==> row[j] >= 0.0
    ensures Sum(NormalizeRow(row)) == 1.0
    ensures forall j :: 0 <= j < |row| ==> 0.0 <= NormalizeRow(row)[j] <= 1.0
  {
    NormalizedRowSumsToOne(row);
    SumOfNonNegative(NormalizeRow(row));
  }

  /** A row with a positive sum normalises to a row summing to 1. */
  lemma NormalizedRowSumsToOne(row: Vector)
    requires Sum(row) > 0.0
    ensures Sum(NormalizeRow(row)) == 1.0
  {
    var s := Sum(row);
    forall j | 0 <= j < |row| ensures NormalizeRow(row)[j] == Scale(row, 1.0 / s)[j] {
      assert row[j] / s == (1.0 / s) * row[j];
    }
    assert NormalizeRow(row) == Scale(row, 1.0 / s);
    SumOfScaled(row, 1.0 / s);
  }

  /** A common non-zero factor cancels from a quotient. */
  lemma CommonFactorCancels(a: real, c: real, s: real)
    requires c != 0.0 && s != 0.0
    ensures (c * a) / (c * s) == a / s
  {
    var q := a / s;
    assert a == q * s;
    calc {
      (c * a) / (c * s);
      == (c * (q * s)) / (c * s);
      == ((c * s) * q) / (c * s);
      == q;
    }
  }

  /** Scaling a row by a positive factor does not change its normalisation. */
  lemma NormalizeRowIgnoresScale(row: Vector, c: real)
    requires c > 0.0 && Sum(row) > 0.0
    ensures Sum(Scale(row, c)) > 0.0
    ensures NormalizeRow(Scale(row, c)) == NormalizeRow(row)
  {
    SumOfScaled(row, c);
    var s := Sum(row);
    forall j | 0 <= j < |row|
      ensures NormalizeRow(Scale(row, c))[j] == NormalizeRow(row)[j]
    {
      var scaled := Scale(row, c);
      assert scaled[j] == c * row[j] && Sum(scaled) == c * s;
      assert NormalizeRow(scaled)[j] == scaled[j] / Sum(scaled);
      CommonFactorCancels(row[j], c, s);
    }
  }

  /** Adding the column sums gives the same total as adding the row sums. */
  lemma {:induction false} ColumnSumsAddUpToTotal(t: Matrix, k: nat)
    requires IsTable(t, |t|, k)
    ensures Sum(ColumnSums(t, k)) == TotalSum(t)
  {
    if |t| == 0 {
      assert ColumnSums(t, k) == seq(k, _ => 0.0);
      SumOfConstant(k, 0.0);
    } else {
      var n := |t| - 1;
      var front, last := t[..n], t[n];
      forall j | 0 <= j < k
        ensures ColumnSums(t, k)[j] == Plus(ColumnSums(front, k), last)[j]
      {
        assert Column(t, j)[..n] == Column(front, j);
      }
      assert ColumnSums(t, k) == Plus(ColumnSums(front, k), last);
      SumOfPlus(ColumnSums(front, k), last);
      ColumnSumsAddUpToTotal(front, k);
      assert RowSums(t)[..n] == RowSums(front);
    }
  }
}
