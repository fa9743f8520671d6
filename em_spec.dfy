/** The values the expectation-maximization loop computes, as functions of
    the data, the component records and the mixing weights, together with
    the lemmas that say what those values mean. */
module EmSpec {
  import opened Sums
  import opened Tables

  datatype Option<T> = None | Some(value: T)

  type NonNegReal = r: real | r >= 0.0

  /** The multivariate normal density of a sample under a mean and a
      covariance matrix, taken as given: (sample, mean, covariance) -> density. */
  type Density = (Vector, Vector, Matrix) -> NonNegReal

  /** The density is positive everywhere. The exact Gaussian density is
      positive for a positive-definite covariance. */
  ghost predicate PositiveDensity(density: Density) {
    forall x, mean, covar :: density(x, mean, covar) > 0.0
  }

  /** One entry of the parameter list. The density reads `covar`; the
      maximization step writes its covariance under the separate key `cov`,
      absent until the first maximization step. */
  datatype Component = Component(mean: Vector, covar: Matrix, cov: Option<Matrix>)

  /** `mixing_probs`: not yet assigned, one weight per component (after
      initialisation), or one scalar shared by every component (after a
      maximization step). */
  datatype MixingProbs = Unset | PerComponent(weights: seq<real>) | Shared(weight: real)

  /** The weights broadcast against k columns. */
  predicate Fits(mix: MixingProbs, k: nat) {
    (mix.PerComponent? && |mix.weights| == k) || mix.Shared?
  }

  predicate PositiveWeights(mix: MixingProbs, k: nat) {
    && Fits(mix, k)
    && (mix.PerComponent? ==> forall j :: 0 <= j < k ==> mix.weights[j] > 0.0)
    && (mix.Shared? ==> mix.weight > 0.0)
  }

  /** The weight that multiplies column j. */
  function Weight(mix: MixingProbs, k: nat, j: nat): real
    requires Fits(mix, k) && j < k
  {
    if mix.Shared? then mix.weight else mix.weights[j]
  }

  /** The initial weights, 1/k each. */
  function UniformWeights(k: nat): (w: seq<real>)
    requires k > 0
    ensures |w| == k
  {
    seq(k, _ => 1.0 / k as real)
  }

  /** A data set: at least one sample, every sample of the same length. */
  predicate WellFormed(X: Matrix) {
    |X| > 0 && IsTable(X, |X|, |X[0]|)
  }

  /** The likelihood table: entry (r, j) is the density of sample r under
      component j. */
  function Likelihoods(X: Matrix, params: seq<Component>, k: nat, density: Density): (L: Matrix)
    requires |params| >= k
    ensures IsTable(L, |X|, k)
  {
    seq(|X|, r requires 0 <= r < |X| =>
      seq(k, j requires 0 <= j < k => density(X[r], params[j].mean, params[j].covar) as real))
  }

  /** Column j of the table multiplied by the weight of component j. */
  function Weighted(L: Matrix, mix: MixingProbs, k: nat): (W: Matrix)
    requires IsTable(L, |L|, k) && Fits(mix, k)
    ensures IsTable(W, |L|, k)
  {
    seq(|L|, r requires 0 <= r < |L| =>
      seq(k, j requires 0 <= j < k => Weight(mix, k, j) * L[r][j]))
  }

  /** The average of the samples weighted by w: feature a is
      (sum over r of w[r] * X[r][a]) / (sum of w). */
  function WeightedMean(X: Matrix, w: Vector): (mean: Vector)
    requires WellFormed(X) && |w| == |X| && Sum(w) != 0.0
    ensures |mean| == |X[0]|
  {
    seq(|X[0]|, a requires 0 <= a < |X[0]| => Sum(Products(w, Column(X, a))) / Sum(w))
  }

  /** The scatter of the samples around `mean` weighted by w, divided by the
      total weight. */
  function WeightedScatter(X: Matrix, w: Vector, mean: Vector): (s: Matrix)
    requires WellFormed(X) && |w| == |X| && |mean| == |X[0]| && Sum(w) != 0.0
    ensures IsTable(s, |X[0]|, |X[0]|)
  {
    seq(|X[0]|, a requires 0 <= a < |X[0]| =>
      seq(|X[0]|, b requires 0 <= b < |X[0]| =>
        Sum(Products(w, Deviations(X, mean, a, b))) / Sum(w)))
  }

  /** Per sample, the product of its deviations from `mean` in features a and b. */
  function Deviations(X: Matrix, mean: Vector, a: nat, b: nat): (d: Vector)
    requires WellFormed(X) && |mean| == |X[0]| && a < |X[0]| && b < |X[0]|
    ensures |d| == |X|
  {
    seq(|X|, r requires 0 <= r < |X| => (X[r][a] - mean[a]) * (X[r][b] - mean[b]))
  }

  /** Component j after a maximization step: its mean is the average of the
      samples weighted by column j of R, its scatter around that mean is
      stored under `cov`, and `covar` is left as it was. */
  function Reestimated(X: Matrix, R: Matrix, j: nat, c: Component): Component
    requires WellFormed(X) && |R| == |X| && (forall r :: 0 <= r < |R| ==> j < |R[r]|)
    requires Sum(Column(R, j)) != 0.0
  {
    var mean := WeightedMean(X, Column(R, j));
    c.(mean := mean, cov := Some(WeightedScatter(X, Column(R, j), mean)))
  }

  /** The single mixing weight the maximization step leaves: the mean of
      the k column sums of the responsibility table. */
  function SharedWeight(R: Matrix, k: nat): real
    requires k > 0 && IsTable(R, |R|, k)
  {
    Sum(ColumnSums(R, k)) / k as real
  }

  /** The mixing weights in force at round i of the fitting loop: 1/k each
      before the first maximization step, the shared scalar N/k after it. */
  function MixAt(i: nat, n: nat, k: nat): (mix: MixingProbs)
    requires k > 0
    ensures Fits(mix, k)
    ensures n > 0 ==> PositiveWeights(mix, k)
  {
    if i == 0 then PerComponent(UniformWeights(k)) else Shared(n as real / k as real)
  }

  /** The responsibilities an expectation step computes under the parameters
      P and the weights mix: the weighted likelihood table with every row
      divided by its sum. With a positive density every entry is positive, so
      every component has positive mass. */
  ghost function Responsibilities(X: Matrix, P: seq<Component>, mix: MixingProbs, k: nat, density: Density): (R: Matrix)
    requires k > 0 && |P| >= k && PositiveDensity(density) && PositiveWeights(mix, k)
    ensures IsTable(R, |X|, k)
    ensures forall r, j :: 0 <= r < |X| && 0 <= j < k ==> R[r][j] > 0.0
    ensures |X| > 0 ==> forall j :: 0 <= j < k ==> Sum(Column(R, j)) > 0.0
  {
    ResponsibilitiesPositive(X, P, k, density, mix);
    var R := Normalized(Weighted(Likelihoods(X, P, k, density), mix, k));
    assert |X| > 0 ==> forall j :: 0 <= j < k ==> Sum(Column(R, j)) > 0.0 by {
      if |X| > 0 {
        ColumnMassPositive(R, k);
      }
    }
    R
  }

  /** The parameter list after one expectation and one maximization step
      under the weights mix: each of the first k records is re-estimated
      from the responsibilities, later records are kept, and no record's
      `covar` changes. */
  ghost function Step(X: Matrix, P: seq<Component>, mix: MixingProbs, k: nat, density: Density): (next: seq<Component>)
    requires WellFormed(X) && k > 0 && |P| >= k && PositiveDensity(density) && PositiveWeights(mix, k)
    ensures |next| == |P|
    ensures forall j :: 0 <= j < |P| ==> next[j].covar == P[j].covar
  {
    var R := Responsibilities(X, P, mix, k, density);
    seq(|P|, j requires 0 <= j < |P| => if j < k then Reestimated(X, R, j, P[j]) else P[j])
  }

  /** Round i of the fitting loop: started from `P` under the weights
      MixAt(i), its expectation step has weighted total `total` and its
      maximization step leaves `next`. */
  ghost predicate IsRound(X: Matrix, P: seq<Component>, next: seq<Component>, total: real,
                          i: nat, k: nat, density: Density)
    requires WellFormed(X) && k > 0 && PositiveDensity(density)
  {
    && |P| >= k
    && next == Step(X, P, MixAt(i, |X|, k), k, density)
    && total == TotalSum(Weighted(Likelihoods(X, P, k, density), MixAt(i, |X|, k), k))
  }

  /** `history` lists the parameter lists of a run of the fitting loop, and
      `trace` records, from index `start` on, the weighted total of each
      round's expectation step: round i starts from history[i] and leaves
      history[i + 1]. */
  ghost predicate IsRun(X: Matrix, history: seq<seq<Component>>, trace: seq<real>, start: nat, k: nat, density: Density)
    requires WellFormed(X) && k > 0 && PositiveDensity(density)
  {
    && |history| > 0
    && start + |history| - 1 <= |trace|
    && (forall i :: 0 <= i < |history| ==> |history[i]| >= k)
    && (forall i :: 0 <= i < |history| - 1 ==> IsRoundAt(X, history, trace, start, i, k, density))
  }

  /** Round i of the run `history`, whose totals start at index `start` of `trace`. */
  ghost predicate IsRoundAt(X: Matrix, history: seq<seq<Component>>, trace: seq<real>, start: nat,
                            i: nat, k: nat, density: Density)
    requires WellFormed(X) && k > 0 && PositiveDensity(density)
    requires i + 1 < |history| && start + i < |trace|
  {
    IsRound(X, history[i], history[i + 1], trace[start + i], i, k, density)
  }

  /** What round i of the fitting loop, started from `P`, leaves in the
      responsibility table and the sample assignments: the responsibilities
      of `P` under the weights MixAt(i), and their row-wise first argmax. */
  ghost predicate LeftByRound(X: Matrix, P: seq<Component>, i: nat, k: nat, density: Density,
                              R: Matrix, A: seq<nat>)
    requires WellFormed(X) && k > 0 && PositiveDensity(density)
  {
    && |P| >= k
    && R == Responsibilities(X, P, MixAt(i, |X|, k), k, density)
    && A == ArgMaxRows(R)
  }

  /** A round that starts from the last parameter list of a run, appends its
      weighted total to the trace and leaves `next` extends the run. */
  lemma RunExtends(X: Matrix, history: seq<seq<Component>>, trace: seq<real>, after: seq<real>,
                   start: nat, k: nat, density: Density, next: seq<Component>)
    requires WellFormed(X) && k > 0 && PositiveDensity(density)
    requires IsRun(X, history, trace, start, k, density)
    requires |trace| == start + |history| - 1
    requires |after| == |trace| + 1 && after[..|trace|] == trace
    requires after[|trace|] ==
      TotalSum(Weighted(Likelihoods(X, history[|history| - 1], k, density), MixAt(|history| - 1, |X|, k), k))
    requires next == Step(X, history[|history| - 1], MixAt(|history| - 1, |X|, k), k, density)
    ensures IsRun(X, history + [next], after, start, k, density)
  {
    var h := history + [next];
    forall i | 0 <= i < |h| - 1
      ensures IsRoundAt(X, h, after, start, i, k, density)
    {
      if i + 1 < |history| {
        assert IsRoundAt(X, history, trace, start, i, k, density);
        assert after[start + i] == after[..|trace|][start + i];
      }
    }
  }

  /** No round of a run changes the length of the parameter list or the
      `covar` of any record: the covariance the density reads is the one the
      run started with. */
  lemma {:induction false} RunKeepsCovar(X: Matrix, history: seq<seq<Component>>, trace: seq<real>,
                                         start: nat, k: nat, density: Density, i: nat)
    requires WellFormed(X) && k > 0 && PositiveDensity(density)
    requires IsRun(X, history, trace, start, k, density)
    requires i < |history|
    ensures |history[i]| == |history[0]|
    ensures forall j :: 0 <= j < |history[0]| ==> history[i][j].covar == history[0][j].covar
  {
    if i > 0 {
      RunKeepsCovar(X, history, trace, start, k, density, i - 1);
      assert IsRoundAt(X, history, trace, start, i - 1, k, density);
      assert history[i] == Step(X, history[i - 1], MixAt(i - 1, |X|, k), k, density);
    }
  }

  /** Appending to the trace keeps a run a run. */
  lemma RunKeptByAppend(X: Matrix, history: seq<seq<Component>>, trace: seq<real>, after: seq<real>,
                        start: nat, k: nat, density: Density)
    requires WellFormed(X) && k > 0 && PositiveDensity(density)
    requires IsRun(X, history, trace, start, k, density)
    requires |trace| <= |after| && after[..|trace|] == trace
    ensures IsRun(X, history, after, start, k, density)
  {
    forall i | 0 <= i < |history| - 1
      ensures IsRoundAt(X, history, after, start, i, k, density)
    {
      assert IsRoundAt(X, history, trace, start, i, k, density);
      assert after[..|trace|][start + i] == after[start + i];
    }
  }

  /** The parameter list that agrees with `Reestimated` on the first k
      records, computed from the responsibilities of P, and with P after them,
      is the result of a round. */
  lemma StepIsReestimation(X: Matrix, P: seq<Component>, mix: MixingProbs, k: nat, density: Density, next: seq<Component>)
    requires WellFormed(X) && k > 0 && |P| >= k && PositiveDensity(density) && PositiveWeights(mix, k)
    requires |next| == |P|
    requires forall j :: 0 <= j < k ==>
      next[j] == Reestimated(X, Responsibilities(X, P, mix, k, density), j, P[j])
    requires forall j :: k <= j < |P| ==> next[j] == P[j]
    ensures next == Step(X, P, mix, k, density)
  {
  }

  function Abs(x: real): real {
    if x < 0.0 then -x else x
  }

  /** The convergence test as it reads the first m entries of the trace:
      at least two entries, the last two within `tolerance` of each other. */
  function ConvergedAt(trace: seq<real>, m: nat, tolerance: real): bool
    requires m <= |trace|
  {
    m >= 2 && Abs(trace[m - 1] - trace[m - 2]) <= tolerance
  }

  /** The convergence test on the whole likelihood trace: false while fewer
      than two values are recorded, otherwise whether the newest two are
      within `tolerance` of each other. */
  function Converged(trace: seq<real>, tolerance: real): (c: bool)
    ensures |trace| < 2 ==> !c
    ensures |trace| >= 2 ==> (c <==> Abs(trace[|trace| - 1] - trace[|trace| - 2]) <= tolerance)
  {
    ConvergedAt(trace, |trace|, tolerance)
  }

  /** The k initial weights add up to 1. */
  lemma UniformWeightsSumToOne(k: nat)
    requires k > 0
    ensures Sum(UniformWeights(k)) == 1.0
  {
    SumOfConstant(k, 1.0 / k as real);
  }

  /** When every component carries the same positive weight c, weighting
      does not change the normalised rows: the responsibilities are those of
      the bare likelihood table. */
  lemma MixingWeightsCancel(L: Matrix, mix: MixingProbs, k: nat, c: real)
    requires IsTable(L, |L|, k) && Fits(mix, k) && PositiveRows(L)
    requires c > 0.0
    requires forall j :: 0 <= j < k ==> Weight(mix, k, j) == c
    ensures PositiveRows(Weighted(L, mix, k))
    ensures Normalized(Weighted(L, mix, k)) == Normalized(L)
  {
    var W := Weighted(L, mix, k);
    forall r | 0 <= r < |L|
      ensures Sum(W[r]) > 0.0 && NormalizeRow(W[r]) == NormalizeRow(L[r])
    {
      forall j | 0 <= j < k ensures W[r][j] == Scale(L[r], c)[j] {
      }
      assert W[r] == Scale(L[r], c);
      NormalizeRowIgnoresScale(L[r], c);
    }
  }

  /** After a maximization step the weight is one shared scalar s, so any
      positive s yields the same responsibilities. */
  lemma SharedWeightCancels(L: Matrix, s: real, k: nat)
    requires IsTable(L, |L|, k) && PositiveRows(L) && s > 0.0
    ensures PositiveRows(Weighted(L, Shared(s), k))
    ensures Normalized(Weighted(L, Shared(s), k)) == Normalized(L)
  {
    MixingWeightsCancel(L, Shared(s), k, s);
  }

  /** The initial weights 1/k are all equal, so they cancel too. */
  lemma UniformWeightsCancel(L: Matrix, k: nat)
    requires k > 0 && IsTable(L, |L|, k) && PositiveRows(L)
    ensures PositiveRows(Weighted(L, PerComponent(UniformWeights(k)), k))
    ensures Normalized(Weighted(L, PerComponent(UniformWeights(k)), k)) == Normalized(L)
  {
    MixingWeightsCancel(L, PerComponent(UniformWeights(k)), k, 1.0 / k as real);
  }

  /** When every row of R sums to 1 the shared weight is N/k. */
  lemma SharedWeightIsSamplesOverComponents(R: Matrix, k: nat)
    requires k > 0 && IsTable(R, |R|, k)
    requires forall r :: 0 <= r < |R| ==> Sum(R[r]) == 1.0
    ensures SharedWeight(R, k) == |R| as real / k as real
  {
    ColumnSumsAddUpToTotal(R, k);
    assert RowSums(R) == seq(|R|, _ => 1.0);
    SumOfConstant(|R|, 1.0);
  }

  /** With a positive density and positive weights, every weighted row has a
      positive sum and every responsibility is positive. */
  lemma ResponsibilitiesPositive(X: Matrix, params: seq<Component>, k: nat, density: Density, mix: MixingProbs)
    requires k > 0 && |params| >= k
    requires PositiveDensity(density) && PositiveWeights(mix, k)
    ensures PositiveRows(Weighted(Likelihoods(X, params, k, density), mix, k))
    ensures var R := Normalized(Weighted(Likelihoods(X, params, k, density), mix, k));
      forall r, j :: 0 <= r < |R| && 0 <= j < k ==> R[r][j] > 0.0
  {
    var L := Likelihoods(X, params, k, density);
    var W := Weighted(L, mix, k);
    forall r | 0 <= r < |W|
      ensures Sum(W[r]) > 0.0
      ensures forall j :: 0 <= j < k ==> W[r][j] > 0.0
    {
      forall j | 0 <= j < k ensures W[r][j] > 0.0 {
        assert L[r][j] == density(X[r], params[j].mean, params[j].covar);
        assert Weight(mix, k, j) > 0.0;
      }
      SumOfPositive(W[r]);
    }
  }

  /** A table with positive entries and at least one row gives every
      component positive mass, and so a positive shared weight. */
  lemma ColumnMassPositive(R: Matrix, k: nat)
    requires k > 0 && |R| > 0 && IsTable(R, |R|, k)
    requires forall r, j :: 0 <= r < |R| && 0 <= j < k ==> R[r][j] > 0.0
    ensures forall j :: 0 <= j < k ==> Sum(Column(R, j)) > 0.0
    ensures SharedWeight(R, k) > 0.0
  {
    forall j | 0 <= j < k ensures Sum(Column(R, j)) > 0.0 {
      SumOfPositive(Column(R, j));
    }
    SumOfPositive(ColumnSums(R, k));
  }

  /** With nonnegative weights the weighted mean is a convex combination of
      the samples: in every feature it lies between the smallest and the
      largest sample value. */
  lemma WeightedMeanWithinBounds(X: Matrix, w: Vector, a: nat, lo: real, hi: real)
    requires WellFormed(X) && |w| == |X| && Sum(w) > 0.0
    requires forall r :: 0 <= r < |w| ==> w[r] >= 0.0
    requires a < |X[0]|
    requires forall r :: 0 <= r < |X| ==> lo <= X[r][a] <= hi
    ensures lo <= WeightedMean(X, w)[a] <= hi
  {
    var col := Column(X, a);
    WeightedSumBounds(w, col, lo, hi);
    QuotientBounds(Sum(Products(w, col)), Sum(w), lo, hi);
  }

  lemma QuotientBounds(p: real, s: real, lo: real, hi: real)
    requires s > 0.0 && lo * s <= p <= hi * s
    ensures lo <= p / s <= hi
  {
    assert lo == lo * s / s && hi == hi * s / s;
  }

  /** When all samples coincide, their weighted mean is that sample. */
  lemma WeightedMeanOfIdenticalSamples(X: Matrix, w: Vector)
    requires WellFormed(X) && |w| == |X| && Sum(w) > 0.0
    requires forall r :: 0 <= r < |w| ==> w[r] >= 0.0
    requires forall r :: 0 <= r < |X| ==> X[r] == X[0]
    ensures WeightedMean(X, w) == X[0]
  {
    forall a | 0 <= a < |X[0]| ensures WeightedMean(X, w)[a] == X[0][a] {
      WeightedMeanWithinBounds(X, w, a, X[0][a], X[0][a]);
    }
  }

  /** The weighted scatter is a symmetric matrix. */
  lemma ScatterIsSymmetric(X: Matrix, w: Vector, mean: Vector, a: nat, b: nat)
    requires WellFormed(X) && |w| == |X| && |mean| == |X[0]| && Sum(w) != 0.0
    requires a < |X[0]| && b < |X[0]|
    ensures WeightedScatter(X, w, mean)[a][b] == WeightedScatter(X, w, mean)[b][a]
  {
    assert Deviations(X, mean, a, b) == Deviations(X, mean, b, a);
  }

  /** No convergence test on the trace passed at any length in (lo, hi]. */
  predicate NoConvergenceIn(trace: seq<real>, lo: nat, hi: nat, tolerance: real)
    requires hi <= |trace|
  {
    forall m :: lo < m <= hi ==> !ConvergedAt(trace, m, tolerance)
  }

  /** Appending to the trace does not change the outcome of any test made
      on its earlier lengths. */
  lemma AppendKeepsConvergenceTests(before: seq<real>, after: seq<real>, lo: nat, hi: nat, tolerance: real)
    requires |after| == |before| + 1 && after[..|before|] == before
    requires hi <= |before|
    ensures lo <= |before| ==> after[..lo] == before[..lo]
    ensures ConvergedAt(after, |before|, tolerance) == Converged(before, tolerance)
    ensures NoConvergenceIn(after, lo, hi, tolerance) == NoConvergenceIn(before, lo, hi, tolerance)
  {
    forall m | 0 <= m < |before| ensures after[m] == before[m] {
      assert after[..|before|][m] == after[m];
    }
    forall m | 0 <= m <= |before|
      ensures ConvergedAt(after, m, tolerance) == ConvergedAt(before, m, tolerance)
    {
    }
  }

  /** A failed test at length hi + 1 extends a run of failed tests. It
      follows from the definition of `NoConvergenceIn` alone, so it needs no
      body; the fitting loop calls it to keep its invariant. */
  lemma NoConvergenceExtends(trace: seq<real>, lo: nat, hi: nat, tolerance: real)
    requires hi < |trace| && lo <= hi
    requires NoConvergenceIn(trace, lo, hi, tolerance)
    requires !ConvergedAt(trace, hi + 1, tolerance)
    ensures NoConvergenceIn(trace, lo, hi + 1, tolerance)
  {
  }
}
