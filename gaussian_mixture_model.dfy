/** The Gaussian mixture model fitted by expectation-maximization: the
    parameter list, the mixing weights, the likelihood trace, the
    responsibility table and the sample assignments are fields that each
    step updates, as the Python class does. */
module GaussianMixture {
  import opened Sums
  import opened Tables
  import opened EmSpec

  class GaussianMixtureModel {
    const k: nat
    const maxIterations: nat
    const tolerance: real
    /** The multivariate Gaussian density, supplied from outside the model. */
    const density: Density

    var parameters: seq<Component>
    var likelihoods: seq<real>
    /** Empty until the first expectation step. */
    var sampleAssignments: seq<nat>
    /** Empty until the first expectation step. */
    var responsibility: Matrix
    var mixingProbs: MixingProbs

    constructor (density: Density, k: nat := 2, maxIterations: nat := 500, tolerance: real := 0.001)
      ensures this.k == k && this.maxIterations == maxIterations
      ensures this.tolerance == tolerance && this.density == density
      ensures parameters == [] && likelihoods == []
      ensures sampleAssignments == [] && responsibility == [] && mixingProbs == Unset
    {
      this.k := k;
      this.maxIterations := maxIterations;
      this.tolerance := tolerance;
      this.density := density;
      parameters := [];
      likelihoods := [];
      sampleAssignments := [];
      responsibility := [];
      mixingProbs := Unset;
    }

    /** Sets k equal weights and appends k components whose means are the
        sample rows `picks` names (the random choice, made by the caller) and
        whose covariance is `covar` (the covariance of the whole data set,
        computed by the caller). */
    method InitRandomGaussians(X: Matrix, covar: Matrix, picks: seq<nat>)
      requires k > 0 && |X| > 0
      requires |picks| == k && forall i :: 0 <= i < k ==> picks[i] < |X|
      modifies this`parameters, this`mixingProbs
      ensures mixingProbs == PerComponent(UniformWeights(k))
      ensures Sum(mixingProbs.weights) == 1.0
      ensures |parameters| == old(|parameters|) + k
      ensures parameters[..old(|parameters|)] == old(parameters)
      ensures forall i :: 0 <= i < k ==>
        parameters[old(|parameters|) + i] == Component(X[picks[i]], covar, None)
      ensures forall i :: old(|parameters|) <= i < |parameters| ==> parameters[i].mean in X
    {
      mixingProbs := PerComponent(UniformWeights(k));
      UniformWeightsSumToOne(k);
      ghost var n0 := |parameters|;
      var i := 0;
      while i < k
        invariant 0 <= i <= k
        invariant mixingProbs == PerComponent(UniformWeights(k))
        invariant |parameters| == n0 + i
        invariant parameters[..n0] == old(parameters)
        invariant forall c :: 0 <= c < i ==> parameters[n0 + c] == Component(X[picks[c]], covar, None)
      {
        var params := Component(X[picks[i]], covar, None);
        parameters := parameters + [params];
        i := i + 1;
      }
      forall i | n0 <= i < |parameters| ensures parameters[i].mean in X {
        assert parameters[n0 + (i - n0)].mean == X[picks[i - n0]];
      }
    }

    /** The N×k table of densities, filled column by column. */
    method GetLikelihoods(X: Matrix) returns (L: Matrix)
      requires |parameters| >= k
      ensures L == Likelihoods(X, parameters, k, density)
    {
      ghost var spec := Likelihoods(X, parameters, k, density);
      var n := |X|;
      L := seq(n, _ => seq(k, _ => 0.0));
      var j := 0;
      while j < k
        invariant 0 <= j <= k
        invariant IsTable(L, n, k)
        invariant forall r, c :: 0 <= r < n && 0 <= c < k ==>
          L[r][c] == if c < j then spec[r][c] else 0.0
      {
        var r := 0;
        while r < n
          invariant 0 <= r <= n
          invariant IsTable(L, n, k)
          invariant forall r', c :: 0 <= r' < n && 0 <= c < k ==>
            L[r'][c] == if c < j || (c == j && r' < r) then spec[r'][c] else 0.0
        {
          L := L[r := L[r][j := density(X[r], parameters[j].mean, parameters[j].covar)]];
          r := r + 1;
        }
        j := j + 1;
      }
      forall r | 0 <= r < n ensures L[r] == spec[r] {
      }
    }

    /** The expectation step: weight the likelihood table, append its total
        to the trace, normalise every row into the responsibilities and
        assign every sample to the first component of largest
        responsibility. */
    method Expectation(X: Matrix)
      requires k > 0 && |parameters| >= k && Fits(mixingProbs, k)
      requires PositiveRows(Weighted(Likelihoods(X, parameters, k, density), mixingProbs, k))
      modifies this`likelihoods, this`responsibility, this`sampleAssignments
      ensures |likelihoods| == old(|likelihoods|) + 1
      ensures likelihoods[..old(|likelihoods|)] == old(likelihoods)
      ensures var weighted := Weighted(Likelihoods(X, parameters, k, density), mixingProbs, k);
        && likelihoods[old(|likelihoods|)] == TotalSum(weighted)
        && responsibility == Normalized(weighted)
      ensures IsTable(responsibility, |X|, k)
      ensures forall r :: 0 <= r < |X| ==> Sum(responsibility[r]) == 1.0
      ensures |sampleAssignments| == |X|
      ensures forall r :: 0 <= r < |X| ==>
        sampleAssignments[r] < k && IsFirstMax(responsibility[r], sampleAssignments[r])
      ensures sampleAssignments == ArgMaxRows(responsibility)
    {
      var L := GetLikelihoods(X);
      var weighted := Weighted(L, mixingProbs, k);
      likelihoods := likelihoods + [TotalSum(weighted)];
      ghost var unnormalized := weighted;
      weighted := Normalized(weighted);
      sampleAssignments := ArgMaxRows(weighted);
      responsibility := weighted;
      forall r | 0 <= r < |X| ensures Sum(responsibility[r]) == 1.0 {
        NormalizedRowSumsToOne(unnormalized[r]);
      }
    }

    /** The maximization step: every component's mean becomes the
        responsibility-weighted average of the samples and its weighted
        scatter is stored under `cov`; the mixing weights become one shared
        scalar, the mean of the column sums. */
    method Maximization(X: Matrix)
      requires WellFormed(X) && k > 0 && |parameters| >= k
      requires IsTable(responsibility, |X|, k)
      requires forall j :: 0 <= j < k ==> Sum(Column(responsibility, j)) != 0.0
      modifies this`parameters, this`mixingProbs
      ensures |parameters| == old(|parameters|)
      ensures forall j :: 0 <= j < k ==>
        parameters[j] == Reestimated(X, responsibility, j, old(parameters[j]))
      ensures forall j :: 0 <= j < k ==> parameters[j].covar == old(parameters[j].covar)
      ensures forall j :: k <= j < |parameters| ==> parameters[j] == old(parameters[j])
      ensures mixingProbs == Shared(SharedWeight(responsibility, k))
    {
      var i := 0;
      while i < k
        invariant 0 <= i <= k
        invariant |parameters| == old(|parameters|)
        invariant forall j :: 0 <= j < i ==>
          parameters[j] == Reestimated(X, responsibility, j, old(parameters[j]))
        invariant forall j :: i <= j < |parameters| ==> parameters[j] == old(parameters[j])
      {
        var resp := Column(responsibility, i);
        var mean := WeightedMean(X, resp);
        var covariance := WeightedScatter(X, resp, mean);
        parameters := parameters[i := parameters[i].(mean := mean, cov := Some(covariance))];
        i := i + 1;
      }
      mixingProbs := Shared(Sum(ColumnSums(responsibility, k)) / k as real);
    }

    /** One round of the fitting loop: an expectation step followed by a
        maximization step. With a positive density both steps are defined:
        the responsibilities are those of the parameters and weights the
        round started with, every sample is assigned to its first component
        of largest responsibility, the parameters become `Step` of the old
        ones, the weight becomes N/k, and the trace gains the weighted total
        of the old parameters. */
    method Round(X: Matrix)
      requires WellFormed(X) && k > 0 && |parameters| >= k && PositiveWeights(mixingProbs, k)
      requires PositiveDensity(density)
      modifies this`parameters, this`mixingProbs, this`likelihoods, this`responsibility, this`sampleAssignments
      ensures responsibility == Responsibilities(X, old(parameters), old(mixingProbs), k, density)
      ensures |sampleAssignments| == |X| && sampleAssignments == ArgMaxRows(responsibility)
      ensures parameters == Step(X, old(parameters), old(mixingProbs), k, density)
      ensures mixingProbs == Shared(|X| as real / k as real)
      ensures |likelihoods| == old(|likelihoods|) + 1
      ensures likelihoods[..old(|likelihoods|)] == old(likelihoods)
      ensures likelihoods[old(|likelihoods|)] ==
        TotalSum(Weighted(Likelihoods(X, old(parameters), k, density), old(mixingProbs), k))
    {
      ghost var p0, m0 := parameters, mixingProbs;
      assert PositiveRows(Weighted(Likelihoods(X, parameters, k, density), mixingProbs, k)) by {
        ResponsibilitiesPositive(X, parameters, k, density, mixingProbs);
      }
      Expectation(X);
      assert responsibility == Responsibilities(X, p0, m0, k, density);
      SharedWeightIsSamplesOverComponents(responsibility, k);
      Maximization(X);
      StepIsReestimation(X, p0, m0, k, density, parameters);
    }

    /** One round of the fitting loop, started from the last parameter list
        of a run under the weights of its round number: the run gains the new
        parameters, the weights become those of the next round, and the
        responsibilities and assignments are those of the round's
        expectation step. */
    method Advance(X: Matrix, ghost history: seq<seq<Component>>, ghost start: nat)
      returns (ghost extended: seq<seq<Component>>)
      requires WellFormed(X) && k > 0 && PositiveDensity(density)
      requires IsRun(X, history, likelihoods, start, k, density)
      requires |likelihoods| == start + |history| - 1
      requires history[|history| - 1] == parameters
      requires mixingProbs == MixAt(|history| - 1, |X|, k)
      modifies this`parameters, this`mixingProbs, this`likelihoods, this`responsibility, this`sampleAssignments
      ensures extended == history + [parameters]
      ensures IsRun(X, extended, likelihoods, start, k, density)
      ensures mixingProbs == MixAt(|history|, |X|, k)
      ensures LeftByRound(X, old(parameters), |history| - 1, k, density, responsibility, sampleAssignments)
      ensures |likelihoods| == old(|likelihoods|) + 1
      ensures likelihoods[..old(|likelihoods|)] == old(likelihoods)
    {
      ghost var before := likelihoods;
      Round(X);
      RunExtends(X, history, before, likelihoods, start, k, density, parameters);
      extended := history + [parameters];
    }

    /** The loop of `fit`: runs expectation and maximization rounds until
        the trace converges or `maxIterations` rounds have run.
        `iterations` is the number of rounds run: every test before the last
        one failed, and stopping early means the last test passed. `history`
        lists the parameters before the first round and after every round;
        together with the trace it forms a run of the algorithm. The
        responsibilities and assignments are those of the last round, and
        are left alone when no round runs. */
    method Iterate(X: Matrix) returns (ghost iterations: nat, ghost history: seq<seq<Component>>)
      requires WellFormed(X) && k > 0 && |parameters| >= k && PositiveDensity(density)
      requires mixingProbs == MixAt(0, |X|, k)
      modifies this`parameters, this`mixingProbs, this`likelihoods, this`responsibility, this`sampleAssignments
      ensures iterations <= maxIterations
      ensures 0 < maxIterations ==> 1 <= iterations
      ensures |likelihoods| == old(|likelihoods|) + iterations
      ensures likelihoods[..old(|likelihoods|)] == old(likelihoods)
      ensures 0 < iterations ==>
        NoConvergenceIn(likelihoods, old(|likelihoods|), old(|likelihoods|) + iterations - 1, tolerance)
      ensures iterations < maxIterations ==> Converged(likelihoods, tolerance)
      ensures |history| == iterations + 1 && history[0] == old(parameters)
      ensures history[iterations] == parameters
      ensures mixingProbs == MixAt(iterations, |X|, k)
      ensures IsRun(X, history, likelihoods, old(|likelihoods|), k, density)
      ensures iterations == 0 ==>
        responsibility == old(responsibility) && sampleAssignments == old(sampleAssignments)
      ensures 0 < iterations ==>
        LeftByRound(X, history[iterations - 1], iterations - 1, k, density, responsibility, sampleAssignments)
    {
      ghost var n0 := |likelihoods|;
      history := [parameters];
      ghost var last := parameters;
      if maxIterations == 0 {
        // `range(0)` is empty: no round runs.
        iterations := 0;
        return;
      }
      var it := 0;
      while it < maxIterations
        invariant 0 <= it <= maxIterations
        invariant |history| == it + 1 && history[0] == old(parameters)
        invariant history[it] == parameters && |parameters| >= k
        invariant mixingProbs == MixAt(it, |X|, k)
        invariant IsRun(X, history, likelihoods, n0, k, density)
        invariant |likelihoods| == n0 + it
        invariant likelihoods[..n0] == old(likelihoods)
        invariant NoConvergenceIn(likelihoods, n0, n0 + it, tolerance)
        invariant 0 < it ==> NoConvergenceIn(likelihoods, n0, n0 + it - 1, tolerance)
        invariant 0 < it ==> last == history[it - 1]
        invariant 0 < it ==> LeftByRound(X, last, it - 1, k, density, responsibility, sampleAssignments)
      {
        ghost var before := likelihoods;
        last := parameters;
        history := Advance(X, history, n0);
        assert history[it] == last;
        AppendKeepsConvergenceTests(before, likelihoods, n0, n0 + it, tolerance);
        ghost var tested := |before|;
        it := it + 1;
        if Converged(likelihoods, tolerance) {
          break;
        }
        assert !ConvergedAt(likelihoods, tested + 1, tolerance);
        NoConvergenceExtends(likelihoods, n0, tested, tolerance);
      }
      iterations := it;
    }

    /** Initialises, then runs the fitting loop. The run starts from the old
        parameters followed by the k picked samples, each with the data
        covariance as `covar` and no `cov` yet; no round changes a `covar`,
        after a round the weight is N/k, and the responsibilities and
        assignments are those of the last round. */
    method Fit(X: Matrix, covar: Matrix, picks: seq<nat>)
      returns (ghost iterations: nat, ghost history: seq<seq<Component>>)
      requires k > 0 && WellFormed(X)
      requires |picks| == k && forall i :: 0 <= i < k ==> picks[i] < |X|
      requires PositiveDensity(density)
      modifies this`parameters, this`mixingProbs, this`likelihoods, this`responsibility, this`sampleAssignments
      ensures |parameters| == old(|parameters|) + k && PositiveWeights(mixingProbs, k)
      ensures forall j :: 0 <= j < |parameters| ==>
        parameters[j].covar == if j < old(|parameters|) then old(parameters[j].covar) else covar
      ensures iterations == 0 ==> mixingProbs == PerComponent(UniformWeights(k))
      ensures 0 < iterations ==> mixingProbs == Shared(|X| as real / k as real)
      ensures iterations <= maxIterations
      ensures 0 < maxIterations ==> 1 <= iterations
      ensures |likelihoods| == old(|likelihoods|) + iterations
      ensures likelihoods[..old(|likelihoods|)] == old(likelihoods)
      ensures 0 < iterations ==>
        NoConvergenceIn(likelihoods, old(|likelihoods|), old(|likelihoods|) + iterations - 1, tolerance)
      ensures iterations < maxIterations ==> Converged(likelihoods, tolerance)
      ensures |history| == iterations + 1
      ensures history[0] == old(parameters) + seq(k, i requires 0 <= i < k => Component(X[picks[i]], covar, None))
      ensures history[iterations] == parameters
      ensures mixingProbs == MixAt(iterations, |X|, k)
      ensures IsRun(X, history, likelihoods, old(|likelihoods|), k, density)
      ensures iterations == 0 ==>
        responsibility == old(responsibility) && sampleAssignments == old(sampleAssignments)
      ensures 0 < iterations ==>
        LeftByRound(X, history[iterations - 1], iterations - 1, k, density, responsibility, sampleAssignments)
    {
      ghost var p0 := |parameters|;
      InitRandomGaussians(X, covar, picks);
      ghost var initial := seq(k, i requires 0 <= i < k => Component(X[picks[i]], covar, None));
      forall j | 0 <= j < |parameters| ensures parameters[j] == (old(parameters) + initial)[j] {
        if j < p0 {
          assert parameters[..p0][j] == parameters[j];
        } else {
          assert parameters[p0 + (j - p0)] == Component(X[picks[j - p0]], covar, None);
        }
      }
      assert parameters == old(parameters) + initial;
      iterations, history := Iterate(X);
      assert PositiveWeights(MixAt(iterations, |X|, k), k);
      RunKeepsCovar(X, history, likelihoods, old(|likelihoods|), k, density, iterations);
      forall j | 0 <= j < |parameters|
        ensures parameters[j].covar == if j < p0 then old(parameters[j].covar) else covar
      {
        assert parameters[j].covar == (old(parameters) + initial)[j].covar;
      }
    }

    /** The expectation step `predict` runs on the fitted model. Its total is
        appended after the totals of the fitting run, which therefore stays a
        run with the same convergence tests. */
    method FinalExpectation(X: Matrix, ghost history: seq<seq<Component>>, ghost start: nat, ghost iterations: nat)
      requires WellFormed(X) && k > 0 && PositiveDensity(density)
      requires |parameters| >= k && PositiveWeights(mixingProbs, k)
      requires IsRun(X, history, likelihoods, start, k, density)
      requires |likelihoods| == start + iterations
      requires 0 < iterations ==>
        NoConvergenceIn(likelihoods, start, start + iterations - 1, tolerance)
      requires iterations < maxIterations ==> Converged(likelihoods, tolerance)
      modifies this`likelihoods, this`responsibility, this`sampleAssignments
      ensures |likelihoods| == old(|likelihoods|) + 1
      ensures likelihoods[..old(|likelihoods|)] == old(likelihoods)
      ensures IsRun(X, history, likelihoods, start, k, density)
      ensures 0 < iterations ==>
        NoConvergenceIn(likelihoods, start, start + iterations - 1, tolerance)
      ensures iterations < maxIterations ==> ConvergedAt(likelihoods, start + iterations, tolerance)
      ensures PositiveRows(Weighted(Likelihoods(X, parameters, k, density), mixingProbs, k))
      ensures likelihoods[|likelihoods| - 1] ==
        TotalSum(Weighted(Likelihoods(X, parameters, k, density), mixingProbs, k))
      ensures responsibility == Normalized(Weighted(Likelihoods(X, parameters, k, density), mixingProbs, k))
      ensures IsTable(responsibility, |X|, k)
      ensures forall r :: 0 <= r < |X| ==> Sum(responsibility[r]) == 1.0
      ensures sampleAssignments == ArgMaxRows(responsibility)
      ensures |sampleAssignments| == |X|
      ensures forall r :: 0 <= r < |X| ==>
        sampleAssignments[r] < k && IsFirstMax(responsibility[r], sampleAssignments[r])
      ensures k == 1 ==> forall r :: 0 <= r < |X| ==> sampleAssignments[r] == 0
    {
      assert PositiveRows(Weighted(Likelihoods(X, parameters, k, density), mixingProbs, k)) by {
        ResponsibilitiesPositive(X, parameters, k, density, mixingProbs);
      }
      ghost var before := likelihoods;
      Expectation(X);
      AppendKeepsConvergenceTests(before, likelihoods, start, if 0 < iterations then start + iterations - 1 else start, tolerance);
      RunKeptByAppend(X, history, before, likelihoods, start, k, density);
    }

    /** Fits the model, runs one more expectation step and returns its
        assignments: for every sample, the first component of largest
        responsibility under the fitted parameters and weights. */
    method Predict(X: Matrix, covar: Matrix, picks: seq<nat>)
      returns (assignments: seq<nat>, ghost iterations: nat, ghost history: seq<seq<Component>>)
      requires k > 0 && WellFormed(X)
      requires |picks| == k && forall i :: 0 <= i < k ==> picks[i] < |X|
      requires PositiveDensity(density)
      modifies this`parameters, this`mixingProbs, this`likelihoods, this`responsibility, this`sampleAssignments
      ensures iterations <= maxIterations
      ensures 0 < maxIterations ==> 1 <= iterations
      ensures |likelihoods| == old(|likelihoods|) + iterations + 1
      ensures likelihoods[..old(|likelihoods|)] == old(likelihoods)
      ensures 0 < iterations ==>
        NoConvergenceIn(likelihoods, old(|likelihoods|), old(|likelihoods|) + iterations - 1, tolerance)
      ensures iterations < maxIterations ==>
        ConvergedAt(likelihoods, old(|likelihoods|) + iterations, tolerance)
      ensures |history| == iterations + 1
      ensures history[0] == old(parameters) + seq(k, i requires 0 <= i < k => Component(X[picks[i]], covar, None))
      ensures history[iterations] == parameters
      ensures mixingProbs == MixAt(iterations, |X|, k)
      ensures IsRun(X, history, likelihoods, old(|likelihoods|), k, density)
      ensures |parameters| == old(|parameters|) + k
      ensures forall j :: 0 <= j < |parameters| ==>
        parameters[j].covar == if j < old(|parameters|) then old(parameters[j].covar) else covar
      ensures 0 < iterations ==> mixingProbs == Shared(|X| as real / k as real)
      ensures PositiveWeights(mixingProbs, k)
      ensures PositiveRows(Weighted(Likelihoods(X, parameters, k, density), mixingProbs, k))
      ensures likelihoods[|likelihoods| - 1] ==
        TotalSum(Weighted(Likelihoods(X, parameters, k, density), mixingProbs, k))
      ensures responsibility == Normalized(Weighted(Likelihoods(X, parameters, k, density), mixingProbs, k))
      ensures IsTable(responsibility, |X|, k)
      ensures forall r :: 0 <= r < |X| ==> Sum(responsibility[r]) == 1.0
      ensures assignments == sampleAssignments && assignments == ArgMaxRows(responsibility)
      ensures |assignments| == |X|
      ensures forall r :: 0 <= r < |X| ==>
        assignments[r] < k && IsFirstMax(responsibility[r], assignments[r])
      ensures k == 1 ==> forall r :: 0 <= r < |X| ==> assignments[r] == 0
    {
      ghost var n0 := |likelihoods|;
      iterations, history := Fit(X, covar, picks);
      FinalExpectation(X, history, n0, iterations);
      assignments := sampleAssignments;
    }
  }

}
