# Gaussian mixture model: the expectation-maximization driver

This project models the `GaussianMixtureModel` class of
`unsupervised_learning/gaussian_mixture_model.py`. The class clusters
real-valued samples by fitting a mixture of k Gaussians with
expectation-maximization (EM). It then assigns every sample to the
component with the largest responsibility. The Gaussian density is taken
as given: a function from (sample, mean, covariance) to a nonnegative real.
Everything around it is modelled:

- random initialisation;
- the N×k likelihood table;
- the expectation step (E-step): weighting, the likelihood trace,
  row normalisation and argmax;
- the maximization step (M-step): weighted means, weighted scatter and the
  collapse of the mixing weights to a scalar;
- the convergence test;
- the `predict` driver loop.

Layout:

- `sums.dfy` (module `Sums`): finite sums of reals. It also holds the
  lemmas about them: linearity, monotonicity, positivity and weighted-sum
  bounds.
- `tables.dfy` (module `Tables`): N×k tables, covering row and column sums,
  row normalisation and the first-maximum argmax of a row.
- `em_spec.dfy` (module `EmSpec`): the values the EM steps compute, as
  functions, with the lemmas that say what they mean. This covers:
  - the likelihood table and the weighted table;
  - the re-estimated component and the shared weight;
  - the convergence test on the trace.
- `gaussian_mixture_model.dfy` (module `GaussianMixture`): the class.
  - Its fields are `parameters`, `likelihoods`, `sampleAssignments`,
    `responsibility` and `mixingProbs`, plus the constants `k`,
    `maxIterations`, `tolerance` and `density`.
  - The methods that change the object's state (`__init__`,
    `_init_random_gaussians`, `_expectation`, `_maximization`, `predict`)
    are Dafny methods that reassign those fields.
  - `_get_likelihoods` only reads `parameters` and returns a new table. It
    is the method `GetLikelihoods`, which changes no field and returns the
    table it fills column by column.
  - `_converged` reads the trace without changing it, so it is the function
    `EmSpec.Converged`.
  - `multivariate_gaussian` is the constant `density`.
  - Each `for` loop of the modelled methods is a `while` loop with its
    invariants.

The numpy expressions of the two steps have closed forms in `EmSpec`:

- `Weighted` is line 59, the likelihood table scaled column by column by
  the mixing weights.
- `WeightedMean` is line 69 and `WeightedScatter` is line 70.
- `Reestimated` is the record update of line 71: new mean, scatter under
  `cov`, `covar` kept.
- `SharedWeight` is line 75, the mean of the column sums.

The methods are proved equal to these closed forms, and the lemmas state
what the closed forms mean.

Three quirks of the code are reproduced as written:

- **Weights collapse to a scalar.** After the first M-step,
  `mixing_probs` is one scalar, the mean of the column sums
  (`MixingProbs.Shared`). When rows sum to 1 it equals N/k, and it cancels
  in the next row normalisation.
- **Covariance never updates.** The M-step writes its covariance under the
  key `cov` (`Component.cov`), while the density reads `covar`. So the
  covariance the density sees never changes after initialisation.
- **Parameters keep growing.** `parameters` is appended to by every
  initialisation and never cleared. Only the first k entries are read and
  updated.

The code does not guard against a zero row sum (line 61) or a zero
responsibility mass (lines 69-70); it divides by zero. The model therefore
states these cases as preconditions: positive row sums for the E-step and
nonzero column masses for the M-step. `predict` meets them by requiring a
strictly positive density.

A run of the fitting loop is stated in `EmSpec`:

- `MixAt(i)` is the weight vector in force at round i: 1/k each before the
  first M-step, the scalar N/k after it.
- `Responsibilities` is the normalised weighted table of an E-step.
- `Step` is the parameter list after one E-step and one M-step.
- `IsRun` relates a list of parameter lists to the likelihood trace: round i
  starts from entry i under `MixAt(i)`, records its weighted total and
  leaves entry i + 1 (`IsRound`).
- `LeftByRound` is what a round leaves in `responsibility` and
  `sampleAssignments`: the responsibilities of the parameters it started
  from under `MixAt(i)`, and their row-wise argmax.

`Fit` and `Predict` return the list of parameter lists of their run as a
ghost result and ensure that it is a run.

## Model

| member | source | states |
|---|---|---|
| GaussianMixture.GaussianMixtureModel.constructor | unsupervised_learning/gaussian_mixture_model.py:15-22 | stores k, max_iterations and tolerance; parameters and the likelihood trace start empty; assignments and responsibilities start absent (empty) |
| GaussianMixture.GaussianMixtureModel.InitRandomGaussians | unsupervised_learning/gaussian_mixture_model.py:25-32 | the weights become k copies of 1/k summing to 1; exactly k records are appended, record i has as mean the chosen sample row and as covariance the given data covariance; every appended mean is a row of X; earlier records are kept |
| EmSpec.UniformWeightsSumToOne | unsupervised_learning/gaussian_mixture_model.py:27 | the k initial weights 1/k add up to 1 |
| EmSpec.Likelihoods | unsupervised_learning/gaussian_mixture_model.py:52-54 | the likelihood table has one row per sample and one column per component |
| GaussianMixture.GaussianMixtureModel.GetLikelihoods | unsupervised_learning/gaussian_mixture_model.py:50-55 | the table filled column by column has, at (r, j), the density of sample r under the mean and `covar` of component j |
| GaussianMixture.GaussianMixtureModel.Expectation | unsupervised_learning/gaussian_mixture_model.py:58-63 | exactly one value is appended to the trace, the total of the weighted table, and earlier entries are kept; responsibilities are the weighted table with every row divided by its sum, an N×k table whose rows sum to 1; the assignments are the row-wise argmax of the responsibilities, each the first index of a row maximum, so it lies in [0, k) |
| Tables.NormalizedRowSumsToOne | unsupervised_learning/gaussian_mixture_model.py:61 | a row with positive sum, divided by that sum, sums to 1 |
| Tables.NormalizedRowIsDistribution | unsupervised_learning/gaussian_mixture_model.py:61 | a normalised nonnegative row has every entry in [0, 1] and sums to 1 |
| Tables.NormalizeRowIgnoresScale | unsupervised_learning/gaussian_mixture_model.py:61 | multiplying a row by a positive factor does not change its normalisation |
| Tables.FirstArgMax | unsupervised_learning/gaussian_mixture_model.py:62 | the index returned is in range, its entry is a row maximum, and every earlier entry is strictly smaller |
| Tables.ArgMaxRows | unsupervised_learning/gaussian_mixture_model.py:62 | one index per row, each the first maximum of its row |
| Tables.FirstMaxIsUnique | unsupervised_learning/gaussian_mixture_model.py:62 | two first-maximum indices of the same row are equal, so the assignment is determined by the row |
| GaussianMixture.GaussianMixtureModel.Maximization | unsupervised_learning/gaussian_mixture_model.py:66-75 | for each of the first k components the mean becomes the responsibility-weighted average of the samples and the weighted scatter is stored under `cov`; `covar` and every later record are unchanged; the weights become one scalar, the mean of the column sums |
| EmSpec.WeightedMeanWithinBounds | unsupervised_learning/gaussian_mixture_model.py:69 | with nonnegative weights of positive total, every feature of the weighted mean lies between the smallest and largest sample value of that feature |
| EmSpec.WeightedMeanOfIdenticalSamples | unsupervised_learning/gaussian_mixture_model.py:69 | when all samples coincide, their weighted mean is that sample |
| EmSpec.ScatterIsSymmetric | unsupervised_learning/gaussian_mixture_model.py:70 | the weighted scatter matrix is symmetric |
| Tables.ColumnSumsAddUpToTotal | unsupervised_learning/gaussian_mixture_model.py:74-75 | the column sums of a table add up to the sum of all its entries |
| EmSpec.SharedWeightIsSamplesOverComponents | unsupervised_learning/gaussian_mixture_model.py:74-75 | when every responsibility row sums to 1, the shared weight is N/k |
| EmSpec.MixingWeightsCancel | unsupervised_learning/gaussian_mixture_model.py:59-61 | when every column carries the same positive weight, the normalised weighted table equals the normalised bare table |
| EmSpec.SharedWeightCancels | unsupervised_learning/gaussian_mixture_model.py:59-61 | after a maximization step, the responsibilities of the next E-step do not depend on the shared scalar weight |
| EmSpec.UniformWeightsCancel | unsupervised_learning/gaussian_mixture_model.py:59-61 | the initial weights 1/k also cancel in row normalisation |
| EmSpec.ResponsibilitiesPositive | unsupervised_learning/gaussian_mixture_model.py:59-61 | with a positive density and positive weights, every weighted row has a positive sum and every responsibility is positive |
| EmSpec.ColumnMassPositive | unsupervised_learning/gaussian_mixture_model.py:68-75 | with positive responsibilities, every column has positive mass, so the M-step divisions are defined and the shared weight is positive |
| EmSpec.Converged | unsupervised_learning/gaussian_mixture_model.py:78-83 | the convergence test is false while fewer than two values are recorded, and otherwise holds exactly when the last two values differ by at most the tolerance |
| EmSpec.AppendKeepsConvergenceTests | unsupervised_learning/gaussian_mixture_model.py:78-83 | appending to the trace keeps its earlier entries and changes no test made on an earlier length; the test at the old length is the test of the old trace |
| EmSpec.NoConvergenceExtends | unsupervised_learning/gaussian_mixture_model.py:91-97 | a failed test at the next length extends a run of failed tests by one |
| EmSpec.MixAt | unsupervised_learning/gaussian_mixture_model.py:88-93 | the weights of round i fit k components, and are positive when there is a sample: 1/k each at round 0, the scalar N/k at every later round |
| EmSpec.Responsibilities | unsupervised_learning/gaussian_mixture_model.py:59-61 | with a positive density and positive weights, the responsibilities form an N×k table of positive entries, and every component has positive mass when there is a sample |
| EmSpec.Step | unsupervised_learning/gaussian_mixture_model.py:66-71 | one round keeps the length of the parameter list and the `covar` of every record |
| EmSpec.StepIsReestimation | unsupervised_learning/gaussian_mixture_model.py:67-71 | a list that re-estimates each of the first k records from the responsibilities of the old list, and keeps the later records, is the list one round leaves |
| EmSpec.RunExtends | unsupervised_learning/gaussian_mixture_model.py:91-93 | a round that starts from the last list of a run, appends its weighted total to the trace and leaves a new list extends the run by that list |
| EmSpec.RunKeepsCovar | unsupervised_learning/gaussian_mixture_model.py:66-71 | every list of a run has the length of the first and the same `covar` in every record, so the covariance the density reads never changes |
| EmSpec.RunKeptByAppend | unsupervised_learning/gaussian_mixture_model.py:100 | appending to the trace after a run leaves it a run |
| GaussianMixture.GaussianMixtureModel.Round | unsupervised_learning/gaussian_mixture_model.py:92-93 | one E-step followed by one M-step: the responsibilities are those of the parameters and weights the round started with; the assignments are their row-wise argmax, one per sample; the parameters become `Step` of the old ones; the weight becomes the scalar N/k; exactly one value, the weighted total under the old parameters and weights, is appended to the trace and earlier entries are kept |
| GaussianMixture.GaussianMixtureModel.Advance | unsupervised_learning/gaussian_mixture_model.py:91-93 | a round started from the last list of a run under the weights of its round number extends the run by the new parameters; the weights become those of the next round; the responsibilities and the assignments are those that round's E-step computes from the parameters and weights it started with |
| GaussianMixture.GaussianMixtureModel.Iterate | unsupervised_learning/gaussian_mixture_model.py:91-97 | the loop runs at most max_iterations rounds and at least one when max_iterations > 0; the trace grows by one entry per round; every test before the last one failed; stopping before max_iterations means the last test passed; the returned history starts from the old parameters, ends at the new ones, and with the trace forms a run; the weights are those of the last round number; the responsibilities and assignments are unchanged when no round ran, and otherwise are those of the last round's E-step |
| GaussianMixture.GaussianMixtureModel.Fit | unsupervised_learning/gaussian_mixture_model.py:86-97 | the run starts from the old parameters followed by the k picked samples with the data covariance as `covar`; the loop facts of `Iterate` hold for it; the fitted parameters are its last list; the appended records keep the data covariance as `covar` and earlier records keep theirs; the weights stay 1/k each if no round ran and are N/k after a round; the responsibilities and assignments are unchanged when no round ran, and otherwise are those of the last round's E-step |
| GaussianMixture.GaussianMixtureModel.FinalExpectation | unsupervised_learning/gaussian_mixture_model.py:100 | the E-step after fitting appends the weighted total under the fitted parameters and weights as the last trace entry, keeps the run and its convergence tests, and leaves responsibilities that are the normalised weighted table with rows summing to 1 and assignments that are their row-wise argmax, each in [0, k) |
| GaussianMixture.GaussianMixtureModel.Predict | unsupervised_learning/gaussian_mixture_model.py:86-101 | the facts of `Fit` about the run, the fitted parameters and the weights hold; a final E-step under the fitted parameters and weights appends their weighted total as the last trace entry, so the trace grows by between 1 and max_iterations + 1 entries; the responsibilities are that E-step's normalised weighted table, with rows summing to 1; the returned assignments are its row-wise argmax, one per sample, each in [0, k) and all 0 when k = 1 |
## Left out

- The Gaussian density formula (lines 35-47): the exponential, square root,
  power, determinant and matrix inverse are floating-point numerics and
  foreign linear algebra. The density is a constant of type (sample, mean,
  covariance) -> nonnegative real. `Predict` requires it to be strictly
  positive, which the exact Gaussian density is for a positive-definite
  covariance.
- `calculate_covariance_matrix` and `normalize` (line 9): `helper_functions`
  is not part of this model. The initial covariance is a caller-supplied
  matrix.
- `np.random.choice` (line 30): the chosen row indices are a caller-supplied
  sequence `picks`.
- The `print` at line 82 and the demo at lines 106-124 (dataset loading,
  PCA, plotting).
- Floating-point rounding, NaN and infinity: all arithmetic is on exact
  reals.
- Expectation: a zero row sum (line 61) would produce NaN in the code. The
  model requires every weighted row to have a positive sum.
- Maximization: a zero responsibility mass (lines 69-70) would divide by
  zero in the code. The model requires every column mass to be nonzero.
- Predict: with k = 0 the code divides by zero at line 27. The model
  requires k > 0.
- Predict: a negative k makes `np.ones(self.k)` raise `ValueError` at
  line 27. The model types `k` as a natural number, so it does not model
  that error.
- Predict: a singular data covariance makes the code raise in the first
  E-step. Line 43 divides by zero when the determinant is 0, `math.sqrt`
  raises `ValueError` when it is negative, and `np.linalg.inv` at line 44
  raises `LinAlgError`. This happens when all samples are identical, when
  N ≤ D, or when a feature is constant. Since `covar` never changes after
  initialisation, every round would raise. `PositiveDensity` asks for a
  density that is defined and positive on every matrix, so it excludes
  this error path: the model's `Predict` returns assignments where the code
  raises.
- Predict: with no samples (N = 0) the code raises `ValueError` at line 30,
  where `np.random.choice` draws from an empty range. The model requires at
  least one sample (`WellFormed`, and `|X| > 0` in `InitRandomGaussians`),
  so it does not model that error.
- A negative `max_iterations` is accepted by the code, and `range` then runs
  no rounds. The model types `maxIterations` as a natural number, so it
  covers zero rounds but not a negative argument.
- Predict: the model requires a strictly positive density, so the above
  preconditions hold on every round. Runs where the density underflows to
  zero are not modelled.
- The `.sum()` at line 81 is applied to a scalar difference, where it is
  the identity. The test is modelled as the absolute difference of the last
  two trace entries.
- Numpy arrays and their broadcasting are modelled as sequences of rows.
  The in-place `/=` at line 61 acts on a local array with no other
  reference, so reassignment models it exactly.
- The initial `None` of `sample_assignments` and `responsibility` is
  modelled as the empty sequence.
- Repeated `predict` calls: the growth of `parameters` to 2k, 3k, … records
  is modelled (every later record is kept and never read). No property is
  proved about it.
- Round: it is not a method of the Python class. It groups the two calls at
  lines 92-93 so that the fitting loop is proved against its contract.
- Advance: it is not a method of the Python class. It is `Round` seen as the
  extension of a run by one round.
- Iterate: it is not a method of the Python class. It is the loop at lines
  91-97.
- Fit: it is not a method of the Python class. It covers lines 88-97 of
  `predict`, and `Predict` adds the final E-step.
- FinalExpectation: it is not a method of the Python class. It is the call
  at line 100 together with what that call keeps of the run.
- Predict: `iterations` and `history` are ghost results, because the code
  returns neither the number of rounds run nor the parameters of each
  round.
