# Ensemble wrapper and Lipschitz estimator of an asynchronous Bayesian-optimisation toolkit

This project models two parts of the `ml_utils` package of a Bayesian-optimisation library:

- **The ensemble inference wrapper** (`ModelCollection`, `ml_utils/models/model_collection.py`). It takes a Gaussian-process surrogate whose optimisation configuration names the slice-sampling method. It switches that surrogate to plain gradient fitting and keeps a deep copy of it as the *original*. It also keeps `n_samples` further copies as ensemble members. Its operations are:
  - `optimize` runs a burn-in followed by a sampling chain over log-hyperparameters;
  - the `param_array` setter stores the sample matrix and gives member `i` the sample in row `i`;
  - `set_data`/`set_XY` propagate the training data to every member;
  - `predict` averages the members' predictive moments.
- **The Lipschitz-constant estimator** (`ml_utils/lipschitz.py`). It turns a minimiser's best objective value into a Lipschitz estimate. A flat surrogate falls back to 10. Without bounds, the source seeds the search at `X[argmax]`, where `argmax` is a flat index into the summed-gradient array. The model seeds at the row of that index, the training point with the largest summed gradient; see "## Findings". `estimate_lipschitz_around_x` builds the local search box around a point.

Files:

- `wrappers.dfy`: the `Option`/`Result` datatypes.
- `averages.dfy` (module `Averages`): sums, squares, and the mean-square inequality used to state what averaged predictions mean.
- `lipschitz.dfy` (module `Lipschitz`): the estimator. The source is pure, so this is functions and lemmas.
- `ensemble_spec.dfy` (module `EnsembleSpec`): the wrapper's state as a value (`CollectionState`). It has one function per operation from the state before to the state after, the wrapper invariant `Inv`, and the lemmas about those functions.
- `ensemble.dfy` (module `Ensemble`): the wrapper as the source writes it.
  - Classes `SubModel` and `ModelCollection` have fields that the methods update in place, with loops and loop invariants.
  - The constructor, `SetParamArray`, `SetData`, `SetXY` and `Optimize` are proved to keep `Valid()`. They move the ghost view `Abstract()` exactly as the matching `EnsembleSpec` function says.
  - The loop helpers `UpdateLocalModelsHps` and `UpdateLocalModelsData` are proved to move `Abstract()` as `Resynced` and `DataPropagated` say. They need only `Separate()`, because they run while the invariant is being re-established.
  - The chain helpers `RunChain`, `BurnIn` and `SampleRows` state the sample rows they produce and the parameters they leave on the original, as `Draws` and `Visited` say.
  - `Valid()` means the members are distinct objects, none of them is the original, and `Inv` holds.

Code the wrapper calls but does not own becomes parameters:

- The slice sampler, the `log`/`exp` transforms and the surrogate's objective side effect are one `SliceSampler` value.
  - `step(k, x, sigma, bounds)` is the `k`-th sampler call. `k` stands for the position in the random stream.
  - The call returns the draw, and the parameters that the objective evaluations leave on the original.
- The members' `predict` and the Gaussian log density are function parameters.
- The surrogate's `set_data`/`set_XY` is a `DataSetter` parameter, a function from a model state and the new inputs and outputs to the model state after the call.
  - The wrapper relies only on `StoresData`: the setter stores X, stores Y re-centred by the mean it records (so `Outputs`, the stored Y plus that mean, gives Y back), and keeps the parameters, the mode and the configuration.
- For the estimator, the surrogate's summed mean gradient is a function, and each optimiser is represented by the best objective value it reports (`opt_result.fun`).

## Model

| member | source | states |
|---|---|---|
| Lipschitz.FromOptimum | ml_utils/lipschitz.py:42-49 | The estimate is `-fun`, unless that is below 1e-7, in which case it is exactly 10. The estimate is therefore always at least 1e-7, and never below `-fun`. |
| Lipschitz.FirstArgMax | ml_utils/lipschitz.py:35 | numpy `argmax` of a non-empty vector: an index in range whose entry no entry exceeds, and which every earlier entry is strictly below (the first maximum). |
| Lipschitz.SeedIndexAsWritten | ml_utils/lipschitz.py:35-36 | The argmax taken over the whole (points × dimensions) summed-gradient array, as written: a flat index. Its row-major row is a valid point, and the entry at its (row, column) is the largest of the array. |
| Lipschitz.SeedRow | ml_utils/lipschitz.py:35-36 | The corrected seed, the row of the flat argmax. It is a valid point index, that point holds the largest gradient entry, and every earlier point's entries are all strictly smaller. |
| Lipschitz.RowOfIsQuotient | ml_utils/lipschitz.py:35-36 | The row and column of a flat position are the quotient and remainder of dividing it by the number of columns: k = row * d + column, with column < d. |
| Lipschitz.SeedAgreesInOneDimension | ml_utils/lipschitz.py:35-36 | With one input dimension the flat index and the row index coincide, so the code as written picks the right point there. |
| Lipschitz.SeedIndexAsWrittenPicksWrongRow | ml_utils/lipschitz.py:35-36 | For gradients [[0, 1], [0, 0]], the code as written seeds at point 1, while the largest gradient is at point 0. |
| Lipschitz.SeedIndexAsWrittenOutOfRange | ml_utils/lipschitz.py:35-36 | For a single point with gradient [0, 1], the code as written computes index 1, which is past the only row of X. |
| Lipschitz.SeedRowHoldsLargestGradient | ml_utils/lipschitz.py:34-36 | The corrected seed is a training point holding a summed-gradient entry that no entry of any point exceeds. |
| Lipschitz.EstimateLipschitzConstant | ml_utils/lipschitz.py:10-49 | With bounds: the restart minimiser's value through the flat fallback. Without bounds: the local minimiser's value, seeded at a training point holding the largest gradient, through the fallback. It fails exactly when there is no bound and no gradient entry to take the argmax of. A success is always at least 1e-7. |
| Lipschitz.LocalBox | ml_utils/lipschitz.py:63-69 | One interval per dimension. Each lower end is the larger of the global lower bound and x - θ, and each upper end is the smaller of the global upper bound and x + θ. θ is broadcast when the kernel has one length-scale. So the box lies inside the global box, and y is in it iff y is in both the global interval and [x-θ, x+θ]. |
| Lipschitz.LocalBoxContainsCentre | ml_utils/lipschitz.py:65-66 | A point inside the global box, with a non-negative length-scale, lies inside its own local box. |
| Lipschitz.EstimateLipschitzAroundX | ml_utils/lipschitz.py:52-72 | The estimate over the local box, obtained with the bounded estimator, so it is at least 1e-7. |
| EnsembleSpec.Reconfigured | ml_utils/models/model_collection.py:33-34 | The wrapped model is switched to normal mode, and its configuration becomes exactly {'method': 'grad'}. Its parameters and data are unchanged. |
| EnsembleSpec.Initial | ml_utils/models/model_collection.py:18-44 | After construction, the invariant holds, there are no samples, and there are exactly `n_samples` members, each equal to the reconfigured model. The wrapper keeps the slice configuration. Burn-in is the configured value, or 100 when none is configured. |
| EnsembleSpec.Resynced | ml_utils/models/model_collection.py:142-147 | Every member is its old state with the parameters replaced by its sample row. Nothing else in the state changes. |
| EnsembleSpec.Assigned | ml_utils/models/model_collection.py:55-62 | Assigning p stores it as the samples and as 'slice_hps', and synchronises every member with its row. Every other configuration key, such as 'sigma' and 'hp_bounds', is kept. It preserves the invariant and leaves member data, the original, burn-in and the sample count unchanged. |
| EnsembleSpec.AssignIdempotent | ml_utils/models/model_collection.py:55-62 | Assigning the same matrix twice gives the state of assigning it once. |
| EnsembleSpec.AssignForgetsPreviousSamples | ml_utils/models/model_collection.py:55-62 | The state after an assignment depends neither on the previous samples, nor on the previous 'slice_hps', nor on the members' previous parameters. |
| EnsembleSpec.DataPropagated | ml_utils/models/model_collection.py:149-156 | Every member is handed the original's inputs and its outputs Y + y_mean, and nothing outside the members changes. With a setter that stores data, every member then holds the original's inputs and was handed the same outputs as the original, member parameters are kept, and the invariant is preserved. |
| EnsembleSpec.WithData | ml_utils/models/model_collection.py:158-171 | The original is the state the setter gives for the new data. With a setter that stores data, the original holds X and was handed Y, and the invariant is preserved. |
| EnsembleSpec.SetDataPropagates | ml_utils/models/model_collection.py:149-171 | With a setter that stores data, after `set_data(X, Y)` the original and every member hold X and were handed Y (stored outputs plus their own mean). Member parameters are kept, and nothing else in the wrapper changes. |
| EnsembleSpec.VisitedKeepsDimension | ml_utils/models/model_collection.py:111-131 | Along the chain, the original's parameter vector keeps its dimension when the sampler does. |
| EnsembleSpec.OptimizeSynchronizes | ml_utils/models/model_collection.py:91-138 | After optimize, the invariant holds and there are exactly `n_samples` rows. Each row has the dimension of the original's parameter vector, and every member holds its row. No member's data changed. The original is left where the chain ended after burn-in + n calls. |
| EnsembleSpec.Predicted | ml_utils/models/model_collection.py:173-195 | There is one mean and one variance per query point. A log density is present iff targets are given, and it is then the density of each target under the averaged mean and variance. |
| EnsembleSpec.VectorSumIsColumnSum | ml_utils/models/model_collection.py:175-183 | The vector accumulated with `+=` over the members is, entry by entry, the sum of the members' values. |
| EnsembleSpec.PredictedIsMemberAverage | ml_utils/models/model_collection.py:173-185 | With one sample row per member, the predicted mean and variance at each point are the arithmetic means of the members' predictions. |
| EnsembleSpec.PredictedMeanWithinMemberRange | ml_utils/models/model_collection.py:173-185 | The predicted mean lies within any bounds that hold for all member means. |
| EnsembleSpec.AgreeingMembersDetermineThePrediction | ml_utils/models/model_collection.py:173-185 | Members that all predict mean m and variance v make the wrapper predict exactly m and v. |
| EnsembleSpec.PredictedVarianceAtMostMixture | ml_utils/models/model_collection.py:180-185 | The reported variance (the averaged member variance) never exceeds the variance of the equal-weight mixture of the members' Gaussians. It omits the spread of the means. |
| Ensemble.SubModel.Copy | ml_utils/models/model_collection.py:36-44 | `copy.deepcopy`: a new object in the same state as the model copied. |
| Ensemble.ModelCollection.constructor | ml_utils/models/model_collection.py:18-44 | The built wrapper is valid and its abstract state is `Initial` of the model. The model itself is reconfigured, and the original and every member are fresh objects. |
| Ensemble.ModelCollection.ParamArray | ml_utils/models/model_collection.py:46-53 | The getter returns the samples. When present, every member holds its row and 'slice_hps' records them. |
| Ensemble.ModelCollection.SetParamArray | ml_utils/models/model_collection.py:55-62 | The new state is `Assigned(old state, p)`, and the wrapper stays valid. |
| Ensemble.ModelCollection.UpdateLocalModelsHps | ml_utils/models/model_collection.py:142-147 | The loop leaves the state `Resynced(old state)`. |
| Ensemble.ModelCollection.UpdateLocalModelsData | ml_utils/models/model_collection.py:149-156 | The loop leaves the state `DataPropagated(old state, setter)`. |
| Ensemble.ModelCollection.SetData | ml_utils/models/model_collection.py:165-171 | The new state is `WithData(old state, setter, X, Y)`, and the wrapper stays valid when the setter stores data. |
| Ensemble.ModelCollection.SetXY | ml_utils/models/model_collection.py:158-163 | The same new state as `SetData`. |
| Ensemble.ModelCollection.RunChain | ml_utils/models/model_collection.py:109-131 | Burn-in then sampling: the rows are `Draws` of the chain from the original's parameters, the original ends at `Visited` after burn-in + n calls, and nothing else in the abstract state changes. |
| Ensemble.ModelCollection.BurnIn | ml_utils/models/model_collection.py:111-120 | After `burn_in` discarded sampler calls, the original is where the chain left it. |
| Ensemble.ModelCollection.SampleRows | ml_utils/models/model_collection.py:109-131 | Row i of the n-row matrix is the draw of call `burn_in + i`, exponentiated. The original ends where the chain left it. |
| Ensemble.ModelCollection.Optimize | ml_utils/models/model_collection.py:91-138 | The new state is `Optimized(old state, sampler)`: sigma defaults to 1.0, bounds are log('hp_bounds') or none, and the sample matrix is assigned through the setter. The wrapper stays valid. |
| Ensemble.ModelCollection.Predict | ml_utils/models/model_collection.py:173-195 | The loop's result equals `Predicted` on the abstract state. |
| Ensemble.Wrap | ml_utils/models/model_collection.py:18-37 | A model whose method is not 'slice' is rejected and left untouched. A slice model without 'n_samples' is rejected after it has already been switched to normal mode. Any other model is wrapped, with the state `Initial`. |

## Left out

- `negative_df` (ml_utils/lipschitz.py:24-30) is a floating-point square root of numpy arrays. Only its value at the optimum, as reported by the optimiser, enters the model.
- `scipy.optimize.minimize` and `minimize_with_restarts` are foreign numerics. Each is a function from its seed or box to the best value it reports; the restart count and `minimize_options` do not change the model's statements.
- Lipschitz.EstimateLipschitzConstant: without bounds, the contract says the seed is *a* point holding the largest gradient, not the *first* such point. `Lipschitz.SeedRow` states the first-point property.
- `slice_sample` is foreign code. Its randomness is reduced to the call index `k` of the `SliceSampler.step` parameter, and its `verbose` printing is left out.
- The surrogate's own methods (`objective_log_theta`, `predict`, `dmu_dx`, `set_XY`/`set_data`, its `param_array` setter) are not part of this model.
  - The `param_array` setter is taken to store exactly what it is given.
  - `set_data`/`set_XY` is the `DataSetter` parameter, and the same setter stands for the original's `set_data` and the members' `set_XY`. The propagation properties assume `StoresData`; what a setter that normalises its inputs in other ways does is not modelled.
  - The objective's effect on the original's parameters during sampling is the `visited` part of a sampler step.
- `log`/`exp` of hyperparameters and bounds are opaque `real -> real` transforms applied elementwise.
- The log-predictive-density formula (ml_utils/models/model_collection.py:192-193) is a function parameter. Only its presence and its arguments are modelled.
- `full_cov=True` (covariance matrices and `np.diag`) is left out. Predictions are the diagonal (`full_cov=False`) case.
- `__getattr__` forwarding, `plot`, and `verbose` printing are left out. They are dynamic dispatch and console output.
- ml_utils/misc.py and ml_utils/sampler.py are not part of this model.
- The `hasattr(model, 'opt_params')` assertion is left out. Every `SubModel` has a configuration.
- Python object aliasing beyond the members and the original is not modelled. In particular, a caller may still hold the configuration dictionary that the wrapper mutates.
- Sample counts and burn-in lengths are natural numbers. The source does not check for negative values.
- Ensemble.ModelCollection.SetParamArray: it requires at least one row per member. The source raises an IndexError part-way through the member loop on a shorter matrix, after storing it; that partial update is not modelled.
- Ensemble.ModelCollection.Predict: it requires samples to have been assigned. The source divides by `len(samples)`, which fails on `None` and gives NaN/Inf on an empty matrix.
- EnsembleSpec.Predicted divides by the number of sample rows, as the source does, not by `n_samples`. The averaging lemmas assume the two agree. `EnsembleSpec.OptimizeSynchronizes` shows they do after `optimize`; the invariant alone gives only at least one row per member.
- Ragged shapes (rows of different lengths) are excluded by preconditions on the argmax and the box construction.
- Arithmetic is on exact reals. Floating-point rounding, NaN and infinities are not modelled.

## Findings

| source | as written | input that shows it | evidently intended | confidence | as-written member | corrected member |
|---|---|---|---|---|---|---|
| ml_utils/lipschitz.py:35-36 | `np.argmax` over the (points × dimensions) summed-gradient array returns a flat index, which is then used as a row index of `X` | two points in two dimensions with summed gradients [[0, 1], [0, 0]]: the flat index is 1, so the search is seeded at point 1, while the largest gradient is at point 0; with one point [[0, 1]] the index 1 is out of range | seed at the row holding the largest entry: the quotient of the flat index by the dimension (Lipschitz.RowOfIsQuotient) | not executed | Lipschitz.SeedIndexAsWritten (shown by Lipschitz.SeedIndexAsWrittenPicksWrongRow and Lipschitz.SeedIndexAsWrittenOutOfRange) | Lipschitz.SeedRow (used by Lipschitz.EstimateLipschitzConstant) |
