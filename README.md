# OLMAR portfolio selection in Dafny

This project models the OLMAR (On-Line Moving Average Reversion) strategy of
`olmar.py` and proves properties of the model. OLMAR is the online
portfolio-selection algorithm of Li and Hoi (ICML 2012). Each day it predicts
every asset's price relative from a moving average of recent prices. It then
moves the current allocation `b` just far enough that the predicted return
reaches a threshold `eps`. Finally it normalises the weights to unit 1-norm.
The model also covers the object's hyperparameter state and its tuner. The
tuner scores a grid of `(window, eps)` pairs and adopts the first best pair.

Layout:

- `wrappers.dfy` (module `Wrappers`): `Option`, `Result` and `Outcome`.
- `vectors.dfy` (module `Vectors`): vectors of exact reals, with sum, mean,
  dot product, the squared 2-norm and the 1-norm, and the algebra the
  allocation proofs need.
- `window.dfy` (module `Window`): `get_window_prices`, as a function of the
  market data.
- `predict.dfy` (module `Predict`): `predict_price_relatives`.
- `allocation.dfy` (module `Allocation`): asset availability,
  `compute_lambda`, the clamp, the weight update and the normalisation of
  `get_new_allocation`, and the passive-aggressive guarantee.
- `tuning.dfy` (module `Tuning`): the constructor's validation, the grid in
  `itertools.product` order, the "first maximum" rule and the outcome of
  tuning.
- `olmar.dfy` (module `Olmar`): class `Olmar`. Its fields are `window`,
  `eps`, both histories and the current allocation. It has the constructor,
  a `Create` method that reports validation errors, `GetNewAllocation` with
  the array loop of the source, and `TuneHyperparams` with the scoring loop.

Numbers are exact reals. The 2-norm is only compared with 0 and squared
(olmar.py:102-111), so the model uses the squared norm directly.

The constructor's docstring (olmar.py:26-28) says OLMAR rebalances when it
predicts wealth growth above `eps`. The code does the opposite. It computes
`eps - b.x` (olmar.py:108), so lambda is positive only when the predicted
return `b.x` is below `eps`. The model follows the code; see
`Allocation.PassiveWhenAboveEps`.

The docstring of `predict_price_relatives` (olmar.py:82) averages `w`
prices: today's open and the `w - 1` closes before it. The code averages
the window's closes together with today's open (olmar.py:93-95). With a
full window that is `window + 1` prices, one more than the formula. The
model follows the code; see `Predict.FullWindowAveragesWindowPlusOne`.

## Model

| member | source | states |
|---|---|---|
| Tuning.CheckConfig | olmar.py:33-36 | a configuration passes exactly when eps > 1 and window >= 1; eps <= 1 is reported whatever the window, and window < 1 only when eps is valid |
| Olmar.Olmar.constructor | olmar.py:45-48 | a valid configuration yields an object with the given window and eps and the histories `[window]` and `[eps]` |
| Olmar.Olmar.Create | olmar.py:33-48 | construction fails exactly when validation fails, with validation's error; otherwise it yields a fresh valid object with one-element histories |
| Window.TailRows | olmar.py:69-72 | Python's `m[-k:]`: the last min(k, length of m) rows of m, as a suffix |
| Window.WindowPrices | olmar.py:57-75 | today's open is row `day` of the live opens in every branch; without training data or when day >= window, the size is min(day, window) and the rows are live closes `day-size .. day-1`; otherwise the size is the window and the rows are the training tail followed by live closes `0 .. day-1` |
| Window.LiveCloses | olmar.py:60-64 | the window has max(size, 0) rows, and row r is the live close of day `day - size + r` |
| Window.TrainedCloses | olmar.py:66-74 | the window is the last min(window - day, training length) training closes, followed by the live closes of days `0 .. day-1` |
| Window.WindowIsRecentHistory | olmar.py:60-74 | in every branch, the window closes are exactly the last min(window, history length) rows of training closes followed by live closes before `day` |
| Window.FirstDayWithoutTrainingIsEmpty | olmar.py:60-64 | on day 0 without training data the window is empty and its size is 0 |
| Predict.SilentDivide | olmar.py:97 | the quotient times the divisor is the dividend; a zero divisor gives 0 |
| Predict.PriceRelatives | olmar.py:94-97 | entry i times today's open i is the mean of column i over the window closes with today's open appended; a zero open gives 0 |
| Predict.PredictPriceRelatives | olmar.py:93-97 | the prediction has one entry per asset |
| Predict.PredictionOnRecentHistory | olmar.py:57-97 | the prediction is the price relatives of the last min(window, history length) rows of the history (training closes, then live closes before `day`) |
| Predict.PredictionIsMovingAverage | olmar.py:57-97 | entry i times today's open i is the mean of asset i over those recent rows and today's open; a zero open gives 0 |
| Predict.FullWindowAveragesWindowPlusOne | olmar.py:57-95 | once the history holds at least `window` rows, each mean is taken over window + 1 prices, one more than the formula of the docstring at olmar.py:82 |
| Predict.RelativeIsMeanOfRatios | olmar.py:93-97 | the predicted relative is the mean, over the window closes and today's open, of each price divided by today's open |
| Predict.PositivePricesPositiveRelative | olmar.py:94-97 | positive window closes and a positive open give a positive predicted relative |
| Predict.PositiveHistoryPositivePrediction | olmar.py:57-97 | when today's open of an asset and all its earlier training and live closes are positive, its prediction is positive, which is the hypothesis of `Allocation.PassiveAggressiveTarget` for that asset |
| Predict.FlatPricesUnitRelative | olmar.py:94-97 | an asset whose window closes all equal today's open has predicted relative 1 |
| Vectors.SqNormZero | olmar.py:102-105 | the squared 2-norm is 0 exactly when every entry is 0 |
| Vectors.ZeroSpreadIffConstant | olmar.py:102-105 | `x - mean(x)` has zero norm exactly when all entries of x are equal |
| Vectors.NormalisedHasUnitL1Norm | olmar.py:152-153 | scaling a vector of nonzero 1-norm by its reciprocal gives 1-norm 1 |
| Allocation.AvailableIndices | olmar.py:133-134 | the available indices are exactly the assets with a positive open, in increasing order |
| Allocation.AllAvailable | olmar.py:133-134 | when every open is positive, the available indices are 0 .. n-1 in order |
| Allocation.NoneAvailable | olmar.py:133-136 | no asset is available exactly when no open is positive |
| Allocation.ComputeLambda | olmar.py:100-111 | lambda >= 0; it is 0 when the predictions have no spread or b.x >= eps; otherwise lambda times the squared spread is eps - b.x |
| Allocation.ClipLambda | olmar.py:142 | the clamped lambda is at most 100000, and equals lambda when lambda is within the cap |
| Allocation.MoveWeight | olmar.py:149 | with lambda 0, or a prediction equal to the mean, the weight is unchanged |
| Allocation.ProjectWeights | olmar.py:145-149 | one weight per asset; an asset whose prediction is not positive gets weight 0 |
| Allocation.Normalise | olmar.py:152-153 | a normalised result has unit 1-norm, and each entry times the input's 1-norm is the input entry, so zero weights stay 0; an error is returned exactly when every weight is 0 |
| Allocation.ScaledBack | olmar.py:152-153 | dividing a vector by its nonzero 1-norm is undone entry by entry by multiplying by that norm |
| Allocation.UniformAllocation | olmar.py:124-127 | equal positive weights on the available assets, 0 elsewhere, with unit 1-norm; an error exactly when no asset is available |
| Allocation.EqualWeights | olmar.py:124-127 | every available asset gets weight 1 over the 1-norm of the availability indicator |
| Allocation.NewAllocation | olmar.py:129-153 | a successful allocation has one weight per asset and unit 1-norm; it reports no available asset exactly when no open is positive |
| Allocation.NewAllocationIsNormalisedMove | olmar.py:129-153 | when some asset is available, the result is the normalised passive-aggressive move w: each entry times the 1-norm of w is the entry of w, an asset with a non-positive prediction gets 0, and the zero-norm error occurs exactly when every entry of w is 0 |
| Allocation.ProjectOnAvailable | olmar.py:145-149 | on available assets with positive predictions, the new weights are `b + lam (x - mean)` |
| Allocation.PredictedReturnOfMove | olmar.py:145-149 | provided every gathered asset has a positive prediction and m centres the predictions (their deviations from m sum to 0): the new weights predict the old return plus lambda times the squared spread of the predictions around m |
| Allocation.TargetAlgebra | olmar.py:100-142 | the lambda rule lifts the predicted return to max(eps, old return) when it is unclamped and there is spread, and never overshoots |
| Allocation.MoveTarget | olmar.py:129-149 | provided every gathered asset has a positive prediction: the passive-aggressive guarantee for any centring that sums the deviations to 0 |
| Allocation.PassiveAggressiveTarget | olmar.py:129-149 | provided some asset is available and every available asset has a positive prediction: on the available assets, the unnormalised weights predict a return that is at least the old return and at most max(eps, old return); it equals max(eps, old return) when there is spread and lambda is not clamped |
| Allocation.NonPositivePredictionOvershoots | olmar.py:145-149 | the positive-prediction hypothesis is needed: for b = [0, 1], predictions [2, -1], both assets open and eps = 1.25, the moved weights predict a return above max(eps, old return) |
| Allocation.PassiveWhenAboveEps | olmar.py:108-111 | when b already predicts a return of at least eps, every asset with a positive prediction keeps its weight |
| Allocation.NoSpreadNoMove | olmar.py:102-106 | equal predictions on all available assets give lambda 0 |
| Olmar.Olmar.MoveAvailable | olmar.py:144-149 | the zeroed array filled by the loop equals the specified unnormalised weights |
| Olmar.Olmar.GetNewAllocation | olmar.py:113-153 | the result is the uniform allocation on an initial day without training data, and otherwise the normalised passive-aggressive move of b |
| Tuning.Combos | olmar.py:166-167 | the grid has (number of windows) * (number of eps values) entries |
| Tuning.ComboAt | olmar.py:166-167 | entry i * (number of eps values) + j of the grid is (window i, eps j), which is the window-major product order |
| Tuning.ComboMembers | olmar.py:166-167 | every grid entry pairs a window of the window range with an eps of the eps range |
| Tuning.Scores | olmar.py:172-178 | one score per candidate |
| Tuning.FirstMaxIndex | olmar.py:180 | `index(max(s))`: an entry at least as large as every other, and strictly larger than every earlier one |
| Tuning.FirstMaxUnique | olmar.py:180 | the first maximum is the only position with those two properties |
| Tuning.FirstRejected | olmar.py:173-175 | there is no rejection exactly when every candidate passes validation; a rejection carries the error of the first failing candidate |
| Tuning.RejectedPrefix | olmar.py:173-175 | a rejection met on a prefix of the grid is the rejection of the whole grid |
| Tuning.Tune | olmar.py:166-180 | a chosen pair is in the grid; the grid is reported empty exactly when it has no entries |
| Tuning.TuneSelectsFirstBest | olmar.py:172-181 | the chosen pair passes validation, scores at least as well as every candidate, and scores strictly better than every earlier candidate |
| Tuning.TuneRejects | olmar.py:173-175 | tuning fails with a rejection exactly when some candidate is invalid, and the reason is the error of the first invalid one |
| Olmar.Olmar.ScoreGrid | olmar.py:171-178 | the loop returns every candidate's score in grid order, or the first rejection |
| Olmar.Olmar.TuneHyperparams | olmar.py:155-185 | nothing changes when the day is at most 10 or tuning fails; otherwise window and eps become the chosen pair, each history grows by exactly that value, b is unchanged, and the object stays valid |

## Left out

- The `Portfolio` base class is not part of this model. This covers its
  simulation loop (`run`), `b_history` and the dollar bookkeeping. The
  current allocation `b` is a constructor argument here.
- The score of a pair in `TuneHyperparams` is a function parameter. It stands
  for the nested portfolio run and `util.empirical_sharpe_ratio`
  (olmar.py:169-178). The slice of `b_history` at olmar.py:169 is not
  modelled.
- The `util` helpers are not part of this model, so the model assumes their
  behaviour:
  - `silent_divide` gives 0 for a zero divisor;
  - an asset is available when its open is positive;
  - `get_uniform_allocation` puts equal weight on the available assets.
- Loading hyperparameters from `past_results_dir` (olmar.py:40-43) is file
  input and is left out. The loaded values are never validated, because the
  loading runs after the checks at olmar.py:33-36. So `CheckConfig(window,
  eps).Pass?` in `Olmar.Olmar.Valid` holds only on the paths modelled here.
- `print_results` (olmar.py:187-192) is console output and is left out.
- `get_hyperparams_dict` (olmar.py:194-199) only formats strings for storage
  and is left out.
- Floating-point rounding and the square root inside the 2-norm are left
  out. Numbers are exact reals and the squared norm is used directly.
- The default ranges `range(5, 30, 3)` and `np.arange(1.1, 5.1, 0.2)`
  (olmar.py:20) are not modelled. The grid ranges are arbitrary sequences.
- Allocation.NewAllocation: when no asset is available, the source takes the
  mean of an empty array and produces NaN weights. The model reports
  `NoAvailableAssets` instead.
- Allocation.Normalise: when every unnormalised weight is 0, the source
  divides by zero and produces non-finite weights. The model reports
  `ZeroNorm` instead.
- Olmar.Olmar.TuneHyperparams: the source raises an exception when a
  candidate is invalid or the grid is empty. The model returns
  `TrialRejected` or `EmptyGrid` and leaves the state unchanged, as the
  exception would.
- The constructor arguments `start`, `stop`, `rebal_interval`,
  `tune_interval`, `verbose`, `silent` and `repeat_past` are only passed on
  to the base class, so they are not modelled.
- `new_results_dir` is stored on the object (olmar.py:51) and passed on to
  the base class. No operation of this model reads it, so it is not a field.
- Allocation.UniformAllocation: `util.get_uniform_allocation` is not part of
  this model. Its error `NoAvailableAssets` when no open is positive is an
  assumption about that helper, not behaviour read from its code.
