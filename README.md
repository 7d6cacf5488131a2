# Sequence models of the rental-fleet analytics backend, in Dafny

This project models the two stateful sequence-model wrappers of the fleet
telemetry backend, together with what their code promises.

- **`HybridProphetLSTM`** (`backend/demand_forecasting_model.py`) is the demand forecaster.
  Prophet fits trend and seasonality to the daily demand history. An LSTM learns
  the scaled residuals, meaning actual minus Prophet's fit. `predict` extends those
  residuals autoregressively, adds them to Prophet's future rows and right-joins
  the result with the history.
- **`LSTMAutoencoder`** (`backend/behavioral_anomaly_model.py`) is the behavioural anomaly scorer.
  It is trained on the overlapping windows of one machine's scaled engine load, with
  each window as both input and target. It scores a new window by the mean absolute
  difference between the window and its reconstruction.

The learners are uninterpreted deterministic functions, given to each object's
constructor and applied in `Train`. There are four kinds:
- Prophet's fit (module `DemandForecasting`);
- the Keras fits (both modules);
- the compiled but untrained autoencoder of `build_model` (module `BehavioralAnomaly`);
- the `MinMaxScaler` fit (module `Support`).

The model covers what each fitted model is applied to and when: the residuals,
the windowing, the Untrained → Trained state, the 60-step autoregressive loop,
the in-place correction of the future rows, the join on `ds`, the shape checks,
the score, and the ways `train` and `predict` fail. What it does not cover is
listed under "Left out".

Files:

- `support.dfy` holds `Option`, the scaler as a `transform`/`inverse_transform` pair, and Python's `s[-n:]`.
- `behavioral_anomaly.dfy` holds the autoencoder class with its windowing and score.
- `demand_forecasting.dfy` holds the forecaster class with its dataset, loop, combination and join.

Dates are day numbers (`int`), so the day after `d` is `d + 1`. Values are `real`.

Facts of the code that the model follows:

- `LSTMAutoencoder` computes no anomaly threshold and uses no multiplier. It only returns the reconstruction error, so no threshold is modelled.
- `training_mae_loss` is the mean of the per-epoch Keras training losses (`backend/behavioral_anomaly_model.py:74`). It is not a reconstruction error recomputed on the training windows. The model treats it as an opaque value returned by the fit.
- `predict` merges the history into the forecast with `how='right'` (`backend/demand_forecasting_model.py:97`), so the model uses a right join. Lemma `JoinForecast` proves it gives one row per forecast date for a chronological history.
- The autoregressive loop never drops elements from `input_seq`. It appends each prediction and feeds the last 60 values (`backend/demand_forecasting_model.py:78-82`). `RolloutWindow` proves this is a window sliding by one step once the seed holds 60 values.

## Model

| member | source | states |
|---|---|---|
| `BehavioralAnomaly.SlidingWindowsAt` | backend/behavioral_anomaly_model.py:27-30 | for `L >= w` there are exactly `L - w + 1` windows and window `i` is `values[i .. i+w)`; for `L < w` there are none |
| `BehavioralAnomaly.WindowsOverlap` | backend/behavioral_anomaly_model.py:28-29 | consecutive windows share `w - 1` values in temporal order: window `i+1` is window `i` shifted by one, ending at `values[i+w]` |
| `BehavioralAnomaly.AbsDiffSum` | backend/behavioral_anomaly_model.py:94 | the summed absolute step differences are never negative |
| `BehavioralAnomaly.AbsDiffSumZero` | backend/behavioral_anomaly_model.py:94 | the summed absolute differences are zero if and only if the two windows are equal |
| `BehavioralAnomaly.MeanAbsoluteError` | backend/behavioral_anomaly_model.py:91-96 | the reconstruction error is non-negative, and zero exactly when the reconstruction equals the input |
| `BehavioralAnomaly.MeanAbsoluteErrorBound` | backend/behavioral_anomaly_model.py:94 | if every step of the reconstruction lies within `bound` of the input, the error is at most `bound` |
| `BehavioralAnomaly.Reconstruction` | backend/behavioral_anomaly_model.py:91 | the reconstruction has one value per step of the input window |
| `BehavioralAnomaly.SplitFailsOnlyForOneWindow` | backend/behavioral_anomaly_model.py:64-71 | Keras' `validation_split=0.1` keeps `floor(0.9 n)` of `n` windows for training and refuses a split with no training or no validation window. For `n >= 1` that happens exactly when `n = 1` |
| `BehavioralAnomaly.LstmAutoencoder.TrainingWindows` | backend/behavioral_anomaly_model.py:54-57 | a column of `L >= w` values gives `L - w + 1` training windows and a shorter one none; window `i` is `values[i .. i+w)` scaled element-wise |
| `BehavioralAnomaly.LstmAutoencoder.constructor` | backend/behavioral_anomaly_model.py:8-21 | a fresh instance keeps its settings, has no fitted scaler, `model = None` and `training_mae_loss = None` |
| `BehavioralAnomaly.LstmAutoencoder.CreateSequences` | backend/behavioral_anomaly_model.py:23-30 | fails exactly when fewer than `sequence_length` values are given; otherwise returns the reference sliding windows, `L - w + 1` of them |
| `BehavioralAnomaly.LstmAutoencoder.Train` | backend/behavioral_anomaly_model.py:48-75 | Empty input fails and leaves the scaler unfitted, because `fit` resets it before rejecting zero rows; model and loss are kept. Otherwise the scaler is refitted with `fit_transform`. Too few rows for one window leave model and loss as they were. Exactly one window fails in Keras' split after `build_model` has replaced the model with a fresh network, and the loss is kept. With `epochs = 0` the fit runs no epoch, its history holds no `'loss'`, and reading the mean at line 74 fails; the freshly built network stays in `model` and the loss is kept. Otherwise the network is fitted to the scaled windows as both input and target (`shuffle=False`, 10% validation) and `model`/`training_mae_loss` are set |
| `BehavioralAnomaly.LstmAutoencoder.Predict` | backend/behavioral_anomaly_model.py:77-96 | refuses while `model` is `None`; refuses with an unfitted scaler; refuses any row count other than `sequence_length`; otherwise returns the mean absolute error between the input scaled with the stored scaler and its reconstruction, which is non-negative; changes no field |
| `Support.Apply` | backend/demand_forecasting_model.py:84 | applying a scaler map keeps the column's length and maps each element on its own |
| `Support.Last` | backend/demand_forecasting_model.py:75 | `s[-n:]`: the last `min(n, len(s))` elements, preceded in `s` by the rest; all of `s` for `n = 0`, as Python's `s[-0:]` |
| `DemandForecasting.FutureFrame` | backend/demand_forecasting_model.py:64 | the frame has `len(df) + periods` dates: the history's dates, then each next date one day after the one before |
| `DemandForecasting.DecomposerForecast` | backend/demand_forecasting_model.py:65 | one row per date of the frame, in order, carrying the decomposer's estimate for that date |
| `DemandForecasting.Residuals` | backend/demand_forecasting_model.py:69-70 | one residual per history row; the fit plus the residual gives back the observed `y` |
| `DemandForecasting.SamplesAt` | backend/demand_forecasting_model.py:19-24 | the dataset has `max(0, len(data) - n)` pairs and pair `i` is the window `data[i .. i+n)` with target `data[i+n]`, the element right after it |
| `DemandForecasting.CreateLstmDataset` | backend/demand_forecasting_model.py:19-24 | the loop yields the reference pairs in increasing position: `max(0, len - n)` windows of length `n`, each with its successor as target |
| `DemandForecasting.SeedFollowsTraining` | backend/demand_forecasting_model.py:45-48 | the 60-value seed of `predict` is the last training window shifted by one plus the last training target |
| `DemandForecasting.Rollout` | backend/demand_forecasting_model.py:74-82 | the reference loop makes exactly `k` predictions after `k` steps |
| `DemandForecasting.RolloutPrefix` | backend/demand_forecasting_model.py:78-82 | a shorter run is a prefix of a longer one, so predictions are never revised |
| `DemandForecasting.RolloutStep` | backend/demand_forecasting_model.py:78-82 | step `k` feeds the predictor the last 60 elements of the seed followed by the first `k` predictions |
| `DemandForecasting.RolloutWindow` | backend/demand_forecasting_model.py:74-82 | with a 60-value seed, the window of step `k` is the running sequence from position `k` on for 60 values, so it slides by one per step |
| `DemandForecasting.AutoregressiveResiduals` | backend/demand_forecasting_model.py:73-82 | the loop returns exactly `periods` predictions, equal to the reference rollout, and `input_seq` is the seed followed by them, of length `|seed| + periods`, which is `60 + periods` for the seed `Predict` passes |
| `DemandForecasting.Combined` | backend/demand_forecasting_model.py:87-90 | rows before `len(df)` are kept; each later row keeps its date and bounds and its `yhat` grows by exactly its residual |
| `DemandForecasting.AddResiduals` | backend/demand_forecasting_model.py:87-90 | rows before `len(df)` are unchanged; row `len(df)+j` gains residual `j` in `yhat` only, so its date and bounds are unchanged |
| `DemandForecasting.ActualsOn` | backend/demand_forecasting_model.py:97 | every value matched on a date is an observation of the history on that date, and a date the history carries matches at least one |
| `DemandForecasting.JoinRow` | backend/demand_forecasting_model.py:97 | a forecast row yields at least one joined row; each keeps its date and estimates, and any actual is a history observation on that date |
| `DemandForecasting.RightJoin` | backend/demand_forecasting_model.py:97 | the right join has at least as many rows as the forecast, and every actual it carries is a history observation on the row's date |
| `DemandForecasting.RightJoinKeepsRows` | backend/demand_forecasting_model.py:97 | the right join drops no forecast row: each one appears in the result with its date and its three estimates |
| `DemandForecasting.ActualsOnHistoryDate` | backend/demand_forecasting_model.py:92-97 | in a chronological history, each historical date matches exactly one row, carrying its observed `y` |
| `DemandForecasting.ActualsOnAbsent` | backend/demand_forecasting_model.py:92-97 | a date that no history row carries matches nothing |
| `DemandForecasting.RightJoinOneToOne` | backend/demand_forecasting_model.py:97 | when no date matches two history rows, the right join keeps one row per forecast row, in order, and only fills in `actual` |
| `DemandForecasting.JoinForecast` | backend/demand_forecasting_model.py:92-97 | joining a forecast over the history's dates and the following days: one row per forecast date, with `actual` present exactly for the historical dates |
| `DemandForecasting.CombinedForecast` | backend/demand_forecasting_model.py:86-97 | the answer has at least `len(df) + periods` rows, and every actual it carries is a history observation on the row's date |
| `DemandForecasting.CorrectedRows` | backend/demand_forecasting_model.py:64-90 | before the join, the corrected frame holds the history's dates with Prophet's estimates, then the `periods` following days with Prophet's estimate plus their residual in `yhat` |
| `DemandForecasting.ForecastRows` | backend/demand_forecasting_model.py:86-97 | the result has `len(df) + periods` rows; historical rows keep Prophet's `yhat` and carry `actual`; the row `j` days after the history has `yhat + residual[j]`, Prophet's bounds and no actual |
| `DemandForecasting.HybridProphetLstm.Seed` | backend/demand_forecasting_model.py:69-75 | the seed of a trained model holds exactly 60 scaled residuals, recomputed as actual minus fit |
| `DemandForecasting.HybridProphetLstm.PredictedResiduals` | backend/demand_forecasting_model.py:84 | one unscaled residual per requested period, from `inverse_transform` of the rollout |
| `DemandForecasting.HybridProphetLstm.constructor` | backend/demand_forecasting_model.py:12-17 | a fresh instance holds the history, no Prophet model, no LSTM and an unfitted scaler |
| `DemandForecasting.HybridProphetLstm.Train` | backend/demand_forecasting_model.py:26-57 | with fewer than two rows Prophet's fit raises and leaves an unfitted model. Otherwise Prophet is fitted and the scaler is refitted on the residuals `y - yhat`. With 60 rows or fewer there is no training pair, so the step fails and the LSTM stays as it was. Otherwise the LSTM is fitted to the 60-step pairs of the scaled residuals |
| `DemandForecasting.HybridProphetLstm.Predict` | backend/demand_forecasting_model.py:59-99 | Raises `NotTrained` exactly when either model is unset. With both set, `periods = 0` fails, because `inverse_transform` refuses the empty batch. Otherwise it returns the combined forecast built from the stored decomposer and the unscaled rollout, using `transform`/`inverse_transform` and never a refit, with `len(df) + periods` rows. It changes no field |

## Left out

- Prophet fitting and forecasting, Keras model construction, fitting and inference, and the `MinMaxScaler` numerics are not modelled. Each is an uninterpreted deterministic function, so properties that depend on their numbers cannot be stated. That includes the scaler round trip, near-zero error on constant input and forecast accuracy.
- Prophet's `yhat_lower`/`yhat_upper` come from sampling in Prophet. They are treated as a deterministic function of the date.
- Floating point is not modelled: the `float32` cast before scoring, NaN handling and rounding. Values are exact reals.
- CSV loading and date parsing (`pd.read_csv`, `pd.to_datetime`) are left out as I/O. The history is a given sequence of (day, value) rows.
- `HybridProphetLstm.constructor` requires strictly increasing dates. Prophet sorts its input and builds future dates from the sorted distinct history dates, and `loc[len(df):]` assumes one forecast row per history row. An unsorted or duplicated CSV is not modelled.
- The default arguments of both `__init__`s and of `predict(periods=365)` are not modelled. Every setting is passed explicitly.
- `LstmAutoencoder.constructor` requires `sequence_length >= 1`. A zero-length window is not modelled.
- `HybridProphetLstm.Predict` takes `periods` as a natural number. Negative horizons are not modelled.
- `LstmAutoencoder.Train`: two failures after `build_model` are modelled: the validation split with no training window (the one-window case) and the empty loss history of zero epochs. Failures inside the fitting numerics are left out with the learners.
- `HybridProphetLstm.Train`: a Keras `fit` that raises inside its numerics is not modelled. With at least one training pair, the fit is treated as always succeeding.
- The anomaly threshold, multiplier and decision rule appear nowhere in the code, so none is modelled.
- `print`, `model.summary()` and warning suppression are left out.
- `backend/app.py` is not part of this model. It is Flask routing, CSV loading and an ARIMA call.
- `backend/rul_prediction_model.py` is not part of this model. It wraps XGBoost.
- The data generators `generate_*_data.py` are not part of this model. They are random synthetic data written to CSV.
