/** The hybrid demand forecaster: a trend/seasonality decomposer (Prophet)
    fitted to the daily demand history, plus an LSTM that learns the scaled
    residuals the decomposer leaves and extends them autoregressively into the
    future. The two learners and the scaler are uninterpreted functions fixed
    when `Train` runs; the residuals, the windowing, the autoregressive loop,
    the combination of the two forecasts, the join with the history and the
    failures of `train` and `predict` are modelled. */
module DemandForecasting {
  import opened Support

  /** Days of residuals the LSTM looks back over, in `train` and `predict`. */
  const LookBack: nat := 60
  /** Prophet refuses to fit a frame with fewer non-missing rows. */
  const MinDecomposerRows: nat := 2

  /** A calendar day, numbered so that consecutive days differ by one. */
  type Date = int

  /** One row of the demand history: the columns `ds` and `y`. */
  datatype Observation = Observation(ds: Date, y: real)

  /** Prophet's estimate for one date. */
  datatype Estimate = Estimate(yhat: real, yhatLower: real, yhatUpper: real)

  /** One row of a forecast frame. */
  datatype ForecastRow = ForecastRow(ds: Date, yhat: real, yhatLower: real, yhatUpper: real)

  /** One row of what `predict` returns; `actual` is missing where the
      history has no observation for the date. */
  datatype ResultRow = ResultRow(
    ds: Date, actual: Option<real>, yhat: real, yhatLower: real, yhatUpper: real)

  /** The arguments the model builds its Prophet instance with. */
  datatype DecomposerSettings = DecomposerSettings(
    yearlySeasonality: bool, weeklySeasonality: bool, dailySeasonality: bool,
    changepointPriorScale: real, seasonalityPriorScale: real)

  const ProphetSettings := DecomposerSettings(true, true, false, 0.05, 10.0)

  /** A fitted decomposer: its estimate for any date, past or future. */
  type Decomposer = Date -> Estimate

  /** Prophet fitting: an uninterpreted deterministic function. */
  type DecomposerFit = (DecomposerSettings, seq<Observation>) -> Decomposer

  /** The residual network's layers and training arguments. */
  datatype ResidualNetSettings = ResidualNetSettings(
    units: nat, activation: string, lookBack: nat, optimizer: string, loss: string, epochs: nat)

  const ResidualNet := ResidualNetSettings(50, "relu", LookBack, "adam", "mse", 50)

  /** A trained residual network: the next scaled residual after a window. */
  type ResidualPredictor = seq<real> -> real

  /** Keras training on (windows, targets): an uninterpreted deterministic function. */
  type ResidualFit = (ResidualNetSettings, seq<seq<real>>, seq<real>) -> ResidualPredictor

  /** `prophet_model`: never assigned, assigned but its `fit` raised, or fitted. */
  datatype DecomposerState = Unset | Unfitted | Fitted(decomposer: Decomposer)

  datatype Failure =
    | DecomposerNeedsTwoRows  // Prophet's `fit` raises on fewer than two rows
    | NoTrainingWindows       // no (window, target) pair: the reshape of `X` fails
    | NotTrained              // `predict` before a successful `train`
    | EmptyHorizon            // `inverse_transform` refuses the empty batch of a 0-day horizon

  datatype Outcome = Trained | Failed(failure: Failure)

  datatype Result<T> = Ok(value: T) | Err(failure: Failure)

  // ---------------------------------------------------------------------
  // The history and the frames built from it

  /** Dates strictly increase along the history, as in the daily demand file. */
  ghost predicate Chronological(h: seq<Observation>) {
    forall i, j :: 0 <= i < j < |h| ==> h[i].ds < h[j].ds
  }

  /** `make_future_dataframe(periods)`: the history's dates followed by the
      `periods` days after the last of them. */
  function FutureFrame(h: seq<Observation>, periods: nat): (dates: seq<Date>)
    requires |h| > 0
    ensures |dates| == |h| + periods
    ensures forall i :: 0 <= i < |h| ==> dates[i] == h[i].ds
    ensures forall i :: |h| <= i < |dates| ==> dates[i] == dates[i - 1] + 1
  {
    seq(|h|, i requires 0 <= i < |h| => h[i].ds)
      + seq(periods, j => h[|h| - 1].ds + 1 + j)
  }

  /** The future part of the frame counts the days after the history's last date. */
  lemma FutureDays(h: seq<Observation>, periods: nat)
    requires |h| > 0
    ensures forall i :: |h| <= i < |h| + periods ==>
              FutureFrame(h, periods)[i] == h[|h| - 1].ds + 1 + (i - |h|)
  {
  }

  /** Prophet's `predict` on a frame of dates: one row per date, in order,
      carrying the decomposer's estimate for that date. */
  function DecomposerForecast(d: Decomposer, dates: seq<Date>): (rows: seq<ForecastRow>)
    ensures |rows| == |dates|
    ensures forall i :: 0 <= i < |dates| ==>
              rows[i].ds == dates[i]
              && Estimate(rows[i].yhat, rows[i].yhatLower, rows[i].yhatUpper) == d(dates[i])
  {
    seq(|dates|, i requires 0 <= i < |dates| =>
      ForecastRow(dates[i], d(dates[i]).yhat, d(dates[i]).yhatLower, d(dates[i]).yhatUpper))
  }

  /** `df['y'] - forecast['yhat']` over the history: what the fit leaves of
      each actual, so that fit plus residual gives the actual back. */
  function Residuals(h: seq<Observation>, d: Decomposer): (r: seq<real>)
    ensures |r| == |h|
    ensures forall i :: 0 <= i < |h| ==> d(h[i].ds).yhat + r[i] == h[i].y
  {
    seq(|h|, i requires 0 <= i < |h| => h[i].y - d(h[i].ds).yhat)
  }

  // ---------------------------------------------------------------------
  // `_create_lstm_dataset`

  /** One training pair: a window and the value right after it. */
  datatype Sample = Sample(window: seq<real>, target: real)

  /** Reference definition of the training pairs: the first `n` values with
      the one after them, then the pairs of the series without its first value. */
  function Samples(data: seq<real>, n: nat): seq<Sample>
    decreases |data|
  {
    if |data| <= n then [] else [Sample(data[..n], data[n])] + Samples(data[1..], n)
  }

  function Inputs(samples: seq<Sample>): seq<seq<real>> {
    seq(|samples|, i requires 0 <= i < |samples| => samples[i].window)
  }

  function Targets(samples: seq<Sample>): seq<real> {
    seq(|samples|, i requires 0 <= i < |samples| => samples[i].target)
  }

  lemma {:induction false} SamplesLength(data: seq<real>, n: nat)
    ensures |Samples(data, n)| == if |data| <= n then 0 else |data| - n
  {
    if |data| > n {
      SamplesLength(data[1..], n);
    }
  }

  /** Pair `i` is the window starting at position `i` and its successor. */
  lemma {:induction false} SampleAt(data: seq<real>, n: nat, i: nat)
    requires i + n < |data|
    ensures i < |Samples(data, n)|
    ensures Samples(data, n)[i] == Sample(data[i..i + n], data[i + n])
  {
    SamplesLength(data, n);
    var rest := data[1..];
    assert Samples(data, n) == [Sample(data[..n], data[n])] + Samples(rest, n);
    if i > 0 {
      SampleAt(rest, n, i - 1);
      assert Samples(data, n)[i] == Samples(rest, n)[i - 1];
      assert rest[i - 1..i - 1 + n] == data[i..i + n];
      assert rest[i - 1 + n] == data[i + n];
    }
  }

  /** There are `max(0, |data| - n)` pairs; pair `i` is the window
      `data[i .. i + n)` and its successor `data[i + n]`. */
  lemma SamplesAt(data: seq<real>, n: nat)
    ensures |data| <= n ==> Samples(data, n) == []
    ensures |data| > n ==> |Samples(data, n)| == |data| - n
    ensures forall i :: 0 <= i < |Samples(data, n)| ==>
              Samples(data, n)[i] == Sample(data[i..i + n], data[i + n])
  {
    SamplesLength(data, n);
    forall i | 0 <= i < |Samples(data, n)|
      ensures Samples(data, n)[i] == Sample(data[i..i + n], data[i + n])
    {
      SampleAt(data, n, i);
    }
  }

  /** `_create_lstm_dataset`: the windows and their targets, in increasing
      position, each window of length `nSteps`. */
  method CreateLstmDataset(data: seq<real>, nSteps: nat) returns (xs: seq<seq<real>>, ys: seq<real>)
    ensures xs == Inputs(Samples(data, nSteps)) && ys == Targets(Samples(data, nSteps))
    ensures |xs| == |ys| == if |data| <= nSteps then 0 else |data| - nSteps
    ensures forall i :: 0 <= i < |xs| ==>
              |xs[i]| == nSteps && xs[i] == data[i..i + nSteps] && ys[i] == data[i + nSteps]
  {
    xs, ys := [], [];
    var i := 0;
    while i < |data| - nSteps
      invariant 0 <= i
      invariant i <= |data| - nSteps || i == 0
      invariant |xs| == |ys| == i
      invariant forall k :: 0 <= k < i ==> xs[k] == data[k..k + nSteps] && ys[k] == data[k + nSteps]
    {
      xs := xs + [data[i..i + nSteps]];
      ys := ys + [data[i + nSteps]];
      i := i + 1;
    }
    SamplesAt(data, nSteps);
    assert xs == Inputs(Samples(data, nSteps));
    assert ys == Targets(Samples(data, nSteps));
  }

  /** `predict` seeds its loop with the last `LookBack` scaled residuals;
      these are the last training window shifted by one step, followed by the
      last training target, so the loop continues where training stopped. */
  lemma SeedFollowsTraining(scaled: seq<real>)
    requires |scaled| > LookBack
    ensures |Samples(scaled, LookBack)| == |scaled| - LookBack
    ensures var last := Samples(scaled, LookBack)[|scaled| - LookBack - 1];
            |last.window| == LookBack && Last(scaled, LookBack) == last.window[1..] + [last.target]
  {
    SamplesAt(scaled, LookBack);
    var k := |scaled| - LookBack - 1;
    var last := Samples(scaled, LookBack)[k];
    assert last.window == scaled[k..k + LookBack] && last.target == scaled[k + LookBack];
    assert Last(scaled, LookBack) == scaled[k + 1..];
    assert last.window[1..] == scaled[k + 1..k + LookBack];
    assert scaled[k + 1..] == scaled[k + 1..k + LookBack] + [scaled[k + LookBack]];
  }

  // ---------------------------------------------------------------------
  // The autoregressive residual loop

  /** Reference definition of the loop: the first `k` scaled residual
      predictions, each made from the last `LookBack` values of the seed
      followed by the predictions before it. */
  function Rollout(p: ResidualPredictor, seed: seq<real>, k: nat): (preds: seq<real>)
    ensures |preds| == k
  {
    if k == 0 then []
    else
      var before := Rollout(p, seed, k - 1);
      before + [p(Last(seed + before, LookBack))]
  }

  /** A longer run begins with a shorter one: predictions never change once made. */
  lemma {:induction false} RolloutPrefix(p: ResidualPredictor, seed: seq<real>, k: nat, m: nat)
    requires k <= m
    ensures Rollout(p, seed, m)[..k] == Rollout(p, seed, k)
    decreases m
  {
    if k < m {
      RolloutPrefix(p, seed, k, m - 1);
      assert Rollout(p, seed, m)[..k] == Rollout(p, seed, m - 1)[..k];
    }
  }

  /** Step `k` feeds the predictor the last `LookBack` elements of the seed
      followed by the first `k` predictions. */
  lemma RolloutStep(p: ResidualPredictor, seed: seq<real>, periods: nat, k: nat)
    requires k < periods
    ensures Rollout(p, seed, periods)[k]
              == p(Last(seed + Rollout(p, seed, periods)[..k], LookBack))
  {
    RolloutPrefix(p, seed, k + 1, periods);
    RolloutPrefix(p, seed, k, periods);
    assert Rollout(p, seed, periods)[k] == Rollout(p, seed, periods)[..k + 1][k];
  }

  /** With a seed of exactly `LookBack` values, step `k` sees a full window:
      the running sequence from position `k` on, i.e. the window slides by one
      element per step. */
  lemma RolloutWindow(p: ResidualPredictor, seed: seq<real>, periods: nat, k: nat)
    requires |seed| == LookBack && k < periods
    ensures Last(seed + Rollout(p, seed, periods)[..k], LookBack)
              == (seed + Rollout(p, seed, periods))[k..k + LookBack]
  {
  }


  /** The loop of `predict`: `periods` predictions, each appended to the
      running input sequence, which keeps the seed as its prefix. */
  method AutoregressiveResiduals(p: ResidualPredictor, seed: seq<real>, periods: nat)
    returns (preds: seq<real>, inputSeq: seq<real>)
    ensures preds == Rollout(p, seed, periods)
    ensures |preds| == periods
    ensures inputSeq == seed + preds && |inputSeq| == |seed| + periods
  {
    inputSeq, preds := seed, [];
    var k := 0;
    while k < periods
      invariant 0 <= k <= periods
      invariant preds == Rollout(p, seed, k)
      invariant inputSeq == seed + preds
    {
      var prediction := p(Last(inputSeq, LookBack));
      preds := preds + [prediction];
      inputSeq := inputSeq + [prediction];
      k := k + 1;
    }
  }

  // ---------------------------------------------------------------------
  // Combining the forecasts and joining with the history

  /** The forecast rows after the residuals are added from row `start` on:
      the rows before `start` are kept, and each later row differs from its
      original only in `yhat`, by its residual. */
  function Combined(rows: seq<ForecastRow>, start: nat, residuals: seq<real>): (r: seq<ForecastRow>)
    requires |rows| == start + |residuals|
    ensures |r| == |rows| && r[..start] == rows[..start]
    ensures forall i :: start <= i < |r| ==>
              && r[i].ds == rows[i].ds
              && r[i].yhatLower == rows[i].yhatLower && r[i].yhatUpper == rows[i].yhatUpper
              && r[i].yhat - rows[i].yhat == residuals[i - start]
  {
    seq(|rows|, i requires 0 <= i < |rows| =>
      if i < start then rows[i] else rows[i].(yhat := rows[i].yhat + residuals[i - start]))
  }

  /** `final_forecast.loc[start:, 'yhat'] += residuals`: the point estimate of
      every row from `start` on gains its residual; nothing else changes. */
  method AddResiduals(rows: array<ForecastRow>, start: nat, residuals: seq<real>)
    requires rows.Length == start + |residuals|
    modifies rows
    ensures forall i :: 0 <= i < start ==> rows[i] == old(rows[i])
    ensures forall i :: start <= i < rows.Length ==>
              rows[i] == old(rows[i]).(yhat := old(rows[i].yhat) + residuals[i - start])
    ensures rows[..] == Combined(old(rows[..]), start, residuals)
  {
    var j := 0;
    while j < |residuals|
      invariant 0 <= j <= |residuals|
      invariant forall i :: 0 <= i < start ==> rows[i] == old(rows[i])
      invariant forall i :: start <= i < start + j ==>
                  rows[i] == old(rows[i]).(yhat := old(rows[i].yhat) + residuals[i - start])
      invariant forall i :: start + j <= i < rows.Length ==> rows[i] == old(rows[i])
    {
      rows[start + j] := rows[start + j].(yhat := rows[start + j].yhat + residuals[j]);
      j := j + 1;
    }
  }

  /** The `y` of every history row dated `d`, in history order: each is an
      observation on `d`, and a date the history carries yields at least one. */
  function ActualsOn(h: seq<Observation>, d: Date): (ys: seq<real>)
    ensures |ys| <= |h|
    ensures forall k :: 0 <= k < |ys| ==> Observation(d, ys[k]) in h
    ensures (exists k :: 0 <= k < |h| && h[k].ds == d) ==> ys != []
  {
    if h == [] then [] else (if h[0].ds == d then [h[0].y] else []) + ActualsOn(h[1..], d)
  }

  /** The rows a right join on `ds` makes of one forecast row: one per
      matching history row, or one with no actual when nothing matches. Each
      keeps the forecast row's date and estimates; each actual is an
      observation on that date. */
  function JoinRow(h: seq<Observation>, r: ForecastRow): (rs: seq<ResultRow>)
    ensures |rs| >= 1
    ensures forall k :: 0 <= k < |rs| ==>
              && rs[k].ds == r.ds && rs[k].yhat == r.yhat
              && rs[k].yhatLower == r.yhatLower && rs[k].yhatUpper == r.yhatUpper
              && (rs[k].actual.Some? ==> Observation(r.ds, rs[k].actual.value) in h)
  {
    var ys := ActualsOn(h, r.ds);
    if ys == [] then [ResultRow(r.ds, None, r.yhat, r.yhatLower, r.yhatUpper)]
    else seq(|ys|, k requires 0 <= k < |ys| =>
           ResultRow(r.ds, Some(ys[k]), r.yhat, r.yhatLower, r.yhatUpper))
  }

  /** `pd.merge(history, forecast, on='ds', how='right')`, in forecast order:
      no forecast row is dropped, and every actual is an observation of the
      history on the row's date. */
  function RightJoin(h: seq<Observation>, rows: seq<ForecastRow>): (r: seq<ResultRow>)
    ensures |r| >= |rows|
    ensures forall k :: 0 <= k < |r| && r[k].actual.Some? ==>
              Observation(r[k].ds, r[k].actual.value) in h
  {
    if rows == [] then [] else JoinRow(h, rows[0]) + RightJoin(h, rows[1..])
  }

  /** A right join keeps every forecast row: for each one, some joined row
      carries its date and its three estimates. */
  lemma {:induction false} RightJoinKeepsRows(h: seq<Observation>, rows: seq<ForecastRow>)
    ensures forall i :: 0 <= i < |rows| ==>
              exists k :: 0 <= k < |RightJoin(h, rows)| && Keeps(RightJoin(h, rows)[k], rows[i])
  {
    if rows != [] {
      var head, tail := JoinRow(h, rows[0]), RightJoin(h, rows[1..]);
      RightJoinKeepsRows(h, rows[1..]);
      assert RightJoin(h, rows) == head + tail;
      forall i | 0 <= i < |rows|
        ensures exists k :: 0 <= k < |RightJoin(h, rows)| && Keeps(RightJoin(h, rows)[k], rows[i])
      {
        if i == 0 {
          assert Keeps(RightJoin(h, rows)[0], rows[0]);
        } else {
          assert rows[1..][i - 1] == rows[i];
          var k :| 0 <= k < |tail| && Keeps(tail[k], rows[1..][i - 1]);
          assert RightJoin(h, rows)[|head| + k] == tail[k];
        }
      }
    }
  }

  /** A joined row that carries the forecast row's date and estimates. */
  predicate Keeps(joined: ResultRow, r: ForecastRow) {
    joined.ds == r.ds && joined.yhat == r.yhat
    && joined.yhatLower == r.yhatLower && joined.yhatUpper == r.yhatUpper
  }

  /** In a chronological history, each historical date carries exactly one actual. */
  lemma {:induction false} ActualsOnHistoryDate(h: seq<Observation>, i: nat)
    requires Chronological(h) && i < |h|
    ensures ActualsOn(h, h[i].ds) == [h[i].y]
  {
    if i == 0 {
      ActualsOnAbsent(h[1..], h[0].ds);
    } else {
      ActualsOnHistoryDate(h[1..], i - 1);
    }
  }

  /** A date no history row carries has no actual. */
  lemma {:induction false} ActualsOnAbsent(h: seq<Observation>, d: Date)
    requires forall k :: 0 <= k < |h| ==> h[k].ds != d
    ensures ActualsOn(h, d) == []
  {
    if h != [] {
      ActualsOnAbsent(h[1..], d);
    }
  }

  /** The row a forecast row becomes when at most one history row matches it. */
  function Matched(h: seq<Observation>, r: ForecastRow): ResultRow {
    var ys := ActualsOn(h, r.ds);
    ResultRow(r.ds, if ys == [] then None else Some(ys[0]), r.yhat, r.yhatLower, r.yhatUpper)
  }

  /** When no date matches more than one history row, the join keeps one row
      per forecast row, in order, and only fills in `actual`. */
  lemma {:induction false} RightJoinOneToOne(h: seq<Observation>, rows: seq<ForecastRow>)
    requires forall i :: 0 <= i < |rows| ==> |ActualsOn(h, rows[i].ds)| <= 1
    ensures |RightJoin(h, rows)| == |rows|
    ensures forall i :: 0 <= i < |rows| ==> RightJoin(h, rows)[i] == Matched(h, rows[i])
  {
    if rows != [] {
      RightJoinOneToOne(h, rows[1..]);
      assert JoinRow(h, rows[0]) == [Matched(h, rows[0])];
      forall i | 0 < i < |rows|
        ensures RightJoin(h, rows)[i] == Matched(h, rows[i])
      {
        assert RightJoin(h, rows)[i] == RightJoin(h, rows[1..])[i - 1];
      }
    }
  }

  /** Joining a forecast over the history's dates and the days after them:
      one row per forecast date, `actual` present exactly for the historical
      dates. */
  lemma JoinForecast(h: seq<Observation>, rows: seq<ForecastRow>, periods: nat)
    requires Chronological(h) && |h| > 0 && |rows| == |h| + periods
    requires forall i :: 0 <= i < |h| ==> rows[i].ds == h[i].ds
    requires forall i :: |h| <= i < |rows| ==> rows[i].ds == h[|h| - 1].ds + 1 + (i - |h|)
    ensures |RightJoin(h, rows)| == |rows|
    ensures forall i :: 0 <= i < |h| ==>
              RightJoin(h, rows)[i]
                == ResultRow(h[i].ds, Some(h[i].y), rows[i].yhat, rows[i].yhatLower, rows[i].yhatUpper)
    ensures forall i :: |h| <= i < |rows| ==>
              RightJoin(h, rows)[i] == ResultRow(rows[i].ds, None, rows[i].yhat, rows[i].yhatLower, rows[i].yhatUpper)
  {
    forall i | 0 <= i < |rows|
      ensures ActualsOn(h, rows[i].ds) == if i < |h| then [h[i].y] else []
    {
      if i < |h| {
        ActualsOnHistoryDate(h, i);
      } else {
        forall k | 0 <= k < |h| ensures h[k].ds != rows[i].ds {
          assert k == |h| - 1 || h[k].ds < h[|h| - 1].ds;
        }
        ActualsOnAbsent(h, rows[i].ds);
      }
    }
    RightJoinOneToOne(h, rows);
  }

  /** The whole answer of `predict` for a decomposer and the unscaled
      residual predictions: Prophet's forecast over the history's dates and
      the following days, corrected on the future rows, joined with the history. */
  function CombinedForecast(h: seq<Observation>, d: Decomposer, predicted: seq<real>): (r: seq<ResultRow>)
    requires |h| > 0
    ensures |r| >= |h| + |predicted|
    ensures forall k :: 0 <= k < |r| && r[k].actual.Some? ==>
              Observation(r[k].ds, r[k].actual.value) in h
  {
    RightJoin(h, Combined(DecomposerForecast(d, FutureFrame(h, |predicted|)), |h|, predicted))
  }

  /** One row per forecast date: historical rows keep Prophet's fit and carry
      their actual value; the row `j` days after the history carries Prophet's
      estimate plus residual `j`, Prophet's unchanged bounds and no actual. */
  lemma ForecastRows(h: seq<Observation>, d: Decomposer, predicted: seq<real>)
    requires Chronological(h) && |h| > 0
    ensures |CombinedForecast(h, d, predicted)| == |h| + |predicted|
    ensures forall i :: 0 <= i < |h| ==>
              CombinedForecast(h, d, predicted)[i]
                == ResultRow(h[i].ds, Some(h[i].y), d(h[i].ds).yhat, d(h[i].ds).yhatLower, d(h[i].ds).yhatUpper)
    ensures forall j :: 0 <= j < |predicted| ==>
              var day := h[|h| - 1].ds + 1 + j;
              CombinedForecast(h, d, predicted)[|h| + j]
                == ResultRow(day, None, d(day).yhat + predicted[j], d(day).yhatLower, d(day).yhatUpper)
  {
    var rows := Combined(DecomposerForecast(d, FutureFrame(h, |predicted|)), |h|, predicted);
    CorrectedRows(h, d, predicted);
    JoinForecast(h, rows, |predicted|);
    forall j | 0 <= j < |predicted|
      ensures var day := h[|h| - 1].ds + 1 + j;
              CombinedForecast(h, d, predicted)[|h| + j]
                == ResultRow(day, None, d(day).yhat + predicted[j], d(day).yhatLower, d(day).yhatUpper)
    {
      assert rows[|h| + j].ds == h[|h| - 1].ds + 1 + j;
    }
  }

  /** The corrected forecast frame before the join: the history's dates with
      Prophet's estimates, then the following days with the residuals added. */
  lemma CorrectedRows(h: seq<Observation>, d: Decomposer, predicted: seq<real>)
    requires |h| > 0
    ensures var rows := Combined(DecomposerForecast(d, FutureFrame(h, |predicted|)), |h|, predicted);
            && |rows| == |h| + |predicted|
            && (forall i :: 0 <= i < |h| ==>
                  rows[i] == ForecastRow(h[i].ds, d(h[i].ds).yhat, d(h[i].ds).yhatLower, d(h[i].ds).yhatUpper))
            && (forall i :: |h| <= i < |rows| ==>
                  var day := h[|h| - 1].ds + 1 + (i - |h|);
                  rows[i] == ForecastRow(day, d(day).yhat + predicted[i - |h|], d(day).yhatLower, d(day).yhatUpper))
  {
    var dates := FutureFrame(h, |predicted|);
    var forecast := DecomposerForecast(d, dates);
    var rows := Combined(forecast, |h|, predicted);
    FutureDays(h, |predicted|);
    forall i | 0 <= i < |h|
      ensures rows[i] == ForecastRow(h[i].ds, d(h[i].ds).yhat, d(h[i].ds).yhatLower, d(h[i].ds).yhatUpper)
    {
      assert rows[i] == rows[..|h|][i] == forecast[..|h|][i];
    }
  }

  // ---------------------------------------------------------------------
  // The model object

  class HybridProphetLstm {
    /** The demand history `__init__` reads; never changed afterwards. */
    const history: seq<Observation>
    const fitDecomposer: DecomposerFit
    const fitScaler: ScalerFit
    const fitResidualNet: ResidualFit

    var prophet: DecomposerState
    /** `None` stands for the scaler before its first `fit_transform`. */
    var scaler: Option<Scaler>
    var lstm: Option<ResidualPredictor>

    ghost predicate Valid()
      reads this
    {
      && Chronological(history)
      && (lstm.Some? ==>
            && |history| > LookBack
            && prophet == Fitted(FittedDecomposer())
            && scaler == Some(fitScaler(UnitRange, TrainingResiduals())))
    }

    /** The guard of `predict`: both models are set. */
    predicate IsTrained()
      reads this
    {
      !prophet.Unset? && lstm.Some?
    }

    /** The decomposer `train` fits to the history. */
    function FittedDecomposer(): Decomposer {
      fitDecomposer(ProphetSettings, history)
    }

    /** The residuals `train` fits the scaler to. */
    function TrainingResiduals(): seq<real> {
      Residuals(history, FittedDecomposer())
    }

    /** The (window, target) pairs `train` fits the residual network to. */
    function TrainingSamples(): seq<Sample> {
      Samples(Apply(fitScaler(UnitRange, TrainingResiduals()).transform, TrainingResiduals()), LookBack)
    }

    /** The seed of the loop in `predict`: the last `LookBack` scaled
        historical residuals, recomputed with the stored models. */
    ghost function Seed(): (seed: seq<real>)
      reads this
      requires Valid() && IsTrained()
      ensures |seed| == LookBack
    {
      Last(Apply(scaler.value.transform, Residuals(history, prophet.decomposer)), LookBack)
    }

    /** The unscaled residuals `predict` adds to the future rows. */
    ghost function PredictedResiduals(periods: nat): (rs: seq<real>)
      reads this
      requires Valid() && IsTrained()
      ensures |rs| == periods
    {
      Apply(scaler.value.inverseTransform, Rollout(lstm.value, Seed(), periods))
    }

    /** `__init__`: the history is given; no model is set and the scaler is unfitted. */
    constructor (history: seq<Observation>, fitDecomposer: DecomposerFit,
                 fitScaler: ScalerFit, fitResidualNet: ResidualFit)
      requires Chronological(history)
      ensures Valid() && !IsTrained()
      ensures this.history == history && this.fitDecomposer == fitDecomposer
      ensures this.fitScaler == fitScaler && this.fitResidualNet == fitResidualNet
      ensures prophet == Unset && scaler == None && lstm == None
    {
      this.history := history;
      this.fitDecomposer := fitDecomposer;
      this.fitScaler := fitScaler;
      this.fitResidualNet := fitResidualNet;
      prophet := Unset;
      scaler := None;
      lstm := None;
    }

    /** `train`: fit the decomposer, fit the scaler to the residuals, cut the
        scaled residuals into (60-day window, next day) pairs and fit the
        residual network to them. Each failure leaves the later steps undone:
        too few rows for Prophet leaves an unfitted decomposer; too few
        residuals for one pair leaves the residual network as it was. */
    method Train() returns (outcome: Outcome)
      requires Valid()
      modifies this
      ensures Valid()
      ensures |history| < MinDecomposerRows ==>
                outcome == Failed(DecomposerNeedsTwoRows) && prophet == Unfitted
                && scaler == old(scaler) && lstm == old(lstm)
      ensures |history| >= MinDecomposerRows ==>
                prophet == Fitted(FittedDecomposer())
                && scaler == Some(fitScaler(UnitRange, TrainingResiduals()))
      ensures MinDecomposerRows <= |history| <= LookBack ==>
                outcome == Failed(NoTrainingWindows) && lstm == old(lstm)
      ensures |history| > LookBack ==>
                outcome == Trained
                && lstm == Some(fitResidualNet(ResidualNet, Inputs(TrainingSamples()),
                                               Targets(TrainingSamples())))
    {
      if |history| < MinDecomposerRows {
        prophet := Unfitted;
        return Failed(DecomposerNeedsTwoRows);
      }
      var d := fitDecomposer(ProphetSettings, history);
      prophet := Fitted(d);
      var residuals := Residuals(history, d);
      var s := fitScaler(UnitRange, residuals);
      scaler := Some(s);
      var scaledResiduals := Apply(s.transform, residuals);
      var xs, ys := CreateLstmDataset(scaledResiduals, LookBack);
      if |xs| == 0 {
        return Failed(NoTrainingWindows);
      }
      lstm := Some(fitResidualNet(ResidualNet, xs, ys));
      outcome := Trained;
    }

    /** `predict`: Prophet's forecast over the history's dates and the next
        `periods` days, whose future rows gain the residuals the network
        predicts autoregressively, right-joined with the history. Historical
        rows keep Prophet's fit and carry their actual value; future rows
        carry none; the bounds are Prophet's. A horizon of 0 days fails when the
        empty batch of predictions is unscaled. The method changes no field. */
    method Predict(periods: nat) returns (r: Result<seq<ResultRow>>)
      requires Valid()
      ensures !IsTrained() <==> r == Err(NotTrained)
      ensures IsTrained() && periods == 0 ==> r == Err(EmptyHorizon)
      ensures IsTrained() && periods > 0 ==>
                r == Ok(CombinedForecast(history, prophet.decomposer, PredictedResiduals(periods)))
      ensures r.Ok? ==> |r.value| == |history| + periods
    {
      if prophet.Unset? || lstm.None? {
        return Err(NotTrained);
      }
      var d := prophet.decomposer;
      var prophetForecast := DecomposerForecast(d, FutureFrame(history, periods));

      var residualsHistory := Residuals(history, d);
      var scaledHistory := Apply(scaler.value.transform, residualsHistory);
      var preds, inputSeq := AutoregressiveResiduals(lstm.value, Last(scaledHistory, LookBack), periods);
      if preds == [] {
        return Err(EmptyHorizon);
      }
      var predicted := Apply(scaler.value.inverseTransform, preds);

      var finalForecast := new ForecastRow[|prophetForecast|](
        i requires 0 <= i < |prophetForecast| => prophetForecast[i]);
      assert finalForecast[..] == prophetForecast;
      AddResiduals(finalForecast, |history|, predicted);
      r := Ok(RightJoin(history, finalForecast[..]));

      assert r.value == CombinedForecast(history, d, predicted);
      ForecastRows(history, d, predicted);
    }
  }
}
