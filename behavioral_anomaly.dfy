/** The behavioural anomaly scorer: an LSTM autoencoder trained on the engine
    load of one known-normal machine, which scores a new window of engine load
    by how badly it reconstructs it. The network is an uninterpreted function
    fixed when `Train` runs; the windowing, the Untrained -> Trained state, the
    failures of `train` and `predict` and the mean-absolute-error score are
    modelled. */
module BehavioralAnomaly {
  import opened Support

  /** Width of the encoder's and the decoder's LSTM layers. */
  const LatentUnits: nat := 128
  /** Fraction of the windows Keras holds out for validation. */
  const ValidationSplit: real := 0.1

  /** What a trained network does to one window, step by step: the decoder
      repeats the latent vector once per step and maps each step back to one
      value, so `f(x, t)` is step `t` of the reconstruction of window `x`. */
  type Reconstructor = (seq<real>, nat) -> real

  /** The reconstruction of a window: one value per step of the window. */
  function Reconstruction(f: Reconstructor, x: seq<real>): (y: seq<real>)
    ensures |y| == |x|
  {
    seq(|x|, t requires 0 <= t < |x| => f(x, t))
  }

  /** The layer sizes, activation, optimizer and loss `build_model` compiles. */
  datatype Architecture = Architecture(
    sequenceLength: nat, latentUnits: nat, activation: string, optimizer: string, loss: string)

  /** The arguments of the call to `model.fit`. */
  datatype Schedule = Schedule(epochs: nat, batchSize: nat, validationSplit: real, shuffle: bool)

  /** The network `build_model` compiles, with its initial weights, before
      any fit: an uninterpreted function of the architecture. */
  type AutoencoderBuild = Architecture -> Reconstructor

  /** A fitted network and the mean of its per-epoch training losses. */
  datatype TrainedNet = TrainedNet(reconstruct: Reconstructor, meanLoss: real)

  /** Keras training: an uninterpreted deterministic function of the
      architecture, the schedule, the inputs and the targets. */
  type AutoencoderFit = (Architecture, Schedule, seq<seq<real>>, seq<seq<real>>) -> TrainedNet

  datatype Failure =
    | EmptyInput       // the scaler cannot be fitted on zero rows
    | TooFewRows       // fewer rows than one window: nothing to stack
    | NoTrainingSplit  // the validation hold-out leaves Keras no training window
    | NoEpochs         // `epochs = 0`: no epoch runs, so the history holds no 'loss'
    | NotTrained       // `predict` before a network was built
    | ScalerNotFitted  // `predict` with a scaler that a failed refit left unfitted
    | WrongLength      // the reshape to one window of `sequence_length` steps fails

  datatype Outcome = Trained | Failed(failure: Failure)

  datatype Result<T> = Ok(value: T) | Err(failure: Failure)

  /** How many of `n` windows Keras trains on when it holds out the fraction
      `split` for validation: the first `floor(n * (1 - split))`. */
  function TrainingSplitSize(n: nat, split: real): int {
    ((n as real) * (1.0 - split)).Floor
  }

  /** Keras refuses a split that leaves no training window or no validation
      window. */
  predicate SplitFails(n: nat, split: real) {
    TrainingSplitSize(n, split) == 0 || TrainingSplitSize(n, split) == n
  }

  /** With a 10% hold-out the split fails for exactly one window: one window
      leaves none to train on, and two or more always leave some for each side. */
  lemma SplitFailsOnlyForOneWindow(n: nat)
    requires n >= 1
    ensures SplitFails(n, ValidationSplit) <==> n == 1
  {
    var x := (n as real) * (1.0 - ValidationSplit);
    assert x < n as real;
    if n >= 2 {
      assert x >= 1.0;
    }
  }

  /** Reference definition of the overlapping windows: the first `w` values,
      then the windows of the series without its first value. */
  function SlidingWindows(values: seq<real>, w: nat): seq<seq<real>>
    requires w >= 1
    decreases |values|
  {
    if |values| < w then [] else [values[..w]] + SlidingWindows(values[1..], w)
  }

  /** A series of `L >= w` values has exactly `L - w + 1` windows, window `i`
      being `values[i .. i + w)`; a shorter series has none. */
  lemma {:induction false} SlidingWindowsAt(values: seq<real>, w: nat)
    requires w >= 1
    ensures |values| < w ==> SlidingWindows(values, w) == []
    ensures |values| >= w ==> |SlidingWindows(values, w)| == |values| - w + 1
    ensures forall i :: 0 <= i < |SlidingWindows(values, w)| ==>
              SlidingWindows(values, w)[i] == values[i..i + w]
  {
    if |values| >= w {
      var rest := values[1..];
      SlidingWindowsAt(rest, w);
      forall i | 0 <= i < |SlidingWindows(values, w)|
        ensures SlidingWindows(values, w)[i] == values[i..i + w]
      {
        if i > 0 {
          assert SlidingWindows(values, w)[i] == SlidingWindows(rest, w)[i - 1];
          assert rest[i - 1..i - 1 + w] == values[i..i + w];
        }
      }
    }
  }

  /** Consecutive windows share `w - 1` values and follow the series' order:
      window `i + 1` is window `i` shifted by one step. */
  lemma WindowsOverlap(values: seq<real>, w: nat, i: nat)
    requires w >= 1
    requires i + 1 < |SlidingWindows(values, w)|
    ensures i + w < |values|
    ensures |SlidingWindows(values, w)[i]| == |SlidingWindows(values, w)[i + 1]| == w
    ensures SlidingWindows(values, w)[i][1..] == SlidingWindows(values, w)[i + 1][..w - 1]
    ensures SlidingWindows(values, w)[i + 1][w - 1] == values[i + w]
  {
    SlidingWindowsAt(values, w);
  }

  function Abs(x: real): real { if x < 0.0 then -x else x }

  /** Sum of the absolute step-by-step differences between two windows. */
  function AbsDiffSum(x: seq<real>, y: seq<real>): (s: real)
    requires |x| == |y|
    ensures s >= 0.0
  {
    if x == [] then 0.0 else Abs(y[0] - x[0]) + AbsDiffSum(x[1..], y[1..])
  }

  /** The summed difference vanishes exactly when the two windows agree. */
  lemma {:induction false} AbsDiffSumZero(x: seq<real>, y: seq<real>)
    requires |x| == |y|
    ensures AbsDiffSum(x, y) == 0.0 <==> x == y
  {
    if x != [] {
      AbsDiffSumZero(x[1..], y[1..]);
      assert x == [x[0]] + x[1..] && y == [y[0]] + y[1..];
    }
  }

  /** `np.mean(np.abs(reconstruction - sequence))`: never negative, and zero
      exactly when the reconstruction equals the input. */
  function MeanAbsoluteError(x: seq<real>, reconstruction: seq<real>): (e: real)
    requires |x| == |reconstruction| > 0
    ensures e >= 0.0
    ensures e == 0.0 <==> reconstruction == x
  {
    AbsDiffSumZero(x, reconstruction);
    AbsDiffSum(x, reconstruction) / (|x| as real)
  }

  /** `bound` added up `n` times. */
  function Repeat(bound: real, n: nat): real {
    if n == 0 then 0.0 else bound + Repeat(bound, n - 1)
  }

  lemma {:induction false} RepeatIsProduct(bound: real, n: nat)
    ensures Repeat(bound, n) == bound * (n as real)
  {
    if n > 0 {
      RepeatIsProduct(bound, n - 1);
    }
  }

  /** Every step of the reconstruction being within `bound` of the input
      keeps the summed difference within `bound` per step. */
  lemma {:induction false} AbsDiffSumBound(x: seq<real>, y: seq<real>, bound: real)
    requires |x| == |y|
    requires forall i :: 0 <= i < |x| ==> Abs(y[i] - x[i]) <= bound
    ensures AbsDiffSum(x, y) <= Repeat(bound, |x|)
  {
    if x != [] {
      var x', y' := x[1..], y[1..];
      forall i | 0 <= i < |x'|
        ensures Abs(y'[i] - x'[i]) <= bound
      {
        assert y'[i] == y[i + 1] && x'[i] == x[i + 1];
      }
      AbsDiffSumBound(x', y', bound);
    }
  }

  lemma DivideBound(a: real, b: real, n: real)
    requires n > 0.0 && a <= b * n
    ensures a / n <= b
  {
  }

  lemma MeanAbsoluteErrorBound(x: seq<real>, reconstruction: seq<real>, bound: real)
    requires |x| == |reconstruction| > 0
    requires forall i :: 0 <= i < |x| ==> Abs(reconstruction[i] - x[i]) <= bound
    ensures MeanAbsoluteError(x, reconstruction) <= bound
  {
    AbsDiffSumBound(x, reconstruction, bound);
    RepeatIsProduct(bound, |x|);
    DivideBound(AbsDiffSum(x, reconstruction), bound, |x| as real);
  }

  class LstmAutoencoder {
    const sequenceLength: nat
    const epochs: nat
    const batchSize: nat
    /** MinMaxScaler fitting and Keras training, fixed at construction. */
    const fitScaler: ScalerFit
    const buildAutoencoder: AutoencoderBuild
    const fitAutoencoder: AutoencoderFit

    /** `None` stands for the scaler before its first `fit_transform`. */
    var scaler: Option<Scaler>
    var model: Option<Reconstructor>
    var trainingMaeLoss: Option<real>

    ghost predicate Valid()
      reads this
    {
      && sequenceLength >= 1
      && (trainingMaeLoss.Some? ==> model.Some?)
    }

    /** The guard of `predict`: a network has been built. */
    predicate HasNetwork()
      reads this
    {
      model.Some?
    }

    function Layers(): Architecture {
      Architecture(sequenceLength, LatentUnits, "relu", "adam", "mae")
    }

    function FitSchedule(): Schedule {
      Schedule(epochs, batchSize, ValidationSplit, false)
    }

    /** The scaled training windows `train` fits the network to: scaling the
        column and then windowing it is windowing it and scaling each window. */
    function TrainingWindows(s: Scaler, engineLoad: seq<real>): (ws: seq<seq<real>>)
      requires sequenceLength >= 1
      ensures |engineLoad| < sequenceLength ==> ws == []
      ensures |engineLoad| >= sequenceLength ==> |ws| == |engineLoad| - sequenceLength + 1
      ensures forall i :: 0 <= i < |ws| ==>
                ws[i] == Apply(s.transform, engineLoad[i..i + sequenceLength])
    {
      var scaled := Apply(s.transform, engineLoad);
      SlidingWindowsAt(scaled, sequenceLength);
      ApplySlices(s.transform, engineLoad);
      SlidingWindows(scaled, sequenceLength)
    }

    /** A fresh instance: no scaler fitted, no network, no training loss.
        The default arguments of `__init__` are not modelled: every setting
        is passed. */
    constructor (sequenceLength: nat, epochs: nat, batchSize: nat, fitScaler: ScalerFit,
                 buildAutoencoder: AutoencoderBuild, fitAutoencoder: AutoencoderFit)
      requires sequenceLength >= 1
      ensures Valid() && !HasNetwork()
      ensures this.sequenceLength == sequenceLength && this.epochs == epochs
      ensures this.batchSize == batchSize && this.fitScaler == fitScaler
      ensures this.buildAutoencoder == buildAutoencoder && this.fitAutoencoder == fitAutoencoder
      ensures scaler == None && model == None && trainingMaeLoss == None
    {
      this.sequenceLength := sequenceLength;
      this.epochs := epochs;
      this.batchSize := batchSize;
      this.fitScaler := fitScaler;
      this.buildAutoencoder := buildAutoencoder;
      this.fitAutoencoder := fitAutoencoder;
      scaler := None;
      model := None;
      trainingMaeLoss := None;
    }

    /** `_create_sequences`: all overlapping windows of `sequence_length`
        values in temporal order, or a failure when not even one fits. */
    method CreateSequences(values: seq<real>) returns (r: Result<seq<seq<real>>>)
      requires Valid()
      ensures |values| < sequenceLength <==> r == Err(TooFewRows)
      ensures |values| >= sequenceLength ==> r == Ok(SlidingWindows(values, sequenceLength))
      ensures r.Ok? ==> |r.value| == |values| - sequenceLength + 1
    {
      var w := sequenceLength;
      var output: seq<seq<real>> := [];
      var i := 0;
      while i < |values| - w + 1
        invariant 0 <= i
        invariant i <= |values| - w + 1 || i == 0
        invariant |output| == i
        invariant forall k :: 0 <= k < i ==> output[k] == values[k..k + w]
      {
        output := output + [values[i..i + w]];
        i := i + 1;
      }
      if output == [] {
        return Err(TooFewRows);
      }
      SlidingWindowsAt(values, w);
      assert output == SlidingWindows(values, w);
      r := Ok(output);
    }

    /** `train`: fit the scaler on the engine load, cut the scaled column into
        windows and train the network with the windows as both input and
        target, without shuffling. Refitting resets the scaler first, so an
        empty column leaves it unfitted. A column shorter than one window fails
        after the refit, leaving any earlier network in place. A column of
        exactly one window fails inside Keras' fit, after the freshly built
        network has replaced the old one but before any training loss is
        stored. With zero epochs the fit returns an empty history and reading
        its mean loss fails, again with the untrained network in place. */
    method Train(engineLoad: seq<real>) returns (outcome: Outcome)
      requires Valid()
      modifies this
      ensures Valid()
      ensures engineLoad == [] ==>
                outcome == Failed(EmptyInput) && scaler == None
                && model == old(model) && trainingMaeLoss == old(trainingMaeLoss)
      ensures engineLoad != [] ==> scaler == Some(fitScaler(UnitRange, engineLoad))
      ensures 0 < |engineLoad| < sequenceLength ==>
                outcome == Failed(TooFewRows)
                && model == old(model) && trainingMaeLoss == old(trainingMaeLoss)
      ensures |engineLoad| == sequenceLength ==>
                outcome == Failed(NoTrainingSplit) && model == Some(buildAutoencoder(Layers()))
                && trainingMaeLoss == old(trainingMaeLoss)
      ensures |engineLoad| > sequenceLength && epochs == 0 ==>
                outcome == Failed(NoEpochs) && model == Some(buildAutoencoder(Layers()))
                && trainingMaeLoss == old(trainingMaeLoss)
      ensures |engineLoad| > sequenceLength && epochs >= 1 ==>
                var windows := TrainingWindows(fitScaler(UnitRange, engineLoad), engineLoad);
                var net := fitAutoencoder(Layers(), FitSchedule(), windows, windows);
                outcome == Trained && model == Some(net.reconstruct)
                && trainingMaeLoss == Some(net.meanLoss)
    {
      if engineLoad == [] {
        scaler := None;
        return Failed(EmptyInput);
      }
      var s := fitScaler(UnitRange, engineLoad);
      scaler := Some(s);
      var scaled := Apply(s.transform, engineLoad);
      var sequences := CreateSequences(scaled);
      if sequences.Err? {
        return Failed(sequences.failure);
      }
      model := Some(buildAutoencoder(Layers()));
      SplitFailsOnlyForOneWindow(|sequences.value|);
      if SplitFails(|sequences.value|, ValidationSplit) {
        return Failed(NoTrainingSplit);
      }
      if epochs == 0 {
        return Failed(NoEpochs);
      }
      var net := fitAutoencoder(Layers(), FitSchedule(), sequences.value, sequences.value);
      model := Some(net.reconstruct);
      trainingMaeLoss := Some(net.meanLoss);
      outcome := Trained;
    }

    /** `predict`: the reconstruction error of exactly `sequence_length` rows,
        scaled with the scaler fitted in `train` (never refitted here). The
        scaler is applied before the reshape, so an unfitted scaler is reported
        before a wrong row count. The method changes no field. */
    method Predict(engineLoad: seq<real>) returns (r: Result<real>)
      requires Valid()
      ensures !HasNetwork() ==> r == Err(NotTrained)
      ensures HasNetwork() && scaler.None? ==> r == Err(ScalerNotFitted)
      ensures HasNetwork() && scaler.Some? && |engineLoad| != sequenceLength ==>
                r == Err(WrongLength)
      ensures HasNetwork() && scaler.Some? && |engineLoad| == sequenceLength ==>
                var x := Apply(scaler.value.transform, engineLoad);
                r == Ok(MeanAbsoluteError(x, Reconstruction(model.value, x)))
      ensures r.Ok? ==> r.value >= 0.0
    {
      if model.None? {
        return Err(NotTrained);
      }
      if scaler.None? {
        return Err(ScalerNotFitted);
      }
      if |engineLoad| != sequenceLength {
        return Err(WrongLength);
      }
      var sequence := Apply(scaler.value.transform, engineLoad);
      var reconstructed := Reconstruction(model.value, sequence);
      r := Ok(MeanAbsoluteError(sequence, reconstructed));
    }
  }
}
