/** Shared vocabulary of the two sequence models: optional state and the
    min-max scaler, which both models fit once in `train` and then only apply. */
module Support {

  datatype Option<+T> = None | Some(value: T)

  /** The `feature_range` a MinMaxScaler is built with. */
  datatype FeatureRange = FeatureRange(lo: real, hi: real)

  /** Both models build their scaler with `feature_range=(0, 1)`. */
  const UnitRange := FeatureRange(0.0, 1.0)

  /** A fitted scaler: the pair of maps `transform` / `inverse_transform`,
      fixed by the data it was fitted on. How sklearn derives them is not
      modelled; only which data fixed them and where they are applied. */
  datatype Scaler = Scaler(transform: real -> real, inverseTransform: real -> real)

  /** Fitting a scaler: an uninterpreted deterministic function of the range
      and the training column. */
  type ScalerFit = (FeatureRange, seq<real>) -> Scaler

  /** Element-wise application of a scaler map to a column. */
  function Apply(f: real -> real, xs: seq<real>): (ys: seq<real>)
    ensures |ys| == |xs|
    ensures forall i :: 0 <= i < |xs| ==> ys[i] == f(xs[i])
  {
    seq(|xs|, i requires 0 <= i < |xs| => f(xs[i]))
  }

  /** Python's `s[-n:]`: the last `n` elements, or all of `s` when it is
      shorter; `s[-0:]` is `s[0:]`, so `n = 0` keeps all of `s` too. */
  function Last<T>(s: seq<T>, n: nat): (t: seq<T>)
    ensures |t| == if n == 0 || |s| <= n then |s| else n
    ensures s == s[..|s| - |t|] + t
  {
    if n == 0 || |s| <= n then s else s[|s| - n..]
  }

  /** Scaling a slice is slicing the scaled column. */
  lemma ApplySlices(f: real -> real, xs: seq<real>)
    ensures forall i, j :: 0 <= i <= j <= |xs| ==> Apply(f, xs[i..j]) == Apply(f, xs)[i..j]
  {
    forall i, j | 0 <= i <= j <= |xs|
      ensures Apply(f, xs[i..j]) == Apply(f, xs)[i..j]
    {
    }
  }
}
