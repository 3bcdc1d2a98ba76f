/**
 * The ensemble wrapper of ml_utils/models/model_collection.py, as values.
 *
 * A CollectionState is what a ModelCollection object holds: the sampling
 * configuration it took from the wrapped model, the burn-in length, the
 * ensemble size, the hyperparameter sample matrix (absent until the first
 * assignment), the canonical original model and the ensemble members. Each
 * operation of the wrapper is specified here as a function from the state
 * before to the state (or the answer) after; the class in ensemble.dfy is
 * proved to follow these functions, and the lemmas below say what they mean.
 */
module EnsembleSpec {
  import opened Wrappers
  import opened Averages

  type Matrix = seq<seq<real>>

  const SliceMethod: string := "slice"
  const GradMethod: string := "grad"
  const NormalMode: string := "normal"
  /** Burn-in length when the configuration names none. */
  const DefaultBurnIn: nat := 100
  /** Slice-sampler step size when the configuration names none. */
  const DefaultSigma: real := 1.0

  /**
   * The optimisation configuration (a model's `opt_params` mapping). Every
   * key other than the method may be absent.
   */
  datatype OptParams = OptParams(
    optMethod: string,
    nSamples: Option<nat>,     // 'n_samples'
    burnIn: Option<nat>,       // 'burn_in'
    sigma: Option<real>,       // 'sigma'
    hpBounds: Option<Matrix>,  // 'hp_bounds', one [lower, upper] row per hyperparameter
    sliceHps: Option<Matrix>)  // 'slice_hps', the last assigned sample matrix

  /** The configuration a model gets once the wrapper owns its sampling: {'method': 'grad'}. */
  function GradParams(): OptParams
  {
    OptParams(GradMethod, None, None, None, None, None)
  }

  /** The state of one surrogate model that the wrapper reads or writes. */
  datatype GpState = GpState(
    params: seq<real>,  // param_array, natural space
    X: Matrix,          // training inputs
    Y: seq<real>,       // training outputs as the model stores them
    yMean: real,        // the output mean the model removed from Y
    mode: string,
    optParams: OptParams)

  datatype CollectionState = CollectionState(
    optParams: OptParams,
    burnIn: nat,
    nSamples: nat,
    samples: Option<Matrix>,
    original: GpState,
    members: seq<GpState>)

  /** Every member's parameter vector is the sample row of the same index. */
  ghost predicate Synchronized(s: CollectionState)
  {
    s.samples.Some? && |s.samples.value| >= |s.members| &&
    forall i :: 0 <= i < |s.members| ==> s.members[i].params == s.samples.value[i]
  }

  /**
   * The wrapper's invariant: one member per sample, the slice configuration
   * is kept, and once samples exist the members follow them and the
   * configuration records them.
   */
  ghost predicate Inv(s: CollectionState)
  {
    |s.members| == s.nSamples &&
    s.optParams.optMethod == SliceMethod &&
    s.optParams.nSamples == Some(s.nSamples) &&
    (s.samples.Some? ==> Synchronized(s) && s.optParams.sliceHps == s.samples)
  }

  /** The training data of every member, which hyperparameter assignment must not touch. */
  function MemberData(s: CollectionState): seq<(Matrix, seq<real>, real)>
  {
    seq(|s.members|, i requires 0 <= i < |s.members| => (s.members[i].X, s.members[i].Y, s.members[i].yMean))
  }

  // ---------------------------------------------------------------------------
  // Construction

  /** The configurations the wrapper accepts: the slice method, with an ensemble size. */
  predicate Accepts(cfg: OptParams)
  {
    cfg.optMethod == SliceMethod && cfg.nSamples.Some?
  }

  /** The wrapped model after the wrapper takes over its sampling. */
  function Reconfigured(m: GpState): (r: GpState)
    ensures r.mode == NormalMode && r.optParams == GradParams() && r.optParams.optMethod == GradMethod
    ensures r.params == m.params && r.X == m.X && r.Y == m.Y && r.yMean == m.yMean
  {
    m.(mode := NormalMode, optParams := GradParams())
  }

  /** The state right after wrapping model m. */
  function Initial(m: GpState): (s: CollectionState)
    requires Accepts(m.optParams)
    ensures Inv(s) && s.samples.None?
    ensures |s.members| == m.optParams.nSamples.value
    ensures s.optParams == m.optParams && s.original == Reconfigured(m)
    ensures forall i :: 0 <= i < |s.members| ==> s.members[i] == s.original
    ensures m.optParams.burnIn.Some? ==> s.burnIn == m.optParams.burnIn.value
    ensures m.optParams.burnIn.None? ==> s.burnIn == DefaultBurnIn
  {
    var n := m.optParams.nSamples.value;
    CollectionState(
      m.optParams,
      if m.optParams.burnIn.Some? then m.optParams.burnIn.value else DefaultBurnIn,
      n, None, Reconfigured(m), seq(n, _ => Reconfigured(m)))
  }

  // ---------------------------------------------------------------------------
  // Assigning the sample matrix (the param_array setter)

  /** update_local_models_hps: member i takes sample row i. */
  function Resynced(s: CollectionState): (r: CollectionState)
    requires s.samples.Some? && |s.samples.value| >= |s.members|
    ensures Synchronized(r)
    ensures r.(members := s.members) == s && |r.members| == |s.members|
    ensures forall i :: 0 <= i < |s.members| ==> r.members[i] == s.members[i].(params := s.samples.value[i])
    ensures MemberData(r) == MemberData(s)
  {
    var p := s.samples.value;
    var r := s.(members := seq(|s.members|, i requires 0 <= i < |s.members| => s.members[i].(params := p[i])));
    assert MemberData(r) == MemberData(s);
    r
  }

  /** Assigning p: stored as the samples and in the configuration, then pushed to the members. */
  function Assigned(s: CollectionState, p: Matrix): (r: CollectionState)
    requires |p| >= |s.members|
    ensures Synchronized(r) && r.samples == Some(p) && r.optParams == s.optParams.(sliceHps := Some(p))
    ensures Inv(s) ==> Inv(r)
    ensures MemberData(r) == MemberData(s)
    ensures r.original == s.original && r.burnIn == s.burnIn && r.nSamples == s.nSamples
  {
    Resynced(s.(samples := Some(p), optParams := s.optParams.(sliceHps := Some(p))))
  }

  /** Assigning the same matrix twice leaves the state of assigning it once. */
  lemma AssignIdempotent(s: CollectionState, p: Matrix)
    requires |p| >= |s.members|
    ensures Assigned(Assigned(s, p), p) == Assigned(s, p)
  {
  }

  /** The state with everything an assignment overwrites blanked out. */
  function WithoutSamples(s: CollectionState): CollectionState
  {
    s.(samples := None, optParams := s.optParams.(sliceHps := None),
       members := seq(|s.members|, i requires 0 <= i < |s.members| => s.members[i].(params := [])))
  }

  /**
   * The state after an assignment does not depend on the samples, the
   * recorded 'slice_hps' or the member parameters before it.
   */
  lemma {:induction false} AssignForgetsPreviousSamples(s: CollectionState, t: CollectionState, p: Matrix)
    requires |p| >= |s.members|
    requires WithoutSamples(s) == WithoutSamples(t)
    ensures |t.members| == |s.members|
    ensures Assigned(t, p) == Assigned(s, p)
  {
    var a, b := Assigned(t, p), Assigned(s, p);
    assert |t.members| == |WithoutSamples(t).members| == |s.members|;
    forall i | 0 <= i < |s.members|
      ensures a.members[i] == b.members[i]
    {
      assert WithoutSamples(t).members[i] == WithoutSamples(s).members[i];
    }
    assert t.optParams.(sliceHps := None) == s.optParams.(sliceHps := None) by {
      assert WithoutSamples(t).optParams == WithoutSamples(s).optParams;
    }
  }

  // ---------------------------------------------------------------------------
  // Setting the training data (set_data / set_XY)

  /** The outputs with the removed mean added back: Y + y_mean, elementwise. */
  function Shifted(Y: seq<real>, c: real): (r: seq<real>)
    ensures |r| == |Y|
    ensures forall j :: 0 <= j < |Y| ==> r[j] - c == Y[j]
  {
    seq(|Y|, j requires 0 <= j < |Y| => Y[j] + c)
  }

  /** The outputs a model was handed: its stored outputs with its removed mean added back. */
  function Outputs(g: GpState): seq<real>
  {
    Shifted(g.Y, g.yMean)
  }

  /**
   * The surrogate's own set_data / set_XY, which is not part of this model:
   * the model state after it is handed inputs X and outputs Y.
   */
  type DataSetter = (GpState, Matrix, seq<real>) -> GpState

  /**
   * What the wrapper relies on from the surrogate's data setter: it stores X,
   * stores Y re-centred by the mean it records (so the model's Outputs are Y),
   * and leaves the parameters, the mode and the configuration alone.
   */
  ghost predicate StoresData(setData: DataSetter)
  {
    forall g, X, Y ::
      setData(g, X, Y).X == X && Outputs(setData(g, X, Y)) == Y &&
      setData(g, X, Y).params == g.params && setData(g, X, Y).mode == g.mode &&
      setData(g, X, Y).optParams == g.optParams
  }

  lemma SetterStores(setData: DataSetter, g: GpState, X: Matrix, Y: seq<real>)
    requires StoresData(setData)
    ensures var r := setData(g, X, Y);
      r.X == X && Outputs(r) == Y && r.params == g.params && r.mode == g.mode && r.optParams == g.optParams
  {
  }

  /**
   * update_local_models_data: every member is handed the original's inputs
   * and its outputs Y + y_mean; nothing but the members changes.
   */
  function DataPropagated(s: CollectionState, setData: DataSetter): (r: CollectionState)
    ensures r.(members := s.members) == s && |r.members| == |s.members|
    ensures forall i :: 0 <= i < |r.members| ==> r.members[i] == setData(s.members[i], s.original.X, Outputs(s.original))
    ensures StoresData(setData) ==>
      forall i :: 0 <= i < |r.members| ==>
        r.members[i].X == s.original.X && Outputs(r.members[i]) == Outputs(s.original) &&
        r.members[i].params == s.members[i].params
    ensures StoresData(setData) && Inv(s) ==> Inv(r)
  {
    var o := s.original;
    var r := s.(members := seq(|s.members|, i requires 0 <= i < |s.members| =>
      setData(s.members[i], o.X, Outputs(o))));
    assert StoresData(setData) ==>
      forall i :: 0 <= i < |s.members| ==>
        r.members[i].X == o.X && Outputs(r.members[i]) == Outputs(o) && r.members[i].params == s.members[i].params
    by {
      if StoresData(setData) {
        forall i | 0 <= i < |s.members|
          ensures r.members[i].X == o.X && Outputs(r.members[i]) == Outputs(o) && r.members[i].params == s.members[i].params
        {
          SetterStores(setData, s.members[i], o.X, Outputs(o));
        }
      }
    }
    r
  }

  /** set_data(X, Y): the original is handed the new data, then the members are refreshed from it. */
  function WithData(s: CollectionState, setData: DataSetter, newX: Matrix, newY: seq<real>): (r: CollectionState)
    ensures r.original == setData(s.original, newX, newY)
    ensures StoresData(setData) ==> r.original.X == newX && Outputs(r.original) == newY
    ensures StoresData(setData) && Inv(s) ==> Inv(r)
  {
    DataPropagated(s.(original := setData(s.original, newX, newY)), setData)
  }

  /**
   * After set_data(X, Y) every member, like the original, holds the inputs X
   * and was handed the outputs Y; the members keep their parameters, and
   * nothing else in the wrapper changes.
   */
  lemma SetDataPropagates(s: CollectionState, setData: DataSetter, newX: Matrix, newY: seq<real>)
    requires StoresData(setData)
    ensures var r := WithData(s, setData, newX, newY);
      r.(original := s.original, members := s.members) == s &&
      r.original.X == newX && Outputs(r.original) == newY &&
      |r.members| == |s.members| &&
      forall i :: 0 <= i < |r.members| ==>
        r.members[i].X == newX && Outputs(r.members[i]) == newY &&
        r.members[i].params == s.members[i].params
  {
  }

  // ---------------------------------------------------------------------------
  // Sampling the hyperparameters (optimize)

  /** One call of the slice sampler: the draw it returns and the parameters it leaves on the original. */
  datatype SliceStep = SliceStep(sample: seq<real>, visited: seq<real>)

  /**
   * The slice sampler and the log/exp transforms. `step(k, x, sigma, bounds)`
   * is the k-th sampler call (k stands for the position in the random stream)
   * from log-state x; `visited` is where evaluating the original's objective
   * during that call leaves the original's parameters.
   */
  datatype SliceSampler = SliceSampler(
    step: (nat, seq<real>, real, Option<Matrix>) -> SliceStep,
    log: real -> real,
    exp: real -> real)

  /** The sampler returns states, and leaves parameters, of the dimension it was given. */
  ghost predicate KeepsDimension(smp: SliceSampler)
  {
    forall k, x, sigma, b :: |smp.step(k, x, sigma, b).sample| == |x| && |smp.step(k, x, sigma, b).visited| == |x|
  }

  function Elementwise(f: real -> real, v: seq<real>): (r: seq<real>)
    ensures |r| == |v|
  {
    seq(|v|, j requires 0 <= j < |v| => f(v[j]))
  }

  function ElementwiseMatrix(f: real -> real, m: Matrix): (r: Matrix)
    ensures |r| == |m|
  {
    seq(|m|, i requires 0 <= i < |m| => Elementwise(f, m[i]))
  }

  /** The step size handed to the sampler: 'sigma', or 1.0. */
  function StepSize(cfg: OptParams): real
  {
    if cfg.sigma.Some? then cfg.sigma.value else DefaultSigma
  }

  /** The bounds handed to the sampler: log of 'hp_bounds', or none. */
  function LogBounds(smp: SliceSampler, cfg: OptParams): Option<Matrix>
  {
    if cfg.hpBounds.Some? then Some(ElementwiseMatrix(smp.log, cfg.hpBounds.value)) else None
  }

  /** The original's parameters after k sampler calls that started from `start`. */
  function Visited(smp: SliceSampler, start: seq<real>, sigma: real, bounds: Option<Matrix>, k: nat): seq<real>
    decreases k
  {
    if k == 0 then start
    else smp.step(k - 1, Elementwise(smp.log, Visited(smp, start, sigma, bounds, k - 1)), sigma, bounds).visited
  }

  /** Sample i: call burnIn + i, exponentiated back to natural space. */
  function Draw(smp: SliceSampler, start: seq<real>, sigma: real, bounds: Option<Matrix>, burnIn: nat, i: nat): seq<real>
  {
    var k := burnIn + i;
    Elementwise(smp.exp, smp.step(k, Elementwise(smp.log, Visited(smp, start, sigma, bounds, k)), sigma, bounds).sample)
  }

  function Draws(smp: SliceSampler, start: seq<real>, sigma: real, bounds: Option<Matrix>, burnIn: nat, n: nat): (m: Matrix)
    ensures |m| == n
  {
    seq(n, i requires 0 <= i < n => Draw(smp, start, sigma, bounds, burnIn, i))
  }

  /**
   * optimize: burnIn discarded calls, n recorded calls, the n draws assigned
   * as the samples; the original keeps the parameters the last call left.
   */
  function Optimized(s: CollectionState, smp: SliceSampler): CollectionState
    requires Inv(s)
  {
    var cfg := s.optParams;
    var n := cfg.nSamples.value;
    var sigma, bounds := StepSize(cfg), LogBounds(smp, cfg);
    var start := s.original.params;
    var last := Visited(smp, start, sigma, bounds, s.burnIn + n);
    Assigned(s.(original := s.original.(params := last)), Draws(smp, start, sigma, bounds, s.burnIn, n))
  }

  lemma {:induction false} VisitedKeepsDimension(smp: SliceSampler, start: seq<real>, sigma: real, bounds: Option<Matrix>, k: nat)
    requires KeepsDimension(smp)
    ensures |Visited(smp, start, sigma, bounds, k)| == |start|
  {
    if k > 0 {
      VisitedKeepsDimension(smp, start, sigma, bounds, k - 1);
    }
  }

  /**
   * After optimize there is one sample row per member, each member holds its
   * row, the rows have the dimension of the original's parameter vector, no
   * member's data changed, and the original is left where the chain ended.
   */
  lemma OptimizeSynchronizes(s: CollectionState, smp: SliceSampler)
    requires Inv(s) && KeepsDimension(smp)
    ensures var r := Optimized(s, smp);
      Inv(r) && Synchronized(r) &&
      |r.samples.value| == s.nSamples &&
      (forall i :: 0 <= i < s.nSamples ==> |r.samples.value[i]| == |s.original.params|) &&
      MemberData(r) == MemberData(s) &&
      r.original.params == Visited(smp, s.original.params, StepSize(s.optParams), LogBounds(smp, s.optParams), s.burnIn + s.nSamples)
  {
    var cfg := s.optParams;
    var sigma, bounds := StepSize(cfg), LogBounds(smp, cfg);
    var start := s.original.params;
    var r := Optimized(s, smp);
    forall i | 0 <= i < s.nSamples
      ensures |r.samples.value[i]| == |start|
    {
      VisitedKeepsDimension(smp, start, sigma, bounds, s.burnIn + i);
    }
  }

  // ---------------------------------------------------------------------------
  // Prediction

  /** A member's predictive mean and variance at the query points. */
  datatype Moments = Moments(mean: seq<real>, variance: seq<real>)

  /** The wrapper's answer; the log predictive density only when targets were given. */
  datatype Prediction = Prediction(mean: seq<real>, variance: seq<real>, logProb: Option<seq<real>>)

  /** A member prediction gives one mean and one variance per query point. */
  ghost predicate PredictsShape(predictor: (GpState, Matrix) -> Moments, xStar: Matrix)
  {
    forall g :: |predictor(g, xStar).mean| == |xStar| && |predictor(g, xStar).variance| == |xStar|
  }

  function Zeros(n: nat): (r: seq<real>)
    ensures |r| == n && forall j :: 0 <= j < n ==> r[j] == 0.0
  {
    seq(n, _ => 0.0)
  }

  function Plus(a: seq<real>, b: seq<real>): (r: seq<real>)
    requires |a| == |b|
    ensures |r| == |a|
  {
    seq(|a|, j requires 0 <= j < |a| => a[j] + b[j])
  }

  /** The elementwise sum of the rows, accumulated first to last as the loop in predict does. */
  function VectorSum(vs: Matrix, len: nat): (r: seq<real>)
    requires forall i :: 0 <= i < |vs| ==> |vs[i]| == len
    ensures |r| == len
  {
    if vs == [] then Zeros(len) else Plus(VectorSum(vs[..|vs| - 1], len), vs[|vs| - 1])
  }

  /** Column j of a matrix. */
  function Column(vs: Matrix, j: nat): (c: seq<real>)
    requires forall i :: 0 <= i < |vs| ==> j < |vs[i]|
    ensures |c| == |vs| && forall i :: 0 <= i < |vs| ==> c[i] == vs[i][j]
  {
    seq(|vs|, i requires 0 <= i < |vs| => vs[i][j])
  }

  /** The vector accumulated by the predict loop is, entry by entry, the column sum. */
  lemma {:induction false} VectorSumIsColumnSum(vs: Matrix, len: nat, j: nat)
    requires forall i :: 0 <= i < |vs| ==> |vs[i]| == len
    requires j < len
    ensures VectorSum(vs, len)[j] == Sum(Column(vs, j))
  {
    if vs != [] {
      var front := vs[..|vs| - 1];
      VectorSumIsColumnSum(front, len, j);
      SumSplitLast(Column(vs, j));
      assert Column(vs, j)[..|vs| - 1] == Column(front, j);
    }
  }

  function Divided(v: seq<real>, k: nat): (r: seq<real>)
    requires k > 0
    ensures |r| == |v|
  {
    seq(|v|, j requires 0 <= j < |v| => v[j] / k as real)
  }

  /** The predictive means of the first nSamples members. */
  function MemberMeans(s: CollectionState, xStar: Matrix, predictor: (GpState, Matrix) -> Moments): (m: Matrix)
    requires s.nSamples <= |s.members|
    ensures |m| == s.nSamples
  {
    seq(s.nSamples, i requires 0 <= i < s.nSamples => predictor(s.members[i], xStar).mean)
  }

  /** The predictive variances of the first nSamples members. */
  function MemberVariances(s: CollectionState, xStar: Matrix, predictor: (GpState, Matrix) -> Moments): (m: Matrix)
    requires s.nSamples <= |s.members|
    ensures |m| == s.nSamples
  {
    seq(s.nSamples, i requires 0 <= i < s.nSamples => predictor(s.members[i], xStar).variance)
  }

  /**
   * predict: the member means and variances summed and divided by the number
   * of sample rows; with targets, the log predictive density of each target
   * under the averaged mean and variance.
   */
  function Predicted(s: CollectionState, xStar: Matrix, yStar: Option<seq<real>>,
                     predictor: (GpState, Matrix) -> Moments, logDensity: (real, real, real) -> real): (r: Prediction)
    requires s.nSamples <= |s.members| && s.samples.Some? && |s.samples.value| > 0
    requires PredictsShape(predictor, xStar)
    requires yStar.Some? ==> |yStar.value| == |xStar|
    ensures |r.mean| == |xStar| && |r.variance| == |xStar|
    ensures r.logProb.Some? <==> yStar.Some?
    ensures r.logProb.Some? ==>
      |r.logProb.value| == |xStar| &&
      forall j :: 0 <= j < |xStar| ==> r.logProb.value[j] == logDensity(yStar.value[j], r.mean[j], r.variance[j])
  {
    var n := |s.samples.value|;
    var mu := Divided(VectorSum(MemberMeans(s, xStar, predictor), |xStar|), n);
    var va := Divided(VectorSum(MemberVariances(s, xStar, predictor), |xStar|), n);
    var lp := if yStar.Some? then Some(seq(|xStar|, j requires 0 <= j < |xStar| => logDensity(yStar.value[j], mu[j], va[j]))) else None;
    Prediction(mu, va, lp)
  }

  /**
   * With one sample row per member, the predicted mean and variance at each
   * query point are the arithmetic means of the members' predictions there.
   */
  lemma PredictedIsMemberAverage(s: CollectionState, xStar: Matrix, yStar: Option<seq<real>>,
                                 predictor: (GpState, Matrix) -> Moments, logDensity: (real, real, real) -> real, j: nat)
    requires Inv(s) && s.samples.Some? && |s.samples.value| == s.nSamples > 0
    requires PredictsShape(predictor, xStar) && (yStar.Some? ==> |yStar.value| == |xStar|)
    requires j < |xStar|
    ensures var r := Predicted(s, xStar, yStar, predictor, logDensity);
      r.mean[j] == Sum(Column(MemberMeans(s, xStar, predictor), j)) / s.nSamples as real &&
      r.variance[j] == Sum(Column(MemberVariances(s, xStar, predictor), j)) / s.nSamples as real
  {
    VectorSumIsColumnSum(MemberMeans(s, xStar, predictor), |xStar|, j);
    VectorSumIsColumnSum(MemberVariances(s, xStar, predictor), |xStar|, j);
  }

  /**
   * With one sample row per member, the predicted mean at a query point lies
   * between the smallest and the largest member mean there.
   */
  lemma PredictedMeanWithinMemberRange(s: CollectionState, xStar: Matrix, yStar: Option<seq<real>>,
                                       predictor: (GpState, Matrix) -> Moments, logDensity: (real, real, real) -> real,
                                       j: nat, lo: real, hi: real)
    requires Inv(s) && s.samples.Some? && |s.samples.value| == s.nSamples > 0
    requires PredictsShape(predictor, xStar) && (yStar.Some? ==> |yStar.value| == |xStar|)
    requires j < |xStar|
    requires forall i :: 0 <= i < s.nSamples ==> lo <= predictor(s.members[i], xStar).mean[j] <= hi
    ensures lo <= Predicted(s, xStar, yStar, predictor, logDensity).mean[j] <= hi
  {
    PredictedIsMemberAverage(s, xStar, yStar, predictor, logDensity, j);
    AverageBounds(Column(MemberMeans(s, xStar, predictor), j), lo, hi);
  }

  /**
   * Members that all predict the same mean and variance at a query point
   * make the wrapper predict exactly those (with one sample row per member).
   */
  lemma AgreeingMembersDetermineThePrediction(s: CollectionState, xStar: Matrix, yStar: Option<seq<real>>,
                                              predictor: (GpState, Matrix) -> Moments, logDensity: (real, real, real) -> real,
                                              j: nat, m: real, v: real)
    requires Inv(s) && s.samples.Some? && |s.samples.value| == s.nSamples > 0
    requires PredictsShape(predictor, xStar) && (yStar.Some? ==> |yStar.value| == |xStar|)
    requires j < |xStar|
    requires forall i :: 0 <= i < s.nSamples ==> predictor(s.members[i], xStar).mean[j] == m
    requires forall i :: 0 <= i < s.nSamples ==> predictor(s.members[i], xStar).variance[j] == v
    ensures Predicted(s, xStar, yStar, predictor, logDensity).mean[j] == m
    ensures Predicted(s, xStar, yStar, predictor, logDensity).variance[j] == v
  {
    PredictedIsMemberAverage(s, xStar, yStar, predictor, logDensity, j);
    AverageBounds(Column(MemberMeans(s, xStar, predictor), j), m, m);
    AverageBounds(Column(MemberVariances(s, xStar, predictor), j), v, v);
  }

  // ---------------------------------------------------------------------------
  // The averaged variance and the mixture variance

  /**
   * The variance predict reports (the plain average of the members'
   * variances, with one sample row per member) never exceeds the variance
   * of the equal-weight mixture of the members' predictive distributions:
   * it leaves out the spread of the members' means.
   */
  lemma PredictedVarianceAtMostMixture(s: CollectionState, xStar: Matrix, yStar: Option<seq<real>>,
                                       predictor: (GpState, Matrix) -> Moments, logDensity: (real, real, real) -> real, j: nat)
    requires Inv(s) && s.samples.Some? && |s.samples.value| == s.nSamples > 0
    requires PredictsShape(predictor, xStar) && (yStar.Some? ==> |yStar.value| == |xStar|)
    requires j < |xStar|
    ensures Predicted(s, xStar, yStar, predictor, logDensity).variance[j] <=
      MixtureVariance(Column(MemberMeans(s, xStar, predictor), j), Column(MemberVariances(s, xStar, predictor), j))
  {
    PredictedIsMemberAverage(s, xStar, yStar, predictor, logDensity, j);
    MeanSquareDominates(Column(MemberMeans(s, xStar, predictor), j));
  }
}
