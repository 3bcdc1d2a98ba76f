/**
 * The ensemble wrapper (class ModelCollection of
 * ml_utils/models/model_collection.py) as a class whose methods are proved
 * to follow the value-level functions of EnsembleSpec.
 */
module Ensemble {
  import opened Wrappers
  import opened EnsembleSpec

  /**
   * A surrogate model object. Its own behaviour is outside this model: its
   * parameter setter stores what it is given, and its set_XY/set_data is a
   * DataSetter parameter.
   */
  class SubModel {
    var params: seq<real>
    var X: Matrix
    var Y: seq<real>
    var yMean: real
    var mode: string
    var optParams: OptParams

    function State(): GpState
      reads this
    {
      GpState(params, X, Y, yMean, mode, optParams)
    }

    constructor (g: GpState)
      ensures State() == g
    {
      params, X, Y, yMean, mode, optParams := g.params, g.X, g.Y, g.yMean, g.mode, g.optParams;
    }

    /** copy.deepcopy: a new object in the same state. */
    constructor Copy(m: SubModel)
      ensures State() == m.State()
    {
      params, X, Y, yMean, mode, optParams := m.params, m.X, m.Y, m.yMean, m.mode, m.optParams;
    }

    /** The param_array setter. */
    method SetParamArray(p: seq<real>)
      modifies this`params
      ensures params == p
    {
      params := p;
    }

    /** The surrogate's set_data / set_XY: the object takes the state the setter gives. */
    method SetData(setData: DataSetter, newX: Matrix, newY: seq<real>)
      modifies this
      ensures State() == setData(old(State()), newX, newY)
    {
      var g := setData(State(), newX, newY);
      params, X, Y, yMean, mode, optParams := g.params, g.X, g.Y, g.yMean, g.mode, g.optParams;
    }
  }

  /** The states of a sequence of models. */
  function States(ms: seq<SubModel>): (r: seq<GpState>)
    reads ms
    ensures |r| == |ms|
    ensures forall i :: 0 <= i < |ms| ==> r[i] == ms[i].State()
  {
    seq(|ms|, i reads ms requires 0 <= i < |ms| => ms[i].State())
  }

  datatype WrapError =
    | NotSliceModel        // the assertion on opt_params['method']
    | MissingSampleCount   // opt_params has no 'n_samples'

  class ModelCollection {
    var optParams: OptParams
    var burnIn: nat
    var nSamples: nat
    var samples: Option<Matrix>
    var original: SubModel
    var members: seq<SubModel>

    /** The members are distinct objects and none of them is the original. */
    ghost predicate Separate()
      reads this
    {
      (forall i, j :: 0 <= i < j < |members| ==> members[i] != members[j]) &&
      original !in members
    }

    ghost function Abstract(): CollectionState
      reads this, original, members
    {
      CollectionState(optParams, burnIn, nSamples, samples, original.State(), States(members))
    }

    ghost predicate Valid()
      reads this, original, members
    {
      Separate() && Inv(Abstract())
    }

    /**
     * Wraps `model`, whose configuration must be the slice method with an
     * ensemble size: the model is switched to normal mode with the gradient
     * method, and the original and every member are fresh copies of it.
     */
    constructor (model: SubModel)
      requires Accepts(model.optParams)
      modifies model
      ensures Valid() && Abstract() == Initial(old(model.State()))
      ensures model.State() == Reconfigured(old(model.State()))
      ensures fresh(original) && forall i :: 0 <= i < |members| ==> fresh(members[i])
    {
      var cfg := model.optParams;
      optParams := cfg;
      burnIn := if cfg.burnIn.Some? then cfg.burnIn.value else DefaultBurnIn;
      model.mode := NormalMode;
      model.optParams := GradParams();
      original := new SubModel.Copy(model);
      nSamples := cfg.nSamples.value;
      samples := None;
      members := [];
      new;
      ghost var copied := Reconfigured(old(model.State()));
      for ii := 0 to cfg.nSamples.value
        invariant optParams == cfg && nSamples == cfg.nSamples.value && samples == None
        invariant burnIn == Initial(old(model.State())).burnIn
        invariant fresh(original) && original.State() == copied && model.State() == copied
        invariant |members| == ii && original !in members
        invariant forall k :: 0 <= k < ii ==> fresh(members[k]) && members[k].State() == copied
        invariant forall k, j :: 0 <= k < j < ii ==> members[k] != members[j]
      {
        var m := new SubModel.Copy(model);
        members := members + [m];
      }
      assert States(members) == Initial(old(model.State())).members;
    }

    /** The param_array getter: the sample matrix the members follow. */
    function ParamArray(): (p: Option<Matrix>)
      reads this, original, members
      requires Valid()
      ensures p.Some? ==> |p.value| >= |members| && forall i :: 0 <= i < |members| ==> members[i].params == p.value[i]
      ensures p.Some? ==> optParams.sliceHps == p
    {
      samples
    }

    /** The param_array setter. */
    method SetParamArray(p: Matrix)
      requires Valid() && |p| >= |members|
      modifies this, members
      ensures Valid() && Abstract() == Assigned(old(Abstract()), p)
      ensures original == old(original) && members == old(members)
    {
      samples := Some(p);
      optParams := optParams.(sliceHps := Some(p));
      UpdateLocalModelsHps();
    }

    /** update_local_models_hps: member i takes sample row i. */
    method UpdateLocalModelsHps()
      requires Separate() && samples.Some? && |samples.value| >= |members|
      modifies members
      ensures Abstract() == Resynced(old(Abstract()))
    {
      var p := samples.value;
      for ii := 0 to |members|
        invariant forall k :: 0 <= k < ii ==> members[k].State() == old(members[k].State()).(params := p[k])
        invariant forall k :: ii <= k < |members| ==> members[k].State() == old(members[k].State())
      {
        members[ii].SetParamArray(p[ii]);
      }
      assert States(members) == Resynced(old(Abstract())).members;
    }

    /** update_local_models_data: each member is handed the original's inputs and Y + y_mean. */
    method UpdateLocalModelsData(setData: DataSetter)
      requires Separate()
      modifies members
      ensures Abstract() == DataPropagated(old(Abstract()), setData)
    {
      var xs, ys := original.X, Outputs(original.State());
      for ii := 0 to |members|
        invariant forall k :: 0 <= k < ii ==> members[k].State() == setData(old(members[k].State()), xs, ys)
        invariant forall k :: ii <= k < |members| ==> members[k].State() == old(members[k].State())
      {
        members[ii].SetData(setData, xs, ys);
      }
      assert States(members) == DataPropagated(old(Abstract()), setData).members;
    }

    /** set_data: the original is handed the data, then the members are refreshed from it. */
    method SetData(setData: DataSetter, newX: Matrix, newY: seq<real>)
      requires Valid() && StoresData(setData)
      modifies original, members
      ensures Valid() && Abstract() == WithData(old(Abstract()), setData, newX, newY)
    {
      original.SetData(setData, newX, newY);
      UpdateLocalModelsData(setData);
    }

    /** set_XY: the same as set_data. */
    method SetXY(setData: DataSetter, newX: Matrix, newY: seq<real>)
      requires Valid() && StoresData(setData)
      modifies original, members
      ensures Valid() && Abstract() == WithData(old(Abstract()), setData, newX, newY)
    {
      SetData(setData, newX, newY);
    }

    /**
     * optimize: burnIn sampler calls whose draws are discarded, then one call
     * per member whose draw, exponentiated, fills that member's row of the
     * sample matrix, which is finally assigned through the setter.
     */
    method Optimize(smp: SliceSampler)
      requires Valid() && KeepsDimension(smp)
      modifies this, original, members
      ensures Valid() && Abstract() == Optimized(old(Abstract()), smp)
    {
      var sigma, bounds := StepSize(optParams), LogBounds(smp, optParams);
      var hps := RunChain(smp, sigma, bounds, optParams.nSamples.value);
      SetParamArray(hps);
    }

    /** Burn-in then sampling: only the original's parameters move. */
    method RunChain(smp: SliceSampler, sigma: real, bounds: Option<Matrix>, n: nat) returns (hps: Matrix)
      requires Separate()
      modifies original`params
      ensures hps == Draws(smp, old(original.params), sigma, bounds, burnIn, n)
      ensures Abstract() == old(Abstract()).(original := old(Abstract()).original.(params := original.params))
      ensures original.params == Visited(smp, old(original.params), sigma, bounds, burnIn + n)
    {
      ghost var start := original.params;
      BurnIn(smp, sigma, bounds);
      hps := SampleRows(smp, sigma, bounds, n, start);
      assert States(members) == old(States(members));
    }

    /** The burn-in loop of optimize: the draws are discarded, only the original moves. */
    method BurnIn(smp: SliceSampler, sigma: real, bounds: Option<Matrix>)
      modifies original`params
      ensures original.params == Visited(smp, old(original.params), sigma, bounds, burnIn)
    {
      for ii := 0 to burnIn
        invariant original.params == Visited(smp, old(original.params), sigma, bounds, ii)
      {
        var call := smp.step(ii, Elementwise(smp.log, original.params), sigma, bounds);
        original.SetParamArray(call.visited);
      }
    }

    /** The sampling loop of optimize: row ii of the n-row matrix is call burnIn + ii, exponentiated. */
    method SampleRows(smp: SliceSampler, sigma: real, bounds: Option<Matrix>, n: nat, ghost start: seq<real>)
      returns (hps: Matrix)
      requires original.params == Visited(smp, start, sigma, bounds, burnIn)
      modifies original`params
      ensures hps == Draws(smp, start, sigma, bounds, burnIn, n)
      ensures original.params == Visited(smp, start, sigma, bounds, burnIn + n)
    {
      var d := |original.params|;
      hps := seq(n, _ => Zeros(d));
      for ii := 0 to n
        invariant original.params == Visited(smp, start, sigma, bounds, burnIn + ii)
        invariant |hps| == n && forall k :: 0 <= k < ii ==> hps[k] == Draw(smp, start, sigma, bounds, burnIn, k)
      {
        var call := smp.step(burnIn + ii, Elementwise(smp.log, original.params), sigma, bounds);
        assert Elementwise(smp.exp, call.sample) == Draw(smp, start, sigma, bounds, burnIn, ii);
        hps := hps[ii := Elementwise(smp.exp, call.sample)];
        original.SetParamArray(call.visited);
      }
    }

    /**
     * predict: the members' means and variances summed over the first
     * nSamples members and divided by the number of sample rows; with
     * targets, also their log predictive density.
     */
    method Predict(xStar: Matrix, yStar: Option<seq<real>>,
                   predictor: (GpState, Matrix) -> Moments, logDensity: (real, real, real) -> real)
      returns (res: Prediction)
      requires Valid() && samples.Some? && |samples.value| > 0
      requires PredictsShape(predictor, xStar) && (yStar.Some? ==> |yStar.value| == |xStar|)
      ensures res == Predicted(Abstract(), xStar, yStar, predictor, logDensity)
    {
      ghost var s := Abstract();
      ghost var means := MemberMeans(s, xStar, predictor);
      ghost var variances := MemberVariances(s, xStar, predictor);
      var mu := Zeros(|xStar|);
      var va := Zeros(|xStar|);
      for ii := 0 to nSamples
        invariant mu == VectorSum(means[..ii], |xStar|)
        invariant va == VectorSum(variances[..ii], |xStar|)
      {
        var m := predictor(members[ii].State(), xStar);
        assert m.mean == means[ii] && m.variance == variances[ii];
        assert means[..ii + 1][..ii] == means[..ii] && variances[..ii + 1][..ii] == variances[..ii];
        mu := Plus(mu, m.mean);
        va := Plus(va, m.variance);
      }
      assert means[..nSamples] == means && variances[..nSamples] == variances;
      mu := Divided(mu, |samples.value|);
      va := Divided(va, |samples.value|);
      var logProb: Option<seq<real>> := None;
      if yStar.Some? {
        logProb := Some(seq(|xStar|, j requires 0 <= j < |xStar| => logDensity(yStar.value[j], mu[j], va[j])));
      }
      res := Prediction(mu, va, logProb);
    }
  }

  /**
   * Building a ModelCollection around `model`: a model whose method is not
   * the slice method is rejected untouched; one without an ensemble size is
   * rejected after it was already switched to normal mode; any other is
   * wrapped.
   */
  method Wrap(model: SubModel) returns (r: Result<ModelCollection, WrapError>)
    modifies model
    ensures r.Success? <==> Accepts(old(model.optParams))
    ensures old(model.optParams.optMethod) != SliceMethod ==>
      r == Failure(NotSliceModel) && model.State() == old(model.State())
    ensures old(model.optParams.optMethod) == SliceMethod && old(model.optParams.nSamples).None? ==>
      r == Failure(MissingSampleCount) && model.State() == Reconfigured(old(model.State()))
    ensures r.Success? ==>
      fresh(r.value) && fresh(r.value.original) && r.value.Valid() &&
      r.value.Abstract() == Initial(old(model.State())) && model.State() == Reconfigured(old(model.State()))
  {
    if model.optParams.optMethod != SliceMethod {
      return Failure(NotSliceModel);
    }
    if model.optParams.nSamples.None? {
      model.mode := NormalMode;
      model.optParams := GradParams();
      return Failure(MissingSampleCount);
    }
    var c := new ModelCollection(model);
    r := Success(c);
  }
}
