/** The fully-actuated PID controller with a bounded integral (disturbance)
    term, built on top of an inner double-integrator controller, and the
    record-level form of its parameter (de)serialisation. */
module BoundedIntegralPid {
  import opened Wrappers
  import opened Vectors
  import opened DoubleIntegratorControllers

  /** Gravity, fixed to 9.81 by the constructor. */
  const Gravity: real := 9.81

  // ---------------------------------------------------------------------
  // Parameters at the record level

  /** An instance of a double-integrator controller: its class and the
      keyword arguments it was built from. */
  datatype DIController = DIController(cls: DIClass, params: map<string, real>)

  /** A value of the decoded parameter dictionary. `Pair` is the nested
      `(class name, inner parameters)` entry, with `None` for a JSON `null`;
      `Instance` is what that entry becomes once decoded. */
  datatype ParamValue =
    | Num(r: real)
    | Pair(name: string, inner: Option<map<string, real>>)
    | Instance(controller: DIController)

  type Params = map<string, ParamValue>

  /** Why decoding a parameter dictionary fails: a missing entry, an entry
      that is not a name/parameters pair, or a name the registry lacks. */
  datatype ConfigError = MissingKey(key: string) | NotAPair(key: string) | UnknownController(name: string)

  /** The five numeric constructor parameters. */
  datatype PidParameters = PidParameters(
    integralGainXY: real, boundIntegralXY: real,
    integralGainZ: real, boundIntegralZ: real,
    quadMass: real)

  const InnerKey: string := "double_integrator_controller"
  const GainXYKey: string := "integral_gain_xy"
  const BoundXYKey: string := "bound_integral_xy"
  const GainZKey: string := "integral_gain_z"
  const BoundZKey: string := "bound_integral_z"
  const MassKey: string := "quad_mass"

  /** `parameters_to_string`, before the JSON text encoding: the inner
      controller's class name with its own parameters, and the five numbers. */
  function ParametersToString(inner: DIClass, innerParams: Option<map<string, real>>, p: PidParameters): (dic: Params)
    ensures dic.Keys == {InnerKey, GainXYKey, BoundXYKey, GainZKey, BoundZKey, MassKey}
  {
    map[InnerKey := Pair(ClassName(inner), innerParams),
        GainXYKey := Num(p.integralGainXY),
        BoundXYKey := Num(p.boundIntegralXY),
        GainZKey := Num(p.integralGainZ),
        BoundZKey := Num(p.boundIntegralZ),
        MassKey := Num(p.quadMass)]
  }

  /** Reads the five numeric parameters back out of a dictionary. */
  function NumericFields(dic: Params): Option<PidParameters> {
    if && GainXYKey in dic && dic[GainXYKey].Num?
       && BoundXYKey in dic && dic[BoundXYKey].Num?
       && GainZKey in dic && dic[GainZKey].Num?
       && BoundZKey in dic && dic[BoundZKey].Num?
       && MassKey in dic && dic[MassKey].Num?
    then Some(PidParameters(dic[GainXYKey].r, dic[BoundXYKey].r, dic[GainZKey].r,
                            dic[BoundZKey].r, dic[MassKey].r))
    else None
  }

  /** `contained_objects`: the one nested entry and the registry its class
      name is looked up in. */
  function ContainedObjects(registry: Registry): (c: seq<(string, Registry)>)
    ensures |c| == 1 && c[0].0 == InnerKey && c[0].1 == registry
  {
    [(InnerKey, registry)]
  }

  /** One iteration of the loop in `string_to_parameters`: replace the pair
      under `key` with an instance of the class it names. */
  function DecodeEntry(dic: Params, key: string, registry: Registry): (r: Result<Params, ConfigError>)
    ensures key !in dic ==> r == Failure(MissingKey(key))
    ensures key in dic && !dic[key].Pair? ==> r == Failure(NotAPair(key))
    ensures key in dic && dic[key].Pair? && dic[key].name !in registry ==> r == Failure(UnknownController(dic[key].name))
    ensures r.Success? <==> key in dic && dic[key].Pair? && dic[key].name in registry
    ensures r.Success? ==> r.value.Keys == dic.Keys
    ensures r.Success? ==> forall k :: k in dic && k != key ==> r.value[k] == dic[k]
    ensures r.Success? ==> r.value[key] == Instance(DIController(registry[dic[key].name], dic[key].inner.GetOr(map[])))
  {
    if key !in dic then Failure(MissingKey(key))
    else match dic[key]
      case Pair(name, inner) =>
        if name !in registry then Failure(UnknownController(name))
        else
          // a JSON null for the inner parameters is read as no keyword arguments
          var kwargs := inner.GetOr(map[]);
          Success(dic[key := Instance(DIController(registry[name], kwargs))])
      case _ => Failure(NotAPair(key))
  }

  /** The whole loop of `string_to_parameters`, entry by entry; the first
      failure aborts it. */
  function DecodeContained(dic: Params, contained: seq<(string, Registry)>): (r: Result<Params, ConfigError>)
    ensures r.Success? ==> r.value.Keys == dic.Keys
    ensures r.Success? ==> forall j :: 0 <= j < |contained| ==> contained[j].0 in dic && r.value[contained[j].0].Instance?
    ensures r.Success? ==> forall k :: k in dic && NotContained(k, contained) ==> r.value[k] == dic[k]
    decreases |contained|
  {
    if contained == [] then Success(dic)
    else match DecodeEntry(dic, contained[0].0, contained[0].1)
      case Failure(e) => Failure(e)
      case Success(next) => DecodeContained(next, contained[1..])
  }

  /** No contained entry is stored under `k`. */
  predicate NotContained(k: string, contained: seq<(string, Registry)>) {
    forall j :: 0 <= j < |contained| ==> contained[j].0 != k
  }

  /** One unfolding of `DecodeContained`: the first entry is decoded, and
      on success the rest follow. */
  lemma DecodeContainedUnfold(dic: Params, contained: seq<(string, Registry)>)
    requires contained != []
    ensures DecodeEntry(dic, contained[0].0, contained[0].1).Failure? ==>
              DecodeContained(dic, contained) == Failure(DecodeEntry(dic, contained[0].0, contained[0].1).error)
    ensures DecodeEntry(dic, contained[0].0, contained[0].1).Success? ==>
              DecodeContained(dic, contained) == DecodeContained(DecodeEntry(dic, contained[0].0, contained[0].1).value, contained[1..])
  {
  }

  /** `string_to_parameters` after the JSON text decoding: rewrites the
      dictionary in place, one contained entry at a time. */
  method StringToParameters(dic0: Params, contained: seq<(string, Registry)>) returns (r: Result<Params, ConfigError>)
    ensures r == DecodeContained(dic0, contained)
  {
    var dic := dic0;
    var i := 0;
    while i < |contained|
      invariant 0 <= i <= |contained|
      invariant DecodeContained(dic0, contained) == DecodeContained(dic, contained[i..])
    {
      var (key, registry) := contained[i];
      DecodeContainedUnfold(dic, contained[i..]);
      assert contained[i..][1..] == contained[i + 1..];
      if key !in dic {
        return Failure(MissingKey(key));
      }
      var innerObj := dic[key];
      if !innerObj.Pair? {
        return Failure(NotAPair(key));
      }
      if innerObj.name !in registry {
        return Failure(UnknownController(innerObj.name));
      }
      var innerCls := registry[innerObj.name];
      var innerParams := innerObj.inner;
      if innerParams == None {
        innerParams := Some(map[]);
      }
      dic := dic[key := Instance(DIController(innerCls, innerParams.value))];
      i := i + 1;
    }
    return Success(dic);
  }

  /** Decoding what `parameters_to_string` produced, with a registry that
      knows the inner class under its own name, gives back the same five
      numbers and an instance of the same class with the same parameters
      (none when they were `null`). */
  lemma ParametersRoundTrip(inner: DIClass, innerParams: Option<map<string, real>>, p: PidParameters, registry: Registry)
    requires ClassName(inner) in registry && registry[ClassName(inner)] == inner
    ensures var r := DecodeContained(ParametersToString(inner, innerParams, p), ContainedObjects(registry));
            && r.Success?
            && r.value == ParametersToString(inner, innerParams, p)[InnerKey := Instance(DIController(inner, innerParams.GetOr(map[])))]
            && NumericFields(r.value) == Some(p)
  {
    var dic := ParametersToString(inner, innerParams, p);
    var next := dic[InnerKey := Instance(DIController(inner, innerParams.GetOr(map[])))];
    assert DecodeEntry(dic, InnerKey, registry) == Success(next);
    assert ContainedObjects(registry)[1..] == [];
    assert NumericFields(next) == Some(p);
  }

  /** With `di_ctrl_dictionary` as the registry, the round trip holds for
      every one of the four classes. */
  lemma RegistryRoundTrip(inner: DIClass, innerParams: Option<map<string, real>>, p: PidParameters)
    ensures var r := DecodeContained(ParametersToString(inner, innerParams, p), ContainedObjects(DiCtrlDictionary));
            r.Success? && NumericFields(r.value) == Some(p) && InnerKey in r.value &&
            r.value[InnerKey] == Instance(DIController(inner, innerParams.GetOr(map[])))
  {
    ClassNameResolves(inner);
    ParametersRoundTrip(inner, innerParams, p, DiCtrlDictionary);
  }

  /** A name the registry does not hold makes decoding fail with that name,
      whatever the other entries are. */
  lemma UnknownInnerNameFails(dic: Params, registry: Registry, name: string, inner: Option<map<string, real>>)
    requires InnerKey in dic && dic[InnerKey] == Pair(name, inner)
    requires name !in registry
    ensures DecodeContained(dic, ContainedObjects(registry)) == Failure(UnknownController(name))
  {
  }

  /** "DefaultDIC" is not a key of `di_ctrl_dictionary`, so a dictionary
      whose nested entry names it fails at the class lookup when decoded
      against that registry. */
  lemma DefaultDicNotDecodable(dic: Params)
    requires InnerKey in dic && dic[InnerKey].Pair? && dic[InnerKey].name == "DefaultDIC"
    ensures DecodeContained(dic, ContainedObjects(DiCtrlDictionary)) == Failure(UnknownController("DefaultDIC"))
  {
    DefaultDicUnregistered();
  }

  // ---------------------------------------------------------------------
  // The control law

  /** The two parts of the inner controller's 12-tuple that this controller
      uses: the feedback `u` and the Lyapunov derivative term `V_v`. */
  datatype DIOutput = DIOutput(u: Vec3, vV: Vec3)

  /** `MASS*(ad + u + GRAVITY*e3 - d)`. */
  function FullActuation(mass: real, ad: Vec3, u: Vec3, d: Vec3): (f: Vec3)
    // a disturbance estimate matching the commanded acceleration cancels it,
    // leaving only the gravity compensation
    ensures d == Add(ad, u) ==> f == [0.0, 0.0, mass * Gravity]
  {
    var s := Sub(Add(Add(ad, u), Scale(Gravity, E3)), d);
    assert d == Add(ad, u) ==> Scale(mass, s) == [0.0, 0.0, mass * Gravity] by {
      if d == Add(ad, u) {
        Vec3Equal(s, [0.0, 0.0, Gravity]);
        Vec3Equal(Scale(mass, s), [0.0, 0.0, mass * Gravity]);
      }
    }
    Scale(mass, s)
  }

  /** The force is the mass times the sum of the feed-forward acceleration,
      the feedback and gravity compensation, less the disturbance. */
  lemma FullActuationComponents(mass: real, ad: Vec3, u: Vec3, d: Vec3)
    ensures var f := FullActuation(mass, ad, u, d);
            && f[0] == mass * (ad[0] + u[0] - d[0])
            && f[1] == mass * (ad[1] + u[1] - d[1])
            && f[2] == mass * (ad[2] + u[2] + 9.81 - d[2])
  {
    var s := Sub(Add(Add(ad, u), Scale(Gravity, E3)), d);
    assert s == [ad[0] + u[0] - d[0], ad[1] + u[1] - d[1], ad[2] + u[2] + 9.81 - d[2]];
  }

  /** With no feedback, no feed-forward and no disturbance, the force is pure
      gravity compensation. */
  lemma HoverForce(mass: real)
    ensures FullActuation(mass, Zero, Zero, Zero) == [0.0, 0.0, mass * 9.81]
  {
    FullActuationComponents(mass, Zero, Zero, Zero);
  }

  /** One axis of the integral step before saturation: `d + gain * vV * dt`. */
  function Integrated(d: real, gain: real, vV: real, dt: real): real {
    d + dt * (gain * vV)
  }

  /** One axis of the integral step, clamped to `[-bound, bound]`. */
  function AxisStep(d: real, gain: real, bound: real, vV: real, dt: real): (r: real)
    ensures 0.0 <= bound ==> -bound <= r <= bound
    ensures -bound <= Integrated(d, gain, vV, dt) <= bound ==> r == Integrated(d, gain, vV, dt)
    ensures 0.0 <= bound < Integrated(d, gain, vV, dt) ==> r == bound
    ensures Integrated(d, gain, vV, dt) < -bound <= 0.0 ==> r == -bound
  {
    // `bound(x, max, -max)` clamps to [-max, max]
    Clip(Integrated(d, gain, vV, dt), -bound, bound)
  }

  /** One integral step of the disturbance estimate: `d + gains ⊙ vV * dt`,
      clamped per axis to `[-bounds, bounds]`. */
  function EstimateStep(d: Vec3, gains: Vec3, bounds: Vec3, vV: Vec3, dt: real): (r: Vec3)
    ensures forall i :: 0 <= i < 3 && 0.0 <= bounds[i] ==> -bounds[i] <= r[i] <= bounds[i]
    ensures forall i :: 0 <= i < 3 && -bounds[i] <= Integrated(d[i], gains[i], vV[i], dt) <= bounds[i] ==>
              r[i] == Integrated(d[i], gains[i], vV[i], dt)
    ensures forall i :: 0 <= i < 3 && 0.0 <= bounds[i] < Integrated(d[i], gains[i], vV[i], dt) ==> r[i] == bounds[i]
    ensures forall i :: 0 <= i < 3 && Integrated(d[i], gains[i], vV[i], dt) < -bounds[i] <= 0.0 ==> r[i] == -bounds[i]
  {
    [AxisStep(d[0], gains[0], bounds[0], vV[0], dt),
     AxisStep(d[1], gains[1], bounds[1], vV[1], dt),
     AxisStep(d[2], gains[2], bounds[2], vV[2], dt)]
  }

  /** An estimate already within bounds does not move when the clock has not. */
  lemma EstimateUnchangedAtSameTime(d: Vec3, gains: Vec3, bounds: Vec3, vV: Vec3)
    requires forall i :: 0 <= i < 3 ==> -bounds[i] <= d[i] <= bounds[i]
    ensures EstimateStep(d, gains, bounds, vV, 0.0) == d
  {
    var r := EstimateStep(d, gains, bounds, vV, 0.0);
    assert forall i :: 0 <= i < 3 ==> Integrated(d[i], gains[i], vV[i], 0.0) == d[i];
    assert r[0] == d[0] && r[1] == d[1] && r[2] == d[2];
  }

  /** The estimate after a run of `output` calls, each giving the inner
      controller's `V_v` and the call's time stamp. */
  function EstimateAfter(d: Vec3, tOld: real, gains: Vec3, bounds: Vec3, calls: seq<(Vec3, real)>): (r: Vec3)
    ensures calls == [] ==> r == d
    ensures calls != [] ==> forall i :: 0 <= i < 3 && 0.0 <= bounds[i] ==> -bounds[i] <= r[i] <= bounds[i]
    decreases |calls|
  {
    if calls == [] then d
    else
      var (vV, t) := calls[0];
      EstimateAfter(EstimateStep(d, gains, bounds, vV, t - tOld), t, gains, bounds, calls[1..])
  }

  /** However many calls and whatever their inputs or time stamps, with
      non-negative bounds the estimate ends up within them; and when it starts
      within them it never leaves. */
  lemma {:induction false} EstimateAfterBounded(d: Vec3, tOld: real, gains: Vec3, bounds: Vec3, calls: seq<(Vec3, real)>)
    requires forall i :: 0 <= i < 3 ==> 0.0 <= bounds[i]
    requires calls != [] || forall i :: 0 <= i < 3 ==> -bounds[i] <= d[i] <= bounds[i]
    ensures var r := EstimateAfter(d, tOld, gains, bounds, calls);
            forall i :: 0 <= i < 3 ==> -bounds[i] <= r[i] <= bounds[i]
    decreases |calls|
  {
    if calls != [] {
      var (vV, t) := calls[0];
      EstimateAfterBounded(EstimateStep(d, gains, bounds, vV, t - tOld), t, gains, bounds, calls[1..]);
    }
  }

  class BoundedIntegralPIDController {
    const integralGainXY: real
    const boundIntegralXY: real
    const integralGainZ: real
    const boundIntegralZ: real
    /** The inner double-integrator controller object. */
    const diController: DIController
    /** That object's `output(ep, ev)`, left abstract. */
    const diOutput: (Vec3, Vec3) -> DIOutput
    const quadMass: real
    /** `MASS`, the mass used in the control law. */
    const mass: real

    /** The numpy array currently bound to `disturbance_estimate`. */
    var disturbanceEstimate: array<real>
    /** The numpy array bound to `d_est` at construction. */
    var dEst: array<real>
    var tOld: real

    /** Both names refer to 3-vectors, and `d_est` is the zero array it was
        first bound to: no method writes into that array. */
    ghost predicate Valid()
      reads this, disturbanceEstimate, dEst
    {
      disturbanceEstimate.Length == 3 && dEst.Length == 3 && dEst[..] == Zero
    }

    /** The gains per axis: the horizontal gain on x and y. */
    function Gains(): Vec3 {
      [integralGainXY, integralGainXY, integralGainZ]
    }

    /** The bounds per axis: the horizontal bound on x and y. */
    function Bounds(): Vec3 {
      [boundIntegralXY, boundIntegralXY, boundIntegralZ]
    }

    constructor (doubleIntegratorController: DIController, diOutput: (Vec3, Vec3) -> DIOutput, p: PidParameters)
      ensures Valid()
      ensures integralGainXY == p.integralGainXY && boundIntegralXY == p.boundIntegralXY
      ensures integralGainZ == p.integralGainZ && boundIntegralZ == p.boundIntegralZ
      ensures quadMass == p.quadMass && mass == p.quadMass
      ensures diController == doubleIntegratorController && this.diOutput == diOutput
      ensures disturbanceEstimate[..] == Zero && tOld == 0.0
      ensures dEst == disturbanceEstimate
      ensures fresh(disturbanceEstimate)
    {
      integralGainXY := p.integralGainXY;
      boundIntegralXY := p.boundIntegralXY;
      integralGainZ := p.integralGainZ;
      boundIntegralZ := p.boundIntegralZ;
      diController := doubleIntegratorController;
      this.diOutput := diOutput;
      quadMass := p.quadMass;
      mass := p.quadMass;
      var zero := new real[3] [0.0, 0.0, 0.0];
      disturbanceEstimate := zero;
      // d_est names the same array object
      dEst := zero;
      tOld := 0.0;
    }

    /** `output(t, state, reference)`: the force for this tick, with the
        disturbance estimate integrated up to time `t` as a side effect. */
    method Output(t: real, state: seq<real>, reference: seq<real>) returns (force: Vec3)
      requires Valid()
      requires |state| >= 6 && |reference| >= 9
      modifies this
      ensures Valid()
      ensures dEst == old(dEst) && fresh(disturbanceEstimate)
      ensures var out := diOutput(Sub(state[0..3], reference[0..3]), Sub(state[3..6], reference[3..6]));
              && force == FullActuation(mass, reference[6..9], out.u, dEst[..])
              // d_est is still the zero array, so the estimate never reaches the force
              && force == FullActuation(mass, reference[6..9], out.u, Zero)
              && disturbanceEstimate[..] == EstimateStep(old(disturbanceEstimate[..]), Gains(), Bounds(), out.vV, t - old(tOld))
              // x and y share the horizontal gain and bound, z has its own
              && disturbanceEstimate[0] == AxisStep(old(disturbanceEstimate[0]), integralGainXY, boundIntegralXY, out.vV[0], t - old(tOld))
              && disturbanceEstimate[1] == AxisStep(old(disturbanceEstimate[1]), integralGainXY, boundIntegralXY, out.vV[1], t - old(tOld))
              && disturbanceEstimate[2] == AxisStep(old(disturbanceEstimate[2]), integralGainZ, boundIntegralZ, out.vV[2], t - old(tOld))
      ensures boundIntegralXY >= 0.0 ==> -boundIntegralXY <= disturbanceEstimate[0] <= boundIntegralXY
      ensures boundIntegralXY >= 0.0 ==> -boundIntegralXY <= disturbanceEstimate[1] <= boundIntegralXY
      ensures boundIntegralZ >= 0.0 ==> -boundIntegralZ <= disturbanceEstimate[2] <= boundIntegralZ
      ensures tOld == t
    {
      // position, velocity and the desired trajectory
      var x: Vec3 := state[0..3];
      var v: Vec3 := state[3..6];
      var xd: Vec3 := reference[0..3];
      var vd: Vec3 := reference[3..6];
      var ad: Vec3 := reference[6..9];
      var ep := Sub(x, xd);
      var ev := Sub(v, vd);
      var out := diOutput(ep, ev);
      force := Scale(mass, Sub(Add(Add(ad, out.u), Scale(Gravity, E3)), dEst[..]));
      UpdateDisturbanceEstimate(out.vV, t);
    }

    /** The second half of `output`: integrate `gains ⊙ vV` over the time
        since the last call, saturate, and remember the time. */
    method UpdateDisturbanceEstimate(vV: Vec3, tNew: real)
      requires Valid()
      modifies this
      ensures Valid()
      ensures dEst == old(dEst) && fresh(disturbanceEstimate)
      ensures disturbanceEstimate[..] == EstimateStep(old(disturbanceEstimate[..]), Gains(), Bounds(), vV, tNew - old(tOld))
      ensures disturbanceEstimate[0] == AxisStep(old(disturbanceEstimate[0]), integralGainXY, boundIntegralXY, vV[0], tNew - old(tOld))
      ensures disturbanceEstimate[1] == AxisStep(old(disturbanceEstimate[1]), integralGainXY, boundIntegralXY, vV[1], tNew - old(tOld))
      ensures disturbanceEstimate[2] == AxisStep(old(disturbanceEstimate[2]), integralGainZ, boundIntegralZ, vV[2], tNew - old(tOld))
      ensures tOld == tNew
    {
      var gainsIntegralAction := Gains();
      var maxDisturbanceEstimate := Bounds();
      // derivative of the estimate (element-wise product) and the time step
      var dEstDot := Hadamard(gainsIntegralAction, vV);
      var dt := tNew - tOld;
      // new estimate, saturated element-wise: `bound(d + d_dot*dt, max, -max)`
      var d := disturbanceEstimate;
      var raw := Add(d[..], Scale(dt, dEstDot));
      var bounded := new real[3];
      bounded[0] := Clip(raw[0], -maxDisturbanceEstimate[0], maxDisturbanceEstimate[0]);
      bounded[1] := Clip(raw[1], -maxDisturbanceEstimate[1], maxDisturbanceEstimate[1]);
      bounded[2] := Clip(raw[2], -maxDisturbanceEstimate[2], maxDisturbanceEstimate[2]);
      ghost var previous := d[..];
      assert raw[0] == Integrated(previous[0], gainsIntegralAction[0], vV[0], dt);
      assert raw[1] == Integrated(previous[1], gainsIntegralAction[1], vV[1], dt);
      assert raw[2] == Integrated(previous[2], gainsIntegralAction[2], vV[2], dt);
      Vec3Equal(bounded[..], EstimateStep(previous, gainsIntegralAction, maxDisturbanceEstimate, vV, dt));
      disturbanceEstimate := bounded;
      tOld := tNew;
    }

    /** `reset_disturbance_estimate`: a fresh zero estimate; the clock, `d_est`
        and the configuration stay as they are. */
    method ResetDisturbanceEstimate()
      requires Valid()
      modifies this
      ensures Valid()
      ensures disturbanceEstimate[..] == Zero && fresh(disturbanceEstimate)
      ensures tOld == old(tOld) && dEst == old(dEst)
    {
      disturbanceEstimate := new real[3] [0.0, 0.0, 0.0];
    }
  }
}
