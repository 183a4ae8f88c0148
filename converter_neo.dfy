/** The IRIS+ converter: turns a desired 3-D force and yaw rate into the
    four-channel command [roll, pitch, throttle, yaw], and recalibrates the
    neutral (hover) values of the throttle, roll and pitch channels from the
    median of the recent desired forces. */
module ConverterNeo {
  import opened Wrappers
  import opened Vectors
  import opened MedianFilter

  /** numpy.pi, as a double. */
  const Pi: real := 3.141592653589793

  /** A full yaw stick commands 200 degrees per second. */
  const MaxPsiSpeedDeg: real := 200.0
  const MaxAngleDeg: real := 45.0
  const MaxPsiSpeedRad: real := MaxPsiSpeedDeg * Pi / 180.0
  const MaxAngleRad: real := MaxAngleDeg * Pi / 180.0

  /** Safety range of the throttle neutral. */
  const ThrottleNeutralMin: real := 1350.0
  const ThrottleNeutralMax: real := 1600.0
  /** Safety range of the roll and pitch neutrals. */
  const AngleNeutralMin: real := 1440.0
  const AngleNeutralMax: real := 1560.0

  /** Length of the window of the force median filter. */
  const MedianWindow: nat := 70

  /** The numerical library calls of `roll_pitch`, left abstract:
      `numpy.linalg.norm`, `rot_z`, `numpy.arcsin`, `numpy.cos` and
      `numpy.arctan2`. */
  datatype Trig = Trig(
    norm: Vec3 -> real,
    rotZ: real -> Mat3,
    arcsin: real -> real,
    cos: real -> real,
    arctan2: (real, real) -> real)

  /** Which neutral recalibration the converter runs, chosen once when it is
      built. */
  datatype ResetStrategy = Complete | Incomplete

  // ---------------------------------------------------------------------
  // roll_pitch

  /** The force magnitude below which `roll_pitch` ignores the force. */
  function Threshold(gravity: real, mass: real): real {
    0.1 * gravity * mass
  }

  /** `n_des`: the unit direction of the force, or the vertical `e3` when
      the force is too weak to give a reliable direction. */
  function DesiredDirection(trig: Trig, force: Vec3, gravity: real, mass: real): (n: Vec3)
    requires 0.0 <= gravity * mass
    ensures trig.norm(force) <= Threshold(gravity, mass) ==> n == E3
    ensures trig.norm(force) > Threshold(gravity, mass) ==> Scale(trig.norm(force), n) == force
  {
    var norm := trig.norm(force);
    if norm > Threshold(gravity, mass) then
      UnitDirectionScalesBack(force, norm);
      [force[0] / norm, force[1] / norm, force[2] / norm]
    else E3
  }

  /** Dividing a vector by a non-zero magnitude and scaling it back gives
      the vector itself. */
  lemma UnitDirectionScalesBack(force: Vec3, norm: real)
    requires norm != 0.0
    ensures Scale(norm, [force[0] / norm, force[1] / norm, force[2] / norm]) == force
  {
    assert norm * (force[0] / norm) == force[0];
    assert norm * (force[1] / norm) == force[1];
    assert norm * (force[2] / norm) == force[2];
    Vec3Equal(Scale(norm, [force[0] / norm, force[1] / norm, force[2] / norm]), force);
  }

  /** `n_des_rot`: the direction turned by `-psi` about the vertical. */
  function RotatedDirection(trig: Trig, force: Vec3, psi: real, gravity: real, mass: real): (n: Vec3)
    requires 0.0 <= gravity * mass
    ensures trig.norm(force) <= Threshold(gravity, mass) ==> n == MatVec(trig.rotZ(-psi), E3)
    ensures trig.norm(force) > Threshold(gravity, mass) ==>
              n == MatVec(trig.rotZ(-psi), [force[0] / trig.norm(force), force[1] / trig.norm(force), force[2] / trig.norm(force)])
  {
    MatVec(trig.rotZ(-psi), DesiredDirection(trig, force, gravity, mass))
  }

  /** `clip(x / c, -1, 1)`. A zero `c` stands for the IEEE quotient: the
      signed infinity clips to the sign of `x`; 0/0 is taken as 0. */
  function ClippedQuotient(x: real, c: real): (r: real)
    ensures -1.0 <= r <= 1.0
    ensures c != 0.0 && -1.0 <= x / c <= 1.0 ==> r == x / c
    ensures c != 0.0 && x / c > 1.0 ==> r == 1.0
    ensures c != 0.0 && x / c < -1.0 ==> r == -1.0
  {
    if c != 0.0 then Clip(x / c, -1.0, 1.0)
    else if x > 0.0 then 1.0
    else if x < 0.0 then -1.0
    else 0.0
  }

  /** The three values `roll_pitch` hands to `arcsin` and `arctan2`. */
  datatype TrigArguments = TrigArguments(sinPhi: real, sinTheta: real, cosTheta: real)

  /** The arguments of the inverse trigonometric calls, each clipped to
      [-1, 1]; `sin_phi` is the negated y component of the rotated
      direction, and the other two are its x and z components over
      `cos(phi)`. */
  function RollPitchArguments(trig: Trig, force: Vec3, psi: real, gravity: real, mass: real): (a: TrigArguments)
    requires 0.0 <= gravity * mass
    ensures -1.0 <= a.sinPhi <= 1.0 && -1.0 <= a.sinTheta <= 1.0 && -1.0 <= a.cosTheta <= 1.0
    ensures var nRot := RotatedDirection(trig, force, psi, gravity, mass);
            && (-1.0 <= -nRot[1] <= 1.0 ==> a.sinPhi == -nRot[1])
            && (trig.cos(trig.arcsin(a.sinPhi)) == 1.0 ==> a.sinTheta == Clip(nRot[0], -1.0, 1.0) && a.cosTheta == Clip(nRot[2], -1.0, 1.0))
  {
    var nRot := RotatedDirection(trig, force, psi, gravity, mass);
    var sinPhi := Clip(-nRot[1], -1.0, 1.0);
    var phi := trig.arcsin(sinPhi);
    var sinTheta := ClippedQuotient(nRot[0], trig.cos(phi));
    var cosTheta := ClippedQuotient(nRot[2], trig.cos(phi));
    TrigArguments(sinPhi, sinTheta, cosTheta)
  }

  /** `roll_pitch`: the desired roll `phi` and pitch of a force, given the
      current yaw `psi`. */
  function RollPitch(trig: Trig, force: Vec3, psi: real, gravity: real, mass: real): (rp: (real, real))
    requires 0.0 <= gravity * mass
    // `arcsin` and `arctan2` are only ever applied to clipped arguments
    ensures exists s :: -1.0 <= s <= 1.0 && rp.0 == trig.arcsin(s)
    ensures exists st, ct :: -1.0 <= st <= 1.0 && -1.0 <= ct <= 1.0 && rp.1 == trig.arctan2(st, ct)
  {
    var a := RollPitchArguments(trig, force, psi, gravity, mass);
    (trig.arcsin(a.sinPhi), trig.arctan2(a.sinTheta, a.cosTheta))
  }

  /** Below the threshold the force is replaced by `e3`: any two weak forces
      give the same roll and pitch, the ones of the rotated vertical. */
  lemma WeakForceFallsBackToVertical(trig: Trig, f1: Vec3, f2: Vec3, psi: real, gravity: real, mass: real)
    requires 0.0 <= gravity * mass
    requires trig.norm(f1) <= Threshold(gravity, mass) && trig.norm(f2) <= Threshold(gravity, mass)
    ensures RotatedDirection(trig, f1, psi, gravity, mass) == MatVec(trig.rotZ(-psi), E3)
    ensures RollPitch(trig, f1, psi, gravity, mass) == RollPitch(trig, f2, psi, gravity, mass)
  {
  }

  // ---------------------------------------------------------------------
  // input_conveter

  /** The neutral (zero-deflection) values of three channels. */
  datatype Neutrals = Neutrals(throttle: real, roll: real, pitch: real)

  /** Roll channel: neutral plus the compensated roll angle in PWM units. */
  function RollChannel(rollNeutral: real, rollCompensation: real, roll: real): (c: real)
    ensures roll == 0.0 ==> c == rollNeutral
    ensures 0.0 <= rollCompensation * roll ==> rollNeutral <= c
    ensures rollCompensation * roll <= 0.0 ==> c <= rollNeutral
  {
    rollNeutral + rollCompensation * roll * 500.0 / MaxAngleRad
  }

  /** Pitch channel: neutral minus the compensated pitch angle in PWM units. */
  function PitchChannel(pitchNeutral: real, pitchCompensation: real, pitch: real): (c: real)
    ensures pitch == 0.0 ==> c == pitchNeutral
    ensures 0.0 <= pitchCompensation * pitch ==> c <= pitchNeutral
    ensures pitchCompensation * pitch <= 0.0 ==> pitchNeutral <= c
  {
    pitchNeutral - pitchCompensation * pitch * 500.0 / MaxAngleRad
  }

  /** Yaw channel: the yaw rate as a fraction of the maximum rate, times 500. */
  function YawChannel(yawRate: real): (c: real)
    ensures yawRate == 0.0 ==> c == 0.0
    ensures yawRate == MaxPsiSpeedRad ==> c == 500.0
    ensures yawRate == -MaxPsiSpeedRad ==> c == -500.0
    ensures (0.0 <= yawRate <==> 0.0 <= c)
  {
    yawRate * 500.0 / MaxPsiSpeedRad
  }

  /** Throttle channel: the force along the body's thrust axis, scaled so
      that the hover force `gravity * mass` gives the throttle neutral. */
  function ThrottleChannel(force: Vec3, rotation: Mat3, throttleNeutral: real, gravity: real, mass: real): (c: real)
    requires gravity * mass != 0.0
    ensures Dot(force, MatVec(rotation, E3)) == gravity * mass ==> c == throttleNeutral
    ensures Dot(force, MatVec(rotation, E3)) == 0.0 ==> c == 0.0
  {
    Dot(force, MatVec(rotation, E3)) * throttleNeutral / (gravity * mass)
  }

  /** The four channels [roll, pitch, throttle, yaw] before clipping. */
  function RawCommand(n: Neutrals, rollCompensation: real, pitchCompensation: real, gravity: real, mass: real,
                      rotation: Mat3, rollPitch: (real, real), force: Vec3, yawRate: real): (u: seq<real>)
    requires gravity * mass != 0.0
    ensures |u| == 4
    // level desired attitude and no yaw rate: the neutrals and a zero yaw
    ensures rollPitch == (0.0, 0.0) && yawRate == 0.0 ==> u[0] == n.roll && u[1] == n.pitch && u[3] == 0.0
    // the hover force along the thrust axis gives the throttle neutral
    ensures Dot(force, MatVec(rotation, E3)) == gravity * mass ==> u[2] == n.throttle
  {
    [RollChannel(n.roll, rollCompensation, rollPitch.0),
     PitchChannel(n.pitch, pitchCompensation, rollPitch.1),
     ThrottleChannel(force, rotation, n.throttle, gravity, mass),
     YawChannel(yawRate)]
  }

  /** The final clip: roll, pitch and yaw to [-0.25, 0.25], throttle to
      [0, 1.5]; a channel already in its range passes unchanged. */
  function ClipCommand(u: seq<real>): (c: seq<real>)
    requires |u| == 4
    ensures |c| == 4
    ensures -0.25 <= c[0] <= 0.25 && -0.25 <= c[1] <= 0.25 && 0.0 <= c[2] <= 1.5 && -0.25 <= c[3] <= 0.25
    ensures forall i :: 0 <= i < 4 && i != 2 && -0.25 <= u[i] <= 0.25 ==> c[i] == u[i]
    ensures 0.0 <= u[2] <= 1.5 ==> c[2] == u[2]
    ensures u[2] > 1.5 ==> c[2] == 1.5
  {
    [Clip(u[0], -0.25, 0.25), Clip(u[1], -0.25, 0.25), Clip(u[2], 0.0, 1.5), Clip(u[3], -0.25, 0.25)]
  }

  /** The names the converter's module binds at the top level: `numpy`,
      `rospy` and the utilities imported as `uts`. */
  const ModuleNames: set<string> := {"numpy", "rospy", "uts"}

  /** An exception raised while a Python name is looked up. */
  datatype LookupError = NameError(name: string)

  /** The final clip as written: it calls `np.clip`, so it runs only when
      the module binds `np`. */
  function ClipCommandAsWritten(u: seq<real>, names: set<string>): (r: Result<seq<real>, LookupError>)
    requires |u| == 4
    ensures "np" in names <==> r.Success?
    ensures r.Success? ==> r.value == ClipCommand(u)
    ensures r.Failure? ==> r.error == NameError("np")
  {
    if "np" in names then Success(ClipCommand(u)) else Failure(NameError("np"))
  }

  /** With the module's own bindings the clip step raises `NameError` for
      every command, so `input_conveter` never returns. */
  lemma {:induction false} ClipCommandAsWrittenRaises(u: seq<real>)
    requires |u| == 4
    ensures ClipCommandAsWritten(u, ModuleNames) == Failure(NameError("np"))
  {
    assert |"np"| == 2 && |"uts"| == 3 && |"numpy"| == 5 && |"rospy"| == 5;
    assert "np" !in ModuleNames;
  }

  /** In level attitude the hover force `(0, 0, mass * gravity)` gives, before
      clipping, exactly the throttle neutral. */
  lemma HoverThrottleIsNeutral(throttleNeutral: real, gravity: real, mass: real)
    requires gravity * mass != 0.0
    ensures ThrottleChannel([0.0, 0.0, mass * gravity], Identity, throttleNeutral, gravity, mass) == throttleNeutral
  {
    assert Dot([0.0, 0.0, mass * gravity], MatVec(Identity, E3)) == gravity * mass;
  }

  /** With a neutral inside its safety range [1350, 1600], that same hover
      force drives the throttle channel to its 1.5 ceiling. */
  lemma CalibratedHoverThrottleSaturates(n: Neutrals, rollCompensation: real, pitchCompensation: real,
                                         gravity: real, mass: real, rollPitch: (real, real), yawRate: real)
    requires gravity * mass != 0.0
    requires ThrottleNeutralMin <= n.throttle <= ThrottleNeutralMax
    ensures ClipCommand(RawCommand(n, rollCompensation, pitchCompensation, gravity, mass, Identity, rollPitch,
                                   [0.0, 0.0, mass * gravity], yawRate))[2] == 1.5
  {
    HoverThrottleIsNeutral(n.throttle, gravity, mass);
  }

  /** A roll neutral inside its safety range [1440, 1560] drives the clipped
      roll channel of a level command to its 0.25 ceiling; the same holds for
      pitch. */
  lemma CalibratedNeutralsSaturateAngles(n: Neutrals, rollCompensation: real, pitchCompensation: real,
                                         gravity: real, mass: real, rotation: Mat3, force: Vec3)
    requires gravity * mass != 0.0
    requires AngleNeutralMin <= n.roll <= AngleNeutralMax && AngleNeutralMin <= n.pitch <= AngleNeutralMax
    ensures var c := ClipCommand(RawCommand(n, rollCompensation, pitchCompensation, gravity, mass, rotation, (0.0, 0.0),
                                            force, 0.0));
            c[0] == 0.25 && c[1] == 0.25
  {
    var u := RawCommand(n, rollCompensation, pitchCompensation, gravity, mass, rotation, (0.0, 0.0), force, 0.0);
    assert u[0] == n.roll && u[1] == n.pitch;
  }

  // ---------------------------------------------------------------------
  // Neutral recalibration

  /** The throttle neutral rescaled by the ratio of the median vertical force
      to the hover force, then clamped to its safety range. */
  function RescaledThrottleNeutral(throttleNeutral: real, medianForceZ: real, mass: real, gravity: real): (r: real)
    requires mass * gravity != 0.0
    ensures ThrottleNeutralMin <= r <= ThrottleNeutralMax
    ensures var scaled := throttleNeutral * medianForceZ / (mass * gravity);
            && (ThrottleNeutralMin <= scaled <= ThrottleNeutralMax ==> r == scaled)
            && (scaled > ThrottleNeutralMax ==> r == ThrottleNeutralMax)
            && (scaled < ThrottleNeutralMin ==> r == ThrottleNeutralMin)
  {
    Clip(throttleNeutral * medianForceZ / (mass * gravity), ThrottleNeutralMin, ThrottleNeutralMax)
  }

  /** Clamping the scaled neutral gives `RescaledThrottleNeutral`; lets a
      method that scales and clamps in two steps meet its contract. */
  lemma ClampScaledNeutral(throttleNeutral: real, medianForceZ: real, mass: real, gravity: real, scaled: real)
    requires mass * gravity != 0.0
    requires scaled == throttleNeutral * medianForceZ / (mass * gravity)
    ensures Clip(scaled, ThrottleNeutralMin, ThrottleNeutralMax)
            == RescaledThrottleNeutral(throttleNeutral, medianForceZ, mass, gravity)
  {
  }

  /** A median vertical force of twice the hover force doubles the neutral
      before it is clamped. */
  lemma DoubleForceDoublesNeutral(throttleNeutral: real, mass: real, gravity: real)
    requires mass * gravity != 0.0
    ensures RescaledThrottleNeutral(throttleNeutral, 2.0 * mass * gravity, mass, gravity)
            == Clip(2.0 * throttleNeutral, ThrottleNeutralMin, ThrottleNeutralMax)
  {
    assert throttleNeutral * (2.0 * mass * gravity) / (mass * gravity) == 2.0 * throttleNeutral;
  }

  /** The hover force itself leaves an in-range neutral where it is. */
  lemma HoverForceKeepsNeutral(throttleNeutral: real, mass: real, gravity: real)
    requires mass * gravity != 0.0
    requires ThrottleNeutralMin <= throttleNeutral <= ThrottleNeutralMax
    ensures RescaledThrottleNeutral(throttleNeutral, mass * gravity, mass, gravity) == throttleNeutral
  {
    assert throttleNeutral * (mass * gravity) / (mass * gravity) == throttleNeutral;
  }

  /** The roll neutral moved to where the roll channel would sit for the
      desired roll, clamped to [1440, 1560]. */
  function CompensatedRollNeutral(rollNeutral: real, rollCompensation: real, roll: real): (r: real)
    ensures AngleNeutralMin <= r <= AngleNeutralMax
    ensures AngleNeutralMin <= RollChannel(rollNeutral, rollCompensation, roll) <= AngleNeutralMax ==>
              r == RollChannel(rollNeutral, rollCompensation, roll)
  {
    Clip(RollChannel(rollNeutral, rollCompensation, roll), AngleNeutralMin, AngleNeutralMax)
  }

  /** The pitch neutral moved to where the pitch channel would sit for the
      desired pitch, clamped to [1440, 1560]. */
  function CompensatedPitchNeutral(pitchNeutral: real, pitchCompensation: real, pitch: real): (r: real)
    ensures AngleNeutralMin <= r <= AngleNeutralMax
    ensures AngleNeutralMin <= PitchChannel(pitchNeutral, pitchCompensation, pitch) <= AngleNeutralMax ==>
              r == PitchChannel(pitchNeutral, pitchCompensation, pitch)
  {
    Clip(PitchChannel(pitchNeutral, pitchCompensation, pitch), AngleNeutralMin, AngleNeutralMax)
  }

  /** The roll correction is added and the pitch correction subtracted: a
      pitch of `-a` moves the pitch neutral as a roll of `a` moves the roll
      neutral, and with a non-negative gain a larger angle never lowers the
      roll neutral nor raises the pitch neutral. */
  lemma CompensationSigns(neutral: real, gain: real, a: real, b: real)
    requires 0.0 <= gain && a <= b
    ensures CompensatedPitchNeutral(neutral, gain, -a) == CompensatedRollNeutral(neutral, gain, a)
    ensures CompensatedRollNeutral(neutral, gain, a) <= CompensatedRollNeutral(neutral, gain, b)
    ensures CompensatedPitchNeutral(neutral, gain, b) <= CompensatedPitchNeutral(neutral, gain, a)
  {
    assert gain * a <= gain * b;
    assert gain * a * 500.0 / MaxAngleRad <= gain * b * 500.0 / MaxAngleRad;
    assert gain * -a * 500.0 / MaxAngleRad == -(gain * a * 500.0 / MaxAngleRad);
  }

  // ---------------------------------------------------------------------
  // The converter object

  class IrisPlusConverter {
    /** Gravity as read from the parameter service when the class is loaded. */
    const gravity: real
    const forceMedian: MedianFilter3D
    var throttleNeutral: real
    var rollNeutral: real
    var pitchNeutral: real
    var totalMass: real
    /** Roll, pitch and yaw in radians. */
    var eulerAngles: Vec3
    var rotationMatrix: Mat3
    const rollCompensation: real
    const pitchCompensation: real
    /** The bound `reset_k_trottle_neutral`, fixed at construction. */
    const resetStrategy: ResetStrategy
    const trig: Trig

    ghost predicate Valid()
      reads this, forceMedian
    {
      forceMedian.Valid() && forceMedian.size == MedianWindow
    }

    function CurrentNeutrals(): Neutrals
      reads this
    {
      Neutrals(throttleNeutral, rollNeutral, pitchNeutral)
    }

    /** The values the parameter service would supply are explicit here. */
    constructor (throttleNeutral: real, totalMass: real, gravity: real,
                 rollNeutral: real, pitchNeutral: real,
                 rollCompensation: real, pitchCompensation: real,
                 completeNeutralReset: bool, median: seq<Vec3> -> Vec3, trig: Trig)
      ensures Valid() && fresh(forceMedian)
      ensures forceMedian.window == [] && forceMedian.median == median
      ensures this.throttleNeutral == throttleNeutral && this.rollNeutral == rollNeutral && this.pitchNeutral == pitchNeutral
      ensures this.totalMass == totalMass && this.gravity == gravity && this.trig == trig
      ensures this.rollCompensation == rollCompensation && this.pitchCompensation == pitchCompensation
      ensures eulerAngles == Zero && rotationMatrix == Identity
      ensures resetStrategy == if completeNeutralReset then Complete else Incomplete
    {
      this.gravity := gravity;
      forceMedian := new MedianFilter3D(MedianWindow, median);
      this.throttleNeutral := throttleNeutral;
      this.rollNeutral := rollNeutral;
      this.pitchNeutral := pitchNeutral;
      this.totalMass := totalMass;
      eulerAngles := Zero;
      rotationMatrix := Identity;
      this.rollCompensation := rollCompensation;
      this.pitchCompensation := pitchCompensation;
      resetStrategy := if completeNeutralReset then Complete else Incomplete;
      this.trig := trig;
    }

    method SetMass(mass: real)
      requires Valid()
      modifies this
      ensures Valid()
      ensures totalMass == mass
      ensures CurrentNeutrals() == old(CurrentNeutrals())
      ensures eulerAngles == old(eulerAngles) && rotationMatrix == old(rotationMatrix)
    {
      totalMass := mass;
    }

    method GetKThrottleNeutral() returns (r: real)
      ensures r == throttleNeutral
    {
      r := throttleNeutral;
    }

    /** `roll_pitch` with the current yaw, gravity and mass. */
    function RollPitchNow(force: Vec3): (real, real)
      reads this
      requires 0.0 <= gravity * totalMass
    {
      RollPitch(trig, force, eulerAngles[2], gravity, totalMass)
    }

    /** Rescale the throttle neutral from the median vertical force only. */
    method IncompleteResetKTrottleNeutral()
      requires Valid() && 0.0 < gravity * totalMass
      modifies this
      ensures Valid()
      ensures totalMass == old(totalMass) && eulerAngles == old(eulerAngles) && rotationMatrix == old(rotationMatrix)
      ensures throttleNeutral == RescaledThrottleNeutral(old(throttleNeutral), forceMedian.Output()[2], totalMass, gravity)
      ensures ThrottleNeutralMin <= throttleNeutral <= ThrottleNeutralMax
      ensures rollNeutral == old(rollNeutral) && pitchNeutral == old(pitchNeutral)
    {
      var medianForce := forceMedian.Output();
      var medianForceZ := medianForce[2];
      var neutral := throttleNeutral;
      var scaled := neutral * medianForceZ / (totalMass * gravity);
      ClampScaledNeutral(neutral, medianForceZ, totalMass, gravity, scaled);
      throttleNeutral := scaled;
      // for safety, bound the value
      throttleNeutral := Clip(throttleNeutral, ThrottleNeutralMin, ThrottleNeutralMax);
      assert medianForce == forceMedian.Output();
    }

    /** Rescale the throttle neutral as above, then shift the roll and pitch
        neutrals by the roll and pitch the median force asks for. */
    method CompleteResetKTrottleNeutral()
      requires Valid() && 0.0 < gravity * totalMass
      modifies this
      ensures Valid()
      ensures totalMass == old(totalMass) && eulerAngles == old(eulerAngles) && rotationMatrix == old(rotationMatrix)
      ensures var medianForce := forceMedian.Output();
              var rp := RollPitch(trig, medianForce, eulerAngles[2], gravity, totalMass);
              && throttleNeutral == RescaledThrottleNeutral(old(throttleNeutral), medianForce[2], totalMass, gravity)
              && rollNeutral == CompensatedRollNeutral(old(rollNeutral), rollCompensation, rp.0)
              && pitchNeutral == CompensatedPitchNeutral(old(pitchNeutral), pitchCompensation, rp.1)
      ensures ThrottleNeutralMin <= throttleNeutral <= ThrottleNeutralMax
      ensures AngleNeutralMin <= rollNeutral <= AngleNeutralMax && AngleNeutralMin <= pitchNeutral <= AngleNeutralMax
    {
      var medianForce := forceMedian.Output();
      var medianForceZ := medianForce[2];
      var neutral := throttleNeutral;
      var scaled := neutral * medianForceZ / (totalMass * gravity);
      ClampScaledNeutral(neutral, medianForceZ, totalMass, gravity, scaled);
      throttleNeutral := scaled;
      throttleNeutral := Clip(throttleNeutral, ThrottleNeutralMin, ThrottleNeutralMax);

      var rp := RollPitchNow(medianForce);
      var rollDesiredMedian, pitchDesiredMedian := rp.0, rp.1;
      // the neutrals move to where the channels would sit for the median force
      rollNeutral := RollChannel(rollNeutral, rollCompensation, rollDesiredMedian);
      rollNeutral := Clip(rollNeutral, AngleNeutralMin, AngleNeutralMax);
      pitchNeutral := PitchChannel(pitchNeutral, pitchCompensation, pitchDesiredMedian);
      pitchNeutral := Clip(pitchNeutral, AngleNeutralMin, AngleNeutralMax);
      assert medianForce == forceMedian.Output();
    }

    /** `reset_k_trottle_neutral`: the strategy chosen at construction. */
    method ResetKTrottleNeutral()
      requires Valid() && 0.0 < gravity * totalMass
      modifies this
      ensures Valid()
      ensures totalMass == old(totalMass) && eulerAngles == old(eulerAngles) && rotationMatrix == old(rotationMatrix)
      ensures ThrottleNeutralMin <= throttleNeutral <= ThrottleNeutralMax
      ensures throttleNeutral == RescaledThrottleNeutral(old(throttleNeutral), forceMedian.Output()[2], totalMass, gravity)
      ensures resetStrategy == Incomplete ==> rollNeutral == old(rollNeutral) && pitchNeutral == old(pitchNeutral)
      ensures resetStrategy == Complete ==>
                var rp := RollPitch(trig, forceMedian.Output(), eulerAngles[2], gravity, totalMass);
                && rollNeutral == CompensatedRollNeutral(old(rollNeutral), rollCompensation, rp.0)
                && pitchNeutral == CompensatedPitchNeutral(old(pitchNeutral), pitchCompensation, rp.1)
    {
      match resetStrategy
      case Complete => CompleteResetKTrottleNeutral();
      case Incomplete => IncompleteResetKTrottleNeutral();
    }

    /** `set_k_trottle_neutral`: a direct override, still clamped. */
    method SetKTrottleNeutral(value: real)
      requires Valid()
      modifies this
      ensures Valid()
      ensures throttleNeutral == Clip(value, ThrottleNeutralMin, ThrottleNeutralMax)
      ensures ThrottleNeutralMin <= throttleNeutral <= ThrottleNeutralMax
      ensures ThrottleNeutralMin <= value <= ThrottleNeutralMax ==> throttleNeutral == value
      ensures rollNeutral == old(rollNeutral) && pitchNeutral == old(pitchNeutral)
      ensures totalMass == old(totalMass) && eulerAngles == old(eulerAngles) && rotationMatrix == old(rotationMatrix)
    {
      throttleNeutral := value;
      // for safety, bound the value
      throttleNeutral := Clip(throttleNeutral, ThrottleNeutralMin, ThrottleNeutralMax);
    }

    /** `set_rotation_matrix`: the orientation is replaced as a whole by the
        rotation matrix and Euler angles derived from an odometry sample. */
    method SetRotationMatrix(rotation: Mat3, euler: Vec3)
      requires Valid()
      modifies this
      ensures Valid()
      ensures rotationMatrix == rotation && eulerAngles == euler
      ensures CurrentNeutrals() == old(CurrentNeutrals()) && totalMass == old(totalMass)
    {
      rotationMatrix := rotation;
      eulerAngles := euler;
    }

    /** `input_conveter`: feed the force to the median filter and compute
        the clipped four-channel command from the current orientation and
        neutrals. */
    method InputConveter(force: Vec3, yawRateDesired: real) returns (u: array<real>)
      requires Valid() && 0.0 < gravity * totalMass
      modifies this, forceMedian
      ensures Valid() && fresh(u) && u.Length == 4
      ensures CurrentNeutrals() == old(CurrentNeutrals()) && totalMass == old(totalMass)
      ensures eulerAngles == old(eulerAngles) && rotationMatrix == old(rotationMatrix)
      ensures forceMedian.window == Slide(old(forceMedian.window), force, MedianWindow)
      ensures u[..] == ClipCommand(RawCommand(CurrentNeutrals(), rollCompensation, pitchCompensation, gravity, totalMass,
                                             rotationMatrix, RollPitchNow(force), force, yawRateDesired))
      ensures -0.25 <= u[0] <= 0.25 && -0.25 <= u[1] <= 0.25 && 0.0 <= u[2] <= 1.5 && -0.25 <= u[3] <= 0.25
    {
      forceMedian.UpdateData(force);

      var rp := RollPitchNow(force);
      var rollDesired, pitchDesired := rp.0, rp.1;

      // [roll, pitch, throttle, yaw], in PWM-like units around the neutrals
      var rollChannel := RollChannel(rollNeutral, rollCompensation, rollDesired);
      var pitchChannel := PitchChannel(pitchNeutral, pitchCompensation, pitchDesired);
      var yawChannel := YawChannel(yawRateDesired);
      var throttleChannel := ThrottleChannel(force, rotationMatrix, throttleNeutral, gravity, totalMass);

      // bound every channel to its limits
      u := new real[4];
      u[0] := Clip(rollChannel, -0.25, 0.25);
      u[1] := Clip(pitchChannel, -0.25, 0.25);
      u[2] := Clip(throttleChannel, 0.0, 1.5);
      u[3] := Clip(yawChannel, -0.25, 0.25);
      Seq4Equal(u[..], ClipCommand([rollChannel, pitchChannel, throttleChannel, yawChannel]));
    }
  }
}
