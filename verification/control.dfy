/** The proportional controller: one velocity command with a force cap per
    hinge joint, computed from the targets and the engine's hinge angles. */
module Control {
  import opened Registry
  import opened Target
  import opened Chain

  /** Proportional gain. */
  const Gain: real := 10.0

  /** Maximum motor force issued with every command. */
  const FMax: real := 100.0

  /** The two hinge parameters set for `joint` in one tick: the desired
      angular velocity and the motor's force cap. */
  datatype HingeCommand = HingeCommand(joint: nat, vel: real, fMax: real)

  /** Commands for joints `j` to NUM - 1, in loop order. `hingeAngle(j)` is
      the engine's current reading of hinge joint j. */
  function CommandsFrom(theta: Angles, hingeAngle: nat -> real, j: nat): (r: seq<HingeCommand>)
    requires 1 <= j <= NUM
    ensures |r| == NUM - j
    ensures forall i | 0 <= i < |r| :: r[i].joint == j + i && r[i].fMax == FMax
    ensures forall i | 0 <= i < |r| :: r[i].vel == Gain * (theta[j + i] - hingeAngle(j + i))
    decreases NUM - j
  {
    if j == NUM then []
    else
      var error := theta[j] - hingeAngle(j);
      [HingeCommand(j, Gain * error, FMax)] + CommandsFrom(theta, hingeAngle, j + 1)
  }

  /** One control step: hinge joints 1..NUM-1 each receive, in order, the
      velocity Gain * (target - angle) and the force cap FMax; the fixed
      joint 0 receives nothing. */
  function Pcontrol(theta: Angles, hingeAngle: nat -> real): (r: seq<HingeCommand>)
    ensures |r| == NUM - 1
    ensures forall i | 0 <= i < |r| :: r[i].joint == i + 1 && r[i].fMax == FMax
    ensures forall i | 0 <= i < |r| :: r[i].vel == Gain * (theta[i + 1] - hingeAngle(i + 1))
  {
    CommandsFrom(theta, hingeAngle, 1)
  }

  /** Every command addresses a hinge of the built chain, and every hinge
      is addressed by exactly one command: the fixed joint is never driven. */
  lemma CommandsAddressHinges(theta: Angles, hingeAngle: nat -> real)
    ensures forall c | c in Pcontrol(theta, hingeAngle) ::
      c.joint < NUM && MakeJoints()[c.joint].kind.Hinge?
    ensures forall j | 0 <= j < NUM && MakeJoints()[j].kind.Hinge? ::
      exists c :: c in Pcontrol(theta, hingeAngle) && c.joint == j
    ensures forall i, k | 0 <= i < k < |Pcontrol(theta, hingeAngle)| ::
      Pcontrol(theta, hingeAngle)[i].joint != Pcontrol(theta, hingeAngle)[k].joint
  {
  }

  /** The commanded velocity has the sign of the tracking error: positive,
      zero or negative exactly when the target is above, at or below the
      current angle. */
  lemma VelocitySignFollowsError(theta: Angles, hingeAngle: nat -> real, j: nat)
    requires 1 <= j < NUM
    ensures var v := Pcontrol(theta, hingeAngle)[j - 1].vel;
      && (v > 0.0 <==> theta[j] > hingeAngle(j))
      && (v == 0.0 <==> theta[j] == hingeAngle(j))
      && (v < 0.0 <==> theta[j] < hingeAngle(j))
  {
  }

  /** With every hinge at its target, every commanded velocity is zero. */
  lemma AtTargetsAllStill(theta: Angles, hingeAngle: nat -> real)
    requires forall j | 1 <= j < NUM :: hingeAngle(j) == theta[j]
    ensures forall c | c in Pcontrol(theta, hingeAngle) :: c.vel == 0.0
  {
  }

  /** The joints are controlled independently: the command for joint j
      depends on its own target and its own angle only, never on joint 0's
      target or angle or on the other joints. */
  lemma Decoupled(theta1: Angles, a1: nat -> real, theta2: Angles, a2: nat -> real, j: nat)
    requires 1 <= j < NUM
    requires theta1[j] == theta2[j] && a1(j) == a2(j)
    ensures Pcontrol(theta1, a1)[j - 1] == Pcontrol(theta2, a2)[j - 1]
  {
  }

  /** The velocity is not saturated: for any bound there is a hinge angle
      at which the commanded velocity exceeds it, while the force cap stays
      FMax. */
  lemma VelocityUnclamped(theta: Angles, j: nat, bound: real)
    requires 1 <= j < NUM
    ensures var a := theta[j] - (if bound < 0.0 then 1.0 else bound + 1.0);
      var c := Pcontrol(theta, _ => a)[j - 1];
      c.vel > bound && c.fMax == FMax
  {
  }
}
