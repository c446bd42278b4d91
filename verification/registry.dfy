/** Static configuration of the four-link arm: the number of links and the
    hinge anchor and axis tables that the chain builder reads. */
module Registry {

  /** Number of links, and so of joints (joint 0 fixed, joints 1..3 hinges). */
  const NUM: nat := 4

  /** A point or direction in world coordinates. */
  datatype Vec3 = Vec3(x: real, y: real, z: real) {
    /** Squared Euclidean length. */
    function Norm2(): real {
      x * x + y * y + z * z
    }
  }

  /** Hinge anchor coordinates, indexed by joint (entry 0 is unused). */
  const AnchorX: seq<real> := [0.00, 0.00, 0.00, 0.00]
  const AnchorY: seq<real> := [0.00, 0.00, 0.00, 0.00]
  const AnchorZ: seq<real> := [0.00, 0.10, 1.00, 2.00]

  /** Hinge axis components, indexed by joint (entry 0 is unused). */
  const AxisX: seq<real> := [0.0, 0.0, 0.0, 0.0]
  const AxisY: seq<real> := [0.0, 0.0, 1.0, 1.0]
  const AxisZ: seq<real> := [1.0, 1.0, 0.0, 0.0]

  /** The anchor point configured for joint `j`. */
  function Anchor(j: nat): Vec3
    requires j < NUM
  {
    Vec3(AnchorX[j], AnchorY[j], AnchorZ[j])
  }

  /** The rotation axis configured for joint `j`. */
  function Axis(j: nat): Vec3
    requires j < NUM
  {
    Vec3(AxisX[j], AxisY[j], AxisZ[j])
  }

  /** Every hinge is given a unit rotation axis: joint 1 turns about the
      vertical z axis (yaw), joints 2 and 3 about the y axis (pitch). */
  lemma HingeAxesAreUnit(j: nat)
    requires 1 <= j < NUM
    ensures Axis(j).Norm2() == 1.0
    ensures j == 1 ==> Axis(j) == Vec3(0.0, 0.0, 1.0)
    ensures j >= 2 ==> Axis(j) == Vec3(0.0, 1.0, 0.0)
  {
  }

  /** The hinge anchors lie on the vertical line x = y = 0 along which the
      links are stacked, and each lies strictly above the one below it. */
  lemma AnchorsOnBaseAxis(j: nat)
    requires 1 <= j < NUM
    ensures Anchor(j).x == 0.0 && Anchor(j).y == 0.0
    ensures j >= 2 ==> Anchor(j - 1).z < Anchor(j).z
  {
  }
}
