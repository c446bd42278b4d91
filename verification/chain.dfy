/** The joint half of the arm builder: a joint table wiring link 0 rigidly
    to the world and each further link to its predecessor by a hinge. */
module Chain {
  import opened Registry

  /** One end of a joint: the static world, or the body of a link. */
  datatype Attachment = World | Body(link: nat)

  /** A fixed joint has no parameters; a hinge has an anchor and an axis. */
  datatype Kind = Fixed | Hinge(anchor: Vec3, axis: Vec3)

  /** A joint of `kind` attached to `first` and `second`, in the argument
      order of the engine's attach call. */
  datatype Joint = Joint(kind: Kind, first: Attachment, second: Attachment)

  /** The hinges of joints `j` to NUM - 1, in creation order. */
  function HingesFrom(j: nat): (r: seq<Joint>)
    requires 1 <= j <= NUM
    ensures |r| == NUM - j
    ensures forall i | 0 <= i < |r| ::
      r[i] == Joint(Hinge(Anchor(j + i), Axis(j + i)), Body(j + i), Body(j + i - 1))
    decreases NUM - j
  {
    if j == NUM then []
    else [Joint(Hinge(Anchor(j), Axis(j)), Body(j), Body(j - 1))] + HingesFrom(j + 1)
  }

  /** The joint table the builder produces: joint 0 fixes link 0 to the
      world, then joint j hinges link j to link j - 1 at the configured
      anchor and axis. */
  function MakeJoints(): (r: seq<Joint>)
    ensures |r| == NUM
    ensures r[0] == Joint(Fixed, Body(0), World)
    ensures forall j | 1 <= j < NUM ::
      r[j] == Joint(Hinge(Anchor(j), Axis(j)), Body(j), Body(j - 1))
  {
    [Joint(Fixed, Body(0), World)] + HingesFrom(1)
  }

  /** Following parent links from link `i` reaches the world within `hops`
      joints, where the parent of link i is the second end of the joint
      whose first end is link i. */
  predicate ReachesWorld(js: seq<Joint>, i: nat, hops: nat)
    decreases hops
  {
    && hops > 0
    && i < |js|
    && js[i].first == Body(i)
    && (|| js[i].second == World
        || (js[i].second.Body? && ReachesWorld(js, js[i].second.link, hops - 1)))
  }

  /** Link `i` hangs from the world within i + 1 joints. */
  predicate Grounded(js: seq<Joint>, i: nat) {
    ReachesWorld(js, i, i + 1)
  }

  /** A serial kinematic chain: only joint 0 touches the world and it is
      fixed; every other joint is a hinge between a link and its immediate
      predecessor; every link hangs from the world through the chain. */
  predicate SerialChain(js: seq<Joint>) {
    && |js| == NUM
    && js[0].kind.Fixed?
    && (forall j | 0 <= j < |js| :: js[j].first != World)
    && (forall j | 0 <= j < |js| :: js[j].second == World <==> j == 0)
    && (forall j | 1 <= j < |js| ::
          js[j].kind.Hinge? && js[j].first == Body(j) && js[j].second == Body(j - 1))
    && (forall i | 0 <= i < |js| :: Grounded(js, i))
  }

  /** The built table is a serial chain: one fixed joint to the world, and
      no hinge attached to the world or to a non-adjacent link. */
  lemma MakeJointsIsSerialChain()
    ensures SerialChain(MakeJoints())
  {
    var js := MakeJoints();
    forall i | 0 <= i < NUM
      ensures Grounded(js, i)
    {
      BuiltLinkGrounded(js, i);
    }
  }

  /** In a table whose joint 0 fixes link 0 to the world and whose joint j
      hinges link j to link j - 1, link `i` is grounded. */
  lemma {:induction false} BuiltLinkGrounded(js: seq<Joint>, i: nat)
    requires js == MakeJoints() && i < NUM
    ensures Grounded(js, i)
  {
    if i == 0 {
      assert js[0] == Joint(Fixed, Body(0), World);
    } else {
      assert js[i] == Joint(Hinge(Anchor(i), Axis(i)), Body(i), Body(i - 1));
      BuiltLinkGrounded(js, i - 1);
    }
  }

  /** The hinges are exactly joints 1..NUM-1, and each uses the anchor and
      axis configured for its own index. */
  lemma HingesMatchRegistry(j: nat)
    requires j < NUM
    ensures MakeJoints()[j].kind.Hinge? <==> 1 <= j
    ensures 1 <= j ==> MakeJoints()[j].kind.anchor == Anchor(j) && MakeJoints()[j].kind.axis == Axis(j)
  {
    var js := MakeJoints();
    if j == 0 {
      assert js[0] == Joint(Fixed, Body(0), World);
    } else {
      assert js[j] == Joint(Hinge(Anchor(j), Axis(j)), Body(j), Body(j - 1));
    }
  }
}
