/** The per-frame step driver and the callback session around it. The
    physics engine is a pair of parameters over an opaque engine state `S`:
    `hingeAngle(s, j)` reads hinge joint j, and `step(s, cmds, dt)` applies
    the hinge commands and integrates the world by `dt` seconds. */
module StepDriver {
  import opened Registry
  import opened Target
  import opened Control

  /** Fixed integration step, in simulated seconds. */
  const TimeStep: real := 0.01

  /** The hinge angles of engine state `s`, as the controller reads them. */
  function AnglesOf<S>(hingeAngle: (S, nat) -> real, s: S): nat -> real {
    (j: nat) => hingeAngle(s, j)
  }

  /** Outcome of one frame: the engine state after the step and the
      commands issued before it. */
  datatype Frame<S> = Frame(next: S, issued: seq<HingeCommand>)

  /** One frame: control first, from the angles of the state before the
      step, then exactly one integration step that receives those commands. */
  function SimLoop<S>(theta: Angles, s: S, hingeAngle: (S, nat) -> real,
                      step: (S, seq<HingeCommand>, real) -> S): (r: Frame<S>)
    ensures r.next == step(s, r.issued, TimeStep)
    ensures |r.issued| == NUM - 1
    ensures forall i | 0 <= i < |r.issued| ::
      r.issued[i].joint == i + 1 && r.issued[i].fMax == FMax
    ensures forall i | 0 <= i < |r.issued| ::
      r.issued[i].vel == Gain * (theta[i + 1] - hingeAngle(s, i + 1))
  {
    var cmds := Pcontrol(theta, AnglesOf(hingeAngle, s));
    Frame(step(s, cmds, TimeStep), cmds)
  }

  /** The commands of a frame are fixed by the targets and the pre-step
      hinge angles alone: two states that read alike give the same commands
      whatever the engine does in its step. */
  lemma CommandsFromPreStepAngles<S>(theta: Angles, s1: S, s2: S, hingeAngle: (S, nat) -> real,
                                     step1: (S, seq<HingeCommand>, real) -> S,
                                     step2: (S, seq<HingeCommand>, real) -> S)
    requires forall j | 1 <= j < NUM :: hingeAngle(s1, j) == hingeAngle(s2, j)
    ensures SimLoop(theta, s1, hingeAngle, step1).issued == SimLoop(theta, s2, hingeAngle, step2).issued
  {
    var r1 := SimLoop(theta, s1, hingeAngle, step1).issued;
    var r2 := SimLoop(theta, s2, hingeAngle, step2).issued;
    assert forall i | 0 <= i < NUM - 1 :: r1[i] == r2[i];
  }

  /** An event of the simulation driver: a key press delivered to the
      command callback, or a frame delivered to the step callback. */
  datatype Event = Key(code: int) | Tick

  /** Everything the callbacks share: the targets, the engine state, and
      the log of hinge commands issued so far. */
  datatype Session<S> = Session(theta: Angles, engine: S, issued: seq<HingeCommand>)

  /** A well-formed command log entry: a hinge joint with the fixed cap. */
  predicate HingeCommandOk(c: HingeCommand) {
    1 <= c.joint < NUM && c.fMax == FMax
  }

  /** Deliver one event: a key goes to the command callback, a frame to the
      step callback. */
  function Dispatch<S>(sess: Session<S>, e: Event, hingeAngle: (S, nat) -> real,
                       step: (S, seq<HingeCommand>, real) -> S): (r: Session<S>)
    ensures e.Key? ==> r.theta == Command(sess.theta, e.code)
    ensures e.Key? ==> r.engine == sess.engine && r.issued == sess.issued
    ensures e.Tick? ==> r.theta == sess.theta
    ensures e.Tick? ==> |r.issued| == |sess.issued| + (NUM - 1) && r.issued[..|sess.issued|] == sess.issued
    ensures e.Tick? ==> forall k | |sess.issued| <= k < |r.issued| :: HingeCommandOk(r.issued[k])
    ensures e.Tick? ==> r.engine == step(sess.engine, r.issued[|sess.issued|..], TimeStep)
    ensures e.Tick? ==> r.issued[|sess.issued|..] == Pcontrol(sess.theta, AnglesOf(hingeAngle, sess.engine))
  {
    match e
    case Key(code) => sess.(theta := Command(sess.theta, code))
    case Tick =>
      var f := SimLoop(sess.theta, sess.engine, hingeAngle, step);
      Session(sess.theta, f.next, sess.issued + f.issued)
  }

  /** Deliver a stream of events in order. */
  function Run<S>(sess: Session<S>, events: seq<Event>, hingeAngle: (S, nat) -> real,
                  step: (S, seq<HingeCommand>, real) -> S): Session<S>
    decreases |events|
  {
    if |events| == 0 then sess
    else Run(Dispatch(sess, events[0], hingeAngle, step), events[1..], hingeAngle, step)
  }

  /** The number of frames in an event stream. */
  function Ticks(events: seq<Event>): nat
    decreases |events|
  {
    if |events| == 0 then 0
    else (if events[0].Tick? then 1 else 0) + Ticks(events[1..])
  }

  /** The key codes of an event stream, in order. */
  function KeysOf(events: seq<Event>): seq<int>
    decreases |events|
  {
    if |events| == 0 then []
    else if events[0].Key? then [events[0].code] + KeysOf(events[1..])
    else KeysOf(events[1..])
  }

  /** Extracting key codes preserves their order across concatenation:
      the keys of a stream followed by key `c` are its keys followed by `c`,
      and a frame adds no key. */
  lemma {:induction false} KeysOfAppend(a: seq<Event>, b: seq<Event>)
    ensures KeysOf(a + b) == KeysOf(a) + KeysOf(b)
    decreases |a|
  {
    if |a| > 0 {
      assert (a + b)[1..] == a[1..] + b;
      KeysOfAppend(a[1..], b);
    } else {
      assert a + b == b;
    }
  }

  /** The targets after a session are the key presses applied to the
      starting targets, whatever the engine did: frames never change them. */
  lemma {:induction false} RunTargetsFollowKeys<S>(sess: Session<S>, events: seq<Event>,
                                                  hingeAngle: (S, nat) -> real,
                                                  step: (S, seq<HingeCommand>, real) -> S)
    ensures Run(sess, events, hingeAngle, step).theta == ApplyKeys(sess.theta, KeysOf(events))
    decreases |events|
  {
    if |events| > 0 {
      var next := Dispatch(sess, events[0], hingeAngle, step);
      RunTargetsFollowKeys(next, events[1..], hingeAngle, step);
    }
  }


  /** A session only appends to the command log, NUM - 1 commands per
      frame, each for a hinge joint and each with force cap FMax. */
  lemma {:induction false} RunLogsHingeCommands<S>(sess: Session<S>, events: seq<Event>,
                                                  hingeAngle: (S, nat) -> real,
                                                  step: (S, seq<HingeCommand>, real) -> S)
    ensures var r := Run(sess, events, hingeAngle, step);
      && |r.issued| == |sess.issued| + (NUM - 1) * Ticks(events)
      && r.issued[..|sess.issued|] == sess.issued
      && forall k | |sess.issued| <= k < |r.issued| :: HingeCommandOk(r.issued[k])
    decreases |events|
  {
    if |events| > 0 {
      var next := Dispatch(sess, events[0], hingeAngle, step);
      RunLogsHingeCommands(next, events[1..], hingeAngle, step);
      var r := Run(next, events[1..], hingeAngle, step);
      assert r.issued[..|next.issued|] == next.issued;
      assert next.issued[..|sess.issued|] == sess.issued;
      forall k | |sess.issued| <= k < |next.issued|
        ensures HingeCommandOk(next.issued[k])
      {
        assert next.issued == sess.issued + SimLoop(sess.theta, sess.engine, hingeAngle, step).issued;
      }
      assert forall k | |sess.issued| <= k < |next.issued| :: r.issued[k] == next.issued[k];
    }
  }

  /** Engine state `s` holds every hinge at its target. */
  predicate AtTargets<S>(theta: Angles, s: S, hingeAngle: (S, nat) -> real) {
    forall j | 1 <= j < NUM :: hingeAngle(s, j) == theta[j]
  }

  /** An engine without disturbances (no gravity, no contact) on the states
      `rest` marks as resting: a step from a resting state whose commands are
      all zero-velocity leaves every hinge angle where it was and the arm at
      rest. Nothing is assumed of states that are still moving. */
  ghost predicate StillWhenCommandedStill<S(!new)>(rest: S -> bool, hingeAngle: (S, nat) -> real,
                                                   step: (S, seq<HingeCommand>, real) -> S) {
    forall s: S, cmds: seq<HingeCommand> ::
      rest(s) && AllStill(cmds) ==> StaysAtRest(rest, hingeAngle, step, s, cmds)
  }

  /** Every command in `cmds` asks for zero velocity. */
  predicate AllStill(cmds: seq<HingeCommand>) {
    forall c | c in cmds :: c.vel == 0.0
  }

  /** Stepping `s` with `cmds` keeps the arm at rest and every hinge angle
      unchanged. */
  predicate StaysAtRest<S>(rest: S -> bool, hingeAngle: (S, nat) -> real,
                           step: (S, seq<HingeCommand>, real) -> S, s: S, cmds: seq<HingeCommand>) {
    && rest(step(s, cmds, TimeStep))
    && forall j | 1 <= j < NUM :: hingeAngle(step(s, cmds, TimeStep), j) == hingeAngle(s, j)
  }

  /** One still step from a resting state, read off the engine hypothesis. */
  lemma StillStep<S(!new)>(rest: S -> bool, hingeAngle: (S, nat) -> real,
                           step: (S, seq<HingeCommand>, real) -> S, s: S, cmds: seq<HingeCommand>)
    requires StillWhenCommandedStill(rest, hingeAngle, step)
    requires rest(s) && AllStill(cmds)
    ensures rest(step(s, cmds, TimeStep))
    ensures forall j | 1 <= j < NUM :: hingeAngle(step(s, cmds, TimeStep), j) == hingeAngle(s, j)
  {
  }

  /** Without disturbances an arm resting at its targets stays there over
      any number of frames, and every velocity it is sent is zero. */
  lemma {:induction false} RestIsKept<S(!new)>(sess: Session<S>, events: seq<Event>, rest: S -> bool,
                                               hingeAngle: (S, nat) -> real,
                                               step: (S, seq<HingeCommand>, real) -> S)
    requires StillWhenCommandedStill(rest, hingeAngle, step)
    requires rest(sess.engine)
    requires AtTargets(sess.theta, sess.engine, hingeAngle)
    requires forall k | 0 <= k < |events| :: events[k].Tick?
    ensures var r := Run(sess, events, hingeAngle, step);
      && rest(r.engine)
      && AtTargets(r.theta, r.engine, hingeAngle)
      && forall k | |sess.issued| <= k < |r.issued| :: r.issued[k].vel == 0.0
    decreases |events|
  {
    if |events| > 0 {
      var f := SimLoop(sess.theta, sess.engine, hingeAngle, step);
      assert AllStill(f.issued);
      StillStep(rest, hingeAngle, step, sess.engine, f.issued);
      var next := Dispatch(sess, events[0], hingeAngle, step);
      assert next == Session(sess.theta, f.next, sess.issued + f.issued);
      RestIsKept(next, events[1..], rest, hingeAngle, step);
      RunLogsHingeCommands(next, events[1..], hingeAngle, step);
      var r := Run(next, events[1..], hingeAngle, step);
      assert Run(sess, events, hingeAngle, step) == r;
      forall k | |sess.issued| <= k < |r.issued|
        ensures r.issued[k].vel == 0.0
      {
        if k < |next.issued| {
          assert r.issued[k] == next.issued[k] == f.issued[k - |sess.issued|];
        }
      }
    }
  }
}
