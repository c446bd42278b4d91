# Robot-arm control layer (Manipu.cpp)

A Dafny model of the discrete control layer of a four-link robot arm
simulated with the Open Dynamics Engine (ODE). The arm is a chain of four
links: link 0 is welded to the world by a fixed joint, and links 1..3 each
hang from their predecessor by a hinge. The user steers the hinges through a
keyboard callback that nudges a target-angle array `THETA` by one degree.
Every frame, a proportional controller turns each hinge's tracking error
into a velocity command with a force cap, and then the engine integrates one
step.

The physics engine is an opaque oracle. The model represents it by two
function parameters over an abstract engine state `S`:

- `hingeAngle(s, j)` reads the current angle of hinge joint `j`. It stands
  for `dJointGetHingeAngle`.
- `step(s, cmds, dt)` applies the hinge commands and advances the world by
  `dt` seconds. It stands for the two `dJointSetHingeParam` calls followed
  by `dWorldStep`.

Angles are exact `real`s. One degree is `Deg = M_PI / 180`, with `M_PI`
written out as its exact decimal value. Floating-point rounding is not modelled. Facts such
as "one degree up then one degree down restores the target" therefore hold
exactly in the model.

Modules:

- `Registry` holds the link count `NUM = 4` and the hinge anchor and axis
  tables (`c_x`, `c_y`, `c_z`, `axis_x`, `axis_y`, `axis_z`).
- `Target` models `THETA` and the `command` callback. A key code is an
  `int`, as in the C signature. The dispatch mirrors the `switch`. Its
  contract is stated against `Keymap`, an independent table of the six
  bindings.
- `Chain` models the joint half of `makeArm` as a pure constructor of a
  joint table. `SerialChain` is an independent structural definition of a
  serial chain, and the model proves that the built table satisfies it.
- `Control` models `Pcontrol` as a pure function of the targets and the
  engine's hinge angles. It returns one `(joint, vel, fMax)` command per
  hinge.
- `StepDriver` models `simLoop` as control followed by one step. It also
  models a callback session: a stream of key events and frame events
  delivered in order, as the drawing library's loop delivers them to the
  `command` and `simLoop` callbacks.

## Model

| member | source | states |
|---|---|---|
| `Registry.AnchorsOnBaseAxis` | Manipu.cpp:43-45 | Every hinge anchor lies on the vertical line x = y = 0 along which the links are stacked. Each anchor lies strictly above the one of the joint below it. |
| `Registry.HingeAxesAreUnit` | Manipu.cpp:46-48 | Every hinge axis is a unit vector: joint 1 turns about z, and joints 2 and 3 turn about y. |
| `Target.Adjust` | Manipu.cpp:110-115 | Nudging hinge j by delta adds delta to THETA[j] and leaves every other entry unchanged. |
| `Target.Command` | Manipu.cpp:107-117 | Each entry i moves by exactly the Keymap shift of the key for joint i: +1 degree for 'j', 'k', 'l' and -1 degree for 'f', 'd', 's' on joints 1, 2, 3. Entry 0 never moves. The targets change if and only if the key is one of the six bound keys, because the switch has no default. |
| `Target.KeymapShape` | Manipu.cpp:109-116 | Every bound key steers a hinge joint by one degree up or down. Each hinge has exactly one raising key and one lowering key. No two keys share a binding. |
| `Target.OppositeKeysCancel` | Manipu.cpp:110-115 | A key followed by the opposite key on the same joint restores the targets exactly. |
| `Target.CommandsCommute` | Manipu.cpp:110-115 | Any two key presses commute: the targets do not depend on the order of presses. |
| `Target.ApplyKeysNet` | Manipu.cpp:109-116 | After any key stream, each target equals its start value plus (raises minus lowers) degrees. Nothing clamps it. |
| `Target.BaseTargetFixed` | Manipu.cpp:109-116 | No key stream ever changes THETA[0]. |
| `Target.RepeatedPresses` | Manipu.cpp:110-115 | n presses of one bound key move its joint's target by exactly n degrees in the key's direction, for every n. For 'j' this gives THETA[1] = t + n * Deg. All other targets stay unchanged. |
| `Target.NoClamping` | Manipu.cpp:110 | For every bound, some number of presses of a raising key carries its target above that bound. |
| `Target.TenPressesFromStart` | Manipu.cpp:110 | From the all-zero start-up targets, ten presses of 'j' give THETA[1] = 10 degrees and leave the other targets at 0. |
| `Chain.HingesFrom` | Manipu.cpp:65-70 | The loop creates one hinge per joint j from its start index to NUM - 1. Hinge j attaches body j to body j - 1 and uses anchor j and axis j. |
| `Chain.MakeJoints` | Manipu.cpp:62-70 | The table has NUM joints. Joint 0 is a fixed joint attached to (body 0, world). Joint j in 1..3 is a hinge attached to (body j, body j - 1) with anchor j and axis j. |
| `Chain.MakeJointsIsSerialChain` | Manipu.cpp:62-70 | The built table is a serial chain. Only joint 0 touches the world, and it is fixed. No hinge is attached to the world or to a non-adjacent link. Following parent joints from each link i reaches the world in i + 1 joints. |
| `Chain.HingesMatchRegistry` | Manipu.cpp:65-69 | Joint j is a hinge if and only if j >= 1. Each hinge carries the registry anchor and axis of its own index. |
| `Control.CommandsFrom` | Manipu.cpp:90-95 | The loop from joint j issues one command per joint j..NUM-1, in order. Each command has velocity 10 * (target - angle) and force cap 100. |
| `Control.Pcontrol` | Manipu.cpp:86-96 | A control step issues exactly three commands, for joints 1, 2 and 3 in order, so joint 0 is never commanded. Each velocity is Gain * (THETA[j] - angle_j) with Gain = 10. Each force cap is 100, whatever the error. |
| `Control.CommandsAddressHinges` | Manipu.cpp:90-95 | Every command addresses a hinge of the built chain. Every hinge receives exactly one command. |
| `Control.VelocitySignFollowsError` | Manipu.cpp:91-93 | The commanded velocity is positive, zero or negative exactly when the target is above, at or below the current angle. |
| `Control.AtTargetsAllStill` | Manipu.cpp:88-93 | If every hinge is at its target, every commanded velocity is zero. |
| `Control.Decoupled` | Manipu.cpp:90-93 | The command for joint j depends only on THETA[j] and the angle of joint j. |
| `Control.VelocityUnclamped` | Manipu.cpp:88-94 | For every bound, some hinge angle makes the commanded velocity exceed that bound while the force cap stays 100. |
| `StepDriver.SimLoop` | Manipu.cpp:120-125 | A frame issues its commands from the angles of the state before the step. It then applies exactly one step of 0.01 s to that state, and that step receives those commands. |
| `StepDriver.CommandsFromPreStepAngles` | Manipu.cpp:122-123 | A frame's commands depend only on the targets and the pre-step angles, whatever the step does. Two states that read the same angles get the same commands. |
| `StepDriver.Dispatch` | Manipu.cpp:131-133 | A key event applies the command callback to the targets and leaves the engine and the log unchanged. A frame event leaves the targets unchanged and keeps the old log as a prefix. It appends three hinge commands with force cap 100, and those commands are the controller output for the targets and the pre-step angles. The new engine state is one step that receives exactly those commands. |
| `StepDriver.RunTargetsFollowKeys` | Manipu.cpp:107-125 | After any interleaving of keys and frames, the targets equal the session's key presses applied to the start targets. Frames never change the targets. |
| `StepDriver.RunLogsHingeCommands` | Manipu.cpp:120-125 | A session only appends to the command log, three commands per frame. Each appended command addresses a hinge joint and carries force cap 100. |
| `StepDriver.RestIsKept` | Manipu.cpp:120-123 | Assume an engine where a zero-velocity step from a resting state keeps the arm at rest and leaves the angles unchanged, as with no gravity and no contact. Then an arm resting at its targets stays resting there over any number of frames, and every velocity it is sent is zero. |

## Left out

- Body, mass and capsule creation (Manipu.cpp:51-59) is left out. These are engine calls whose only observable logic is "one body per link". The position, length, weight and radius tables are therefore not modelled.
- `dWorldStep` dynamics, gravity and the ground plane (Manipu.cpp:123, 144-145) are left out. The step is an arbitrary function parameter.
- The end-to-end gravity scenario is not proved, because it depends on rigid-body physics. `StepDriver.RestIsKept` states the disturbance-free case under an explicit engine hypothesis.
- `dJointGetHingeAngle` semantics are left out. Its angles are arbitrary real inputs, including whether they wrap.
- IEEE `dReal` arithmetic and the rounding of `M_PI / 180` are left out. The model uses exact reals.
- Rendering and process code are left out: `drawArm` (Manipu.cpp:74-83), `start` and its viewpoint (Manipu.cpp:99-104), `setDrawStuff`'s version and texture-path fields (Manipu.cpp:130, 134), and `main`'s world, space and contact-group set-up and teardown (Manipu.cpp:137-152). These are UI, I/O and process lifecycle. The callback wiring of `setDrawStuff` (Manipu.cpp:131-133) is modelled by `StepDriver.Dispatch`.
- The drawing library's own event loop is left out because its code is not part of this model. Sessions take an arbitrary ordered stream of key and frame events in its place.
- The `pause` argument of `simLoop` is left out because the source never reads it.
