/** The target-angle array THETA and the keyboard command that nudges it. */
module Target {
  import opened Registry

  /** One degree in radians, M_PI / 180, with M_PI written out as an exact
      real: the size of every target nudge. */
  const Deg: real := 3.14159265358979323846 / 180.0

  /** The target angle of each joint, in radians; entry 0 belongs to the
      fixed joint and is never read by the controller. */
  type Angles = t: seq<real> | |t| == NUM witness [0.0, 0.0, 0.0, 0.0]

  /** Targets at start-up: all zero. */
  const Initial: Angles := [0.0, 0.0, 0.0, 0.0]

  /** What a bound key does: move the target of `joint` by `dir` degrees. */
  datatype Binding = Binding(joint: nat, dir: int) {
    function Delta(): real {
      dir as real * Deg
    }
  }

  /** The six bound keys, as a table independent of the dispatch below. */
  const Keymap: map<int, Binding> := map[
    'j' as int := Binding(1, 1), 'f' as int := Binding(1, -1),
    'k' as int := Binding(2, 1), 'd' as int := Binding(2, -1),
    'l' as int := Binding(3, 1), 's' as int := Binding(3, -1)
  ]

  /** How far key `cmd` moves the target of joint `i`, read off the table. */
  function Shift(cmd: int, i: nat): real {
    if cmd in Keymap && Keymap[cmd].joint == i then Keymap[cmd].Delta() else 0.0
  }

  /** Add `delta` to the target of hinge joint `j`, leaving the others. */
  function Adjust(t: Angles, j: nat, delta: real): (r: Angles)
    requires 1 <= j < NUM
    ensures r[j] == t[j] + delta
    ensures forall i | 0 <= i < NUM && i != j :: r[i] == t[i]
  {
    t[j := t[j] + delta]
  }

  /** The keyboard callback: six keys nudge one target by one degree up or
      down; every other key code falls through the switch unchanged. */
  function Command(t: Angles, cmd: int): (r: Angles)
    ensures forall i | 0 <= i < NUM :: r[i] == t[i] + Shift(cmd, i)
    ensures r[0] == t[0]
    ensures r != t <==> cmd in Keymap
  {
    if cmd == 'j' as int then Adjust(t, 1, Deg)
    else if cmd == 'f' as int then Adjust(t, 1, -Deg)
    else if cmd == 'k' as int then Adjust(t, 2, Deg)
    else if cmd == 'd' as int then Adjust(t, 2, -Deg)
    else if cmd == 'l' as int then Adjust(t, 3, Deg)
    else if cmd == 's' as int then Adjust(t, 3, -Deg)
    else t
  }

  /** Every bound key steers a hinge joint by exactly one degree; each hinge
      joint has exactly one key raising and one key lowering its target. */
  lemma KeymapShape()
    ensures forall c | c in Keymap :: 1 <= Keymap[c].joint < NUM && (Keymap[c].dir == 1 || Keymap[c].dir == -1)
    ensures forall j, d | 1 <= j < NUM && (d == 1 || d == -1) ::
      exists c :: c in Keymap && Keymap[c] == Binding(j, d)
    ensures forall a, b | a in Keymap && b in Keymap && Keymap[a] == Keymap[b] :: a == b
  {
    forall j, d | 1 <= j < NUM && (d == 1 || d == -1)
      ensures exists c :: c in Keymap && Keymap[c] == Binding(j, d)
    {
      var c :=
        if j == 1 then (if d == 1 then 'j' as int else 'f' as int)
        else if j == 2 then (if d == 1 then 'k' as int else 'd' as int)
        else (if d == 1 then 'l' as int else 's' as int);
      assert Keymap[c] == Binding(j, d);
    }
  }

  /** A bound key followed by the key of opposite direction on the same
      joint restores the targets exactly (in exact arithmetic). */
  lemma OppositeKeysCancel(t: Angles, a: int, b: int)
    requires a in Keymap && b in Keymap
    requires Keymap[b].joint == Keymap[a].joint && Keymap[b].dir == -Keymap[a].dir
    ensures Command(Command(t, a), b) == t
  {
  }

  /** Key presses commute: the targets depend on which keys were pressed,
      not on their order. */
  lemma CommandsCommute(t: Angles, a: int, b: int)
    ensures Command(Command(t, a), b) == Command(Command(t, b), a)
  {
  }

  /** Feed a stream of key codes to the callback, first key first. */
  function ApplyKeys(t: Angles, keys: seq<int>): Angles
    decreases |keys|
  {
    if |keys| == 0 then t else ApplyKeys(Command(t, keys[0]), keys[1..])
  }

  /** Net number of degrees a key stream moves the target of joint `i`:
      raises minus lowers. */
  function NetSteps(keys: seq<int>, i: nat): int
    decreases |keys|
  {
    if |keys| == 0 then 0 else Steps(keys[0], i) + NetSteps(keys[1..], i)
  }

  /** Signed degree count key `cmd` moves joint `i` by, read off the table. */
  function Steps(cmd: int, i: nat): int {
    if cmd in Keymap && Keymap[cmd].joint == i then Keymap[cmd].dir else 0
  }

  /** One key press moves target `i` by its table degree count. */
  lemma CommandSteps(t: Angles, cmd: int, i: nat)
    requires i < NUM
    ensures Command(t, cmd)[i] == t[i] + Steps(cmd, i) as real * Deg
  {
    assert Command(t, cmd)[i] == t[i] + Shift(cmd, i);
  }

  /** Each target ends at its start value plus its net key count in degrees:
      nothing clamps or saturates it. */
  lemma {:induction false} ApplyKeysNet(t: Angles, keys: seq<int>, i: nat)
    requires i < NUM
    ensures ApplyKeys(t, keys)[i] == t[i] + NetSteps(keys, i) as real * Deg
    decreases |keys|
  {
    if |keys| > 0 {
      var t' := Command(t, keys[0]);
      var a := Steps(keys[0], i);
      var b := NetSteps(keys[1..], i);
      ApplyKeysNet(t', keys[1..], i);
      CommandSteps(t, keys[0], i);
      DegreesAdd(a, b);
      calc {
        ApplyKeys(t, keys)[i];
        ApplyKeys(t', keys[1..])[i];
        t'[i] + b as real * Deg;
        t[i] + a as real * Deg + b as real * Deg;
        t[i] + (a + b) as real * Deg;
        t[i] + NetSteps(keys, i) as real * Deg;
      }
    }
  }

  /** Degree counts add up: (a + b) degrees is a degrees plus b degrees. */
  lemma DegreesAdd(a: int, b: int)
    ensures (a + b) as real * Deg == a as real * Deg + b as real * Deg
  {
  }

  /** No key stream ever moves the target of the fixed joint 0. */
  lemma {:induction false} BaseTargetFixed(t: Angles, keys: seq<int>)
    ensures ApplyKeys(t, keys)[0] == t[0]
    decreases |keys|
  {
    if |keys| > 0 {
      BaseTargetFixed(Command(t, keys[0]), keys[1..]);
    }
  }

  /** `n` presses of the same key. */
  function Repeat(cmd: int, n: nat): seq<int>
  {
    seq(n, _ => cmd)
  }

  lemma {:induction false} NetStepsRepeat(cmd: int, n: nat, i: nat)
    ensures NetSteps(Repeat(cmd, n), i)
            == (if cmd in Keymap && Keymap[cmd].joint == i then n * Keymap[cmd].dir else 0)
  {
    if n > 0 {
      assert Repeat(cmd, n)[1..] == Repeat(cmd, n - 1);
      NetStepsRepeat(cmd, n - 1, i);
    }
  }

  /** Pressing a bound key `n` times moves its joint's target by exactly
      `n` degrees in the key's direction (for 'j': THETA[1] = t + n * Deg)
      and leaves every other target alone. */
  lemma RepeatedPresses(t: Angles, cmd: int, n: nat)
    requires cmd in Keymap
    ensures ApplyKeys(t, Repeat(cmd, n))[Keymap[cmd].joint] == t[Keymap[cmd].joint] + n as real * Keymap[cmd].Delta()
    ensures forall i | 0 <= i < NUM && i != Keymap[cmd].joint :: ApplyKeys(t, Repeat(cmd, n))[i] == t[i]
  {
    var b := Keymap[cmd];
    var keys := Repeat(cmd, n);
    ApplyKeysNet(t, keys, b.joint);
    NetStepsRepeat(cmd, n, b.joint);
    assert b.dir == 1 || b.dir == -1;
    if b.dir == 1 {
      assert NetSteps(keys, b.joint) == n;
    } else {
      assert NetSteps(keys, b.joint) == -(n as int);
    }
    forall i | 0 <= i < NUM && i != b.joint
      ensures ApplyKeys(t, keys)[i] == t[i]
    {
      ApplyKeysNet(t, keys, i);
      NetStepsRepeat(cmd, n, i);
    }
  }

  /** Targets are unbounded: for every bound there is a number of presses
      of a raising key that carries its joint's target above it. */
  lemma NoClamping(t: Angles, cmd: int, bound: real)
    requires cmd in Keymap && Keymap[cmd].dir == 1
    ensures exists n: nat :: ApplyKeys(t, Repeat(cmd, n))[Keymap[cmd].joint] > bound
  {
    var j := Keymap[cmd].joint;
    var gap := bound - t[j];
    var n: nat := if gap < 0.0 then 0 else (gap / Deg).Floor + 1;
    RepeatedPresses(t, cmd, n);
    if gap >= 0.0 {
      assert n as real > gap / Deg;
      assert n as real * Deg > (gap / Deg) * Deg;
    }
    assert ApplyKeys(t, Repeat(cmd, n))[j] > bound;
  }

  /** From the start-up targets, ten presses of 'j' put joint 1's target at
      exactly ten degrees. */
  lemma TenPressesFromStart()
    ensures ApplyKeys(Initial, Repeat('j' as int, 10))[1] == 10.0 * Deg
    ensures var t := ApplyKeys(Initial, Repeat('j' as int, 10)); t[0] == 0.0 && t[2] == 0.0 && t[3] == 0.0
  {
    RepeatedPresses(Initial, 'j' as int, 10);
  }
}
