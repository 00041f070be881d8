/** The player's control state and one pure transform per state update the
    game-controls hook performs: key down, key up, a jump-timer tick, a
    fall-timer tick, a movement-timer tick and reset.

    Angles are kept as rational multiples of pi: a `rotation` of 0.5 is
    the program's `Math.PI * 0.5`. Coordinates are exact reals. */
module GameControls {
  import opened Options
  import opened Character

  datatype Position = Position(x: real, y: real, z: real)

  /** The four held-key intents. */
  datatype Movement = Movement(forward: bool, backward: bool, left: bool, right: bool)

  datatype Controls = Controls(
    position: Position,
    rotation: real,
    isJumping: bool,
    isFalling: bool,
    isAbilityActive: bool,
    movement: Movement)

  datatype Direction = Forward | Backward | Left | Right

  /** A keyboard event as the listeners see it: its `code` and, for key
      down, whether it is an auto-repeat. */
  datatype KeyEvent = KeyEvent(code: string, repeat: bool)

  /** What a key code means to the listeners. */
  datatype Key = MoveKey(dir: Direction) | SpaceKey | OtherKey

  const MoveSpeed: real := 0.1
  const FlyLift: real := 0.05
  const MaxLiftHeight: real := 3.0
  const FallStep: real := 0.1
  const JumpHeight: real := 2.0
  const JumpDurationMs: int := 500
  const FallDurationMs: int := 300

  const InitialControls: Controls := Controls(
    Position(0.0, 0.0, 0.0), 0.0, false, false, false,
    Movement(false, false, false, false))

  function Max(a: real, b: real): real
  {
    if a >= b then a else b
  }

  /** 1 when the flag is set, 0 otherwise. */
  function Unit(b: bool): real
  {
    if b then 1.0 else 0.0
  }

  function Held(m: Movement, d: Direction): bool
  {
    match d
    case Forward => m.forward
    case Backward => m.backward
    case Left => m.left
    case Right => m.right
  }

  function SetHeld(m: Movement, d: Direction, held: bool): (r: Movement)
    ensures Held(r, d) == held
    ensures forall other :: other != d ==> Held(r, other) == Held(m, other)
  {
    match d
    case Forward => m.(forward := held)
    case Backward => m.(backward := held)
    case Left => m.(left := held)
    case Right => m.(right := held)
  }

  predicate AnyHeld(m: Movement)
  {
    m.forward || m.backward || m.left || m.right
  }

  /** The key map shared by both listeners. */
  function Classify(code: string): Key
  {
    if code == "KeyW" || code == "ArrowUp" then MoveKey(Forward)
    else if code == "KeyS" || code == "ArrowDown" then MoveKey(Backward)
    else if code == "KeyA" || code == "ArrowLeft" then MoveKey(Left)
    else if code == "KeyD" || code == "ArrowRight" then MoveKey(Right)
    else if code == "Space" then SpaceKey
    else OtherKey
  }

  /** The two codes bound to each direction. */
  function CodesFor(d: Direction): set<string>
  {
    match d
    case Forward => {"KeyW", "ArrowUp"}
    case Backward => {"KeyS", "ArrowDown"}
    case Left => {"KeyA", "ArrowLeft"}
    case Right => {"KeyD", "ArrowRight"}
  }

  lemma ClassifyMoveKeys(code: string, d: Direction)
    ensures Classify(code) == MoveKey(d) <==> code in CodesFor(d)
  {
  }

  /** Space pressed: start a jump when grounded, then flip the ability
      flag when an ability is assigned. The two updates are applied in
      the program's order. */
  function PressSpace(s: Controls, ability: Option<SuperAbility>): (r: Controls)
    ensures !s.isJumping && !s.isFalling ==> r.isJumping
    ensures !s.isJumping && s.isFalling ==> !r.isJumping
    ensures s.isJumping ==> r.isJumping
    ensures r.isFalling == s.isFalling
    ensures r.isAbilityActive <==> (s.isAbilityActive != ability.Some?)
    ensures r.position == s.position && r.rotation == s.rotation && r.movement == s.movement
  {
    var jumped := if !s.isJumping && !s.isFalling then s.(isJumping := true) else s;
    if ability.Some? then jumped.(isAbilityActive := !jumped.isAbilityActive) else jumped
  }

  /** `handleKeyDown`. */
  function KeyDown(s: Controls, ability: Option<SuperAbility>, e: KeyEvent): (r: Controls)
    ensures e.repeat ==> r == s
    ensures Classify(e.code) == OtherKey ==> r == s
    ensures !e.repeat && Classify(e.code).MoveKey? ==>
      var d := Classify(e.code).dir;
      && Held(r.movement, d)
      && (forall other :: other != d ==> Held(r.movement, other) == Held(s.movement, other))
      && r.(movement := s.movement) == s
    ensures !e.repeat && Classify(e.code) == SpaceKey ==> r == PressSpace(s, ability)
  {
    if e.repeat then s
    else
      match Classify(e.code)
      case MoveKey(d) => s.(movement := SetHeld(s.movement, d, true))
      case SpaceKey => PressSpace(s, ability)
      case OtherKey => s
  }

  /** `handleKeyUp`: only movement keys have a key-up action. */
  function KeyUp(s: Controls, code: string): (r: Controls)
    ensures !Classify(code).MoveKey? ==> r == s
    ensures Classify(code).MoveKey? ==>
      var d := Classify(code).dir;
      && !Held(r.movement, d)
      && (forall other :: other != d ==> Held(r.movement, other) == Held(s.movement, other))
      && r.(movement := s.movement) == s
  {
    match Classify(code)
    case MoveKey(d) => s.(movement := SetHeld(s.movement, d, false))
    case _ => s
  }

  /** The fraction of a timer's duration that `elapsedMs` represents. */
  function Progress(elapsedMs: int, durationMs: int): real
    requires durationMs > 0
  {
    elapsedMs as real / durationMs as real
  }

  /** One tick of the jump timer, started at height `startY`. `sine` is
      the value of `Math.sin(progress * Math.PI)` for this tick. */
  function JumpTick(s: Controls, startY: real, elapsedMs: int, sine: real): (r: Controls)
    ensures elapsedMs >= JumpDurationMs ==>
      !r.isJumping && r.isFalling && r.position == s.position
    ensures elapsedMs < JumpDurationMs ==>
      && r.position.y == startY + JumpHeight * sine
      && r.isJumping == s.isJumping && r.isFalling == s.isFalling
    ensures r.position.x == s.position.x && r.position.z == s.position.z
    ensures r.rotation == s.rotation && r.isAbilityActive == s.isAbilityActive && r.movement == s.movement
  {
    if Progress(elapsedMs, JumpDurationMs) >= 1.0 then
      s.(isJumping := false, isFalling := true)
    else
      var height := startY + JumpHeight * sine;
      s.(position := s.position.(y := height))
  }

  /** One tick of the fall timer. */
  function FallTick(s: Controls, elapsedMs: int): (r: Controls)
    ensures (elapsedMs >= FallDurationMs || s.position.y <= 0.0) ==>
      !r.isFalling && r.position.y == 0.0
    ensures (elapsedMs < FallDurationMs && s.position.y > 0.0) ==>
      && r.isFalling == s.isFalling
      && 0.0 <= r.position.y < s.position.y
      && r.position.y >= s.position.y - FallStep
      && (r.position.y == 0.0 || r.position.y == s.position.y - FallStep)
    ensures r.position.x == s.position.x && r.position.z == s.position.z
    ensures r.isJumping == s.isJumping
    ensures r.rotation == s.rotation && r.isAbilityActive == s.isAbilityActive && r.movement == s.movement
  {
    if Progress(elapsedMs, FallDurationMs) >= 1.0 || s.position.y <= 0.0 then
      s.(isFalling := false, position := s.position.(y := 0.0))
    else
      var height := Max(0.0, s.position.y - FallStep);
      s.(position := s.position.(y := height))
  }

  /** The facing chosen by the movement tick: each held key assigns its
      angle in the order forward, backward, left, right, and then each
      held diagonal pair assigns its angle in the order forward-left,
      forward-right, backward-left, backward-right; the last assignment
      wins. */
  function TickRotation(m: Movement, previous: real): real
  {
    var r1 := if m.forward then 0.0 else previous;
    var r2 := if m.backward then 1.0 else r1;
    var r3 := if m.left then 0.5 else r2;
    var r4 := if m.right then -0.5 else r3;
    var r5 := if m.forward && m.left then 0.25 else r4;
    var r6 := if m.forward && m.right then -0.25 else r5;
    var r7 := if m.backward && m.left then 0.75 else r6;
    if m.backward && m.right then -0.75 else r7
  }

  /** The vertical lift of the flying ability for one movement tick. */
  function Lift(s: Controls, ability: Option<SuperAbility>): real
  {
    if s.isAbilityActive && ability == Some(Flying) && !s.isJumping && !s.isFalling then
      if s.position.y > MaxLiftHeight then 0.0 else FlyLift
    else 0.0
  }

  /** The horizontal axis a set of intents resolves to: -1 (towards -x),
      0 or 1 (towards +x); when both are held, right wins. */
  function DominantX(m: Movement): int
  {
    if m.right then 1 else if m.left then -1 else 0
  }

  /** The depth axis a set of intents resolves to: -1 (forward, towards
      -z), 0 or 1 (backward, towards +z); when both are held, backward
      wins. */
  function DominantZ(m: Movement): int
  {
    if m.backward then 1 else if m.forward then -1 else 0
  }

  /** The facing, in multiples of pi, that looks along the compass
      direction (dx, dz): the angle t with (-sin t, -cos t) pointing along
      (dx, dz). The direction (0, 0) keeps the previous facing. */
  function CompassAngle(dx: int, dz: int, previous: real): real
  {
    match (dx, dz)
    case (0, -1) => 0.0
    case (0, 1) => 1.0
    case (-1, 0) => 0.5
    case (1, 0) => -0.5
    case (-1, -1) => 0.25
    case (1, -1) => -0.25
    case (-1, 1) => 0.75
    case (1, 1) => -0.75
    case _ => previous
  }

  /** One tick of the movement timer. */
  function MoveTick(s: Controls, ability: Option<SuperAbility>): (r: Controls)
    ensures !AnyHeld(s.movement) ==> r == s
    ensures AnyHeld(s.movement) ==>
      var m := s.movement;
      && r.position.x == s.position.x + MoveSpeed * (Unit(m.right) - Unit(m.left))
      && r.position.z == s.position.z + MoveSpeed * (Unit(m.backward) - Unit(m.forward))
      && r.position.y == Max(0.0, s.position.y + Lift(s, ability))
      && r.rotation == CompassAngle(DominantX(m), DominantZ(m), s.rotation)
    ensures r.isJumping == s.isJumping && r.isFalling == s.isFalling
    ensures r.isAbilityActive == s.isAbilityActive && r.movement == s.movement
    ensures r.position.y >= 0.0 || r == s
  {
    var m := s.movement;
    if !m.forward && !m.backward && !m.left && !m.right then s
    else
      var x1 := if m.left then -MoveSpeed else 0.0;
      var xDelta := if m.right then x1 + MoveSpeed else x1;
      var z1 := if m.forward then -MoveSpeed else 0.0;
      var zDelta := if m.backward then z1 + MoveSpeed else z1;
      var yDelta := Lift(s, ability);
      s.(position := Position(
                       s.position.x + xDelta,
                       Max(0.0, s.position.y + yDelta),
                       s.position.z + zDelta),
         rotation := TickRotation(m, s.rotation))
  }

  /** `resetControls`, written out as the program writes its literal. */
  function ResetControls(): (r: Controls)
    ensures r == InitialControls
  {
    Controls(
      Position(0.0, 0.0, 0.0),
      0.0,
      false,
      false,
      false,
      Movement(false, false, false, false))
  }

  /** Movement keys are level-triggered: pressing an unheld key and
      releasing it restores the state exactly. */
  lemma MoveKeyPressRelease(s: Controls, ability: Option<SuperAbility>, code: string)
    requires Classify(code).MoveKey? && !Held(s.movement, Classify(code).dir)
    ensures KeyUp(KeyDown(s, ability, KeyEvent(code, false)), code) == s
  {
    var d := Classify(code).dir;
    var m := KeyUp(KeyDown(s, ability, KeyEvent(code, false)), code).movement;
    assert forall e :: Held(m, e) == Held(s.movement, e);
  }

  /** Holding a movement key down twice is the same as once. */
  lemma MoveKeyDownIdempotent(s: Controls, ability: Option<SuperAbility>, code: string)
    requires Classify(code).MoveKey?
    ensures KeyDown(KeyDown(s, ability, KeyEvent(code, false)), ability, KeyEvent(code, false))
         == KeyDown(s, ability, KeyEvent(code, false))
  {
    var once := KeyDown(s, ability, KeyEvent(code, false));
    var twice := KeyDown(once, ability, KeyEvent(code, false));
    assert forall e :: Held(twice.movement, e) == Held(once.movement, e);
  }

  /** Space is edge-triggered: every press flips the ability flag when an
      ability is assigned, so two presses restore it, and releasing Space
      does nothing. */
  lemma SpaceTogglesAbility(s: Controls, ability: Option<SuperAbility>)
    ensures var once := KeyDown(s, ability, KeyEvent("Space", false));
      && (once.isAbilityActive <==> (s.isAbilityActive != ability.Some?))
      && KeyDown(once, ability, KeyEvent("Space", false)).isAbilityActive == s.isAbilityActive
      && KeyUp(once, "Space") == once
  {
  }

  /** A key-up of a key the listeners do not bind, Space included, leaves
      the state alone. */
  lemma UnboundKeyUp(s: Controls, code: string)
    requires code !in CodesFor(Forward) + CodesFor(Backward) + CodesFor(Left) + CodesFor(Right)
    ensures KeyUp(s, code) == s
  {
  }

  /** When no pair of opposite keys is held, the character faces the
      direction it travels in. */
  lemma {:induction false} FacingFollowsTravel(s: Controls, ability: Option<SuperAbility>)
    requires AnyHeld(s.movement)
    requires !(s.movement.forward && s.movement.backward) && !(s.movement.left && s.movement.right)
    ensures var r := MoveTick(s, ability);
      r.rotation == CompassAngle(Sign(r.position.x - s.position.x), Sign(r.position.z - s.position.z), s.rotation)
  {
    var r := MoveTick(s, ability);
    var m := s.movement;
    assert Sign(r.position.x - s.position.x) == DominantX(m);
    assert Sign(r.position.z - s.position.z) == DominantZ(m);
  }

  function Sign(v: real): int
  {
    if v > 0.0 then 1 else if v < 0.0 then -1 else 0
  }

  /** Opposite keys cancel in position; for the facing, backward beats
      forward and right beats left. */
  lemma OppositeKeys(s: Controls, ability: Option<SuperAbility>)
    requires s.movement.forward && s.movement.backward
    requires s.movement.left == s.movement.right
    ensures var r := MoveTick(s, ability);
      && r.position.x == s.position.x && r.position.z == s.position.z
      && r.rotation == (if s.movement.right then -0.75 else 1.0)
  {
  }

  /** The flying lift: it never takes the player below ground, it raises
      the player only while moving with the flying ability active on the
      ground (not jumping or falling), by exactly `FlyLift`, and never
      from above `MaxLiftHeight`. */
  lemma LiftBounds(s: Controls, ability: Option<SuperAbility>)
    requires s.position.y >= 0.0
    ensures var r := MoveTick(s, ability);
      && r.position.y >= 0.0
      && r.position.y >= s.position.y
      && (r.position.y > s.position.y <==>
           (AnyHeld(s.movement) && s.isAbilityActive && ability == Some(Flying)
            && !s.isJumping && !s.isFalling && s.position.y <= MaxLiftHeight))
      && (r.position.y > s.position.y ==> r.position.y == s.position.y + FlyLift)
      && r.position.y <= Max(s.position.y, MaxLiftHeight + FlyLift)
  {
  }

  /** `n` movement ticks in a row. */
  function MoveTicks(s: Controls, ability: Option<SuperAbility>, n: nat): Controls
  {
    if n == 0 then s else MoveTick(MoveTicks(s, ability, n - 1), ability)
  }

  predicate LiftOff(s: Controls, ability: Option<SuperAbility>)
  {
    !(s.isAbilityActive && ability == Some(Flying) && !s.isJumping && !s.isFalling)
  }

  /** Holding a set of keys for `n` ticks without the flying lift moves the
      player `n` steps along the net direction, at constant height, and
      leaves them facing the resolved compass direction. */
  lemma {:induction false} RepeatedMoves(s: Controls, ability: Option<SuperAbility>, n: nat)
    requires AnyHeld(s.movement) && LiftOff(s, ability) && s.position.y >= 0.0
    ensures var r := MoveTicks(s, ability, n);
      var m := s.movement;
      && r.position.x == s.position.x + n as real * MoveSpeed * (Unit(m.right) - Unit(m.left))
      && r.position.z == s.position.z + n as real * MoveSpeed * (Unit(m.backward) - Unit(m.forward))
      && r.position.y == s.position.y
      && r.movement == m && LiftOff(r, ability)
      && (n > 0 ==> r.rotation == CompassAngle(DominantX(m), DominantZ(m), s.rotation))
  {
    if n > 0 {
      RepeatedMoves(s, ability, n - 1);
      var p := MoveTicks(s, ability, n - 1);
      var m := s.movement;
      assert Lift(p, ability) == 0.0;
      assert p.position.x + MoveSpeed * (Unit(m.right) - Unit(m.left))
          == s.position.x + n as real * MoveSpeed * (Unit(m.right) - Unit(m.left));
    }
  }

  /** Holding W from the start for ten ticks walks one unit towards -z,
      facing 0. */
  lemma ForwardTenTicks(ability: Option<SuperAbility>)
    ensures var r := MoveTicks(KeyDown(InitialControls, ability, KeyEvent("KeyW", false)), ability, 10);
      r.position == Position(0.0, 0.0, -1.0) && r.rotation == 0.0
  {
    RepeatedMoves(KeyDown(InitialControls, ability, KeyEvent("KeyW", false)), ability, 10);
  }

  /** Fall ticks at the given elapsed times, in order. */
  function FallTicks(s: Controls, elapsed: seq<int>): Controls
    decreases |elapsed|
  {
    if |elapsed| == 0 then s else FallTicks(FallTick(s, elapsed[0]), elapsed[1..])
  }

  /** A fall from height at most `k` steps lands on the ground within
      `k + 1` ticks, whatever the timer reads. */
  lemma {:induction false} FallLands(s: Controls, elapsed: seq<int>, k: nat)
    requires s.position.y <= FallStep * k as real
    requires |elapsed| > k
    ensures var r := FallTicks(s, elapsed);
      !r.isFalling && r.position.y == 0.0 && r.isJumping == s.isJumping
    decreases |elapsed|
  {
    var t := FallTick(s, elapsed[0]);
    if |elapsed| > 1 {
      if k == 0 || t.position.y == 0.0 {
        FallLands(t, elapsed[1..], if k == 0 then 0 else k - 1);
      } else {
        FallLands(t, elapsed[1..], k - 1);
      }
    }
  }

  /** A jump tick never leaves the band between its start height and the
      peak `startY + JumpHeight`, given the sine of a progress in [0, 1),
      that is, of a clock that has not gone backwards. */
  lemma JumpStaysInBand(s: Controls, startY: real, elapsedMs: int, sine: real)
    requires 0.0 <= sine <= 1.0
    requires 0 <= elapsedMs < JumpDurationMs
    ensures startY <= JumpTick(s, startY, elapsedMs, sine).position.y <= startY + JumpHeight
  {
  }
}
