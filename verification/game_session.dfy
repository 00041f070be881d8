/** The game-controls hook as a sequential machine: key events and timer
    ticks arrive one at a time and each applies one transform of
    `GameControls` to the current state.

    The jump timer exists only while the player is jumping, and the fall
    timer only while the player is falling and not jumping, so a tick of
    either timer outside its phase changes nothing. The jump timer
    remembers the height at which the jump started. */
module GameSession {
  import opened Options
  import opened Character
  import opened GameControls

  datatype Event =
    | KeyDownEvent(key: KeyEvent)
    | KeyUpEvent(code: string)
      /** A jump-timer tick `elapsedMs` after the jump started, with the
          value of `Math.sin(progress * Math.PI)` at that moment. */
    | JumpTimer(elapsedMs: int, sine: real)
      /** A fall-timer tick `elapsedMs` after the fall started. */
    | FallTimer(elapsedMs: int)
    | MoveTimer
    | ResetEvent

  datatype Session = Session(controls: Controls, jumpStartY: real)

  datatype Vertical = Grounded | Jumping | Falling

  const InitialSession: Session := Session(InitialControls, 0.0)

  /** The vertical phase of a state where at most one flag is set. */
  function Phase(c: Controls): Vertical
  {
    if c.isJumping then Jumping else if c.isFalling then Falling else Grounded
  }

  predicate Exclusive(c: Controls)
  {
    !(c.isJumping && c.isFalling)
  }

  /** Timer inputs of a clock that does not go backwards: a jump tick
      comes at a non-negative elapsed time, and the sine of a jump progress
      in [0, 1) lies in [0, 1]. */
  predicate WellFormed(e: Event)
  {
    e.JumpTimer? ==> 0 <= e.elapsedMs && 0.0 <= e.sine <= 1.0
  }

  /** While jumping, the height lies between the remembered start height
      and the peak of the jump curve. */
  predicate InBand(g: Session)
  {
    g.controls.isJumping ==>
      g.jumpStartY <= g.controls.position.y <= g.jumpStartY + JumpHeight
  }

  /** One event applied to the session. */
  function Step(g: Session, ability: Option<SuperAbility>, e: Event): (r: Session)
    ensures e.JumpTimer? && !g.controls.isJumping ==> r == g
    ensures e.FallTimer? && !(g.controls.isFalling && !g.controls.isJumping) ==> r == g
    ensures e.KeyUpEvent? || e.MoveTimer? ==> r.jumpStartY == g.jumpStartY
    ensures e.ResetEvent? ==> r.controls == InitialControls
  {
    var c := g.controls;
    var next :=
      match e
      case KeyDownEvent(k) => KeyDown(c, ability, k)
      case KeyUpEvent(code) => KeyUp(c, code)
      case JumpTimer(t, sine) => if c.isJumping then JumpTick(c, g.jumpStartY, t, sine) else c
      case FallTimer(t) => if !c.isJumping && c.isFalling then FallTick(c, t) else c
      case MoveTimer => MoveTick(c, ability)
      case ResetEvent => ResetControls();
    Session(next, if !c.isJumping && next.isJumping then next.position.y else g.jumpStartY)
  }

  /** The events applied in order. */
  function Run(g: Session, ability: Option<SuperAbility>, events: seq<Event>): Session
    decreases |events|
  {
    if |events| == 0 then g else Run(Step(g, ability, events[0]), ability, events[1..])
  }

  /** The vertical state machine: grounded to jumping, jumping to falling,
      falling to grounded, and reset back to grounded. */
  predicate Transition(from: Vertical, to: Vertical, e: Event)
  {
    || from == to
    || (from == Grounded && to == Jumping && e.KeyDownEvent?)
    || (from == Jumping && to == Falling && e.JumpTimer?)
    || (from == Falling && to == Grounded && e.FallTimer?)
    || (to == Grounded && e.ResetEvent?)
  }

  /** Every event moves the vertical phase along the state machine, keeps
      the jumping and falling flags exclusive, and lands on the ground at
      height zero. */
  lemma StepFollowsMachine(g: Session, ability: Option<SuperAbility>, e: Event)
    requires Exclusive(g.controls)
    ensures var r := Step(g, ability, e);
      && Exclusive(r.controls)
      && Transition(Phase(g.controls), Phase(r.controls), e)
      && (Phase(g.controls) == Falling && Phase(r.controls) == Grounded ==> r.controls.position.y == 0.0)
  {
  }

  /** A step keeps the height and the remembered jump start non-negative. */
  lemma StepKeepsAltitude(g: Session, ability: Option<SuperAbility>, e: Event)
    requires WellFormed(e)
    requires g.controls.position.y >= 0.0 && g.jumpStartY >= 0.0
    ensures var r := Step(g, ability, e);
      r.controls.position.y >= 0.0 && r.jumpStartY >= 0.0
  {
  }

  /** A step keeps the height within the band of the current jump. */
  lemma StepKeepsBand(g: Session, ability: Option<SuperAbility>, e: Event)
    requires WellFormed(e) && InBand(g)
    requires g.controls.position.y >= 0.0 && g.jumpStartY >= 0.0
    ensures InBand(Step(g, ability, e))
  {
  }

  /** Over any well-formed history, a jump never leaves the band between
      the height it started from and that height plus `JumpHeight`. */
  lemma {:induction false} RunKeepsBand(g: Session, ability: Option<SuperAbility>, events: seq<Event>)
    requires forall i :: 0 <= i < |events| ==> WellFormed(events[i])
    requires InBand(g) && g.controls.position.y >= 0.0 && g.jumpStartY >= 0.0
    ensures InBand(Run(g, ability, events))
    decreases |events|
  {
    if |events| > 0 {
      StepKeepsBand(g, ability, events[0]);
      StepKeepsAltitude(g, ability, events[0]);
      RunKeepsBand(Step(g, ability, events[0]), ability, events[1..]);
    }
  }

  /** Jumping and falling are never both set, whatever events arrive. */
  lemma {:induction false} RunExclusive(g: Session, ability: Option<SuperAbility>, events: seq<Event>)
    requires Exclusive(g.controls)
    ensures Exclusive(Run(g, ability, events).controls)
    decreases |events|
  {
    if |events| > 0 {
      StepFollowsMachine(g, ability, events[0]);
      RunExclusive(Step(g, ability, events[0]), ability, events[1..]);
    }
  }

  /** The player never goes below ground level. */
  lemma {:induction false} RunKeepsAltitude(g: Session, ability: Option<SuperAbility>, events: seq<Event>)
    requires forall i :: 0 <= i < |events| ==> WellFormed(events[i])
    requires g.controls.position.y >= 0.0 && g.jumpStartY >= 0.0
    ensures Run(g, ability, events).controls.position.y >= 0.0
    ensures Run(g, ability, events).jumpStartY >= 0.0
    decreases |events|
  {
    if |events| > 0 {
      StepKeepsAltitude(g, ability, events[0]);
      RunKeepsAltitude(Step(g, ability, events[0]), ability, events[1..]);
    }
  }

  /** From the start of a game, every reachable state has exclusive
      vertical flags, a non-negative height and, while jumping, a height
      within the band of its jump. */
  lemma Reachable(ability: Option<SuperAbility>, events: seq<Event>)
    requires forall i :: 0 <= i < |events| ==> WellFormed(events[i])
    ensures var g := Run(InitialSession, ability, events);
      Exclusive(g.controls) && g.controls.position.y >= 0.0 && InBand(g)
  {
    RunExclusive(InitialSession, ability, events);
    RunKeepsAltitude(InitialSession, ability, events);
    RunKeepsBand(InitialSession, ability, events);
  }

  lemma {:induction false} RunAppend(g: Session, ability: Option<SuperAbility>, events: seq<Event>, e: Event)
    ensures Run(g, ability, events + [e]) == Step(Run(g, ability, events), ability, e)
    decreases |events|
  {
    if |events| > 0 {
      assert (events + [e])[1..] == events[1..] + [e];
      RunAppend(Step(g, ability, events[0]), ability, events[1..], e);
    }
  }

  /** Reset after any history restores the initial controls. */
  lemma ResetRestoresInitial(g: Session, ability: Option<SuperAbility>, events: seq<Event>)
    ensures Run(g, ability, events + [ResetEvent]).controls == InitialControls
  {
    RunAppend(g, ability, events, ResetEvent);
  }

  /** A jump that has run its full duration turns into a fall, without
      moving the player. */
  lemma JumpEndsInFall(g: Session, ability: Option<SuperAbility>, t: int, sine: real)
    requires g.controls.isJumping && t >= JumpDurationMs
    ensures var r := Step(g, ability, JumpTimer(t, sine));
      Phase(r.controls) == Falling && r.controls.position == g.controls.position
  {
  }

  /** Space on the ground starts a jump from the current height. */
  lemma SpaceStartsJump(g: Session, ability: Option<SuperAbility>)
    requires Phase(g.controls) == Grounded
    ensures var r := Step(g, ability, KeyDownEvent(KeyEvent("Space", false)));
      Phase(r.controls) == Jumping && r.jumpStartY == g.controls.position.y
  {
  }
}
