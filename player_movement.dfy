/**
  The player's jump and crouch (Assets/PlayerMovement.cs): one frame step
  over the grounded flag, the jump state with its timer, the body's velocity
  and the height of the player's square.
*/
module Movement {
  import opened Engine

  datatype Vec3 = Vec3(x: real, y: real, z: real)

  /** The state the frame step changes. */
  datatype MoveState = MoveState(isGround: bool, isJumping: bool, jumpTimer: real,
                                 velocity: Vec2, scale: Vec3)

  /** The inspector settings that matter here. */
  datatype MoveConfig = MoveConfig(jumpForce: real, jumpTime: real, crouchHeight: real)

  /**
    One frame of input: whether the ground check found ground under the
    feet, the Jump button going down, held and going up, and the Crouch
    button held and going up.
  */
  datatype FrameInput = FrameInput(grounded: bool, jumpDown: bool, jumpHeld: bool, jumpUp: bool,
                                   crouchHeld: bool, crouchUp: bool)

  /** The frame step, section by section in the order the script runs them. */
  function Step(s: MoveState, cfg: MoveConfig, input: FrameInput, dt: real): (t: MoveState)
    ensures t.isGround == input.grounded
  {
    var isGround := input.grounded;
    // Take-off.
    var s1 := if isGround && input.jumpDown
              then s.(isGround := isGround, isJumping := true, velocity := Vec2(0.0, cfg.jumpForce))
              else s.(isGround := isGround);
    // Holding the jump.
    var s2 := if s1.isJumping && input.jumpHeld
              then (if s1.jumpTimer < cfg.jumpTime
                    then s1.(velocity := Vec2(0.0, cfg.jumpForce), jumpTimer := s1.jumpTimer + dt)
                    else s1.(isJumping := false))
              else s1;
    // Releasing the jump.
    var s3 := if input.jumpUp then s2.(isJumping := false, jumpTimer := 0.0) else s2;
    // Crouching.
    var s4 := if isGround && input.crouchHeld
              then s3.(scale := s3.scale.(y := if s3.isJumping then 1.0 else cfg.crouchHeight))
              else s3;
    if input.crouchUp then s4.(scale := s4.scale.(y := 1.0)) else s4
  }

  /** Releasing the jump ends it and resets its timer, whatever else happened that frame. */
  lemma ReleaseOverrides(s: MoveState, cfg: MoveConfig, input: FrameInput, dt: real)
    requires input.jumpUp
    ensures !Step(s, cfg, input, dt).isJumping && Step(s, cfg, input, dt).jumpTimer == 0.0
  {
  }

  /** A frame with no take-off, no held climb and no release leaves the jump and the velocity as they were. */
  lemma IdleFrameKeepsJump(s: MoveState, cfg: MoveConfig, input: FrameInput, dt: real)
    requires !input.jumpUp && !(input.grounded && input.jumpDown) && !(s.isJumping && input.jumpHeld)
    ensures var t := Step(s, cfg, input, dt);
            t.isJumping == s.isJumping && t.jumpTimer == s.jumpTimer && t.velocity == s.velocity
  {
  }

  /** Only a release resets the jump timer; otherwise it is kept or grows by the frame's dt. */
  lemma ResetOnlyOnRelease(s: MoveState, cfg: MoveConfig, input: FrameInput, dt: real)
    requires !input.jumpUp
    ensures var t := Step(s, cfg, input, dt);
            t.jumpTimer == s.jumpTimer || t.jumpTimer == s.jumpTimer + dt
  {
  }

  /**
    Taking off from the ground sends the player up at `jumpForce`. The timer
    is not reset on take-off, only on release: with a timer already at
    `jumpTime` the same frame's hold check ends the jump at once.
  */
  lemma TakeOff(s: MoveState, cfg: MoveConfig, input: FrameInput, dt: real)
    requires input.grounded && input.jumpDown && !input.jumpUp
    ensures var t := Step(s, cfg, input, dt);
            && t.velocity == Vec2(0.0, cfg.jumpForce)
            && (t.isJumping <==> !input.jumpHeld || s.jumpTimer < cfg.jumpTime)
            && t.jumpTimer == (if input.jumpHeld && s.jumpTimer < cfg.jumpTime then s.jumpTimer + dt else s.jumpTimer)
  {
  }

  /** Holding the jump while jumping: the climb goes on until the timer reaches `jumpTime`. */
  lemma HoldJump(s: MoveState, cfg: MoveConfig, input: FrameInput, dt: real)
    requires s.isJumping && input.jumpHeld && !input.jumpUp
    ensures var t := Step(s, cfg, input, dt);
            && (s.jumpTimer < cfg.jumpTime ==>
                  t.isJumping && t.velocity == Vec2(0.0, cfg.jumpForce) && t.jumpTimer == s.jumpTimer + dt)
            && (s.jumpTimer >= cfg.jumpTime ==> !t.isJumping && t.jumpTimer == s.jumpTimer)
  {
  }

  /** The square's height: crouched on the ground, full height when jumping or on releasing Crouch. */
  lemma CrouchHeight(s: MoveState, cfg: MoveConfig, input: FrameInput, dt: real)
    ensures var t := Step(s, cfg, input, dt);
            && (input.crouchUp ==> t.scale.y == 1.0)
            && (!input.crouchUp && input.grounded && input.crouchHeld ==>
                  t.scale.y == if t.isJumping then 1.0 else cfg.crouchHeight)
            && (!input.crouchUp && !(input.grounded && input.crouchHeld) ==> t.scale.y == s.scale.y)
  {
  }

  /** The square's width and depth are never touched. */
  lemma ScaleXZKept(s: MoveState, cfg: MoveConfig, input: FrameInput, dt: real)
    ensures Step(s, cfg, input, dt).scale.x == s.scale.x && Step(s, cfg, input, dt).scale.z == s.scale.z
  {
  }

  /**
    The jump timer's invariant for frames no longer than `maxDt`: it is never
    negative, and it passes `jumpTime` by less than one frame.
  */
  ghost predicate TimerBounded(s: MoveState, cfg: MoveConfig, maxDt: real) {
    0.0 <= s.jumpTimer && (s.jumpTimer == 0.0 || s.jumpTimer < cfg.jumpTime + maxDt)
  }

  lemma StepKeepsTimerBounded(s: MoveState, cfg: MoveConfig, input: FrameInput, dt: real, maxDt: real)
    requires 0.0 <= dt <= maxDt
    requires TimerBounded(s, cfg, maxDt)
    ensures TimerBounded(Step(s, cfg, input, dt), cfg, maxDt)
  {
  }

  function Run(s: MoveState, cfg: MoveConfig, frames: seq<(FrameInput, real)>): (t: MoveState)
    decreases |frames|
  {
    if frames == [] then s else Run(Step(s, cfg, frames[0].0, frames[0].1), cfg, frames[1..])
  }

  /** From the initial state, over any run of frames no longer than `maxDt`, the timer stays bounded. */
  lemma {:induction false} RunKeepsTimerBounded(s: MoveState, cfg: MoveConfig, frames: seq<(FrameInput, real)>, maxDt: real)
    requires forall i :: 0 <= i < |frames| ==> 0.0 <= frames[i].1 <= maxDt
    requires TimerBounded(s, cfg, maxDt)
    ensures TimerBounded(Run(s, cfg, frames), cfg, maxDt)
    decreases |frames|
  {
    if frames != [] {
      StepKeepsTimerBounded(s, cfg, frames[0].0, frames[0].1, maxDt);
      RunKeepsTimerBounded(Step(s, cfg, frames[0].0, frames[0].1), cfg, frames[1..], maxDt);
    }
  }

  class PlayerMovement {
    const cfg: MoveConfig
    var isGround: bool
    var isJumping: bool
    var jumpTimer: real
    /** The rigid body's velocity. */
    var velocity: Vec2
    /** The local scale of the player's square. */
    var scale: Vec3

    function Snapshot(): (s: MoveState)
      reads this
    {
      MoveState(isGround, isJumping, jumpTimer, velocity, scale)
    }

    /**
      A component with the settings `cfg` configured on it; the body's
      `velocity` and the square's `scale` are whatever the scene gives them.
      The player starts neither grounded nor jumping, with the timer at 0.
    */
    constructor (cfg: MoveConfig, velocity: Vec2, scale: Vec3)
      ensures this.cfg == cfg
      ensures Snapshot() == MoveState(false, false, 0.0, velocity, scale)
    {
      this.cfg := cfg;
      isGround := false;
      isJumping := false;
      jumpTimer := 0.0;
      this.velocity := velocity;
      this.scale := scale;
    }

    /** A component with the script's default settings: jump force 10, jump time 0.3, crouch height 0.5. */
    constructor Default(velocity: Vec2, scale: Vec3)
      ensures cfg == MoveConfig(10.0, 0.3, 0.5)
      ensures Snapshot() == MoveState(false, false, 0.0, velocity, scale)
    {
      cfg := MoveConfig(10.0, 0.3, 0.5);
      isGround := false;
      isJumping := false;
      jumpTimer := 0.0;
      this.velocity := velocity;
      this.scale := scale;
    }

    method Update(input: FrameInput, dt: real)
      modifies this
      ensures Snapshot() == Step(old(Snapshot()), cfg, input, dt)
    {
      isGround := input.grounded;

      if isGround && input.jumpDown {
        isJumping := true;
        velocity := Vec2(0.0, cfg.jumpForce);
      }

      if isJumping && input.jumpHeld {
        if jumpTimer < cfg.jumpTime {
          velocity := Vec2(0.0, cfg.jumpForce);
          jumpTimer := jumpTimer + dt;
        } else {
          isJumping := false;
        }
      }

      if input.jumpUp {
        isJumping := false;
        jumpTimer := 0.0;
      }

      if isGround && input.crouchHeld {
        scale := Vec3(scale.x, cfg.crouchHeight, scale.z);
        if isJumping {
          scale := Vec3(scale.x, 1.0, scale.z);
        }
      }

      if input.crouchUp {
        scale := Vec3(scale.x, 1.0, scale.z);
      }
    }
  }
}
