/**
  The platformer motion tick.  Input events update an edge-triggered snapshot
  between frames; each frame then runs the ground check, clamps the fall
  speed, computes the apex factor, accelerates or decelerates horizontally,
  fires a coyote or buffered jump, damps the jump once on early release, picks
  the movement animation and clears the jump edges.  Raycast results, the
  rigidbody's velocity before the frame, the clock and the frame time are
  parameters.
*/
module Platformer {
  import opened UnityMath
  import opened PlayerAnimationStates

  datatype MovementInput = MovementInput(x: real, jumpDown: bool, jumpUp: bool)

  /** The phase of an input callback; the jump handler only looks at Performed and Canceled. */
  datatype InputPhase = Started | Performed | Canceled

  datatype MotionConfig = MotionConfig(
    acceleration: real,
    moveClamp: real,
    deAcceleration: real,
    apexBonus: real,
    detectorCount: int,
    detectionRayLength: real,
    rayBuffer: real,
    fallClamp: real,
    jumpVelocity: real,
    jumpApexThreshold: real,
    coyoteTimeThreshold: real,
    jumpBuffer: real,
    jumpEndEarlyGravityMultiplier: real)

  /** The controller's serialized defaults. */
  const DefaultConfig: MotionConfig :=
    MotionConfig(90.0, 13.0, 60.0, 2.0, 3, 0.1, 0.1, -40.0, 30.0, 10.0, 0.1, 0.1, 0.45)

  /**
    Signs and ranges of the tuning values under which the bounds below hold.
    The defaults satisfy them.
  */
  predicate Sane(cfg: MotionConfig) {
    && cfg.moveClamp >= 0.0
    && cfg.deAcceleration >= 0.0
    && cfg.fallClamp <= 0.0
    && cfg.jumpVelocity >= 0.0
    && cfg.jumpApexThreshold > 0.0
    && cfg.jumpEndEarlyGravityMultiplier >= 0.0
  }

  lemma DefaultsAreSane()
    ensures Sane(DefaultConfig)
  {
  }

  /** `float.MinValue`, written to the leave-ground time when a jump fires. */
  const FloatMinValue: real := -340282346638528859811704183484516925440.0

  datatype Body = Body(
    input: MovementInput,
    horizontalSpeed: real,
    verticalSpeed: real,
    apexPoint: real,
    coyoteUsable: bool,
    endedJumpEarly: bool,
    lastJumpPressed: real,
    grounded: bool,
    ofGroundTime: real)

  /** Fresh controller: everything zero or false, except that an early release is already "used". */
  const Initial: Body :=
    Body(MovementInput(0.0, false, false), 0.0, 0.0, 0.0, false, true, 0.0, false, 0.0)

  // ---------------------------------------------------------------- input

  /**
    Jump callback: the snapshot is rebuilt from the callback phase and the
    current axis reading, and a press stamps its time.
  */
  function GatherJumpInput(b: Body, phase: InputPhase, axis: real, now: real): (r: Body)
    ensures r.input == MovementInput(axis, phase == Performed, phase == Canceled)
    ensures r.lastJumpPressed == if phase == Performed then now else b.lastJumpPressed
    ensures r == b.(input := r.input, lastJumpPressed := r.lastJumpPressed)
  {
    var input := MovementInput(axis, phase == Performed, phase == Canceled);
    if input.jumpDown then b.(input := input, lastJumpPressed := now) else b.(input := input)
  }

  /** Axis callback: only the axis value changes. */
  function GatherHorizontalInput(b: Body, axis: real): (r: Body)
    ensures r.input.x == axis
    ensures r == b.(input := r.input)
    ensures r.input.jumpDown == b.input.jumpDown && r.input.jumpUp == b.input.jumpUp
  {
    b.(input := MovementInput(axis, b.input.jumpDown, b.input.jumpUp))
  }

  /** End of frame: the jump edges are consumed, the axis persists. */
  function ResetInput(i: MovementInput): (r: MovementInput)
    ensures !r.jumpDown && !r.jumpUp
    ensures r.x == i.x
  {
    MovementInput(i.x, false, false)
  }

  /**
    A press and a release delivered within one frame leave only the release in
    the snapshot (the press edge is lost), but the press time stays stamped.
  */
  lemma PressAndReleaseInOneFrame(b: Body, axis: real, pressTime: real, releaseTime: real)
    ensures var r := GatherJumpInput(GatherJumpInput(b, Performed, axis, pressTime), Canceled, axis, releaseTime);
            !r.input.jumpDown && r.input.jumpUp && r.lastJumpPressed == pressTime
  {
  }

  // ---------------------------------------------------------------- ground check

  /** `detectorCount` points evenly spaced from `start` to `end`, both included. */
  function EvaluateRayPositions(start: Vec2, end: Vec2, count: int): (r: seq<Vec2>)
    requires count != 1
    ensures |r| == if count <= 0 then 0 else count
    ensures count >= 2 ==> r[0] == start && r[count - 1] == end
    ensures start.y == end.y ==> forall i :: 0 <= i < |r| ==> r[i].y == start.y
    ensures start.x <= end.x ==> forall i :: 0 <= i < |r| ==> start.x <= r[i].x <= end.x
    ensures forall i :: 0 <= i < |r| - 1 ==> r[i + 1].x - r[i].x == (end.x - start.x) / (count - 1) as real
  {
    if count <= 0 then []
    else
      var n := (count - 1) as real;
      var r := seq(count, i requires 0 <= i < count => Lerp(start, end, i as real / n));
      forall i | 0 <= i < count - 1
        ensures r[i + 1].x - r[i].x == (end.x - start.x) / n
      {
        EvenSpacing(start, end, i, n);
      }
      forall i | 0 <= i < count
        ensures start.x <= end.x ==> start.x <= r[i].x <= end.x
      {
        if start.x <= end.x {
          InsideSegment(start, end, i as real / n);
        }
      }
      assert (count - 1) as real / n == 1.0;
      r
  }

  lemma EvenSpacing(start: Vec2, end: Vec2, i: nat, n: real)
    requires n >= 1.0 && (i + 1) as real <= n
    ensures Lerp(start, end, (i + 1) as real / n).x - Lerp(start, end, i as real / n).x
            == (end.x - start.x) / n
  {
    var t0 := i as real / n;
    var t1 := (i + 1) as real / n;
    assert 0.0 <= t0 <= 1.0 && 0.0 <= t1 <= 1.0;
    assert t1 - t0 == 1.0 / n;
    calc {
      Lerp(start, end, t1).x - Lerp(start, end, t0).x;
      (end.x - start.x) * t1 - (end.x - start.x) * t0;
      (end.x - start.x) * (t1 - t0);
      (end.x - start.x) * (1.0 / n);
    }
  }

  lemma InsideSegment(start: Vec2, end: Vec2, t: real)
    requires start.x <= end.x
    ensures start.x <= Lerp(start, end, t).x <= end.x
  {
    var u := Clamp01(t);
    var d := end.x - start.x;
    assert d * u >= 0.0;
    assert d - d * u == d * (1.0 - u);
    assert d * (1.0 - u) >= 0.0;
  }

  /** The probe segment: the bottom edge of the collider bounds, inset by `rayBuffer` on each side. */
  function ProbePoints(cfg: MotionConfig, boundsMin: Vec2, boundsMax: Vec2): (r: seq<Vec2>)
    requires cfg.detectorCount != 1
    ensures |r| == if cfg.detectorCount <= 0 then 0 else cfg.detectorCount
    ensures forall i :: 0 <= i < |r| ==> r[i].y == boundsMin.y
    ensures boundsMin.x + cfg.rayBuffer <= boundsMax.x - cfg.rayBuffer ==>
              forall i :: 0 <= i < |r| ==> boundsMin.x + cfg.rayBuffer <= r[i].x <= boundsMax.x - cfg.rayBuffer
    ensures cfg.detectorCount >= 2 ==>
              r[0] == Vec2(boundsMin.x + cfg.rayBuffer, boundsMin.y)
              && r[|r| - 1] == Vec2(boundsMax.x - cfg.rayBuffer, boundsMin.y)
  {
    EvaluateRayPositions(Vec2(boundsMin.x + cfg.rayBuffer, boundsMin.y),
                         Vec2(boundsMax.x - cfg.rayBuffer, boundsMin.y), cfg.detectorCount)
  }

  /**
    Ground check from the per-probe raycast results: leaving the ground stamps
    the leave time, touching down re-arms coyote time; nothing else changes.
  */
  function RunGroundCheck(b: Body, hits: seq<bool>, now: real): (r: Body)
    ensures r.grounded <==> true in hits
    ensures r.ofGroundTime == if b.grounded && !r.grounded then now else b.ofGroundTime
    ensures r.coyoteUsable == (b.coyoteUsable || (!b.grounded && r.grounded))
    ensures r == b.(grounded := r.grounded, ofGroundTime := r.ofGroundTime, coyoteUsable := r.coyoteUsable)
  {
    var groundedCheck := true in hits;
    var b' :=
      if b.grounded && !groundedCheck then b.(ofGroundTime := now)
      else if !b.grounded && groundedCheck then b.(coyoteUsable := true)
      else b;
    b'.(grounded := groundedCheck)
  }

  // ---------------------------------------------------------------- walking

  /** Near the top of a jump the factor approaches 1; on the ground it is 0. */
  function ApexPoint(cfg: MotionConfig, grounded: bool, verticalVelocity: real): (r: real)
    ensures 0.0 <= r <= 1.0
    ensures grounded ==> r == 0.0
    ensures !grounded && cfg.jumpApexThreshold != 0.0 && verticalVelocity == 0.0 ==> r == 1.0
    ensures cfg.jumpApexThreshold > 0.0 && Abs(verticalVelocity) >= cfg.jumpApexThreshold ==> r == 0.0
  {
    if grounded then 0.0
    else
      var v := Abs(verticalVelocity);
      var thr := cfg.jumpApexThreshold;
      assert thr > 0.0 && v >= thr ==> (v - thr) / (0.0 - thr) <= 0.0;
      InverseLerp(thr, 0.0, v)
  }

  /** With input: accelerate, clamp, then add the apex bonus.  Without: slow down towards 0. */
  function CalculateHorizontalSpeed(cfg: MotionConfig, h: real, x: real, apexPoint: real, dt: real): (r: real)
    ensures x != 0.0 && cfg.moveClamp >= 0.0 && dt >= 0.0 && 0.0 <= apexPoint ==>
              Abs(r) <= cfg.moveClamp + Abs(cfg.apexBonus) * apexPoint * dt
    ensures x != 0.0 && apexPoint == 0.0 && cfg.moveClamp >= 0.0 ==> -cfg.moveClamp <= r <= cfg.moveClamp
    ensures x == 0.0 && cfg.deAcceleration * dt >= 0.0 ==>
              Abs(h - r) <= cfg.deAcceleration * dt && (0.0 <= r <= h || h <= r <= 0.0)
    ensures x == 0.0 && r != 0.0 ==> Abs(h - r) == Abs(cfg.deAcceleration * dt)
  {
    if x != 0.0 then
      var clamped := Clamp(h + x * cfg.acceleration * dt, -cfg.moveClamp, cfg.moveClamp);
      var bonus := Sign(x) * cfg.apexBonus * apexPoint;
      BonusBound(x, cfg.apexBonus, apexPoint, dt);
      clamped + bonus * dt
    else
      MoveTowards(h, 0.0, cfg.deAcceleration * dt)
  }

  lemma BonusBound(x: real, apexBonus: real, apexPoint: real, dt: real)
    ensures dt >= 0.0 && apexPoint >= 0.0 ==>
              Abs(Sign(x) * apexBonus * apexPoint * dt) == Abs(apexBonus) * apexPoint * dt
  {
    if dt >= 0.0 && apexPoint >= 0.0 {
      var p := apexPoint * dt;
      assert p >= 0.0;
      assert Sign(x) * apexBonus * apexPoint * dt == Sign(x) * (apexBonus * p);
      assert Abs(Sign(x) * (apexBonus * p)) == Abs(apexBonus * p);
      assert Abs(apexBonus * p) == Abs(apexBonus) * p;
    }
  }

  /**
    With the axis held in one direction on the ground, the speed never decreases
    in that direction and never exceeds the clamp.
  */
  lemma HeldAxisAccelerates(cfg: MotionConfig, h: real, x: real, dt: real)
    requires cfg.moveClamp >= 0.0 && cfg.acceleration >= 0.0 && dt >= 0.0
    requires -cfg.moveClamp <= h <= cfg.moveClamp
    ensures x > 0.0 ==> h <= CalculateHorizontalSpeed(cfg, h, x, 0.0, dt) <= cfg.moveClamp
    ensures x < 0.0 ==> -cfg.moveClamp <= CalculateHorizontalSpeed(cfg, h, x, 0.0, dt) <= h
  {
    var step := x * cfg.acceleration * dt;
    assert x > 0.0 ==> step >= 0.0 by {
      if x > 0.0 {
        assert cfg.acceleration * dt >= 0.0;
        assert step == x * (cfg.acceleration * dt);
      }
    }
    assert x < 0.0 ==> step <= 0.0 by {
      if x < 0.0 {
        assert cfg.acceleration * dt >= 0.0;
        assert step == x * (cfg.acceleration * dt);
      }
    }
  }

  // ---------------------------------------------------------------- jumping

  predicate CanUseCoyote(cfg: MotionConfig, b: Body, now: real) {
    !b.grounded && b.coyoteUsable && b.ofGroundTime + cfg.coyoteTimeThreshold > now
  }

  predicate HasBufferedJump(cfg: MotionConfig, b: Body, now: real) {
    b.grounded && b.lastJumpPressed + cfg.jumpBuffer > now
  }

  /** A fresh press within coyote time, or a recent press on (re)landing. */
  predicate JumpFires(cfg: MotionConfig, b: Body, now: real) {
    (b.input.jumpDown && CanUseCoyote(cfg, b, now)) || HasBufferedJump(cfg, b, now)
  }

  /** Early release damps this frame: airborne, release edge, still rising, and not yet damped since the jump. */
  predicate ReleaseDamps(cfg: MotionConfig, b: Body, verticalVelocity: real, now: real) {
    && !b.grounded
    && b.input.jumpUp
    && (JumpFires(cfg, b, now) || !b.endedJumpEarly)
    && verticalVelocity > 0.0
  }

  /** Jump trigger, then early-release damping; `verticalVelocity` is the rigidbody's before the frame. */
  function CalculateJump(cfg: MotionConfig, b: Body, verticalVelocity: real, now: real): (r: Body)
    ensures JumpFires(cfg, b, now) ==>
              !r.coyoteUsable && r.ofGroundTime == FloatMinValue
    ensures !JumpFires(cfg, b, now) ==>
              r.coyoteUsable == b.coyoteUsable && r.ofGroundTime == b.ofGroundTime
    ensures r.verticalSpeed ==
              (if JumpFires(cfg, b, now) then cfg.jumpVelocity else b.verticalSpeed)
              * (if ReleaseDamps(cfg, b, verticalVelocity, now) then cfg.jumpEndEarlyGravityMultiplier else 1.0)
    ensures r.endedJumpEarly ==
              if ReleaseDamps(cfg, b, verticalVelocity, now) then true
              else if JumpFires(cfg, b, now) then false
              else b.endedJumpEarly
    ensures r == b.(verticalSpeed := r.verticalSpeed, endedJumpEarly := r.endedJumpEarly,
                    coyoteUsable := r.coyoteUsable, ofGroundTime := r.ofGroundTime)
  {
    var j :=
      if JumpFires(cfg, b, now) then
        b.(verticalSpeed := cfg.jumpVelocity, endedJumpEarly := false, coyoteUsable := false,
           ofGroundTime := FloatMinValue)
      else b;
    if !j.grounded && j.input.jumpUp && !j.endedJumpEarly && verticalVelocity > 0.0 then
      j.(verticalSpeed := j.verticalSpeed * cfg.jumpEndEarlyGravityMultiplier, endedJumpEarly := true)
    else j
  }

  // ---------------------------------------------------------------- animation

  /** The movement animation and, when not turning, the new x-scale of the sprite flipper. */
  datatype AnimationChoice = AnimationChoice(state: PlayerAnimationState, flip: Option<real>)

  function CalculateAnimation(isTurning: bool, velocity: Vec2): (r: AnimationChoice)
    ensures r.state == Jump <==> velocity.y > 0.0
    ensures r.state == Fall <==> velocity.y < 0.0
    ensures r.state == QuickTurn <==> velocity.y == 0.0 && velocity.x != 0.0 && isTurning
    ensures r.state == Run <==> velocity.y == 0.0 && velocity.x != 0.0 && !isTurning
    ensures r.state == Idle <==> velocity == Vec2(0.0, 0.0)
    ensures r.flip.Some? <==> !isTurning
    ensures r.flip.Some? ==> r.flip.value == (if velocity.x >= 0.0 then 1.0 else -1.0)
  {
    var state :=
      if velocity.y != 0.0 then (if velocity.y > 0.0 then Jump else Fall)
      else if velocity.x != 0.0 then (if isTurning then QuickTurn else Run)
      else Idle;
    AnimationChoice(state, if !isTurning then Some(Sign(velocity.x)) else None)
  }

  // ---------------------------------------------------------------- the frame

  /** One frame's results: new body, velocity written to the rigidbody, animation, and what fired. */
  datatype TickResult = TickResult(
    next: Body,
    velocity: Vec2,
    animation: AnimationChoice,
    jumped: bool,
    damped: bool)

  /**
    The part of the frame before the jump: fall clamp, apex factor and
    horizontal speed, computed on the ground-checked body `g`.
  */
  function PrepareFrame(cfg: MotionConfig, g: Body, rbVelocity: Vec2, dt: real): (p: Body)
    ensures p == g.(verticalSpeed := p.verticalSpeed, apexPoint := p.apexPoint, horizontalSpeed := p.horizontalSpeed)
    ensures p.verticalSpeed == Max(rbVelocity.y, cfg.fallClamp)
    ensures p.apexPoint == ApexPoint(cfg, g.grounded, rbVelocity.y)
    ensures p.horizontalSpeed == CalculateHorizontalSpeed(cfg, g.horizontalSpeed, g.input.x, p.apexPoint, dt)
    ensures Sane(cfg) && dt >= 0.0 && g.input.x != 0.0 ==>
              Abs(p.horizontalSpeed) <= cfg.moveClamp + Abs(cfg.apexBonus) * dt
  {
    var vertical := if rbVelocity.y < cfg.fallClamp then cfg.fallClamp else rbVelocity.y;
    var apex := ApexPoint(cfg, g.grounded, rbVelocity.y);
    var horizontal := CalculateHorizontalSpeed(cfg, g.horizontalSpeed, g.input.x, apex, dt);
    ApexBonusBound(cfg, g.horizontalSpeed, g.input.x, apex, dt);
    g.(verticalSpeed := vertical, apexPoint := apex, horizontalSpeed := horizontal)
  }

  /** Since the apex factor is at most 1, the bonus adds at most `|apexBonus| * dt` beyond the clamp. */
  lemma ApexBonusBound(cfg: MotionConfig, h: real, x: real, apex: real, dt: real)
    requires 0.0 <= apex <= 1.0
    ensures Sane(cfg) && dt >= 0.0 && x != 0.0 ==>
              Abs(CalculateHorizontalSpeed(cfg, h, x, apex, dt)) <= cfg.moveClamp + Abs(cfg.apexBonus) * dt
  {
    if Sane(cfg) && dt >= 0.0 && x != 0.0 {
      var k := Abs(cfg.apexBonus) * dt;
      assert k >= 0.0;
      assert Abs(cfg.apexBonus) * apex * dt == k * apex;
      var slack := 1.0 - apex;
      assert slack >= 0.0;
      assert k * slack >= 0.0;
      assert k - k * apex == k * slack;
    }
  }

  /** The jump and the damping never push the vertical speed below the fall clamp. */
  lemma JumpKeepsFallClamp(cfg: MotionConfig, p: Body, rbVelocity: Vec2, now: real)
    requires p.verticalSpeed == Max(rbVelocity.y, cfg.fallClamp)
    ensures Sane(cfg) ==> CalculateJump(cfg, p, rbVelocity.y, now).verticalSpeed >= cfg.fallClamp
  {
    if Sane(cfg) && ReleaseDamps(cfg, p, rbVelocity.y, now) {
      var base := if JumpFires(cfg, p, now) then cfg.jumpVelocity else p.verticalSpeed;
      assert base >= 0.0;
      assert base * cfg.jumpEndEarlyGravityMultiplier >= 0.0;
    }
  }

  /** One `Update` of the controller. */
  function Tick(cfg: MotionConfig, b: Body, hits: seq<bool>, rbVelocity: Vec2, now: real, dt: real): (r: TickResult)
    // the ground flag follows the probes; the jump edges are consumed, the axis kept
    ensures r.next.grounded <==> true in hits
    ensures r.next.input == MovementInput(b.input.x, false, false)
    ensures r.next.lastJumpPressed == b.lastJumpPressed
    // the rigidbody receives the body's speeds
    ensures r.velocity == Vec2(r.next.horizontalSpeed, r.next.verticalSpeed)
    ensures r.next.apexPoint == ApexPoint(cfg, r.next.grounded, rbVelocity.y)
    ensures r.next.horizontalSpeed ==
              CalculateHorizontalSpeed(cfg, b.horizontalSpeed, b.input.x, r.next.apexPoint, dt)
    ensures Sane(cfg) ==> r.velocity.y >= cfg.fallClamp
    // the vertical velocity written: jump or clamped rigidbody speed, times the damping factor
    ensures r.velocity.y ==
              (if r.jumped then cfg.jumpVelocity else Max(rbVelocity.y, cfg.fallClamp))
              * (if r.damped then cfg.jumpEndEarlyGravityMultiplier else 1.0)
    // the jump fires exactly under the coyote / buffer rule, judged after the ground check
    ensures var g := RunGroundCheck(b, hits, now);
            r.jumped <==> JumpFires(cfg, g, now)
    ensures r.jumped ==> !r.next.coyoteUsable && r.next.ofGroundTime == FloatMinValue
    ensures var g := RunGroundCheck(b, hits, now);
            !r.jumped ==> r.next.coyoteUsable == g.coyoteUsable && r.next.ofGroundTime == g.ofGroundTime
    ensures r.jumped && !r.damped ==> r.velocity.y == cfg.jumpVelocity && !r.next.endedJumpEarly
    // damping happens at most once per jump: it needs a jump since the last damping
    ensures r.damped <==> ReleaseDamps(cfg, RunGroundCheck(b, hits, now), rbVelocity.y, now)
    ensures r.damped ==> r.next.endedJumpEarly && !r.next.grounded && rbVelocity.y > 0.0
    ensures r.damped ==> r.jumped || !b.endedJumpEarly
    ensures !r.jumped && !r.damped ==> r.next.endedJumpEarly == b.endedJumpEarly
    // animation follows the written velocity; turning means speed against the input
    ensures r.animation == CalculateAnimation(OppositeSigns(r.velocity.x, b.input.x), r.velocity)
  {
    var g := RunGroundCheck(b, hits, now);
    var pre := PrepareFrame(cfg, g, rbVelocity, dt);
    var j := CalculateJump(cfg, pre, rbVelocity.y, now);
    JumpKeepsFallClamp(cfg, pre, rbVelocity, now);
    var velocity := Vec2(j.horizontalSpeed, j.verticalSpeed);
    var animation := CalculateAnimation(OppositeSigns(velocity.x, j.input.x), velocity);
    TickResult(j.(input := ResetInput(j.input)), velocity, animation,
               JumpFires(cfg, pre, now), ReleaseDamps(cfg, pre, rbVelocity.y, now))
  }

  /**
    With axis input, the horizontal speed a frame writes stays within
    `moveClamp` plus one frame of apex bonus.
  */
  lemma TickKeepsHorizontalClamp(cfg: MotionConfig, b: Body, hits: seq<bool>, rbVelocity: Vec2, now: real, dt: real)
    requires Sane(cfg) && dt >= 0.0 && b.input.x != 0.0
    ensures Abs(Tick(cfg, b, hits, rbVelocity, now, dt).velocity.x) <= cfg.moveClamp + Abs(cfg.apexBonus) * dt
  {
  }
}
