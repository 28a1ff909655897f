/**
  Properties of the motion tick over several frames: the coyote and jump
  buffer windows, one jump per landing, one damping per jump, and steady
  acceleration on the ground.
*/
module PlatformerProperties {
  import opened UnityMath
  import opened Platformer

  /** The inputs of one frame: per-probe raycast results, rigidbody velocity, clock, frame time. */
  datatype MotionFrame = MotionFrame(hits: seq<bool>, rbVelocity: Vec2, now: real, dt: real)

  datatype MotionTrace = MotionTrace(final: Body, ticks: seq<TickResult>)

  function RunTicks(cfg: MotionConfig, b: Body, frames: seq<MotionFrame>): (t: MotionTrace)
    ensures |t.ticks| == |frames|
    decreases |frames|
  {
    if frames == [] then MotionTrace(b, [])
    else
      var f := frames[0];
      var r := Tick(cfg, b, f.hits, f.rbVelocity, f.now, f.dt);
      var rest := RunTicks(cfg, r.next, frames[1..]);
      MotionTrace(rest.final, [r] + rest.ticks)
  }

  /** No probe hits the ground in any of the frames. */
  predicate Airborne(frames: seq<MotionFrame>) {
    forall k :: 0 <= k < |frames| ==> !(true in frames[k].hits)
  }

  /**
    Without coyote time armed, no jump fires while the character stays in the
    air, and coyote time stays disarmed.
  */
  lemma {:induction false} NoJumpWhileAirborne(cfg: MotionConfig, b: Body, frames: seq<MotionFrame>)
    requires !b.coyoteUsable
    requires Airborne(frames)
    ensures forall k :: 0 <= k < |frames| ==> !RunTicks(cfg, b, frames).ticks[k].jumped
    ensures !RunTicks(cfg, b, frames).final.coyoteUsable
    decreases |frames|
  {
    if frames != [] {
      var f := frames[0];
      var r := Tick(cfg, b, f.hits, f.rbVelocity, f.now, f.dt);
      assert !r.jumped;
      assert Airborne(frames[1..]) by {
        forall k | 0 <= k < |frames[1..]| ensures !(true in frames[1..][k].hits) {
          assert frames[1..][k] == frames[k + 1];
        }
      }
      NoJumpWhileAirborne(cfg, r.next, frames[1..]);
      var t := RunTicks(cfg, b, frames);
      forall k | 0 <= k < |frames| ensures !t.ticks[k].jumped {
        if k > 0 {
          assert t.ticks[k] == RunTicks(cfg, r.next, frames[1..]).ticks[k - 1];
        }
      }
    }
  }

  /**
    After a jump fires, no further jump (coyote or buffered) can fire until a
    probe touches the ground again.
  */
  lemma OneJumpPerLanding(cfg: MotionConfig, b: Body, jump: MotionFrame, frames: seq<MotionFrame>)
    requires Tick(cfg, b, jump.hits, jump.rbVelocity, jump.now, jump.dt).jumped
    requires Airborne(frames)
    ensures var after := Tick(cfg, b, jump.hits, jump.rbVelocity, jump.now, jump.dt).next;
            forall k :: 0 <= k < |frames| ==> !RunTicks(cfg, after, frames).ticks[k].jumped
  {
    NoJumpWhileAirborne(cfg, Tick(cfg, b, jump.hits, jump.rbVelocity, jump.now, jump.dt).next, frames);
  }

  /**
    Airborne frames without a jump press leave coyote time alone: it stays armed
    or disarmed, the leave-ground stamp is kept, and no press appears.
  */
  lemma {:induction false} AirborneKeepsCoyote(cfg: MotionConfig, b: Body, frames: seq<MotionFrame>)
    requires !b.grounded && !b.input.jumpDown
    requires Airborne(frames)
    ensures var f := RunTicks(cfg, b, frames).final;
            f.coyoteUsable == b.coyoteUsable && f.ofGroundTime == b.ofGroundTime
            && !f.grounded && !f.input.jumpDown && f.input.x == b.input.x
            && f.lastJumpPressed == b.lastJumpPressed
    decreases |frames|
  {
    if frames != [] {
      var f := frames[0];
      var r := Tick(cfg, b, f.hits, f.rbVelocity, f.now, f.dt);
      assert !r.jumped;
      assert r.next.coyoteUsable == b.coyoteUsable && r.next.ofGroundTime == b.ofGroundTime;
      assert Airborne(frames[1..]) by {
        forall k | 0 <= k < |frames[1..]| ensures !(true in frames[1..][k].hits) {
          assert frames[1..][k] == frames[k + 1];
        }
      }
      AirborneKeepsCoyote(cfg, r.next, frames[1..]);
    }
  }

  /**
    Coyote time: the character walks off a ledge at `t0` (a frame whose probes
    all miss, without a jump press), stays in the air for any number of frames
    without a press, and then presses jump `delta` after `t0`, still in the
    air: the jump fires exactly when `delta < coyoteTimeThreshold`.
  */
  lemma CoyoteWindow(cfg: MotionConfig, b: Body, leave: MotionFrame, mids: seq<MotionFrame>, axis: real,
                     delta: real, hits: seq<bool>, rbVelocity: Vec2, dt: real)
    requires b.grounded && b.coyoteUsable && !b.input.jumpDown
    requires !(true in leave.hits) && Airborne(mids) && !(true in hits)
    ensures var left := Tick(cfg, b, leave.hits, leave.rbVelocity, leave.now, leave.dt).next;
            var pressed := GatherJumpInput(RunTicks(cfg, left, mids).final, Performed, axis, leave.now + delta);
            Tick(cfg, pressed, hits, rbVelocity, leave.now + delta, dt).jumped <==> delta < cfg.coyoteTimeThreshold
  {
    var r := Tick(cfg, b, leave.hits, leave.rbVelocity, leave.now, leave.dt);
    assert !r.jumped;
    assert r.next.coyoteUsable && r.next.ofGroundTime == leave.now;
    AirborneKeepsCoyote(cfg, r.next, mids);
  }

  /**
    Jump buffering: a press at `t0` while airborne fires a jump on the landing
    frame `delta` later exactly when `delta < jumpBuffer`.
  */
  lemma JumpBufferWindow(cfg: MotionConfig, b: Body, axis: real, t0: real, delta: real,
                         hits: seq<bool>, rbVelocity: Vec2, dt: real)
    requires true in hits
    ensures Tick(cfg, GatherJumpInput(b, Performed, axis, t0), hits, rbVelocity, t0 + delta, dt).jumped
            <==> delta < cfg.jumpBuffer
  {
  }

  /**
    The jump-press stamp survives every frame, so a buffered press is still seen
    on a later landing; only a new press overwrites it.
  */
  lemma {:induction false} PressTimeSurvivesFrames(cfg: MotionConfig, b: Body, frames: seq<MotionFrame>)
    ensures RunTicks(cfg, b, frames).final.lastJumpPressed == b.lastJumpPressed
    decreases |frames|
  {
    if frames != [] {
      var f := frames[0];
      PressTimeSurvivesFrames(cfg, Tick(cfg, b, f.hits, f.rbVelocity, f.now, f.dt).next, frames[1..]);
    }
  }

  /**
    A quirk of the initial state: the press stamp starts at 0, so a character
    that is on the ground during the first `jumpBuffer` seconds jumps without
    any press.
  */
  lemma FirstGroundedFrameJumpsUnprompted(cfg: MotionConfig, hits: seq<bool>, rbVelocity: Vec2, now: real, dt: real)
    requires true in hits && now < cfg.jumpBuffer
    ensures Tick(cfg, Initial, hits, rbVelocity, now, dt).jumped
  {
  }

  function CountDamped(ticks: seq<TickResult>): nat
    decreases |ticks|
  {
    if ticks == [] then 0 else (if ticks[0].damped then 1 else 0) + CountDamped(ticks[1..])
  }

  /**
    Early release damps at most once between jumps, and not at all when the
    damping has already been used (as in the initial state, before any jump).
    Afterwards the flag records whether it has been used.
  */
  lemma {:induction false} DampingAtMostOncePerJump(cfg: MotionConfig, b: Body, frames: seq<MotionFrame>)
    requires forall k :: 0 <= k < |frames| ==> !RunTicks(cfg, b, frames).ticks[k].jumped
    ensures CountDamped(RunTicks(cfg, b, frames).ticks) <= 1
    ensures b.endedJumpEarly ==> CountDamped(RunTicks(cfg, b, frames).ticks) == 0
    ensures RunTicks(cfg, b, frames).final.endedJumpEarly
            <==> b.endedJumpEarly || CountDamped(RunTicks(cfg, b, frames).ticks) == 1
    decreases |frames|
  {
    if frames != [] {
      var f := frames[0];
      var r := Tick(cfg, b, f.hits, f.rbVelocity, f.now, f.dt);
      var t := RunTicks(cfg, b, frames);
      var rest := RunTicks(cfg, r.next, frames[1..]);
      assert t.ticks == [r] + rest.ticks;
      assert t.ticks[1..] == rest.ticks;
      assert !r.jumped by { assert t.ticks[0] == r; }
      forall k | 0 <= k < |frames[1..]| ensures !rest.ticks[k].jumped {
        assert rest.ticks[k] == t.ticks[k + 1];
      }
      DampingAtMostOncePerJump(cfg, r.next, frames[1..]);
    }
  }

  /** Every probe touches the ground in every frame. */
  predicate Grounded(frames: seq<MotionFrame>) {
    forall k :: 0 <= k < |frames| ==> true in frames[k].hits
  }

  /**
    Holding the axis to the right on the ground, the horizontal speed never
    decreases from frame to frame and never exceeds `moveClamp` (mirrored for
    the left).
  */
  lemma {:induction false} HeldAxisOnGround(cfg: MotionConfig, b: Body, frames: seq<MotionFrame>)
    requires Sane(cfg) && cfg.acceleration >= 0.0
    requires Grounded(frames)
    requires forall k :: 0 <= k < |frames| ==> frames[k].dt >= 0.0
    requires -cfg.moveClamp <= b.horizontalSpeed <= cfg.moveClamp
    ensures var h := RunTicks(cfg, b, frames).final.horizontalSpeed;
            b.input.x > 0.0 ==> b.horizontalSpeed <= h <= cfg.moveClamp
    ensures var h := RunTicks(cfg, b, frames).final.horizontalSpeed;
            b.input.x < 0.0 ==> -cfg.moveClamp <= h <= b.horizontalSpeed
    ensures RunTicks(cfg, b, frames).final.input.x == b.input.x
    decreases |frames|
  {
    if frames != [] {
      var f := frames[0];
      var r := Tick(cfg, b, f.hits, f.rbVelocity, f.now, f.dt);
      HeldAxisAccelerates(cfg, b.horizontalSpeed, b.input.x, f.dt);
      assert r.next.apexPoint == 0.0;
      assert Grounded(frames[1..]) by {
        forall k | 0 <= k < |frames[1..]| ensures true in frames[1..][k].hits {
          assert frames[1..][k] == frames[k + 1];
        }
      }
      HeldAxisOnGround(cfg, r.next, frames[1..]);
    }
  }
}
