/**
  Attack arbitration.  Each of the two attack buttons stamps its own slot with
  the press time; a slot holding a positive time is pending.  Every frame the
  controller either counts down the shared recharge timer, or picks one pending
  attack inside the input-buffer window, fires it (starting the recharge timer
  and triggering its animation) and consumes the slot(s) holding that attack.
  Slots that have outlived the window are both cleared without an attack.
*/
module CharacterFighting {
  import opened UnityMath
  import opened PlayerAnimationStates
  import opened Attacks
  import AnimationStateManager

  datatype AttackInput = AttackInput(lastTimeA: real, lastTimeB: real)

  datatype Fighter = Fighter(input: AttackInput, rechargeTimer: real)

  datatype FightConfig = FightConfig(attackA: AttackInfo, attackB: AttackInfo, inputBuffer: real)

  /** Slots start at the default 0 (not pending) and the timer at 0 (ready). */
  const Initial: Fighter := Fighter(AttackInput(0.0, 0.0), 0.0)

  /** The value a consumed or expired slot is reset to. */
  const Consumed: real := -1.0

  /** How close the arbitration time must be to slot A's time for A to be chosen. */
  const Tolerance: real := 0.001

  predicate Pending(t: real) {
    t > 0.0
  }

  /** The press at time `t` is older than the buffer window allows. */
  predicate Expired(t: real, buffer: real, now: real) {
    t + buffer < now
  }

  /** Some slot holds a press. */
  function InputIsBuffered(i: AttackInput): (r: bool)
    ensures r <==> Pending(i.lastTimeA) || Pending(i.lastTimeB)
  {
    Max(i.lastTimeA, i.lastTimeB) > 0.0
  }

  /** Press handler of the basic attack: only a performed press stamps slot A. */
  function GatherInputAttackA(i: AttackInput, performed: bool, now: real): (r: AttackInput)
    ensures r.lastTimeB == i.lastTimeB
    ensures performed ==> r.lastTimeA == now
    ensures !performed ==> r == i
  {
    if performed then i.(lastTimeA := now) else i
  }

  /** Press handler of the strong attack: only a performed press stamps slot B. */
  function GatherInputAttackB(i: AttackInput, performed: bool, now: real): (r: AttackInput)
    ensures r.lastTimeA == i.lastTimeA
    ensures performed ==> r.lastTimeB == now
    ensures !performed ==> r == i
  {
    if performed then i.(lastTimeB := now) else i
  }

  /** Consumes the requested slots: each one reset becomes `Consumed`, the other keeps its press. */
  function RestInput(i: AttackInput, resetA: bool, resetB: bool): (r: AttackInput)
    ensures r.lastTimeA == (if resetA then Consumed else i.lastTimeA)
    ensures r.lastTimeB == (if resetB then Consumed else i.lastTimeB)
    ensures !Pending(r.lastTimeA) <==> resetA || !Pending(i.lastTimeA)
    ensures !Pending(r.lastTimeB) <==> resetB || !Pending(i.lastTimeB)
  {
    AttackInput(if resetA then Consumed else i.lastTimeA, if resetB then Consumed else i.lastTimeB)
  }

  /** The earlier press, unless it has expired, in which case the later one. */
  function AttackTime(i: AttackInput, buffer: real, now: real): real {
    var earliest := Min(i.lastTimeA, i.lastTimeB);
    if Expired(earliest, buffer, now) then Max(i.lastTimeA, i.lastTimeB) else earliest
  }

  /** Slot A wins when it is pending and its time is within the tolerance of the arbitration time. */
  predicate ChoosesA(i: AttackInput, buffer: real, now: real) {
    Pending(i.lastTimeA) && Abs(AttackTime(i, buffer, now) - i.lastTimeA) < Tolerance
  }

  /** Both slots, the later one included, are older than the window. */
  predicate AllExpired(i: AttackInput, buffer: real, now: real) {
    Expired(Min(i.lastTimeA, i.lastTimeB), buffer, now) && Expired(Max(i.lastTimeA, i.lastTimeB), buffer, now)
  }

  datatype Target = Target(input: AttackInput, attack: Option<AttackInfo>)

  /** Picks the attack to fire, or clears both slots when every press is too old. */
  function GetTargetAttack(cfg: FightConfig, i: AttackInput, now: real): (t: Target)
    ensures t.attack.None? <==> AllExpired(i, cfg.inputBuffer, now)
    ensures t.attack.None? ==> t.input == AttackInput(Consumed, Consumed)
    ensures t.attack.Some? ==> t.input == i
    ensures t.attack.Some? ==>
              t.attack.value == if ChoosesA(i, cfg.inputBuffer, now) then cfg.attackA else cfg.attackB
  {
    if AllExpired(i, cfg.inputBuffer, now) then
      Target(RestInput(i, true, true), None)
    else if ChoosesA(i, cfg.inputBuffer, now) then
      Target(i, Some(cfg.attackA))
    else
      Target(i, Some(cfg.attackB))
  }

  /**
    With both slots pending and the earlier press still in the window, the earlier
    press wins, and a B press at most `Tolerance` earlier than A still goes to A.
  */
  lemma EarlierPressWins(i: AttackInput, buffer: real, now: real)
    requires Pending(i.lastTimeA) && Pending(i.lastTimeB)
    requires !Expired(Min(i.lastTimeA, i.lastTimeB), buffer, now)
    ensures ChoosesA(i, buffer, now) <==> i.lastTimeA < i.lastTimeB + Tolerance
  {
  }

  /**
    With both slots pending and only the later press still in the window, the
    later press wins, and again a near tie goes to A.
  */
  lemma LaterPressWinsAfterEarlierExpires(i: AttackInput, buffer: real, now: real)
    requires Pending(i.lastTimeA) && Pending(i.lastTimeB)
    requires Expired(Min(i.lastTimeA, i.lastTimeB), buffer, now)
    requires !Expired(Max(i.lastTimeA, i.lastTimeB), buffer, now)
    ensures ChoosesA(i, buffer, now) <==> i.lastTimeB < i.lastTimeA + Tolerance
  {
  }

  /**
    The sentinel quirk.  When only A is pending (B holds 0 or the consumed -1) and
    A is in the window, arbitration starts from `Min`, which is B's sentinel.  If
    the sentinel itself counts as expired, A fires; if it does not (early in the
    game, `now <= sentinel + inputBuffer`), the sentinel is taken as the press
    time and B fires although B was never pressed.
  */
  lemma SentinelQuirk(cfg: FightConfig, i: AttackInput, now: real)
    requires Pending(i.lastTimeA) && !Pending(i.lastTimeB)
    requires !Expired(i.lastTimeA, cfg.inputBuffer, now)
    ensures Expired(i.lastTimeB, cfg.inputBuffer, now) ==>
              GetTargetAttack(cfg, i, now).attack == Some(cfg.attackA)
    ensures !Expired(i.lastTimeB, cfg.inputBuffer, now) && i.lastTimeA - i.lastTimeB >= Tolerance ==>
              GetTargetAttack(cfg, i, now).attack == Some(cfg.attackB)
  {
  }

  datatype FightOutcome = FightOutcome(next: Fighter, fired: Option<AttackInfo>)

  /** One frame of the fighting controller. */
  function Update(cfg: FightConfig, f: Fighter, now: real, dt: real): (o: FightOutcome)
    // while recharging, only the timer moves
    ensures f.rechargeTimer > 0.0 ==> o == FightOutcome(Fighter(f.input, f.rechargeTimer - dt), None)
    // with nothing pending, nothing happens
    ensures f.rechargeTimer <= 0.0 && !InputIsBuffered(f.input) ==> o == FightOutcome(f, None)
    // when the presses are all too old, both slots clear and the timer stays
    ensures f.rechargeTimer <= 0.0 && InputIsBuffered(f.input) && AllExpired(f.input, cfg.inputBuffer, now) ==>
              o == FightOutcome(Fighter(AttackInput(Consumed, Consumed), f.rechargeTimer), None)
    // a fired attack is one of the two configured ones, and it starts the recharge timer
    ensures o.fired.Some? ==> o.fired.value in {cfg.attackA, cfg.attackB}
    ensures o.fired.Some? ==>
              o.fired.value == if ChoosesA(f.input, cfg.inputBuffer, now) then cfg.attackA else cfg.attackB
    ensures o.fired.Some? ==> o.next.rechargeTimer == o.fired.value.rechargeTime
    // exactly the slots holding the fired attack are consumed; the other slot stays pending
    ensures o.fired.Some? ==>
              o.next.input.lastTimeA == (if o.fired.value == cfg.attackA then Consumed else f.input.lastTimeA)
    ensures o.fired.Some? ==>
              o.next.input.lastTimeB == (if o.fired.value == cfg.attackB then Consumed else f.input.lastTimeB)
    // an attack fires iff the timer is ready and some press is pending and in the window
    ensures o.fired.Some? <==>
              f.rechargeTimer <= 0.0 && InputIsBuffered(f.input) && !AllExpired(f.input, cfg.inputBuffer, now)
  {
    if f.rechargeTimer > 0.0 then
      FightOutcome(f.(rechargeTimer := f.rechargeTimer - dt), None)
    else if !InputIsBuffered(f.input) then
      FightOutcome(f, None)
    else
      var t := GetTargetAttack(cfg, f.input, now);
      match t.attack
      case None => FightOutcome(f.(input := t.input), None)
      case Some(attack) =>
        EqualsIsValueEquality(attack, cfg.attackA);
        EqualsIsValueEquality(attack, cfg.attackB);
        var reset := RestInput(t.input, Equals(attack, cfg.attackA), Equals(attack, cfg.attackB));
        FightOutcome(Fighter(reset, attack.rechargeTime), Some(attack))
  }

  /** Hands a frame's outcome to the animation machine: a fired attack triggers its state once. */
  function DriveAnimator(m: AnimationStateManager.Manager, o: FightOutcome): (r: AnimationStateManager.Outcome)
    ensures o.fired.None? ==> AnimationStateManager.NoOp(m, r)
    ensures o.fired.Some? ==> r == AnimationStateManager.TriggerAnimationState(m, o.fired.value.state)
  {
    match o.fired
    case None => AnimationStateManager.Outcome(m, None, [])
    case Some(attack) => AnimationStateManager.Handle(m, AnimationStateManager.Trigger(attack.state))
  }

  /**
    An attack fired while the player shows a movement state puts the attack's
    state in trigger mode, so movement applies are ignored until it finishes.
  */
  lemma FiredAttackTakesOverAnimation(cfg: FightConfig, f: Fighter, m: AnimationStateManager.Manager,
                                      now: real, dt: real, movement: PlayerAnimationState)
    requires cfg.attackA.state in {Attack, Attack2} && cfg.attackB.state in {Attack, Attack2}
    requires m.current in {Idle, Jump, Fall, Run}
    requires movement in {Idle, Jump, Fall, Run}
    requires Update(cfg, f, now, dt).fired.Some?
    ensures DriveAnimator(m, Update(cfg, f, now, dt)).next.inTriggerMode
    ensures DriveAnimator(m, Update(cfg, f, now, dt)).next.current == Update(cfg, f, now, dt).fired.value.state
    ensures AnimationStateManager.NoOp(
              DriveAnimator(m, Update(cfg, f, now, dt)).next,
              AnimationStateManager.ApplyAnimationState(DriveAnimator(m, Update(cfg, f, now, dt)).next, movement))
  {
    var attack := Update(cfg, f, now, dt).fired.value;
    AttacksOutrankMovement(attack.state, m.current);
    AttacksOutrankMovement(attack.state, movement);
  }

  datatype Frame = Frame(now: real, dt: real)

  datatype FightTrace = FightTrace(final: Fighter, fired: seq<Option<AttackInfo>>)

  /** Runs the controller over consecutive frames, collecting what fired in each. */
  function RunFrames(cfg: FightConfig, f: Fighter, frames: seq<Frame>): (r: FightTrace)
    ensures |r.fired| == |frames|
    decreases |frames|
  {
    if frames == [] then FightTrace(f, [])
    else
      var o := Update(cfg, f, frames[0].now, frames[0].dt);
      var rest := RunFrames(cfg, o.next, frames[1..]);
      FightTrace(rest.final, [o.fired] + rest.fired)
  }

  function TotalDt(frames: seq<Frame>): real
    decreases |frames|
  {
    if frames == [] then 0.0 else frames[0].dt + TotalDt(frames[1..])
  }

  lemma {:induction false} TotalDtNonNegative(frames: seq<Frame>)
    requires forall k :: 0 <= k < |frames| ==> frames[k].dt >= 0.0
    ensures TotalDt(frames) >= 0.0
    decreases |frames|
  {
    if frames != [] {
      TotalDtNonNegative(frames[1..]);
    }
  }

  /**
    The shared cooldown: as long as the recharge timer exceeds the time that
    passes, no attack fires, no press is consumed or expired, and the timer
    only counts down.
  */
  lemma {:induction false} CooldownBlocksAttacks(cfg: FightConfig, f: Fighter, frames: seq<Frame>)
    requires forall k :: 0 <= k < |frames| ==> frames[k].dt >= 0.0
    requires f.rechargeTimer > TotalDt(frames)
    ensures RunFrames(cfg, f, frames).final == Fighter(f.input, f.rechargeTimer - TotalDt(frames))
    ensures forall k :: 0 <= k < |frames| ==> RunFrames(cfg, f, frames).fired[k].None?
    decreases |frames|
  {
    if frames != [] {
      var rest := frames[1..];
      TotalDtNonNegative(rest);
      var f' := Fighter(f.input, f.rechargeTimer - frames[0].dt);
      assert Update(cfg, f, frames[0].now, frames[0].dt).next == f';
      CooldownBlocksAttacks(cfg, f', rest);
      var r := RunFrames(cfg, f, frames);
      forall k | 0 <= k < |frames|
        ensures r.fired[k].None?
      {
        if k > 0 {
          assert r.fired[k] == RunFrames(cfg, f', rest).fired[k - 1];
        }
      }
    }
  }

  /**
    Two near-simultaneous presses (A at 5.0, B at 5.0005, window 0.1, frame at
    5.05): A fires.  When the two attacks differ, only A's slot is consumed and
    B stays pending.
  */
  lemma NearTieGoesToA(cfg: FightConfig)
    requires cfg.inputBuffer == 0.1 && cfg.attackA != cfg.attackB
    ensures Update(cfg, Fighter(AttackInput(5.0, 5.0005), 0.0), 5.05, 0.02)
         == FightOutcome(Fighter(AttackInput(Consumed, 5.0005), cfg.attackA.rechargeTime), Some(cfg.attackA))
  {
  }

  /** A lone press at 5.0 seen at 5.2 with a window of 0.1 fires nothing and clears both slots. */
  lemma StalePressDecays(cfg: FightConfig)
    requires cfg.inputBuffer == 0.1
    ensures Update(cfg, Fighter(AttackInput(5.0, 0.0), 0.0), 5.2, 0.02)
         == FightOutcome(Fighter(AttackInput(Consumed, Consumed), 0.0), None)
  {
  }

  /**
    The sentinel quirk from a fresh controller: pressing A at time 0.05 with a
    window of 0.1 fires B, because B's untouched slot (0) is the earlier "press"
    and is still inside the window.
  */
  lemma EarlyPressOfAFiresB(cfg: FightConfig)
    requires cfg.inputBuffer == 0.1 && cfg.attackA != cfg.attackB
    ensures Update(cfg, Initial.(input := GatherInputAttackA(Initial.input, true, 0.05)), 0.05, 0.02)
         == FightOutcome(Fighter(AttackInput(0.05, Consumed), cfg.attackB.rechargeTime), Some(cfg.attackB))
  {
  }
}
