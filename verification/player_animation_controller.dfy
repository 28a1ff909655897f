/**
  The player's animation selection: an attack animation is triggered when the
  attacker allowed it this frame and an attack is supplied; otherwise the
  movement animation is chosen from the velocity and axis input, the sprite is
  flipped towards the motion, and the state is applied.
*/
module PlayerAnimationController {
  import opened UnityMath
  import opened PlayerAnimationStates
  import opened Attacks
  import AnimationStateManager
  import Platformer

  datatype Controller = Controller(canPlayAttackAnimation: bool)

  const Initial: Controller := Controller(false)

  /** Copies the attacker's ability flag for this frame, whatever it was before. */
  function PreUpdate(c: Controller, isAbleToAttack: bool): (r: Controller)
    ensures r.canPlayAttackAnimation == isAbleToAttack
  {
    c.(canPlayAttackAnimation := isAbleToAttack)
  }

  /** The single call the controller makes on the state machine, with the flip of the sprite when applying. */
  datatype Decision =
    | TriggerCall(triggered: PlayerAnimationState)
    | ApplyCall(applied: PlayerAnimationState, flip: Option<real>)

  function UpdateAnimationSystem(c: Controller, inputX: real, attack: Option<AttackInfo>, velocity: Vec2): (d: Decision)
    // the attack path triggers the attack's state, and nothing else
    ensures d.TriggerCall? <==> c.canPlayAttackAnimation && attack.Some?
    ensures d.TriggerCall? ==> d.triggered == attack.value.state
    // the movement path: vertical motion first, then horizontal, else Idle
    ensures d.ApplyCall? ==> (d.applied == Jump <==> velocity.y > 0.0)
    ensures d.ApplyCall? ==> (d.applied == Fall <==> velocity.y < 0.0)
    ensures d.ApplyCall? ==> (d.applied == QuickTurn <==> velocity.y == 0.0 && OppositeSigns(velocity.x, inputX))
    ensures d.ApplyCall? ==>
              (d.applied == Run <==> velocity.y == 0.0 && velocity.x != 0.0 && !OppositeSigns(velocity.x, inputX))
    ensures d.ApplyCall? ==> (d.applied == Idle <==> velocity == Vec2(0.0, 0.0))
    // the sprite faces the motion unless turning or without axis input
    ensures d.ApplyCall? ==> (d.flip.Some? <==> d.applied != QuickTurn && inputX != 0.0)
    ensures d.ApplyCall? && d.flip.Some? ==> d.flip.value == (if velocity.x >= 0.0 then 1.0 else -1.0)
  {
    if c.canPlayAttackAnimation && attack.Some? then
      TriggerCall(attack.value.state)
    else
      var isTurning := velocity.y == 0.0 && OppositeSigns(velocity.x, inputX);
      var state :=
        if velocity.y != 0.0 then (if velocity.y > 0.0 then Jump else Fall)
        else if velocity.x != 0.0 then (if isTurning then QuickTurn else Run)
        else Idle;
      ApplyCall(state, if !isTurning && inputX != 0.0 then Some(Sign(velocity.x)) else None)
  }

  /** The flipper's local scale after the decision: only the x component may change. */
  function ApplyFlip(scale: Vec3, flip: Option<real>): (r: Vec3)
    ensures r.y == scale.y && r.z == scale.z
    ensures flip.None? ==> r == scale
    ensures flip.Some? ==> r.x == flip.value
  {
    match flip
    case None => scale
    case Some(x) => scale.(x := x)
  }

  /** Carries the decision out on the state machine: exactly one trigger or one apply. */
  function Execute(m: AnimationStateManager.Manager, d: Decision): (o: AnimationStateManager.Outcome)
    ensures d.TriggerCall? ==> o == AnimationStateManager.TriggerAnimationState(m, d.triggered)
    ensures d.ApplyCall? ==> o == AnimationStateManager.ApplyAnimationState(m, d.applied)
  {
    match d
    case TriggerCall(s) => AnimationStateManager.Handle(m, AnimationStateManager.Trigger(s))
    case ApplyCall(s, _) => AnimationStateManager.Handle(m, AnimationStateManager.Apply(s))
  }

  /**
    Outside the attack path, this controller and the platformer controller pick
    the same movement state for the same velocity and axis input.
  */
  lemma SameStateAsPlatformer(c: Controller, inputX: real, attack: Option<AttackInfo>, velocity: Vec2)
    requires !(c.canPlayAttackAnimation && attack.Some?)
    ensures UpdateAnimationSystem(c, inputX, attack, velocity).applied
         == Platformer.CalculateAnimation(OppositeSigns(velocity.x, inputX), velocity).state
  {
  }

  /**
    The two controllers flip the sprite under different rules: this one never
    flips without axis input, the platformer does; in the air this one flips
    even against the input, the platformer does not.
  */
  lemma FlipRulesDiffer(velocity: Vec2, inputX: real)
    ensures inputX == 0.0 ==> UpdateAnimationSystem(Initial, inputX, None, velocity).flip.None?
    ensures inputX == 0.0 ==> Platformer.CalculateAnimation(OppositeSigns(velocity.x, inputX), velocity).flip.Some?
    ensures velocity.y != 0.0 && OppositeSigns(velocity.x, inputX) ==>
              UpdateAnimationSystem(Initial, inputX, None, velocity).flip.Some?
              && Platformer.CalculateAnimation(OppositeSigns(velocity.x, inputX), velocity).flip.None?
  {
  }

  /**
    Once an attack animation is triggered, the movement frames that follow are
    ignored by the state machine, except QuickTurn, whose rank 8 outranks the
    attack and cancels it.
  */
  lemma AttackSurvivesMovementFrames(m: AnimationStateManager.Manager, attack: AttackInfo,
                                     inputX: real, velocity: Vec2)
    requires m.current in {Idle, Jump, Fall, Run}
    requires attack.state in {Attack, Attack2}
    ensures var attacking := Execute(m, UpdateAnimationSystem(Controller(true), inputX, Some(attack), velocity)).next;
            var moving := UpdateAnimationSystem(Controller(false), inputX, None, velocity);
            attacking == AnimationStateManager.Manager(attack.state, true)
            && (moving.applied != QuickTurn ==> AnimationStateManager.NoOp(attacking, Execute(attacking, moving)))
            && (moving.applied == QuickTurn ==>
                  Execute(attacking, moving).events == [AnimationStateManager.Canceled(attack.state)])
  {
    AttacksOutrankMovement(attack.state, m.current);
  }
}
