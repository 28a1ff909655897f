/**
  The animation priority state machine.  It holds the current state and a
  trigger-mode flag.  Movement code "applies" states, combat code "triggers"
  them; a triggered state can only be displaced by a state of strictly higher
  rank or by the animation-finished signal.  Every call returns the new
  machine, the integer it pushed to the animator (if any) and the events it
  raised, in order.
*/
module AnimationStateManager {
  import opened UnityMath
  import opened PlayerAnimationStates

  datatype Manager = Manager(current: PlayerAnimationState, inTriggerMode: bool)

  datatype AnimationEvent =
    | Canceled(canceled: PlayerAnimationState)
    | Performed(performed: PlayerAnimationState)

  /** One call's effect: the next machine, the value pushed to the animator, the events raised. */
  datatype Outcome = Outcome(next: Manager, pushed: Option<int>, events: seq<AnimationEvent>)

  /** A fresh machine shows Idle and is not in trigger mode. */
  const Initial: Manager := Manager(Idle, false)

  /** The call changes nothing and emits nothing. */
  predicate NoOp(m: Manager, o: Outcome) {
    o == Outcome(m, None, [])
  }

  /** Trigger mode always shows a state that outranks Idle (Idle can never be triggered). */
  predicate Valid(m: Manager) {
    m.inTriggerMode ==> m.current != Idle
  }

  /** Movement-driven update. */
  function ApplyAnimationState(m: Manager, s: PlayerAnimationState): (o: Outcome)
    // outside trigger mode the state is always taken, silently
    ensures !m.inTriggerMode ==> o == Outcome(Manager(s, false), Some(Rank(s)), [])
    // a triggered state of equal or higher rank is not disturbed at all
    ensures m.inTriggerMode && AtMost(s, m.current) ==> NoOp(m, o)
    // a higher-ranked state cancels the trigger exactly once and takes over
    ensures m.inTriggerMode && !AtMost(s, m.current) ==>
              o == Outcome(Manager(s, false), Some(Rank(s)), [Canceled(m.current)])
    // applying never enters trigger mode
    ensures o.next.inTriggerMode ==> NoOp(m, o)
  {
    if m.inTriggerMode && AtMost(s, m.current) then
      Outcome(m, None, [])
    else
      var events := if m.inTriggerMode then [Canceled(m.current)] else [];
      Outcome(Manager(s, false), Some(Rank(s)), events)
  }

  /** Combat-driven update. */
  function TriggerAnimationState(m: Manager, s: PlayerAnimationState): (o: Outcome)
    // a state of equal or lower rank is ignored, in either mode
    ensures AtMost(s, m.current) ==> NoOp(m, o)
    // a higher rank enters trigger mode and shows `s`
    ensures !AtMost(s, m.current) ==>
              o.next == Manager(s, true) && o.pushed == Some(Rank(s))
    // a Canceled event is raised iff a running trigger was displaced
    ensures o.events != [] <==> m.inTriggerMode && !AtMost(s, m.current)
    ensures o.events != [] ==> o.events == [Canceled(m.current)]
  {
    if AtMost(s, m.current) then
      Outcome(m, None, [])
    else
      var events := if m.inTriggerMode then [Canceled(m.current)] else [];
      Outcome(Manager(s, true), Some(Rank(s)), events)
  }

  /** Signal from the animation clip at its "performed" frame. */
  function OnAnimationPerformed(m: Manager): (o: Outcome)
    ensures o.next == m && o.pushed == None
    ensures o.events == [Performed(m.current)]
  {
    Outcome(m, None, [Performed(m.current)])
  }

  /** Signal from the animation clip when it ends: trigger mode is cleared before Idle is applied. */
  function OnAnimationFinished(m: Manager): (o: Outcome)
    ensures o.next == Initial
    ensures o.pushed == Some(Rank(Idle))
    ensures o.events == []
  {
    ApplyAnimationState(m.(inTriggerMode := false), Idle)
  }

  /** Every entry point keeps `Valid`. */
  lemma EntryPointsPreserveValid(m: Manager, s: PlayerAnimationState)
    requires Valid(m)
    ensures Valid(ApplyAnimationState(m, s).next)
    ensures Valid(TriggerAnimationState(m, s).next)
    ensures Valid(OnAnimationPerformed(m).next)
    ensures Valid(OnAnimationFinished(m).next)
  {
  }

  datatype Command =
    | Apply(applied: PlayerAnimationState)
    | Trigger(triggered: PlayerAnimationState)
    | AnimationPerformed
    | AnimationFinished

  function Handle(m: Manager, c: Command): Outcome {
    match c
    case Apply(s) => ApplyAnimationState(m, s)
    case Trigger(s) => TriggerAnimationState(m, s)
    case AnimationPerformed => OnAnimationPerformed(m)
    case AnimationFinished => OnAnimationFinished(m)
  }

  function PushTrace(p: Option<int>): seq<int> {
    match p
    case None => []
    case Some(v) => [v]
  }

  /** The result of a sequence of calls: final machine, every pushed value, every event. */
  datatype Trace = Trace(final: Manager, pushes: seq<int>, events: seq<AnimationEvent>)

  function Replay(m: Manager, cs: seq<Command>): Trace
    decreases |cs|
  {
    if cs == [] then Trace(m, [], [])
    else
      var o := Handle(m, cs[0]);
      var rest := Replay(o.next, cs[1..]);
      Trace(rest.final, PushTrace(o.pushed) + rest.pushes, o.events + rest.events)
  }

  /** The integer the animator holds after `pushes`, starting from `v`. */
  function AnimatorValue(v: int, pushes: seq<int>): int {
    if pushes == [] then v else pushes[|pushes| - 1]
  }

  /**
    The animator's integer always names the machine's current state: if it did
    before a sequence of calls, it does after it.  In particular, starting from
    `Initial` with the animator at 0, the animator shows the current state forever,
    and the machine stays `Valid`.
  */
  lemma {:induction false} ReplayKeepsAnimatorInSync(m: Manager, v: int, cs: seq<Command>)
    requires v == Rank(m.current)
    requires Valid(m)
    ensures AnimatorValue(v, Replay(m, cs).pushes) == Rank(Replay(m, cs).final.current)
    ensures Valid(Replay(m, cs).final)
    decreases |cs|
  {
    if cs != [] {
      var o := Handle(m, cs[0]);
      var v' := AnimatorValue(v, PushTrace(o.pushed));
      assert v' == Rank(o.next.current);
      EntryPointsPreserveValid(m, if cs[0].Apply? then cs[0].applied else if cs[0].Trigger? then cs[0].triggered else Idle);
      ReplayKeepsAnimatorInSync(o.next, v', cs[1..]);
      var rest := Replay(o.next, cs[1..]);
      if rest.pushes == [] {
        assert AnimatorValue(v, PushTrace(o.pushed) + rest.pushes) == v';
      } else {
        assert AnimatorValue(v, PushTrace(o.pushed) + rest.pushes) == AnimatorValue(v', rest.pushes);
      }
    }
  }

  /** Applies of states that do not outrank the running trigger, as movement code issues every frame. */
  predicate Suppressed(m: Manager, cs: seq<Command>) {
    forall i :: 0 <= i < |cs| ==> cs[i].Apply? && AtMost(cs[i].applied, m.current)
  }

  /**
    While a state is triggered, any number of applies of equal or lower rank
    leave the machine untouched: no push and no event.
  */
  lemma {:induction false} TriggerSurvivesLowerApplies(m: Manager, cs: seq<Command>)
    requires m.inTriggerMode
    requires Suppressed(m, cs)
    ensures Replay(m, cs) == Trace(m, [], [])
    decreases |cs|
  {
    if cs != [] {
      assert Suppressed(m, cs[1..]) by {
        forall i | 0 <= i < |cs[1..]|
          ensures cs[1..][i].Apply? && AtMost(cs[1..][i].applied, m.current)
        {
          assert cs[1..][i] == cs[i + 1];
        }
      }
      TriggerSurvivesLowerApplies(m, cs[1..]);
    }
  }

  /**
    A trigger of Attack followed by applies of Run is ignored, a trigger of Attack2
    cancels Attack, applying QuickTurn (rank 8) cancels even an attack, and the
    finished signal returns to Idle.
  */
  lemma AttackScenario()
    ensures Replay(Initial, [Trigger(Attack), Trigger(Run), Apply(Run)])
         == Trace(Manager(Attack, true), [4], [])
    ensures Replay(Initial, [Trigger(Attack), Trigger(Attack2)])
         == Trace(Manager(Attack2, true), [4, 5], [Canceled(Attack)])
    ensures Replay(Initial, [Trigger(Attack), Apply(QuickTurn)])
         == Trace(Manager(QuickTurn, false), [4, 8], [Canceled(Attack)])
    ensures Replay(Initial, [Trigger(Death), AnimationPerformed, AnimationFinished])
         == Trace(Initial, [7, 0], [Performed(Death)])
  {
  }
}
