/**
  The ranked animation states of the player.  Every priority comparison in the
  animation state machine compares the integer values below, so the rank is
  the only meaning the declaration order carries.
*/
module PlayerAnimationStates {
  import opened UnityMath

  datatype PlayerAnimationState =
    | Idle | Jump | Fall | Run | Attack | Attack2 | GetHit | Death | QuickTurn

  /** The enum's underlying integer, which is also what is pushed to the animator. */
  function Rank(s: PlayerAnimationState): (r: int)
    ensures 0 <= r <= 8
  {
    match s
    case Idle => 0
    case Jump => 1
    case Fall => 2
    case Run => 3
    case Attack => 4
    case Attack2 => 5
    case GetHit => 6
    case Death => 7
    case QuickTurn => 8
  }

  /** `a <= b` on the enum: `a` cannot preempt `b`. */
  predicate AtMost(a: PlayerAnimationState, b: PlayerAnimationState) {
    Rank(a) <= Rank(b)
  }

  /** The states in declaration order. */
  const DeclarationOrder: seq<PlayerAnimationState> :=
    [Idle, Jump, Fall, Run, Attack, Attack2, GetHit, Death, QuickTurn]

  /** Decodes an animator integer back to a state; values outside 0..8 name no state. */
  function FromRank(n: int): (r: Option<PlayerAnimationState>)
    ensures r.Some? <==> 0 <= n < |DeclarationOrder|
  {
    if 0 <= n < |DeclarationOrder| then Some(DeclarationOrder[n]) else None
  }

  /** The rank is the position in declaration order, so ranks strictly increase along it. */
  lemma RanksFollowDeclarationOrder()
    ensures |DeclarationOrder| == 9
    ensures forall i :: 0 <= i < |DeclarationOrder| ==> Rank(DeclarationOrder[i]) == i
    ensures forall i, j :: 0 <= i < j < |DeclarationOrder| ==>
              Rank(DeclarationOrder[i]) < Rank(DeclarationOrder[j])
  {
  }

  /** Pushing `Rank(s)` to the animator loses nothing: it decodes back to `s`, and only to `s`. */
  lemma RankRoundTrip(s: PlayerAnimationState, n: int)
    ensures FromRank(Rank(s)) == Some(s)
    ensures FromRank(n) == Some(s) ==> Rank(s) == n
  {
    RanksFollowDeclarationOrder();
  }

  /** Distinct states have distinct ranks. */
  lemma RankInjective(a: PlayerAnimationState, b: PlayerAnimationState)
    ensures Rank(a) == Rank(b) <==> a == b
  {
    RankRoundTrip(a, Rank(b));
    RankRoundTrip(b, Rank(a));
  }

  /** Idle is the least state: nothing ranks below it, and nothing else equals it. */
  lemma IdleIsLeast(s: PlayerAnimationState)
    ensures AtMost(Idle, s)
    ensures AtMost(s, Idle) <==> s == Idle
  {
  }

  /** QuickTurn outranks every other state, attacks, GetHit and Death included. */
  lemma QuickTurnIsGreatest(s: PlayerAnimationState)
    ensures AtMost(s, QuickTurn)
    ensures s != QuickTurn ==> !AtMost(QuickTurn, s)
  {
  }

  /** The attack states outrank the movement states Jump, Fall and Run (and Idle). */
  lemma AttacksOutrankMovement(attack: PlayerAnimationState, movement: PlayerAnimationState)
    requires attack == Attack || attack == Attack2
    requires movement in {Idle, Jump, Fall, Run}
    ensures AtMost(movement, attack)
    ensures !AtMost(attack, movement)
  {
  }
}
