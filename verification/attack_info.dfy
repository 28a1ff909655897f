/**
  The configuration of one attack: the animation state it triggers, the
  recharge time it imposes on both attack slots, and its damage.  Equality is
  structural over the three fields; the fighting controller uses it to decide
  which input slots a fired attack consumes.
*/
module Attacks {
  import opened PlayerAnimationStates

  datatype AttackInfo = AttackInfo(state: PlayerAnimationState, rechargeTime: real, damage: real)

  /** The typed `Equals(AttackInfo)`: all three fields compare equal. */
  predicate Equals(a: AttackInfo, other: AttackInfo) {
    a.state == other.state && a.rechargeTime == other.rechargeTime && a.damage == other.damage
  }

  /** An arbitrary object, as passed to the untyped `Equals(object)`. */
  datatype Object = Boxed(info: AttackInfo) | NotAnAttack(typeTag: int)

  /** The untyped `Equals(object)`: an AttackInfo compared field by field, anything else unequal. */
  predicate EqualsObject(a: AttackInfo, obj: Object) {
    obj.Boxed? && Equals(a, obj.info)
  }

  /** The values fed to the hash combiner: the enum's integer and the two numbers. */
  function HashInputs(a: AttackInfo): (int, real, real) {
    (Rank(a.state), a.rechargeTime, a.damage)
  }

  /** Field-wise equality is exactly value equality of the record. */
  lemma EqualsIsValueEquality(a: AttackInfo, b: AttackInfo)
    ensures Equals(a, b) <==> a == b
  {
  }

  /** Typed `Equals` is an equivalence relation. */
  lemma EqualsIsEquivalence(a: AttackInfo, b: AttackInfo, c: AttackInfo)
    ensures Equals(a, a)
    ensures Equals(a, b) <==> Equals(b, a)
    ensures Equals(a, b) && Equals(b, c) ==> Equals(a, c)
  {
  }

  /** The untyped `Equals` rejects every non-AttackInfo and otherwise agrees with the typed one. */
  lemma EqualsObjectAgreesWithEquals(a: AttackInfo, obj: Object)
    ensures !obj.Boxed? ==> !EqualsObject(a, obj)
    ensures obj.Boxed? ==> (EqualsObject(a, obj) <==> Equals(a, obj.info))
  {
  }

  /**
    The hash reads exactly the fields `Equals` compares: equal attacks feed it
    identical inputs, and identical inputs mean equal attacks.
  */
  lemma HashInputsMatchEquals(a: AttackInfo, b: AttackInfo)
    ensures Equals(a, b) <==> HashInputs(a) == HashInputs(b)
  {
    RankInjective(a.state, b.state);
  }
}
