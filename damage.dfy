/**
 * One call of calculateDamage: the accuracy check, the choice of attack and
 * defense stats by damage class, the floored base formula and the four
 * multipliers, with every hit dealing at least 1.
 */
module Damage {
  import opened Wrappers
  import opened Stats
  import opened TypeChart
  import opened Creatures

  /**
   * The three uniform draws in [0, 1) one call makes, in order: the accuracy
   * draw, the critical-hit draw and the spread draw. The last two are only
   * read when the move hits.
   */
  datatype Roll = Roll(accuracy: real, crit: real, spread: real)

  predicate ValidDraw(r: real)
  {
    0.0 <= r < 1.0
  }

  predicate ValidRoll(roll: Roll)
  {
    ValidDraw(roll.accuracy) && ValidDraw(roll.crit) && ValidDraw(roll.spread)
  }

  datatype HitResult =
    | Missed
    | Hit(damage: nat, effectiveness: real, crit: bool, stab: bool)

  /** `move.power || 40`. */
  function PowerOf(m: Move): (p: nat)
    ensures p > 0
    ensures m.power.Some? && m.power.value > 0 ==> p == m.power.value
    ensures m.power.None? || m.power.value == 0 ==> p == 40
  {
    match m.power
    case Some(p) => if p == 0 then 40 else p
    case None => 40
  }

  /** `move.accuracy || 100`. */
  function AccuracyOf(m: Move): (a: nat)
    ensures a > 0
    ensures m.accuracy.Some? && m.accuracy.value > 0 ==> a == m.accuracy.value
    ensures m.accuracy.None? || m.accuracy.value == 0 ==> a == 100
  {
    match m.accuracy
    case Some(a) => if a == 0 then 100 else a
    case None => 100
  }

  predicate IsPhysical(m: Move)
  {
    m.damageClass == "physical"
  }

  /** The attacking stat the move uses. */
  function AttackStat(attacker: Creature, m: Move): nat
  {
    if IsPhysical(m) then attacker.stats.attack else attacker.stats.specialAttack
  }

  /** The defending stat the move is measured against. */
  function DefenseStat(defender: Creature, m: Move): nat
  {
    if IsPhysical(m) then defender.stats.defense else defender.stats.specialDefense
  }

  /** The floored base formula; the defense is raised to 1 before dividing. */
  function BaseDamage(level: nat, power: nat, attack: nat, defense: nat): (b: nat)
    ensures b >= 2
  {
    var d := if defense == 0 then 1 else defense;
    ((2 * level) / 5 + 2) * power * attack / d / 50 + 2
  }

  /** The attacker shares a type with the move. */
  predicate HasStab(attacker: Creature, m: Move)
  {
    m.moveType in attacker.types
  }

  /** A critical hit happens when the draw is below 1/24. */
  predicate IsCrit(roll: Roll)
  {
    roll.crit < 1.0 / 24.0
  }

  function StabMultiplier(stab: bool): real { if stab then 1.5 else 1.0 }

  function CritMultiplier(crit: bool): real { if crit then 1.5 else 1.0 }

  /** The spread factor, 0.85 + draw * 0.15, between 0.85 and 1 for a draw in [0, 1). */
  function Spread(roll: Roll): (f: real)
    ensures ValidDraw(roll.spread) ==> 0.85 <= f < 1.0
  {
    0.85 + roll.spread * 0.15
  }

  function Max1(x: int): (r: nat)
    ensures r >= 1 && r >= x
    ensures x >= 1 ==> r == x
  {
    if x < 1 then 1 else x
  }

  /** The product of the base damage and the four multipliers. */
  function Scaled(base: nat, stab: bool, effectiveness: real, crit: bool, spread: real): real
  {
    (base as real) * StabMultiplier(stab) * effectiveness * CritMultiplier(crit) * spread
  }

  /** The damage of a hit before the lower bound. */
  function RawDamage(attacker: Creature, defender: Creature, m: Move, roll: Roll): real
  {
    var base := BaseDamage(attacker.level, PowerOf(m), AttackStat(attacker, m), DefenseStat(defender, m));
    Scaled(base, HasStab(attacker, m), Effectiveness(m.moveType, defender.types), IsCrit(roll), Spread(roll))
  }

  /** calculateDamage for the draws `roll`. */
  function CalculateDamage(attacker: Creature, defender: Creature, m: Move, roll: Roll): (r: HitResult)
    ensures r.Missed? <==> roll.accuracy * 100.0 > AccuracyOf(m) as real
    ensures r.Hit? ==> r.damage >= 1
    ensures r.Hit? ==> r.damage == Max1(RawDamage(attacker, defender, m, roll).Floor)
    ensures r.Hit? ==> r.effectiveness == Effectiveness(m.moveType, defender.types)
    ensures r.Hit? ==> r.crit == IsCrit(roll) && r.stab == HasStab(attacker, m)
  {
    if roll.accuracy * 100.0 > AccuracyOf(m) as real then Missed
    else Hit(Max1(RawDamage(attacker, defender, m, roll).Floor),
             Effectiveness(m.moveType, defender.types), IsCrit(roll), HasStab(attacker, m))
  }

  // ---------------------------------------------------------------------------
  // Properties
  // ---------------------------------------------------------------------------

  /** A move with accuracy 100, or with none given, never misses on a draw below 1. */
  lemma FullAccuracyNeverMisses(attacker: Creature, defender: Creature, m: Move, roll: Roll)
    requires ValidDraw(roll.accuracy)
    requires AccuracyOf(m) == 100
    ensures CalculateDamage(attacker, defender, m, roll).Hit?
  {
  }

  /** A move whose type the defender is immune to still deals exactly 1 when it hits. */
  lemma ImmuneHitDealsOne(attacker: Creature, defender: Creature, m: Move, roll: Roll)
    requires Effectiveness(m.moveType, defender.types) == 0.0
    requires CalculateDamage(attacker, defender, m, roll).Hit?
    ensures CalculateDamage(attacker, defender, m, roll).damage == 1
  {
  }

  /** At level 50 the level term of the base formula is 22. */
  lemma BaseDamageAtDefaultLevel(power: nat, attack: nat, defense: nat)
    requires defense > 0
    ensures BaseDamage(DefaultLevel, power, attack, defense) == 22 * power * attack / defense / 50 + 2
  {
  }

  /** A physical move reads only attack and defense; any other class reads only the special stats. */
  lemma DamageClassSelectsStats(attacker: Creature, attacker': Creature, defender: Creature, defender': Creature,
                                m: Move, roll: Roll)
    requires attacker'.level == attacker.level && attacker'.types == attacker.types
    requires defender'.types == defender.types
    requires IsPhysical(m) ==> attacker'.stats.attack == attacker.stats.attack
                               && defender'.stats.defense == defender.stats.defense
    requires !IsPhysical(m) ==> attacker'.stats.specialAttack == attacker.stats.specialAttack
                                && defender'.stats.specialDefense == defender.stats.specialDefense
    ensures CalculateDamage(attacker', defender', m, roll) == CalculateDamage(attacker, defender, m, roll)
  {
    assert AttackStat(attacker', m) == AttackStat(attacker, m);
    assert DefenseStat(defender', m) == DefenseStat(defender, m);
    assert HasStab(attacker', m) == HasStab(attacker, m);
    assert RawDamage(attacker', defender', m, roll) == RawDamage(attacker, defender, m, roll);
  }

  lemma FloorMonotone(x: real, y: real)
    requires x <= y
    ensures x.Floor <= y.Floor
  {
  }

  lemma ScaledCritMonotone(base: nat, stab: bool, effectiveness: real, spread: real)
    requires effectiveness >= 0.0 && spread >= 0.0
    ensures Scaled(base, stab, effectiveness, false, spread) <= Scaled(base, stab, effectiveness, true, spread)
  {
    var x := (base as real) * StabMultiplier(stab) * effectiveness;
    assert x >= 0.0;
    assert x * spread >= 0.0;
    assert Scaled(base, stab, effectiveness, false, spread) == x * spread;
    assert Scaled(base, stab, effectiveness, true, spread) == 1.5 * (x * spread);
  }

  /** The product is largest with STAB, a critical hit and a full spread. */
  lemma ScaledBound(base: nat, stab: bool, effectiveness: real, crit: bool, spread: real)
    requires effectiveness >= 0.0 && 0.0 <= spread <= 1.0
    ensures Scaled(base, stab, effectiveness, crit, spread) <= Scaled(base, true, effectiveness, true, 1.0)
  {
    var top := (base as real) * effectiveness;
    assert top >= 0.0;
    var sm := StabMultiplier(stab);
    var cm := CritMultiplier(crit);
    assert Scaled(base, stab, effectiveness, crit, spread) == top * (sm * cm * spread);
    assert Scaled(base, true, effectiveness, true, 1.0) == top * 2.25;
    assert sm * cm * spread <= 2.25 by {
      assert sm * cm <= 2.25;
      assert sm * cm * spread <= sm * cm;
    }
    assert top * (sm * cm * spread) <= top * 2.25;
  }

  /**
   * A critical draw never lowers the damage: with the same accuracy and
   * spread draws, a critical roll deals at least as much as a plain one.
   */
  lemma CritNeverLowersDamage(attacker: Creature, defender: Creature, m: Move, plain: Roll, crit: Roll)
    requires plain.accuracy == crit.accuracy && plain.spread == crit.spread
    requires ValidDraw(plain.spread)
    requires IsCrit(crit) && !IsCrit(plain)
    requires CalculateDamage(attacker, defender, m, plain).Hit?
    ensures CalculateDamage(attacker, defender, m, crit).Hit?
    ensures CalculateDamage(attacker, defender, m, plain).damage <= CalculateDamage(attacker, defender, m, crit).damage
  {
    var base := BaseDamage(attacker.level, PowerOf(m), AttackStat(attacker, m), DefenseStat(defender, m));
    var e := Effectiveness(m.moveType, defender.types);
    EffectivenessNonNegative(m.moveType, defender.types);
    assert Spread(crit) == Spread(plain);
    ScaledCritMonotone(base, HasStab(attacker, m), e, Spread(plain));
    FloorMonotone(RawDamage(attacker, defender, m, plain), RawDamage(attacker, defender, m, crit));
  }

  /**
   * For draws in range a hit deals no more than the largest product the
   * attacker's base damage allows: STAB, a critical hit and a full spread.
   */
  lemma DamageUpperBound(attacker: Creature, defender: Creature, m: Move, roll: Roll)
    requires ValidRoll(roll)
    requires CalculateDamage(attacker, defender, m, roll).Hit?
    ensures var base := BaseDamage(attacker.level, PowerOf(m), AttackStat(attacker, m), DefenseStat(defender, m));
            CalculateDamage(attacker, defender, m, roll).damage
              <= Max1(Scaled(base, true, Effectiveness(m.moveType, defender.types), true, 1.0).Floor)
  {
    var base := BaseDamage(attacker.level, PowerOf(m), AttackStat(attacker, m), DefenseStat(defender, m));
    var e := Effectiveness(m.moveType, defender.types);
    EffectivenessNonNegative(m.moveType, defender.types);
    var raw := RawDamage(attacker, defender, m, roll);
    ScaledBound(base, HasStab(attacker, m), e, IsCrit(roll), Spread(roll));
    FloorMonotone(raw, Scaled(base, true, e, true, 1.0));
  }
}
