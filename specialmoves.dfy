/**
 * The closed table of special move mechanics, keyed by move name, and the
 * functions that read it: the three tag predicates, the multi-hit count and
 * the recoil/crash damage.
 */
module SpecialMoves {
  import opened Wrappers

  /** A special-mechanics tag. Every tagged move carries exactly one. */
  datatype Special =
    | Charge(chargeTurn: string)
    | Recoil(recoilPercent: nat, missRecoil: bool)
    | MultiHit(minHits: nat, maxHits: nat)

  /** The table: `None` for every move without special behaviour. */
  function SpecialOf(name: string): Option<Special>
  {
    match name
    // two-turn moves
    case "solar-beam" => Some(Charge("absorbing sunlight"))
    case "razor-wind" => Some(Charge("whipping up a whirlwind"))
    case "skull-bash" => Some(Charge("lowering its head"))
    case "sky-attack" => Some(Charge("glowing intensely"))
    case "fly" => Some(Charge("flying up high"))
    case "dig" => Some(Charge("burrowing underground"))
    case "dive" => Some(Charge("diving underwater"))
    case "bounce" => Some(Charge("springing up"))
    // recoil moves
    case "take-down" => Some(Recoil(25, false))
    case "double-edge" => Some(Recoil(33, false))
    case "submission" => Some(Recoil(25, false))
    case "jump-kick" => Some(Recoil(50, true))
    case "high-jump-kick" => Some(Recoil(50, true))
    case "volt-tackle" => Some(Recoil(33, false))
    case "flare-blitz" => Some(Recoil(33, false))
    case "brave-bird" => Some(Recoil(33, false))
    case "wood-hammer" => Some(Recoil(33, false))
    case "head-smash" => Some(Recoil(50, false))
    // multi-hit moves
    case "double-slap" => Some(MultiHit(2, 5))
    case "comet-punch" => Some(MultiHit(2, 5))
    case "fury-attack" => Some(MultiHit(2, 5))
    case "pin-missile" => Some(MultiHit(2, 5))
    case "spike-cannon" => Some(MultiHit(2, 5))
    case "barrage" => Some(MultiHit(2, 5))
    case "fury-swipes" => Some(MultiHit(2, 5))
    case "bone-rush" => Some(MultiHit(2, 5))
    case "double-kick" => Some(MultiHit(2, 2))
    case "twineedle" => Some(MultiHit(2, 2))
    case _ => None
  }

  predicate IsChargingMove(name: string)
  {
    SpecialOf(name).Some? && SpecialOf(name).value.Charge?
  }

  predicate IsRecoilMove(name: string)
  {
    SpecialOf(name).Some? && SpecialOf(name).value.Recoil?
  }

  predicate IsMultiHitMove(name: string)
  {
    SpecialOf(name).Some? && SpecialOf(name).value.MultiHit?
  }

  /** The tags are mutually exclusive: no move answers true to two of the predicates. */
  lemma TagsExclusive(name: string)
    ensures !(IsChargingMove(name) && IsRecoilMove(name))
    ensures !(IsChargingMove(name) && IsMultiHitMove(name))
    ensures !(IsRecoilMove(name) && IsMultiHitMove(name))
  {
  }

  /** Every tag in the table is well formed. */
  lemma TableShape(name: string)
    ensures IsMultiHitMove(name) ==>
              SpecialOf(name).value in {MultiHit(2, 5), MultiHit(2, 2)}
    ensures IsRecoilMove(name) ==>
              SpecialOf(name).value.recoilPercent in {25, 33, 50}
    ensures IsRecoilMove(name) && SpecialOf(name).value.missRecoil ==>
              SpecialOf(name).value.recoilPercent == 50
  {
  }

  /**
   * How many times a move strikes, given the uniform draw `draw` in [0, 1)
   * that getMultiHitCount makes when the range is not a single value.
   */
  function MultiHitCount(name: string, draw: real): (n: nat)
    ensures n >= 1
    ensures !IsMultiHitMove(name) ==> n == 1
    ensures IsMultiHitMove(name) ==>
              SpecialOf(name).value.minHits <= n <= SpecialOf(name).value.maxHits
  {
    TableShape(name);
    match SpecialOf(name)
    case Some(MultiHit(lo, hi)) =>
      if lo == hi then lo
      else if draw < 0.375 then lo
      else if draw < 0.75 then lo + 1
      else if draw < 0.875 then hi - 1
      else hi
    case _ => 1
  }

  /** A fixed-range move (double-kick, twineedle) strikes exactly `minHits` times whatever the draw. */
  lemma FixedRangeIgnoresDraw(name: string, draw: real, other: real)
    requires IsMultiHitMove(name)
    requires SpecialOf(name).value.minHits == SpecialOf(name).value.maxHits
    ensures MultiHitCount(name, draw) == MultiHitCount(name, other) == SpecialOf(name).value.minHits
  {
  }

  /** For the 2-5 moves the draw is split into bands of width 3/8, 3/8, 1/8 and 1/8. */
  lemma TwoToFiveBands(name: string, draw: real)
    requires SpecialOf(name) == Some(MultiHit(2, 5))
    ensures MultiHitCount(name, draw) == 2 <==> draw < 0.375
    ensures MultiHitCount(name, draw) == 3 <==> 0.375 <= draw < 0.75
    ensures MultiHitCount(name, draw) == 4 <==> 0.75 <= draw < 0.875
    ensures MultiHitCount(name, draw) == 5 <==> 0.875 <= draw
  {
  }

  /**
   * The self-damage of a recoil-tagged move after dealing `dealt` damage
   * (0 on a miss); `maxHp` is the attacker's maximum HP. The source floors
   * `dealt * (percent / 100)`; for a natural `dealt` that is the integer
   * quotient written here.
   */
  function RecoilDamage(maxHp: nat, name: string, dealt: nat): (r: nat)
    ensures !IsRecoilMove(name) ==> r == 0
    ensures IsRecoilMove(name) && dealt == 0 ==>
              r == (if SpecialOf(name).value.missRecoil then maxHp / 2 else 0)
    ensures IsRecoilMove(name) && dealt > 0 ==>
              r * 100 <= dealt * SpecialOf(name).value.recoilPercent < (r + 1) * 100
  {
    match SpecialOf(name)
    case Some(Recoil(percent, missRecoil)) =>
      if dealt == 0 && missRecoil then maxHp / 2
      else dealt * percent / 100
    case _ => 0
  }

  /** Recoil after a hit never exceeds half of the damage dealt. */
  lemma RecoilAtMostHalf(maxHp: nat, name: string, dealt: nat)
    requires dealt > 0
    ensures RecoilDamage(maxHp, name, dealt) <= dealt / 2
  {
    TableShape(name);
  }

  /** Only the crash moves hurt their user when they miss. */
  lemma CrashOnlyForMissRecoil(maxHp: nat, name: string)
    requires RecoilDamage(maxHp, name, 0) > 0
    ensures SpecialOf(name).Some? && SpecialOf(name).value == Recoil(50, true)
  {
    TableShape(name);
  }

  /** double-edge after 90 damage costs 29 HP; jump-kick missing costs half the user's maximum HP. */
  lemma RecoilExamples()
    ensures RecoilDamage(150, "double-edge", 90) == 29
    ensures RecoilDamage(151, "jump-kick", 0) == 75
    ensures RecoilDamage(150, "take-down", 0) == 0
    ensures RecoilDamage(150, "tackle", 90) == 0
  {
  }
}
