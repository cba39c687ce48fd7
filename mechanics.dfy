/**
 * executeSpecialMove: the two-turn charge moves, the multi-hit loop and the
 * single hit every other move falls through to.
 */
module Mechanics {
  import opened Wrappers
  import opened SpecialMoves
  import opened Creatures
  import opened Damage

  /**
   * The draws one use of a move makes: the draw getMultiHitCount reads, and
   * the draws of the n-th call of calculateDamage during this use (counted
   * from 0) as `hit(n)`.
   */
  datatype MoveDraws = MoveDraws(hitCount: real, hit: nat -> Roll)

  /**
   * What a move use returns to the turn resolver: charging, a miss, or the
   * damage dealt with the number of strikes that landed. `effectiveness` and
   * `crit` only choose messages.
   */
  datatype ActionResult =
    | Charging
    | Miss
    | Landed(damage: nat, hits: nat, effectiveness: Option<real>, crit: bool)

  /** A single calculateDamage call seen as a move result. */
  function SingleHit(attacker: Creature, defender: Creature, m: Move, roll: Roll): (r: ActionResult)
    ensures r.Miss? <==> CalculateDamage(attacker, defender, m, roll).Missed?
    ensures r.Landed? ==> r.hits == 1 && r.damage >= 1
    ensures r.Landed? ==> r.damage == CalculateDamage(attacker, defender, m, roll).damage
  {
    match CalculateDamage(attacker, defender, m, roll)
    case Missed => Miss
    case Hit(d, e, c, _) => Landed(d, 1, Some(e), c)
  }

  /** The total damage and the number of landed strikes among the first `n` calls. */
  function SubHits(attacker: Creature, defender: Creature, m: Move, draws: MoveDraws, n: nat): (r: (nat, nat))
    ensures r.1 <= n
    ensures r.0 >= r.1
  {
    if n == 0 then (0, 0)
    else
      var p := SubHits(attacker, defender, m, draws, n - 1);
      match CalculateDamage(attacker, defender, m, draws.hit(n - 1))
      case Missed => p
      case Hit(d, _, _, _) => (p.0 + d, p.1 + 1)
  }

  /** The effectiveness of a call, when it hits. */
  function EffectivenessOf(r: HitResult): Option<real>
  {
    match r
    case Missed => None
    case Hit(_, e, _, _) => Some(e)
  }

  /**
   * The multi-hit branch: a miss on the first strike misses the whole move;
   * later misses strike for nothing. The effectiveness reported comes from
   * one more call after the strikes.
   */
  function MultiHit(attacker: Creature, defender: Creature, m: Move, draws: MoveDraws): ActionResult
  {
    var count := MultiHitCount(m.name, draws.hitCount);
    if CalculateDamage(attacker, defender, m, draws.hit(0)).Missed? then Miss
    else
      var sums := SubHits(attacker, defender, m, draws, count);
      if sums.1 > 0 then
        Landed(sums.0, sums.1, EffectivenessOf(CalculateDamage(attacker, defender, m, draws.hit(count))), false)
      else Miss
  }

  /** The strike loop of executeSpecialMove. */
  method ExecuteMultiHit(attacker: Creature, defender: Creature, m: Move, draws: MoveDraws)
    returns (r: ActionResult)
    ensures r == MultiHit(attacker, defender, m, draws)
  {
    var hitCount := MultiHitCount(m.name, draws.hitCount);
    var totalDamage := 0;
    var hitsMade := 0;
    var i := 0;
    while i < hitCount
      invariant 0 <= i <= hitCount
      invariant i > 0 ==> CalculateDamage(attacker, defender, m, draws.hit(0)).Hit?
      invariant (totalDamage, hitsMade) == SubHits(attacker, defender, m, draws, i)
    {
      var result := CalculateDamage(attacker, defender, m, draws.hit(i));
      if result.Missed? && i == 0 {
        return Miss;
      } else if result.Hit? {
        totalDamage := totalDamage + result.damage;
        hitsMade := hitsMade + 1;
      }
      i := i + 1;
    }
    if hitsMade > 0 {
      var last := CalculateDamage(attacker, defender, m, draws.hit(hitCount));
      return Landed(totalDamage, hitsMade, EffectivenessOf(last), false);
    }
    return Miss;
  }

  /** Once the first strike lands, at least one strike is counted among any n >= 1. */
  lemma {:induction false} FirstStrikeCounts(attacker: Creature, defender: Creature, m: Move, draws: MoveDraws, n: nat)
    requires n >= 1
    requires CalculateDamage(attacker, defender, m, draws.hit(0)).Hit?
    ensures SubHits(attacker, defender, m, draws, n).1 >= 1
  {
    if n > 1 {
      FirstStrikeCounts(attacker, defender, m, draws, n - 1);
    }
  }

  /**
   * A multi-hit move misses exactly when its first strike misses; otherwise
   * between 1 and the drawn number of strikes land, and they deal at least
   * 1 each.
   */
  lemma MultiHitOutcome(attacker: Creature, defender: Creature, m: Move, draws: MoveDraws)
    ensures MultiHit(attacker, defender, m, draws).Miss?
            <==> CalculateDamage(attacker, defender, m, draws.hit(0)).Missed?
    ensures var r := MultiHit(attacker, defender, m, draws);
            r.Landed? ==> 1 <= r.hits <= MultiHitCount(m.name, draws.hitCount) && r.damage >= r.hits
    ensures !MultiHit(attacker, defender, m, draws).Charging?
  {
    if CalculateDamage(attacker, defender, m, draws.hit(0)).Hit? {
      FirstStrikeCounts(attacker, defender, m, draws, MultiHitCount(m.name, draws.hitCount));
    }
  }

  /** With every strike landing, the counted strikes are all of them. */
  lemma {:induction false} AllStrikesLand(attacker: Creature, defender: Creature, m: Move, draws: MoveDraws, n: nat)
    requires forall i :: 0 <= i < n ==> CalculateDamage(attacker, defender, m, draws.hit(i)).Hit?
    ensures SubHits(attacker, defender, m, draws, n).1 == n
  {
    if n > 0 {
      AllStrikesLand(attacker, defender, m, draws, n - 1);
    }
  }

  /** A sure-hit multi-hit move lands every drawn strike. */
  lemma SureHitLandsEveryStrike(attacker: Creature, defender: Creature, m: Move, draws: MoveDraws)
    requires AccuracyOf(m) == 100
    requires forall i: nat :: ValidDraw(draws.hit(i).accuracy)
    ensures MultiHit(attacker, defender, m, draws).Landed?
    ensures MultiHit(attacker, defender, m, draws).hits == MultiHitCount(m.name, draws.hitCount)
  {
    var n := MultiHitCount(m.name, draws.hitCount);
    forall i | 0 <= i < n
      ensures CalculateDamage(attacker, defender, m, draws.hit(i)).Hit?
    {
      FullAccuracyNeverMisses(attacker, defender, m, draws.hit(i));
    }
    FullAccuracyNeverMisses(attacker, defender, m, draws.hit(0));
    AllStrikesLand(attacker, defender, m, draws, n);
  }

  // ---------------------------------------------------------------------------
  // executeSpecialMove
  // ---------------------------------------------------------------------------

  /**
   * What executeSpecialMove does besides returning a result: the new value
   * of the side's charging slot and whether it took one more PP from the move.
   */
  datatype SpecialOutcome = SpecialOutcome(slot: Option<Move>, extraPp: bool, result: ActionResult)

  /** executeSpecialMove for the side whose charging slot holds `slot`. */
  function ExecuteSpecialMove(slot: Option<Move>, attacker: Creature, defender: Creature, m: Move, draws: MoveDraws)
    : (o: SpecialOutcome)
    ensures o.result.Charging? <==> IsChargingMove(m.name) && slot.None?
    ensures o.result.Charging? ==> o.slot == Some(m) && o.extraPp
    ensures !o.result.Charging? ==> !o.extraPp
    ensures IsChargingMove(m.name) && slot.Some? ==>
              o.slot.None? && o.result == SingleHit(attacker, defender, m, draws.hit(0))
    ensures !IsChargingMove(m.name) ==> o.slot == slot
    ensures !IsChargingMove(m.name) && !IsMultiHitMove(m.name) ==>
              o.result == SingleHit(attacker, defender, m, draws.hit(0))
    ensures IsMultiHitMove(m.name) ==> o.result == MultiHit(attacker, defender, m, draws)
  {
    TagsExclusive(m.name);
    if IsChargingMove(m.name) && slot.None? then SpecialOutcome(Some(m), true, Charging)
    else
      var slot' := if IsChargingMove(m.name) then None else slot;
      if IsMultiHitMove(m.name) then SpecialOutcome(slot', false, MultiHit(attacker, defender, m, draws))
      else SpecialOutcome(slot', false, SingleHit(attacker, defender, m, draws.hit(0)))
  }
}
