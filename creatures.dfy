/**
 * The battle creature and its moves, the fallback species record, and the
 * foe's move choice.
 */
module Creatures {
  import opened Wrappers
  import opened Stats

  /**
   * A move slot of a battle creature. `power` and `accuracy` are absent when
   * the data provider gives null. `currentPp` is an `int`: a charge-up turn
   * takes two points from a move that had one left, and it then reads -1.
   */
  datatype Move = Move(
    name: string, power: Option<nat>, accuracy: Option<nat>,
    moveType: string, damageClass: string, currentPp: int, maxPp: nat)

  /** A creature as it fights: species fields, level, derived stats and four moves. */
  datatype Creature = Creature(
    name: string, types: seq<string>, level: nat, stats: StatBlock, moves: seq<Move>)

  /** A species record as the data provider returns it, with its candidate move URLs. */
  datatype Species = Species(
    id: nat, name: string, types: seq<string>, stats: seq<BaseStat>, candidateMoves: seq<string>)

  /** The record used when a species fetch fails. */
  const Missingno: Species :=
    Species(1, "missingno", ["normal"],
            [BaseStat("hp", 45), BaseStat("attack", 49), BaseStat("defense", 49),
             BaseStat("special-attack", 65), BaseStat("special-defense", 65), BaseStat("speed", 45)],
            [])


  /** The HP a creature would have after taking `x` damage: never below 0. */
  function HpAfter(hp: nat, x: nat): (r: nat)
    ensures r <= hp
    ensures r == 0 <==> x >= hp
    ensures r > 0 ==> r + x == hp
  {
    if x >= hp then 0 else hp - x
  }

  /** The creature with its current HP replaced. */
  function WithHp(c: Creature, hp: nat): Creature
  {
    c.(stats := c.stats.(currentHp := hp))
  }

  /** The creature after taking `x` damage, clamped at 0. */
  function TakeDamage(c: Creature, x: nat): (r: Creature)
    ensures r.stats.currentHp == HpAfter(c.stats.currentHp, x)
    ensures r.(stats := c.stats) == c
    ensures r.stats.(currentHp := c.stats.currentHp) == c.stats
  {
    WithHp(c, HpAfter(c.stats.currentHp, x))
  }

  /** The creature after one PP is taken from move `k`. */
  function SpendPp(c: Creature, k: nat): (r: Creature)
    requires k < |c.moves|
    ensures |r.moves| == |c.moves|
    ensures r.moves[k].currentPp == c.moves[k].currentPp - 1
    ensures r.moves[k].(currentPp := c.moves[k].currentPp) == c.moves[k]
    ensures forall i :: 0 <= i < |c.moves| && i != k ==> r.moves[i] == c.moves[i]
    ensures r.(moves := c.moves) == c
  {
    var m := c.moves[k];
    c.(moves := c.moves[k := m.(currentPp := m.currentPp - 1)])
  }

  // ---------------------------------------------------------------------------
  // The foe's move choice
  // ---------------------------------------------------------------------------

  /** `move.power || 0`. */
  function PowerOrZero(m: Move): nat
  {
    match m.power
    case None => 0
    case Some(p) => p
  }

  predicate Available(m: Move)
  {
    m.currentPp > 0
  }

  /**
   * The first move with PP left whose power is the largest among the moves
   * with PP left, if any has PP left: what a stable descending sort by power
   * of the available moves puts first.
   */
  function BestAvailable(moves: seq<Move>): (r: Option<nat>)
    ensures r.None? <==> forall i :: 0 <= i < |moves| ==> !Available(moves[i])
    ensures r.Some? ==> r.value < |moves| && Available(moves[r.value])
    ensures r.Some? ==> forall i :: 0 <= i < |moves| && Available(moves[i]) ==>
                          PowerOrZero(moves[i]) <= PowerOrZero(moves[r.value])
    ensures r.Some? ==> forall i :: 0 <= i < r.value && Available(moves[i]) ==>
                          PowerOrZero(moves[i]) < PowerOrZero(moves[r.value])
  {
    if |moves| == 0 then None
    else
      var n := |moves| - 1;
      var b := BestAvailable(moves[..n]);
      if !Available(moves[n]) then b
      else match b
        case None => Some(n)
        case Some(k) => if PowerOrZero(moves[n]) > PowerOrZero(moves[k]) then Some(n) else Some(k)
  }

  /**
   * getAIMoveChoice as an index into `moves`: the strongest move with PP
   * left, the earliest one on a tie, and the first move when none has PP.
   */
  function AIMoveChoice(moves: seq<Move>): (k: nat)
    requires |moves| > 0
    ensures k < |moves|
    ensures (exists i :: 0 <= i < |moves| && Available(moves[i])) ==>
              Available(moves[k])
              && (forall i :: 0 <= i < |moves| && Available(moves[i]) ==>
                    PowerOrZero(moves[i]) <= PowerOrZero(moves[k]))
              && (forall i :: 0 <= i < k && Available(moves[i]) ==>
                    PowerOrZero(moves[i]) < PowerOrZero(moves[k]))
    ensures (forall i :: 0 <= i < |moves| ==> !Available(moves[i])) ==> k == 0
  {
    match BestAvailable(moves)
    case None => 0
    case Some(k) => k
  }

  /** The three properties of the choice single out one index. */
  lemma AIMoveChoiceUnique(moves: seq<Move>, k: nat)
    requires k < |moves| && Available(moves[k])
    requires forall i :: 0 <= i < |moves| && Available(moves[i]) ==>
               PowerOrZero(moves[i]) <= PowerOrZero(moves[k])
    requires forall i :: 0 <= i < k && Available(moves[i]) ==>
               PowerOrZero(moves[i]) < PowerOrZero(moves[k])
    ensures AIMoveChoice(moves) == k
  {
    var c := AIMoveChoice(moves);
    assert Available(moves[k]);
    assert PowerOrZero(moves[k]) <= PowerOrZero(moves[c]);
    assert PowerOrZero(moves[c]) <= PowerOrZero(moves[k]);
    if c < k {
      assert false;
    } else if k < c {
      assert false;
    }
  }
}
