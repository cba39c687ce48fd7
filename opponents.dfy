/**
 * Choosing the next wild opponent's species: up to twenty random samples
 * looking for one under a BST cap, keeping the last sample when none is.
 */
module Opponents {
  import opened Wrappers
  import opened Stats
  import opened Creatures

  /** Battles up to number 3 look for an opponent with a BST of at most 330. */
  const WeakBstThreshold: nat := 330
  const EarlyBattles: nat := 3
  /** The number of samples the capped search makes before giving up. */
  const Attempts: nat := 20

  /** `Math.floor(draw * 151) + 1`: a species id among the first 151 for a draw in [0, 1). */
  function SampleId(draw: real): (id: nat)
    requires 0.0 <= draw < 1.0
    ensures 1 <= id <= 151
  {
    var x := draw * 151.0;
    assert 0.0 <= x < 151.0;
    x.Floor + 1
  }

  /** The first of the samples whose BST is at most `maxBst`. */
  function FirstWithin(samples: seq<Species>, maxBst: nat): (r: Option<nat>)
    ensures r.None? <==> forall i :: 0 <= i < |samples| ==> Bst(samples[i].stats) > maxBst
    ensures r.Some? ==> r.value < |samples| && Bst(samples[r.value].stats) <= maxBst
    ensures r.Some? ==> forall i :: 0 <= i < r.value ==> Bst(samples[i].stats) > maxBst
  {
    if |samples| == 0 then None
    else if Bst(samples[0].stats) <= maxBst then Some(0)
    else match FirstWithin(samples[1..], maxBst)
      case None => None
      case Some(k) => Some(k + 1)
  }

  /**
   * fetchRandomOpponentByBST, where `samples[i]` is the record the i-th
   * attempt fetched: the first sample within the cap, or the last one.
   */
  method FetchRandomOpponentByBst(samples: seq<Species>, maxBst: nat) returns (s: Species)
    requires |samples| == Attempts
    ensures FirstWithin(samples, maxBst).Some? ==> s == samples[FirstWithin(samples, maxBst).value]
    ensures FirstWithin(samples, maxBst).None? ==> s == samples[Attempts - 1]
  {
    var last := samples[0];
    var i := 0;
    while i < Attempts
      invariant 0 <= i <= Attempts
      invariant forall k :: 0 <= k < i ==> Bst(samples[k].stats) > maxBst
      invariant i > 0 ==> last == samples[i - 1]
    {
      var data := samples[i];
      last := data;
      if Bst(data.stats) <= maxBst {
        return data;
      }
      i := i + 1;
    }
    return last;
  }

  /**
   * getRandomOpponentPokemon: the capped search for the early battles, the
   * first sample as is afterwards.
   */
  method GetRandomOpponent(battleNumber: nat, samples: seq<Species>) returns (s: Species)
    requires |samples| == Attempts
    ensures battleNumber <= EarlyBattles && FirstWithin(samples, WeakBstThreshold).Some? ==>
              s == samples[FirstWithin(samples, WeakBstThreshold).value]
    ensures battleNumber <= EarlyBattles && FirstWithin(samples, WeakBstThreshold).None? ==>
              s == samples[Attempts - 1]
    ensures battleNumber > EarlyBattles ==> s == samples[0]
    // an early opponent is over the cap only when every sample was
    ensures battleNumber <= EarlyBattles ==>
              (Bst(s.stats) <= WeakBstThreshold <==> exists i :: 0 <= i < |samples| && Bst(samples[i].stats) <= WeakBstThreshold)
  {
    if battleNumber <= EarlyBattles {
      s := FetchRandomOpponentByBst(samples, WeakBstThreshold);
    } else {
      s := samples[0];
    }
  }

  /**
   * The fallback species of a failed fetch lists its six stats in the
   * standard order, so its level-50 stats follow the closed formulas, and it
   * totals 318, within the cap of the early battles.
   */
  lemma FallbackSpeciesIsWeak()
    ensures StandardOrder(Missingno.stats)
    ensures Bst(Missingno.stats) == 318 && Bst(Missingno.stats) <= WeakBstThreshold
    ensures StatsOf(Missingno.stats, DefaultLevel) == StatBlock(120, 120, 69, 69, 85, 85, 65)
  {
    FallbackOrder(Missingno.stats);
    FallbackTotal(Missingno.stats);
    StandardStatsAtDefaultLevel(Missingno.stats);
  }

  lemma FallbackOrder(e: seq<BaseStat>)
    requires e == Missingno.stats
    ensures StandardOrder(e)
  {
    FallbackPlainEntries(e);
    FallbackSpecialEntries(e);
  }

  lemma FallbackPlainEntries(e: seq<BaseStat>)
    requires e == Missingno.stats
    ensures FieldOf(e[0].name) == HpField && FieldOf(e[1].name) == AttackField
    ensures FieldOf(e[2].name) == DefenseField && FieldOf(e[5].name) == SpeedField
  {
    assert FieldOf(e[1].name) == AttackField by { FieldOfPlainName(e[1].name); }
    FallbackDefenseSpeed(e);
  }

  lemma FallbackDefenseSpeed(e: seq<BaseStat>)
    requires e == Missingno.stats
    ensures FieldOf(e[2].name) == DefenseField && FieldOf(e[5].name) == SpeedField
  {
    FallbackDefense(e);
    FallbackSpeed(e);
  }

  lemma FallbackDefense(e: seq<BaseStat>)
    requires e == Missingno.stats
    ensures FieldOf(e[2].name) == DefenseField
  {
    FieldOfPlainName(e[2].name);
  }

  lemma FallbackSpeed(e: seq<BaseStat>)
    requires e == Missingno.stats
    ensures FieldOf(e[5].name) == SpeedField
  {
    FieldOfPlainName(e[5].name);
  }

  lemma FallbackSpecialEntries(e: seq<BaseStat>)
    requires e == Missingno.stats
    ensures FieldOf(e[3].name) == SpecialAttackField && FieldOf(e[4].name) == SpecialDefenseField
  {
    FallbackSpecialNames(e);
    FieldOfSpecialName(e[3].name, "attack");
    SpecialKeys("attack");
    FieldOfSpecialName(e[4].name, "defense");
    SpecialKeys("defense");
  }

  lemma FallbackSpecialNames(e: seq<BaseStat>)
    requires e == Missingno.stats
    ensures e[3].name == "special-" + "attack" && e[4].name == "special-" + "defense"
  {
  }

  lemma FallbackTotal(e: seq<BaseStat>)
    requires e == Missingno.stats
    ensures Bst(e) == 318
  {
    assert Bst(e[..1]) == 45 by { assert e[..1][..0] == []; }
    assert Bst(e[..2]) == 94 by { assert e[..2][..1] == e[..1]; }
    assert Bst(e[..3]) == 143 by { assert e[..3][..2] == e[..2]; }
    assert Bst(e[..4]) == 208 by { assert e[..4][..3] == e[..3]; }
    assert Bst(e[..5]) == 273 by { assert e[..5][..4] == e[..4]; }
    assert Bst(e[..6]) == 318 by { assert e[..6][..5] == e[..5]; }
    assert e[..6] == e;
  }
}
