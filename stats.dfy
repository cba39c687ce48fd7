/**
 * Stat derivation at a fixed level with fixed IVs, EVs and nature, and the
 * base stat total (BST).
 */
module Stats {
  import opened Wrappers

  const DefaultLevel: nat := 50
  const DefaultIv: nat := 31
  const DefaultEv: nat := 0
  const NatureMod: real := 1.0

  /** One entry of a species' stat list, as the data provider gives it. */
  datatype BaseStat = BaseStat(name: string, baseStat: nat)

  /** The combat stat block of a battle creature. */
  datatype StatBlock = StatBlock(
    maxHp: nat, currentHp: nat,
    attack: nat, defense: nat, specialAttack: nat, specialDefense: nat, speed: nat)

  // ---------------------------------------------------------------------------
  // Formulas
  // ---------------------------------------------------------------------------

  function HpAt(base: nat, level: nat): nat
  {
    ((2 * base + DefaultIv + DefaultEv / 4) * level) / 100 + level + 10
  }

  function StatAt(base: nat, level: nat): nat
  {
    var raw := ((2 * base + DefaultIv + DefaultEv / 4) * level) / 100 + 5;
    var scaled := ((raw as real) * NatureMod).Floor;
    assert scaled == raw;
    scaled
  }

  /** At level 50 the formulas add a fixed amount to the base value. */
  lemma AtDefaultLevel(base: nat)
    ensures HpAt(base, DefaultLevel) == base + 75
    ensures StatAt(base, DefaultLevel) == base + 20
  {
  }

  /** Both formulas grow with the base value. */
  lemma {:induction false} FormulasMonotone(b1: nat, b2: nat, level: nat)
    requires b1 <= b2
    ensures HpAt(b1, level) <= HpAt(b2, level)
    ensures StatAt(b1, level) <= StatAt(b2, level)
  {
    var x1 := 2 * b1 + DefaultIv + DefaultEv / 4;
    var x2 := 2 * b2 + DefaultIv + DefaultEv / 4;
    assert x1 * level <= x2 * level by {
      assert (x2 - x1) * level >= 0;
    }
  }

  // ---------------------------------------------------------------------------
  // Which field a stat entry sets
  // ---------------------------------------------------------------------------

  /** `name.replace('-', '')`: drops the first dash only. */
  function RemoveFirstDash(s: string): string
  {
    if |s| == 0 then s
    else if s[0] == '-' then s[1..]
    else [s[0]] + RemoveFirstDash(s[1..])
  }

  lemma {:induction false} RemoveFirstDashNoDash(s: string)
    requires forall i :: 0 <= i < |s| ==> s[i] != '-'
    ensures RemoveFirstDash(s) == s
  {
    if |s| > 0 {
      RemoveFirstDashNoDash(s[1..]);
    }
  }

  lemma {:induction false} RemoveFirstDashSplit(a: string, b: string)
    requires forall i :: 0 <= i < |a| ==> a[i] != '-'
    ensures RemoveFirstDash(a + "-" + b) == a + b
  {
    if |a| == 0 {
      assert a + "-" + b == "-" + b;
    } else {
      assert (a + "-" + b)[1..] == a[1..] + "-" + b;
      RemoveFirstDashSplit(a[1..], b);
      assert [a[0]] + (a[1..] + b) == a + b;
    }
  }

  /** The field of the stat object an entry writes. */
  datatype StatField = HpField | AttackField | DefenseField | SpecialAttackField
                     | SpecialDefenseField | SpeedField | UnusedField

  /** The field an entry named `name` writes: "hp" first, every other name by its dash-free key. */
  function FieldOf(name: string): StatField
  {
    if name == "hp" then HpField else FieldOfKey(RemoveFirstDash(name))
  }

  function FieldOfKey(key: string): StatField
  {
    match key
    case "attack" => AttackField
    case "defense" => DefenseField
    case "specialattack" => SpecialAttackField
    case "specialdefense" => SpecialDefenseField
    case "speed" => SpeedField
    case _ => UnusedField
  }

  /** One step of computeStatsAtLevel's forEach. */
  function ApplyStat(block: StatBlock, entry: BaseStat, level: nat): StatBlock
  {
    match FieldOf(entry.name)
    case HpField =>
      var hp := HpAt(entry.baseStat, level);
      block.(maxHp := hp, currentHp := hp)
    case AttackField => block.(attack := StatAt(entry.baseStat, level))
    case DefenseField => block.(defense := StatAt(entry.baseStat, level))
    case SpecialAttackField => block.(specialAttack := StatAt(entry.baseStat, level))
    case SpecialDefenseField => block.(specialDefense := StatAt(entry.baseStat, level))
    case SpeedField => block.(speed := StatAt(entry.baseStat, level))
    case UnusedField => block
  }

  const EmptyBlock := StatBlock(0, 0, 0, 0, 0, 0, 0)

  /** The stat block after processing `entries` in order. */
  function StatsOf(entries: seq<BaseStat>, level: nat): StatBlock
  {
    if |entries| == 0 then EmptyBlock
    else ApplyStat(StatsOf(entries[..|entries| - 1], level), entries[|entries| - 1], level)
  }

  method ComputeStatsAtLevel(entries: seq<BaseStat>, level: nat) returns (stats: StatBlock)
    ensures stats == StatsOf(entries, level)
  {
    stats := EmptyBlock;
    var i := 0;
    while i < |entries|
      invariant 0 <= i <= |entries|
      invariant stats == StatsOf(entries[..i], level)
    {
      assert entries[..i + 1][..i] == entries[..i];
      var entry := entries[i];
      if entry.name == "hp" {
        var hp := HpAt(entry.baseStat, level);
        stats := stats.(maxHp := hp, currentHp := hp);
      } else {
        var key := RemoveFirstDash(entry.name);
        if key == "attack" {
          stats := stats.(attack := StatAt(entry.baseStat, level));
        } else if key == "defense" {
          stats := stats.(defense := StatAt(entry.baseStat, level));
        } else if key == "specialattack" {
          stats := stats.(specialAttack := StatAt(entry.baseStat, level));
        } else if key == "specialdefense" {
          stats := stats.(specialDefense := StatAt(entry.baseStat, level));
        } else if key == "speed" {
          stats := stats.(speed := StatAt(entry.baseStat, level));
        }
      }
      i := i + 1;
    }
    assert entries[..i] == entries;
  }

  // ---------------------------------------------------------------------------
  // The last entry for a field wins
  // ---------------------------------------------------------------------------

  /** The base value of the last entry that writes `field`, if any. */
  function LastBase(entries: seq<BaseStat>, field: StatField): Option<nat>
  {
    if |entries| == 0 then None
    else if FieldOf(entries[|entries| - 1].name) == field then Some(entries[|entries| - 1].baseStat)
    else LastBase(entries[..|entries| - 1], field)
  }

  /** What a field holds when its last entry has base `b` (0 when no entry writes it). */
  function Derived(entries: seq<BaseStat>, field: StatField, level: nat): nat
  {
    match LastBase(entries, field)
    case None => 0
    case Some(b) => if field == HpField then HpAt(b, level) else StatAt(b, level)
  }

  /** The value a block holds in `field` (the unused field reads as 0). */
  function Get(block: StatBlock, field: StatField): nat
  {
    match field
    case HpField => block.maxHp
    case AttackField => block.attack
    case DefenseField => block.defense
    case SpecialAttackField => block.specialAttack
    case SpecialDefenseField => block.specialDefense
    case SpeedField => block.speed
    case UnusedField => 0
  }

  /** One step writes the entry's own field and leaves the others alone. */
  lemma GetAfterApply(block: StatBlock, entry: BaseStat, level: nat, field: StatField)
    requires field != UnusedField
    ensures Get(ApplyStat(block, entry, level), field)
            == if FieldOf(entry.name) == field
               then (if field == HpField then HpAt(entry.baseStat, level) else StatAt(entry.baseStat, level))
               else Get(block, field)
    ensures block.currentHp == block.maxHp ==>
              ApplyStat(block, entry, level).currentHp == ApplyStat(block, entry, level).maxHp
  {
    var f := FieldOf(entry.name);
    match f
    case HpField =>
    case AttackField =>
    case DefenseField =>
    case SpecialAttackField =>
    case SpecialDefenseField =>
    case SpeedField =>
    case UnusedField =>
  }

  /** Each field of the computed block comes from the last entry that writes it. */
  lemma {:induction false} StatsFromLastEntry(entries: seq<BaseStat>, level: nat, field: StatField)
    requires field != UnusedField
    ensures Get(StatsOf(entries, level), field) == Derived(entries, field, level)
  {
    if |entries| > 0 {
      var init := entries[..|entries| - 1];
      StatsFromLastEntry(init, level, field);
      GetAfterApply(StatsOf(init, level), entries[|entries| - 1], level, field);
    }
  }

  /** The current HP is the maximum HP once the stats are computed. */
  lemma {:induction false} StatsStartAtFullHp(entries: seq<BaseStat>, level: nat)
    ensures StatsOf(entries, level).currentHp == StatsOf(entries, level).maxHp
  {
    if |entries| > 0 {
      var init := entries[..|entries| - 1];
      StatsStartAtFullHp(init, level);
      GetAfterApply(StatsOf(init, level), entries[|entries| - 1], level, HpField);
    }
  }

  // ---------------------------------------------------------------------------
  // The six stats in the data provider's order
  // ---------------------------------------------------------------------------

  /** A dash-free name other than "hp" writes the field it names. */
  lemma FieldOfPlainName(s: string)
    requires s != "hp" && forall i :: 0 <= i < |s| ==> s[i] != '-'
    ensures FieldOf(s) == FieldOfKey(s)
  {
    RemoveFirstDashNoDash(s);
  }

  /** "special-" followed by a name writes the field keyed "special" followed by that name. */
  lemma FieldOfSpecialName(name: string, b: string)
    requires name == "special-" + b
    ensures FieldOf(name) == FieldOfKey("special" + b)
  {
    assert name == "special" + "-" + b;
    assert |name| != |"hp"|;
    RemoveFirstDashSplit("special", b);
  }

  /** The two special keys name the special attack and special defense fields. */
  lemma SpecialKeys(b: string)
    ensures b == "attack" ==> FieldOfKey("special" + b) == SpecialAttackField
    ensures b == "defense" ==> FieldOfKey("special" + b) == SpecialDefenseField
  {
    if b == "attack" {
      assert "special" + b == "specialattack";
    } else if b == "defense" {
      assert "special" + b == "specialdefense";
    }
  }

  /** A list naming hp, attack, defense, special attack, special defense and speed, in that order. */
  predicate StandardOrder(e: seq<BaseStat>)
  {
    |e| == 6 && FieldOf(e[0].name) == HpField && FieldOf(e[1].name) == AttackField
    && FieldOf(e[2].name) == DefenseField && FieldOf(e[3].name) == SpecialAttackField
    && FieldOf(e[4].name) == SpecialDefenseField && FieldOf(e[5].name) == SpeedField
  }

  lemma StatsOfStep(entries: seq<BaseStat>, k: nat, level: nat)
    requires k < |entries|
    ensures StatsOf(entries[..k + 1], level) == ApplyStat(StatsOf(entries[..k], level), entries[k], level)
  {
    assert entries[..k + 1][..k] == entries[..k];
  }

  /** A standard list fills every field; at level 50 it adds 75 to HP and 20 to each other stat. */
  lemma StandardStatsAtDefaultLevel(e: seq<BaseStat>)
    requires StandardOrder(e)
    ensures StatsOf(e, DefaultLevel)
            == StatBlock(e[0].baseStat + 75, e[0].baseStat + 75, e[1].baseStat + 20, e[2].baseStat + 20,
                         e[3].baseStat + 20, e[4].baseStat + 20, e[5].baseStat + 20)
  {
    var L := DefaultLevel;
    var h := e[0].baseStat + 75;
    var a := e[1].baseStat + 20;
    var d := e[2].baseStat + 20;
    var sa := e[3].baseStat + 20;
    var sd := e[4].baseStat + 20;
    assert StatsOf(e[..1], L) == StatBlock(h, h, 0, 0, 0, 0, 0) by {
      assert e[..0] == [];
      StatsOfStep(e, 0, L);
      AtDefaultLevel(e[0].baseStat);
    }
    assert StatsOf(e[..2], L) == StatBlock(h, h, a, 0, 0, 0, 0) by {
      StatsOfStep(e, 1, L);
      AtDefaultLevel(e[1].baseStat);
    }
    assert StatsOf(e[..3], L) == StatBlock(h, h, a, d, 0, 0, 0) by {
      StatsOfStep(e, 2, L);
      AtDefaultLevel(e[2].baseStat);
    }
    assert StatsOf(e[..4], L) == StatBlock(h, h, a, d, sa, 0, 0) by {
      StatsOfStep(e, 3, L);
      AtDefaultLevel(e[3].baseStat);
    }
    assert StatsOf(e[..5], L) == StatBlock(h, h, a, d, sa, sd, 0) by {
      StatsOfStep(e, 4, L);
      AtDefaultLevel(e[4].baseStat);
    }
    StatsOfStep(e, 5, L);
    AtDefaultLevel(e[5].baseStat);
    assert e[..6] == e;
  }

  // ---------------------------------------------------------------------------
  // Base stat total
  // ---------------------------------------------------------------------------

  /** getBST: the sum of the base values, in list order. */
  function Bst(entries: seq<BaseStat>): nat
  {
    if |entries| == 0 then 0
    else Bst(entries[..|entries| - 1]) + entries[|entries| - 1].baseStat
  }

  lemma {:induction false} BstAppend(a: seq<BaseStat>, b: seq<BaseStat>)
    ensures Bst(a + b) == Bst(a) + Bst(b)
  {
    if |b| == 0 {
      assert a + b == a;
    } else {
      assert (a + b)[..|a + b| - 1] == a + b[..|b| - 1];
      BstAppend(a, b[..|b| - 1]);
    }
  }

  /** Every base value is bounded by the total. */
  lemma {:induction false} BstBoundsEntries(entries: seq<BaseStat>, i: nat)
    requires i < |entries|
    ensures entries[i].baseStat <= Bst(entries)
  {
    if i < |entries| - 1 {
      BstBoundsEntries(entries[..|entries| - 1], i);
    }
  }

  /** For a standard list the six combat stats at level 50 add up to BST + 175. */
  lemma StatTotalAtDefaultLevel(e: seq<BaseStat>)
    requires StandardOrder(e)
    ensures var s := StatsOf(e, DefaultLevel);
            s.maxHp + s.attack + s.defense + s.specialAttack + s.specialDefense + s.speed
            == Bst(e) + 175
  {
    StandardStatsAtDefaultLevel(e);
    assert e[..0] == [];
    assert e[..6] == e;
    assert Bst(e[..1]) == e[0].baseStat by { assert e[..1][..0] == e[..0]; }
    assert Bst(e[..2]) == Bst(e[..1]) + e[1].baseStat by { assert e[..2][..1] == e[..1]; }
    assert Bst(e[..3]) == Bst(e[..2]) + e[2].baseStat by { assert e[..3][..2] == e[..2]; }
    assert Bst(e[..4]) == Bst(e[..3]) + e[3].baseStat by { assert e[..4][..3] == e[..3]; }
    assert Bst(e[..5]) == Bst(e[..4]) + e[4].baseStat by { assert e[..5][..4] == e[..4]; }
    assert Bst(e[..6]) == Bst(e[..5]) + e[5].baseStat by { assert e[..6][..5] == e[..5]; }
  }
}
