/**
 * The simplified type chart and the two functions that read it:
 * the effectiveness product over a defender's types and the message
 * category chosen from that product.
 */
module TypeChart {
  import opened Wrappers

  /** The listed cell for `attack` hitting `defend`, if the chart has one. */
  function Entry(attack: string, defend: string): Option<real>
  {
    match attack
    case "normal" =>
      (match defend
       case "fighting" => Some(2.0) case "ghost" => Some(0.0)
       case _ => None)
    case "fire" =>
      (match defend
       case "water" => Some(0.5) case "grass" => Some(2.0) case "fire" => Some(0.5)
       case "ice" => Some(2.0) case "bug" => Some(2.0) case "steel" => Some(2.0)
       case "rock" => Some(0.5) case "dragon" => Some(0.5)
       case _ => None)
    case "water" =>
      (match defend
       case "fire" => Some(2.0) case "water" => Some(0.5) case "grass" => Some(0.5)
       case "ground" => Some(2.0) case "rock" => Some(2.0) case "dragon" => Some(0.5)
       case _ => None)
    case "grass" =>
      (match defend
       case "water" => Some(2.0) case "fire" => Some(0.5) case "grass" => Some(0.5)
       case "poison" => Some(0.5) case "ground" => Some(2.0) case "rock" => Some(2.0)
       case "bug" => Some(0.5) case "dragon" => Some(0.5) case "steel" => Some(0.5)
       case "flying" => Some(0.5)
       case _ => None)
    case "electric" =>
      (match defend
       case "water" => Some(2.0) case "grass" => Some(0.5) case "ground" => Some(0.0)
       case "flying" => Some(2.0) case "dragon" => Some(0.5) case "electric" => Some(0.5)
       case "steel" => Some(1.0)
       case _ => None)
    case "ice" =>
      (match defend
       case "water" => Some(0.5) case "grass" => Some(2.0) case "ground" => Some(2.0)
       case "flying" => Some(2.0) case "dragon" => Some(2.0) case "fire" => Some(0.5)
       case "steel" => Some(0.5) case "ice" => Some(0.5)
       case _ => None)
    case "fighting" =>
      (match defend
       case "normal" => Some(2.0) case "ice" => Some(2.0) case "rock" => Some(2.0)
       case "dark" => Some(2.0) case "steel" => Some(2.0) case "poison" => Some(0.5)
       case "flying" => Some(0.5) case "psychic" => Some(0.5) case "bug" => Some(0.5)
       case "ghost" => Some(0.0) case "fairy" => Some(0.5)
       case _ => None)
    case "poison" =>
      (match defend
       case "grass" => Some(2.0) case "fairy" => Some(2.0) case "poison" => Some(0.5)
       case "ground" => Some(0.5) case "rock" => Some(0.5) case "ghost" => Some(0.5)
       case "steel" => Some(0.0)
       case _ => None)
    case "ground" =>
      (match defend
       case "fire" => Some(2.0) case "electric" => Some(2.0) case "poison" => Some(2.0)
       case "rock" => Some(2.0) case "steel" => Some(2.0) case "grass" => Some(0.5)
       case "bug" => Some(0.5) case "flying" => Some(0.0)
       case _ => None)
    case "flying" =>
      (match defend
       case "electric" => Some(0.5) case "grass" => Some(2.0) case "fighting" => Some(2.0)
       case "bug" => Some(2.0) case "rock" => Some(0.5) case "steel" => Some(0.5)
       case _ => None)
    case "psychic" =>
      (match defend
       case "fighting" => Some(2.0) case "poison" => Some(2.0) case "psychic" => Some(0.5)
       case "steel" => Some(0.5) case "dark" => Some(0.0)
       case _ => None)
    case "bug" =>
      (match defend
       case "grass" => Some(2.0) case "psychic" => Some(2.0) case "dark" => Some(2.0)
       case "fire" => Some(0.5) case "fighting" => Some(0.5) case "poison" => Some(0.5)
       case "flying" => Some(0.5) case "ghost" => Some(0.5) case "steel" => Some(0.5)
       case "fairy" => Some(0.5)
       case _ => None)
    case "rock" =>
      (match defend
       case "fire" => Some(2.0) case "ice" => Some(2.0) case "flying" => Some(2.0)
       case "bug" => Some(2.0) case "fighting" => Some(0.5) case "ground" => Some(0.5)
       case "steel" => Some(0.5)
       case _ => None)
    case "ghost" =>
      (match defend
       case "psychic" => Some(2.0) case "ghost" => Some(2.0) case "dark" => Some(0.5)
       case "normal" => Some(0.0)
       case _ => None)
    case "dragon" =>
      (match defend
       case "dragon" => Some(2.0) case "steel" => Some(0.5) case "fire" => Some(0.5)
       case "water" => Some(0.5) case "electric" => Some(0.5) case "grass" => Some(0.5)
       case "fairy" => Some(0.0)
       case _ => None)
    case "dark" =>
      (match defend
       case "fighting" => Some(0.5) case "ghost" => Some(2.0) case "psychic" => Some(2.0)
       case "dark" => Some(0.5) case "fairy" => Some(0.5)
       case _ => None)
    case "steel" =>
      (match defend
       case "ice" => Some(2.0) case "rock" => Some(2.0) case "fairy" => Some(2.0)
       case "fire" => Some(0.5) case "water" => Some(0.5) case "electric" => Some(0.5)
       case "steel" => Some(0.5)
       case _ => None)
    case "fairy" =>
      (match defend
       case "fighting" => Some(2.0) case "dragon" => Some(2.0) case "dark" => Some(2.0)
       case "fire" => Some(0.5) case "poison" => Some(0.5) case "steel" => Some(0.5)
       case _ => None)
    case _ => None
  }

  /** What one defending type contributes to the product: its cell, or 1 when unlisted. */
  function Factor(attack: string, defend: string): (f: real)
    ensures f in {0.0, 0.5, 1.0, 2.0}
    ensures Entry(attack, defend).None? ==> f == 1.0
  {
    match Entry(attack, defend)
    case Some(m) => m
    case None => 1.0
  }

  /**
   * The effectiveness of an `attack`-typed move against a defender with
   * the types `defs`, multiplied up in list order.
   */
  function Effectiveness(attack: string, defs: seq<string>): real
  {
    if |defs| == 0 then 1.0
    else Effectiveness(attack, defs[..|defs| - 1]) * Factor(attack, defs[|defs| - 1])
  }

  /** The accumulator loop over the defender's types. */
  method GetTypeEffectiveness(attack: string, defs: seq<string>) returns (e: real)
    ensures e == Effectiveness(attack, defs)
  {
    e := 1.0;
    var i := 0;
    while i < |defs|
      invariant 0 <= i <= |defs|
      invariant e == Effectiveness(attack, defs[..i])
    {
      assert defs[..i + 1][..i] == defs[..i];
      e := e * Factor(attack, defs[i]);
      i := i + 1;
    }
    assert defs[..i] == defs;
  }

  /** The product never goes negative. */
  lemma {:induction false} EffectivenessNonNegative(attack: string, defs: seq<string>)
    ensures Effectiveness(attack, defs) >= 0.0
  {
    if |defs| > 0 {
      EffectivenessNonNegative(attack, defs[..|defs| - 1]);
    }
  }

  /** A move has no effect exactly when one of the defender's types is immune to it. */
  lemma {:induction false} NoEffectIffImmuneType(attack: string, defs: seq<string>)
    ensures Effectiveness(attack, defs) == 0.0
            <==> exists i :: 0 <= i < |defs| && Factor(attack, defs[i]) == 0.0
  {
    if |defs| > 0 {
      var init := defs[..|defs| - 1];
      NoEffectIffImmuneType(attack, init);
      EffectivenessNonNegative(attack, init);
      if exists i :: 0 <= i < |init| && Factor(attack, init[i]) == 0.0 {
        var i :| 0 <= i < |init| && Factor(attack, init[i]) == 0.0;
        assert defs[i] == init[i];
      }
      if exists i :: 0 <= i < |defs| && Factor(attack, defs[i]) == 0.0 {
        var i :| 0 <= i < |defs| && Factor(attack, defs[i]) == 0.0;
        if i < |init| {
          assert init[i] == defs[i];
        }
      }
    }
  }

  /** Types the attack's row does not list leave the product at 1. */
  lemma {:induction false} UnlistedIsNeutral(attack: string, defs: seq<string>)
    requires forall i :: 0 <= i < |defs| ==> Entry(attack, defs[i]).None?
    ensures Effectiveness(attack, defs) == 1.0
  {
    if |defs| > 0 {
      var init := defs[..|defs| - 1];
      assert forall i :: 0 <= i < |init| ==> init[i] == defs[i];
      UnlistedIsNeutral(attack, init);
    }
  }

  /** For the one- and two-type defenders the game has, the product is one of six values. */
  lemma EffectivenessOfTwoTypes(attack: string, defs: seq<string>)
    requires 1 <= |defs| <= 2
    ensures Effectiveness(attack, defs) in {0.0, 0.25, 0.5, 1.0, 2.0, 4.0}
  {
    var f0 := Factor(attack, defs[0]);
    assert defs[..1][..0] == [];
    assert Effectiveness(attack, defs[..1]) == f0;
    if |defs| == 2 {
      var f1 := Factor(attack, defs[1]);
      assert Effectiveness(attack, defs) == f0 * f1;
      assert f0 * f1 in {0.0, 0.25, 0.5, 1.0, 2.0, 4.0} by {
        if f0 == 0.0 {} else if f0 == 0.5 {} else if f0 == 1.0 {} else {}
      }
    } else {
      assert defs == defs[..1];
    }
  }

  /** Water against a fire/ground defender is doubly super effective. */
  lemma WaterAgainstFireGround()
    ensures Effectiveness("water", ["fire", "ground"]) == 4.0
  {
    assert ["fire", "ground"][..1] == ["fire"];
  }

  // ---------------------------------------------------------------------------
  // Effectiveness messages (getEffectivenessText)
  // ---------------------------------------------------------------------------

  /** The four message categories: "no effect", "not very effective", "super effective", or no message. */
  datatype EffectMessage = NoEffect | NotVeryEffective | SuperEffective | Silent

  function EffectivenessText(e: real): (m: EffectMessage)
    ensures m == NoEffect <==> e == 0.0
    ensures m == NotVeryEffective <==> e != 0.0 && e < 1.0
    ensures m == SuperEffective <==> e > 1.0
    ensures m == Silent <==> e == 1.0
  {
    if e == 0.0 then NoEffect
    else if e < 1.0 then NotVeryEffective
    else if e > 1.0 then SuperEffective
    else Silent
  }

  /** The "no effect" message is shown exactly when some defending type is immune. */
  lemma NoEffectMessageIffImmune(attack: string, defs: seq<string>)
    ensures EffectivenessText(Effectiveness(attack, defs)) == NoEffect
            <==> exists i :: 0 <= i < |defs| && Factor(attack, defs[i]) == 0.0
  {
    NoEffectIffImmuneType(attack, defs);
  }
}
