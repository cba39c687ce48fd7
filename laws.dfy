/**
 * What the battle-flow functions of the Rules module guarantee: the session
 * invariant is kept by every operation, charge moves take two turns, a faint
 * ends the turn before the other side acts, the battle-end check reports
 * exactly the right outcome, and the effects of catching and moving on.
 */
module Laws {
  import opened Wrappers
  import opened Stats
  import opened SpecialMoves
  import opened Creatures
  import opened Damage
  import opened Mechanics
  import opened Rules

  // ---------------------------------------------------------------------------
  // The invariant, step by step
  // ---------------------------------------------------------------------------

  lemma TakeDamageValid(c: Creature, x: nat)
    requires CreatureValid(c)
    ensures CreatureValid(TakeDamage(c, x))
  {
  }

  lemma SpendPpValid(c: Creature, k: nat)
    requires CreatureValid(c) && k < |c.moves| && c.moves[k].currentPp >= 0
    ensures CreatureValid(SpendPp(c, k))
  {
    var r := SpendPp(c, k);
    forall i | 0 <= i < |r.moves|
      ensures -1 <= r.moves[i].currentPp <= r.moves[i].maxPp
    {
      if i != k {
        assert r.moves[i] == c.moves[i];
      }
    }
  }

  lemma WithCombatantValid(s: Session, isPlayer: bool, c: Creature)
    requires InBattle(s) && SessionValid(s) && CreatureValid(c)
    ensures SessionValid(WithCombatant(s, isPlayer, c))
  {
    var r := WithCombatant(s, isPlayer, c);
    forall i | 0 <= i < |r.team|
      ensures CreatureValid(r.team[i])
    {
      if isPlayer && i == s.current.value {
        assert r.team[i] == c;
      } else {
        assert r.team[i] == s.team[i];
      }
    }
  }

  lemma ResolveValid(s: Session, isPlayer: bool, m: Move, result: ActionResult)
    requires InBattle(s) && SessionValid(s)
    ensures SessionValid(Resolve(s, isPlayer, m, result).session)
  {
    match result
    case Charging =>
    case Miss =>
      var crash := RecoilDamage(Combatant(s, isPlayer).stats.maxHp, m.name, 0);
      if crash > 0 {
        TakeDamageValid(Combatant(s, isPlayer), crash);
        WithCombatantValid(s, isPlayer, TakeDamage(Combatant(s, isPlayer), crash));
      }
    case Landed(d, _, _, _) =>
      TakeDamageValid(Combatant(s, !isPlayer), d);
      WithCombatantValid(s, !isPlayer, TakeDamage(Combatant(s, !isPlayer), d));
      var s1 := WithCombatant(s, !isPlayer, TakeDamage(Combatant(s, !isPlayer), d));
      var recoil := RecoilDamage(Combatant(s1, isPlayer).stats.maxHp, m.name, d);
      if recoil > 0 {
        TakeDamageValid(Combatant(s1, isPlayer), recoil);
        WithCombatantValid(s1, isPlayer, TakeDamage(Combatant(s1, isPlayer), recoil));
      }
  }

  /** One action keeps HP within bounds, PP at or above -1 and the slots holding charge moves. */
  lemma ActValid(s: Session, isPlayer: bool, k: nat, draws: MoveDraws)
    requires InBattle(s) && SessionValid(s) && k < |Combatant(s, isPlayer).moves|
    ensures SessionValid(Act(s, isPlayer, k, draws).session)
  {
    var slot := Slot(s, isPlayer);
    var m := ActualMove(s, isPlayer, k);
    if CanAct(s, isPlayer, k) {
      var s1 := if slot.None? then WithCombatant(s, isPlayer, SpendPp(Combatant(s, isPlayer), k)) else s;
      if slot.None? {
        SpendPpValid(Combatant(s, isPlayer), k);
        WithCombatantValid(s, isPlayer, SpendPp(Combatant(s, isPlayer), k));
      }
      assert SessionValid(s1);
      var o := ExecuteSpecialMove(slot, Combatant(s1, isPlayer), Combatant(s1, !isPlayer), m, draws);
      var s2 := WithSlot(s1, isPlayer, o.slot);
      assert SlotValid(o.slot);
      assert SessionValid(s2);
      if o.extraPp {
        assert Combatant(s2, isPlayer) == Combatant(s1, isPlayer);
        assert Combatant(s2, isPlayer).moves[k].currentPp >= 0;
        SpendPpValid(Combatant(s2, isPlayer), k);
        WithCombatantValid(s2, isPlayer, SpendPp(Combatant(s2, isPlayer), k));
      }
      var s3 := if o.extraPp then WithCombatant(s2, isPlayer, SpendPp(Combatant(s2, isPlayer), k)) else s2;
      ResolveValid(s3, isPlayer, m, o.result);
    }
  }

  lemma CheckBattleEndValid(s: Session)
    requires InBattle(s) && SessionValid(s)
    ensures SessionValid(CheckBattleEnd(s).session)
  {
  }

  /** A whole turn keeps the invariant. */
  lemma TurnValid(s: Session, k: nat, j: nat, playerDraws: MoveDraws, foeDraws: MoveDraws)
    requires InBattle(s) && SessionValid(s) && k < |Player(s).moves| && j < |Foe(s).moves|
    ensures SessionValid(Turn(s, k, j, playerDraws, foeDraws).session)
  {
    var first := PlayerFirst(s);
    var a := Act(s, first, if first then k else j, if first then playerDraws else foeDraws);
    ActValid(s, first, if first then k else j, if first then playerDraws else foeDraws);
    CheckBattleEndValid(a.session);
    if !a.fainted && Combatant(a.session, first).stats.currentHp > 0 {
      var b := Act(a.session, !first, if first then j else k, if first then foeDraws else playerDraws);
      ActValid(a.session, !first, if first then j else k, if first then foeDraws else playerDraws);
      CheckBattleEndValid(b.session);
    }
  }

  lemma MoveSelectionValid(s: Session, k: nat, playerDraws: MoveDraws, foeDraws: MoveDraws)
    requires InBattle(s) && SessionValid(s) && k < |Player(s).moves| && |Foe(s).moves| > 0
    ensures SessionValid(MoveSelection(s, k, playerDraws, foeDraws))
  {
    if s.phase == SelectMove {
      var s1 := s.(phase := Executing);
      TurnValid(s1, k, AIMoveChoice(Foe(s1).moves), playerDraws, foeDraws);
    }
  }

  lemma FoeFreeAttackValid(s: Session, roll: Roll)
    requires InBattle(s) && SessionValid(s) && |Foe(s).moves| > 0
    ensures SessionValid(FoeFreeAttack(s, roll))
  {
    var j := AIMoveChoice(Foe(s).moves);
    if Foe(s).moves[j].currentPp > 0 {
      SpendPpValid(Foe(s), j);
      WithCombatantValid(s, false, SpendPp(Foe(s), j));
      var s1 := WithCombatant(s, false, SpendPp(Foe(s), j));
      match CalculateDamage(Foe(s1), Player(s1), Foe(s).moves[j], roll)
      case Missed =>
      case Hit(d, _, _, _) =>
        TakeDamageValid(Player(s1), d);
        WithCombatantValid(s1, true, TakeDamage(Player(s1), d));
    }
  }

  lemma SwitchValid(s: Session, t: nat, roll: Roll)
    requires InBattle(s) && SessionValid(s) && t < |s.team| && |Foe(s).moves| > 0
    ensures SessionValid(Switch(s, t, roll))
  {
    if t != s.current.value && s.team[t].stats.currentHp > 0 {
      var s1 := s.(current := Some(t));
      assert SessionValid(s1);
      if Player(s).stats.currentHp > 0 && s.phase == SelectMove {
        var s2 := s1.(phase := Executing);
        assert SessionValid(s2);
        FoeFreeAttackValid(s2, roll);
        var a := FoeFreeAttack(s2, roll);
        CheckBattleEndValid(a);
        AfterOutcomeValid(CheckBattleEnd(a));
      }
    }
  }

  /** Setting the phase after a battle-flow step keeps the session valid. */
  lemma AfterOutcomeValid(e: Ending)
    requires SessionValid(e.session)
    ensures SessionValid(AfterOutcome(e))
  {
  }

  lemma RestoredValid(c: Creature)
    requires CreatureValid(c)
    ensures CreatureValid(Restored(c))
  {
  }

  lemma NextBattleValid(s: Session, opponent: Creature)
    requires SessionValid(s) && CreatureValid(opponent)
    ensures SessionValid(NextBattle(s, opponent))
  {
    var r := NextBattle(s, opponent);
    forall i | 0 <= i < |r.team|
      ensures CreatureValid(r.team[i])
    {
      RestoredValid(s.team[i]);
    }
  }

  lemma CatchValid(s: Session, shouldCatch: bool, opponent: Creature)
    requires SessionValid(s) && s.foe.Some? && CreatureValid(opponent)
    ensures SessionValid(Catch(s, shouldCatch, opponent))
  {
    if shouldCatch {
      var f := s.foe.value;
      var s1 := s.(team := s.team + [WithHp(f, f.stats.maxHp / 2)], catchCooldown := 3);
      assert SessionValid(s1) by {
        forall i | 0 <= i < |s1.team|
          ensures CreatureValid(s1.team[i])
        {
          if i < |s.team| {
            assert s1.team[i] == s.team[i];
          }
        }
      }
      NextBattleValid(s1, opponent);
    }
  }

  lemma StartValid(s: Session, starter: Creature, opponent: Creature)
    requires SlotValid(s.playerCharge) && SlotValid(s.foeCharge)
    requires CreatureValid(starter) && CreatureValid(opponent)
    ensures SessionValid(Start(s, starter, opponent))
  {
  }

  lemma InitialValid()
    ensures SessionValid(Initial) && !InBattle(Initial)
  {
  }

  // ---------------------------------------------------------------------------
  // Two-turn moves
  // ---------------------------------------------------------------------------

  /**
   * The first turn of a charge move with the side's slot empty: the move is
   * stored, it loses two PP, and nobody's HP changes.
   */
  lemma ChargeUp(s: Session, isPlayer: bool, k: nat, draws: MoveDraws)
    requires InBattle(s) && k < |Combatant(s, isPlayer).moves|
    requires Slot(s, isPlayer).None?
    requires IsChargingMove(Combatant(s, isPlayer).moves[k].name)
    requires Combatant(s, isPlayer).moves[k].currentPp > 0
    ensures var r := Act(s, isPlayer, k, draws);
            !r.fainted
            && Slot(r.session, isPlayer) == Some(Combatant(s, isPlayer).moves[k])
            && Combatant(r.session, isPlayer).moves[k].currentPp == Combatant(s, isPlayer).moves[k].currentPp - 2
            && Combatant(r.session, isPlayer).stats == Combatant(s, isPlayer).stats
            && Combatant(r.session, !isPlayer) == Combatant(s, !isPlayer)
  {
  }

  /** With the last PP point, a charge-up leaves the move at -1. */
  lemma ChargeUpCanReachMinusOne(s: Session, isPlayer: bool, k: nat, draws: MoveDraws)
    requires InBattle(s) && k < |Combatant(s, isPlayer).moves|
    requires Slot(s, isPlayer).None?
    requires IsChargingMove(Combatant(s, isPlayer).moves[k].name)
    requires Combatant(s, isPlayer).moves[k].currentPp == 1
    ensures Combatant(Act(s, isPlayer, k, draws).session, isPlayer).moves[k].currentPp == -1
  {
    ChargeUp(s, isPlayer, k, draws);
  }

  /** A move with no charge-up, used from an empty slot, takes exactly one PP and leaves the slot empty. */
  lemma PlainMoveSpendsOnePp(s: Session, isPlayer: bool, k: nat, draws: MoveDraws)
    requires InBattle(s) && k < |Combatant(s, isPlayer).moves|
    requires Slot(s, isPlayer).None?
    requires !IsChargingMove(Combatant(s, isPlayer).moves[k].name)
    requires Combatant(s, isPlayer).moves[k].currentPp > 0
    ensures var r := Act(s, isPlayer, k, draws).session;
            Combatant(r, isPlayer).moves == SpendPp(Combatant(s, isPlayer), k).moves
            && Slot(r, isPlayer).None?
  {
  }

  /**
   * The second turn: whatever move was chosen, the stored move is used with
   * no PP taken, the slot is cleared, and it strikes as a single hit.
   */
  lemma ChargeRelease(s: Session, isPlayer: bool, k: nat, draws: MoveDraws)
    requires InBattle(s) && SessionValid(s) && k < |Combatant(s, isPlayer).moves|
    requires Slot(s, isPlayer).Some?
    ensures var r := Act(s, isPlayer, k, draws);
            var m := Slot(s, isPlayer).value;
            Slot(r.session, isPlayer).None?
            && Combatant(r.session, isPlayer).moves == Combatant(s, isPlayer).moves
            && r == Resolve(WithSlot(s, isPlayer, None), isPlayer, m,
                            SingleHit(Combatant(s, isPlayer), Combatant(s, !isPlayer), m, draws.hit(0)))
  {
  }

  // ---------------------------------------------------------------------------
  // Damage, recoil and faints within one action
  // ---------------------------------------------------------------------------

  /** One action never raises anybody's HP. */
  lemma ActNeverHeals(s: Session, isPlayer: bool, k: nat, draws: MoveDraws)
    requires InBattle(s) && k < |Combatant(s, isPlayer).moves|
    ensures var r := Act(s, isPlayer, k, draws).session;
            Player(r).stats.currentHp <= Player(s).stats.currentHp
            && Foe(r).stats.currentHp <= Foe(s).stats.currentHp
            && Player(r).stats.maxHp == Player(s).stats.maxHp
            && Foe(r).stats.maxHp == Foe(s).stats.maxHp
  {
    if CanAct(s, isPlayer, k) {
      var slot := Slot(s, isPlayer);
      var m := ActualMove(s, isPlayer, k);
      var s1 := if slot.None? then WithCombatant(s, isPlayer, SpendPp(Combatant(s, isPlayer), k)) else s;
      var o := ExecuteSpecialMove(slot, Combatant(s1, isPlayer), Combatant(s1, !isPlayer), m, draws);
      var s2 := WithSlot(s1, isPlayer, o.slot);
      var s3 := if o.extraPp then WithCombatant(s2, isPlayer, SpendPp(Combatant(s2, isPlayer), k)) else s2;
      assert Player(s3).stats == Player(s).stats && Foe(s3).stats == Foe(s).stats;
      ResolveNeverHeals(s3, isPlayer, m, o.result);
    }
  }

  /** Applying an action result never raises anybody's HP. */
  lemma ResolveNeverHeals(s: Session, isPlayer: bool, m: Move, result: ActionResult)
    requires InBattle(s)
    ensures var r := Resolve(s, isPlayer, m, result).session;
            Player(r).stats.currentHp <= Player(s).stats.currentHp
            && Foe(r).stats.currentHp <= Foe(s).stats.currentHp
  {
  }

  /** An action that lands a hit of `d` takes exactly min(d, HP) from the defender. */
  lemma LandedHitDamagesDefender(s: Session, isPlayer: bool, m: Move, d: nat, hits: nat, e: Option<real>, crit: bool)
    requires InBattle(s)
    ensures var r := Resolve(s, isPlayer, m, Landed(d, hits, e, crit)).session;
            Combatant(r, !isPlayer).stats.currentHp == HpAfter(Combatant(s, !isPlayer).stats.currentHp, d)
  {
  }

  /** After a landed hit of `d`, the attacker loses exactly the recoil its move takes for `d`. */
  lemma RecoilAfterHit(s: Session, isPlayer: bool, m: Move, d: nat, hits: nat, e: Option<real>, crit: bool)
    requires InBattle(s)
    ensures var r := Resolve(s, isPlayer, m, Landed(d, hits, e, crit)).session;
            var attacker := Combatant(s, isPlayer);
            Combatant(r, isPlayer).stats.currentHp
              == HpAfter(attacker.stats.currentHp, RecoilDamage(attacker.stats.maxHp, m.name, d))
  {
  }

  /** A missed crash move costs its user half its maximum HP and nothing else. */
  lemma MissedCrashHurtsUser(s: Session, isPlayer: bool, m: Move)
    requires InBattle(s)
    requires SpecialOf(m.name) == Some(Recoil(50, true))
    ensures var r := Resolve(s, isPlayer, m, Miss);
            Combatant(r.session, isPlayer).stats.currentHp
              == HpAfter(Combatant(s, isPlayer).stats.currentHp, Combatant(s, isPlayer).stats.maxHp / 2)
            && Combatant(r.session, !isPlayer) == Combatant(s, !isPlayer)
  {
    if Combatant(s, isPlayer).stats.maxHp / 2 == 0 {
      assert RecoilDamage(Combatant(s, isPlayer).stats.maxHp, m.name, 0) == 0;
    }
  }

  /** The action reports a faint exactly when it left either side at 0 HP after changing it. */
  lemma LandedFaintFlag(s: Session, isPlayer: bool, m: Move, d: nat, hits: nat, e: Option<real>, crit: bool)
    requires InBattle(s)
    ensures var r := Resolve(s, isPlayer, m, Landed(d, hits, e, crit));
            r.fainted <==> Player(r.session).stats.currentHp == 0 || Foe(r.session).stats.currentHp == 0
  {
  }

  // ---------------------------------------------------------------------------
  // The turn
  // ---------------------------------------------------------------------------

  /**
   * When the first action faints anyone, the second side never acts: its
   * moves and its charging slot are as before the turn.
   */
  lemma {:induction false} FaintEndsTurn(s: Session, k: nat, j: nat, playerDraws: MoveDraws, foeDraws: MoveDraws)
    requires InBattle(s) && k < |Player(s).moves| && j < |Foe(s).moves|
    requires Act(s, PlayerFirst(s), if PlayerFirst(s) then k else j,
                 if PlayerFirst(s) then playerDraws else foeDraws).fainted
    ensures Turn(s, k, j, playerDraws, foeDraws)
            == CheckBattleEnd(Act(s, PlayerFirst(s), if PlayerFirst(s) then k else j,
                                  if PlayerFirst(s) then playerDraws else foeDraws).session)
    ensures var r := Turn(s, k, j, playerDraws, foeDraws).session;
            if PlayerFirst(s) then Foe(r).moves == Foe(s).moves && r.foeCharge == s.foeCharge
            else r.team[s.current.value].moves == Player(s).moves && r.playerCharge == s.playerCharge
  {
    var first := PlayerFirst(s);
    var a := Act(s, first, if first then k else j, if first then playerDraws else foeDraws);
    assert Combatant(a.session, !first).moves == Combatant(s, !first).moves;
    assert Slot(a.session, !first) == Slot(s, !first);
  }

  /**
   * A faster player whose move knocks a standing foe out while surviving
   * wins the battle before the foe moves.
   */
  lemma {:induction false} FasterKnockoutWins(s: Session, k: nat, j: nat, playerDraws: MoveDraws, foeDraws: MoveDraws)
    requires InBattle(s) && k < |Player(s).moves| && j < |Foe(s).moves|
    requires PlayerFirst(s) && Foe(s).stats.currentHp > 0
    requires var a := Act(s, true, k, playerDraws).session;
             Foe(a).stats.currentHp == 0 && Player(a).stats.currentHp > 0
    ensures Turn(s, k, j, playerDraws, foeDraws).outcome == Some(PlayerWon)
    ensures Foe(Turn(s, k, j, playerDraws, foeDraws).session).moves == Foe(s).moves
  {
    var a := Act(s, true, k, playerDraws);
    ActFaintedWhenFoeDropsToZero(s, k, playerDraws);
    FaintEndsTurn(s, k, j, playerDraws, foeDraws);
  }

  /** A player action that leaves a foe with HP at 0 HP reports the faint. */
  lemma ActFaintedWhenFoeDropsToZero(s: Session, k: nat, draws: MoveDraws)
    requires InBattle(s) && k < |Player(s).moves|
    requires Foe(s).stats.currentHp > 0
    requires Foe(Act(s, true, k, draws).session).stats.currentHp == 0
    ensures Act(s, true, k, draws).fainted
  {
  }

  // ---------------------------------------------------------------------------
  // Battle end
  // ---------------------------------------------------------------------------

  /** Game over exactly when the active creature and the whole team are at 0 HP. */
  lemma GameOverIff(s: Session)
    requires InBattle(s)
    ensures CheckBattleEnd(s).outcome == Some(GameOver)
            <==> Player(s).stats.currentHp == 0 && forall i :: 0 <= i < |s.team| ==> s.team[i].stats.currentHp == 0
  {
  }

  /** The player wins exactly when the active creature stands and the foe is at 0 HP. */
  lemma PlayerWonIff(s: Session)
    requires InBattle(s)
    ensures CheckBattleEnd(s).outcome == Some(PlayerWon)
            <==> Player(s).stats.currentHp > 0 && Foe(s).stats.currentHp == 0
  {
  }

  /**
   * With the active creature fainted and a living member left, the first
   * living member becomes active and the battle goes on; nothing else changes.
   */
  lemma AutoSwitchToFirstAlive(s: Session, i: nat)
    requires InBattle(s) && Player(s).stats.currentHp == 0
    requires i < |s.team| && s.team[i].stats.currentHp > 0
    requires forall k :: 0 <= k < i ==> s.team[k].stats.currentHp == 0
    ensures CheckBattleEnd(s) == Ending(s.(current := Some(i)), None)
  {
    var f := FirstAlive(s.team);
    assert f.Some?;
    if f.value < i {
      assert false;
    } else if i < f.value {
      assert false;
    }
  }

  /** With nobody fainted the check changes nothing and the battle continues. */
  lemma NoFaintNoChange(s: Session)
    requires InBattle(s) && Player(s).stats.currentHp > 0 && Foe(s).stats.currentHp > 0
    ensures CheckBattleEnd(s) == Ending(s, None)
  {
  }

  // ---------------------------------------------------------------------------
  // Phases
  // ---------------------------------------------------------------------------

  /** After a game over the phase stays `Executing`, so every later move selection is ignored. */
  lemma GameOverIsFinal(s: Session, k: nat, playerDraws: MoveDraws, foeDraws: MoveDraws,
                        k': nat, playerDraws': MoveDraws, foeDraws': MoveDraws)
    requires InBattle(s) && k < |Player(s).moves| && |Foe(s).moves| > 0 && s.phase == SelectMove
    requires var s1 := s.(phase := Executing);
             Turn(s1, k, AIMoveChoice(Foe(s1).moves), playerDraws, foeDraws).outcome == Some(GameOver)
    ensures var n := MoveSelection(s, k, playerDraws, foeDraws);
            n.phase == Executing
            && (InBattle(n) && k' < |Player(n).moves| && |Foe(n).moves| > 0 ==>
                  MoveSelection(n, k', playerDraws', foeDraws') == n)
  {
    var s1 := s.(phase := Executing);
    var e := Turn(s1, k, AIMoveChoice(Foe(s1).moves), playerDraws, foeDraws);
    assert MoveSelection(s, k, playerDraws, foeDraws) == e.session;
  }

  /** A won battle leaves the session in `BattleEnd`, where move selection is ignored too. */
  lemma PlayerWonEndsBattle(s: Session, k: nat, playerDraws: MoveDraws, foeDraws: MoveDraws)
    requires InBattle(s) && k < |Player(s).moves| && |Foe(s).moves| > 0 && s.phase == SelectMove
    requires var s1 := s.(phase := Executing);
             Turn(s1, k, AIMoveChoice(Foe(s1).moves), playerDraws, foeDraws).outcome == Some(PlayerWon)
    ensures MoveSelection(s, k, playerDraws, foeDraws).phase == BattleEnd
  {
  }

  /** A switch after a faint is free: only the active member changes. */
  lemma SwitchAfterFaintIsFree(s: Session, t: nat, roll: Roll)
    requires InBattle(s) && t < |s.team| && |Foe(s).moves| > 0
    requires Player(s).stats.currentHp == 0 && s.team[t].stats.currentHp > 0
    ensures Switch(s, t, roll) == s.(current := Some(t))
  {
  }

  /**
   * The foe's free attack: with PP left, the move the AI picks loses one PP
   * and the active creature takes the plain damage of that move, or nothing
   * on a miss; without PP nothing happens. The foe's stats, both slots and
   * the rest of the team are kept.
   */
  lemma FoeFreeAttackEffects(s: Session, roll: Roll)
    requires InBattle(s) && |Foe(s).moves| > 0
    ensures var r := FoeFreeAttack(s, roll);
            var j := AIMoveChoice(Foe(s).moves);
            var m := Foe(s).moves[j];
            Foe(r).stats == Foe(s).stats
            && r.playerCharge == s.playerCharge && r.foeCharge == s.foeCharge && r.phase == s.phase
            && (forall i :: 0 <= i < |s.team| && i != s.current.value ==> r.team[i] == s.team[i])
            && (m.currentPp > 0 ==>
                  Foe(r) == SpendPp(Foe(s), j)
                  && Player(r) == match CalculateDamage(Foe(s), Player(s), m, roll)
                                  case Missed => Player(s)
                                  case Hit(d, _, _, _) => TakeDamage(Player(s), d))
            && (m.currentPp <= 0 ==> r == s)
  {
    var j := AIMoveChoice(Foe(s).moves);
    var m := Foe(s).moves[j];
    if m.currentPp > 0 {
      var s1 := WithCombatant(s, false, SpendPp(Foe(s), j));
      DamageClassSelectsStats(Foe(s), Foe(s1), Player(s), Player(s1), m, roll);
    }
  }

  /**
   * A voluntary switch during move selection costs the turn: the foe's free
   * attack ignores its charging slot, and the phase returns to move
   * selection unless the incoming creature was the last one standing and fell.
   */
  lemma VoluntarySwitch(s: Session, t: nat, roll: Roll)
    requires InBattle(s) && t < |s.team| && |Foe(s).moves| > 0 && s.phase == SelectMove
    requires t != s.current.value && Player(s).stats.currentHp > 0 && s.team[t].stats.currentHp > 0
    requires Foe(s).stats.currentHp > 0
    ensures var r := Switch(s, t, roll);
            var a := FoeFreeAttack(s.(current := Some(t)).(phase := Executing), roll);
            r.team == a.team && r.foe == a.foe && r.battleNumber == s.battleNumber
            && r.foeCharge == s.foeCharge && r.playerCharge == s.playerCharge
            && (r.phase == SelectMove || r.phase == Executing)
            && (r.phase == Executing ==> forall i :: 0 <= i < |r.team| ==> r.team[i].stats.currentHp == 0)
  {
    var s2 := s.(current := Some(t)).(phase := Executing);
    var a := FoeFreeAttack(s2, roll);
    assert Foe(a).stats.currentHp > 0;
    GameOverIff(a);
    PlayerWonIff(a);
  }

  // ---------------------------------------------------------------------------
  // After the battle
  // ---------------------------------------------------------------------------

  /** Moving on restores every member and every move, clears both slots and counts the cooldown down. */
  lemma NextBattleRestores(s: Session, opponent: Creature, i: nat, k: nat)
    requires i < |s.team| && k < |s.team[i].moves|
    ensures var r := NextBattle(s, opponent);
            r.team[i].stats.currentHp == r.team[i].stats.maxHp == s.team[i].stats.maxHp
            && r.team[i].moves[k].currentPp == r.team[i].moves[k].maxPp
            && r.playerCharge.None? && r.foeCharge.None?
            && r.battleNumber == s.battleNumber + 1 && r.phase == SelectMove
            && r.catchCooldown == (if s.catchCooldown > 0 then s.catchCooldown - 1 else 0)
  {
  }

  /**
   * A catch adds the foe to the team; the half-HP heal is then overwritten by
   * the full restore of the next battle, and the cooldown of 3 is already
   * down to 2 when the next battle starts.
   */
  lemma CatchEffects(s: Session, opponent: Creature)
    requires s.foe.Some?
    ensures var r := Catch(s, true, opponent);
            |r.team| == |s.team| + 1
            && r.team[|s.team|] == Restored(s.foe.value)
            && r.catchCooldown == 2
            && r.foe == Some(opponent)
  {
    var f := s.foe.value;
    var caught := WithHp(f, f.stats.maxHp / 2);
    assert Restored(caught) == Restored(f);
  }

  /** Catching only when offered keeps the team at three members or fewer. */
  lemma OfferedCatchKeepsTeamSmall(s: Session, opponent: Creature)
    requires s.foe.Some? && CatchOffered(s)
    ensures |Catch(s, true, opponent).team| <= 3
  {
  }

  /** After a catch, the offer stays away for the next two battles. */
  lemma CooldownAfterCatch(s: Session, o1: Creature, o2: Creature, o3: Creature)
    requires s.foe.Some?
    ensures var r1 := Catch(s, true, o1);
            var r2 := NextBattle(r1, o2);
            var r3 := NextBattle(r2, o3);
            !CatchOffered(r1) && !CatchOffered(r2) && r3.catchCooldown == 0
  {
    CatchEffects(s, o1);
  }

  /** Declining a catch changes nothing. */
  lemma DeclineChangesNothing(s: Session, opponent: Creature)
    requires s.foe.Some?
    ensures Catch(s, false, opponent) == s
  {
  }
}
