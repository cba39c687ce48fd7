/**
 * The game session as mutable state, as the program keeps it: the team, the
 * active member, the foe, the two charging slots, the phase, the battle
 * number and the catch cooldown are fields that the handlers update in
 * place. Each method is proved to leave the state the corresponding
 * function of the Rules module computes, so the Laws module's lemmas apply
 * to the object.
 */
module Game {
  import opened Wrappers
  import opened SpecialMoves
  import opened Creatures
  import opened Damage
  import opened Mechanics
  import opened Rules

  class Battle {
    var team: seq<Creature>
    var current: Option<nat>
    var foe: Option<Creature>
    var playerCharge: Option<Move>
    var foeCharge: Option<Move>
    var phase: Phase
    var battleNumber: nat
    var catchCooldown: nat

    /** The fields read as a session value. */
    function State(): Session
      reads this
    {
      Session(team, current, foe, playerCharge, foeCharge, phase, battleNumber, catchCooldown)
    }

    /** The state the program starts in. */
    constructor ()
      ensures State() == Initial
    {
      team := [];
      current := None;
      foe := None;
      playerCharge := None;
      foeCharge := None;
      phase := SelectMove;
      battleNumber := 1;
      catchCooldown := 0;
    }

    /** Writes one side's creature back. */
    method SetCombatant(isPlayer: bool, c: Creature)
      requires InBattle(State())
      modifies this
      ensures State() == WithCombatant(old(State()), isPlayer, c)
    {
      if isPlayer {
        team := team[current.value := c];
      } else {
        foe := Some(c);
      }
    }

    method SetSlot(isPlayer: bool, m: Option<Move>)
      modifies this
      ensures State() == WithSlot(old(State()), isPlayer, m)
    {
      if isPlayer {
        playerCharge := m;
      } else {
        foeCharge := m;
      }
    }

    /** executeSpecialMove: sets or clears the side's charging slot and takes the charge-up PP. */
    method ExecuteSpecialMove(isPlayer: bool, k: nat, m: Move, draws: MoveDraws) returns (result: ActionResult)
      requires InBattle(State()) && k < |Combatant(State(), isPlayer).moves|
      modifies this
      ensures var o := Mechanics.ExecuteSpecialMove(Slot(old(State()), isPlayer), Combatant(old(State()), isPlayer),
                                                    Combatant(old(State()), !isPlayer), m, draws);
              var s2 := WithSlot(old(State()), isPlayer, o.slot);
              result == o.result
              && State() == (if o.extraPp then WithCombatant(s2, isPlayer, SpendPp(Combatant(s2, isPlayer), k)) else s2)
    {
      var attacker := Combatant(State(), isPlayer);
      var defender := Combatant(State(), !isPlayer);
      TagsExclusive(m.name);
      if IsChargingMove(m.name) {
        var slot := if isPlayer then playerCharge else foeCharge;
        if slot.None? {
          SetSlot(isPlayer, Some(m));
          SetCombatant(isPlayer, SpendPp(attacker, k));
          return Charging;
        } else {
          SetSlot(isPlayer, None);
        }
      }
      if IsMultiHitMove(m.name) {
        result := ExecuteMultiHit(attacker, defender, m, draws);
        return;
      }
      result := SingleHit(attacker, defender, m, draws.hit(0));
    }

    /** The damage, crash and recoil handling after a move use; true when the turn stops. */
    method ApplyResult(isPlayer: bool, m: Move, result: ActionResult) returns (fainted: bool)
      requires InBattle(State())
      modifies this
      ensures Resolve(old(State()), isPlayer, m, result) == Step(State(), fainted)
    {
      match result
      case Charging =>
        fainted := false;
      case Miss =>
        var attacker := Combatant(State(), isPlayer);
        var crash := RecoilDamage(attacker.stats.maxHp, m.name, 0);
        if crash > 0 {
          SetCombatant(isPlayer, TakeDamage(attacker, crash));
          fainted := Combatant(State(), isPlayer).stats.currentHp == 0;
        } else {
          fainted := false;
        }
      case Landed(d, _, _, _) =>
        SetCombatant(!isPlayer, TakeDamage(Combatant(State(), !isPlayer), d));
        var attacker := Combatant(State(), isPlayer);
        var recoil := RecoilDamage(attacker.stats.maxHp, m.name, d);
        if recoil > 0 {
          SetCombatant(isPlayer, TakeDamage(attacker, recoil));
        }
        fainted := Combatant(State(), !isPlayer).stats.currentHp == 0
                   || Combatant(State(), isPlayer).stats.currentHp == 0;
    }

    /** One side's block of executeTurn with its chosen move `k`. */
    method Attack(isPlayer: bool, k: nat, draws: MoveDraws) returns (fainted: bool)
      requires InBattle(State()) && k < |Combatant(State(), isPlayer).moves|
      modifies this
      ensures Act(old(State()), isPlayer, k, draws) == Step(State(), fainted)
    {
      var slot := if isPlayer then playerCharge else foeCharge;
      var attacker := Combatant(State(), isPlayer);
      var m := if slot.Some? then slot.value else attacker.moves[k];
      if !(m.currentPp > 0 || slot.Some?) {
        return false;
      }
      if slot.None? {
        SetCombatant(isPlayer, SpendPp(attacker, k));
      }
      var result := ExecuteSpecialMove(isPlayer, k, m, draws);
      fainted := ApplyResult(isPlayer, m, result);
    }

    /** checkBattleEnd. */
    method CheckBattleEnd() returns (outcome: Option<Outcome>)
      requires InBattle(State())
      modifies this
      ensures Rules.CheckBattleEnd(old(State())) == Ending(State(), outcome)
    {
      if team[current.value].stats.currentHp == 0 {
        var alive := FirstAlive(team);
        if alive.None? {
          return Some(GameOver);
        }
        current := alive;
        return None;
      } else if foe.value.stats.currentHp == 0 {
        return Some(PlayerWon);
      }
      return None;
    }

    /** executeTurn with the player's move `k` and the foe's move `j`. */
    method ExecuteTurn(k: nat, j: nat, playerDraws: MoveDraws, foeDraws: MoveDraws) returns (outcome: Option<Outcome>)
      requires InBattle(State()) && k < |Player(State()).moves| && j < |Foe(State()).moves|
      modifies this
      ensures Turn(old(State()), k, j, playerDraws, foeDraws) == Ending(State(), outcome)
    {
      var playerFirst := team[current.value].stats.speed >= foe.value.stats.speed;
      var fainted := Attack(playerFirst, if playerFirst then k else j, if playerFirst then playerDraws else foeDraws);
      if fainted {
        outcome := CheckBattleEnd();
        return;
      }
      if Combatant(State(), playerFirst).stats.currentHp > 0 {
        fainted := Attack(!playerFirst, if playerFirst then j else k, if playerFirst then foeDraws else playerDraws);
        if fainted {
          outcome := CheckBattleEnd();
          return;
        }
      }
      outcome := None;
    }

    /** The phase the handlers set from a battle result. */
    method EnterPhase(outcome: Option<Outcome>)
      modifies this
      ensures State() == AfterOutcome(Ending(old(State()), outcome))
    {
      match outcome
      case Some(GameOver) =>
      case Some(PlayerWon) =>
        phase := BattleEnd;
      case None =>
        phase := SelectMove;
    }

    /** handleMoveSelection with the player's move `k`. */
    method HandleMoveSelection(k: nat, playerDraws: MoveDraws, foeDraws: MoveDraws)
      requires InBattle(State()) && k < |Player(State()).moves| && |Foe(State()).moves| > 0
      modifies this
      ensures State() == MoveSelection(old(State()), k, playerDraws, foeDraws)
    {
      if phase != SelectMove {
        return;
      }
      phase := Executing;
      var foeMove := AIMoveChoice(foe.value.moves);
      var outcome := ExecuteTurn(k, foeMove, playerDraws, foeDraws);
      EnterPhase(outcome);
    }

    /** handleSwitchDuringTurn to team member `t`. */
    method HandleSwitchDuringTurn(t: nat, roll: Roll)
      requires InBattle(State()) && t < |team| && |Foe(State()).moves| > 0
      modifies this
      ensures State() == Switch(old(State()), t, roll)
    {
      if t == current.value || team[t].stats.currentHp == 0 {
        return;
      }
      var wasFainted := team[current.value].stats.currentHp == 0;
      current := Some(t);
      if !wasFainted && phase == SelectMove {
        phase := Executing;
        var foeC := foe.value;
        var j := AIMoveChoice(foeC.moves);
        var foeMove := foeC.moves[j];
        if foeMove.currentPp > 0 {
          SetCombatant(false, SpendPp(foeC, j));
          var result := CalculateDamage(foe.value, team[t], foeMove, roll);
          if result.Hit? {
            SetCombatant(true, TakeDamage(team[t], result.damage));
          }
        }
        var outcome := CheckBattleEnd();
        EnterPhase(outcome);
      }
    }

    /** nextBattle with the already created opponent. */
    method NextBattle(opponent: Creature)
      modifies this
      ensures State() == Rules.NextBattle(old(State()), opponent)
    {
      battleNumber := battleNumber + 1;
      if catchCooldown > 0 {
        catchCooldown := catchCooldown - 1;
      }
      playerCharge := None;
      foeCharge := None;
      ghost var before := team;
      var i := 0;
      while i < |team|
        invariant 0 <= i <= |team| == |before|
        invariant forall p :: 0 <= p < i ==> team[p] == Restored(before[p])
        invariant forall p :: i <= p < |team| ==> team[p] == before[p]
        invariant battleNumber == old(battleNumber) + 1 && playerCharge.None? && foeCharge.None?
        invariant catchCooldown == (if old(catchCooldown) > 0 then old(catchCooldown) - 1 else 0)
        invariant current == old(current) && foe == old(foe) && phase == old(phase)
      {
        var c := team[i];
        c := c.(stats := c.stats.(currentHp := c.stats.maxHp));
        var moves := c.moves;
        var m := 0;
        while m < |moves|
          invariant 0 <= m <= |moves| == |c.moves|
          invariant forall q :: 0 <= q < m ==> moves[q] == c.moves[q].(currentPp := c.moves[q].maxPp)
          invariant forall q :: m <= q < |moves| ==> moves[q] == c.moves[q]
        {
          moves := moves[m := moves[m].(currentPp := moves[m].maxPp)];
          m := m + 1;
        }
        team := team[i := c.(moves := moves)];
        i := i + 1;
      }
      assert team == HealTeam(before);
      foe := Some(opponent);
      phase := SelectMove;
    }

    /** handleCatch; `opponent` is the foe the following nextBattle creates. */
    method HandleCatch(shouldCatch: bool, opponent: Creature)
      requires foe.Some?
      modifies this
      ensures State() == Catch(old(State()), shouldCatch, opponent)
    {
      if shouldCatch {
        var caught := foe.value;
        caught := WithHp(caught, caught.stats.maxHp / 2);
        team := team + [caught];
        catchCooldown := 3;
        NextBattle(opponent);
      }
    }

    /** restartGame. */
    method RestartGame()
      modifies this
      ensures State() == Initial
    {
      team := [];
      current := None;
      foe := None;
      battleNumber := 1;
      catchCooldown := 0;
      phase := SelectMove;
      playerCharge := None;
      foeCharge := None;
    }

    /** startGame with the starter and the first opponent already created. */
    method StartGame(starter: Creature, opponent: Creature)
      modifies this
      ensures State() == Start(old(State()), starter, opponent)
    {
      team := [starter];
      current := Some(0);
      foe := Some(opponent);
      phase := SelectMove;
    }
  }
}
