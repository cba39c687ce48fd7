/**
 * The game session as a value and every battle-flow operation as a function
 * from the session before to the session after: one attacker's action, the
 * turn, the battle-end check, the voluntary switch, move selection, the
 * catch and the reset between battles. The class in game.dfy performs the
 * same operations in place and is proved against these functions.
 */
module Rules {
  import opened Wrappers
  import opened Stats
  import opened SpecialMoves
  import opened Creatures
  import opened Damage
  import opened Mechanics

  datatype Phase = SelectMove | Executing | BattleEnd

  datatype Outcome = GameOver | PlayerWon

  /**
   * The session state: the team, the index of the active team member, the
   * foe, the two charging slots, the phase, the battle number and the catch
   * cooldown. `current` and `foe` are absent before the first battle starts.
   */
  datatype Session = Session(
    team: seq<Creature>, current: Option<nat>, foe: Option<Creature>,
    playerCharge: Option<Move>, foeCharge: Option<Move>,
    phase: Phase, battleNumber: nat, catchCooldown: nat)

  predicate InBattle(s: Session)
  {
    s.current.Some? && s.current.value < |s.team| && s.foe.Some?
  }

  function Player(s: Session): Creature
    requires InBattle(s)
  {
    s.team[s.current.value]
  }

  function Foe(s: Session): Creature
    requires InBattle(s)
  {
    s.foe.value
  }

  /** The player's active creature or the foe. */
  function Combatant(s: Session, isPlayer: bool): Creature
    requires InBattle(s)
  {
    if isPlayer then Player(s) else Foe(s)
  }

  /** The session with one side's creature replaced; the rest is untouched. */
  function WithCombatant(s: Session, isPlayer: bool, c: Creature): (r: Session)
    requires InBattle(s)
    ensures InBattle(r) && r.current == s.current && |r.team| == |s.team|
    ensures Combatant(r, isPlayer) == c && Combatant(r, !isPlayer) == Combatant(s, !isPlayer)
    ensures isPlayer ==> r.foe == s.foe
    ensures forall i :: 0 <= i < |s.team| && (!isPlayer || i != s.current.value) ==> r.team[i] == s.team[i]
    ensures r.playerCharge == s.playerCharge && r.foeCharge == s.foeCharge
    ensures r.phase == s.phase && r.battleNumber == s.battleNumber && r.catchCooldown == s.catchCooldown
  {
    if isPlayer then s.(team := s.team[s.current.value := c]) else s.(foe := Some(c))
  }

  /** The charging slot of one side. */
  function Slot(s: Session, isPlayer: bool): Option<Move>
  {
    if isPlayer then s.playerCharge else s.foeCharge
  }

  function WithSlot(s: Session, isPlayer: bool, m: Option<Move>): (r: Session)
    ensures Slot(r, isPlayer) == m && Slot(r, !isPlayer) == Slot(s, !isPlayer)
    ensures r.team == s.team && r.current == s.current && r.foe == s.foe
    ensures r.phase == s.phase && r.battleNumber == s.battleNumber && r.catchCooldown == s.catchCooldown
  {
    if isPlayer then s.(playerCharge := m) else s.(foeCharge := m)
  }

  // ---------------------------------------------------------------------------
  // Invariant
  // ---------------------------------------------------------------------------

  /**
   * HP between 0 and the maximum, four moves, PP at most the maximum and at
   * least -1 (-1 only after a charge-up spent the last point twice).
   */
  predicate CreatureValid(c: Creature)
  {
    c.stats.currentHp <= c.stats.maxHp && |c.moves| == 4
    && forall i :: 0 <= i < |c.moves| ==> -1 <= c.moves[i].currentPp <= c.moves[i].maxPp
  }

  /** A charging slot only ever holds a charge move. */
  predicate SlotValid(m: Option<Move>)
  {
    m.Some? ==> IsChargingMove(m.value.name)
  }

  predicate SessionValid(s: Session)
  {
    (forall i :: 0 <= i < |s.team| ==> CreatureValid(s.team[i]))
    && (s.foe.Some? ==> CreatureValid(s.foe.value))
    && (s.current.Some? ==> s.current.value < |s.team|)
    && SlotValid(s.playerCharge) && SlotValid(s.foeCharge)
  }

  // ---------------------------------------------------------------------------
  // One attacker's action
  // ---------------------------------------------------------------------------

  /** The move a side uses: the stored charge move when its slot is set, else move `k`. */
  function ActualMove(s: Session, isPlayer: bool, k: nat): Move
    requires InBattle(s) && k < |Combatant(s, isPlayer).moves|
  {
    if Slot(s, isPlayer).Some? then Slot(s, isPlayer).value else Combatant(s, isPlayer).moves[k]
  }

  /** A side acts when its slot is set or the move still has PP. */
  predicate CanAct(s: Session, isPlayer: bool, k: nat)
    requires InBattle(s) && k < |Combatant(s, isPlayer).moves|
  {
    ActualMove(s, isPlayer, k).currentPp > 0 || Slot(s, isPlayer).Some?
  }

  /** How a turn continues after one action. */
  datatype Step = Step(session: Session, fainted: bool)

  /** The session after the side's action result is applied; `fainted` stops the turn. */
  function Resolve(s: Session, isPlayer: bool, m: Move, result: ActionResult): (r: Step)
    requires InBattle(s)
    ensures InBattle(r.session) && r.session.current == s.current && |r.session.team| == |s.team|
    ensures Slot(r.session, true) == Slot(s, true) && Slot(r.session, false) == Slot(s, false)
    ensures r.session.phase == s.phase && r.session.battleNumber == s.battleNumber
    ensures r.session.catchCooldown == s.catchCooldown
    ensures forall b :: Combatant(r.session, b).(stats := Combatant(s, b).stats) == Combatant(s, b)
    ensures forall b :: Combatant(r.session, b).stats.(currentHp := Combatant(s, b).stats.currentHp)
                        == Combatant(s, b).stats
    ensures forall i :: 0 <= i < |s.team| && i != s.current.value ==> r.session.team[i] == s.team[i]
  {
    match result
    case Charging => Step(s, false)
    case Miss =>
      var crash := RecoilDamage(Combatant(s, isPlayer).stats.maxHp, m.name, 0);
      if crash > 0 then
        var s1 := WithCombatant(s, isPlayer, TakeDamage(Combatant(s, isPlayer), crash));
        Step(s1, Combatant(s1, isPlayer).stats.currentHp == 0)
      else Step(s, false)
    case Landed(d, _, _, _) =>
      var s1 := WithCombatant(s, !isPlayer, TakeDamage(Combatant(s, !isPlayer), d));
      var recoil := RecoilDamage(Combatant(s1, isPlayer).stats.maxHp, m.name, d);
      var s2 := if recoil > 0 then WithCombatant(s1, isPlayer, TakeDamage(Combatant(s1, isPlayer), recoil)) else s1;
      Step(s2, Combatant(s2, !isPlayer).stats.currentHp == 0 || Combatant(s2, isPlayer).stats.currentHp == 0)
  }

  /**
   * One side's part of executeTurn with chosen move `k`: the PP taken at
   * the start (none when the slot is set), executeSpecialMove, and the
   * damage, crash and recoil that follow.
   */
  function Act(s: Session, isPlayer: bool, k: nat, draws: MoveDraws): (r: Step)
    requires InBattle(s) && k < |Combatant(s, isPlayer).moves|
    ensures InBattle(r.session) && r.session.current == s.current && |r.session.team| == |s.team|
    ensures forall b :: |Combatant(r.session, b).moves| == |Combatant(s, b).moves|
    ensures r.session.phase == s.phase && r.session.battleNumber == s.battleNumber
    ensures r.session.catchCooldown == s.catchCooldown
    ensures Slot(r.session, !isPlayer) == Slot(s, !isPlayer)
    ensures Combatant(r.session, !isPlayer).moves == Combatant(s, !isPlayer).moves
    ensures forall i :: 0 <= i < |s.team| && i != s.current.value ==> r.session.team[i] == s.team[i]
  {
    var slot := Slot(s, isPlayer);
    var m := ActualMove(s, isPlayer, k);
    if !CanAct(s, isPlayer, k) then Step(s, false)
    else
      var s1 := if slot.None? then WithCombatant(s, isPlayer, SpendPp(Combatant(s, isPlayer), k)) else s;
      var o := ExecuteSpecialMove(slot, Combatant(s1, isPlayer), Combatant(s1, !isPlayer), m, draws);
      var s2 := WithSlot(s1, isPlayer, o.slot);
      var s3 := if o.extraPp then WithCombatant(s2, isPlayer, SpendPp(Combatant(s2, isPlayer), k)) else s2;
      assert Combatant(s3, !isPlayer) == Combatant(s, !isPlayer) && Slot(s3, !isPlayer) == Slot(s, !isPlayer);
      assert |Combatant(s3, isPlayer).moves| == |Combatant(s, isPlayer).moves|;
      Resolve(s3, isPlayer, m, o.result)
  }

  // ---------------------------------------------------------------------------
  // Battle end
  // ---------------------------------------------------------------------------

  /** The index of the first team member with HP left. */
  function FirstAlive(team: seq<Creature>): (r: Option<nat>)
    ensures r.None? <==> forall i :: 0 <= i < |team| ==> team[i].stats.currentHp == 0
    ensures r.Some? ==> r.value < |team| && team[r.value].stats.currentHp > 0
    ensures r.Some? ==> forall i :: 0 <= i < r.value ==> team[i].stats.currentHp == 0
  {
    if |team| == 0 then None
    else if team[0].stats.currentHp > 0 then Some(0)
    else match FirstAlive(team[1..])
      case None => None
      case Some(k) => Some(k + 1)
  }

  /** What a battle-flow step reports back, with the session after it. */
  datatype Ending = Ending(session: Session, outcome: Option<Outcome>)

  /**
   * checkBattleEnd: a fainted active creature is replaced by the first living
   * member, or the game is over when there is none; otherwise a fainted foe
   * means the player won.
   */
  function CheckBattleEnd(s: Session): (r: Ending)
    requires InBattle(s)
    ensures InBattle(r.session)
    ensures r.session == s || r.session == s.(current := r.session.current)
  {
    if Player(s).stats.currentHp == 0 then
      match FirstAlive(s.team)
      case None => Ending(s, Some(GameOver))
      case Some(i) => Ending(s.(current := Some(i)), None)
    else if Foe(s).stats.currentHp == 0 then Ending(s, Some(PlayerWon))
    else Ending(s, None)
  }

  // ---------------------------------------------------------------------------
  // The turn
  // ---------------------------------------------------------------------------

  /** The player moves first unless the foe is strictly faster. */
  predicate PlayerFirst(s: Session)
    requires InBattle(s)
  {
    Player(s).stats.speed >= Foe(s).stats.speed
  }

  /**
   * executeTurn with the player's move `k` and the foe's move `j`. The second
   * side only acts when the first action did not faint anyone and the first
   * attacker still has HP.
   */
  function Turn(s: Session, k: nat, j: nat, playerDraws: MoveDraws, foeDraws: MoveDraws): (r: Ending)
    requires InBattle(s) && k < |Player(s).moves| && j < |Foe(s).moves|
    ensures InBattle(r.session) && |r.session.team| == |s.team|
    ensures r.session.phase == s.phase && r.session.battleNumber == s.battleNumber
    ensures r.session.catchCooldown == s.catchCooldown
  {
    var first := PlayerFirst(s);
    var a := Act(s, first, if first then k else j, if first then playerDraws else foeDraws);
    if a.fainted then CheckBattleEnd(a.session)
    else if Combatant(a.session, first).stats.currentHp > 0 then
      var b := Act(a.session, !first, if first then j else k, if first then foeDraws else playerDraws);
      if b.fainted then CheckBattleEnd(b.session) else Ending(b.session, None)
    else Ending(a.session, None)
  }

  /** The phase a handler leaves after a battle-flow step: game over keeps `Executing`. */
  function AfterOutcome(e: Ending): Session
  {
    match e.outcome
    case Some(GameOver) => e.session
    case Some(PlayerWon) => e.session.(phase := BattleEnd)
    case None => e.session.(phase := SelectMove)
  }

  /** handleMoveSelection with the player's move `k`: ignored outside move selection. */
  function MoveSelection(s: Session, k: nat, playerDraws: MoveDraws, foeDraws: MoveDraws): Session
    requires InBattle(s) && k < |Player(s).moves| && |Foe(s).moves| > 0
  {
    if s.phase != SelectMove then s
    else
      var s1 := s.(phase := Executing);
      AfterOutcome(Turn(s1, k, AIMoveChoice(Foe(s1).moves), playerDraws, foeDraws))
  }

  // ---------------------------------------------------------------------------
  // Voluntary switch
  // ---------------------------------------------------------------------------

  /** The foe's free attack after a voluntary switch: plain calculateDamage, no special mechanics. */
  function FoeFreeAttack(s: Session, roll: Roll): (r: Session)
    requires InBattle(s) && |Foe(s).moves| > 0
    ensures InBattle(r) && r.current == s.current && |r.team| == |s.team|
  {
    var j := AIMoveChoice(Foe(s).moves);
    var m := Foe(s).moves[j];
    if m.currentPp > 0 then
      var s1 := WithCombatant(s, false, SpendPp(Foe(s), j));
      match CalculateDamage(Foe(s1), Player(s1), m, roll)
      case Missed => s1
      case Hit(d, _, _, _) => WithCombatant(s1, true, TakeDamage(Player(s1), d))
    else s
  }

  /**
   * handleSwitchDuringTurn to team member `t`. A switch away from a living
   * creature during move selection costs the turn: the foe attacks the
   * incoming creature once.
   */
  function Switch(s: Session, t: nat, roll: Roll): Session
    requires InBattle(s) && t < |s.team| && |Foe(s).moves| > 0
  {
    if t == s.current.value || s.team[t].stats.currentHp == 0 then s
    else
      var wasFainted := Player(s).stats.currentHp == 0;
      var s1 := s.(current := Some(t));
      if wasFainted || s.phase != SelectMove then s1
      else AfterOutcome(CheckBattleEnd(FoeFreeAttack(s1.(phase := Executing), roll)))
  }

  // ---------------------------------------------------------------------------
  // After the battle
  // ---------------------------------------------------------------------------

  /** The catch offer appears when the cooldown has run out and the team has fewer than three members. */
  predicate CatchOffered(s: Session)
  {
    s.catchCooldown == 0 && |s.team| < 3
  }

  /** A creature at full HP with every move at full PP. */
  function Restored(c: Creature): (r: Creature)
    ensures r.stats == c.stats.(currentHp := c.stats.maxHp)
    ensures |r.moves| == |c.moves|
    ensures forall i :: 0 <= i < |c.moves| ==> r.moves[i] == c.moves[i].(currentPp := c.moves[i].maxPp)
    ensures r.name == c.name && r.types == c.types && r.level == c.level
  {
    c.(stats := c.stats.(currentHp := c.stats.maxHp),
       moves := seq(|c.moves|, i requires 0 <= i < |c.moves| => c.moves[i].(currentPp := c.moves[i].maxPp)))
  }

  function HealTeam(team: seq<Creature>): (r: seq<Creature>)
    ensures |r| == |team| && forall i :: 0 <= i < |team| ==> r[i] == Restored(team[i])
  {
    seq(|team|, i requires 0 <= i < |team| => Restored(team[i]))
  }

  /**
   * nextBattle with the already created opponent: the battle number goes up,
   * a running cooldown goes down, both slots are cleared, the whole team is
   * restored, and move selection starts against the new foe.
   */
  function NextBattle(s: Session, opponent: Creature): Session
  {
    s.(battleNumber := s.battleNumber + 1,
       catchCooldown := if s.catchCooldown > 0 then s.catchCooldown - 1 else 0,
       playerCharge := None, foeCharge := None,
       team := HealTeam(s.team),
       foe := Some(opponent),
       phase := SelectMove)
  }

  /**
   * handleCatch. Declining changes nothing. Catching halves the foe's HP
   * (rounded down), appends it to the team, sets the cooldown to 3 and goes
   * straight on to the next battle.
   */
  function Catch(s: Session, shouldCatch: bool, opponent: Creature): Session
    requires s.foe.Some?
  {
    if !shouldCatch then s
    else
      var f := s.foe.value;
      var caught := WithHp(f, f.stats.maxHp / 2);
      NextBattle(s.(team := s.team + [caught], catchCooldown := 3), opponent)
  }

  /** restartGame. */
  const Initial: Session := Session([], None, None, None, None, SelectMove, 1, 0)

  /** startGame with the starter and the first opponent already created. */
  function Start(s: Session, starter: Creature, opponent: Creature): (r: Session)
    ensures InBattle(r) && Player(r) == starter && Foe(r) == opponent
  {
    s.(team := [starter], current := Some(0), foe := Some(opponent), phase := SelectMove)
  }
}
