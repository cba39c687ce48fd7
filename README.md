# Pokémon roguelike battle engine, modelled in Dafny

This project models the battle-resolution engine of a browser Pokémon roguelike, `app.js`. The game works as follows:
- The player picks a starter and fights wild creatures one after another.
- Each creature has derived stats and four moves with PP (power points). Two creatures trade moves in speed order.
- Damage uses a floored formula with STAB (same-type attack bonus), type effectiveness, critical hits and a random spread.
- A few named moves have special mechanics:
  - two-turn charge moves,
  - recoil and crash damage,
  - multi-hit strikes.
- After a win the player may catch the defeated foe, subject to a cooldown and a team limit. The next battle heals the whole team.

The model is organised as follows.

- **The static tables are functions.** These are the type chart (`TypeChart`) and the special-move table (`SpecialMoves`).
- **The pure computations are functions with contracts.** These are:
  - stat derivation and BST, the base stat total (`Stats`);
  - single-hit damage (`Damage`);
  - the multi-hit and charge mechanics (`Mechanics`);
  - the AI's move choice (`Creatures`);
  - moveset assembly and the opponent picker (`Movesets`, `Opponents`).
- **The source's loops become methods.** Each loop is a `method` with its invariants, proved equal to the function that specifies it. These are:
  - the type-effectiveness accumulator;
  - the stat loop;
  - the multi-hit strike loop;
  - the in-place Fisher–Yates `shuffle` on an `array`;
  - the move-picking and padding loops;
  - the opponent retry loop;
  - the team/move restore loops of `nextBattle`.
- **The two mutable records become one class.** The source keeps two global records, `gameState` and `battleState`. They are modelled by the class `Game.Battle`, whose fields are updated in place by the handlers:
  - `executeSpecialMove`, the per-side block of `executeTurn`, and `checkBattleEnd`;
  - `handleMoveSelection` and `handleSwitchDuringTurn`;
  - `handleCatch` and `nextBattle`;
  - `restartGame` and `startGame`.
- **Each method is proved against a function.** It ensures `State() == Rules.X(old(State()), …)`. The `Rules` module holds those functions of a `Session` value, and the `Laws` module proves the game's properties about them. The main property is a session invariant: HP stays within `0..maxHp`, there are four moves, PP stays within `-1..maxPp`, and the charge slots hold only charge moves. It is preserved by every handler.

Randomness is an explicit input:
- A `Damage.Roll` carries the three `Math.random` draws one `calculateDamage` call makes: accuracy, critical hit and spread.
- A `Mechanics.MoveDraws` carries the multi-hit count draw and the roll of the n-th `calculateDamage` call within one move use.
- `shuffle` takes a sequence of draws.
- The opponent picker takes the sequence of fetched samples.

Network fetches are parameters:
- `fetch: string -> Option<MoveDetail>` for move records, where `None` is a failed fetch;
- already-fetched `Species` records and already-created opponents for the handlers that await them.

Floating-point multipliers are Dafny `real`s, floored with `.Floor`.

Some things the game does not do, so the model has nothing for them:
- there is no sleep or other status condition, no delayed damage and no replacement of team members;
- opponents are not scaled to a BST range: battles up to 3 sample for a BST of at most 330, and later battles take any random species;
- a catch is offered only while the team has fewer than 3 members.

## Model

| member | source | states |
|---|---|---|
| TypeChart.Factor | app.js:20-39 | one defending type contributes its chart cell, which is one of 0, 0.5, 1 and 2, or 1 when the attack row or the cell is missing |
| TypeChart.GetTypeEffectiveness | app.js:133-144 | the accumulator loop returns the product of the factors of the defender's types, in order |
| TypeChart.EffectivenessNonNegative | app.js:133-144 | the effectiveness is never negative |
| TypeChart.NoEffectIffImmuneType | app.js:133-144 | the effectiveness is 0 exactly when some defending type has an immune (0) cell |
| TypeChart.UnlistedIsNeutral | app.js:133-144 | a defender whose types are all unlisted for the attack gets exactly 1 |
| TypeChart.EffectivenessOfTwoTypes | app.js:133-144 | for one or two defending types the product is one of 0, 0.25, 0.5, 1, 2, 4 |
| TypeChart.WaterAgainstFireGround | app.js:133-144 | water against a fire/ground defender gives 2·2 = 4 |
| TypeChart.EffectivenessText | app.js:146-151 | the message is "no effect" iff e = 0, "not very effective" iff 0 ≠ e < 1, "super effective" iff e > 1, and none iff e = 1 |
| TypeChart.NoEffectMessageIffImmune | app.js:133-151 | the "no effect" message appears exactly when some defending type is immune |
| SpecialMoves.TagsExclusive | app.js:46-80 | no move answers true to two of isChargingMove, isRecoilMove and isMultiHitMove, because every table entry has exactly one tag |
| SpecialMoves.TableShape | app.js:46-80 | multi-hit entries are [2,5] or [2,2]; recoil percentages are 25, 33 or 50; only 50% entries carry missRecoil |
| SpecialMoves.MultiHitCount | app.js:168-181 | the count is 1 for moves without a multi-hit tag, min when min = max, and otherwise min, min+1, max-1 or max by the thresholds 0.375, 0.75 and 0.875 |
| SpecialMoves.FixedRangeIgnoresDraw | app.js:172-173 | double-kick and twineedle (a fixed range) strike min times whatever the draw |
| SpecialMoves.TwoToFiveBands | app.js:175-180 | for a 2–5 move each count happens exactly on its band of the draw |
| SpecialMoves.RecoilDamage | app.js:183-193 | 0 without a recoil tag; floor(maxHp/2) for a miss with missRecoil; 0 for a miss otherwise; floor(dealt·percent/100) after a hit |
| SpecialMoves.RecoilAtMostHalf | app.js:183-193 | recoil after a hit never exceeds half the damage dealt |
| SpecialMoves.CrashOnlyForMissRecoil | app.js:186-189 | only a 50% missRecoil move (the jump-kick family) hurts its user on a miss |
| SpecialMoves.RecoilExamples | app.js:183-193 | double-edge after 90 damage costs 29; jump-kick missing at 151 max HP costs 75; take-down missing and tackle cost 0 |
| Stats.AtDefaultLevel | app.js:89-92 | with IV 31, EV 0, neutral nature and level 50, HP is base + 75 and every other stat is base + 20 |
| Stats.FormulasMonotone | app.js:415-420 | both stat formulas grow with the base value at any level |
| Stats.RemoveFirstDashNoDash | app.js:418 | a name without a dash is its own key |
| Stats.RemoveFirstDashSplit | app.js:418 | the key drops only the first dash of the name |
| Stats.ComputeStatsAtLevel | app.js:410-425 | the forEach loop returns the block obtained by applying every entry in order |
| Stats.GetAfterApply | app.js:414-421 | one entry writes its own field (HP writes maxHp and currentHp) and leaves the others alone |
| Stats.StatsFromLastEntry | app.js:410-425 | each field of the result comes from the last entry that names it, or is 0 when none does |
| Stats.StatsStartAtFullHp | app.js:415-416 | the computed block has currentHp = maxHp |
| Stats.FieldOfPlainName | app.js:414-418 | a dash-free name other than "hp" writes the field with that very key |
| Stats.FieldOfSpecialName | app.js:414-418 | "special-" followed by a name writes the field keyed "special" followed by that name, since only the first dash is removed |
| Stats.StatsOfStep | app.js:412-422 | the block after k+1 entries is one step applied to the block after k |
| Stats.StandardStatsAtDefaultLevel | app.js:410-425 | for the standard six-name list at level 50 every field is filled: HP base + 75, the rest base + 20, at full HP |
| Stats.BstAppend | app.js:98-101 | the BST of a concatenation is the sum of the BSTs |
| Stats.BstBoundsEntries | app.js:98-101 | every base value is at most the BST |
| Stats.StatTotalAtDefaultLevel | app.js:98-101 | for a standard list the six stats at level 50 sum to BST + 175 |
| Creatures.HpAfter | app.js:598 | HP after x damage is max(0, hp − x): never more than hp, 0 exactly when x ≥ hp, and otherwise hp − x |
| Creatures.TakeDamage | app.js:607 | only currentHp changes, to HpAfter(hp, x) |
| Creatures.SpendPp | app.js:582-584 | move k loses one PP; every other move and every other field is unchanged |
| Creatures.BestAvailable | app.js:539-549 | none iff no move has PP; otherwise a move with PP whose power is maximal among moves with PP, and the earliest such |
| Creatures.AIMoveChoice | app.js:539-549 | the chosen index has PP, maximal power and is first among ties when some move has PP; otherwise it is 0 |
| Creatures.AIMoveChoiceUnique | app.js:539-549 | those three properties determine the AI's choice |
| Damage.PowerOf | app.js:498 | power defaults to 40 when null or 0, else it is the move's power |
| Damage.AccuracyOf | app.js:499 | accuracy defaults to 100 when null or 0, else it is the move's accuracy |
| Damage.BaseDamage | app.js:511-515 | the floored base formula is at least 2 |
| Damage.Spread | app.js:529 | the spread factor lies in [0.85, 1) for a draw in [0, 1) |
| Damage.Max1 | app.js:533 | the lower bound: at least 1 and at least x, and x itself when x ≥ 1 |
| Damage.CalculateDamage | app.js:496-537 | a miss iff draw·100 > accuracy; a hit deals max(1, floor(base·stab·eff·crit·spread)) ≥ 1 and reports the effectiveness, the critical flag and STAB |
| Damage.FullAccuracyNeverMisses | app.js:502-504 | a move with accuracy 100 (or none) never misses on a draw below 1 |
| Damage.ImmuneHitDealsOne | app.js:522-533 | a hit on an immune defender deals exactly 1 |
| Damage.BaseDamageAtDefaultLevel | app.js:511-515 | at level 50 the level term of the base formula is 22 |
| Damage.DamageClassSelectsStats | app.js:506-508 | a physical move reads only attack and defense; any other class reads only specialattack and specialdefense |
| Damage.FloorMonotone | app.js:531 | floor is monotone |
| Damage.ScaledCritMonotone | app.js:525-531 | the 1.5 critical multiplier never lowers the product |
| Damage.ScaledBound | app.js:518-531 | the product is largest with STAB, a critical hit and a full spread |
| Damage.CritNeverLowersDamage | app.js:525-533 | with the same other draws, a critical hit deals at least as much as a plain one |
| Damage.DamageUpperBound | app.js:511-533 | for draws in range a hit deals at most max(1, floor(base·1.5·eff·1.5)) |
| Mechanics.SingleHit | app.js:240-242 | a non-special move misses exactly when its calculateDamage misses, and otherwise lands one strike with that damage |
| Mechanics.SubHits | app.js:219-230 | among n strikes the landed count is at most n and the total damage is at least the landed count |
| Mechanics.ExecuteMultiHit | app.js:214-238 | the strike loop returns the miss or the summed result, with the effectiveness of the extra call |
| Mechanics.FirstStrikeCounts | app.js:219-230 | once the first strike lands, at least one strike is counted |
| Mechanics.MultiHitOutcome | app.js:214-238 | a multi-hit move misses exactly when its first strike misses; otherwise 1 ≤ hits ≤ the drawn count and damage ≥ hits (so the hitsMade = 0 branch is unreachable) |
| Mechanics.AllStrikesLand | app.js:219-230 | when every strike lands, all of them are counted |
| Mechanics.SureHitLandsEveryStrike | app.js:214-238 | a 100%-accurate multi-hit move lands every drawn strike |
| Mechanics.ExecuteSpecialMove | app.js:195-243 | with an empty slot a charge move fills the slot, charges and takes one more PP; with a full slot it clears the slot and strikes once; other moves leave the slot alone and strike once or as multi-hit |
| Rules.WithCombatant | app.js:555-558 | writing one side's creature changes that side only |
| Rules.WithSlot | app.js:83-86 | writing one side's charging slot changes that slot only |
| Rules.Resolve | app.js:587-640 | applying a result changes only current HP: both creatures keep their name, types, level, moves and every other stat; the slots, phase, counters and the rest of the team stay the same |
| Rules.Act | app.js:580-641 | one side's action keeps the other side's moves and slot, the phase, the counters and the bench, and keeps both move counts |
| Rules.FirstAlive | app.js:716 | none iff the whole team is at 0 HP; otherwise the first member with HP left |
| Rules.CheckBattleEnd | app.js:711-735 | the check changes at most the active member |
| Rules.Turn | app.js:555-709 | a turn keeps both creatures in battle and leaves the team size, the phase, the battle number and the cooldown alone |
| Rules.FoeFreeAttack | app.js:908-924 | the free attack keeps the active member and the team size |
| Laws.FoeFreeAttackEffects | app.js:908-924 | with PP left, the AI's move loses one PP and the active creature takes that move's plain calculateDamage damage, or nothing on a miss; without PP nothing changes; the foe's stats, both slots, the phase and the rest of the team are kept |
| Rules.Restored | app.js:1023-1029 | a restored creature is at max HP and every move is at max PP, and nothing else changes |
| Rules.HealTeam | app.js:1023-1029 | every member of the team is restored |
| Rules.Start | app.js:1092-1103 | starting puts the starter in front of the first opponent |
| Laws.TakeDamageValid | app.js:598 | damage keeps 0 ≤ HP ≤ maxHp |
| Laws.SpendPpValid | app.js:582-584 | spending a point of PP from a move at PP ≥ 0 keeps PP at −1 or above |
| Laws.WithCombatantValid | app.js:555-558 | writing a valid creature back keeps the session valid |
| Laws.ResolveValid | app.js:587-640 | applying damage, crash and recoil keeps the session valid |
| Laws.ActValid | app.js:580-641 | one action keeps HP in bounds, PP ≥ −1 and the slots holding charge moves |
| Laws.CheckBattleEndValid | app.js:711-735 | the battle-end check keeps the session valid |
| Laws.TurnValid | app.js:555-709 | a whole turn keeps the session valid |
| Laws.MoveSelectionValid | app.js:941-964 | a move selection keeps the session valid |
| Laws.FoeFreeAttackValid | app.js:908-924 | the foe's free attack keeps the session valid |
| Laws.SwitchValid | app.js:895-939 | a switch keeps the session valid |
| Laws.RestoredValid | app.js:1023-1029 | restoring a valid creature keeps it valid |
| Laws.NextBattleValid | app.js:999-1041 | going on to the next battle keeps the session valid |
| Laws.CatchValid | app.js:978-997 | a catch or a refusal keeps the session valid |
| Laws.StartValid | app.js:1078-1106 | starting with valid creatures gives a valid session |
| Laws.InitialValid | app.js:1049-1066 | the reset state is valid and not in battle |
| Laws.ChargeUp | app.js:197-206 | with an empty slot a charge move is stored, loses two PP, charges, and nobody's HP changes |
| Laws.ChargeUpCanReachMinusOne | app.js:580-584 | a charge-up with one PP left leaves the move at −1: the turn's decrement here and executeSpecialMove's at app.js:205 |
| Laws.ChargeRelease | app.js:207-211 | with a full slot the stored move is used whatever move was chosen; no PP is taken, the slot is cleared, and it strikes as a single hit |
| Laws.ActNeverHeals | app.js:580-641 | one action never raises either creature's HP |
| Laws.ResolveNeverHeals | app.js:587-640 | applying any action result never raises either creature's HP |
| Laws.PlainMoveSpendsOnePp | app.js:580-584 | a move with no charge-up used from an empty slot takes exactly one PP from that move, changes no other move, and leaves the slot empty |
| Laws.RecoilAfterHit | app.js:606-626 | after a landed hit of d the attacker's HP is its HP less the recoil its move takes for d, floored at 0 |
| Laws.LandedHitDamagesDefender | app.js:607 | a landed hit of d takes exactly min(d, HP) from the defender |
| Laws.MissedCrashHurtsUser | app.js:590-604 | a missed crash move costs its user floor(maxHp/2), clamped, and leaves the defender alone |
| Laws.LandedFaintFlag | app.js:628-640 | after a landed hit the turn stops exactly when either side is at 0 HP |
| Laws.FaintEndsTurn | app.js:555-709 | when the first action faints anyone, the turn is exactly checkBattleEnd of that action's result, and the second side's moves and slot are untouched |
| Laws.FasterKnockoutWins | app.js:568-632 | a player at least as fast as the foe who knocks out a standing foe and survives wins the battle before the foe moves |
| Laws.ActFaintedWhenFoeDropsToZero | app.js:628-632 | a player action that drops a standing foe to 0 reports the faint |
| Laws.GameOverIff | app.js:711-723 | game over exactly when the active creature is fainted and no team member has HP |
| Laws.PlayerWonIff | app.js:729-732 | the player wins exactly when the active creature stands and the foe is at 0 HP |
| Laws.AutoSwitchToFirstAlive | app.js:715-727 | a fainted active creature is replaced by the first living member and the battle goes on; nothing else changes |
| Laws.NoFaintNoChange | app.js:711-735 | with nobody fainted the check changes nothing |
| Laws.GameOverIsFinal | app.js:941-964 | after a game over the phase stays executing, so later move selections change nothing |
| Laws.PlayerWonEndsBattle | app.js:955-957 | a won battle leaves the phase at battle end |
| Laws.SwitchAfterFaintIsFree | app.js:895-906 | a switch away from a fainted creature changes only the active member |
| Laws.VoluntarySwitch | app.js:906-938 | a voluntary switch costs the turn: the team and foe afterwards are those of the foe's free attack on the incoming creature; neither charging slot is changed; the phase returns to move selection unless the whole team is then at 0 HP |
| Laws.NextBattleRestores | app.js:999-1041 | the battle number goes up by one, a running cooldown goes down by one, both slots are cleared, every member is at max HP, every move at max PP, and the phase is move selection |
| Laws.CatchEffects | app.js:978-997 | a catch appends the foe (fully restored by the next battle, which overwrites the half heal) and leaves the cooldown at 2 |
| Laws.OfferedCatchKeepsTeamSmall | app.js:971-984 | catching only when offered keeps the team at three members or fewer |
| Laws.CooldownAfterCatch | app.js:971-1005 | after a catch the offer is withheld for the catch's own next battle and the one after, and the cooldown is back to 0 at the third |
| Laws.DeclineChangesNothing | app.js:993-996 | declining a catch changes nothing |
| Movesets.SwapIndex | app.js:443 | the drawn swap partner is at or below i |
| Movesets.Swap | app.js:444 | cells i and j are exchanged and every other cell is kept |
| Movesets.SwapPermutes | app.js:444 | a swap is a permutation |
| Movesets.ShuffleDownPermutes | app.js:441-447 | the swaps from position i down to position 1 permute the sequence |
| Movesets.ShuffledPermutes | app.js:441-447 | the shuffle keeps the length and is a permutation |
| Movesets.Shuffle | app.js:441-447 | the in-place loop leaves the array in the shuffled order of its old contents |
| Movesets.PpOf | app.js:461 | PP is the fetched value when it is positive and 20 when it is null or 0 |
| Movesets.ToMove | app.js:458-466 | the move slot copies the record's fields and starts at full PP |
| Movesets.Picks | app.js:451-467 | the picks are at most as many as the candidates and are at full PP |
| Movesets.PicksPrefix | app.js:451-467 | looking at fewer candidates yields a prefix of the picks |
| Movesets.PicksAreDamaging | app.js:453-456 | every pick comes from a damaging record of some candidate |
| Movesets.Take4 | app.js:481 | at most four moves, a prefix of the picks |
| Movesets.Pad | app.js:477-479 | pads with copies of the first move at full PP until there are four |
| Movesets.Assemble | app.js:469-481 | exactly four moves: four tackles when nothing was picked, otherwise the first picks followed by full-PP copies of the first pick |
| Movesets.AssembledAtFullPp | app.js:449-482 | every assembled move starts at full PP |
| Movesets.PickMoves | app.js:451-467 | the loop stops after four picks and returns the first four picks |
| Movesets.CompleteMoveset | app.js:469-481 | the fallback and padding loops give the padded picks, or four tackles |
| Movesets.BuildRandomMoves | app.js:449-482 | the moveset is the assembly of the picks of the shuffled candidates |
| Movesets.CreateBattleInstance | app.js:484-494 | the instance keeps the species' name and types, has the level's stats and the assembled moves, and starts at full HP and PP |
| Opponents.SampleId | app.js:387 | a sampled id is in 1..151 |
| Opponents.FirstWithin | app.js:384-394 | none iff every sample is over the cap; otherwise the first sample within it |
| Opponents.FetchRandomOpponentByBst | app.js:384-394 | the first of the twenty samples within the cap, or the last sample when none is |
| Opponents.GetRandomOpponent | app.js:396-405 | battles up to 3 use the capped search, so the opponent is within the cap iff some sample was; later battles take one sample as is |
| Opponents.FallbackSpeciesIsWeak | app.js:269-283 | the fallback record lists the six stats in the standard order, totals a BST of 318, which is within the weak cap of 330, and yields 120/120 HP, 69 attack and defense, 85 special attack and defense and 65 speed at level 50 |
| Game.Battle.constructor | app.js:6-17 | the initial state of gameState and battleState: no team, no creatures, move selection, battle 1, cooldown 0, empty slots |
| Game.Battle.SetCombatant | app.js:555-558 | writes one side's creature in place |
| Game.Battle.SetSlot | app.js:83-86 | writes one side's charging slot in place |
| Game.Battle.ExecuteSpecialMove | app.js:195-243 | sets or clears the charging slot and takes the charge-up PP in place, returning what Mechanics.ExecuteSpecialMove computes |
| Game.Battle.ApplyResult | app.js:587-640 | applies damage, crash and recoil in place as Rules.Resolve does |
| Game.Battle.Attack | app.js:580-641 | one side's block of executeTurn in place, as Rules.Act |
| Game.Battle.CheckBattleEnd | app.js:711-735 | the battle-end check in place, as Rules.CheckBattleEnd |
| Game.Battle.ExecuteTurn | app.js:555-709 | the turn in place, as Rules.Turn |
| Game.Battle.EnterPhase | app.js:951-963 | the phase after a battle result |
| Game.Battle.HandleMoveSelection | app.js:941-964 | the move-selection handler in place, as Rules.MoveSelection |
| Game.Battle.HandleSwitchDuringTurn | app.js:895-939 | the switch handler in place, as Rules.Switch |
| Game.Battle.NextBattle | app.js:999-1041 | the nested restore loops and counter updates in place, as Rules.NextBattle |
| Game.Battle.HandleCatch | app.js:978-997 | the catch handler in place, as Rules.Catch |
| Game.Battle.RestartGame | app.js:1049-1066 | the reset back to the initial state |
| Game.Battle.StartGame | app.js:1078-1106 | team of the starter, the first opponent, move selection |

## As-written behaviours the model keeps

These follow the code as written. Each is stated by a lemma above.
- **Two PP per charge-up.** A charge move's first turn takes PP twice, once at app.js:583 and once at app.js:205. A move with one point left therefore goes to −1 (`Laws.ChargeUpCanReachMinusOne`). The move buttons are disabled only at exactly 0 PP (app.js:862), but the turn still skips a move at −1 because its PP is not positive.
- **A fallen foe can still act.** Take a double knockout: the foe falls to the hit and the player's creature falls to recoil, with a living reserve. `checkBattleEnd` looks at the player first, switches the reserve in and returns no outcome (`Laws.AutoSwitchToFirstAlive`). The battle therefore goes on against a foe at 0 HP. On the next turn that foe still acts when it is faster. It also acts when the faster player charges up, or misses without crashing. The check before the second action (app.js:644) looks only at the HP of the second attacker's target, never at the second attacker's own HP.
- **The free attack ignores the charge slot.** The foe's free attack after a voluntary switch uses plain damage. It ignores the foe's charging slot and leaves the slot set (`Laws.VoluntarySwitch`).
- **The half heal on a catch is overwritten.** Catching heals the foe to floor(maxHp/2), but the immediately following `nextBattle` restores it to full. The cooldown of 3 reads 2 once that battle starts (`Laws.CatchEffects`).
- **The multi-hit "no hits" branch is dead.** The branch returning a miss after the strike loop (app.js:237) cannot be reached (`Mechanics.MultiHitOutcome`).
- **A game over keeps the phase.** After a game over the phase stays `executing`, so no further move is accepted (`Laws.GameOverIsFinal`).

## Left out

- DOM and presentation are not modelled: `logMessage`, `clearLog`, `updateUI` and its helpers, `showEndScreen`, `showPostBattleOptions` (except its catch-offer condition, `Rules.CatchOffered`), screen toggling and the event wiring. Message texts and `capitalize` are formatting only, so the message log is not kept.
- The network and caches are not modelled: `fetchPokemonData`, `fetchMoveDetail`, `pokemonCache` and `moveCache`. Move fetches are a parameter function. Species records and created opponents are given to the handlers. The `missingno` fallback record is a constant.
- The starter and weak-creature pickers are not modelled: `getStarterPokemonOfType` and `getWeakPokemonOfType` only choose names and fetch them.
- `async`/`await` is treated as sequential calls. Clicks arriving while a turn is awaited are not modelled.
- `Math.random` is not modelled as a generator. Every draw is an input.
- Floating point is modelled as exact `real` arithmetic with `.Floor`, so IEEE rounding of the multipliers is not captured.
- `Stats.StatsOf`: a stat the species list does not name reads as 0 here. In the source it is `undefined`, which makes later damage arithmetic NaN.
- Fields present in the source records but not modelled:
  - `playerType`, `totalBattles`, `isInBattle` and `messageLog` are never read by the logic;
  - the phase `'catch-prompt'` is never set, and the model has no phase for it;
  - the per-creature `isPlayer` flag, sprites and the other provider fields are read by no rule;
  - the duplicate `pp` field of a move slot is never read after creation.
- `Game.Battle.HandleCatch`, `Game.Battle.NextBattle`, `Game.Battle.StartGame`: the opponent the awaited `createPokemonBattleInstance` call returns is a parameter. It is built elsewhere by `Movesets.CreateBattleInstance` from the species `Opponents.GetRandomOpponent` chooses.
- `Game.Battle`: creatures and moves are values, not shared objects. The source aliases objects in three places:
  - `currentPlayerPokemon` is a member of `playerTeam`; here it is an index.
  - A charging slot shares its move object. Only the stored move's immutable fields are read when it is released, so the snapshot behaves the same.
  - A caught foe is pushed onto `playerTeam` as the same object (app.js:984-988), so it stays `currentFoePokemon` as well until `nextBattle` replaces the foe. Here the team gets a copy. Nothing reads or changes the foe in between except `nextBattle`'s heal, and that heal is lost when the foe is replaced, so the copy behaves the same.
