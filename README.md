# FantasyDuel combat engine and match controller, in Dafny

FantasyDuel is a two-player, turn-based duel game for iOS. This project models
its two logic classes:

- `Player` (module `Players`, file `player.dfy`): a fighter. Its attack power
  and armour rating are generated per species by rejection sampling over die
  rolls. Goblins get attack in [19,23] and armour in [3,7]. Humans get attack
  in [16,19] and armour in [7,12]. Every fighter starts with 50 hit points.
  An attack misses on a die face of 1 and is absorbed when the attack power
  does not exceed the defender's armour; otherwise armour is subtracted from
  the attack and the rest is taken off the defender's hit points. A potion
  (health +15, armour +3, attack +3) is drunk once and then cleared. The stat
  setters only take effect while the matching potion is held. Hit points are
  never clamped: a fighter is defeated when they are at or below zero.
- `GameController` (module `GameControllers`, file `game_controller.dfy`): the
  match state machine. It tracks the phase (new game, player setup, combat,
  between rounds), the round number, rounds won per side, initiative and whose
  turn it is. Round 2 gives initiative to the side that lacked it. Round 3
  redraws it. A match is best of three.
- `CreatureType` (module `CreatureTypes`, file `creature_type.dfy`): Human or Goblin.

Randomness is an input. Each call of `arc4random_uniform(n)` is a raw draw in
[0, n) that the caller passes in:

- the miss die is the parameter `roll`;
- the initiative die is the parameter `draw`;
- the stat generators consume a sequence of draws (`StatDraws`: one sequence
  for attack power, one for armour).

A rejection loop needs a supply that holds at least one accepted draw. The
Swift loop only ends when such a draw arrives.

The Swift `Player` keeps private backing fields behind public computed
properties. Here the fields carry the public names. The gated setters are the
methods `SetAttackPower`, `SetArmorRating` and `SetHitPoints`, and each
method's `modifies` clause names exactly the fields it may write. The
controller's `Player!` fields are nullable `Player?` fields. `Valid()` states
that both are missing or both are present and distinct, and that they exist
once player setup has completed. Every combat operation requires them
(`PlayersReady()`); the Swift code would crash on a missing fighter.

Two details of the Swift code shape the model:

- The name and creature-type setters of `Player` write the current value back
  to itself, so they are no-ops. They are modelled as such.
- An attack is resolved by `isAttackSuccessfulAgainst`, which returns only a
  boolean. The damage is reported separately by `calculateDamage`.

## Model

| member | source | states |
|---|---|---|
| `Players.FirstAccepted` | FantasyDuel/Player.swift:119-121 | the index a redraw-until-floor loop stops at: the first draw whose face reaches the floor, with every earlier face below it |
| `Players.Sampled` | FantasyDuel/Player.swift:131-133 | the face a rejection loop ends with is at least the floor and is one of the supplied draws plus one |
| `Players.RejectionDraw` | FantasyDuel/Player.swift:163-165 | the loop of all four generators: it consumes exactly the draws up to and including the first accepted one and returns a face in [floor, die] |
| `Players.SampledIgnoresLaterDraws` | FantasyDuel/Player.swift:119-121 | draws after the accepted one are never consumed and do not affect the result |
| `Players.SampledDiscardsRejected` | FantasyDuel/Player.swift:131-133 | any number of rejected draws before the supply leaves the sampled face unchanged |
| `Players.AttackPowerFrom` | FantasyDuel/Player.swift:110-137 | goblin attack power (d17 redrawn until 13 or more, plus 6) lies in [19,23]; human attack power (d19 redrawn until 16 or more) lies in [16,19] |
| `Players.ArmorRatingFrom` | FantasyDuel/Player.swift:139-169 | human armour (d6 plus 6) lies in [7,12]; goblin armour (d7 redrawn until 3 or more) lies in [3,7] |
| `Players.RandomAttackPower` | FantasyDuel/Player.swift:110-137 | the attack generator returns the value of `AttackPowerFrom` for its draws, within the species' range |
| `Players.RandomArmorRating` | FantasyDuel/Player.swift:139-169 | the armour generator returns the value of `ArmorRatingFrom` for its draws, within the species' range |
| `Players.Player.constructor` | FantasyDuel/Player.swift:99-105 | a new fighter has the given name, species and potion, 50 hit points, and attack and armour generated from its draws within the species' ranges |
| `Players.Player.SetName` | FantasyDuel/Player.swift:33-40 | the name setter leaves the name unchanged |
| `Players.Player.SetCreatureType` | FantasyDuel/Player.swift:42-49 | the creature-type setter leaves the species unchanged |
| `Players.Player.SetAttackPower` | FantasyDuel/Player.swift:51-62 | attack power takes the new value only while an attack potion is held; no other field changes |
| `Players.Player.SetArmorRating` | FantasyDuel/Player.swift:64-75 | armour rating takes the new value only while an armour potion is held; no other field changes |
| `Players.Player.SetHitPoints` | FantasyDuel/Player.swift:77-88 | hit points take the new value only while a health potion is held; no other field changes |
| `Players.Player.TakeDamage` | FantasyDuel/Player.swift:171-179 | an attack above the armour rating lowers hit points by exactly the excess, with no floor at zero; otherwise hit points stay; they never rise, so a defeated fighter stays defeated |
| `Players.Player.IsPlayerDefeated` | FantasyDuel/Player.swift:184-191 | a fighter is defeated exactly when its hit points are at or below zero; hit points are never clamped, so they may be negative |
| `Players.FreshStatsAlwaysWound` | FantasyDuel/Player.swift:110-169 | any generated attack power exceeds any generated armour rating by at least 4, and by at least 1 once the armour potion's 3 is added |
| `Players.Player.IsAttackSuccessfulAgainst` | FantasyDuel/Player.swift:193-215 | a self-attack or a die face of 1 misses and changes nothing; otherwise the attack lands exactly when attack power exceeds the defender's armour, and then only the defender's hit points drop, by the difference |
| `Players.Player.UsePotion` | FantasyDuel/Player.swift:217-231 | health adds 15 hit points, armour 3 armour, attack 3 attack power, none changes nothing; the potion is none afterwards, so a second call changes nothing |
| `GameControllers.Opposite` | FantasyDuel/GameController.swift:278-282 | the turn toggle always yields the other side |
| `GameControllers.OppositeTwiceIsIdentity` | FantasyDuel/GameController.swift:275-283 | toggling the turn twice restores the side that was up |
| `GameControllers.DetermineInitiative` | FantasyDuel/GameController.swift:181-191 | an even d20 face gives Left the initiative and an odd one gives Right |
| `GameControllers.DrawsGivingSide` | FantasyDuel/GameController.swift:184-190 | every pair of consecutive draws gives each side the initiative exactly once |
| `GameControllers.InitiativeIsFair` | FantasyDuel/GameController.swift:184-190 | ten of the twenty possible draws give Left the initiative and ten give Right |
| `GameControllers.GameController.constructor` | FantasyDuel/GameController.swift:121-143 | the initial controller: no fighters, default names and species, no potions, no rounds won, phase NewGame, Left up with the initiative |
| `GameControllers.GameController.StartNewGame` | FantasyDuel/GameController.swift:206-220 | phase becomes PlayerSetup; rounds won, round number, potions and all setup flags are reset; initiative is drawn and that side is up |
| `GameControllers.GameController.StartNextCombatRound` | FantasyDuel/GameController.swift:239-258 | phase becomes Combat and the round number rises by one; round 2 flips the initiative, round 3 redraws it, other rounds keep it; the side with initiative is up |
| `GameControllers.GameController.NextPlayerIsUp` | FantasyDuel/GameController.swift:275-283 | the other side is up; nothing else changes |
| `GameControllers.GameController.PickNewPotions` | FantasyDuel/GameController.swift:285-294 | the side without initiative is up; nothing else changes |
| `GameControllers.GameController.SetPlayerName` | FantasyDuel/GameController.swift:296-303 | only the name of the side that is up changes |
| `GameControllers.GameController.SetPlayerCreatureType` | FantasyDuel/GameController.swift:305-312 | only the species of the side that is up changes |
| `GameControllers.GameController.SetPlayerPotionSelection` | FantasyDuel/GameController.swift:314-349 | the side that is up stores its potion and completes setup; once both are complete, fresh fighters are built and the phase is Combat, or PlayerSetup with the turn passed if a side holds no potion; otherwise only the turn passes |
| `GameControllers.GameController.CreatePlayers` | FantasyDuel/GameController.swift:332-333 | two fresh, distinct fighters are built from each side's recorded name, species and potion |
| `GameControllers.GameController.UsePotion` | FantasyDuel/GameController.swift:351-366 | the fighter that is up drinks its potion, the other fighter is untouched, that side's recorded potion becomes none while the other's stays, and the turn passes |
| `GameControllers.GameController.IsAttackSuccessful` | FantasyDuel/GameController.swift:368-397 | the side that is up attacks the other: the attack lands exactly when the roll is not a miss and attack exceeds armour, and then the defender loses exactly the positive amount `CalculateDamage` reports; otherwise neither fighter changes |
| `GameControllers.GameController.CalculateDamage` | FantasyDuel/GameController.swift:399-406 | the reported damage is the attack power of the side that is up less the armour rating of the other side; `IsAttackSuccessful` proves it is what a landed attack removes and `FreshFightersAlwaysWound` bounds it |
| `GameControllers.GameController.FreshFightersAlwaysWound` | FantasyDuel/GameController.swift:399-406 | between the two fighters built when setup completes, the reported damage is at least 4, and stays at least 1 after the defender's armour potion |
| `GameControllers.GameController.PlayerWonCombatRound` | FantasyDuel/GameController.swift:408-452 | the round is won exactly when the other fighter is defeated (hit points at or below zero); then only the winner's round count rises by one, the phase is BetweenRounds and potions and setup flags are reset; otherwise nothing changes |
| `GameControllers.GameController.PlayerWonGame` | FantasyDuel/GameController.swift:454-486 | the game is won exactly when the side that is up has at least two rounds; then the phase is NewGame, otherwise it stays |

## Left out

- Audio: the sound players, the name-to-file dictionary, loading sounds from the app bundle, and every play, stop and scheduled-play call. This is platform audio I/O with no state the engine depends on.
- The platform random source `arc4random_uniform`: its draws are parameters. The model does not state the uniform distribution, except for the counting argument in `InitiativeIsFair`.
- Rejection loops whose supply never yields an accepted draw: the Swift loop would not end. The model requires a supply with at least one accepted draw.
- The draw sequence: the Swift code draws attack and then armour from one random source. The model gives each generator a supply of its own (`StatDraws`).
- Access control: the Swift backing fields are private, so only the gated setters, `takeDamage` and `usePotion` can change a stat. Dafny fields are public, so the model cannot forbid other writes.
- The read-only controller properties (`leftPlayerHitPoints`, `leftPlayerAttackPower` and the like, FantasyDuel/GameController.swift:125-136): they read the fighter's field, which the model exposes directly.
- Integer width: Swift's `Int` is 64 bits and its `+=` and `-=` trap on overflow (FantasyDuel/Player.swift:177, 222, 224, 226; FantasyDuel/GameController.swift:243, 418, 429). The model uses unbounded `int`, which never traps, so a stat stored near the 64-bit limit through a gated setter and then raised by `usePotion` is not modelled as a trap. Stats reached by play stay far below the limit: attack at most 26, armour at most 15, hit points at most 65.
- `print` tracing in both classes.
- The view controller (UI wiring, timers, labels, images): it only calls the controller.
