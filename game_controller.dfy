/**
 * The match state machine: game phase, round number, rounds won per side,
 * initiative, whose turn it is, potion selection and setup completion.
 * Audio playback is not modelled; the random initiative draw is a parameter.
 */
module GameControllers {

  import opened CreatureTypes
  import opened Players

  datatype GamePhase = NewGame | PlayerSetup | Combat | BetweenRounds

  datatype PlayerPosition = Left | Right

  /** The other side of the board. */
  function Opposite(side: PlayerPosition): (other: PlayerPosition)
    ensures other != side
  {
    match side
    case Left => Right
    case Right => Left
  }

  lemma OppositeTwiceIsIdentity(side: PlayerPosition)
    ensures Opposite(Opposite(side)) == side
  {
  }

  /** Side that starts, from the raw draw of `arc4random_uniform(20)`: an even d20 face means Left. */
  function DetermineInitiative(draw: nat): (side: PlayerPosition)
    requires draw < 20
    ensures side == Left <==> draw % 2 == 1
  {
    var random := draw + 1;
    if random % 2 == 0 then Left else Right
  }

  /** Of the twenty equally likely draws, ten give each side the initiative. */
  lemma InitiativeIsFair()
    ensures |set d: nat | d < 20 && DetermineInitiative(d) == Left| == 10
    ensures |set d: nat | d < 20 && DetermineInitiative(d) == Right| == 10
  {
    DrawsGivingSide(Left, 10);
    DrawsGivingSide(Right, 10);
  }

  /** Each pair of consecutive draws gives each side the initiative once. */
  lemma {:induction false} DrawsGivingSide(side: PlayerPosition, pairs: nat)
    requires pairs <= 10
    ensures |set d: nat | d < 2 * pairs && DetermineInitiative(d) == side| == pairs
  {
    if pairs > 0 {
      DrawsGivingSide(side, pairs - 1);
      var before := set d: nat | d < 2 * (pairs - 1) && DetermineInitiative(d) == side;
      var after := set d: nat | d < 2 * pairs && DetermineInitiative(d) == side;
      var added := if side == Left then 2 * pairs - 1 else 2 * pairs - 2;
      assert after == before + {added};
    }
  }

  class GameController {
    var leftPlayer: Player?
    var rightPlayer: Player?

    var leftPlayerName: string
    var leftPlayerCreatureType: CreatureType
    var leftPlayerPotion: PotionType
    var leftPlayerRoundsWon: nat
    var leftPlayerSetupComplete: bool

    var rightPlayerName: string
    var rightPlayerCreatureType: CreatureType
    var rightPlayerPotion: PotionType
    var rightPlayerRoundsWon: nat
    var rightPlayerSetupComplete: bool

    var gamePhase: GamePhase
    var whichPlayerHasInitiative: PlayerPosition
    var whichPlayerIsUp: PlayerPosition
    var playerSetupPhaseComplete: bool
    var roundNumber: nat

    /**
     * The fighters are created together, as two distinct objects, when the
     * player setup phase completes, and never removed.
     */
    ghost predicate Valid()
      reads this
    {
      (leftPlayer == null <==> rightPlayer == null) &&
      (leftPlayer != null ==> leftPlayer != rightPlayer) &&
      (playerSetupPhaseComplete ==> leftPlayer != null)
    }

    /** Both fighters exist, as every combat operation needs. */
    ghost predicate PlayersReady()
      reads this
    {
      Valid() && leftPlayer != null
    }

    /** The fighter of the side that is up. */
    function Attacker(): (p: Player)
      requires PlayersReady()
      reads this
    {
      if whichPlayerIsUp == Left then leftPlayer else rightPlayer
    }

    /** The fighter of the side that is not up. */
    function Defender(): (p: Player)
      requires PlayersReady()
      reads this
      ensures p != Attacker()
    {
      if whichPlayerIsUp == Left then rightPlayer else leftPlayer
    }

    constructor ()
      ensures Valid() && leftPlayer == null && rightPlayer == null
      ensures leftPlayerName == "Left player" && leftPlayerCreatureType == Goblin
      ensures rightPlayerName == "Right player" && rightPlayerCreatureType == Human
      ensures leftPlayerPotion == None && rightPlayerPotion == None
      ensures leftPlayerRoundsWon == 0 && rightPlayerRoundsWon == 0
      ensures !leftPlayerSetupComplete && !rightPlayerSetupComplete && !playerSetupPhaseComplete
      ensures gamePhase == NewGame && roundNumber == 0
      ensures whichPlayerHasInitiative == Left && whichPlayerIsUp == Left
    {
      leftPlayer, rightPlayer := null, null;
      leftPlayerName, leftPlayerCreatureType, leftPlayerPotion := "Left player", Goblin, None;
      leftPlayerRoundsWon, leftPlayerSetupComplete := 0, false;
      rightPlayerName, rightPlayerCreatureType, rightPlayerPotion := "Right player", Human, None;
      rightPlayerRoundsWon, rightPlayerSetupComplete := 0, false;
      gamePhase, whichPlayerHasInitiative, whichPlayerIsUp := NewGame, Left, Left;
      playerSetupPhaseComplete, roundNumber := false, 0;
    }

    /** Resets the match; `draw` is the raw initiative draw. */
    method StartNewGame(draw: nat)
      requires Valid()
      requires draw < 20
      modifies this`gamePhase, this`leftPlayerSetupComplete, this`rightPlayerSetupComplete
      modifies this`leftPlayerPotion, this`rightPlayerPotion
      modifies this`leftPlayerRoundsWon, this`rightPlayerRoundsWon
      modifies this`playerSetupPhaseComplete, this`roundNumber
      modifies this`whichPlayerHasInitiative, this`whichPlayerIsUp
      ensures Valid()
      ensures gamePhase == PlayerSetup
      ensures !leftPlayerSetupComplete && !rightPlayerSetupComplete && !playerSetupPhaseComplete
      ensures leftPlayerPotion == None && rightPlayerPotion == None
      ensures leftPlayerRoundsWon == 0 && rightPlayerRoundsWon == 0 && roundNumber == 0
      ensures whichPlayerHasInitiative == DetermineInitiative(draw)
      ensures whichPlayerIsUp == whichPlayerHasInitiative
    {
      gamePhase := PlayerSetup;
      leftPlayerSetupComplete := false;
      rightPlayerSetupComplete := false;
      leftPlayerPotion := None;
      rightPlayerPotion := None;
      leftPlayerRoundsWon := 0;
      rightPlayerRoundsWon := 0;
      playerSetupPhaseComplete := false;
      roundNumber := 0;
      whichPlayerHasInitiative := DetermineInitiative(draw);
      whichPlayerIsUp := whichPlayerHasInitiative;
    }

    /**
     * Starts the next round. Round 2 goes to the side that did not have the
     * initiative; round 3 redraws it, consulting `draw`; any other round keeps it.
     */
    method StartNextCombatRound(draw: nat)
      requires Valid()
      requires draw < 20
      modifies this`gamePhase, this`roundNumber, this`whichPlayerHasInitiative, this`whichPlayerIsUp
      ensures Valid()
      ensures gamePhase == Combat
      ensures roundNumber == old(roundNumber) + 1
      ensures roundNumber == 2 ==> whichPlayerHasInitiative == Opposite(old(whichPlayerHasInitiative))
      ensures roundNumber == 3 ==> whichPlayerHasInitiative == DetermineInitiative(draw)
      ensures roundNumber != 2 && roundNumber != 3 ==> whichPlayerHasInitiative == old(whichPlayerHasInitiative)
      ensures whichPlayerIsUp == whichPlayerHasInitiative
    {
      gamePhase := Combat;
      roundNumber := roundNumber + 1;
      if roundNumber == 2 {
        match whichPlayerHasInitiative {
          case Left => whichPlayerHasInitiative := Right;
          case Right => whichPlayerHasInitiative := Left;
        }
      } else if roundNumber == 3 {
        whichPlayerHasInitiative := DetermineInitiative(draw);
      }
      whichPlayerIsUp := whichPlayerHasInitiative;
    }

    /** Passes the turn; two calls in a row give it back (OppositeTwiceIsIdentity). */
    method NextPlayerIsUp()
      requires Valid()
      modifies this`whichPlayerIsUp
      ensures Valid()
      ensures whichPlayerIsUp == Opposite(old(whichPlayerIsUp))
    {
      if whichPlayerIsUp == Left {
        whichPlayerIsUp := Right;
      } else {
        whichPlayerIsUp := Left;
      }
    }

    /** The side that went second last round picks its potion first. */
    method PickNewPotions()
      requires Valid()
      modifies this`whichPlayerIsUp
      ensures Valid()
      ensures whichPlayerIsUp == Opposite(whichPlayerHasInitiative)
    {
      match whichPlayerHasInitiative {
        case Left => whichPlayerIsUp := Right;
        case Right => whichPlayerIsUp := Left;
      }
    }

    method SetPlayerName(name: string)
      requires Valid()
      modifies this`leftPlayerName, this`rightPlayerName
      ensures Valid()
      ensures whichPlayerIsUp == Left ==> leftPlayerName == name && rightPlayerName == old(rightPlayerName)
      ensures whichPlayerIsUp == Right ==> rightPlayerName == name && leftPlayerName == old(leftPlayerName)
    {
      match whichPlayerIsUp {
        case Left => leftPlayerName := name;
        case Right => rightPlayerName := name;
      }
    }

    method SetPlayerCreatureType(creatureType: CreatureType)
      requires Valid()
      modifies this`leftPlayerCreatureType, this`rightPlayerCreatureType
      ensures Valid()
      ensures whichPlayerIsUp == Left ==>
        leftPlayerCreatureType == creatureType && rightPlayerCreatureType == old(rightPlayerCreatureType)
      ensures whichPlayerIsUp == Right ==>
        rightPlayerCreatureType == creatureType && leftPlayerCreatureType == old(leftPlayerCreatureType)
    {
      match whichPlayerIsUp {
        case Left => leftPlayerCreatureType := creatureType;
        case Right => rightPlayerCreatureType := creatureType;
      }
    }

    /**
     * Records the potion of the side that is up and marks its setup complete.
     * Once both sides are complete, fresh fighters are built from the chosen
     * names, species and potions (`leftDraws`, `rightDraws` are the random
     * draws their stat generators consume) and combat may begin; but while a
     * side still holds no potion, setup goes on with the other side's turn.
     */
    method SetPlayerPotionSelection(potion: PotionType, leftDraws: StatDraws, rightDraws: StatDraws)
      requires Valid()
      requires DrawsFit(leftPlayerCreatureType, leftDraws)
      requires DrawsFit(rightPlayerCreatureType, rightDraws)
      modifies this`leftPlayerPotion, this`leftPlayerSetupComplete
      modifies this`rightPlayerPotion, this`rightPlayerSetupComplete
      modifies this`gamePhase, this`playerSetupPhaseComplete, this`whichPlayerIsUp
      modifies this`leftPlayer, this`rightPlayer
      ensures Valid()
      ensures old(whichPlayerIsUp) == Left ==>
        leftPlayerPotion == potion && leftPlayerSetupComplete &&
        rightPlayerPotion == old(rightPlayerPotion) && rightPlayerSetupComplete == old(rightPlayerSetupComplete)
      ensures old(whichPlayerIsUp) == Right ==>
        rightPlayerPotion == potion && rightPlayerSetupComplete &&
        leftPlayerPotion == old(leftPlayerPotion) && leftPlayerSetupComplete == old(leftPlayerSetupComplete)
      ensures leftPlayerSetupComplete && rightPlayerSetupComplete ==>
        playerSetupPhaseComplete &&
        leftPlayer != null && fresh(leftPlayer) &&
        leftPlayer.BuiltFrom(leftPlayerName, leftPlayerCreatureType, leftPlayerPotion, leftDraws) &&
        rightPlayer != null && fresh(rightPlayer) &&
        rightPlayer.BuiltFrom(rightPlayerName, rightPlayerCreatureType, rightPlayerPotion, rightDraws)
      ensures leftPlayerSetupComplete && rightPlayerSetupComplete && leftPlayerPotion != None && rightPlayerPotion != None ==>
        gamePhase == Combat && whichPlayerIsUp == old(whichPlayerIsUp)
      ensures leftPlayerSetupComplete && rightPlayerSetupComplete && (leftPlayerPotion == None || rightPlayerPotion == None) ==>
        gamePhase == PlayerSetup && whichPlayerIsUp == Opposite(old(whichPlayerIsUp))
      ensures !(leftPlayerSetupComplete && rightPlayerSetupComplete) ==>
        gamePhase == old(gamePhase) && playerSetupPhaseComplete == old(playerSetupPhaseComplete) &&
        leftPlayer == old(leftPlayer) && rightPlayer == old(rightPlayer) &&
        whichPlayerIsUp == Opposite(old(whichPlayerIsUp))
    {
      match whichPlayerIsUp {
        case Left =>
          leftPlayerPotion := potion;
          leftPlayerSetupComplete := true;
        case Right =>
          rightPlayerPotion := potion;
          rightPlayerSetupComplete := true;
      }
      if leftPlayerSetupComplete && rightPlayerSetupComplete {
        gamePhase := Combat;
        playerSetupPhaseComplete := true;
        CreatePlayers(leftDraws, rightDraws);
        if leftPlayerPotion == None || rightPlayerPotion == None {
          gamePhase := PlayerSetup;
          NextPlayerIsUp();
        }
      } else {
        NextPlayerIsUp();
      }
    }

    /** Builds both fighters from the choices recorded so far. */
    method CreatePlayers(leftDraws: StatDraws, rightDraws: StatDraws)
      requires DrawsFit(leftPlayerCreatureType, leftDraws)
      requires DrawsFit(rightPlayerCreatureType, rightDraws)
      modifies this`leftPlayer, this`rightPlayer
      ensures leftPlayer != null && fresh(leftPlayer)
      ensures leftPlayer.BuiltFrom(leftPlayerName, leftPlayerCreatureType, leftPlayerPotion, leftDraws)
      ensures rightPlayer != null && fresh(rightPlayer) && rightPlayer != leftPlayer
      ensures rightPlayer.BuiltFrom(rightPlayerName, rightPlayerCreatureType, rightPlayerPotion, rightDraws)
    {
      leftPlayer := new Player(leftPlayerName, leftPlayerCreatureType, leftPlayerPotion, leftDraws);
      rightPlayer := new Player(rightPlayerName, rightPlayerCreatureType, rightPlayerPotion, rightDraws);
    }

    /** The side that is up drinks its potion, which forfeits its attack. */
    method UsePotion()
      requires PlayersReady()
      modifies this`leftPlayerPotion, this`rightPlayerPotion, this`whichPlayerIsUp
      modifies leftPlayer, rightPlayer
      ensures PlayersReady() && leftPlayer == old(leftPlayer) && rightPlayer == old(rightPlayer)
      ensures old(whichPlayerIsUp) == Left ==>
        DrankPotion(leftPlayer) && unchanged(rightPlayer) &&
        leftPlayerPotion == None && rightPlayerPotion == old(rightPlayerPotion)
      ensures old(whichPlayerIsUp) == Right ==>
        DrankPotion(rightPlayer) && unchanged(leftPlayer) &&
        rightPlayerPotion == None && leftPlayerPotion == old(leftPlayerPotion)
      ensures whichPlayerIsUp == Opposite(old(whichPlayerIsUp))
    {
      match whichPlayerIsUp {
        case Left =>
          leftPlayer.UsePotion();
          leftPlayerPotion := None;
        case Right =>
          rightPlayer.UsePotion();
          rightPlayerPotion := None;
      }
      NextPlayerIsUp();
    }

    /**
     * The side that is up attacks the other; `roll` is the raw miss-die draw.
     * A landed attack removes exactly what CalculateDamage reports.
     */
    method IsAttackSuccessful(roll: nat) returns (hit: bool)
      requires PlayersReady()
      requires roll < 6
      modifies leftPlayer`hitPoints, rightPlayer`hitPoints
      ensures PlayersReady()
      ensures unchanged(Attacker())
      ensures hit <==> roll != 0 && Attacker().attackPower > Defender().armorRating
      ensures hit ==>
        CalculateDamage() > 0 && Defender().hitPoints == old(Defender().hitPoints) - CalculateDamage()
      ensures !hit ==> unchanged(Defender())
    {
      match whichPlayerIsUp {
        case Left => hit := leftPlayer.IsAttackSuccessfulAgainst(rightPlayer, roll);
        case Right => hit := rightPlayer.IsAttackSuccessfulAgainst(leftPlayer, roll);
      }
    }

    /** Attack power of the side that is up less the armour of the other side. */
    function CalculateDamage(): (damage: int)
      requires PlayersReady()
      reads this, leftPlayer, rightPlayer
      ensures Attacker().attackPower == Defender().armorRating + damage
    {
      match whichPlayerIsUp
      case Left => leftPlayer.attackPower - rightPlayer.armorRating
      case Right => rightPlayer.attackPower - leftPlayer.armorRating
    }

    /**
     * Between the two fighters built when setup completes, the damage the side
     * that is up would deal is at least 4, and stays positive even after the
     * other side drinks an armour potion.
     */
    lemma FreshFightersAlwaysWound(leftDraws: StatDraws, rightDraws: StatDraws)
      requires PlayersReady()
      requires DrawsFit(leftPlayerCreatureType, leftDraws) && DrawsFit(rightPlayerCreatureType, rightDraws)
      requires leftPlayer.BuiltFrom(leftPlayerName, leftPlayerCreatureType, leftPlayerPotion, leftDraws)
      requires rightPlayer.BuiltFrom(rightPlayerName, rightPlayerCreatureType, rightPlayerPotion, rightDraws)
      ensures CalculateDamage() >= 4
      ensures CalculateDamage() - ArmorPotionBonus >= 1
    {
      FreshStatsAlwaysWound(leftPlayerCreatureType, leftDraws.attack, rightPlayerCreatureType, rightDraws.armor);
      FreshStatsAlwaysWound(rightPlayerCreatureType, rightDraws.attack, leftPlayerCreatureType, leftDraws.armor);
    }

    /**
     * When the other side is defeated, the side that is up wins the round:
     * its round count rises by one and the potions and setup flags are reset
     * for the next round. Otherwise nothing changes.
     */
    method PlayerWonCombatRound() returns (won: bool)
      requires PlayersReady()
      modifies this`leftPlayerRoundsWon, this`rightPlayerRoundsWon, this`gamePhase
      modifies this`leftPlayerPotion, this`leftPlayerSetupComplete
      modifies this`rightPlayerPotion, this`rightPlayerSetupComplete
      ensures PlayersReady()
      ensures won <==> Defender().IsPlayerDefeated()
      ensures won && whichPlayerIsUp == Left ==>
        leftPlayerRoundsWon == old(leftPlayerRoundsWon) + 1 && rightPlayerRoundsWon == old(rightPlayerRoundsWon)
      ensures won && whichPlayerIsUp == Right ==>
        rightPlayerRoundsWon == old(rightPlayerRoundsWon) + 1 && leftPlayerRoundsWon == old(leftPlayerRoundsWon)
      ensures won ==>
        gamePhase == BetweenRounds &&
        leftPlayerPotion == None && !leftPlayerSetupComplete &&
        rightPlayerPotion == None && !rightPlayerSetupComplete
      ensures !won ==> unchanged(this)
    {
      match whichPlayerIsUp {
        case Left =>
          won := rightPlayer.IsPlayerDefeated();
          if won {
            leftPlayerRoundsWon := leftPlayerRoundsWon + 1;
          }
        case Right =>
          won := leftPlayer.IsPlayerDefeated();
          if won {
            rightPlayerRoundsWon := rightPlayerRoundsWon + 1;
          }
      }
      if won {
        gamePhase := BetweenRounds;
        leftPlayerPotion := None;
        leftPlayerSetupComplete := false;
        rightPlayerPotion := None;
        rightPlayerSetupComplete := false;
      }
    }

    /** Best of three: the side that is up has won the match once it holds two rounds. */
    method PlayerWonGame() returns (won: bool)
      requires Valid()
      modifies this`gamePhase
      ensures Valid()
      ensures won <==> (if whichPlayerIsUp == Left then leftPlayerRoundsWon else rightPlayerRoundsWon) >= 2
      ensures won ==> gamePhase == NewGame
      ensures !won ==> gamePhase == old(gamePhase)
    {
      won := false;
      match whichPlayerIsUp {
        case Left =>
          if leftPlayerRoundsWon >= 2 {
            won := true;
          }
        case Right =>
          if rightPlayerRoundsWon >= 2 {
            won := true;
          }
      }
      if won {
        gamePhase := NewGame;
      }
    }
  }

}
