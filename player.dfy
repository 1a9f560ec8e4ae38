/**
 * A duel fighter: stat generation by rejection sampling, attack resolution,
 * damage, potions and the defeat test.
 *
 * Every call of the platform random source `arc4random_uniform(n)` is a raw
 * draw in [0, n) supplied by the caller, so every operation is deterministic.
 */
module Players {

  import opened CreatureTypes

  /** The potion a fighter holds; at most one, cleared once drunk. */
  datatype PotionType = None | Health | Attack | Armor

  const StartingHitPoints := 50
  const HealthPotionBonus := 15
  const ArmorPotionBonus := 3
  const AttackPotionBonus := 3

  // ---------------------------------------------------------------------------
  // Rejection sampling
  // ---------------------------------------------------------------------------

  /** Every draw is a result of `arc4random_uniform(die)`. */
  ghost predicate DieDraws(draws: seq<nat>, die: nat)
  {
    forall i :: 0 <= i < |draws| ==> draws[i] < die
  }

  /** Some draw, turned into a die face (`draw + 1`), reaches `floor`. */
  ghost predicate CanAccept(draws: seq<nat>, floor: int)
  {
    exists i :: 0 <= i < |draws| && draws[i] + 1 >= floor
  }

  /** Index of the draw a loop `while x < floor { x = draw + 1 }` stops at. */
  function FirstAccepted(draws: seq<nat>, floor: int): (k: nat)
    requires CanAccept(draws, floor)
    ensures k < |draws| && draws[k] + 1 >= floor
    ensures forall j :: 0 <= j < k ==> draws[j] + 1 < floor
    decreases |draws|
  {
    if draws[0] + 1 >= floor then 0
    else
      assert CanAccept(draws[1..], floor) by {
        var i :| 0 <= i < |draws| && draws[i] + 1 >= floor;
        assert draws[1..][i - 1] == draws[i];
      }
      1 + FirstAccepted(draws[1..], floor)
  }

  /** The die face a rejection loop with this floor ends with. */
  function Sampled(draws: seq<nat>, floor: int): (face: int)
    requires CanAccept(draws, floor)
    ensures floor <= face
    ensures face - 1 in draws
  {
    draws[FirstAccepted(draws, floor)] + 1
  }

  /**
   * The loop shared by both stat generators: keep rolling a `die`-sided die
   * until the face reaches `floor`; `used` is the number of draws consumed.
   */
  method RejectionDraw(draws: seq<nat>, die: nat, floor: int) returns (face: int, used: nat)
    requires 0 < floor
    requires DieDraws(draws, die) && CanAccept(draws, floor)
    ensures used == FirstAccepted(draws, floor) + 1
    ensures face == Sampled(draws, floor)
    ensures floor <= face <= die
  {
    ghost var k := FirstAccepted(draws, floor);
    face, used := 0, 0;
    while face < floor
      invariant used <= k + 1
      invariant used == 0 ==> face == 0
      invariant used > 0 ==> face == draws[used - 1] + 1
      invariant face < floor <==> used <= k
      decreases k + 1 - used
    {
      face := draws[used] + 1;
      used := used + 1;
    }
  }

  /** Draws that let the attack-power loop of this species finish. */
  ghost predicate AttackDrawsFit(creatureType: CreatureType, draws: seq<nat>)
  {
    match creatureType
    case Goblin => DieDraws(draws, 17) && CanAccept(draws, 13)
    case Human => DieDraws(draws, 19) && CanAccept(draws, 16)
  }

  /** Draws that let the armour-rating loop of this species finish. */
  ghost predicate ArmorDrawsFit(creatureType: CreatureType, draws: seq<nat>)
  {
    match creatureType
    case Human => DieDraws(draws, 6) && CanAccept(draws, 1)
    case Goblin => DieDraws(draws, 7) && CanAccept(draws, 3)
  }

  /** The random draws a new fighter consumes: one supply per stat. */
  datatype StatDraws = StatDraws(attack: seq<nat>, armor: seq<nat>)

  ghost predicate DrawsFit(creatureType: CreatureType, draws: StatDraws)
  {
    AttackDrawsFit(creatureType, draws.attack) && ArmorDrawsFit(creatureType, draws.armor)
  }

  /**
   * The attack power generated from these draws: goblins roll a d17 until it
   * shows 13 or more and add 6, humans roll a d19 until it shows 16 or more.
   */
  function AttackPowerFrom(creatureType: CreatureType, draws: seq<nat>): (power: int)
    requires AttackDrawsFit(creatureType, draws)
    ensures creatureType == Goblin ==> 19 <= power <= 23
    ensures creatureType == Human ==> 16 <= power <= 19
  {
    match creatureType
    case Goblin => Sampled(draws, 13) + 6
    case Human => Sampled(draws, 16)
  }

  /**
   * The armour rating generated from these draws: humans roll a d6 and add 6,
   * goblins roll a d7 until it shows 3 or more.
   */
  function ArmorRatingFrom(creatureType: CreatureType, draws: seq<nat>): (rating: int)
    requires ArmorDrawsFit(creatureType, draws)
    ensures creatureType == Human ==> 7 <= rating <= 12
    ensures creatureType == Goblin ==> 3 <= rating <= 7
  {
    match creatureType
    case Human => Sampled(draws, 1) + 6
    case Goblin => Sampled(draws, 3)
  }

  method RandomAttackPower(creatureType: CreatureType, draws: seq<nat>) returns (power: int)
    requires AttackDrawsFit(creatureType, draws)
    ensures power == AttackPowerFrom(creatureType, draws)
    ensures creatureType == Goblin ==> 19 <= power <= 23
    ensures creatureType == Human ==> 16 <= power <= 19
  {
    var attackPower, attackBonus, used := 0, 0, 0;
    if creatureType == Goblin {
      attackPower, used := RejectionDraw(draws, 17, 13);
      attackBonus := 6;
    }
    if creatureType == Human {
      attackPower, used := RejectionDraw(draws, 19, 16);
    }
    power := attackPower + attackBonus;
  }

  method RandomArmorRating(creatureType: CreatureType, draws: seq<nat>) returns (rating: int)
    requires ArmorDrawsFit(creatureType, draws)
    ensures rating == ArmorRatingFrom(creatureType, draws)
    ensures creatureType == Human ==> 7 <= rating <= 12
    ensures creatureType == Goblin ==> 3 <= rating <= 7
  {
    var armorRating, armorBonus, used := 0, 0, 0;
    if creatureType == Human {
      armorRating, used := RejectionDraw(draws, 6, 1);
      armorBonus := 6;
    }
    if creatureType == Goblin {
      armorRating, used := RejectionDraw(draws, 7, 3);
    }
    rating := armorRating + armorBonus;
  }

  /** Draws after the accepted one are never consumed. */
  lemma {:induction false} SampledIgnoresLaterDraws(draws: seq<nat>, later: seq<nat>, floor: int)
    requires CanAccept(draws, floor)
    ensures CanAccept(draws + later, floor)
    ensures FirstAccepted(draws + later, floor) == FirstAccepted(draws, floor)
    ensures Sampled(draws + later, floor) == Sampled(draws, floor)
    decreases |draws|
  {
    var k := FirstAccepted(draws, floor);
    assert (draws + later)[k] == draws[k];
    if draws[0] + 1 < floor {
      assert (draws + later)[1..] == draws[1..] + later;
      SampledIgnoresLaterDraws(draws[1..], later, floor);
    }
  }

  /** Draws below the floor are thrown away: they do not change the sampled face. */
  lemma {:induction false} SampledDiscardsRejected(rejected: seq<nat>, draws: seq<nat>, floor: int)
    requires forall j :: 0 <= j < |rejected| ==> rejected[j] + 1 < floor
    requires CanAccept(draws, floor)
    ensures CanAccept(rejected + draws, floor)
    ensures FirstAccepted(rejected + draws, floor) == |rejected| + FirstAccepted(draws, floor)
    ensures Sampled(rejected + draws, floor) == Sampled(draws, floor)
    decreases |rejected|
  {
    var k := FirstAccepted(draws, floor);
    assert (rejected + draws)[|rejected| + k] == draws[k];
    if rejected != [] {
      assert (rejected + draws)[1..] == rejected[1..] + draws;
      SampledDiscardsRejected(rejected[1..], draws, floor);
    }
  }

  /**
   * Freshly generated stats always wound: the weakest attack (a human's 16)
   * beats the strongest armour (a human's 12) by 4, and by 1 even after an
   * armour potion.
   */
  lemma FreshStatsAlwaysWound(attacker: CreatureType, attackDraws: seq<nat>, defender: CreatureType, armorDraws: seq<nat>)
    requires AttackDrawsFit(attacker, attackDraws) && ArmorDrawsFit(defender, armorDraws)
    ensures AttackPowerFrom(attacker, attackDraws) - ArmorRatingFrom(defender, armorDraws) >= 4
    ensures AttackPowerFrom(attacker, attackDraws) - (ArmorRatingFrom(defender, armorDraws) + ArmorPotionBonus) >= 1
  {
  }

  // ---------------------------------------------------------------------------
  // The fighter
  // ---------------------------------------------------------------------------

  class Player {
    var name: string
    var creatureType: CreatureType
    var attackPower: int
    var armorRating: int
    var hitPoints: int
    var potion: PotionType

    /** The state a newly constructed fighter is in. */
    ghost predicate BuiltFrom(name: string, creatureType: CreatureType, potion: PotionType, draws: StatDraws)
      requires DrawsFit(creatureType, draws)
      reads this
    {
      this.name == name && this.creatureType == creatureType && this.potion == potion &&
      hitPoints == StartingHitPoints &&
      attackPower == AttackPowerFrom(creatureType, draws.attack) &&
      armorRating == ArmorRatingFrom(creatureType, draws.armor)
    }

    constructor (name: string, creatureType: CreatureType, potion: PotionType, draws: StatDraws)
      requires DrawsFit(creatureType, draws)
      ensures BuiltFrom(name, creatureType, potion, draws)
      ensures creatureType == Goblin ==> 19 <= attackPower <= 23 && 3 <= armorRating <= 7
      ensures creatureType == Human ==> 16 <= attackPower <= 19 && 7 <= armorRating <= 12
      ensures !IsPlayerDefeated()
    {
      this.name := name;
      this.creatureType := creatureType;
      var power := RandomAttackPower(creatureType, draws.attack);
      var rating := RandomArmorRating(creatureType, draws.armor);
      attackPower := power;
      armorRating := rating;
      hitPoints := StartingHitPoints;
      this.potion := potion;
    }

    /** The name setter writes the current name back: a no-op. */
    method SetName(newName: string)
      modifies this`name
      ensures name == old(name)
    {
      name := name;
    }

    /** The creature-type setter writes the current type back: a no-op. */
    method SetCreatureType(newCreatureType: CreatureType)
      modifies this`creatureType
      ensures creatureType == old(creatureType)
    {
      creatureType := creatureType;
    }

    /** Attack power can be set only while an attack potion is held. */
    method SetAttackPower(newAttackPower: int)
      modifies this`attackPower
      ensures attackPower == if potion == Attack then newAttackPower else old(attackPower)
    {
      if potion == Attack {
        attackPower := newAttackPower;
      }
    }

    /** Armour rating can be set only while an armour potion is held. */
    method SetArmorRating(newArmorRating: int)
      modifies this`armorRating
      ensures armorRating == if potion == Armor then newArmorRating else old(armorRating)
    {
      if potion == Armor {
        armorRating := newArmorRating;
      }
    }

    /** Hit points can be set only while a health potion is held. */
    method SetHitPoints(newHitPoints: int)
      modifies this`hitPoints
      ensures hitPoints == if potion == Health then newHitPoints else old(hitPoints)
    {
      if potion == Health {
        hitPoints := newHitPoints;
      }
    }

    /** Armour absorbs the attack; only the excess is taken off the hit points. */
    method TakeDamage(incoming: int)
      modifies this`hitPoints
      ensures incoming > armorRating ==> hitPoints == old(hitPoints) - (incoming - armorRating)
      ensures incoming <= armorRating ==> hitPoints == old(hitPoints)
      ensures hitPoints <= old(hitPoints)
      ensures old(IsPlayerDefeated()) ==> IsPlayerDefeated()
    {
      if incoming > armorRating {
        var damage := incoming - armorRating;
        hitPoints := hitPoints - damage;
      }
    }

    /** Hit points are not clamped at zero; defeat is this derived test. */
    function IsPlayerDefeated(): (defeated: bool)
      reads this
      ensures defeated <==> hitPoints <= 0
    {
      if hitPoints <= 0 then true else false
    }

    /**
     * Resolves an attack of this fighter on `defender`; `roll` is the raw
     * draw of the six-sided miss die, whose face 1 is a miss.
     */
    method IsAttackSuccessfulAgainst(defender: Player, roll: nat) returns (hit: bool)
      requires roll < 6
      modifies defender`hitPoints
      ensures this == defender ==> !hit && defender.hitPoints == old(defender.hitPoints)
      ensures roll + 1 == 1 ==> !hit && defender.hitPoints == old(defender.hitPoints)
      ensures hit <==> this != defender && roll + 1 != 1 && attackPower > defender.armorRating
      ensures hit ==> defender.hitPoints == old(defender.hitPoints) - (attackPower - defender.armorRating)
      ensures !hit ==> defender.hitPoints == old(defender.hitPoints)
    {
      if this == defender {
        return false;
      }
      var chance := roll + 1;
      if chance == 1 {
        return false;
      }
      if attackPower > defender.armorRating {
        defender.TakeDamage(attackPower);
        return true;
      }
      return false;
    }

    /** Drinks the held potion, through the gated setters, then drops it. */
    method UsePotion()
      modifies this`attackPower, this`armorRating, this`hitPoints, this`potion
      ensures DrankPotion(this)
      ensures old(potion) == None ==> unchanged(this)
    {
      match potion {
        case None =>
        case Health => SetHitPoints(hitPoints + HealthPotionBonus);
        case Armor => SetArmorRating(armorRating + ArmorPotionBonus);
        case Attack => SetAttackPower(attackPower + AttackPotionBonus);
      }
      potion := None;
    }
  }

  /**
   * `p` has drunk the potion it held: exactly that potion's stat grew by its
   * bonus, no other stat changed, and no potion is held any more.
   */
  twostate predicate DrankPotion(p: Player)
    reads p
  {
    p.potion == None &&
    p.name == old(p.name) && p.creatureType == old(p.creatureType) &&
    p.hitPoints == old(p.hitPoints) + (if old(p.potion) == Health then HealthPotionBonus else 0) &&
    p.armorRating == old(p.armorRating) + (if old(p.potion) == Armor then ArmorPotionBonus else 0) &&
    p.attackPower == old(p.attackPower) + (if old(p.potion) == Attack then AttackPotionBonus else 0)
  }

}
