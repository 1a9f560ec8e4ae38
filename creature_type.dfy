/** The two species a fighter can be. Humans get an armour bonus, goblins an attack bonus. */
module CreatureTypes {

  datatype CreatureType = Human | Goblin

}
