/**
 * A snapshot of a Bukkit entity: its kind and the one attribute of that kind the
 * plugin reads or writes. Attributes that are Java enums hold the constant's
 * name; registry-backed attributes (wolf, frog, chicken, cow and pig variants,
 * cat types, villager professions) hold the text the value prints as.
 */
module Entities {
  import opened Wrappers
  import opened Host

  datatype EntitySnapshot =
    | Wolf(wolfVariant: string, angry: bool)
    | Axolotl(axolotlVariant: string)
    | Frog(frogVariant: string)
    | Chicken(chickenVariant: string)
    | Cow(cowVariant: string)
    | Pig(pigVariant: string)
    | MushroomCow(mooshroomVariant: string)
    | Parrot(parrotVariant: string)
    | Sheep(customName: Option<Component>, color: Option<string>)
    | Horse(horseColor: string)
    | Llama(trader: bool, llamaColor: string)
    | Cat(catType: string)
    | Bee(anger: int)
    | Fox(foxType: string)
    | Ghast(charging: bool)
    | HappyGhast(chestItem: Material)
    | Goat(screaming: bool)
    | Panda(mainGene: string)
    | Rabbit(rabbitType: string)
    | Snowman(derp: bool)
    | Strider(shivering: bool)
    | Villager(profession: string)
    | ZombieVillager(villagerProfession: string)
    | OtherEntity(entityType: string, isMob: bool)
  {
    /** entity.getType().name(). */
    function TypeName(): string {
      match this
      case Wolf(_, _) => "WOLF"
      case Axolotl(_) => "AXOLOTL"
      case Frog(_) => "FROG"
      case Chicken(_) => "CHICKEN"
      case Cow(_) => "COW"
      case Pig(_) => "PIG"
      case MushroomCow(_) => "MOOSHROOM"
      case Parrot(_) => "PARROT"
      case Sheep(_, _) => "SHEEP"
      case Horse(_) => "HORSE"
      case Llama(trader, _) => if trader then "TRADER_LLAMA" else "LLAMA"
      case Cat(_) => "CAT"
      case Bee(_) => "BEE"
      case Fox(_) => "FOX"
      case Ghast(_) => "GHAST"
      case HappyGhast(_) => "HAPPY_GHAST"
      case Goat(_) => "GOAT"
      case Panda(_) => "PANDA"
      case Rabbit(_) => "RABBIT"
      case Snowman(_) => "SNOW_GOLEM"
      case Strider(_) => "STRIDER"
      case Villager(_) => "VILLAGER"
      case ZombieVillager(_) => "ZOMBIE_VILLAGER"
      case OtherEntity(t, _) => t
    }

    /** entity instanceof Mob: every kind named here is one. */
    predicate IsMob() {
      if OtherEntity? then isMob else true
    }

    /** Enum-valued attributes hold one of their constants, and other kinds do not pose as named ones. */
    predicate WellFormed() {
      match this
      case Axolotl(v) => v in AxolotlVariants
      case MushroomCow(v) => v in MushroomCowVariants
      case Parrot(v) => v in ParrotVariants
      case Sheep(_, c) => c.Some? ==> c.value in DyeColors
      case Horse(c) => c in HorseColors
      case Llama(_, c) => c in LlamaColors
      case Fox(t) => t in FoxTypes
      case Panda(g) => g in PandaGenes
      case Rabbit(t) => t in RabbitTypes
      case OtherEntity(t, _) => t !in NamedTypes
      case _ => true
    }
  }

  /** The entity type names of the kinds above. */
  const NamedTypes: set<string> := {
    "WOLF", "AXOLOTL", "FROG", "CHICKEN", "COW", "PIG", "MOOSHROOM", "PARROT", "SHEEP",
    "HORSE", "LLAMA", "TRADER_LLAMA", "CAT", "BEE", "FOX", "GHAST", "HAPPY_GHAST", "GOAT",
    "PANDA", "RABBIT", "SNOW_GOLEM", "STRIDER", "VILLAGER", "ZOMBIE_VILLAGER"
  }

  /** Axolotl.Variant. */
  const AxolotlVariants: seq<string> := ["LUCY", "WILD", "GOLD", "CYAN", "BLUE"]
  /** MushroomCow.Variant. */
  const MushroomCowVariants: seq<string> := ["RED", "BROWN"]
  /** Parrot.Variant. */
  const ParrotVariants: seq<string> := ["RED", "BLUE", "GREEN", "CYAN", "GRAY"]
  /** DyeColor. */
  const DyeColors: seq<string> := [
    "WHITE", "ORANGE", "MAGENTA", "LIGHT_BLUE", "YELLOW", "LIME", "PINK", "GRAY",
    "LIGHT_GRAY", "CYAN", "PURPLE", "BLUE", "BROWN", "GREEN", "RED", "BLACK"
  ]
  /** Horse.Color. */
  const HorseColors: seq<string> := ["WHITE", "CREAMY", "CHESTNUT", "BROWN", "BLACK", "GRAY", "DARK_BROWN"]
  /** Llama.Color. */
  const LlamaColors: seq<string> := ["CREAMY", "WHITE", "BROWN", "GRAY"]
  /** Fox.Type. */
  const FoxTypes: seq<string> := ["RED", "SNOW"]
  /** Panda.Gene. */
  const PandaGenes: seq<string> := ["NORMAL", "LAZY", "WORRIED", "PLAYFUL", "BROWN", "WEAK", "AGGRESSIVE"]
  /** Rabbit.Type. */
  const RabbitTypes: seq<string> := [
    "BROWN", "WHITE", "BLACK", "BLACK_AND_WHITE", "GOLD", "SALT_AND_PEPPER", "THE_KILLER_BUNNY"
  ]
  /** Villager.Profession.NONE. */
  const NoProfession: string := "NONE"
}
