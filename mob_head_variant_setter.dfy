/**
 * MobHeadVariantSetter.applyVariant: writing a variant token back onto an entity,
 * and how that relates to the token EntityVariantUtils reads off it.
 */
module MobHeadVariantSetter {
  import opened Wrappers
  import opened Host
  import opened Text
  import opened Entities
  import opened EntityVariantUtils

  /**
   * The registries the setter consults, keyed by the path of a "minecraft:" key.
   * validKey says whether NamespacedKey.minecraft accepts a path; a lookup returns
   * the text the found value prints as.
   */
  datatype Registries = Registries(
    validKey: string -> bool,
    catType: string -> Option<string>,
    wolfVariant: string -> Option<string>,
    frogVariant: string -> Option<string>,
    profession: string -> Option<string>)

  /** T.valueOf(key.toUpperCase()) for an enum whose constants are listed. */
  function ValueOf(constants: seq<string>, key: string): (r: Option<string>)
    ensures r.Some? <==> Upper(key) in constants
    ensures r.Some? ==> r.value == Upper(key) && r.value in constants
  {
    if Upper(key) in constants then Some(Upper(key)) else None
  }

  /** A registry lookup whose failures, thrown or null, are swallowed. */
  function LookupQuietly(reg: Registries, lookup: string -> Option<string>, path: string): Option<string> {
    if reg.validKey(path) then lookup(path) else None
  }

  /** The villager branches do not catch the exception an invalid key raises. */
  predicate Raises(reg: Registries, s: EntitySnapshot, variantKey: string) {
    (s.Villager? || s.ZombieVillager?) && !reg.validKey(Lower(variantKey))
  }

  /** Kinds whose attribute is found with Enum.valueOf. */
  predicate IsEnumBacked(s: EntitySnapshot) {
    s.Axolotl? || s.Sheep? || s.Horse? || s.Llama? || s.Fox? || s.Panda? || s.Rabbit? || s.MushroomCow?
  }

  /** Kinds whose attribute is found in a registry. */
  predicate IsRegistryBacked(s: EntitySnapshot) {
    s.Cat? || s.Wolf? || s.Frog? || s.Villager? || s.ZombieVillager?
  }

  /** The entity after applyVariant(entity, variantKey) returns normally. */
  function Applied(server: Server, reg: Registries, s: EntitySnapshot, variantKey: string): EntitySnapshot
  {
    if IsEnumBacked(s) then AppliedEnum(server, s, variantKey)
    else if IsRegistryBacked(s) then AppliedRegistry(reg, s, Lower(variantKey))
    else AppliedFlag(s, variantKey)
  }

  /** The branches that set a flag or a level by comparing the key with one word. */
  function AppliedFlag(s: EntitySnapshot, variantKey: string): (r: EntitySnapshot)
    ensures s.Bee? || s.Ghast? || s.Strider? || r == s
    ensures r.Bee? == s.Bee? && r.Ghast? == s.Ghast? && r.Strider? == s.Strider?
  {
    if s.Bee? then s.(anger := if EqualsIgnoreCase("angry", variantKey) then 100 else 0)
    else if s.Ghast? then s.(charging := EqualsIgnoreCase("shooting", variantKey))
    else if s.Strider? then s.(shivering := EqualsIgnoreCase("shivering", variantKey))
    else s
  }

  /** The valueOf branches; a name the enum lacks is ignored. */
  function AppliedEnum(server: Server, s: EntitySnapshot, variantKey: string): EntitySnapshot
    requires IsEnumBacked(s)
  {
    match s
    case Axolotl(_) =>
      (match ValueOf(AxolotlVariants, variantKey)
      case Some(v) => s.(axolotlVariant := v)
      case None => s)
    case Sheep(_, _) =>
      if EqualsIgnoreCase(JebName, variantKey) then s.(customName := Some(server.text(JebName)))
      else
        (match ValueOf(DyeColors, variantKey)
        case Some(c) => s.(color := Some(c))
        case None => s)
    case Horse(_) =>
      (match ValueOf(HorseColors, variantKey)
      case Some(c) => s.(horseColor := c)
      case None => s)
    case Llama(_, _) =>
      (match ValueOf(LlamaColors, variantKey)
      case Some(c) => s.(llamaColor := c)
      case None => s)
    case Fox(_) =>
      (match ValueOf(FoxTypes, variantKey)
      case Some(t) => s.(foxType := t)
      case None => s)
    case Panda(_) =>
      (match ValueOf(PandaGenes, variantKey)
      case Some(g) => s.(mainGene := g)
      case None => s)
    case Rabbit(_) =>
      (match ValueOf(RabbitTypes, variantKey)
      case Some(t) => s.(rabbitType := t)
      case None => s)
    case MushroomCow(_) =>
      (match ValueOf(MushroomCowVariants, variantKey)
      case Some(v) => s.(mooshroomVariant := v)
      case None => s)
  }

  /** The registry branches, keyed by the lower-cased variant. */
  function AppliedRegistry(reg: Registries, s: EntitySnapshot, key: string): EntitySnapshot
    requires IsRegistryBacked(s)
  {
    match s
    case Cat(_) =>
      (match LookupQuietly(reg, reg.catType, key)
      case Some(t) => s.(catType := t)
      case None => s)
    case Wolf(_, _) =>
      (match LookupQuietly(reg, reg.wolfVariant, key)
      case Some(v) => s.(wolfVariant := v)
      case None => s)
    case Frog(_) =>
      (match LookupQuietly(reg, reg.frogVariant, key)
      case Some(v) => s.(frogVariant := v)
      case None => s)
    case Villager(_) =>
      (match reg.profession(key)
      case Some(p) => s.(profession := p)
      case None => s)
    case ZombieVillager(_) =>
      (match reg.profession(key)
      case Some(p) => s.(villagerProfession := p)
      case None => s)
  }

  /** Every value applyVariant stores is one of the constants of its enum: a well-formed entity stays well-formed. */
  lemma AppliedKeepsWellFormed(server: Server, reg: Registries, s: EntitySnapshot, variantKey: string)
    requires s.WellFormed()
    ensures Applied(server, reg, s, variantKey).WellFormed()
  {
    if IsEnumBacked(s) {
      AppliedEnumKeepsWellFormed(server, s, variantKey);
    }
  }

  lemma AppliedEnumKeepsWellFormed(server: Server, s: EntitySnapshot, variantKey: string)
    requires IsEnumBacked(s) && s.WellFormed()
    ensures AppliedEnum(server, s, variantKey).WellFormed()
  {
    match s
    case Axolotl(_) => var v := ValueOf(AxolotlVariants, variantKey);
    case Sheep(_, _) => var c := ValueOf(DyeColors, variantKey);
    case Horse(_) => var c := ValueOf(HorseColors, variantKey);
    case Llama(_, _) => var c := ValueOf(LlamaColors, variantKey);
    case Fox(_) => var t := ValueOf(FoxTypes, variantKey);
    case Panda(_) => var g := ValueOf(PandaGenes, variantKey);
    case Rabbit(_) => var t := ValueOf(RabbitTypes, variantKey);
    case MushroomCow(_) => var v := ValueOf(MushroomCowVariants, variantKey);
  }

  /** applyVariant never turns an entity into another kind, nor a mob into a non-mob. */
  lemma AppliedKeepsKind(server: Server, reg: Registries, s: EntitySnapshot, variantKey: string)
    ensures Applied(server, reg, s, variantKey).TypeName() == s.TypeName()
    ensures Applied(server, reg, s, variantKey).IsMob() == s.IsMob()
  {
    if IsEnumBacked(s) {
      assert Applied(server, reg, s, variantKey) == AppliedEnum(server, s, variantKey);
      AppliedEnumKeepsKind(server, s, variantKey);
    } else if IsRegistryBacked(s) {
      assert Applied(server, reg, s, variantKey) == AppliedRegistry(reg, s, Lower(variantKey));
      AppliedRegistryKeepsKind(reg, s, Lower(variantKey));
    } else {
      assert Applied(server, reg, s, variantKey) == AppliedFlag(s, variantKey);
      AppliedFlagKeepsKind(s, variantKey);
    }
  }

  lemma AppliedFlagKeepsKind(s: EntitySnapshot, variantKey: string)
    ensures AppliedFlag(s, variantKey).TypeName() == s.TypeName()
    ensures AppliedFlag(s, variantKey).IsMob() == s.IsMob()
  {
    var r := AppliedFlag(s, variantKey);
    if s.Bee? {
      assert r.Bee?;
    } else if s.Ghast? {
      assert r.Ghast?;
    } else if s.Strider? {
      assert r.Strider?;
    } else {
      assert r == s;
    }
  }

  lemma AppliedEnumKeepsKind(server: Server, s: EntitySnapshot, variantKey: string)
    requires IsEnumBacked(s)
    ensures AppliedEnum(server, s, variantKey).TypeName() == s.TypeName()
    ensures AppliedEnum(server, s, variantKey).IsMob() == s.IsMob()
  {
  }

  lemma AppliedRegistryKeepsKind(reg: Registries, s: EntitySnapshot, key: string)
    requires IsRegistryBacked(s)
    ensures AppliedRegistry(reg, s, key).TypeName() == s.TypeName()
    ensures AppliedRegistry(reg, s, key).IsMob() == s.IsMob()
  {
  }

  /** A live entity whose attributes the setter changes in place. */
  class Entity {
    var state: EntitySnapshot

    constructor (state: EntitySnapshot)
      ensures this.state == state
    {
      this.state := state;
    }
  }

  /**
   * applyVariant. A null entity or key changes nothing; raised reports the
   * IllegalArgumentException the villager branches let escape, which leaves the
   * entity as it was.
   */
  method ApplyVariant(server: Server, reg: Registries, entity: Entity?, variantKey: Option<string>)
    returns (raised: bool)
    modifies entity
    ensures entity == null || variantKey.None? ==> !raised
    ensures entity != null && variantKey.None? ==> entity.state == old(entity.state)
    ensures entity != null && variantKey.Some? ==>
      raised == Raises(reg, old(entity.state), variantKey.value) &&
      entity.state == (if raised then old(entity.state) else Applied(server, reg, old(entity.state), variantKey.value))
  {
    raised := false;
    if entity == null || variantKey.None? {
      return;
    }
    var variant := variantKey.value;
    if IsEnumBacked(entity.state) {
      SetEnumAttribute(server, entity, variant);
    } else if IsRegistryBacked(entity.state) {
      raised := SetRegistryAttribute(reg, entity, variant);
    } else {
      SetFlagAttribute(entity, variant);
    }
  }

  method SetFlagAttribute(entity: Entity, variant: string)
    modifies entity
    ensures entity.state == AppliedFlag(old(entity.state), variant)
  {
    var s := entity.state;
    if s.Bee? {
      entity.state := s.(anger := if EqualsIgnoreCase("angry", variant) then 100 else 0);
    } else if s.Ghast? {
      entity.state := s.(charging := EqualsIgnoreCase("shooting", variant));
    } else if s.Strider? {
      entity.state := s.(shivering := EqualsIgnoreCase("shivering", variant));
    }
  }

  method SetEnumAttribute(server: Server, entity: Entity, variant: string)
    requires IsEnumBacked(entity.state)
    modifies entity
    ensures entity.state == AppliedEnum(server, old(entity.state), variant)
  {
    var s := entity.state;
    match s {
      case Axolotl(_) =>
        var v := ValueOf(AxolotlVariants, variant);
        if v.Some? { entity.state := s.(axolotlVariant := v.value); }
      case Sheep(_, _) =>
        if EqualsIgnoreCase(JebName, variant) {
          entity.state := s.(customName := Some(server.text(JebName)));
        } else {
          var c := ValueOf(DyeColors, variant);
          if c.Some? { entity.state := s.(color := Some(c.value)); }
        }
      case Horse(_) =>
        var c := ValueOf(HorseColors, variant);
        if c.Some? { entity.state := s.(horseColor := c.value); }
      case Llama(_, _) =>
        var c := ValueOf(LlamaColors, variant);
        if c.Some? { entity.state := s.(llamaColor := c.value); }
      case Fox(_) =>
        var t := ValueOf(FoxTypes, variant);
        if t.Some? { entity.state := s.(foxType := t.value); }
      case Panda(_) =>
        var g := ValueOf(PandaGenes, variant);
        if g.Some? { entity.state := s.(mainGene := g.value); }
      case Rabbit(_) =>
        var t := ValueOf(RabbitTypes, variant);
        if t.Some? { entity.state := s.(rabbitType := t.value); }
      case MushroomCow(_) =>
        var v := ValueOf(MushroomCowVariants, variant);
        if v.Some? { entity.state := s.(mooshroomVariant := v.value); }
    }
  }

  method SetRegistryAttribute(reg: Registries, entity: Entity, variant: string)
    returns (raised: bool)
    requires IsRegistryBacked(entity.state)
    modifies entity
    ensures raised == Raises(reg, old(entity.state), variant)
    ensures entity.state == (if raised then old(entity.state) else AppliedRegistry(reg, old(entity.state), Lower(variant)))
  {
    raised := false;
    var key := Lower(variant);
    var s := entity.state;
    match s {
      case Cat(_) =>
        var t := LookupQuietly(reg, reg.catType, key);
        if t.Some? { entity.state := s.(catType := t.value); }
      case Wolf(_, _) =>
        var v := LookupQuietly(reg, reg.wolfVariant, key);
        if v.Some? { entity.state := s.(wolfVariant := v.value); }
      case Frog(_) =>
        var v := LookupQuietly(reg, reg.frogVariant, key);
        if v.Some? { entity.state := s.(frogVariant := v.value); }
      case Villager(_) =>
        if !reg.validKey(key) {
          raised := true;
          return;
        }
        var p := reg.profession(key);
        if p.Some? { entity.state := s.(profession := p.value); }
      case ZombieVillager(_) =>
        if !reg.validKey(key) {
          raised := true;
          return;
        }
        var p := reg.profession(key);
        if p.Some? { entity.state := s.(villagerProfession := p.value); }
    }
  }

  /** Every enum constant is written in upper case, so lower-casing it can be undone. */
  lemma AxolotlVariantsAreUpperCase()
    ensures forall c :: c in AxolotlVariants ==> IsUpperCase(c)
  {
  }

  lemma MushroomCowVariantsAreUpperCase()
    ensures forall c :: c in MushroomCowVariants ==> IsUpperCase(c)
  {
  }

  lemma DyeColorsAreUpperCase()
    ensures forall c :: c in DyeColors ==> IsUpperCase(c)
  {
    assert IsUpperCase("WHITE");
    assert IsUpperCase("ORANGE");
    assert IsUpperCase("MAGENTA");
    assert IsUpperCase("LIGHT_BLUE");
    assert IsUpperCase("YELLOW");
    assert IsUpperCase("LIME");
    assert IsUpperCase("PINK");
    assert IsUpperCase("GRAY");
    assert IsUpperCase("LIGHT_GRAY");
    assert IsUpperCase("CYAN");
    assert IsUpperCase("PURPLE");
    assert IsUpperCase("BLUE");
    assert IsUpperCase("BROWN");
    assert IsUpperCase("GREEN");
    assert IsUpperCase("RED");
    assert IsUpperCase("BLACK");
  }

  lemma HorseColorsAreUpperCase()
    ensures forall c :: c in HorseColors ==> IsUpperCase(c)
  {
  }

  lemma FoxTypesAreUpperCase()
    ensures forall c :: c in FoxTypes ==> IsUpperCase(c)
  {
  }

  lemma PandaGenesAreUpperCase()
    ensures forall c :: c in PandaGenes ==> IsUpperCase(c)
  {
  }

  lemma RabbitTypesAreUpperCase()
    ensures forall c :: c in RabbitTypes ==> IsUpperCase(c)
  {
  }

  /** valueOf finds a constant again from its lower-case token. */
  lemma ValueOfLowered(constants: seq<string>, c: string)
    requires c in constants && IsUpperCase(c)
    ensures ValueOf(constants, Lower(c)) == Some(c)
  {
    UpperLowerRoundTrip(c);
  }

  /** A registry that finds each registered value under its own lower-cased text. */
  predicate Finds(reg: Registries, lookup: string -> Option<string>, text: string) {
    reg.validKey(Lower(text)) && lookup(Lower(text)) == Some(text)
  }

  /** Targets whose token the setter writes back faithfully onto an entity of the same kind. */
  predicate RoundTrips(server: Server, reg: Registries, s: EntitySnapshot, t: EntitySnapshot) {
    t.WellFormed() &&
    match t
    case Axolotl(_) => s.Axolotl?
    case MushroomCow(_) => s.MushroomCow?
    case Horse(_) => s.Horse?
    case Fox(_) => s.Fox?
    case Panda(_) => s.Panda?
    case Rabbit(_) => s.Rabbit?
    case Bee(_) => s.Bee?
    case Strider(_) => s.Strider?
    case Cat(v) => s.Cat? && Finds(reg, reg.catType, v)
    case Frog(v) => s.Frog? && Finds(reg, reg.frogVariant, v)
    case Wolf(v, angry) => s.Wolf? && !angry && !s.angry && Finds(reg, reg.wolfVariant, v)
    case Villager(p) => s.Villager? && Finds(reg, reg.profession, p)
    case ZombieVillager(p) => s.ZombieVillager? && p != NoProfession && Finds(reg, reg.profession, p)
    case Sheep(name, color) =>
      s.Sheep? &&
      if name.Some? && server.plain(name.value) == JebName then
        server.plain(server.text(JebName)) == JebName
      else
        color.Some? && (s.customName.None? || server.plain(s.customName.value) != JebName)
    case _ => false
  }

  /** No dye colour reads as "jeb_" when case is ignored. */
  lemma JebIsNotAColor(c: string)
    requires c in DyeColors
    ensures !EqualsIgnoreCase(JebName, Lower(c))
  {
    if |c| == 4 {
      assert 'A' <= c[3] <= 'Z';
      assert Lower(Lower(c))[3] == LowerChar(Lower(c)[3]) && Lower(c)[3] == LowerChar(c[3]);
      assert Lower(JebName)[3] == '_';
    } else {
      DifferentLengthsDiffer(JebName, Lower(c));
    }
  }

  /** Enum-backed kinds: valueOf finds the constant the token was lowered from. */
  lemma EnumRoundTrip(server: Server, reg: Registries, s: EntitySnapshot, t: EntitySnapshot)
    requires RoundTrips(server, reg, s, t)
    requires t.Axolotl? || t.MushroomCow? || t.Horse? || t.Fox? || t.Panda? || t.Rabbit?
    ensures GetVariantId(server, Applied(server, reg, s, GetVariantId(server, t).value)) == GetVariantId(server, t)
  {
    match t
    case Axolotl(v) =>
      AxolotlVariantsAreUpperCase();
      ValueOfLowered(AxolotlVariants, v);
      assert s.Axolotl? && Applied(server, reg, s, Lower(v)) == Axolotl(v);
    case MushroomCow(v) =>
      MushroomCowVariantsAreUpperCase();
      ValueOfLowered(MushroomCowVariants, v);
      assert s.MushroomCow? && Applied(server, reg, s, Lower(v)) == MushroomCow(v);
    case Horse(c) =>
      HorseColorsAreUpperCase();
      ValueOfLowered(HorseColors, c);
      assert s.Horse? && Applied(server, reg, s, Lower(c)) == Horse(c);
    case Fox(c) =>
      FoxTypesAreUpperCase();
      ValueOfLowered(FoxTypes, c);
      assert s.Fox? && Applied(server, reg, s, Lower(c)) == Fox(c);
    case Panda(g) =>
      PandaGenesAreUpperCase();
      ValueOfLowered(PandaGenes, g);
      assert s.Panda? && Applied(server, reg, s, Lower(g)) == Panda(g);
    case Rabbit(c) =>
      RabbitTypesAreUpperCase();
      ValueOfLowered(RabbitTypes, c);
      assert s.Rabbit? && Applied(server, reg, s, Lower(c)) == Rabbit(c);
  }

  /** Registry-backed kinds: the registry finds the value under the token. */
  lemma RegistryRoundTrip(server: Server, reg: Registries, s: EntitySnapshot, t: EntitySnapshot)
    requires RoundTrips(server, reg, s, t)
    requires t.Cat? || t.Frog? || t.Wolf? || t.Villager? || t.ZombieVillager?
    ensures !Raises(reg, s, GetVariantId(server, t).value)
    ensures GetVariantId(server, Applied(server, reg, s, GetVariantId(server, t).value)) == GetVariantId(server, t)
  {
    if t.Villager? || t.ZombieVillager? {
      ProfessionRoundTrip(server, reg, s, t);
    } else {
      RegistryValueRoundTrip(server, reg, s, t);
    }
  }

  lemma RegistryValueRoundTrip(server: Server, reg: Registries, s: EntitySnapshot, t: EntitySnapshot)
    requires RoundTrips(server, reg, s, t)
    requires t.Cat? || t.Frog? || t.Wolf?
    ensures !Raises(reg, s, GetVariantId(server, t).value)
    ensures GetVariantId(server, Applied(server, reg, s, GetVariantId(server, t).value)) == GetVariantId(server, t)
  {
    match t
    case Cat(v) =>
      LowerIdempotent(v);
      assert GetVariantId(server, t) == Some(Lower(v));
      assert s.Cat? && Applied(server, reg, s, Lower(v)) == AppliedRegistry(reg, s, Lower(v)) == Cat(v);
    case Frog(v) =>
      LowerIdempotent(v);
      assert GetVariantId(server, t) == Some(Lower(v));
      assert s.Frog? && Applied(server, reg, s, Lower(v)) == AppliedRegistry(reg, s, Lower(v)) == Frog(v);
    case Wolf(v, _) =>
      LowerIdempotent(v);
      assert GetVariantId(server, t) == Some(Lower(v));
      assert s.Wolf? && Applied(server, reg, s, Lower(v)) == AppliedRegistry(reg, s, Lower(v)) == Wolf(v, false);
  }

  lemma ProfessionRoundTrip(server: Server, reg: Registries, s: EntitySnapshot, t: EntitySnapshot)
    requires RoundTrips(server, reg, s, t)
    requires t.Villager? || t.ZombieVillager?
    ensures !Raises(reg, s, GetVariantId(server, t).value)
    ensures GetVariantId(server, Applied(server, reg, s, GetVariantId(server, t).value)) == GetVariantId(server, t)
  {
    match t
    case Villager(p) =>
      LowerIdempotent(p);
      assert GetVariantId(server, t) == Some(Lower(p));
      assert s.Villager? && Applied(server, reg, s, Lower(p)) == AppliedRegistry(reg, s, Lower(p)) == Villager(p);
    case ZombieVillager(p) =>
      LowerIdempotent(p);
      assert GetVariantId(server, t) == Some(Lower(p));
      assert s.ZombieVillager? && Applied(server, reg, s, Lower(p)) == AppliedRegistry(reg, s, Lower(p)) == ZombieVillager(p);
  }

  /** Bees: the setter tests for exactly the token the classifier emits. */
  lemma BeeRoundTrip(server: Server, reg: Registries, s: EntitySnapshot, t: EntitySnapshot)
    requires s.Bee? && t.Bee?
    ensures GetVariantId(server, Applied(server, reg, s, GetVariantId(server, t).value)) == GetVariantId(server, t)
  {
    var token := if t.anger > 0 then "angry" else "calm";
    assert t == Bee(t.anger);
    assert GetVariantId(server, t) == Some(token);
    if t.anger > 0 {
      EqualsIgnoreCaseReflexive("angry");
      assert Applied(server, reg, s, token) == AppliedFlag(s, token) == Bee(100);
    } else {
      DifferentLengthsDiffer("angry", "calm");
      assert Applied(server, reg, s, token) == AppliedFlag(s, token) == Bee(0);
    }
  }

  /** Striders: likewise. */
  lemma StriderRoundTrip(server: Server, reg: Registries, s: EntitySnapshot, t: EntitySnapshot)
    requires s.Strider? && t.Strider?
    ensures GetVariantId(server, Applied(server, reg, s, GetVariantId(server, t).value)) == GetVariantId(server, t)
  {
    var token := if t.shivering then "shivering" else "normal";
    assert t == Strider(t.shivering);
    assert GetVariantId(server, t) == Some(token);
    if t.shivering {
      EqualsIgnoreCaseReflexive("shivering");
    } else {
      DifferentLengthsDiffer("shivering", "normal");
    }
    assert Applied(server, reg, s, token) == AppliedFlag(s, token) == Strider(t.shivering);
  }

  /** Sheep: "jeb_" comes back as the name, a colour as the colour. */
  lemma SheepRoundTrip(server: Server, reg: Registries, s: EntitySnapshot, t: EntitySnapshot)
    requires RoundTrips(server, reg, s, t)
    requires t.Sheep?
    ensures GetVariantId(server, t).Some?
    ensures GetVariantId(server, Applied(server, reg, s, GetVariantId(server, t).value)) == GetVariantId(server, t)
  {
    if t.customName.Some? && server.plain(t.customName.value) == JebName {
      EqualsIgnoreCaseReflexive(JebName);
    } else {
      DyeColorsAreUpperCase();
      JebIsNotAColor(t.color.value);
      ValueOfLowered(DyeColors, t.color.value);
    }
  }

  lemma RoundTripHasToken(server: Server, reg: Registries, s: EntitySnapshot, t: EntitySnapshot)
    requires RoundTrips(server, reg, s, t)
    ensures GetVariantId(server, t).Some?
    ensures !Raises(reg, s, GetVariantId(server, t).value)
  {
    if t.Villager? || t.ZombieVillager? {
      var p := if t.Villager? then t.profession else t.villagerProfession;
      LowerIdempotent(p);
      assert GetVariantId(server, t) == Some(Lower(p));
      assert reg.validKey(Lower(Lower(p)));
    } else if t.Sheep? {
      SheepRoundTrip(server, reg, s, t);
    } else {
      assert !s.Villager? && !s.ZombieVillager? && !t.OtherEntity?;
    }
  }

  /**
   * Reading a target's token and applying it to another entity of the same kind
   * makes that entity read the same token.
   */
  lemma ClassifierSetterRoundTrip(server: Server, reg: Registries, s: EntitySnapshot, t: EntitySnapshot)
    requires RoundTrips(server, reg, s, t)
    ensures GetVariantId(server, t).Some?
    ensures !Raises(reg, s, GetVariantId(server, t).value)
    ensures GetVariantId(server, Applied(server, reg, s, GetVariantId(server, t).value)) == GetVariantId(server, t)
  {
    RoundTripHasToken(server, reg, s, t);
    if t.Axolotl? || t.MushroomCow? || t.Horse? || t.Fox? || t.Panda? || t.Rabbit? {
      EnumRoundTrip(server, reg, s, t);
    } else if t.Cat? || t.Frog? || t.Wolf? || t.Villager? || t.ZombieVillager? {
      RegistryRoundTrip(server, reg, s, t);
    } else if t.Bee? {
      BeeRoundTrip(server, reg, s, t);
    } else if t.Strider? {
      StriderRoundTrip(server, reg, s, t);
    } else if t.Sheep? {
      SheepRoundTrip(server, reg, s, t);
    } else {
      assert false;
    }
  }

  lemma LowerIdempotent(s: string)
    ensures Lower(Lower(s)) == Lower(s)
  {
    LowerIsLowerCase(s);
    LowerOfLowerCase(Lower(s));
  }

  /** A ghast reads "charging" but the setter only charges on "shooting": the token does not survive. */
  lemma GhastTokenDoesNotRoundTrip(server: Server, reg: Registries, s: EntitySnapshot)
    requires s.Ghast?
    ensures GetVariantId(server, Ghast(true)) == Some("charging")
    ensures Applied(server, reg, s, "charging") == Ghast(false)
    ensures Applied(server, reg, s, "shooting") == Ghast(true)
  {
    TwoStateTokens(server, Ghast(true));
    assert Lower("shooting")[0] != Lower("charging")[0];
    EqualsIgnoreCaseReflexive("shooting");
    assert Applied(server, reg, s, "charging") == AppliedFlag(s, "charging");
    assert Applied(server, reg, s, "shooting") == AppliedFlag(s, "shooting");
  }

  /** A llama's token carries a kind prefix that no Llama.Color matches, so applying it changes nothing. */
  lemma LlamaTokenDoesNotRoundTrip(server: Server, reg: Registries, s: EntitySnapshot, t: EntitySnapshot)
    requires s.Llama? && t.Llama?
    ensures Applied(server, reg, s, GetVariantId(server, t).value) == s
  {
    var prefix := if t.trader then "trader_llama_" else "llama_";
    var token := prefix + Lower(t.llamaColor);
    assert GetVariantId(server, t).value == token;
  }

  /** An angry wolf is angry whatever it is set to: the setter has no way to make one. */
  lemma WolfAngerIsNotSet(server: Server, reg: Registries, s: EntitySnapshot, key: string)
    requires s.Wolf?
    ensures Applied(server, reg, s, key).angry == s.angry
  {
  }

  /** A "jeb_" key names the sheep and leaves its colour alone; any other key touches only the colour. */
  lemma SheepSetter(server: Server, reg: Registries, s: EntitySnapshot, key: string)
    requires s.Sheep?
    ensures EqualsIgnoreCase(JebName, key) ==>
      Applied(server, reg, s, key) == Sheep(Some(server.text(JebName)), s.color)
    ensures !EqualsIgnoreCase(JebName, key) ==> Applied(server, reg, s, key).customName == s.customName
  {
  }

  /** Kinds the setter has no branch or an empty branch for are never changed. */
  lemma NoOpKinds(server: Server, reg: Registries, s: EntitySnapshot, key: string)
    requires s.Chicken? || s.Cow? || s.Pig? || s.Parrot? || s.Snowman? || s.Goat? || s.HappyGhast? || s.OtherEntity?
    ensures Applied(server, reg, s, key) == s
  {
  }

  /** The constants of the enum an enum-backed kind's variant is looked up in. */
  function EnumConstants(s: EntitySnapshot): seq<string>
    requires IsEnumBacked(s)
  {
    match s
    case Axolotl(_) => AxolotlVariants
    case Sheep(_, _) => DyeColors
    case Horse(_) => HorseColors
    case Llama(_, _) => LlamaColors
    case Fox(_) => FoxTypes
    case Panda(_) => PandaGenes
    case Rabbit(_) => RabbitTypes
    case MushroomCow(_) => MushroomCowVariants
  }

  /**
   * An enum-backed attribute is left alone when the upper-cased key names none
   * of its own enum's constants (and, for a sheep, is not jeb_).
   */
  lemma UnknownEnumNameChangesNothing(server: Server, reg: Registries, s: EntitySnapshot, key: string)
    requires IsEnumBacked(s)
    requires Upper(key) !in EnumConstants(s)
    requires s.Sheep? ==> !EqualsIgnoreCase(JebName, key)
    ensures Applied(server, reg, s, key) == s
  {
  }
}
