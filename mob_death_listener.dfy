/**
 * MobDeathListener.onEntityDeath: whether a killed mob drops its head. The
 * random number is a parameter (the draw Math.random() would return), and the
 * chance is a real number rather than an IEEE double.
 */
module MobDeathListener {
  import opened Wrappers
  import opened Host
  import opened Text
  import opened ConfigTree
  import opened Entities
  import opened EntityVariantUtils
  import opened MobHeadFactory

  /** The player who made the kill: the looting level of the item in their main hand. */
  datatype Killer = Killer(mainHandLooting: nat)

  /** What one death event leads to. Only Dropped puts an item into the world. */
  datatype DeathOutcome =
    | NotAMob
    | NoPlayerKiller
    | Unconfigured(path: seq<string>)
    | RollFailed(chance: real)
    | HeadFailed
    | Dropped(head: ItemIdentity)

  /** The config path the listener reads: drops.<MOB>.variants.<variant>, or drops.<MOB> without a variant. */
  function DropPath(mobKey: string, variant: Option<string>): seq<string> {
    match variant
    case Some(v) => VariantPath(mobKey, v)
    case None => BasePath(mobKey)
  }

  /** The looting level counted: 0 when the enchantment is missing from the registry. */
  function LootingLevel(lootingRegistered: bool, killer: Killer): nat {
    if lootingRegistered then killer.mainHandLooting else 0
  }

  /** base + level * bonus, with no clamping. */
  function FinalChance(base: real, bonus: real, level: nat): real {
    base + (level as real) * bonus
  }

  /** base-drop-chance and looting-bonus of the section, 0.0 when missing. */
  function ChanceOf(section: Node, level: nat): real {
    FinalChance(GetDouble(section, ["base-drop-chance"], 0.0), GetDouble(section, ["looting-bonus"], 0.0), level)
  }

  /**
   * onEntityDeath for a death whose Math.random() draw is given. Non-mobs, and
   * deaths with no player killer, never drop a head.
   */
  function OnEntityDeath(server: Server, config: Node, entity: EntitySnapshot, killer: Option<Killer>,
                         lootingRegistered: bool, draw: real): (r: DeathOutcome)
    ensures !entity.IsMob() ==> r == NotAMob
    ensures entity.IsMob() && killer.None? ==> r == NoPlayerKiller
    ensures r.Dropped? || r.HeadFailed? || r.RollFailed? || r.Unconfigured? ==> entity.IsMob() && killer.Some?
  {
    if !entity.IsMob() then NotAMob
    else if killer.None? then NoPlayerKiller
    else
      var mobKey := entity.TypeName();
      var variant := GetVariantId(server, entity);
      var path := DropPath(mobKey, variant);
      match GetSection(config, path)
      case None => Unconfigured(path)
      case Some(section) =>
        var chance := ChanceOf(section, LootingLevel(lootingRegistered, killer.value));
        if draw < chance then
          match HeadFor(server, config, Some(entity))
          case Some(head) => Dropped(head)
          case None => HeadFailed
        else RollFailed(chance)
  }

  /**
   * Whenever the listener finds its section, the factory builds a head from that
   * same section, so a head never fails to appear after a successful roll.
   */
  lemma ListenerSectionIsFactorySection(server: Server, config: Node, entity: EntitySnapshot)
    requires GetSection(config, DropPath(entity.TypeName(), GetVariantId(server, entity))).Some?
    ensures ResolveSection(config, entity.TypeName(), GetVariantId(server, entity)) ==
      GetSection(config, DropPath(entity.TypeName(), GetVariantId(server, entity)))
    ensures HeadFor(server, config, Some(entity)).Some?
  {
  }

  /**
   * A mob killed by a player drops a head exactly when the draw is below
   * base + level * bonus of the section at its path.
   */
  lemma DropIffDrawBelowChance(server: Server, config: Node, entity: EntitySnapshot, killer: Killer,
                               lootingRegistered: bool, draw: real)
    requires entity.IsMob()
    requires GetSection(config, DropPath(entity.TypeName(), GetVariantId(server, entity))).Some?
    ensures var section := GetSection(config, DropPath(entity.TypeName(), GetVariantId(server, entity))).value;
      OnEntityDeath(server, config, entity, Some(killer), lootingRegistered, draw).Dropped? <==>
      draw < ChanceOf(section, LootingLevel(lootingRegistered, killer))
    ensures !OnEntityDeath(server, config, entity, Some(killer), lootingRegistered, draw).HeadFailed?
  {
    ListenerSectionIsFactorySection(server, config, entity);
  }

  /** A draw at or above the chance fails the roll and reports that chance. */
  lemma DrawNotBelowChanceFails(server: Server, config: Node, entity: EntitySnapshot, killer: Killer,
                                lootingRegistered: bool, draw: real)
    requires entity.IsMob()
    requires GetSection(config, DropPath(entity.TypeName(), GetVariantId(server, entity))).Some?
    requires draw >= ChanceOf(GetSection(config, DropPath(entity.TypeName(), GetVariantId(server, entity))).value,
                              LootingLevel(lootingRegistered, killer))
    ensures OnEntityDeath(server, config, entity, Some(killer), lootingRegistered, draw) ==
      RollFailed(ChanceOf(GetSection(config, DropPath(entity.TypeName(), GetVariantId(server, entity))).value,
                          LootingLevel(lootingRegistered, killer)))
  {
  }

  /** The head dropped is the one createHeadFor builds for the dead entity. */
  lemma DroppedHeadIsFactoryHead(server: Server, config: Node, entity: EntitySnapshot, killer: Option<Killer>,
                                 lootingRegistered: bool, draw: real)
    requires OnEntityDeath(server, config, entity, killer, lootingRegistered, draw).Dropped?
    ensures HeadFor(server, config, Some(entity)) ==
      Some(OnEntityDeath(server, config, entity, killer, lootingRegistered, draw).head)
  {
  }

  /**
   * A variant with no section of its own is skipped, even when the mob's base
   * section exists (the factory, by contrast, falls back to it).
   */
  lemma NoFallbackToBaseSection(server: Server, config: Node, entity: EntitySnapshot, killer: Option<Killer>,
                                lootingRegistered: bool, draw: real)
    requires entity.IsMob() && killer.Some?
    requires GetVariantId(server, entity).Some?
    requires GetSection(config, VariantPath(entity.TypeName(), GetVariantId(server, entity).value)).None?
    ensures OnEntityDeath(server, config, entity, killer, lootingRegistered, draw) ==
      Unconfigured(VariantPath(entity.TypeName(), GetVariantId(server, entity).value))
    ensures GetSection(config, BasePath(entity.TypeName())).Some? ==>
      HeadFor(server, config, Some(entity)).Some?
  {
  }

  /** With neither base-drop-chance nor looting-bonus configured, no draw in [0, 1) drops anything. */
  lemma MissingChancesNeverDrop(server: Server, config: Node, entity: EntitySnapshot, killer: Option<Killer>,
                                lootingRegistered: bool, draw: real)
    requires 0.0 <= draw
    requires var section := GetSection(config, DropPath(entity.TypeName(), GetVariantId(server, entity)));
      section.Some? && Get(section.value, ["base-drop-chance"]).None? && Get(section.value, ["looting-bonus"]).None?
    ensures !OnEntityDeath(server, config, entity, killer, lootingRegistered, draw).Dropped?
  {
  }

  /** Looting raises the chance by bonus per level; without the enchantment in the registry it counts as 0. */
  lemma LootingLevelCounts(lootingRegistered: bool, killer: Killer)
    ensures !lootingRegistered ==> LootingLevel(lootingRegistered, killer) == 0
    ensures lootingRegistered ==> LootingLevel(lootingRegistered, killer) == killer.mainHandLooting
  {
  }

  /** With a non-negative bonus, a higher looting level never turns a drop into no drop. */
  lemma DropIsMonotoneInLooting(server: Server, config: Node, entity: EntitySnapshot, low: nat, high: nat,
                                draw: real)
    requires low <= high
    requires entity.IsMob()
    requires var section := GetSection(config, DropPath(entity.TypeName(), GetVariantId(server, entity)));
      section.Some? && GetDouble(section.value, ["looting-bonus"], 0.0) >= 0.0
    requires OnEntityDeath(server, config, entity, Some(Killer(low)), true, draw).Dropped?
    ensures OnEntityDeath(server, config, entity, Some(Killer(high)), true, draw).Dropped?
  {
    var section := GetSection(config, DropPath(entity.TypeName(), GetVariantId(server, entity))).value;
    DropIffDrawBelowChance(server, config, entity, Killer(low), true, draw);
    DropIffDrawBelowChance(server, config, entity, Killer(high), true, draw);
    FinalChanceMonotone(GetDouble(section, ["base-drop-chance"], 0.0), GetDouble(section, ["looting-bonus"], 0.0), low, high);
  }

  lemma FinalChanceMonotone(base: real, bonus: real, low: nat, high: nat)
    requires low <= high && bonus >= 0.0
    ensures FinalChance(base, bonus, low) <= FinalChance(base, bonus, high)
  {
    assert (high as real) * bonus - (low as real) * bonus == ((high - low) as real) * bonus;
  }

  /** The chance clamped to [0, 1], as a drop rate is usually described. */
  function Clamp(chance: real): (r: real)
    ensures 0.0 <= r <= 1.0
    ensures 0.0 <= chance <= 1.0 ==> r == chance
  {
    if chance < 0.0 then 0.0 else if chance > 1.0 then 1.0 else chance
  }

  /**
   * The source does not clamp the chance, and for draws in [0, 1) it does not
   * need to: comparing with the clamped chance gives the same decision.
   */
  lemma ClampingIsImmaterial(chance: real, draw: real)
    requires 0.0 <= draw < 1.0
    ensures draw < chance <==> draw < Clamp(chance)
  {
  }

  /** A zombie with base chance 0.05 and bonus 0.02, and no itemstack settings. */
  const ZombieSection: Node := Section([
    Entry("base-drop-chance", Num(0.05)),
    Entry("looting-bonus", Num(0.02))])

  const ZombieConfig: Node := Section([Entry("drops", Section([Entry("ZOMBIE", ZombieSection)]))])

  lemma ZombieSectionFound()
    ensures GetSection(ZombieConfig, ["drops", "ZOMBIE"]) == Some(ZombieSection)
    ensures GetDouble(ZombieSection, ["base-drop-chance"], 0.0) == 0.05
    ensures GetDouble(ZombieSection, ["looting-bonus"], 0.0) == 0.02
    ensures Get(ZombieSection, ["itemstack"]).None?
    ensures Get(ZombieSection, ["itemstack", "type"]).None?
    ensures Get(ZombieSection, ["itemstack", "lore"]).None?
    ensures Get(ZombieSection, ["itemstack", "head-sound"]).None?
  {
    assert Get(ZombieConfig, ["drops", "ZOMBIE"]) == Get(Section([Entry("ZOMBIE", ZombieSection)]), ["ZOMBIE"]);
  }

  /** The name generated for a zombie head without a configured display name. */
  lemma ZombieHeadName()
    ensures GeneratedName("ZOMBIE", None) == "Zombie Head"
  {
    assert Lower("ZOMBIE") == "zombie";
    assert Capitalize("zombie") == "Zombie";
  }

  /** The head a zombie with that section yields: a plain player head named "Zombie Head". */
  lemma ZombieHead(server: Server)
    requires server.matchMaterial("PLAYER_HEAD") == Some(PlayerHead)
    ensures HeadFor(server, ZombieConfig, Some(OtherEntity("ZOMBIE", true))) ==
      Some(ItemIdentity(PlayerHead, Some(server.deserialize("Zombie Head")), [], map[], None))
  {
    var zombie := OtherEntity("ZOMBIE", true);
    assert zombie.TypeName() == "ZOMBIE";
    ZombieIsUnvaried(server);
    ZombieSectionFacts(server);
    UntexturedHead(server, ZombieConfig, zombie, ZombieSection);
  }

  /** What the factory reads from the zombie's section. */
  lemma ZombieSectionFacts(server: Server)
    requires server.matchMaterial("PLAYER_HEAD") == Some(PlayerHead)
    ensures ResolveSection(ZombieConfig, "ZOMBIE", None) == Some(ZombieSection)
    ensures DisplayNameText(ZombieSection, "ZOMBIE", None) == "Zombie Head"
    ensures MaterialFor(server, ZombieSection) == PlayerHead
    ensures LoreFor(server, ZombieSection) == []
    ensures SoundData(ZombieSection) == map[]
    ensures TextureFor(ZombieSection) == None
  {
    ZombieSectionFound();
    ZombieHeadName();
  }

  lemma ZombieIsUnvaried(server: Server)
    ensures GetVariantId(server, OtherEntity("ZOMBIE", true)) == None
  {
  }

  /** The facts of the worked example that the decision turns on. */
  lemma ZombieDecisionInputs(server: Server)
    ensures OtherEntity("ZOMBIE", true).IsMob()
    ensures GetSection(ZombieConfig, DropPath("ZOMBIE", GetVariantId(server, OtherEntity("ZOMBIE", true)))) ==
      Some(ZombieSection)
    ensures ChanceOf(ZombieSection, LootingLevel(true, Killer(3))) == 0.11
  {
    ZombieSectionFound();
    ZombieIsUnvaried(server);
  }

  /** The worked example: Looting III gives chance 0.11, and a draw of 0.05 drops "Zombie Head". */
  lemma ZombieScenarioDrops(server: Server)
    requires server.matchMaterial("PLAYER_HEAD") == Some(PlayerHead)
    ensures OnEntityDeath(server, ZombieConfig, OtherEntity("ZOMBIE", true), Some(Killer(3)), true, 0.05) ==
      Dropped(ItemIdentity(PlayerHead, Some(server.deserialize("Zombie Head")), [], map[], None))
  {
    ZombieDecisionInputs(server);
    DropIffDrawBelowChance(server, ZombieConfig, OtherEntity("ZOMBIE", true), Killer(3), true, 0.05);
    DroppedHeadIsFactoryHead(server, ZombieConfig, OtherEntity("ZOMBIE", true), Some(Killer(3)), true, 0.05);
    ZombieHead(server);
  }

  /** A draw of 0.11 is not below the chance 0.11: no head. */
  lemma ZombieScenarioMisses(server: Server)
    ensures OnEntityDeath(server, ZombieConfig, OtherEntity("ZOMBIE", true), Some(Killer(3)), true, 0.11) ==
      RollFailed(0.11)
  {
    ZombieDecisionInputs(server);
    DrawNotBelowChanceFails(server, ZombieConfig, OtherEntity("ZOMBIE", true), Killer(3), true, 0.11);
  }

  /** An angry pale wolf, configured only under variants with a chance that differs from the base. */
  const AngryPaleSection: Node := Section([Entry("base-drop-chance", Num(1.0))])

  const WolfSection: Node := Section([
    Entry("base-drop-chance", Num(0.0)),
    Entry("variants", Section([Entry("angry_pale", AngryPaleSection)]))])

  const WolfConfig: Node := Section([Entry("drops", Section([Entry("WOLF", WolfSection)]))])

  lemma AngryPaleWolfSection(server: Server)
    ensures GetVariantId(server, Wolf("PALE", true)) == Some("angry_pale")
    ensures GetSection(WolfConfig, VariantPath("WOLF", "angry_pale")) == Some(AngryPaleSection)
    ensures GetSection(WolfConfig, BasePath("WOLF")) == Some(WolfSection)
    ensures ChanceOf(AngryPaleSection, 0) == 1.0 && ChanceOf(WolfSection, 0) == 0.0
  {
    assert Lower("PALE") == "pale";
    assert "angry_" + "pale" == "angry_pale";
    assert "base-drop-chance"[0] != "variants"[0];
    var variants := Section([Entry("angry_pale", AngryPaleSection)]);
    assert WolfSection.entries[1..] == [Entry("variants", variants)];
    assert Lookup(WolfSection.entries[1..], "variants") == Some(variants);
    assert Child(WolfSection, "variants") == Some(Section([Entry("angry_pale", AngryPaleSection)]));
    assert Get(WolfConfig, ["drops", "WOLF"]) == Get(Section([Entry("WOLF", WolfSection)]), ["WOLF"]);
    assert Get(WolfSection, ["variants", "angry_pale"]) == Get(Section([Entry("angry_pale", AngryPaleSection)]), ["angry_pale"]);
    GetAppend(WolfConfig, ["drops", "WOLF"], ["variants", "angry_pale"]);
    assert ["drops", "WOLF"] + ["variants", "angry_pale"] == VariantPath("WOLF", "angry_pale");
  }

  /**
   * The variant section decides: the wolf drops at the variant's chance 1.0 even
   * though the base section's chance is 0.0, and the factory reads the same section.
   */
  lemma AngryPaleWolfScenario(server: Server, draw: real)
    requires 0.0 <= draw < 1.0
    ensures OnEntityDeath(server, WolfConfig, Wolf("PALE", true), Some(Killer(0)), true, draw).Dropped?
    ensures ResolveSection(WolfConfig, "WOLF", Some("angry_pale")) == Some(AngryPaleSection)
  {
    AngryPaleWolfSection(server);
    DropIffDrawBelowChance(server, WolfConfig, Wolf("PALE", true), Killer(0), true, draw);
  }
}
