/**
 * MobHeadFactory: the head item a mob drops, built from its section of the
 * configuration, and the certified head a player drops.
 */
module MobHeadFactory {
  import opened Wrappers
  import opened Host
  import opened Text
  import opened ConfigTree
  import opened Entities
  import opened EntityVariantUtils
  import opened MobHeadUtils

  /** The MiniMessage text of the lore line every player head carries. */
  const CertifiedText: string := "[Certified Authentic]"

  /** The item data key the head sound is stored under. */
  const HeadSoundKey: string := "nerdnucustomdrops:head_sound"

  const DefaultMaterialName: string := "PLAYER_HEAD"

  /** The path of a mob's section: drops.<MOB>. */
  function BasePath(mobName: string): seq<string> {
    ["drops", mobName]
  }

  /** The path of a variant's section: drops.<MOB>.variants.<variant>. */
  function VariantPath(mobName: string, variant: string): seq<string> {
    ["drops", mobName, "variants", variant]
  }

  /** The section a head is built from: the variant's if present, else the mob's. */
  function ResolveSection(config: Node, mobName: string, variant: Option<string>): (r: Option<Node>)
    ensures r.Some? ==> r.value.Section?
    ensures variant.Some? && GetSection(config, VariantPath(mobName, variant.value)).Some? ==>
      r == GetSection(config, VariantPath(mobName, variant.value))
    ensures (variant.None? || GetSection(config, VariantPath(mobName, variant.value)).None?) ==>
      r == GetSection(config, BasePath(mobName))
  {
    var fromVariant := if variant.Some? then GetSection(config, VariantPath(mobName, variant.value)) else None;
    if fromVariant.Some? then fromVariant else GetSection(config, BasePath(mobName))
  }

  /** capitalize: the first character upper-cased, the rest untouched. */
  function Capitalize(s: string): (r: string)
    ensures |r| == |s|
    ensures s != [] ==> r[0] == UpperChar(s[0]) && r[1..] == s[1..]
    ensures s == [] ==> r == s
  {
    if s == [] then s else Upper(s[..1]) + s[1..]
  }

  /** The MiniMessage text of the generated name, "<Variant> <Mob> Head" or "<Mob> Head". */
  function GeneratedName(mobName: string, variant: Option<string>): string {
    match variant
    case Some(v) => Capitalize(v) + " " + Capitalize(Lower(mobName)) + " Head"
    case None => Capitalize(Lower(mobName)) + " Head"
  }

  /** The MiniMessage text of the display name: the configured one when non-empty, else generated. */
  function DisplayNameText(section: Node, mobName: string, variant: Option<string>): string {
    var configured := match GetSection(section, ["itemstack"])
      case Some(item) => GetString(item, ["display-name"])
      case None => None;
    if configured.Some? && configured.value != "" then configured.value else GeneratedName(mobName, variant)
  }

  /** Material.matchMaterial of itemstack.type (default "PLAYER_HEAD"), PLAYER_HEAD when unmatched. */
  function MaterialFor(server: Server, section: Node): Material {
    server.matchMaterial(GetStringOr(section, ["itemstack", "type"], DefaultMaterialName)).GetOr(PlayerHead)
  }

  /** Lore: none for an empty itemstack.lore, else that one line. */
  function LoreFor(server: Server, section: Node): (r: seq<Component>)
    ensures |r| <= 1
    ensures r == [] <==> GetStringOr(section, ["itemstack", "lore"], "") == ""
  {
    var text := GetStringOr(section, ["itemstack", "lore"], "");
    if text == "" then [] else [server.deserialize(text)]
  }

  /** The item data: the head sound, when one is configured and non-empty. */
  function SoundData(section: Node): (r: map<string, Datum>)
    ensures r.Keys <= {HeadSoundKey}
    ensures HeadSoundKey in r <==> GetString(section, ["itemstack", "head-sound"]).Some? && GetString(section, ["itemstack", "head-sound"]).value != ""
    ensures HeadSoundKey in r ==> r[HeadSoundKey] == StringDatum(GetString(section, ["itemstack", "head-sound"]).value)
  {
    match GetString(section, ["itemstack", "head-sound"])
    case Some(sound) => if sound != "" then map[HeadSoundKey := StringDatum(sound)] else map[]
    case None => map[]
  }

  /** itemstack.internal, read only when itemstack is a section. */
  function TextureFor(section: Node): Option<string> {
    match GetSection(section, ["itemstack"])
    case Some(item) => GetString(item, ["internal"])
    case None => None
  }

  /** The profile applyTexture installs: UUID from the texture bytes, name, and the textures property. */
  function HeadProfile(server: Server, texture: string, profileName: string): Profile {
    TexturedProfile(server.nameUuid(texture), profileName, texture)
  }

  /** The head createHeadFor returns for an entity, or None where it returns null. */
  function HeadFor(server: Server, config: Node, entity: Option<EntitySnapshot>): Option<ItemIdentity> {
    if entity.None? then None
    else
      var mobName := entity.value.TypeName();
      var variant := GetVariantId(server, entity.value);
      match ResolveSection(config, mobName, variant)
      case None => None
      case Some(section) =>
        var name := server.deserialize(DisplayNameText(section, mobName, variant));
        var material := MaterialFor(server, section);
        var lore := LoreFor(server, section);
        var bare := ItemIdentity(material, None, [], map[], None);
        var dressed := if material.HasMeta() then bare.(displayName := Some(name), lore := lore, data := SoundData(section)) else bare;
        var texture := TextureFor(section);
        if material == PlayerHead && texture.Some? && texture.value != "" then
          Some(dressed.(profile := Some(HeadProfile(server, texture.value, SanitizeComponentName(server, Some(name)))),
                        displayName := Some(name), lore := lore))
        else Some(dressed)
  }

  /** A player head with no texture is the material with the section's name, lore and sound, and no profile. */
  lemma UntexturedHead(server: Server, config: Node, entity: EntitySnapshot, section: Node)
    requires ResolveSection(config, entity.TypeName(), GetVariantId(server, entity)) == Some(section)
    requires MaterialFor(server, section) == PlayerHead
    requires TextureFor(section).None?
    ensures HeadFor(server, config, Some(entity)) ==
      Some(ItemIdentity(PlayerHead,
                        Some(server.deserialize(DisplayNameText(section, entity.TypeName(), GetVariantId(server, entity)))),
                        LoreFor(server, section), SoundData(section), None))
  {
  }

  /** A null entity gives no head; otherwise there is a head exactly when a section resolves. */
  lemma HeadExistsIffSectionResolves(server: Server, config: Node, entity: Option<EntitySnapshot>)
    ensures entity.None? ==> HeadFor(server, config, entity).None?
    ensures entity.Some? ==>
      (HeadFor(server, config, entity).Some? <==>
       ResolveSection(config, entity.value.TypeName(), GetVariantId(server, entity.value)).Some?)
  {
  }

  /** The variant section wins over the mob's section whenever it exists. */
  lemma VariantSectionWins(config: Node, mobName: string, variant: string)
    requires GetSection(config, VariantPath(mobName, variant)).Some?
    requires GetSection(config, BasePath(mobName)).Some?
    ensures ResolveSection(config, mobName, Some(variant)) == GetSection(config, VariantPath(mobName, variant))
    ensures GetSection(config, VariantPath(mobName, variant)) != GetSection(config, BasePath(mobName)) ==>
      ResolveSection(config, mobName, Some(variant)) != GetSection(config, BasePath(mobName))
  {
  }

  /** A configured, non-empty display-name is used verbatim; otherwise the generated name. */
  lemma DisplayNameChoice(section: Node, mobName: string, variant: Option<string>)
    ensures var item := GetSection(section, ["itemstack"]);
      var configured := if item.Some? then GetString(item.value, ["display-name"]) else None;
      (configured.Some? && configured.value != "" ==> DisplayNameText(section, mobName, variant) == configured.value) &&
      (!(configured.Some? && configured.value != "") ==> DisplayNameText(section, mobName, variant) == GeneratedName(mobName, variant))
  {
  }

  /** The generated name: capitalised variant, capitalised lower-case mob name, then " Head". */
  lemma GeneratedNameShape(mobName: string, variant: Option<string>)
    ensures var mob := Capitalize(Lower(mobName));
      GeneratedName(mobName, variant) ==
        (if variant.Some? then Capitalize(variant.value) + " " + mob else mob) + " Head"
    ensures |GeneratedName(mobName, variant)| ==
      |mobName| + 5 + (if variant.Some? then |variant.value| + 1 else 0)
  {
  }

  /** Capitalize upper-cases the first letter and nothing else. */
  lemma CapitalizeExamples()
    ensures Capitalize("") == ""
    ensures Capitalize("zombie") == "Zombie"
    ensures Capitalize("angry_pale") == "Angry_pale"
    ensures Capitalize("Zombie") == "Zombie"
  {
    assert Upper("z") == "Z";
    assert Upper("a") == "A";
    assert Upper("Z") == "Z";
  }

  /** The material: the matched itemstack.type, PLAYER_HEAD when the name is unmatched or missing. */
  lemma MaterialDefaultsToPlayerHead(server: Server, section: Node)
    ensures Get(section, ["itemstack", "type"]).None? ==>
      MaterialFor(server, section) == server.matchMaterial(DefaultMaterialName).GetOr(PlayerHead)
    ensures server.matchMaterial(GetStringOr(section, ["itemstack", "type"], DefaultMaterialName)).None? ==>
      MaterialFor(server, section) == PlayerHead
    ensures GetString(section, ["itemstack", "type"]).Some? &&
            server.matchMaterial(GetString(section, ["itemstack", "type"]).value).Some? ==>
      MaterialFor(server, section) == server.matchMaterial(GetString(section, ["itemstack", "type"]).value).value
  {
  }

  /**
   * What the head built from a section holds: its material, and for a material
   * with item meta the display name, at most one lore line and the head sound.
   */
  lemma HeadContents(server: Server, config: Node, e: EntitySnapshot)
    requires ResolveSection(config, e.TypeName(), GetVariantId(server, e)).Some?
    ensures var section := ResolveSection(config, e.TypeName(), GetVariantId(server, e)).value;
      var head := HeadFor(server, config, Some(e)).value;
      var name := server.deserialize(DisplayNameText(section, e.TypeName(), GetVariantId(server, e)));
      head.material == MaterialFor(server, section) &&
      (head.material.HasMeta() ==>
         head.displayName == Some(name) && head.lore == LoreFor(server, section) && head.data == SoundData(section)) &&
      (!head.material.HasMeta() ==> head.displayName.None? && head.lore == [] && head.data == map[] && head.profile.None?)
  {
    var section := ResolveSection(config, e.TypeName(), GetVariantId(server, e)).value;
    var material := MaterialFor(server, section);
    var texture := TextureFor(section);
    if material == PlayerHead && texture.Some? && texture.value != "" {
      assert material.HasMeta();
    }
  }

  /**
   * The texture is applied only to a PLAYER_HEAD with a non-empty itemstack.internal;
   * the profile's UUID comes from the texture and its name is the sanitised display name.
   */
  lemma TextureOnlyOnPlayerHeads(server: Server, config: Node, e: EntitySnapshot)
    requires ResolveSection(config, e.TypeName(), GetVariantId(server, e)).Some?
    ensures var section := ResolveSection(config, e.TypeName(), GetVariantId(server, e)).value;
      var head := HeadFor(server, config, Some(e)).value;
      var texture := TextureFor(section);
      var name := server.deserialize(DisplayNameText(section, e.TypeName(), GetVariantId(server, e)));
      (head.profile.Some? <==> head.material == PlayerHead && texture.Some? && texture.value != "") &&
      (head.profile.Some? ==>
         head.profile.value == HeadProfile(server, texture.value, SanitizeComponentName(server, Some(name))) &&
         head.profile.value.id == Some(server.nameUuid(texture.value)) &&
         1 <= |head.profile.value.name.value| <= MaxProfileNameLength &&
         IsProfileName(head.profile.value.name.value))
  {
  }

  /** applyTexture: install the textured profile and set name and lore again. */
  method ApplyTexture(server: Server, head: ItemStack, texture: string, profileName: string,
                      displayName: Component, lore: seq<Component>)
    modifies head
    ensures head.HasSkullMetaMaterial() ==>
      head.Identity() == old(head.Identity()).(profile := Some(HeadProfile(server, texture, profileName)),
                                                displayName := Some(displayName), lore := lore)
    ensures !head.HasSkullMetaMaterial() ==> head.Identity() == old(head.Identity())
  {
    if head.material.HasSkullMeta() {
      var uuid := server.nameUuid(texture);
      head.SetPlayerProfile(TexturedProfile(uuid, profileName, texture));
      head.SetDisplayName(displayName);
      head.SetLore(lore);
    }
  }

  /** createHeadFor: builds the head item step by step, or returns null. */
  method CreateHeadFor(server: Server, config: Node, entity: Option<EntitySnapshot>) returns (head: ItemStack?)
    ensures head == null <==> HeadFor(server, config, entity).None?
    ensures head != null ==> fresh(head) && head.Identity() == HeadFor(server, config, entity).value
  {
    if entity.None? {
      return null;
    }
    var mobName := entity.value.TypeName();
    var variant := GetVariantId(server, entity.value);
    var section := ResolveSection(config, mobName, variant);
    if section.None? {
      return null;
    }
    var displayName := server.deserialize(DisplayNameText(section.value, mobName, variant));
    var material := MaterialFor(server, section.value);
    var lore := LoreFor(server, section.value);
    head := new ItemStack(material);
    if material.HasMeta() {
      head.SetDisplayName(displayName);
      head.SetLore(lore);
      var sound := GetString(section.value, ["itemstack", "head-sound"]);
      if sound.Some? && sound.value != "" {
        head.SetData(HeadSoundKey, StringDatum(sound.value));
      }
    }
    var texture := TextureFor(section.value);
    if material == PlayerHead && texture.Some? && texture.value != "" {
      var profileName := SanitizeComponentName(server, Some(displayName));
      ApplyTexture(server, head, texture.value, profileName, displayName, lore);
    }
  }

  /** createPlayerHead: a player's own head, named "<player> Head" and certified. */
  method CreatePlayerHead(server: Server, playerName: string) returns (head: ItemStack)
    ensures fresh(head)
    ensures head.Identity() == ItemIdentity(PlayerHead, Some(server.deserialize(playerName + " Head")),
                                            [server.deserialize(CertifiedText)], map[], Some(server.offlineProfile(playerName)))
  {
    head := new ItemStack(PlayerHead);
    head.SetPlayerProfile(server.offlineProfile(playerName));
    head.SetDisplayName(server.deserialize(playerName + " Head"));
    head.SetLore([server.deserialize(CertifiedText)]);
  }
}
