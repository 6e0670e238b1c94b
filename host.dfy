/**
 * The slice of the Paper server API the plugin touches: materials, rich-text
 * components, player profiles, persistent data containers, item stacks with
 * their meta, and placed skull blocks. Library code the plugin only calls
 * (MiniMessage, the plain-text serialiser, Material lookups, UUID hashing, the
 * offline-player cache, texture decoding) is a field of the Server record, so
 * the model holds for every implementation of it.
 */
module Host {
  import opened Wrappers

  /** net.kyori.adventure.text.Component; its structure is not modelled. */
  type Component(==, !new)

  /** java.util.UUID as its 128-bit value. */
  type Uuid = nat

  /** The org.bukkit.Material constants the plugin names, and every other one by its name. */
  datatype Material =
    | PlayerHead | PlayerWallHead
    | ZombieHead | ZombieWallHead
    | SkeletonSkull | SkeletonWallSkull
    | WitherSkeletonSkull | WitherSkeletonWallSkull
    | CreeperHead | CreeperWallHead
    | DragonHead | DragonWallHead
    | PiglinHead | PiglinWallHead
    | Air
    | Saddle
    | OtherMaterial(materialName: string)
  {
    /** Material.name(). */
    function Name(): string {
      match this
      case PlayerHead => "PLAYER_HEAD"
      case PlayerWallHead => "PLAYER_WALL_HEAD"
      case ZombieHead => "ZOMBIE_HEAD"
      case ZombieWallHead => "ZOMBIE_WALL_HEAD"
      case SkeletonSkull => "SKELETON_SKULL"
      case SkeletonWallSkull => "SKELETON_WALL_SKULL"
      case WitherSkeletonSkull => "WITHER_SKELETON_SKULL"
      case WitherSkeletonWallSkull => "WITHER_SKELETON_WALL_SKULL"
      case CreeperHead => "CREEPER_HEAD"
      case CreeperWallHead => "CREEPER_WALL_HEAD"
      case DragonHead => "DRAGON_HEAD"
      case DragonWallHead => "DRAGON_WALL_HEAD"
      case PiglinHead => "PIGLIN_HEAD"
      case PiglinWallHead => "PIGLIN_WALL_HEAD"
      case Air => "AIR"
      case Saddle => "SADDLE"
      case OtherMaterial(n) => n
    }

    /** new ItemStack(m).getItemMeta() is null only for the air materials. */
    predicate HasMeta() {
      !Air? && !(OtherMaterial? && materialName in {"CAVE_AIR", "VOID_AIR"})
    }

    /** The materials whose item meta is a SkullMeta: the fourteen heads and skulls. */
    predicate HasSkullMeta() {
      PlayerHead? || PlayerWallHead? || ZombieHead? || ZombieWallHead? ||
      SkeletonSkull? || SkeletonWallSkull? || WitherSkeletonSkull? || WitherSkeletonWallSkull? ||
      CreeperHead? || CreeperWallHead? || DragonHead? || DragonWallHead? ||
      PiglinHead? || PiglinWallHead?
    }
  }

  /** The namespace of the plugin's NamespacedKeys: its name in lower case. */
  const PluginNamespace: string := "nerdnucustomdrops"

  /** new NamespacedKey(plugin, name), as the text of the key. */
  function PluginKey(name: string): string {
    PluginNamespace + ":" + name
  }

  /** A profile property such as ("textures", base64 payload). */
  datatype Property = Property(name: string, value: string)

  /** com.destroystokyo.paper.profile.PlayerProfile. */
  datatype Profile = Profile(id: Option<Uuid>, name: Option<string>, properties: seq<Property>)

  /** Bukkit.createProfile(uuid, name) followed by setProperty("textures", texture). */
  function TexturedProfile(id: Uuid, name: string, texture: string): Profile {
    Profile(Some(id), Some(name), [Property("textures", texture)])
  }

  /** The library operations the plugin calls, as functions of their inputs. */
  datatype Server = Server(
    deserialize: string -> Component,            // MiniMessage.deserialize
    serialize: Component -> string,              // MiniMessage.serialize
    plain: Component -> string,                  // PlainTextComponentSerializer.serialize
    text: string -> Component,                   // Component.text
    matchMaterial: string -> Option<Material>,   // Material.matchMaterial
    materialValueOf: string -> Option<Material>, // Material.valueOf, None where it throws
    nameUuid: string -> Uuid,                    // UUID.nameUUIDFromBytes(s.getBytes(UTF_8))
    offlineProfile: string -> Profile,           // profile of Bukkit.getOfflinePlayer(name)
    skinUrl: Profile -> Option<string>           // profile.getTextures().getSkin()
  )

  /** A value in a PersistentDataContainer, tagged with its PersistentDataType. */
  datatype Datum = StringDatum(s: string) | ByteDatum(b: int)

  /** container.get(key, STRING); a value of another type is read as absent. */
  function GetStringDatum(data: map<string, Datum>, key: string): (r: Option<string>)
    ensures r.Some? <==> key in data && data[key].StringDatum?
  {
    if key in data && data[key].StringDatum? then Some(data[key].s) else None
  }

  /** container.has(key, BYTE). */
  predicate HasByteDatum(data: map<string, Datum>, key: string) {
    key in data && data[key].ByteDatum?
  }

  /** What an item stack and its meta hold, as a value. */
  datatype ItemIdentity = ItemIdentity(
    material: Material,
    displayName: Option<Component>,
    lore: seq<Component>,
    data: map<string, Datum>,
    profile: Option<Profile>)

  /**
   * An org.bukkit.inventory.ItemStack together with its ItemMeta. The lore list is
   * kept as a sequence; ItemMeta.lore() reports an empty one as null.
   */
  class ItemStack {
    const material: Material
    var displayName: Option<Component>
    var lore: seq<Component>
    var data: map<string, Datum>
    var profile: Option<Profile>

    constructor (material: Material)
      ensures this.material == material
      ensures displayName == None && lore == [] && data == map[] && profile == None
    {
      this.material := material;
      displayName := None;
      lore := [];
      data := map[];
      profile := None;
    }

    function Identity(): ItemIdentity
      reads this
    {
      ItemIdentity(material, displayName, lore, data, profile)
    }

    /** editMeta(SkullMeta.class, ...) applies only to materials whose meta is a SkullMeta. */
    predicate HasSkullMetaMaterial() {
      material.HasSkullMeta()
    }

    /** meta.displayName(name). */
    method SetDisplayName(name: Component)
      modifies this
      ensures Identity() == old(Identity()).(displayName := Some(name))
    {
      displayName := Some(name);
    }

    /** meta.lore(lines). */
    method SetLore(lines: seq<Component>)
      modifies this
      ensures Identity() == old(Identity()).(lore := lines)
    {
      lore := lines;
    }

    /** meta.getPersistentDataContainer().set(key, type, value). */
    method SetData(key: string, value: Datum)
      modifies this
      ensures Identity() == old(Identity()).(data := old(data)[key := value])
    {
      data := data[key := value];
    }

    /** item.getItemMeta() hands out a copy: changes to it stay off the item. */
    method CopyOf() returns (c: ItemStack)
      ensures fresh(c) && c.Identity() == Identity()
    {
      c := new ItemStack(material);
      c.displayName := displayName;
      c.lore := lore;
      c.data := data;
      c.profile := profile;
    }

    /** skullMeta.setPlayerProfile(p), or setOwningPlayer with the player's profile. */
    method SetPlayerProfile(p: Profile)
      modifies this
      ensures Identity() == old(Identity()).(profile := Some(p))
    {
      profile := Some(p);
    }
  }

  /** The org.bukkit.block.Skull state of a placed head: its data container and profile. */
  class Skull {
    var data: map<string, Datum>
    var profile: Option<Profile>

    constructor (data: map<string, Datum>, profile: Option<Profile>)
      ensures this.data == data && this.profile == profile
    {
      this.data := data;
      this.profile := profile;
    }

    /** skull.getPersistentDataContainer().set(key, type, value). */
    method SetData(key: string, value: Datum)
      modifies this
      ensures data == old(data)[key := value] && profile == old(profile)
    {
      data := data[key := value];
    }
  }
}
