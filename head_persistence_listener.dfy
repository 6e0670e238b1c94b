/**
 * HeadPersistenceListener: a placed head keeps its name, lore and texture in the
 * skull block's data container, and breaking the block drops a head rebuilt from
 * that record, carrying the "[Certified Authentic]" lore line.
 */
module HeadPersistenceListener {
  import opened Wrappers
  import opened Host
  import opened Text
  import opened MobHeadUtils
  import opened MobHeadFactory

  /** U+001F, the unit separator between serialised lore lines. */
  const LoreDelimiter: char := '\U{1F}'

  const LoreKey: string := PluginKey("head_lore")
  const NameKey: string := PluginKey("head_name")
  const TextureKey: string := PluginKey("head_texture")
  const CertifiedFlagKey: string := PluginKey("certified_added")
  /** The key the material is written under on place. */
  const MaterialKey: string := PluginKey("head_material")
  /** The key the material is read from on break: a different namespace. */
  const MaterialReadKey: string := "nerd:head_material"

  /** The keys differ from each other, the read key included. */
  lemma KeysAreDistinct()
    ensures |{LoreKey, NameKey, TextureKey, CertifiedFlagKey, MaterialKey, MaterialReadKey}| == 6
  {
    assert LoreKey[23] == 'l' && NameKey[23] == 'n' && TextureKey[23] == 't' && MaterialKey[23] == 'm';
    assert CertifiedFlagKey[18] == 'c' && LoreKey[18] == 'h';
    assert MaterialReadKey[4] == ':' && LoreKey[4] == 'n';
    assert NameKey[18] == 'h' && TextureKey[18] == 'h' && MaterialKey[18] == 'h';
    assert NameKey[4] == 'n' && TextureKey[4] == 'n' && MaterialKey[4] == 'n' && CertifiedFlagKey[4] == 'n';
  }

  /** The fourteen head and skull materials, floor and wall forms. */
  function IsSkullType(m: Material): (r: bool)
    ensures r <==> m.HasSkullMeta()
    ensures r ==> m.HasMeta()
  {
    match m
    case PlayerHead | PlayerWallHead | ZombieHead | ZombieWallHead
       | SkeletonSkull | SkeletonWallSkull | WitherSkeletonSkull | WitherSkeletonWallSkull
       | CreeperHead | CreeperWallHead | DragonHead | DragonWallHead
       | PiglinHead | PiglinWallHead => true
    case _ => false
  }

  // ---------------------------------------------------------------------------
  // The certification line
  // ---------------------------------------------------------------------------

  /** PLAYER_HEAD_LORE. */
  function CertifiedLine(server: Server): Component {
    server.deserialize(CertifiedText)
  }

  /** Some lore line reads, as plain text, like the certification line. */
  predicate HasCertifiedLine(server: Server, lore: seq<Component>) {
    exists i :: 0 <= i < |lore| && server.plain(lore[i]) == server.plain(CertifiedLine(server))
  }

  /** How many lore lines read like the certification line. */
  function CountCertified(server: Server, lore: seq<Component>): (n: nat)
    ensures n <= |lore|
    ensures n == 0 <==> !HasCertifiedLine(server, lore)
  {
    if lore == [] then 0
    else
      var rest := CountCertified(server, lore[1..]);
      assert HasCertifiedLine(server, lore[1..]) ==> HasCertifiedLine(server, lore) by {
        if HasCertifiedLine(server, lore[1..]) {
          var i :| 0 <= i < |lore[1..]| && server.plain(lore[1..][i]) == server.plain(CertifiedLine(server));
          assert lore[i + 1] == lore[1..][i];
        }
      }
      assert HasCertifiedLine(server, lore) && server.plain(lore[0]) != server.plain(CertifiedLine(server)) ==>
        HasCertifiedLine(server, lore[1..]) by {
        if HasCertifiedLine(server, lore) && server.plain(lore[0]) != server.plain(CertifiedLine(server)) {
          var i :| 0 <= i < |lore| && server.plain(lore[i]) == server.plain(CertifiedLine(server));
          assert i > 0 && lore[1..][i - 1] == lore[i];
        }
      }
      (if server.plain(lore[0]) == server.plain(CertifiedLine(server)) then 1 else 0) + rest
  }

  lemma {:induction false} CountCertifiedAppend(server: Server, a: seq<Component>, b: seq<Component>)
    ensures CountCertified(server, a + b) == CountCertified(server, a) + CountCertified(server, b)
  {
    if a == [] {
      assert a + b == b;
    } else {
      assert (a + b)[0] == a[0] && (a + b)[1..] == a[1..] + b;
      CountCertifiedAppend(server, a[1..], b);
    }
  }

  // ---------------------------------------------------------------------------
  // Place: what the block's container receives
  // ---------------------------------------------------------------------------

  /** The lore lines serialised with MiniMessage, in order. */
  function SerializeAll(server: Server, lore: seq<Component>): (r: seq<string>)
    ensures |r| == |lore|
    ensures forall i :: 0 <= i < |lore| ==> r[i] == server.serialize(lore[i])
  {
    if lore == [] then [] else [server.serialize(lore[0])] + SerializeAll(server, lore[1..])
  }

  /** The lore text stored on place: the serialised lines joined with U+001F. */
  function JoinedLore(server: Server, lore: seq<Component>): string {
    Join(SerializeAll(server, lore), LoreDelimiter)
  }

  /** saveDisplayNameAndLore: the name when there is one, the lore when it is not empty. */
  function NameLoreRecord(server: Server, displayName: Option<Component>, lore: seq<Component>): (r: map<string, Datum>)
    ensures NameKey in r <==> displayName.Some?
    ensures displayName.Some? ==> r[NameKey] == StringDatum(server.serialize(displayName.value))
    ensures LoreKey in r <==> lore != []
    ensures lore != [] ==> r[LoreKey] == StringDatum(JoinedLore(server, lore))
    ensures r.Keys <= {NameKey, LoreKey}
  {
    KeysAreDistinct();
    var withName := if displayName.Some? then map[NameKey := StringDatum(server.serialize(displayName.value))] else map[];
    if lore != [] then withName[LoreKey := StringDatum(JoinedLore(server, lore))] else withName
  }

  /** The value of the first "textures" property of a profile, as findFirst() returns it. */
  function FirstTextures(properties: seq<Property>): (r: Option<string>)
    ensures r.Some? <==> exists i :: 0 <= i < |properties| && properties[i].name == "textures"
    ensures r.Some? ==> (exists i :: 0 <= i < |properties| && properties[i] == Property("textures", r.value) &&
                                 forall j :: 0 <= j < i ==> properties[j].name != "textures")
  {
    if properties == [] then None
    else if properties[0].name == "textures" then Some(properties[0].value)
    else
      var r := FirstTextures(properties[1..]);
      assert forall i :: 1 <= i < |properties| ==> properties[i] == properties[1..][i - 1];
      if r.Some? then
        var i :| 0 <= i < |properties[1..]| && properties[1..][i] == Property("textures", r.value) &&
          forall j :: 0 <= j < i ==> properties[1..][j].name != "textures";
        assert properties[i + 1] == Property("textures", r.value);
        r
      else r
  }

  /** The texture stored on place: the item's profile's textures value, if any. */
  function PlacedTexture(item: ItemIdentity): Option<string> {
    if item.profile.Some? then FirstTextures(item.profile.value.properties) else None
  }

  /** Everything onHeadPlace writes into a fresh skull's container for a head item. */
  function PlaceRecord(server: Server, item: ItemIdentity): (r: map<string, Datum>)
    ensures MaterialKey in r && r[MaterialKey] == StringDatum(item.material.Name())
    ensures CertifiedFlagKey !in r && MaterialReadKey !in r
    ensures TextureKey in r <==> PlacedTexture(item).Some?
    ensures TextureKey in r ==> r[TextureKey] == StringDatum(PlacedTexture(item).value)
    ensures forall k :: k in NameLoreRecord(server, item.displayName, item.lore) ==>
      k in r && r[k] == NameLoreRecord(server, item.displayName, item.lore)[k]
    ensures r.Keys <= {MaterialKey, NameKey, LoreKey, TextureKey}
  {
    KeysAreDistinct();
    var base := map[MaterialKey := StringDatum(item.material.Name())] + NameLoreRecord(server, item.displayName, item.lore);
    var t := PlacedTexture(item);
    if t.Some? then base[TextureKey := StringDatum(t.value)] else base
  }

  /** saveDisplayNameAndLore writes the name and lore entries into the skull's container. */
  method SaveDisplayNameAndLore(server: Server, displayName: Option<Component>, lore: seq<Component>, skull: Skull)
    modifies skull
    ensures skull.data == old(skull.data) + NameLoreRecord(server, displayName, lore)
    ensures skull.profile == old(skull.profile)
  {
    if displayName.Some? {
      skull.SetData(NameKey, StringDatum(server.serialize(displayName.value)));
    }
    if lore != [] {
      var joined := JoinedLore(server, lore);
      skull.SetData(LoreKey, StringDatum(joined));
    }
  }

  /**
   * onHeadPlace for a head item placed as the given block state (null when the
   * state is not a Skull). The certified flag the source sets on place goes into
   * a copy of the item's meta and never reaches the block, so it is not written.
   */
  method OnHeadPlace(server: Server, item: ItemIdentity, placed: Skull?)
    modifies placed
    ensures IsSkullType(item.material) && placed != null ==>
      placed.data == old(placed.data) + PlaceRecord(server, item) && placed.profile == old(placed.profile)
    ensures !(IsSkullType(item.material) && placed != null) ==> placed == null || unchanged(placed)
  {
    if !IsSkullType(item.material) || placed == null {
      return;
    }
    ghost var before := placed.data;
    var materialEntry := map[MaterialKey := StringDatum(item.material.Name())];
    placed.SetData(MaterialKey, StringDatum(item.material.Name()));
    assert placed.data == before + materialEntry;
    SaveDisplayNameAndLore(server, item.displayName, item.lore, placed);
    ghost var named := NameLoreRecord(server, item.displayName, item.lore);
    UnionAssociates(before, materialEntry, named);
    assert placed.data == before + (materialEntry + named);
    if item.profile.Some? {
      var texture := FirstTextures(item.profile.value.properties);
      if texture.Some? {
        placed.SetData(TextureKey, StringDatum(texture.value));
        UnionAssociates(before, materialEntry + named, map[TextureKey := StringDatum(texture.value)]);
      }
    }
  }

  lemma UnionAssociates(a: map<string, Datum>, b: map<string, Datum>, c: map<string, Datum>)
    ensures (a + b) + c == a + (b + c)
  {
  }

  // ---------------------------------------------------------------------------
  // Break: the head rebuilt from the container
  // ---------------------------------------------------------------------------

  /** The material dropped: the stored name if valueOf accepts it, else the block's type. */
  function DropMaterial(server: Server, blockType: Material, data: map<string, Datum>): (r: Material)
    ensures GetStringDatum(data, MaterialReadKey).None? ==> r == blockType
  {
    match GetStringDatum(data, MaterialReadKey)
    case Some(name) => server.materialValueOf(name).GetOr(blockType)
    case None => blockType
  }

  /** The serialised lore lines stored in the container: none for a missing or empty entry. */
  function StoredLoreLines(data: map<string, Datum>): seq<string> {
    match GetStringDatum(data, LoreKey)
    case Some(text) => if text != "" then Split(text, LoreDelimiter) else []
    case None => []
  }

  /** The lines deserialised with MiniMessage, in order. */
  function DeserializeAll(server: Server, lines: seq<string>): (r: seq<Component>)
    ensures |r| == |lines|
    ensures forall i :: 0 <= i < |lines| ==> r[i] == server.deserialize(lines[i])
  {
    if lines == [] then [] else [server.deserialize(lines[0])] + DeserializeAll(server, lines[1..])
  }

  /** The certification line is added when no line reads like it and the block has no flag. */
  predicate NeedsCertification(server: Server, lore: seq<Component>, data: map<string, Datum>) {
    !HasCertifiedLine(server, lore) && !HasByteDatum(data, CertifiedFlagKey)
  }

  /** The profile name used on break: the plain text of the stored name, or "player". */
  function BreakProfileName(server: Server, data: map<string, Datum>): string {
    match GetStringDatum(data, NameKey)
    case Some(name) => server.plain(server.deserialize(name))
    case None => "player"
  }

  /** applyTextureToSkullMeta: the textured profile with a UUID derived from the texture. */
  function RestoredProfile(server: Server, texture: string, profileName: string): (p: Profile)
    ensures p.properties == [Property("textures", texture)]
    ensures p.id == Some(server.nameUuid(texture))
    ensures p.name.Some? && IsProfileName(p.name.value) && 1 <= |p.name.value| <= MaxProfileNameLength
  {
    TexturedProfile(server.nameUuid(texture), SanitizeProfileName(server, Some(profileName)), texture)
  }

  /** The texture applied on break: only to a PLAYER_HEAD, only when stored and not empty. */
  function BreakTexture(server: Server, dropMaterial: Material, data: map<string, Datum>): Option<string> {
    var texture := GetStringDatum(data, TextureKey);
    if dropMaterial == PlayerHead && texture.Some? && texture.value != "" then texture else None
  }

  /** The display name restored: the stored name, unless it is missing or empty. */
  function RestoredName(server: Server, data: map<string, Datum>): Option<Component> {
    var name := GetStringDatum(data, NameKey);
    if name.Some? && name.value != "" then Some(server.deserialize(name.value)) else None
  }

  /** The lore restored: the stored lines, with the certification line appended when needed. */
  function RestoredLore(server: Server, data: map<string, Datum>): seq<Component> {
    var stored := DeserializeAll(server, StoredLoreLines(data));
    if NeedsCertification(server, stored, data) then stored + [CertifiedLine(server)] else stored
  }

  /** The item data restored: the certified flag, set exactly when the line was appended. */
  function RestoredData(server: Server, data: map<string, Datum>): map<string, Datum> {
    var stored := DeserializeAll(server, StoredLoreLines(data));
    if NeedsCertification(server, stored, data) then map[CertifiedFlagKey := ByteDatum(1)] else map[]
  }

  /** The profile restored: a textured one exactly when a texture is applied. */
  function RestoredSkin(server: Server, dropMaterial: Material, data: map<string, Datum>): Option<Profile> {
    var texture := BreakTexture(server, dropMaterial, data);
    if texture.Some? then Some(RestoredProfile(server, texture.value, BreakProfileName(server, data))) else None
  }

  /**
   * The head onHeadBreak drops, or None where it drops nothing of its own: the
   * dropped material has no SkullMeta (its meta is null, or the cast fails).
   */
  function RestoredHead(server: Server, blockType: Material, data: map<string, Datum>): Option<ItemIdentity> {
    var material := DropMaterial(server, blockType, data);
    if !material.HasSkullMeta() then None
    else Some(ItemIdentity(material, RestoredName(server, data), RestoredLore(server, data),
                           RestoredData(server, data), RestoredSkin(server, material, data)))
  }

  /** Stream.of(split).map(deserialize).collect(toCollection(ArrayList::new)), one line at a time. */
  method CollectLore(server: Server, lines: seq<string>) returns (lore: seq<Component>)
    ensures lore == DeserializeAll(server, lines)
  {
    lore := [];
    var i := 0;
    while i < |lines|
      invariant 0 <= i <= |lines|
      invariant |lore| == i
      invariant forall k :: 0 <= k < i ==> lore[k] == server.deserialize(lines[k])
    {
      lore := lore + [server.deserialize(lines[i])];
      i := i + 1;
    }
  }

  /**
   * onHeadBreak for a block of the given type whose state is the given skull
   * (null when it is not a Skull). It returns the head dropped in place of the
   * block's own drops; null means the vanilla drops are left alone.
   */
  method OnHeadBreak(server: Server, blockType: Material, skull: Skull?) returns (head: ItemStack?)
    ensures !IsSkullType(blockType) || skull == null ==> head == null
    ensures IsSkullType(blockType) && skull != null ==>
      (head == null <==> RestoredHead(server, blockType, skull.data).None?) &&
      (head != null ==> fresh(head) && head.Identity() == RestoredHead(server, blockType, skull.data).value)
  {
    if !IsSkullType(blockType) || skull == null {
      return null;
    }
    var data := skull.data;
    var dropMaterial := DropMaterial(server, blockType, data);
    if !dropMaterial.HasSkullMeta() {
      return null;
    }
    head := new ItemStack(dropMaterial);
    var serializedName := GetStringDatum(data, NameKey);
    if serializedName.Some? && serializedName.value != "" {
      head.SetDisplayName(server.deserialize(serializedName.value));
    }
    assert head.displayName == RestoredName(server, data);
    var lore := CollectLore(server, StoredLoreLines(data));
    var hasPlain := HasCertifiedLine(server, lore);
    var hadFlag := HasByteDatum(data, CertifiedFlagKey);
    if !hasPlain && !hadFlag {
      lore := lore + [CertifiedLine(server)];
      head.SetData(CertifiedFlagKey, ByteDatum(1));
    }
    assert lore == RestoredLore(server, data);
    assert head.data == RestoredData(server, data);
    head.SetLore(lore);
    var texture := BreakTexture(server, dropMaterial, data);
    if texture.Some? {
      head.SetPlayerProfile(RestoredProfile(server, texture.value, BreakProfileName(server, data)));
    }
    assert head.profile == RestoredSkin(server, dropMaterial, data);
  }

  // ---------------------------------------------------------------------------
  // Properties of the codec
  // ---------------------------------------------------------------------------

  /** Place writes under the plugin's key and break reads under "nerd:", so the block's type always decides. */
  lemma MaterialComesFromBlock(server: Server, item: ItemIdentity, blockType: Material)
    ensures DropMaterial(server, blockType, PlaceRecord(server, item)) == blockType
  {
  }

  /** Only a head whose material has a SkullMeta yields a drop, and every drop has that material. */
  lemma BreakDropsSkullsOnly(server: Server, blockType: Material, data: map<string, Datum>)
    ensures RestoredHead(server, blockType, data).Some? <==> DropMaterial(server, blockType, data).HasSkullMeta()
    ensures RestoredHead(server, blockType, data).Some? ==>
      RestoredHead(server, blockType, data).value.material == DropMaterial(server, blockType, data)
  {
  }

  /**
   * The certification line is appended exactly when no restored line reads like
   * it and the block carries no flag; otherwise the lore is left as stored.
   */
  lemma CertificationAppendedIff(server: Server, blockType: Material, data: map<string, Datum>)
    requires RestoredHead(server, blockType, data).Some?
    ensures var stored := DeserializeAll(server, StoredLoreLines(data));
      var head := RestoredHead(server, blockType, data).value;
      (NeedsCertification(server, stored, data) ==>
         head.lore == stored + [CertifiedLine(server)] && head.data == map[CertifiedFlagKey := ByteDatum(1)]) &&
      (!NeedsCertification(server, stored, data) ==> head.lore == stored && head.data == map[])
  {
  }

  /** A restored head never carries two more certification lines than its record: at most one is added. */
  lemma CertificationAddsAtMostOne(server: Server, blockType: Material, data: map<string, Datum>)
    requires RestoredHead(server, blockType, data).Some?
    ensures var stored := DeserializeAll(server, StoredLoreLines(data));
      var head := RestoredHead(server, blockType, data).value;
      CountCertified(server, head.lore) ==
        if NeedsCertification(server, stored, data) then 1 else CountCertified(server, stored)
  {
    var stored := DeserializeAll(server, StoredLoreLines(data));
    if NeedsCertification(server, stored, data) {
      CountCertifiedAppend(server, stored, [CertifiedLine(server)]);
      assert CountCertified(server, [CertifiedLine(server)]) == 1;
    }
  }

  /** MiniMessage reads back what it wrote. */
  ghost predicate LosslessCodec(server: Server) {
    forall c :: server.deserialize(server.serialize(c)) == c
  }

  /**
   * Lore whose joined record splits back into the same lines: no serialised line
   * holds the delimiter, and the last one is not empty (split drops it).
   */
  predicate StorableLore(server: Server, lore: seq<Component>) {
    (forall i :: 0 <= i < |lore| ==> LoreDelimiter !in server.serialize(lore[i])) &&
    (lore != [] ==> server.serialize(lore[|lore| - 1]) != "")
  }

  /** A name the record keeps: absent, or serialised to a non-empty string (an empty one reads as absent). */
  predicate StorableName(server: Server, name: Option<Component>) {
    name.Some? ==> server.serialize(name.value) != ""
  }

  /** Joining and splitting the serialised lines, then deserialising, gives storable lore back. */
  lemma LoreRoundTrip(server: Server, lore: seq<Component>)
    requires LosslessCodec(server)
    requires StorableLore(server, lore)
    ensures DeserializeAll(server, StoredLoreLines(NameLoreRecord(server, None, lore))) == lore
  {
    if lore != [] {
      var parts := SerializeAll(server, lore);
      SplitJoin(parts, LoreDelimiter);
      JoinNotEmpty(parts, LoreDelimiter);
      var back := DeserializeAll(server, parts);
      assert forall i :: 0 <= i < |lore| ==> back[i] == lore[i];
    }
  }

  /** A last lore line that serialises to the empty string is lost: the record reads back without it. */
  lemma TrailingEmptyLoreLineIsLost(server: Server, lore: seq<Component>, blank: Component)
    requires LosslessCodec(server)
    requires StorableLore(server, lore)
    requires server.serialize(blank) == ""
    ensures DeserializeAll(server, StoredLoreLines(NameLoreRecord(server, None, lore + [blank]))) == lore
  {
    var parts := SerializeAll(server, lore);
    assert SerializeAll(server, lore + [blank]) == parts + [""];
    if lore == [] {
      assert Join([""], LoreDelimiter) == "";
    } else {
      SplitJoinDropsTrailingEmpty(parts, LoreDelimiter);
      JoinNotEmpty(parts, LoreDelimiter);
      assert JoinedLore(server, lore + [blank]) != "" by {
        assert Join(parts + [""], LoreDelimiter) == parts[0] + [LoreDelimiter] + Join((parts + [""])[1..], LoreDelimiter);
      }
      var back := DeserializeAll(server, parts);
      assert forall i :: 0 <= i < |lore| ==> back[i] == lore[i];
    }
  }

  /** A line whose serialisation holds the delimiter once comes back as the two lines on either side of it. */
  lemma DelimiterSplitsLoreLine(server: Server, line: Component, before: string, after: string)
    requires server.serialize(line) == before + [LoreDelimiter] + after
    requires LoreDelimiter !in before && LoreDelimiter !in after && after != ""
    ensures StoredLoreLines(NameLoreRecord(server, None, [line])) == [before, after]
  {
    assert Join([before, after], LoreDelimiter) == before + [LoreDelimiter] + after;
    SplitJoin([before, after], LoreDelimiter);
  }

  /**
   * A single lore line whose text holds the delimiter between two texts that
   * both read like the certification line comes back as two certification lines.
   */
  lemma DelimiterCanDuplicateCertification(server: Server, item: ItemIdentity, blockType: Material, before: string, after: string)
    requires IsSkullType(blockType)
    requires |item.lore| == 1 && server.serialize(item.lore[0]) == before + [LoreDelimiter] + after
    requires LoreDelimiter !in before && LoreDelimiter !in after && after != ""
    requires server.plain(server.deserialize(before)) == server.plain(CertifiedLine(server))
    requires server.plain(server.deserialize(after)) == server.plain(CertifiedLine(server))
    ensures var head := RestoredHead(server, blockType, PlaceRecord(server, item));
      head.Some? && CountCertified(server, head.value.lore) == 2
  {
    var record := PlaceRecord(server, item);
    MaterialComesFromBlock(server, item, blockType);
    PlaceRecordLoreLines(server, item);
    assert item.lore == [item.lore[0]];
    DelimiterSplitsLoreLine(server, item.lore[0], before, after);
    var stored := DeserializeAll(server, [before, after]);
    assert stored[1..] == [server.deserialize(after)];
    assert HasCertifiedLine(server, [server.deserialize(after)]) by {
      assert [server.deserialize(after)][0] == server.deserialize(after);
    }
    assert CountCertified(server, stored[1..]) == 1;
    assert HasCertifiedLine(server, stored) by {
      assert stored[0] == server.deserialize(before);
    }
    CertificationAddsAtMostOne(server, blockType, record);
  }

  /** A name that serialises to the empty string is restored as no name at all. */
  lemma EmptyNameIsLost(server: Server, item: ItemIdentity, blockType: Material)
    requires IsSkullType(blockType)
    requires item.displayName.Some? && server.serialize(item.displayName.value) == ""
    ensures var head := RestoredHead(server, blockType, PlaceRecord(server, item));
      head.Some? && head.value.displayName.None?
  {
    MaterialComesFromBlock(server, item, blockType);
  }

  /** The lore lines read back from a place record are those of the lore entry alone. */
  lemma PlaceRecordLoreLines(server: Server, item: ItemIdentity)
    ensures StoredLoreLines(PlaceRecord(server, item)) == StoredLoreLines(NameLoreRecord(server, None, item.lore))
  {
  }

  /**
   * Placing a head with storable lore into a fresh skull and breaking it gives
   * the lore back, with the certification line added only when it was missing.
   */
  lemma PlaceBreakKeepsLore(server: Server, item: ItemIdentity, blockType: Material)
    requires LosslessCodec(server)
    requires IsSkullType(blockType)
    requires StorableLore(server, item.lore)
    ensures var head := RestoredHead(server, blockType, PlaceRecord(server, item));
      head.Some? &&
      head.value.material == blockType &&
      head.value.lore == (if HasCertifiedLine(server, item.lore) then item.lore else item.lore + [CertifiedLine(server)]) &&
      CountCertified(server, head.value.lore) ==
        (if HasCertifiedLine(server, item.lore) then CountCertified(server, item.lore) else 1)
  {
    var record := PlaceRecord(server, item);
    MaterialComesFromBlock(server, item, blockType);
    PlaceRecordLoreLines(server, item);
    LoreRoundTrip(server, item.lore);
    CertificationAddsAtMostOne(server, blockType, record);
  }

  /**
   * Placing a head into a fresh skull and breaking it gives back the same name
   * and lore, with the certification line added only when the lore lacked it.
   */
  lemma PlaceBreakRoundTrip(server: Server, item: ItemIdentity, blockType: Material)
    requires LosslessCodec(server)
    requires IsSkullType(blockType)
    requires StorableName(server, item.displayName) && StorableLore(server, item.lore)
    ensures var head := RestoredHead(server, blockType, PlaceRecord(server, item));
      head.Some? &&
      head.value.material == blockType &&
      head.value.displayName == item.displayName &&
      head.value.lore == (if HasCertifiedLine(server, item.lore) then item.lore else item.lore + [CertifiedLine(server)]) &&
      CountCertified(server, head.value.lore) ==
        (if HasCertifiedLine(server, item.lore) then CountCertified(server, item.lore) else 1)
  {
    PlaceBreakKeepsLore(server, item, blockType);
  }

  /**
   * Whatever the codec does to the lore, a head broken from a skull placed by
   * this listener reads as certified: the record never carries the flag, so a
   * restored lore without the line gets it appended.
   */
  lemma PlaceBreakAlwaysCertified(server: Server, item: ItemIdentity, blockType: Material)
    requires IsSkullType(blockType)
    ensures var head := RestoredHead(server, blockType, PlaceRecord(server, item));
      head.Some? && CountCertified(server, head.value.lore) >= 1
  {
    var record := PlaceRecord(server, item);
    MaterialComesFromBlock(server, item, blockType);
    CertificationAddsAtMostOne(server, blockType, record);
  }

  /**
   * A textured PLAYER_HEAD keeps its texture through place and break: the same
   * textures value, a UUID derived from it, and a valid profile name.
   */
  lemma TextureRoundTrip(server: Server, item: ItemIdentity)
    requires PlacedTexture(item).Some? && PlacedTexture(item).value != ""
    ensures var head := RestoredHead(server, PlayerHead, PlaceRecord(server, item));
      var t := PlacedTexture(item).value;
      head.Some? && head.value.profile.Some? &&
      head.value.profile.value.properties == [Property("textures", t)] &&
      head.value.profile.value.id == Some(server.nameUuid(t)) &&
      IsProfileName(head.value.profile.value.name.value) &&
      1 <= |head.value.profile.value.name.value| <= MaxProfileNameLength
  {
    var data := PlaceRecord(server, item);
    var t := PlacedTexture(item).value;
    MaterialComesFromBlock(server, item, PlayerHead);
    assert GetStringDatum(data, TextureKey) == Some(t);
    assert BreakTexture(server, PlayerHead, data) == Some(t);
    var profile := RestoredProfile(server, t, BreakProfileName(server, data));
    assert RestoredSkin(server, PlayerHead, data) == Some(profile);
  }

  /** A head placed on a wall comes back as a wall head, and the texture is not applied to it. */
  lemma WallHeadLosesTexture(server: Server, item: ItemIdentity)
    ensures var head := RestoredHead(server, PlayerWallHead, PlaceRecord(server, item));
      head.Some? && head.value.material == PlayerWallHead && head.value.profile.None?
  {
    MaterialComesFromBlock(server, item, PlayerWallHead);
  }

  /** The certification line itself survives a record: storable as the last lore line. */
  predicate CertifiedLineStorable(server: Server) {
    StorableLore(server, [CertifiedLine(server)])
  }

  /**
   * One place/break cycle: the count of certification lines becomes at least one
   * and otherwise stays, and the lore stays storable for the next cycle.
   */
  lemma CycleCertifiesOnce(server: Server, item: ItemIdentity, blockType: Material)
    requires LosslessCodec(server) && CertifiedLineStorable(server)
    requires IsSkullType(blockType)
    requires StorableLore(server, item.lore)
    ensures RestoredHead(server, blockType, PlaceRecord(server, item)).Some?
    ensures CountCertified(server, RestoredHead(server, blockType, PlaceRecord(server, item)).value.lore) ==
      if CountCertified(server, item.lore) == 0 then 1 else CountCertified(server, item.lore)
    ensures StorableLore(server, RestoredHead(server, blockType, PlaceRecord(server, item)).value.lore)
  {
    PlaceBreakKeepsLore(server, item, blockType);
    AppendingKeepsStorable(server, item.lore, CertifiedLine(server));
  }

  lemma AppendingKeepsStorable(server: Server, lore: seq<Component>, line: Component)
    requires StorableLore(server, lore) && StorableLore(server, [line])
    ensures StorableLore(server, lore + [line])
  {
    var longer := lore + [line];
    assert forall i :: 0 <= i < |lore| ==> longer[i] == lore[i];
    assert longer[|lore|] == line;
  }

  /** n place/break cycles of a head, each into a fresh skull of the given type. */
  function Cycles(server: Server, item: ItemIdentity, blockType: Material, n: nat): Option<ItemIdentity>
    decreases n
  {
    if n == 0 then Some(item)
    else
      match Cycles(server, item, blockType, n - 1)
      case None => None
      case Some(prev) => RestoredHead(server, blockType, PlaceRecord(server, prev))
  }

  /**
   * However many times a head is placed and broken, it carries the certification
   * line exactly once if it started with at most one, and never gains a second.
   */
  lemma {:induction false} RepeatedCyclesCertifyOnce(server: Server, item: ItemIdentity, blockType: Material, n: nat)
    requires LosslessCodec(server) && CertifiedLineStorable(server)
    requires IsSkullType(blockType)
    requires StorableLore(server, item.lore)
    requires n >= 1
    ensures Cycles(server, item, blockType, n).Some?
    ensures CountCertified(server, Cycles(server, item, blockType, n).value.lore) ==
      if CountCertified(server, item.lore) == 0 then 1 else CountCertified(server, item.lore)
    ensures StorableLore(server, Cycles(server, item, blockType, n).value.lore)
  {
    if n > 1 {
      RepeatedCyclesCertifyOnce(server, item, blockType, n - 1);
    }
    var prev := Cycles(server, item, blockType, n - 1).value;
    assert Cycles(server, item, blockType, n - 1) == Some(prev);
    assert Cycles(server, item, blockType, n) == RestoredHead(server, blockType, PlaceRecord(server, prev));
    CycleCertifiesOnce(server, prev, blockType);
  }
}
