/**
 * NoteblockHeadSoundListener: a note block under a textured player head plays
 * the head-sound configured for the mob (or variant) whose itemstack.url is the
 * head's skin URL.
 */
module NoteblockHeadSoundListener {
  import opened Wrappers
  import opened Host
  import opened Text
  import opened ConfigTree

  /** isHead: the seven floor-standing heads and skulls; wall forms are not counted. */
  function IsHead(m: Material): (r: bool)
    ensures r ==> m.HasSkullMeta()
    ensures (m.PlayerWallHead? || m.ZombieWallHead? || m.SkeletonWallSkull? || m.WitherSkeletonWallSkull? ||
             m.CreeperWallHead? || m.DragonWallHead? || m.PiglinWallHead?) ==> !r
  {
    m == PlayerHead || m == ZombieHead || m == CreeperHead || m == SkeletonSkull ||
    m == WitherSkeletonSkull || m == PiglinHead || m == DragonHead
  }

  /** The outcome of looking for the skin URL: no section had it, or one did, with its head-sound if set. */
  datatype Match = NoMatch | Matched(sound: Option<string>)

  /** The section's itemstack.url equals the URL, ignoring case. */
  predicate UrlMatches(section: Node, url: string) {
    var u := GetString(section, ["itemstack", "url"]);
    u.Some? && EqualsIgnoreCase(u.value, url)
  }

  /** The outcome for a section whose URL matches: its itemstack.head-sound. */
  function SoundOf(section: Node): Match {
    Matched(GetString(section, ["itemstack", "head-sound"]))
  }

  /** The key's section under parent, when it matches. */
  function MatchAt(parent: Node, key: string, url: string): Match {
    match GetSection(parent, [key])
    case Some(section) => if UrlMatches(section, url) then SoundOf(section) else NoMatch
    case None => NoMatch
  }

  /** The first variant, in key order, whose URL matches. */
  function VariantMatch(variants: Node, keys: seq<string>, url: string): (r: Match)
    ensures r.NoMatch? <==> forall j :: 0 <= j < |keys| ==> MatchAt(variants, keys[j], url).NoMatch?
    ensures r.Matched? ==>
      exists j ::
        0 <= j < |keys| && r == MatchAt(variants, keys[j], url) &&
        forall k :: 0 <= k < j ==> MatchAt(variants, keys[k], url).NoMatch?
  {
    if keys == [] then NoMatch
    else
      var here := MatchAt(variants, keys[0], url);
      if here.Matched? then here
      else
        var r := VariantMatch(variants, keys[1..], url);
        assert forall j :: 1 <= j < |keys| ==> keys[j] == keys[1..][j - 1];
        if r.Matched? then
          var j :| 0 <= j < |keys[1..]| && r == MatchAt(variants, keys[1..][j], url) &&
            forall k :: 0 <= k < j ==> MatchAt(variants, keys[1..][k], url).NoMatch?;
          assert r == MatchAt(variants, keys[j + 1], url);
          r
        else r
  }

  /** One mob's section: its own URL first, then its variants in key order. */
  function MobMatch(mob: Node, url: string): Match {
    if UrlMatches(mob, url) then SoundOf(mob)
    else
      match GetSection(mob, ["variants"])
      case Some(variants) => VariantMatch(variants, Keys(variants), url)
      case None => NoMatch
  }

  /** MobMatch of the key's section under drops; keys without a section are skipped. */
  function MobMatchAt(drops: Node, key: string, url: string): Match {
    match GetSection(drops, [key])
    case Some(mob) => MobMatch(mob, url)
    case None => NoMatch
  }

  /** The first mob, in key order, with a match. */
  function DropsMatch(drops: Node, keys: seq<string>, url: string): (r: Match)
    ensures r.NoMatch? <==> forall i :: 0 <= i < |keys| ==> MobMatchAt(drops, keys[i], url).NoMatch?
    ensures r.Matched? ==>
      exists i ::
        0 <= i < |keys| && r == MobMatchAt(drops, keys[i], url) &&
        forall k :: 0 <= k < i ==> MobMatchAt(drops, keys[k], url).NoMatch?
  {
    if keys == [] then NoMatch
    else
      var here := MobMatchAt(drops, keys[0], url);
      if here.Matched? then here
      else
        var r := DropsMatch(drops, keys[1..], url);
        assert forall i :: 1 <= i < |keys| ==> keys[i] == keys[1..][i - 1];
        if r.Matched? then
          var i :| 0 <= i < |keys[1..]| && r == MobMatchAt(drops, keys[1..][i], url) &&
            forall k :: 0 <= k < i ==> MobMatchAt(drops, keys[1..][k], url).NoMatch?;
          assert r == MobMatchAt(drops, keys[i + 1], url);
          r
        else r
  }

  /** The skin URL of the skull's profile, if it has a profile with a skin. */
  function SkinUrl(server: Server, profile: Option<Profile>): Option<string> {
    if profile.Some? then server.skinUrl(profile.value) else None
  }

  /** getHeadSoundFromConfig: the matched head-sound, None for no profile, skin, drops section or match. */
  function HeadSoundFor(server: Server, config: Node, profile: Option<Profile>): Option<string> {
    var url := SkinUrl(server, profile);
    var drops := GetSection(config, ["drops"]);
    if url.None? || drops.None? then None
    else
      match DropsMatch(drops.value, Keys(drops.value), url.value)
      case Matched(sound) => sound
      case NoMatch => None
  }

  /** The inner loop over one mob's variants, returning at the first matching URL. */
  method FindVariantSound(variants: Node, url: string) returns (m: Match)
    ensures m == VariantMatch(variants, Keys(variants), url)
  {
    var keys := Keys(variants);
    var j := 0;
    while j < |keys|
      invariant 0 <= j <= |keys|
      invariant VariantMatch(variants, keys, url) == VariantMatch(variants, keys[j..], url)
    {
      var variantSection := GetSection(variants, [keys[j]]);
      assert keys[j..][1..] == keys[j + 1..];
      if variantSection.Some? {
        var variantUrl := GetString(variantSection.value, ["itemstack", "url"]);
        if variantUrl.Some? && EqualsIgnoreCase(variantUrl.value, url) {
          return Matched(GetString(variantSection.value, ["itemstack", "head-sound"]));
        }
      }
      j := j + 1;
    }
    return NoMatch;
  }

  /** getHeadSoundFromConfig as the source runs it: nested loops with early returns. */
  method GetHeadSoundFromConfig(server: Server, config: Node, profile: Option<Profile>) returns (sound: Option<string>)
    ensures sound == HeadSoundFor(server, config, profile)
  {
    if profile.None? {
      return None;
    }
    var skinUrl := server.skinUrl(profile.value);
    if skinUrl.None? {
      return None;
    }
    var dropsSection := GetSection(config, ["drops"]);
    if dropsSection.None? {
      return None;
    }
    var drops := dropsSection.value;
    var url := skinUrl.value;
    var keys := Keys(drops);
    var i := 0;
    while i < |keys|
      invariant 0 <= i <= |keys|
      invariant DropsMatch(drops, keys, url) == DropsMatch(drops, keys[i..], url)
    {
      assert keys[i..][1..] == keys[i + 1..];
      var mobSection := GetSection(drops, [keys[i]]);
      if mobSection.Some? {
        var mob := mobSection.value;
        var rootUrl := GetString(mob, ["itemstack", "url"]);
        if rootUrl.Some? && EqualsIgnoreCase(rootUrl.value, url) {
          return GetString(mob, ["itemstack", "head-sound"]);
        }
        var variantsSection := GetSection(mob, ["variants"]);
        if variantsSection.Some? {
          var m := FindVariantSound(variantsSection.value, url);
          if m.Matched? {
            return m.sound;
          }
        }
      }
      i := i + 1;
    }
    return None;
  }

  /**
   * onNoteBlockPlay: the sound played for the block above the note block, given
   * its type and, when its state is a Skull, the skull's profile.
   */
  function OnNoteBlockPlay(server: Server, config: Node, above: Material, skull: Option<Option<Profile>>): (r: Option<string>)
    ensures r.Some? ==> above == PlayerHead && skull.Some?
    ensures above == PlayerHead && skull.Some? ==> r == HeadSoundFor(server, config, skull.value)
  {
    if !IsHead(above) || above != PlayerHead || skull.None? then None
    else HeadSoundFor(server, config, skull.value)
  }

  /** No profile, no skin URL, or no drops section: nothing is found. */
  lemma MissingInputsFindNothing(server: Server, config: Node, profile: Option<Profile>)
    ensures profile.None? ==> HeadSoundFor(server, config, profile).None?
    ensures profile.Some? && server.skinUrl(profile.value).None? ==> HeadSoundFor(server, config, profile).None?
    ensures GetSection(config, ["drops"]).None? ==> HeadSoundFor(server, config, profile).None?
  {
  }

  /** A mob whose own URL matches gives its own head-sound, whatever its variants say. */
  lemma RootCheckedBeforeVariants(mob: Node, url: string)
    requires UrlMatches(mob, url)
    ensures MobMatch(mob, url) == Matched(GetString(mob, ["itemstack", "head-sound"]))
  {
  }

  /** Otherwise the mob's match is that of its first matching variant, and gives that variant's head-sound. */
  lemma VariantMatchGivesVariantSound(mob: Node, url: string)
    requires !UrlMatches(mob, url)
    requires MobMatch(mob, url).Matched?
    ensures GetSection(mob, ["variants"]).Some?
    ensures var variants := GetSection(mob, ["variants"]).value;
      exists j :: 0 <= j < |Keys(variants)| && GetSection(variants, [Keys(variants)[j]]).Some? &&
        var v := GetSection(variants, [Keys(variants)[j]]).value;
        UrlMatches(v, url) && MobMatch(mob, url) == Matched(GetString(v, ["itemstack", "head-sound"]))
  {
    var variants := GetSection(mob, ["variants"]).value;
    var keys := Keys(variants);
    var j :| 0 <= j < |keys| && MobMatch(mob, url) == MatchAt(variants, keys[j], url) &&
      forall k :: 0 <= k < j ==> MatchAt(variants, keys[k], url).NoMatch?;
    assert GetSection(variants, [keys[j]]).Some?;
  }

  /**
   * The first mob in key order with a match decides, even when its head-sound is
   * missing: the search stops there and nothing is played.
   */
  lemma FirstMatchDecides(server: Server, config: Node, profile: Option<Profile>, i: nat)
    requires SkinUrl(server, profile).Some? && GetSection(config, ["drops"]).Some?
    requires var drops := GetSection(config, ["drops"]).value;
      i < |Keys(drops)| && MobMatchAt(drops, Keys(drops)[i], SkinUrl(server, profile).value).Matched? &&
      forall k :: 0 <= k < i ==> MobMatchAt(drops, Keys(drops)[k], SkinUrl(server, profile).value).NoMatch?
    ensures var drops := GetSection(config, ["drops"]).value;
      HeadSoundFor(server, config, profile) == MobMatchAt(drops, Keys(drops)[i], SkinUrl(server, profile).value).sound
  {
    var drops := GetSection(config, ["drops"]).value;
    var keys := Keys(drops);
    var url := SkinUrl(server, profile).value;
    var r := DropsMatch(drops, keys, url);
    var i' :| 0 <= i' < |keys| && r == MobMatchAt(drops, keys[i'], url) &&
      forall k :: 0 <= k < i' ==> MobMatchAt(drops, keys[k], url).NoMatch?;
    assert i' == i;
  }

  /** With no section matching the skin URL, nothing is found and nothing is played. */
  lemma NoMatchNoSound(server: Server, config: Node, profile: Option<Profile>)
    requires SkinUrl(server, profile).Some? && GetSection(config, ["drops"]).Some?
    requires var drops := GetSection(config, ["drops"]).value;
      forall i :: 0 <= i < |Keys(drops)| ==> MobMatchAt(drops, Keys(drops)[i], SkinUrl(server, profile).value).NoMatch?
    ensures HeadSoundFor(server, config, profile).None?
    ensures OnNoteBlockPlay(server, config, PlayerHead, Some(profile)).None?
  {
  }
}
