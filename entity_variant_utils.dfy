/** EntityVariantUtils.getVariantId: the variant token a head's config is looked up under. */
module EntityVariantUtils {
  import opened Wrappers
  import opened Host
  import opened Text
  import opened Entities

  /** The sheep custom name that earns the rainbow "jeb_" head. */
  const JebName: string := "jeb_"

  /**
   * The lower-case variant token of an entity, or None for kinds without one.
   * The branches follow the source's instanceof chain; mooshrooms take their own
   * branch rather than the cow branch.
   */
  function GetVariantId(server: Server, e: EntitySnapshot): (r: Option<string>)
    ensures e.OtherEntity? ==> r.None?
    ensures !e.Sheep? && !e.ZombieVillager? && !e.OtherEntity? ==> r.Some?
  {
    match e
    case Wolf(v, angry) => Some(if angry then "angry_" + Lower(v) else Lower(v))
    case Axolotl(v) => Some(Lower(v))
    case Frog(v) => Some(Lower(v))
    case Chicken(v) => Some(Lower(v))
    case Cow(v) => Some(Lower(v))
    case Pig(v) => Some(Lower(v))
    case MushroomCow(v) => Some(Lower(v))
    case Parrot(v) => Some(Lower(v))
    case Sheep(name, color) =>
      if name.Some? && server.plain(name.value) == JebName then Some(JebName)
      else if color.Some? then Some(Lower(color.value))
      else None
    case Horse(c) => Some(Lower(c))
    case Llama(trader, c) => Some((if trader then "trader_llama_" else "llama_") + Lower(c))
    case Cat(t) => Some(Lower(t))
    case Bee(anger) => Some(if anger > 0 then "angry" else "calm")
    case Fox(t) => Some(Lower(t))
    case Ghast(charging) => Some(if charging then "charging" else "idle")
    case HappyGhast(chest) => Some(if chest == Saddle then "saddled" else "happy")
    case Goat(screaming) => Some(if screaming then "screaming" else "normal")
    case Panda(g) => Some(Lower(g))
    case Rabbit(t) => Some(Lower(t))
    case Snowman(derp) => Some(if derp then "derp" else "normal")
    case Strider(shivering) => Some(if shivering then "shivering" else "normal")
    case Villager(p) => Some(Lower(p))
    case ZombieVillager(p) => if p != NoProfession then Some(Lower(p)) else None
    case OtherEntity(_, _) => None
  }

  /** The fixed tokens are written in lower case. */
  lemma FixedTokensAreLowerCase()
    ensures forall t :: t in FixedTokens ==> IsLowerCase(t)
  {
  }

  const FixedTokens: set<string> := {
    "angry_", "llama_", "trader_llama_", JebName, "angry", "calm", "charging", "idle",
    "saddled", "happy", "screaming", "normal", "derp", "shivering"
  }

  /** A lower-case prefix followed by a lower-cased name is lower case. */
  lemma PrefixedLowerIsLowerCase(prefix: string, v: string)
    requires IsLowerCase(prefix)
    ensures IsLowerCase(prefix + Lower(v))
  {
    LowerIsLowerCase(v);
    var s := prefix + Lower(v);
    forall i | 0 <= i < |s| ensures !IsAsciiUpper(s[i]) {
      if i < |prefix| {
        assert s[i] == prefix[i];
      } else {
        assert s[i] == Lower(v)[i - |prefix|];
      }
    }
  }

  /** Every token is lower case, so it can be matched against lower-case config keys. */
  lemma VariantIdIsLowerCase(server: Server, e: EntitySnapshot)
    requires GetVariantId(server, e).Some?
    ensures IsLowerCase(GetVariantId(server, e).value)
  {
    if e.Wolf? || e.Llama? || e.Sheep? {
      PrefixedTokensAreLowerCase(server, e);
    } else if e.Bee? || e.Ghast? || e.HappyGhast? || e.Goat? || e.Snowman? || e.Strider? {
      FixedTokensAreLowerCase();
      assert GetVariantId(server, e).value in FixedTokens;
    } else {
      LoweredTokensAreLowerCase(server, e);
    }
  }

  lemma PrefixedTokensAreLowerCase(server: Server, e: EntitySnapshot)
    requires e.Wolf? || e.Llama? || e.Sheep?
    requires GetVariantId(server, e).Some?
    ensures IsLowerCase(GetVariantId(server, e).value)
  {
    var r := GetVariantId(server, e).value;
    FixedTokensAreLowerCase();
    match e
    case Wolf(v, angry) =>
      if angry {
        assert "angry_" in FixedTokens;
        PrefixedLowerIsLowerCase("angry_", v);
      } else {
        LowerIsLowerCase(v);
      }
    case Llama(trader, c) =>
      var prefix := if trader then "trader_llama_" else "llama_";
      assert prefix in FixedTokens;
      assert r == prefix + Lower(c);
      PrefixedLowerIsLowerCase(prefix, c);
    case Sheep(name, color) =>
      if name.Some? && server.plain(name.value) == JebName {
        assert r in FixedTokens;
      } else {
        LowerIsLowerCase(color.value);
      }
  }

  lemma LoweredTokensAreLowerCase(server: Server, e: EntitySnapshot)
    requires !(e.Wolf? || e.Llama? || e.Sheep?)
    requires !(e.Bee? || e.Ghast? || e.HappyGhast? || e.Goat? || e.Snowman? || e.Strider?)
    requires GetVariantId(server, e).Some?
    ensures IsLowerCase(GetVariantId(server, e).value)
  {
    match e
    case Axolotl(v) => LowerIsLowerCase(v);
    case Frog(v) => LowerIsLowerCase(v);
    case Chicken(v) => LowerIsLowerCase(v);
    case Cow(v) => LowerIsLowerCase(v);
    case Pig(v) => LowerIsLowerCase(v);
    case MushroomCow(v) => LowerIsLowerCase(v);
    case Parrot(v) => LowerIsLowerCase(v);
    case Horse(c) => LowerIsLowerCase(c);
    case Cat(t) => LowerIsLowerCase(t);
    case Fox(t) => LowerIsLowerCase(t);
    case Panda(g) => LowerIsLowerCase(g);
    case Rabbit(t) => LowerIsLowerCase(t);
    case Villager(p) => LowerIsLowerCase(p);
    case ZombieVillager(p) => LowerIsLowerCase(p);
  }

  /** Each two-state kind yields exactly one of its two tokens, chosen by its flag. */
  lemma TwoStateTokens(server: Server, e: EntitySnapshot)
    ensures e.Bee? ==> GetVariantId(server, e) == Some(if e.anger > 0 then "angry" else "calm")
    ensures e.Ghast? ==> GetVariantId(server, e) == Some(if e.charging then "charging" else "idle")
    ensures e.HappyGhast? ==> GetVariantId(server, e) == Some(if e.chestItem == Saddle then "saddled" else "happy")
    ensures e.Goat? ==> GetVariantId(server, e) == Some(if e.screaming then "screaming" else "normal")
    ensures e.Snowman? ==> GetVariantId(server, e) == Some(if e.derp then "derp" else "normal")
    ensures e.Strider? ==> GetVariantId(server, e) == Some(if e.shivering then "shivering" else "normal")
  {
  }

  /** A zombie villager has a token exactly when it has a profession. */
  lemma ZombieVillagerVariantId(server: Server, p: string)
    ensures GetVariantId(server, ZombieVillager(p)).None? <==> p == NoProfession
    ensures p != NoProfession ==> GetVariantId(server, ZombieVillager(p)) == Some(Lower(p))
  {
  }

  /** A mooshroom is classified by its own variant, not by the cow branch. */
  lemma MooshroomVariantId(server: Server, v: string)
    ensures GetVariantId(server, MushroomCow(v)) == Some(Lower(v))
  {
  }

  /** A wolf's token is its variant, prefixed "angry_" exactly when it is angry. */
  lemma WolfVariantId(server: Server, v: string, angry: bool)
    ensures GetVariantId(server, Wolf(v, angry)).Some?
    ensures var id := GetVariantId(server, Wolf(v, angry)).value;
      (angry ==> id == "angry_" + Lower(v)) && (!angry ==> id == Lower(v))
  {
  }

  /** A sheep named exactly "jeb_" is "jeb_" whatever its colour; otherwise its colour decides. */
  lemma SheepVariantId(server: Server, name: Option<Component>, color: Option<string>)
    ensures name.Some? && server.plain(name.value) == JebName ==>
      GetVariantId(server, Sheep(name, color)) == Some(JebName)
    ensures (name.None? || server.plain(name.value) != JebName) && color.Some? ==>
      GetVariantId(server, Sheep(name, color)) == Some(Lower(color.value))
  {
  }

  /** A llama's token carries the llama's kind before its colour. */
  lemma LlamaVariantId(server: Server, trader: bool, c: string)
    ensures GetVariantId(server, Llama(trader, c)) ==
      Some((if trader then "trader_llama_" else "llama_") + Lower(c))
  {
  }
}
