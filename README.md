# NerdNuCustomDrops mob heads, modelled in Dafny

NerdNuCustomDrops is a Paper plugin. When a player kills a mob, the mob may
drop a decorative head. The chance, the head's look and its sound come from
the `drops` section of the plugin's configuration, keyed by entity type and,
for mobs with variants, by a lower-case variant token. A placed head keeps
its display name, lore and skin texture in the skull block's data container.
When the block is broken, an equivalent head drops, carrying the
"[Certified Authentic]" lore line. The `/mobhead` command hands out heads and
completes its arguments. A note block under a textured player head plays the
head-sound configured for that texture.

The model has one module per source class:

| module | file | models |
|---|---|---|
| `EntityVariantUtils` | entity_variant_utils.dfy | the variant token read off an entity |
| `MobHeadVariantSetter` | mob_head_variant_setter.dfy | writing a token back onto an entity (class `Entity`) |
| `MobHeadUtils` | mob_head_utils.dfy | display name to profile-name sanitising |
| `MobHeadFactory` | mob_head_factory.dfy | the head item built from a config section |
| `MobDeathListener` | mob_death_listener.dfy | the drop decision on a mob's death |
| `HeadPersistenceListener` | head_persistence_listener.dfy | place and break of heads, on the `Skull` and `ItemStack` classes of `Host` |
| `MobHeadCommand` | mob_head_command.dfy | `/mobhead` dispatch, `give` and tab completion |
| `NoteblockHeadSoundListener` | noteblock_head_sound_listener.dfy | head-sound lookup under note blocks |

Three supporting modules stand for the libraries the plugin calls:

- `Host` models the Paper API: materials, profiles, data containers, and item stacks and skulls as classes. It also holds a `Server` record whose function fields are the library calls: MiniMessage, the plain-text serialiser, `Material.matchMaterial`/`valueOf`, `UUID.nameUUIDFromBytes`, the offline-player profile and the skin URL of a profile. Every result therefore holds for any implementation of them.
- `ConfigTree` models a `ConfigurationSection` as a tree whose keys keep file order.
- `Text` models the `String` operations the plugin uses: case mapping, `startsWith`, string order (by code point) and sorting, joining and splitting.

Where the code and its own comments or documentation disagree, the model
follows the code:

- The drop chance is `base + level * bonus` and is not clamped. `ClampingIsImmaterial` shows that clamping would not change any decision for a draw in [0, 1).
- `itemstack.lore` is read with `getString`, so a generated head has at most one lore line.
- The death listener reads only the exact variant path. It does not fall back to the mob's base section, although the head factory does.
- The material is written on place under `nerdnucustomdrops:head_material` but read on break under `nerd:head_material`. The broken block's own type therefore always decides the dropped material (`MaterialComesFromBlock`). A head placed against a wall comes back as a `PLAYER_WALL_HEAD`, and the texture is not applied to it (`WallHeadLosesTexture`).
- The "certified" flag that `onHeadPlace` sets goes into a copy of the item's meta and never reaches the block, so the model writes nothing for it.

Three variant tokens do not round-trip through `applyVariant`:

- A charging ghast reads `charging`, but the setter charges only on `shooting` (`GhastTokenDoesNotRoundTrip`).
- A llama's token carries a `llama_` or `trader_llama_` prefix that no `Llama.Color` matches (`LlamaTokenDoesNotRoundTrip`).
- The `angry_` part of a wolf's token is never set (`WolfAngerIsNotSet`).

Seven kinds have a token but no setter branch: goats, snow golems, happy
ghasts, chickens, cows, pigs and parrots. Applying a token changes nothing
on them (`NoOpKinds`), so the token comes back only when the entity already
carried it. A wolf round-trips only when neither wolf is angry. A cat, frog,
wolf, villager or zombie villager round-trips only when its registry finds
the value under the lower-cased token. Under those conditions, and for
axolotls, mooshrooms, horses, foxes, pandas, rabbits, bees, striders and
sheep, reading a token and applying it gives the same token back
(`ClassifierSetterRoundTrip`).

A place/break cycle keeps a head's name and lore only when MiniMessage
reads back what it wrote and the text survives the record:

- A lore line whose MiniMessage text is empty is lost at the end of the lore, because `split` drops trailing empty fields (`TrailingEmptyLoreLineIsLost`).
- A lore line whose text holds U+001F comes back as two lines (`DelimiterSplitsLoreLine`). If both halves read like the certification line, one stored line yields two of them (`DelimiterCanDuplicateCertification`).
- A name whose text is empty comes back as no name (`EmptyNameIsLost`).

Whatever the codec does, a broken head always carries the certification
line at least once (`PlaceBreakAlwaysCertified`).

## Model

Source paths are relative to the repository root.

| member | source | states |
|---|---|---|
| EntityVariantUtils.GetVariantId | src/main/java/nu/nerd/utils/EntityVariantUtils.java:21-89 | kinds outside the chain have no token; every kind except sheep and zombie villagers always has one |
| EntityVariantUtils.FixedTokensAreLowerCase | src/main/java/nu/nerd/utils/EntityVariantUtils.java:24-77 | the literal tokens the method emits are lower case |
| EntityVariantUtils.VariantIdIsLowerCase | src/main/java/nu/nerd/utils/EntityVariantUtils.java:21-89 | every token is lower case, matching lower-case variant keys in the config |
| EntityVariantUtils.TwoStateTokens | src/main/java/nu/nerd/utils/EntityVariantUtils.java:57-79 | bee, ghast, happy ghast, goat, snow golem and strider yield one of two tokens chosen by their flag |
| EntityVariantUtils.ZombieVillagerVariantId | src/main/java/nu/nerd/utils/EntityVariantUtils.java:82-85 | a zombie villager has a token iff its profession is not NONE, and then it is the lower-cased profession |
| EntityVariantUtils.MooshroomVariantId | src/main/java/nu/nerd/utils/EntityVariantUtils.java:32-37 | a mooshroom is classified by its own variant, not by the cow branch |
| EntityVariantUtils.WolfVariantId | src/main/java/nu/nerd/utils/EntityVariantUtils.java:22-25 | a wolf's token is its lower-cased variant, prefixed "angry_" exactly when angry |
| EntityVariantUtils.SheepVariantId | src/main/java/nu/nerd/utils/EntityVariantUtils.java:40-46 | a sheep named "jeb_" reads "jeb_" whatever its colour; otherwise its lower-cased colour |
| EntityVariantUtils.LlamaVariantId | src/main/java/nu/nerd/utils/EntityVariantUtils.java:49-54 | a llama's token is "llama_" or "trader_llama_" followed by its lower-cased colour |
| MobHeadVariantSetter.ValueOf | src/main/java/nu/nerd/utils/MobHeadVariantSetter.java:29 | valueOf(key.toUpperCase()) succeeds iff the upper-cased key is a constant, and returns that constant |
| MobHeadVariantSetter.AppliedKeepsWellFormed | src/main/java/nu/nerd/utils/MobHeadVariantSetter.java:20-161 | every value the setter stores is a constant of its enum, so a well-formed entity stays well-formed |
| MobHeadVariantSetter.AppliedEnumKeepsWellFormed | src/main/java/nu/nerd/utils/MobHeadVariantSetter.java:27-110 | the valueOf branches store only constants their enum has |
| MobHeadVariantSetter.AppliedFlag | src/main/java/nu/nerd/utils/MobHeadVariantSetter.java:87-119 | the bee, ghast and strider branches change only an entity of their own kind, and keep its kind |
| MobHeadVariantSetter.AppliedKeepsKind | src/main/java/nu/nerd/utils/MobHeadVariantSetter.java:26-160 | applyVariant never changes an entity's type or whether it is a mob |
| MobHeadVariantSetter.ApplyVariant | src/main/java/nu/nerd/utils/MobHeadVariantSetter.java:20-161 | a null entity or key changes nothing; otherwise the new state is the applied one, unless a villager branch raises, which leaves the entity as it was |
| MobHeadVariantSetter.SetEnumAttribute | src/main/java/nu/nerd/utils/MobHeadVariantSetter.java:27-74 | the entity's new state is the valueOf branch applied to the old one |
| MobHeadVariantSetter.SetRegistryAttribute | src/main/java/nu/nerd/utils/MobHeadVariantSetter.java:40-149 | raises exactly for an invalid villager key; otherwise the registry branch is applied to the lower-cased key |
| MobHeadVariantSetter.SetFlagAttribute | src/main/java/nu/nerd/utils/MobHeadVariantSetter.java:87-119 | the entity's new state is the bee, ghast or strider branch applied to the old one |
| MobHeadVariantSetter.DyeColorsAreUpperCase | src/main/java/nu/nerd/utils/MobHeadVariantSetter.java:36 | every DyeColor constant is upper case, so lower-casing it can be undone |
| MobHeadVariantSetter.ValueOfLowered | src/main/java/nu/nerd/utils/MobHeadVariantSetter.java:29 | valueOf finds a constant again from its lower-cased name |
| MobHeadVariantSetter.JebIsNotAColor | src/main/java/nu/nerd/utils/MobHeadVariantSetter.java:35-36 | no dye colour's token equals "jeb_" ignoring case |
| MobHeadVariantSetter.EnumRoundTrip | src/main/java/nu/nerd/utils/MobHeadVariantSetter.java:27-74 | for enum-backed kinds, applying the token read off a target makes the entity read the same token |
| MobHeadVariantSetter.RegistryRoundTrip | src/main/java/nu/nerd/utils/MobHeadVariantSetter.java:40-149 | for registry-backed kinds whose registry finds the value under its token, the token round-trips and nothing raises |
| MobHeadVariantSetter.BeeRoundTrip | src/main/java/nu/nerd/utils/MobHeadVariantSetter.java:87-91 | a bee's angry/calm token round-trips |
| MobHeadVariantSetter.StriderRoundTrip | src/main/java/nu/nerd/utils/MobHeadVariantSetter.java:115-119 | a strider's shivering/normal token round-trips |
| MobHeadVariantSetter.SheepRoundTrip | src/main/java/nu/nerd/utils/MobHeadVariantSetter.java:33-39 | a sheep's "jeb_" or colour token round-trips |
| MobHeadVariantSetter.ClassifierSetterRoundTrip | src/main/java/nu/nerd/utils/MobHeadVariantSetter.java:20-161 | for axolotls, mooshrooms, horses, foxes, pandas, rabbits, bees, striders and sheep, and for cats, frogs, calm wolves and villagers whose registry finds the value under its token: applying a target's token raises nothing and makes the entity read that token |
| MobHeadVariantSetter.GhastTokenDoesNotRoundTrip | src/main/java/nu/nerd/utils/MobHeadVariantSetter.java:92-97 | a charging ghast reads "charging", but applying "charging" un-charges it; only "shooting" charges |
| MobHeadVariantSetter.LlamaTokenDoesNotRoundTrip | src/main/java/nu/nerd/utils/MobHeadVariantSetter.java:61-67 | applying a llama's own token leaves the llama unchanged |
| MobHeadVariantSetter.WolfAngerIsNotSet | src/main/java/nu/nerd/utils/MobHeadVariantSetter.java:75-86 | no key changes whether a wolf is angry |
| MobHeadVariantSetter.SheepSetter | src/main/java/nu/nerd/utils/MobHeadVariantSetter.java:33-39 | "jeb_" (any case) names the sheep and keeps its colour; any other key leaves the name alone |
| MobHeadVariantSetter.NoOpKinds | src/main/java/nu/nerd/utils/MobHeadVariantSetter.java:112-114 | chickens, cows, pigs, parrots, snow golems and kinds with no branch are never changed |
| MobHeadVariantSetter.UnknownEnumNameChangesNothing | src/main/java/nu/nerd/utils/MobHeadVariantSetter.java:27-74 | a key whose upper-cased form is not a constant of the entity's own enum (and, for a sheep, is not "jeb_") leaves an enum-backed entity unchanged |
| MobHeadUtils.KeepProfileChars | src/main/java/nu/nerd/utils/MobHeadUtils.java:48 | the result holds only [A-Za-z0-9_] characters, all taken from the input, and is no longer than it |
| MobHeadUtils.SanitizePlain | src/main/java/nu/nerd/utils/MobHeadUtils.java:45-51 | the result is a valid profile name of 1 to 16 characters: the first 16 kept characters, or "MobHead" when none are kept |
| MobHeadUtils.SanitizeProfileName | src/main/java/nu/nerd/utils/MobHeadUtils.java:21-25 | null or empty gives "MobHead"; otherwise the plain text of the parsed MiniMessage name is sanitised |
| MobHeadUtils.SanitizeComponentName | src/main/java/nu/nerd/utils/MobHeadUtils.java:33-37 | null gives "MobHead"; otherwise the component's plain text is sanitised |
| MobHeadUtils.SanitizeIdempotent | src/main/java/nu/nerd/utils/MobHeadUtils.java:45-51 | sanitising twice is sanitising once |
| MobHeadUtils.SanitizeKeepsProfileNames | src/main/java/nu/nerd/utils/MobHeadUtils.java:45-51 | a valid name of 1 to 16 characters is left unchanged |
| MobHeadUtils.SanitizeIgnoresJunk | src/main/java/nu/nerd/utils/MobHeadUtils.java:48 | characters outside the alphabet never affect the result, wherever they stand |
| MobHeadUtils.SanitizeTruncatesProfileNames | src/main/java/nu/nerd/utils/MobHeadUtils.java:49 | a longer valid name keeps its first 16 characters |
| MobHeadUtils.SanitizeExampleSpace | src/main/java/nu/nerd/utils/MobHeadUtils.java:45-51 | "Fire Head" becomes "FireHead" |
| MobHeadUtils.SanitizeExampleFallback | src/main/java/nu/nerd/utils/MobHeadUtils.java:46-50 | "!!!" becomes "MobHead" |
| MobHeadFactory.ResolveSection | src/main/java/nu/nerd/MobHeadFactory.java:61-76 | the variant's section when it exists, otherwise the mob's base section |
| MobHeadFactory.Capitalize | src/main/java/nu/nerd/MobHeadFactory.java:184-187 | same length; only the first character is upper-cased |
| MobHeadFactory.LoreFor | src/main/java/nu/nerd/MobHeadFactory.java:104-105 | at most one line, and none exactly when itemstack.lore is empty or missing |
| MobHeadFactory.SoundData | src/main/java/nu/nerd/MobHeadFactory.java:114-120 | the head-sound key is stored iff a non-empty head-sound is configured, holding that text |
| MobHeadFactory.UntexturedHead | src/main/java/nu/nerd/MobHeadFactory.java:107-134 | a player head whose section has no texture carries the section's name, lore and sound data, and no profile |
| MobHeadFactory.HeadExistsIffSectionResolves | src/main/java/nu/nerd/MobHeadFactory.java:50-76 | null entity gives null; otherwise there is a head iff a section resolves |
| MobHeadFactory.VariantSectionWins | src/main/java/nu/nerd/MobHeadFactory.java:61-76 | an existing variant section is used in place of the base section |
| MobHeadFactory.DisplayNameChoice | src/main/java/nu/nerd/MobHeadFactory.java:87-95 | a non-empty configured display-name is used verbatim, otherwise the generated name |
| MobHeadFactory.GeneratedNameShape | src/main/java/nu/nerd/MobHeadFactory.java:87-95 | the generated name is "<Variant> <Mob> Head" or "<Mob> Head", with its length |
| MobHeadFactory.CapitalizeExamples | src/main/java/nu/nerd/MobHeadFactory.java:184-187 | "" stays "", "zombie" becomes "Zombie", "angry_pale" becomes "Angry_pale" |
| MobHeadFactory.MaterialDefaultsToPlayerHead | src/main/java/nu/nerd/MobHeadFactory.java:98-101 | the matched itemstack.type; PLAYER_HEAD when unmatched, and the default name when missing |
| MobHeadFactory.HeadContents | src/main/java/nu/nerd/MobHeadFactory.java:98-122 | the head has the resolved material; with item meta it carries the name, lore and sound data, otherwise nothing |
| MobHeadFactory.TextureOnlyOnPlayerHeads | src/main/java/nu/nerd/MobHeadFactory.java:125-132 | a profile is set iff the material is PLAYER_HEAD with a non-empty texture; its UUID comes from the texture and its name is a valid sanitised name |
| MobHeadFactory.ApplyTexture | src/main/java/nu/nerd/MobHeadFactory.java:147-156 | on a skull item, installs the textured profile and sets name and lore; other items are unchanged |
| MobHeadFactory.CreateHeadFor | src/main/java/nu/nerd/MobHeadFactory.java:50-135 | returns null iff the specification gives none; otherwise a fresh item equal to the specified head |
| MobHeadFactory.CreatePlayerHead | src/main/java/nu/nerd/MobHeadFactory.java:167-176 | a fresh PLAYER_HEAD named "<player> Head", with the certified lore line and the player's profile |
| MobDeathListener.OnEntityDeath | src/main/java/nu/nerd/MobDeathListener.java:44-102 | non-mobs and deaths without a player killer never drop, and every other outcome needs a mob killed by a player; the drop rule is `DropIffDrawBelowChance` |
| MobDeathListener.ListenerSectionIsFactorySection | src/main/java/nu/nerd/MobDeathListener.java:61-75 | the section the listener finds is the one the factory builds from, so a head is always built |
| MobDeathListener.DropIffDrawBelowChance | src/main/java/nu/nerd/MobDeathListener.java:78-101 | a configured mob killed by a player drops iff the draw is below base + level * bonus |
| MobDeathListener.DroppedHeadIsFactoryHead | src/main/java/nu/nerd/MobDeathListener.java:94-97 | the dropped item is the factory's head for the entity |
| MobDeathListener.NoFallbackToBaseSection | src/main/java/nu/nerd/MobDeathListener.java:61-75 | a variant without its own section drops nothing, even when the factory could fall back to the base |
| MobDeathListener.MissingChancesNeverDrop | src/main/java/nu/nerd/MobDeathListener.java:78-79 | with neither chance configured, no non-negative draw drops |
| MobDeathListener.LootingLevelCounts | src/main/java/nu/nerd/MobDeathListener.java:82-86 | the looting level is the main-hand level, or 0 when looting is not registered |
| MobDeathListener.DropIsMonotoneInLooting | src/main/java/nu/nerd/MobDeathListener.java:89-92 | with a non-negative bonus, a higher looting level never turns a drop into no drop |
| MobDeathListener.Clamp | src/main/java/nu/nerd/MobDeathListener.java:89 | the clamped chance is in [0, 1] and equal to the chance when it already is |
| MobDeathListener.ClampingIsImmaterial | src/main/java/nu/nerd/MobDeathListener.java:89-92 | for draws in [0, 1), comparing with the clamped chance decides the same |
| MobDeathListener.DrawNotBelowChanceFails | src/main/java/nu/nerd/MobDeathListener.java:89-103 | a draw at or above base + level * bonus fails the roll and reports that chance |
| MobDeathListener.ZombieScenarioDrops | src/main/java/nu/nerd/MobDeathListener.java:78-97 | base 0.05, bonus 0.02, Looting III and draw 0.05 drop a "Zombie Head" player head |
| MobDeathListener.ZombieScenarioMisses | src/main/java/nu/nerd/MobDeathListener.java:89-103 | the same zombie with draw 0.11 fails the roll at chance 0.11 |
| MobDeathListener.AngryPaleWolfScenario | src/main/java/nu/nerd/MobDeathListener.java:61-92 | an angry pale wolf uses its variant's chance 1.0, not the base's 0.0 |
| HeadPersistenceListener.KeysAreDistinct | src/main/java/nu/nerd/HeadPersistenceListener.java:73-77 | the five plugin keys and the "nerd:" read key are pairwise distinct |
| HeadPersistenceListener.IsSkullType | src/main/java/nu/nerd/HeadPersistenceListener.java:265-276 | true exactly for the fourteen materials whose meta is a SkullMeta |
| HeadPersistenceListener.CountCertified | src/main/java/nu/nerd/HeadPersistenceListener.java:189-190 | zero exactly when no lore line reads like the certification line |
| HeadPersistenceListener.NameLoreRecord | src/main/java/nu/nerd/HeadPersistenceListener.java:220-236 | name stored iff present, lore iff non-empty, as MiniMessage text joined with U+001F; no other key |
| HeadPersistenceListener.FirstTextures | src/main/java/nu/nerd/HeadPersistenceListener.java:114-117 | the value of the first "textures" property, present iff one exists |
| HeadPersistenceListener.PlaceRecord | src/main/java/nu/nerd/HeadPersistenceListener.java:104-120 | material name, name and lore entries, and the texture iff the profile has one; never the flag or the "nerd:" key |
| HeadPersistenceListener.SaveDisplayNameAndLore | src/main/java/nu/nerd/HeadPersistenceListener.java:220-236 | the container gains exactly the name and lore entries |
| HeadPersistenceListener.OnHeadPlace | src/main/java/nu/nerd/HeadPersistenceListener.java:91-137 | for a skull item placed as a Skull, the container gains exactly the place record; otherwise nothing changes |
| HeadPersistenceListener.DropMaterial | src/main/java/nu/nerd/HeadPersistenceListener.java:158-165 | with no stored material, the block's own type |
| HeadPersistenceListener.CollectLore | src/main/java/nu/nerd/HeadPersistenceListener.java:182-184 | the lines deserialised one by one, in order |
| HeadPersistenceListener.OnHeadBreak | src/main/java/nu/nerd/HeadPersistenceListener.java:148-212 | non-skull blocks drop nothing of the plugin's; otherwise a fresh item equal to the restored head, or none when the material has no SkullMeta |
| HeadPersistenceListener.MaterialComesFromBlock | src/main/java/nu/nerd/HeadPersistenceListener.java:105-160 | after a place, the dropped material is always the broken block's type |
| HeadPersistenceListener.BreakDropsSkullsOnly | src/main/java/nu/nerd/HeadPersistenceListener.java:167-169 | a head drops iff the drop material has a SkullMeta, and it has that material |
| HeadPersistenceListener.CertificationAppendedIff | src/main/java/nu/nerd/HeadPersistenceListener.java:189-197 | the line and the flag are added iff no line reads like it and the block has no flag; otherwise the lore is as stored |
| HeadPersistenceListener.CertificationAddsAtMostOne | src/main/java/nu/nerd/HeadPersistenceListener.java:189-197 | the restored lore has one certification line if one was added, else as many as stored |
| HeadPersistenceListener.LoreRoundTrip | src/main/java/nu/nerd/HeadPersistenceListener.java:179-235 | when MiniMessage reads back what it wrote, joining then splitting and deserialising gives back any lore whose serialised lines hold no U+001F and whose last line is not empty |
| HeadPersistenceListener.TrailingEmptyLoreLineIsLost | src/main/java/nu/nerd/HeadPersistenceListener.java:179-235 | a last lore line serialised to the empty string is dropped by the record |
| HeadPersistenceListener.DelimiterSplitsLoreLine | src/main/java/nu/nerd/HeadPersistenceListener.java:179-235 | a line whose serialisation holds U+001F once is stored and read back as two lines |
| HeadPersistenceListener.DelimiterCanDuplicateCertification | src/main/java/nu/nerd/HeadPersistenceListener.java:179-197 | one lore line split by U+001F into two certification-like halves breaks into a head with two certification lines |
| HeadPersistenceListener.EmptyNameIsLost | src/main/java/nu/nerd/HeadPersistenceListener.java:173-176 | a name serialised to the empty string is restored as no name |
| HeadPersistenceListener.PlaceBreakKeepsLore | src/main/java/nu/nerd/HeadPersistenceListener.java:91-212 | for storable lore, place then break gives the lore back, appending the certification line only when missing, with the resulting count |
| HeadPersistenceListener.PlaceBreakRoundTrip | src/main/java/nu/nerd/HeadPersistenceListener.java:91-212 | for a storable name and lore, place then break keeps both, appending the certification line only when missing |
| HeadPersistenceListener.PlaceBreakAlwaysCertified | src/main/java/nu/nerd/HeadPersistenceListener.java:188-197 | for any codec and any lore, a head broken after a place carries at least one certification line |
| HeadPersistenceListener.RestoredProfile | src/main/java/nu/nerd/HeadPersistenceListener.java:245-251 | the profile carries exactly the texture property, a UUID derived from the texture and a valid profile name of 1 to 16 characters |
| HeadPersistenceListener.TextureRoundTrip | src/main/java/nu/nerd/HeadPersistenceListener.java:110-251 | a textured player head keeps its texture, with a UUID derived from it and a valid profile name |
| HeadPersistenceListener.WallHeadLosesTexture | src/main/java/nu/nerd/HeadPersistenceListener.java:159-200 | a head placed on a wall drops as PLAYER_WALL_HEAD without a texture |
| HeadPersistenceListener.CycleCertifiesOnce | src/main/java/nu/nerd/HeadPersistenceListener.java:91-212 | for storable lore, one cycle makes the certification count at least one and otherwise keeps it, and the lore stays storable when the certification line is |
| HeadPersistenceListener.RepeatedCyclesCertifyOnce | src/main/java/nu/nerd/HeadPersistenceListener.java:189-197 | for storable lore and a storable certification line, after any number of cycles a head certified at most once carries the line exactly once |
| MobHeadCommand.PlayerExact | src/main/java/nu/nerd/commands/MobHeadCommand.java:88 | an online player whose name equals the argument ignoring case, none iff no such player |
| MobHeadCommand.PlayerExactIgnoresCase | src/main/java/nu/nerd/commands/MobHeadCommand.java:88 | the player lookup gives the same answer for names equal up to case |
| MobHeadCommand.HandleGiveSubcommand | src/main/java/nu/nerd/commands/MobHeadCommand.java:77-161 | the outcome of assigning target, drop and variant, then validating, equals the specification |
| MobHeadCommand.OnCommand | src/main/java/nu/nerd/commands/MobHeadCommand.java:31-68 | no arguments lists iff permitted; "give" (any case) gives the give outcome iff the give permission is held, else refuses; "list" lists iff the list permission is held, else refuses; other subcommands are unknown |
| MobHeadCommand.ShortGivePrintsUsage | src/main/java/nu/nerd/commands/MobHeadCommand.java:78-81 | fewer than two arguments print the usage |
| MobHeadCommand.TargetDisambiguation | src/main/java/nu/nerd/commands/MobHeadCommand.java:88-103 | args[1] is the target iff it names an online player and a drop follows; otherwise the sender is the target and the console is refused |
| MobHeadCommand.GivenOnlyWhenConfigured | src/main/java/nu/nerd/commands/MobHeadCommand.java:105-147 | a head is given only when the upper-cased drop and the lower-cased variant exist, and it is the factory's head for the fake entity |
| MobHeadCommand.MissingConfigGivesNothing | src/main/java/nu/nerd/commands/MobHeadCommand.java:108-128 | a missing drops section, drop or variants section gives its own error |
| MobHeadCommand.GiveRequestedIgnoresCase | src/main/java/nu/nerd/commands/MobHeadCommand.java:105-106 | requests equal after key normalisation give the same head |
| MobHeadCommand.GiveIgnoresCase | src/main/java/nu/nerd/commands/MobHeadCommand.java:88-106 | the case of the arguments after "give" changes neither whether a head is given nor which |
| MobHeadCommand.Completions | src/main/java/nu/nerd/commands/MobHeadCommand.java:191-194 | sorted, and holding each candidate that starts with the input ignoring case as often as the candidates do, and nothing else |
| MobHeadCommand.AddAll | src/main/java/nu/nerd/commands/MobHeadCommand.java:207-215 | forEach(add) appends the elements in order |
| MobHeadCommand.SuggestTargetsAndDrops | src/main/java/nu/nerd/commands/MobHeadCommand.java:198-219 | the filled list is the sorted players followed by the sorted drop keys |
| MobHeadCommand.OnTabComplete | src/main/java/nu/nerd/commands/MobHeadCommand.java:184-273 | no arguments give no suggestions; every suggestion starts with the argument being completed, ignoring case |
| MobHeadCommand.TargetsAndDrops | src/main/java/nu/nerd/commands/MobHeadCommand.java:198-219 | exactly the online players and drop keys that start with the input, ignoring case |
| MobHeadCommand.ThirdArgument | src/main/java/nu/nerd/commands/MobHeadCommand.java:224-249 | every suggestion for the third argument starts with it, ignoring case |
| MobHeadCommand.FourthArgument | src/main/java/nu/nerd/commands/MobHeadCommand.java:253-270 | nothing without an online player; after one, sorted and holding exactly the variant keys of the upper-cased drop that start with the fourth argument, ignoring case |
| MobHeadCommand.CompletionsLength | src/main/java/nu/nerd/commands/MobHeadCommand.java:191-194 | filtering and sorting never adds candidates |
| MobHeadCommand.SubcommandCompletion | src/main/java/nu/nerd/commands/MobHeadCommand.java:190-195 | the first argument completes to "give" if it matches, followed by "list" if it matches |
| MobHeadCommand.EmptyInputOffersBoth | src/main/java/nu/nerd/commands/MobHeadCommand.java:190-195 | an empty first argument completes to ["give", "list"] |
| MobHeadCommand.PlayersThenDrops | src/main/java/nu/nerd/commands/MobHeadCommand.java:198-219 | the second argument completes to the matching players, sorted, followed at the index of their count by the matching drop keys, sorted, each with its multiplicity |
| MobHeadCommand.ThirdArgumentCompletion | src/main/java/nu/nerd/commands/MobHeadCommand.java:224-249 | after a player, drop keys; otherwise the variants of the upper-cased drop; nothing without a drops section |
| MobHeadCommand.EmptyCompletions | src/main/java/nu/nerd/commands/MobHeadCommand.java:253-272 | empty for no or more than four arguments, for a first argument other than give, and for four arguments without a player |
| NoteblockHeadSoundListener.IsHead | src/main/java/nu/nerd/NoteblockHeadSoundListener.java:68-76 | only skull materials count, and no wall form does |
| NoteblockHeadSoundListener.VariantMatch | src/main/java/nu/nerd/NoteblockHeadSoundListener.java:115-127 | no match iff no variant matches; a match is the first matching variant in key order |
| NoteblockHeadSoundListener.DropsMatch | src/main/java/nu/nerd/NoteblockHeadSoundListener.java:103-129 | no match iff no mob section matches; a match is the first matching mob in key order |
| NoteblockHeadSoundListener.FindVariantSound | src/main/java/nu/nerd/NoteblockHeadSoundListener.java:117-127 | the inner loop returns the first-match specification |
| NoteblockHeadSoundListener.GetHeadSoundFromConfig | src/main/java/nu/nerd/NoteblockHeadSoundListener.java:79-133 | the nested loops with early returns compute the first-match specification |
| NoteblockHeadSoundListener.OnNoteBlockPlay | src/main/java/nu/nerd/NoteblockHeadSoundListener.java:28-65 | a sound plays only under a PLAYER_HEAD Skull, and then it is the configured lookup |
| NoteblockHeadSoundListener.MissingInputsFindNothing | src/main/java/nu/nerd/NoteblockHeadSoundListener.java:80-100 | no profile, no skin URL or no drops section finds nothing |
| NoteblockHeadSoundListener.RootCheckedBeforeVariants | src/main/java/nu/nerd/NoteblockHeadSoundListener.java:107-112 | a mob whose own URL matches gives its own head-sound, whatever its variants say |
| NoteblockHeadSoundListener.VariantMatchGivesVariantSound | src/main/java/nu/nerd/NoteblockHeadSoundListener.java:115-127 | otherwise a match comes from a variant whose URL matches, with that variant's head-sound |
| NoteblockHeadSoundListener.FirstMatchDecides | src/main/java/nu/nerd/NoteblockHeadSoundListener.java:103-112 | the first matching mob in key order decides, even when its head-sound is missing |
| NoteblockHeadSoundListener.NoMatchNoSound | src/main/java/nu/nerd/NoteblockHeadSoundListener.java:50-132 | with no matching URL nothing is found and nothing plays |
| Text.Sort | src/main/java/nu/nerd/commands/MobHeadCommand.java:193 | the result is sorted by code-point order and is a permutation of the input |
| Text.SortedPermutationIsUnique | src/main/java/nu/nerd/commands/MobHeadCommand.java:193 | two sorted permutations of each other are equal, so any correct sort gives the modelled result |
| Text.SortPair | src/main/java/nu/nerd/commands/MobHeadCommand.java:193 | two strings given out of order come back from the sort swapped |
| Text.WithPrefix | src/main/java/nu/nerd/commands/MobHeadCommand.java:192 | keeps exactly the elements starting with the input ignoring case, with their multiplicities |
| Text.SplitJoin | src/main/java/nu/nerd/HeadPersistenceListener.java:182-232 | splitting a join of delimiter-free parts, the last one non-empty, gives the parts back |
| Text.SplitJoinDropsTrailingEmpty | src/main/java/nu/nerd/HeadPersistenceListener.java:182 | splitting delimiter-free parts joined with a trailing empty part gives the parts without it, as String.split does |
| Text.SameLowerSameUpper | src/main/java/nu/nerd/commands/MobHeadCommand.java:105 | strings equal ignoring case upper-case to the same key |

## Left out

- Logging, the `debug` flag and every chat message are left out; outcomes are datatypes instead of messages.
- Sounds played, items dropped into the world and inventory `addItem` are left out. The outcome names the item and its recipient.
- `onCommand` always returns true, so the model keeps only the reply.
- `Math.random()` is a parameter `draw`. Chances are real numbers, not IEEE doubles, so rounding in `base + level * bonus` is not modelled.
- MiniMessage, plain-text serialisation, `Material.matchMaterial`/`valueOf`, `UUID.nameUUIDFromBytes` (MD5), `Bukkit.getOfflinePlayer` and profile texture decoding are uninterpreted functions. Where a round-trip needs MiniMessage to read back what it wrote, a lemma takes that as a precondition (`LosslessCodec`). What else a round-trip needs of the text is a precondition on the item itself (`StorableLore`, `StorableName`, `CertifiedLineStorable`). The lemmas above show what is lost when it fails.
- Bukkit registries (cat, wolf and frog variants, villager professions, the looting enchantment), `Bukkit.getPlayerExact` and the online-player list are inputs. `getPlayerExact` is modelled as the first case-insensitive match.
- `MobHeadUtils.createFakeEntity` is called by the command but is not part of this model; it is an input function (`EntityFactory`).
- Case mapping and `equalsIgnoreCase` cover ASCII letters only. Java's Unicode case rules are not modelled.
- Configuration sections with a repeated key stand for no configuration the plugin can load; on such a tree the model looks up the first entry and lists every key, repeats included.
- Configuration paths are sequences of keys. A key that itself contains `.` is not split into further path segments.
- `getString` of a value that is not text is read as absent, where Bukkit would print the value.
- `GetStringDatum`: `container.get(key, STRING)` on a value stored with another type throws `IllegalArgumentException` in Bukkit; the model reads it as absent. The listener itself stores only strings under the name, lore, material and texture keys, so only data written by other code differs.
- `LexLe`: `String.compareTo` compares UTF-16 code units, while the model compares Unicode code points. The two orders differ only between characters above U+FFFF and characters from U+E000 to U+FFFF.
- `listMobHeads`, `MobHeadListCommand`, `CustomDrops` (plugin start-up and registration) and `BoltHook` are left out. They only format chat or register listeners.
- `skull.update(true)`, `event.setDropItems(false)` and the copy-back of item meta are implicit: the model's skull and item are the stored state.
- `Material.valueOf` on a stored material name that is not a skull material would make the `(SkullMeta)` cast throw. The model treats that as no drop (`RestoredHead` is None), as when the meta is null.
- Bukkit enum constants (DyeColor, Horse.Color, Llama.Color, Fox.Type, Panda.Gene, Rabbit.Type, Axolotl.Variant, MushroomCow.Variant) are written out as of the Paper API the plugin builds against.
