/**
 * MobHeadCommand: the /mobhead command. `list` shows the configured heads,
 * `give [player] <drop> [variant]` hands out a head built by MobHeadFactory,
 * and tab completion suggests subcommands, online players, drop keys and
 * variant keys.
 */
module MobHeadCommand {
  import opened Wrappers
  import opened Host
  import opened Text
  import opened ConfigTree
  import opened Entities
  import opened MobHeadFactory

  const ListPermission := "nerdnucustomdrops.mobhead.list"
  const GivePermission := "nerdnucustomdrops.mobhead.give"

  /** Who ran the command: a player (by name) or the console. */
  datatype Sender = PlayerSender(name: string) | ConsoleSender

  /** MobHeadUtils.createFakeEntity(dropKey[, variantKey]): an oracle; None where it returns null. */
  type EntityFactory = (string, Option<string>) -> Option<EntitySnapshot>

  /** What /mobhead give did. Only Given hands out an item. */
  datatype GiveOutcome =
    | Usage
    | ConsoleMustSpecify
    | NoDropsSection
    | NoDrop(dropArg: string)
    | NoVariant(dropArg: string, variantArg: string)
    | EntityFailed(dropArg: string)
    | HeadFailed(dropArg: string)
    | Given(target: string, head: ItemIdentity)

  /** What /mobhead did. Every path of onCommand returns true, so only the reply is kept. */
  datatype Reply =
    | ListHeads
    | NoListPermission
    | NoGivePermission
    | UnknownSubcommand
    | GiveReply(outcome: GiveOutcome)

  /** Bukkit.getPlayerExact: the first online player whose name equals the argument, ignoring case. */
  function PlayerExact(online: seq<string>, name: string): (r: Option<string>)
    ensures r.Some? ==> r.value in online && EqualsIgnoreCase(r.value, name)
    ensures r.None? <==> forall n :: n in online ==> !EqualsIgnoreCase(n, name)
  {
    if online == [] then None
    else if EqualsIgnoreCase(online[0], name) then Some(online[0])
    else
      assert online == [online[0]] + online[1..];
      PlayerExact(online[1..], name)
  }

  /** The lookup only sees the name's lower-cased form. */
  lemma {:induction false} PlayerExactIgnoresCase(online: seq<string>, a: string, b: string)
    requires EqualsIgnoreCase(a, b)
    ensures PlayerExact(online, a) == PlayerExact(online, b)
  {
    if online != [] {
      PlayerExactIgnoresCase(online[1..], a, b);
    }
  }

  // ---------------------------------------------------------------------------
  // /mobhead give
  // ---------------------------------------------------------------------------

  /** The target player, drop argument and optional variant argument of a give command. */
  datatype GiveRequest = GiveRequest(target: string, dropArg: string, variantArg: Option<string>)

  /**
   * Reads args[1] as a player only when it names an online player and a drop
   * follows; otherwise the sender is the target, which the console cannot be.
   */
  function ParseGive(sender: Sender, online: seq<string>, args: seq<string>): Option<GiveRequest>
    requires |args| >= 2
  {
    var possiblePlayer := PlayerExact(online, args[1]);
    if possiblePlayer.Some? && |args| >= 3 then
      Some(GiveRequest(possiblePlayer.value, args[2], if |args| >= 4 then Some(args[3]) else None))
    else if sender.ConsoleSender? then None
    else
      Some(GiveRequest(sender.name, args[1], if |args| >= 3 then Some(args[2]) else None))
  }

  /** handleGiveSubcommand's result for a parsed request. */
  function GiveRequested(server: Server, config: Node, createEntity: EntityFactory, req: GiveRequest): GiveOutcome {
    var dropKey := Upper(req.dropArg);
    var variantKey := if req.variantArg.Some? then Some(Lower(req.variantArg.value)) else None;
    var drops := GetSection(config, ["drops"]);
    if drops.None? then NoDropsSection
    else
      var dropSection := GetSection(drops.value, [dropKey]);
      if dropSection.None? then NoDrop(req.dropArg)
      else
        var variants := GetSection(dropSection.value, ["variants"]);
        if variantKey.Some? && (variants.None? || !Contains(variants.value, [variantKey.value])) then
          NoVariant(req.dropArg, req.variantArg.value)
        else
          var entity := createEntity(dropKey, variantKey);
          if entity.None? then EntityFailed(req.dropArg)
          else
            var head := HeadFor(server, config, entity);
            if head.None? then HeadFailed(req.dropArg)
            else Given(req.target, head.value)
  }

  /** handleGiveSubcommand: usage, then target parsing, then validation and creation. */
  function GiveOutcomeFor(server: Server, config: Node, sender: Sender, online: seq<string>,
                          createEntity: EntityFactory, args: seq<string>): GiveOutcome
  {
    if |args| < 2 then Usage
    else
      match ParseGive(sender, online, args)
      case None => ConsoleMustSpecify
      case Some(req) => GiveRequested(server, config, createEntity, req)
  }

  /** handleGiveSubcommand as the source writes it: the locals target, dropArg and variantArg are assigned, then checked. */
  method HandleGiveSubcommand(server: Server, config: Node, sender: Sender, online: seq<string>,
                              createEntity: EntityFactory, args: seq<string>) returns (outcome: GiveOutcome)
    ensures outcome == GiveOutcomeFor(server, config, sender, online, createEntity, args)
  {
    if |args| < 2 {
      return Usage;
    }
    var target: string;
    var dropArg: string;
    var variantArg: Option<string> := None;
    var possiblePlayer := PlayerExact(online, args[1]);
    if possiblePlayer.Some? && |args| >= 3 {
      target := possiblePlayer.value;
      dropArg := args[2];
      if |args| >= 4 {
        variantArg := Some(args[3]);
      }
    } else {
      if sender.ConsoleSender? {
        return ConsoleMustSpecify;
      }
      target := sender.name;
      dropArg := args[1];
      if |args| >= 3 {
        variantArg := Some(args[2]);
      }
    }
    assert ParseGive(sender, online, args) == Some(GiveRequest(target, dropArg, variantArg));

    var dropKey := Upper(dropArg);
    var variantKey := if variantArg.Some? then Some(Lower(variantArg.value)) else None;
    var dropsSection := GetSection(config, ["drops"]);
    if dropsSection.None? {
      return NoDropsSection;
    }
    var dropSection := GetSection(dropsSection.value, [dropKey]);
    if dropSection.None? {
      return NoDrop(dropArg);
    }
    if variantKey.Some? {
      var variants := GetSection(dropSection.value, ["variants"]);
      if variants.None? || !Contains(variants.value, [variantKey.value]) {
        return NoVariant(dropArg, variantArg.value);
      }
    }
    var fakeEntity := createEntity(dropKey, variantKey);
    if fakeEntity.None? {
      return EntityFailed(dropArg);
    }
    var head := HeadFor(server, config, fakeEntity);
    if head.None? {
      return HeadFailed(dropArg);
    }
    return Given(target, head.value);
  }

  /**
   * onCommand: no arguments lists; otherwise the lower-cased first argument picks
   * give or list. Listing needs the list permission, giving the give permission;
   * anything else is an unknown subcommand.
   */
  function OnCommand(server: Server, config: Node, sender: Sender, permissions: set<string>, online: seq<string>,
                     createEntity: EntityFactory, args: seq<string>): (r: Reply)
    ensures args == [] ==> r in {ListHeads, NoListPermission} && (r == ListHeads <==> ListPermission in permissions)
    ensures r == ListHeads ==> ListPermission in permissions
    ensures r.GiveReply? ==> GivePermission in permissions && |args| > 0 && EqualsIgnoreCase(args[0], "give")
    ensures |args| > 0 && EqualsIgnoreCase(args[0], "give") ==>
      r == if GivePermission in permissions then GiveReply(GiveOutcomeFor(server, config, sender, online, createEntity, args))
           else NoGivePermission
    ensures |args| > 0 && EqualsIgnoreCase(args[0], "list") ==> (r == ListHeads <==> ListPermission in permissions)
    ensures |args| > 0 && EqualsIgnoreCase(args[0], "list") ==> r in {ListHeads, NoListPermission}
    ensures |args| > 0 && !EqualsIgnoreCase(args[0], "give") && !EqualsIgnoreCase(args[0], "list") ==> r == UnknownSubcommand
  {
    assert Lower("give") == "give" && Lower("list") == "list";
    if |args| == 0 then
      if ListPermission in permissions then ListHeads else NoListPermission
    else
      var subcommand := Lower(args[0]);
      if subcommand == "give" then
        if GivePermission in permissions then GiveReply(GiveOutcomeFor(server, config, sender, online, createEntity, args))
        else NoGivePermission
      else if subcommand == "list" then
        if ListPermission in permissions then ListHeads else NoListPermission
      else UnknownSubcommand
  }

  /** Fewer than two arguments print the usage and give nothing. */
  lemma ShortGivePrintsUsage(server: Server, config: Node, sender: Sender, online: seq<string>,
                             createEntity: EntityFactory, args: seq<string>)
    requires |args| < 2
    ensures GiveOutcomeFor(server, config, sender, online, createEntity, args) == Usage
  {
  }

  /**
   * args[1] is the target exactly when it names an online player and a drop
   * follows; otherwise a player sender is the target and the console is refused.
   */
  lemma TargetDisambiguation(sender: Sender, online: seq<string>, args: seq<string>)
    requires |args| >= 2
    ensures var r := ParseGive(sender, online, args);
      && (PlayerExact(online, args[1]).Some? && |args| >= 3 ==>
            r == Some(GiveRequest(PlayerExact(online, args[1]).value, args[2], if |args| >= 4 then Some(args[3]) else None)))
      && (!(PlayerExact(online, args[1]).Some? && |args| >= 3) ==>
            (r.None? <==> sender.ConsoleSender?) &&
            (sender.PlayerSender? ==> r == Some(GiveRequest(sender.name, args[1], if |args| >= 3 then Some(args[2]) else None))))
      && (r.Some? ==> r.value.target in online || (sender.PlayerSender? && r.value.target == sender.name))
  {
  }

  /**
   * A head is given only when the drops section, the upper-cased drop and (if
   * named) the lower-cased variant exist, and then it is the factory's head for
   * the entity created from those keys.
   */
  lemma GivenOnlyWhenConfigured(server: Server, config: Node, createEntity: EntityFactory, req: GiveRequest)
    ensures var r := GiveRequested(server, config, createEntity, req);
      r.Given? ==>
        && r.target == req.target
        && GetSection(config, ["drops"]).Some?
        && GetSection(config, ["drops", Upper(req.dropArg)]).Some?
        && (req.variantArg.Some? ==>
              Contains(config, ["drops", Upper(req.dropArg), "variants", Lower(req.variantArg.value)]))
        && var variantKey := if req.variantArg.Some? then Some(Lower(req.variantArg.value)) else None;
           createEntity(Upper(req.dropArg), variantKey).Some? &&
           Some(r.head) == HeadFor(server, config, createEntity(Upper(req.dropArg), variantKey))
  {
    var r := GiveRequested(server, config, createEntity, req);
    if r.Given? {
      var drops := GetSection(config, ["drops"]).value;
      GetAppend(config, ["drops"], [Upper(req.dropArg)]);
      assert ["drops"] + [Upper(req.dropArg)] == ["drops", Upper(req.dropArg)];
      if req.variantArg.Some? {
        var v := Lower(req.variantArg.value);
        var dropSection := GetSection(drops, [Upper(req.dropArg)]).value;
        var variants := GetSection(dropSection, ["variants"]).value;
        GetAppend(config, ["drops", Upper(req.dropArg)], ["variants"]);
        assert ["drops", Upper(req.dropArg)] + ["variants"] == ["drops", Upper(req.dropArg), "variants"];
        GetAppend(config, ["drops", Upper(req.dropArg), "variants"], [v]);
        assert ["drops", Upper(req.dropArg), "variants"] + [v] == ["drops", Upper(req.dropArg), "variants", v];
      }
    }
  }

  /** Each failed check reports its own error and gives nothing. */
  lemma MissingConfigGivesNothing(server: Server, config: Node, createEntity: EntityFactory, req: GiveRequest)
    ensures GetSection(config, ["drops"]).None? ==>
      GiveRequested(server, config, createEntity, req) == NoDropsSection
    ensures GetSection(config, ["drops"]).Some? && GetSection(GetSection(config, ["drops"]).value, [Upper(req.dropArg)]).None? ==>
      GiveRequested(server, config, createEntity, req) == NoDrop(req.dropArg)
    ensures (GetSection(config, ["drops"]).Some? && GetSection(GetSection(config, ["drops"]).value, [Upper(req.dropArg)]).Some? &&
             req.variantArg.Some? &&
             GetSection(GetSection(GetSection(config, ["drops"]).value, [Upper(req.dropArg)]).value, ["variants"]).None?) ==>
      GiveRequested(server, config, createEntity, req) == NoVariant(req.dropArg, req.variantArg.value)
  {
  }

  /** Two requests for the same target and the same normalised keys give the same head, if any. */
  lemma GiveRequestedIgnoresCase(server: Server, config: Node, createEntity: EntityFactory, req: GiveRequest, req': GiveRequest)
    requires req.target == req'.target && Upper(req.dropArg) == Upper(req'.dropArg)
    requires req.variantArg.Some? <==> req'.variantArg.Some?
    requires req.variantArg.Some? ==> Lower(req.variantArg.value) == Lower(req'.variantArg.value)
    ensures var r := GiveRequested(server, config, createEntity, req);
      var r' := GiveRequested(server, config, createEntity, req');
      (r.Given? <==> r'.Given?) && (r.Given? ==> r == r')
  {
  }

  /**
   * The arguments after "give" are read without regard to case: the player
   * lookup ignores case, drops are upper-cased and variants lower-cased, so
   * changing their case changes neither whether a head is given nor which.
   */
  lemma GiveIgnoresCase(server: Server, config: Node, sender: Sender, online: seq<string>,
                        createEntity: EntityFactory, args: seq<string>, args': seq<string>)
    requires |args| == |args'|
    requires forall i :: 1 <= i < |args| ==> EqualsIgnoreCase(args[i], args'[i])
    ensures var r := GiveOutcomeFor(server, config, sender, online, createEntity, args);
      var r' := GiveOutcomeFor(server, config, sender, online, createEntity, args');
      (r.Given? <==> r'.Given?) && (r.Given? ==> r == r')
  {
    if |args| >= 2 {
      assert EqualsIgnoreCase(args[1], args'[1]);
      PlayerExactIgnoresCase(online, args[1], args'[1]);
      var req := ParseGive(sender, online, args);
      var req' := ParseGive(sender, online, args');
      assert req.Some? <==> req'.Some?;
      if req.Some? {
        var q, q' := req.value, req'.value;
        assert q.target == q'.target;
        assert EqualsIgnoreCase(q.dropArg, q'.dropArg);
        SameLowerSameUpper(q.dropArg, q'.dropArg);
        assert q.variantArg.Some? <==> q'.variantArg.Some?;
        if q.variantArg.Some? {
          assert EqualsIgnoreCase(q.variantArg.value, q'.variantArg.value);
        }
        GiveRequestedIgnoresCase(server, config, createEntity, q, q');
      }
    }
  }

  // ---------------------------------------------------------------------------
  // Tab completion
  // ---------------------------------------------------------------------------

  /** The candidates that start with the input, ignoring case, sorted. */
  function Completions(candidates: seq<string>, input: string): (r: seq<string>)
    ensures IsSorted(r)
    ensures forall x :: x in r <==> x in candidates && StartsWithIgnoreCase(x, input)
    ensures forall x :: multiset(r)[x] == if StartsWithIgnoreCase(x, input) then multiset(candidates)[x] else 0
  {
    var r := Sort(WithPrefix(candidates, input));
    assert forall x :: x in r <==> x in multiset(WithPrefix(candidates, input));
    r
  }

  lemma NoCandidatesNoCompletions(input: string)
    ensures Completions([], input) == []
  {
    assert WithPrefix([], input) == [];
  }

  /** The keys of the drops section, none when it is missing. */
  function DropKeys(config: Node): seq<string> {
    match GetSection(config, ["drops"])
    case Some(drops) => Keys(drops)
    case None => []
  }

  /** The variant keys under the drop's section, none when either is missing. */
  function VariantKeys(drops: Node, dropKey: string): seq<string> {
    match GetSection(drops, [dropKey])
    case None => []
    case Some(dropSection) =>
      match GetSection(dropSection, ["variants"])
      case Some(variants) => Keys(variants)
      case None => []
  }

  /** The second argument of give: matching online players, sorted, then matching drop keys, sorted. */
  function TargetsAndDrops(online: seq<string>, config: Node, input: string): (r: seq<string>)
    ensures forall s :: s in r <==> (s in online || s in DropKeys(config)) && StartsWithIgnoreCase(s, input)
    ensures AllStartWith(r, input)
  {
    Completions(online, input) + Completions(DropKeys(config), input)
  }

  /** forEach(suggestions::add): appends the elements one at a time, in order. */
  method AddAll(suggestions: seq<string>, xs: seq<string>) returns (r: seq<string>)
    ensures r == suggestions + xs
  {
    r := suggestions;
    var i := 0;
    while i < |xs|
      invariant 0 <= i <= |xs|
      invariant r == suggestions + xs[..i]
    {
      assert xs[..i + 1] == xs[..i] + [xs[i]];
      r := r + [xs[i]];
      i := i + 1;
    }
    assert xs[..|xs|] == xs;
  }

  /** The 2-argument branch as the source writes it: one list filled with players, then with drops. */
  method SuggestTargetsAndDrops(online: seq<string>, config: Node, input: string) returns (suggestions: seq<string>)
    ensures suggestions == TargetsAndDrops(online, config, input)
  {
    var a := Completions(online, input);
    suggestions := [];
    suggestions := AddAll(suggestions, a);
    assert suggestions == a;
    var drops := GetSection(config, ["drops"]);
    if drops.Some? {
      var b := Completions(Keys(drops.value), input);
      assert DropKeys(config) == Keys(drops.value);
      assert TargetsAndDrops(online, config, input) == a + b;
      suggestions := AddAll(suggestions, b);
    } else {
      assert DropKeys(config) == [];
      NoCandidatesNoCompletions(input);
      assert TargetsAndDrops(online, config, input) == a + [];
      assert a + [] == a;
    }
  }

  /** The subcommands offered for the first argument. */
  const Subcommands: seq<string> := ["list", "give"]

  /** The third argument of give: drop keys after a player, else the variant keys of the drop named by args[1]. */
  function ThirdArgument(online: seq<string>, drops: Node, first: string, input: string): (r: seq<string>)
    ensures AllStartWith(r, input)
  {
    if PlayerExact(online, first).Some? then Completions(Keys(drops), input)
    else Completions(VariantKeys(drops, Upper(first)), input)
  }

  /** Every suggestion starts with the input, ignoring case. */
  predicate AllStartWith(suggestions: seq<string>, input: string) {
    forall s :: s in suggestions ==> StartsWithIgnoreCase(s, input)
  }

  /** The fourth argument of give: the variant keys of the drop, only after a player. */
  function FourthArgument(online: seq<string>, drops: Node, first: string, dropKey: string, input: string): (r: seq<string>)
    ensures AllStartWith(r, input)
    ensures PlayerExact(online, first).None? ==> r == []
    ensures PlayerExact(online, first).Some? ==>
      IsSorted(r) && forall x :: x in r <==> x in VariantKeys(drops, Upper(dropKey)) && StartsWithIgnoreCase(x, input)
  {
    if PlayerExact(online, first).None? then []
    else Completions(VariantKeys(drops, Upper(dropKey)), input)
  }

  /** onTabComplete: suggestions for the last argument, each starting with it, ignoring case. */
  function OnTabComplete(online: seq<string>, config: Node, args: seq<string>): (r: seq<string>)
    ensures args == [] ==> r == []
    ensures args != [] ==> AllStartWith(r, args[|args| - 1])
  {
    if |args| == 1 then Completions(Subcommands, args[0])
    else if |args| < 2 || |args| > 4 || !EqualsIgnoreCase(args[0], "give") then []
    else if |args| == 2 then
      assert args[|args| - 1] == args[1];
      TargetsAndDrops(online, config, args[1])
    else
      var drops := GetSection(config, ["drops"]);
      if drops.None? then []
      else if |args| == 3 then
        assert args[|args| - 1] == args[2];
        ThirdArgument(online, drops.value, args[1], args[2])
      else
        assert args[|args| - 1] == args[3];
        FourthArgument(online, drops.value, args[1], args[2], args[3])
  }

  lemma SecondArgumentCompletion(online: seq<string>, config: Node, args: seq<string>)
    requires |args| == 2 && EqualsIgnoreCase(args[0], "give")
    ensures OnTabComplete(online, config, args) ==
      Completions(online, args[1]) + Completions(DropKeys(config), args[1])
  {
  }

  /** Filtering and sorting never adds candidates. */
  lemma CompletionsLength(candidates: seq<string>, input: string)
    ensures |Completions(candidates, input)| <= |candidates|
  {
    var w := WithPrefix(candidates, input);
    assert |Sort(w)| == |multiset(Sort(w))| == |multiset(w)| == |w|;
  }

  /** Every string starts with the empty input, so it filters nothing out. */
  lemma {:induction false} EmptyPrefixKeepsAll(xs: seq<string>)
    ensures WithPrefix(xs, "") == xs
  {
    if xs != [] {
      assert StartsWithIgnoreCase(xs[0], "");
      EmptyPrefixKeepsAll(xs[1..]);
      assert xs == [xs[0]] + xs[1..];
    }
  }

  /** The first argument completes to the matching subcommands, "give" before "list". */
  lemma SubcommandCompletion(online: seq<string>, config: Node, input: string)
    ensures OnTabComplete(online, config, [input]) ==
      (if StartsWithIgnoreCase("give", input) then ["give"] else []) +
      (if StartsWithIgnoreCase("list", input) then ["list"] else [])
  {
    var w := WithPrefix(Subcommands, input);
    SubcommandFilter(input);
    assert OnTabComplete(online, config, [input]) == Sort(w);
    SortSubcommands(StartsWithIgnoreCase("give", input), StartsWithIgnoreCase("list", input));
  }

  lemma SubcommandFilter(input: string)
    ensures WithPrefix(Subcommands, input) ==
      (if StartsWithIgnoreCase("list", input) then ["list"] else []) +
      (if StartsWithIgnoreCase("give", input) then ["give"] else [])
  {
    assert Subcommands[1..] == ["give"] && ["give"][1..] == [];
  }

  lemma SortSubcommands(give: bool, list: bool)
    ensures Sort((if list then ["list"] else []) + (if give then ["give"] else [])) ==
      (if give then ["give"] else []) + (if list then ["list"] else [])
  {
    var w := (if list then ["list"] else []) + (if give then ["give"] else []);
    if give && list {
      assert w == ["list", "give"];
      assert LexLe("give", "list") by {
        assert "give"[0] == 'g' && "list"[0] == 'l';
      }
      SortPair("give", "list");
    } else if give {
      SortSingle("give", w);
    } else if list {
      SortSingle("list", w);
    } else {
      assert w == [];
    }
  }

  /** A one-element list sorts to itself. */
  lemma SortSingle(x: string, w: seq<string>)
    requires w == [x]
    ensures Sort(w) == [x]
  {
    SortedPermutationIsUnique(Sort(w), [x]);
  }

  /** An empty first argument offers both subcommands, "give" first. */
  lemma EmptyInputOffersBoth(online: seq<string>, config: Node)
    ensures OnTabComplete(online, config, [""]) == ["give", "list"]
  {
    EmptyPrefixKeepsAll(Subcommands);
    assert OnTabComplete(online, config, [""]) == Sort(Subcommands);
    assert LexLe("give", "list") by {
      assert "give"[0] == 'g' && "list"[0] == 'l';
    }
    SortPair("give", "list");
  }

  /**
   * After "give", the second argument completes to the matching online players,
   * sorted, followed by the matching drop keys, sorted.
   */
  lemma PlayersThenDrops(online: seq<string>, config: Node, args: seq<string>)
    requires |args| == 2 && EqualsIgnoreCase(args[0], "give")
    ensures var r := OnTabComplete(online, config, args);
      var k := |Completions(online, args[1])|;
      && k <= |r| && IsSorted(r[..k]) && IsSorted(r[k..])
      && (forall x :: x in r[..k] <==> x in online && StartsWithIgnoreCase(x, args[1]))
      && (forall x :: x in r[k..] <==> x in DropKeys(config) && StartsWithIgnoreCase(x, args[1]))
      && (forall x :: multiset(r[..k])[x] == if StartsWithIgnoreCase(x, args[1]) then multiset(online)[x] else 0)
      && (forall x :: multiset(r[k..])[x] == if StartsWithIgnoreCase(x, args[1]) then multiset(DropKeys(config))[x] else 0)
  {
    SecondArgumentCompletion(online, config, args);
    SplitAtFirst(Completions(online, args[1]), Completions(DropKeys(config), args[1]));
  }

  lemma SplitAtFirst(a: seq<string>, b: seq<string>)
    ensures (a + b)[..|a|] == a && (a + b)[|a|..] == b
  {
  }

  /** The third argument completes to drop keys after a player, to the drop's variant keys otherwise. */
  lemma ThirdArgumentCompletion(online: seq<string>, config: Node, args: seq<string>)
    requires |args| == 3 && EqualsIgnoreCase(args[0], "give")
    ensures var r := OnTabComplete(online, config, args);
      && (PlayerExact(online, args[1]).Some? ==>
            forall x :: x in r <==> x in DropKeys(config) && StartsWithIgnoreCase(x, args[2]))
      && (PlayerExact(online, args[1]).None? && GetSection(config, ["drops"]).Some? ==>
            forall x :: x in r <==> x in VariantKeys(GetSection(config, ["drops"]).value, Upper(args[1])) &&
                                    StartsWithIgnoreCase(x, args[2]))
      && (GetSection(config, ["drops"]).None? ==> r == [])
  {
  }

  /** Nothing is suggested beyond four arguments, for a first argument other than give, or for a fourth argument without a player. */
  lemma EmptyCompletions(online: seq<string>, config: Node, args: seq<string>)
    ensures |args| == 0 || |args| > 4 ==> OnTabComplete(online, config, args) == []
    ensures 2 <= |args| <= 4 && !EqualsIgnoreCase(args[0], "give") ==> OnTabComplete(online, config, args) == []
    ensures |args| == 4 && PlayerExact(online, args[1]).None? ==> OnTabComplete(online, config, args) == []
  {
  }
}
