/**
 * The plugin's configuration as Bukkit's ConfigurationSection exposes it: a tree
 * of sections whose keys keep their file order (getKeys(false)), with text and
 * number leaves. A dotted path such as "drops.WOLF.variants.pale" is the
 * sequence of its segments. A section read from YAML never repeats a key, so a
 * tree that does stands for no configuration; the model still reads such a tree
 * deterministically (the first entry wins in lookups, every entry is listed).
 */
module ConfigTree {
  import opened Wrappers

  datatype Node =
    | Section(entries: seq<Entry>)
    | Str(text: string)
    | Num(value: real)

  datatype Entry = Entry(key: string, value: Node)

  /** The value of the first entry with the given key. */
  function Lookup(entries: seq<Entry>, key: string): (r: Option<Node>)
    ensures r.Some? <==> exists i :: 0 <= i < |entries| && entries[i].key == key
  {
    if entries == [] then None
    else if entries[0].key == key then Some(entries[0].value)
    else
      var r := Lookup(entries[1..], key);
      assert forall i :: 1 <= i < |entries| ==> entries[i] == entries[1..][i - 1];
      r
  }

  /** The node one level down, if this is a section holding the key. */
  function Child(n: Node, key: string): Option<Node> {
    if n.Section? then Lookup(n.entries, key) else None
  }

  /** ConfigurationSection.get(path): whatever sits at the path. */
  function Get(n: Node, path: seq<string>): Option<Node>
    decreases |path|
  {
    if path == [] then Some(n)
    else
      match Child(n, path[0])
      case None => None
      case Some(c) => Get(c, path[1..])
  }

  lemma {:induction false} GetAppend(n: Node, a: seq<string>, b: seq<string>)
    ensures Get(n, a + b) == (match Get(n, a) case None => None case Some(m) => Get(m, b))
    decreases |a|
  {
    if a == [] {
      assert a + b == b;
    } else {
      assert (a + b)[0] == a[0] && (a + b)[1..] == a[1..] + b;
      match Child(n, a[0])
      case None =>
      case Some(c) => GetAppend(c, a[1..], b);
    }
  }

  /** getConfigurationSection(path): the node at the path when it is a section. */
  function GetSection(n: Node, path: seq<string>): (r: Option<Node>)
    ensures r.Some? ==> r.value.Section? && Get(n, path) == r
    ensures r.None? ==> Get(n, path).None? || !Get(n, path).value.Section?
  {
    match Get(n, path)
    case Some(m) => if m.Section? then Some(m) else None
    case None => None
  }

  /** getString(path): the text at the path. */
  function GetString(n: Node, path: seq<string>): (r: Option<string>)
    ensures r.Some? <==> Get(n, path).Some? && Get(n, path).value.Str?
    ensures r.Some? ==> Get(n, path) == Some(Str(r.value))
  {
    match Get(n, path)
    case Some(Str(s)) => Some(s)
    case _ => None
  }

  /** getString(path, def): the text at the path, def when nothing is there. */
  function GetStringOr(n: Node, path: seq<string>, def: string): (r: string)
    ensures GetString(n, path).Some? ==> r == GetString(n, path).value
    ensures Get(n, path).None? ==> r == def
  {
    match Get(n, path)
    case Some(Str(s)) => s
    case Some(_) => def
    case None => def
  }

  /** getDouble(path, def): the number at the path, def otherwise. */
  function GetDouble(n: Node, path: seq<string>, def: real): (r: real)
    ensures (Get(n, path).None? || !Get(n, path).value.Num?) ==> r == def
    ensures Get(n, path).Some? && Get(n, path).value.Num? ==> r == Get(n, path).value.value
  {
    match Get(n, path)
    case Some(Num(v)) => v
    case _ => def
  }

  /** contains(path). */
  predicate Contains(n: Node, path: seq<string>) {
    Get(n, path).Some?
  }

  /** getKeys(false): the keys of a section in file order. */
  function Keys(n: Node): (r: seq<string>)
    ensures |r| == (if n.Section? then |n.entries| else 0)
    ensures n.Section? ==> forall i :: 0 <= i < |r| ==> r[i] == n.entries[i].key
  {
    if n.Section? then seq(|n.entries|, i requires 0 <= i < |n.entries| => n.entries[i].key) else []
  }

  lemma KeysHaveChildren(n: Node, i: int)
    requires n.Section? && 0 <= i < |Keys(n)|
    ensures Child(n, Keys(n)[i]).Some?
  {
    assert n.entries[i].key == Keys(n)[i];
  }
}
