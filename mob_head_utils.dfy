/**
 * Turning a head's display name into a name a PlayerProfile accepts: plain text,
 * only [A-Za-z0-9_], at most sixteen characters, and "MobHead" when nothing is left.
 */
module MobHeadUtils {
  import opened Wrappers
  import opened Host

  const FallbackProfileName: string := "MobHead"
  const MaxProfileNameLength: nat := 16

  /** The characters the pattern [^A-Za-z0-9_] does not remove. */
  predicate IsProfileChar(c: char) {
    ('A' <= c <= 'Z') || ('a' <= c <= 'z') || ('0' <= c <= '9') || c == '_'
  }

  predicate IsProfileName(s: string) {
    forall i :: 0 <= i < |s| ==> IsProfileChar(s[i])
  }

  /** replaceAll("[^A-Za-z0-9_]", ""): the profile characters of s, in order. */
  function KeepProfileChars(s: string): (r: string)
    ensures IsProfileName(r)
    ensures |r| <= |s|
    ensures forall c :: c in r ==> c in s
  {
    if s == [] then []
    else if IsProfileChar(s[0]) then [s[0]] + KeepProfileChars(s[1..])
    else KeepProfileChars(s[1..])
  }

  /** Removing characters distributes over concatenation. */
  lemma {:induction false} KeepProfileCharsConcat(a: string, b: string)
    ensures KeepProfileChars(a + b) == KeepProfileChars(a) + KeepProfileChars(b)
  {
    if a == [] {
      assert a + b == b;
    } else {
      assert (a + b)[0] == a[0] && (a + b)[1..] == a[1..] + b;
      KeepProfileCharsConcat(a[1..], b);
    }
  }

  /** A string of profile characters only is left as it is. */
  lemma {:induction false} KeepProfileCharsOfProfileName(s: string)
    requires IsProfileName(s)
    ensures KeepProfileChars(s) == s
  {
    if s != [] {
      assert IsProfileName(s[1..]) by {
        forall i | 0 <= i < |s[1..]| ensures IsProfileChar(s[1..][i]) {
          assert s[1..][i] == s[i + 1];
        }
      }
      KeepProfileCharsOfProfileName(s[1..]);
    }
  }

  /** A string with no profile character is removed entirely. */
  lemma {:induction false} KeepProfileCharsOfNone(s: string)
    requires forall i :: 0 <= i < |s| ==> !IsProfileChar(s[i])
    ensures KeepProfileChars(s) == ""
  {
    if s != [] {
      assert forall i :: 0 <= i < |s[1..]| ==> s[1..][i] == s[i + 1];
      KeepProfileCharsOfNone(s[1..]);
    }
  }

  /** sanitizePlainProfileName: the core rule on plain text. */
  function SanitizePlain(plain: string): (r: string)
    ensures 1 <= |r| <= MaxProfileNameLength
    ensures IsProfileName(r)
    ensures var kept := KeepProfileChars(plain);
      if kept == [] then r == FallbackProfileName
      else r == kept[..if |kept| <= MaxProfileNameLength then |kept| else MaxProfileNameLength]
  {
    if plain == [] then FallbackProfileName
    else
      var cleaned := KeepProfileChars(plain);
      var cut := if |cleaned| > MaxProfileNameLength then cleaned[..MaxProfileNameLength] else cleaned;
      assert IsProfileName(cut) by {
        forall i | 0 <= i < |cut| ensures IsProfileChar(cut[i]) {
          assert cut[i] == cleaned[i];
        }
      }
      if cut == [] then FallbackProfileName else cut
  }

  /** sanitizeProfileName(String): a MiniMessage name, read as plain text first. */
  function SanitizeProfileName(server: Server, displayName: Option<string>): (r: string)
    ensures displayName.None? || displayName == Some("") ==> r == FallbackProfileName
    ensures displayName.Some? && displayName.value != "" ==>
      r == SanitizePlain(server.plain(server.deserialize(displayName.value)))
  {
    match displayName
    case None => FallbackProfileName
    case Some(s) => if s == [] then FallbackProfileName else SanitizePlain(server.plain(server.deserialize(s)))
  }

  /** sanitizeProfileName(Component). */
  function SanitizeComponentName(server: Server, displayName: Option<Component>): (r: string)
    ensures displayName.None? ==> r == FallbackProfileName
    ensures displayName.Some? ==> r == SanitizePlain(server.plain(displayName.value))
  {
    match displayName
    case None => FallbackProfileName
    case Some(c) => SanitizePlain(server.plain(c))
  }

  /** A sanitised name is its own sanitisation. */
  lemma SanitizeIdempotent(plain: string)
    ensures SanitizePlain(SanitizePlain(plain)) == SanitizePlain(plain)
  {
    var r := SanitizePlain(plain);
    KeepProfileCharsOfProfileName(r);
  }

  /** A valid profile name of at most sixteen characters passes through unchanged. */
  lemma SanitizeKeepsProfileNames(s: string)
    requires IsProfileName(s) && 1 <= |s| <= MaxProfileNameLength
    ensures SanitizePlain(s) == s
  {
    KeepProfileCharsOfProfileName(s);
  }

  /** Characters outside the alphabet never affect the result wherever they stand. */
  lemma SanitizeIgnoresJunk(a: string, junk: string, b: string)
    requires forall i :: 0 <= i < |junk| ==> !IsProfileChar(junk[i])
    ensures SanitizePlain(a + junk + b) == SanitizePlain(a + b)
  {
    KeepProfileCharsConcat(a + junk, b);
    KeepProfileCharsConcat(a, junk);
    KeepProfileCharsConcat(a, b);
    KeepProfileCharsOfNone(junk);
  }

  /** The default name of a fire-variant head becomes "FireHead". */
  lemma SanitizeExampleSpace()
    ensures SanitizePlain("Fire Head") == "FireHead"
  {
    assert "Fire Head" == "Fire" + " " + "Head";
    assert "Fire" + "Head" == "FireHead";
    SanitizeIgnoresJunk("Fire", " ", "Head");
    SanitizeKeepsProfileNames("FireHead");
  }

  /** A name with no usable character falls back to "MobHead". */
  lemma SanitizeExampleFallback()
    ensures SanitizePlain("!!!") == FallbackProfileName
  {
    KeepProfileCharsOfNone("!!!");
  }

  /** A longer valid profile name keeps its first sixteen characters. */
  lemma SanitizeTruncatesProfileNames(s: string)
    requires IsProfileName(s) && |s| > MaxProfileNameLength
    ensures SanitizePlain(s) == s[..MaxProfileNameLength]
  {
    KeepProfileCharsOfProfileName(s);
  }
}
