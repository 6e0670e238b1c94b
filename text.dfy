/**
 * The java.lang.String operations the plugin relies on: ASCII case mapping
 * (toLowerCase/toUpperCase with Locale.ROOT, equalsIgnoreCase), startsWith,
 * code-point order standing for the compareTo order of Stream.sorted(), and the
 * Collectors.joining / String.split pair used to store lore lines.
 */
module Text {

  // ---------------------------------------------------------------------------
  // Case mapping (ASCII letters only)
  // ---------------------------------------------------------------------------

  predicate IsAsciiUpper(c: char) { 'A' <= c <= 'Z' }

  predicate IsAsciiLower(c: char) { 'a' <= c <= 'z' }

  function LowerChar(c: char): (r: char)
    ensures !IsAsciiUpper(r)
    ensures !IsAsciiUpper(c) ==> r == c
  {
    if IsAsciiUpper(c) then (c as int + 32) as char else c
  }

  function UpperChar(c: char): (r: char)
    ensures !IsAsciiLower(r)
    ensures !IsAsciiLower(c) ==> r == c
  {
    if IsAsciiLower(c) then (c as int - 32) as char else c
  }

  /** String.toLowerCase(Locale.ROOT), restricted to ASCII letters. */
  function Lower(s: string): (r: string)
    ensures |r| == |s|
    ensures forall i :: 0 <= i < |s| ==> r[i] == LowerChar(s[i])
  {
    if s == [] then [] else [LowerChar(s[0])] + Lower(s[1..])
  }

  /** String.toUpperCase(Locale.ROOT), restricted to ASCII letters. */
  function Upper(s: string): (r: string)
    ensures |r| == |s|
    ensures forall i :: 0 <= i < |s| ==> r[i] == UpperChar(s[i])
  {
    if s == [] then [] else [UpperChar(s[0])] + Upper(s[1..])
  }

  /** A string with no upper-case ASCII letter: the shape of every variant key. */
  predicate IsLowerCase(s: string) {
    forall i :: 0 <= i < |s| ==> !IsAsciiUpper(s[i])
  }

  /** A string with no lower-case ASCII letter, as Java enum constant names are. */
  predicate IsUpperCase(s: string) {
    forall i :: 0 <= i < |s| ==> !IsAsciiLower(s[i])
  }

  lemma LowerIsLowerCase(s: string)
    ensures IsLowerCase(Lower(s))
  {
  }

  lemma LowerConcat(a: string, b: string)
    ensures Lower(a + b) == Lower(a) + Lower(b)
  {
    assert forall i :: 0 <= i < |a + b| ==> Lower(a + b)[i] == (Lower(a) + Lower(b))[i];
  }

  lemma LowerOfLowerCase(s: string)
    requires IsLowerCase(s)
    ensures Lower(s) == s
  {
  }

  /** Upper-casing a lower-cased enum name gives the name back: valueOf(toLowerCase(name).toUpperCase()). */
  lemma {:induction false} UpperLowerRoundTrip(s: string)
    requires IsUpperCase(s)
    ensures Upper(Lower(s)) == s
  {
    if s != [] {
      assert IsUpperCase(s[1..]) by {
        forall i | 0 <= i < |s[1..]| ensures !IsAsciiLower(s[1..][i]) {
          assert s[1..][i] == s[i + 1];
        }
      }
      UpperLowerRoundTrip(s[1..]);
      assert Lower(s) == [LowerChar(s[0])] + Lower(s[1..]);
      assert UpperChar(LowerChar(s[0])) == s[0];
    }
  }

  /** Strings equal up to case upper-case to the same string. */
  lemma SameLowerSameUpper(a: string, b: string)
    requires Lower(a) == Lower(b)
    ensures Upper(a) == Upper(b)
  {
    assert |a| == |Lower(a)| == |Lower(b)| == |b|;
    forall i | 0 <= i < |a| ensures Upper(a)[i] == Upper(b)[i] {
      assert LowerChar(a[i]) == Lower(a)[i] == Lower(b)[i] == LowerChar(b[i]);
      SameLowerCharSameUpperChar(a[i], b[i]);
    }
  }

  lemma SameLowerCharSameUpperChar(x: char, y: char)
    requires LowerChar(x) == LowerChar(y)
    ensures UpperChar(x) == UpperChar(y)
  {
  }

  /** String.equalsIgnoreCase, restricted to ASCII letters. */
  predicate EqualsIgnoreCase(a: string, b: string) {
    Lower(a) == Lower(b)
  }

  lemma EqualsIgnoreCaseReflexive(a: string)
    ensures EqualsIgnoreCase(a, a)
  {
  }

  lemma DifferentLengthsDiffer(a: string, b: string)
    requires |a| != |b|
    ensures !EqualsIgnoreCase(a, b)
  {
  }

  // ---------------------------------------------------------------------------
  // Prefixes
  // ---------------------------------------------------------------------------

  /** String.startsWith. */
  predicate StartsWith(s: string, prefix: string) {
    |prefix| <= |s| && s[..|prefix|] == prefix
  }

  /** The filter every tab completion applies: s.toLowerCase().startsWith(input.toLowerCase()). */
  predicate StartsWithIgnoreCase(s: string, input: string) {
    StartsWith(Lower(s), Lower(input))
  }

  /** The elements of xs that start with input, ignoring case, in their original order. */
  function WithPrefix(xs: seq<string>, input: string): (r: seq<string>)
    ensures |r| <= |xs|
    ensures forall x :: x in r <==> x in xs && StartsWithIgnoreCase(x, input)
    ensures forall x :: multiset(r)[x] == if StartsWithIgnoreCase(x, input) then multiset(xs)[x] else 0
  {
    if xs == [] then []
    else
      assert xs == [xs[0]] + xs[1..];
      (if StartsWithIgnoreCase(xs[0], input) then [xs[0]] else []) + WithPrefix(xs[1..], input)
  }

  // ---------------------------------------------------------------------------
  // Code-point order of strings (for String.compareTo) and sorting
  // ---------------------------------------------------------------------------

  /** Code-point order, standing for a.compareTo(b) <= 0: lexicographic on characters, a proper prefix first. */
  predicate LexLe(a: string, b: string)
    decreases |a|
  {
    if a == [] then true
    else if b == [] then false
    else if a[0] != b[0] then a[0] < b[0]
    else LexLe(a[1..], b[1..])
  }

  lemma {:induction false} LexTotal(a: string, b: string)
    ensures LexLe(a, b) || LexLe(b, a)
    decreases |a|
  {
    if a != [] && b != [] && a[0] == b[0] {
      LexTotal(a[1..], b[1..]);
    }
  }

  lemma {:induction false} LexReflexive(a: string)
    ensures LexLe(a, a)
    decreases |a|
  {
    if a != [] {
      LexReflexive(a[1..]);
    }
  }

  lemma {:induction false} LexTransitive(a: string, b: string, c: string)
    requires LexLe(a, b) && LexLe(b, c)
    ensures LexLe(a, c)
    decreases |a|
  {
    if a != [] && b != [] && c != [] && a[0] == b[0] && b[0] == c[0] {
      LexTransitive(a[1..], b[1..], c[1..]);
    }
  }

  lemma {:induction false} LexAntisymmetric(a: string, b: string)
    requires LexLe(a, b) && LexLe(b, a)
    ensures a == b
    decreases |a|
  {
    if a != [] && b != [] {
      LexAntisymmetric(a[1..], b[1..]);
      assert a == [a[0]] + a[1..] && b == [b[0]] + b[1..];
    }
  }

  predicate IsSorted(s: seq<string>) {
    forall i, j :: 0 <= i < j < |s| ==> LexLe(s[i], s[j])
  }

  /** Inserts x into a sorted sequence, before the first element not below it. */
  function Insert(x: string, s: seq<string>): (r: seq<string>)
    requires IsSorted(s)
    ensures IsSorted(r)
    ensures multiset(r) == multiset(s) + multiset{x}
  {
    if s == [] then [x]
    else if LexLe(x, s[0]) then
      assert forall j :: 0 <= j < |s| ==> LexLe(x, s[j]) by {
        forall j | 0 <= j < |s| ensures LexLe(x, s[j]) {
          if j > 0 { LexTransitive(x, s[0], s[j]); }
        }
      }
      [x] + s
    else
      assert s == [s[0]] + s[1..];
      var rest := Insert(x, s[1..]);
      LexTotal(x, s[0]);
      assert forall y :: y in rest ==> LexLe(s[0], y) by {
        forall y | y in rest ensures LexLe(s[0], y) {
          assert y in multiset(rest);
          if y != x {
            assert y in multiset(s[1..]);
            var k :| 0 <= k < |s[1..]| && s[1..][k] == y;
            assert s[k + 1] == y;
          }
        }
      }
      [s[0]] + rest
  }

  /** Stream.sorted() on strings: insertion sort by code-point order. */
  function Sort(s: seq<string>): (r: seq<string>)
    ensures IsSorted(r)
    ensures multiset(r) == multiset(s)
  {
    if s == [] then []
    else
      assert s == [s[0]] + s[1..];
      Insert(s[0], Sort(s[1..]))
  }

  lemma SortedHeadIsLeast(a: seq<string>, y: string)
    requires IsSorted(a) && a != [] && y in multiset(a)
    ensures LexLe(a[0], y)
  {
    var i :| 0 <= i < |a| && a[i] == y;
    if i == 0 { LexReflexive(y); }
  }

  lemma SortedTail(a: seq<string>)
    requires IsSorted(a) && a != []
    ensures IsSorted(a[1..])
  {
    forall i, j | 0 <= i < j < |a[1..]| ensures LexLe(a[1..][i], a[1..][j]) {
      assert a[1..][i] == a[i + 1] && a[1..][j] == a[j + 1];
    }
  }

  /** Two sorted permutations of each other start with the same element. */
  lemma SortedPermutationsShareHead(a: seq<string>, b: seq<string>)
    requires IsSorted(a) && IsSorted(b)
    requires multiset(a) == multiset(b)
    requires a != []
    ensures b != [] && a[0] == b[0]
  {
    assert a[0] in multiset(a);
    assert b != [];
    assert b[0] in multiset(b);
    SortedHeadIsLeast(a, b[0]);
    SortedHeadIsLeast(b, a[0]);
    LexAntisymmetric(a[0], b[0]);
  }

  lemma TailMultiset(a: seq<string>)
    requires a != []
    ensures multiset(a[1..]) == multiset(a) - multiset{a[0]}
  {
    assert a == [a[0]] + a[1..];
  }

  /**
   * A sorted permutation is unique, so Sort computes exactly what any correct
   * sort (Java's TimSort included) returns.
   */
  lemma {:induction false} SortedPermutationIsUnique(a: seq<string>, b: seq<string>)
    requires IsSorted(a) && IsSorted(b)
    requires multiset(a) == multiset(b)
    ensures a == b
    decreases |a|
  {
    if a == [] {
      assert |b| == |multiset(b)| == 0;
    } else {
      SortedPermutationsShareHead(a, b);
      TailMultiset(a);
      TailMultiset(b);
      SortedTail(a);
      SortedTail(b);
      SortedPermutationIsUnique(a[1..], b[1..]);
      assert a == [a[0]] + a[1..];
      assert b == [b[0]] + b[1..];
    }
  }

  /** Sorting two strings out of order swaps them. */
  lemma SortPair(a: string, b: string)
    requires LexLe(a, b)
    ensures Sort([b, a]) == [a, b]
  {
    assert IsSorted([a, b]) by {
      forall i, j | 0 <= i < j < 2 ensures LexLe([a, b][i], [a, b][j]) {
        assert i == 0 && j == 1;
      }
    }
    assert multiset([b, a]) == multiset([a, b]);
    SortedPermutationIsUnique(Sort([b, a]), [a, b]);
  }

  // ---------------------------------------------------------------------------
  // Collectors.joining(delim) and String.split(delim)
  // ---------------------------------------------------------------------------

  /** Collectors.joining(d): the parts with d between consecutive ones. */
  function Join(parts: seq<string>, d: char): string {
    if parts == [] then ""
    else if |parts| == 1 then parts[0]
    else parts[0] + [d] + Join(parts[1..], d)
  }

  /** All fields of s between occurrences of d, empty ones included (split with a negative limit). */
  function Fields(s: string, d: char): (r: seq<string>)
    ensures |r| >= 1
  {
    if s == [] then [""]
    else
      var rest := Fields(s[1..], d);
      if s[0] == d then [""] + rest else [[s[0]] + rest[0]] + rest[1..]
  }

  /** Removes the empty strings at the end of a sequence. */
  function DropTrailingEmpty(parts: seq<string>): (r: seq<string>)
    ensures |r| <= |parts| && r == parts[..|r|]
    ensures r != [] ==> r[|r| - 1] != ""
    ensures forall k :: |r| <= k < |parts| ==> parts[k] == ""
  {
    if parts == [] then []
    else if parts[|parts| - 1] == "" then DropTrailingEmpty(parts[..|parts| - 1])
    else parts
  }

  /**
   * String.split(d) for a one-character literal delimiter: with no occurrence of d
   * the string itself; otherwise its fields without the trailing empty ones.
   */
  function Split(s: string, d: char): seq<string> {
    if d !in s then [s] else DropTrailingEmpty(Fields(s, d))
  }

  lemma {:induction false} FieldsOfPlain(p: string, s: string, d: char)
    requires d !in p
    ensures Fields(p + s, d) == [p + Fields(s, d)[0]] + Fields(s, d)[1..]
    decreases |p|
  {
    if p != [] {
      assert (p + s)[1..] == p[1..] + s;
      assert (p + s)[0] == p[0] && p[0] != d;
      FieldsOfPlain(p[1..], s, d);
      var rest := Fields(p[1..] + s, d);
      assert rest[0] == p[1..] + Fields(s, d)[0];
      assert rest[1..] == Fields(s, d)[1..];
      assert Fields(p + s, d) == [[p[0]] + rest[0]] + rest[1..];
      assert [p[0]] + (p[1..] + Fields(s, d)[0]) == p + Fields(s, d)[0];
    } else {
      assert p + s == s && p + Fields(s, d)[0] == Fields(s, d)[0];
      assert Fields(s, d) == [Fields(s, d)[0]] + Fields(s, d)[1..];
    }
  }

  lemma {:induction false} FieldsOfJoin(parts: seq<string>, d: char)
    requires parts != []
    requires forall i :: 0 <= i < |parts| ==> d !in parts[i]
    ensures Fields(Join(parts, d), d) == parts
    decreases |parts|
  {
    if |parts| == 1 {
      FieldsOfPlain(parts[0], "", d);
      assert parts[0] + "" == parts[0];
    } else {
      var tail := Join(parts[1..], d);
      FieldsOfJoin(parts[1..], d);
      assert Join(parts, d) == parts[0] + ([d] + tail);
      FieldsOfPlain(parts[0], [d] + tail, d);
      assert ([d] + tail)[1..] == tail;
      assert Fields([d] + tail, d) == [""] + parts[1..];
      assert parts[0] + "" == parts[0];
      assert parts == [parts[0]] + parts[1..];
    }
  }

  lemma {:induction false} DelimiterNotInJoin(parts: seq<string>, d: char)
    requires forall i :: 0 <= i < |parts| ==> d !in parts[i]
    requires |parts| <= 1
    ensures d !in Join(parts, d)
  {
  }

  lemma {:induction false} DelimiterInJoin(parts: seq<string>, d: char)
    requires |parts| >= 2
    ensures d in Join(parts, d)
  {
    assert Join(parts, d)[|parts[0]|] == d;
  }

  /**
   * Splitting the joined parts gives the parts back when no part contains the
   * delimiter and the last part is not empty (split drops trailing empty strings).
   */
  lemma SplitJoin(parts: seq<string>, d: char)
    requires parts != []
    requires forall i :: 0 <= i < |parts| ==> d !in parts[i]
    requires parts[|parts| - 1] != ""
    ensures Split(Join(parts, d), d) == parts
  {
    if |parts| == 1 {
      DelimiterNotInJoin(parts, d);
    } else {
      DelimiterInJoin(parts, d);
      FieldsOfJoin(parts, d);
    }
  }

  /**
   * The quirk the last-part condition above guards against: a trailing empty
   * part is lost.
   */
  lemma SplitJoinDropsTrailingEmpty(parts: seq<string>, d: char)
    requires parts != []
    requires forall i :: 0 <= i < |parts| ==> d !in parts[i]
    requires parts[|parts| - 1] != ""
    ensures Split(Join(parts + [""], d), d) == parts
  {
    var padded := parts + [""];
    DelimiterInJoin(padded, d);
    FieldsOfJoin(padded, d);
    assert padded[..|padded| - 1] == parts;
  }

  /** The joined text is empty only when the last part is (or there is none). */
  lemma JoinNotEmpty(parts: seq<string>, d: char)
    requires parts != [] && parts[|parts| - 1] != ""
    ensures Join(parts, d) != ""
  {
  }
}
