/**
 * The helpers of `models/utils.ts`: `asArray`, `asDisplayName` and
 * `namesAsInitials`, with JavaScript's `trim` and an uppercase map.
 */
module ModelUtils {
  import opened Options
  import opened Js

  /** `asArray(obj)`: an array as it is, anything else as a one-element array. */
  function AsArray(obj: Json): (r: Json)
    ensures r.JArr?
  {
    if obj.JArr? then obj else JArr([obj])
  }

  /** Arrays are returned unchanged, other values wrapped, and wrapping twice is wrapping once. */
  lemma AsArrayCases(obj: Json)
    ensures obj.JArr? ==> AsArray(obj) == obj
    ensures !obj.JArr? ==> AsArray(obj).items == [obj]
    ensures AsArray(AsArray(obj)) == AsArray(obj)
  {
  }

  /**
   * `asDisplayName(given, family)`: both names with a space between them,
   * or whichever is non-empty; `family` may be null or undefined (None).
   */
  function AsDisplayName(givenName: string, familyName: Option<string>): string {
    if givenName != "" then
      if Present(familyName) then givenName + " " + familyName.value else givenName
    else familyName.GetOr("")
  }

  lemma DisplayNameCases(givenName: string, familyName: Option<string>)
    ensures givenName != "" && Present(familyName) ==>
      AsDisplayName(givenName, familyName) == givenName + " " + familyName.value
    ensures givenName != "" && !Present(familyName) ==> AsDisplayName(givenName, familyName) == givenName
    ensures givenName == "" && familyName.Some? ==> AsDisplayName(givenName, familyName) == familyName.value
    ensures givenName == "" && familyName.None? ==> AsDisplayName(givenName, familyName) == ""
  {
  }

  /** The index of the first space of `s`, or `|s|`. */
  function FirstSpace(s: string): (i: nat)
    ensures i <= |s|
    ensures i < |s| ==> s[i] == ' '
    ensures forall k :: 0 <= k < i ==> s[k] != ' '
  {
    if s == [] then 0 else if s[0] == ' ' then 0 else 1 + FirstSpace(s[1..])
  }

  /**
   * A full display name splits back into its two names at its first space
   * when the given name has none.
   */
  lemma DisplayNameSplits(givenName: string, familyName: string)
    requires givenName != "" && familyName != ""
    requires forall k :: 0 <= k < |givenName| ==> givenName[k] != ' '
    ensures var r := AsDisplayName(givenName, Some(familyName));
      && FirstSpace(r) == |givenName|
      && r[..FirstSpace(r)] == givenName
      && r[FirstSpace(r) + 1..] == familyName
  {
    var r := AsDisplayName(givenName, Some(familyName));
    assert r == givenName + " " + familyName;
    assert r[|givenName|] == ' ';
    assert forall k :: 0 <= k < |givenName| ==> r[k] == givenName[k];
    assert r[..|givenName|] == givenName;
    assert r[|givenName| + 1..] == familyName;
  }

  // ---------------------------------------------------------------------
  // Initials

  /**
   * The characters `String.prototype.trim` removes: the white space
   * characters (TAB, VT, FF, SP, NBSP, ZWNBSP and the other space
   * separators of category Zs) and the line terminators (LF, CR, LS, PS).
   */
  predicate IsJsWhitespace(c: char) {
    var n := c as int;
    || n == 0x09 || n == 0x0B || n == 0x0C || n == 0x20 || n == 0xA0 || n == 0xFEFF
    || n == 0x1680 || (0x2000 <= n <= 0x200A) || n == 0x202F || n == 0x205F || n == 0x3000
    || n == 0x0A || n == 0x0D || n == 0x2028 || n == 0x2029
  }

  /** Uppercasing, as the ASCII letters map: other characters are kept. */
  function UpperChar(c: char): char {
    if 'a' <= c <= 'z' then (c as int - 'a' as int + 'A' as int) as char else c
  }

  function Upper(s: string): (r: string)
    ensures |r| == |s|
    ensures forall k :: 0 <= k < |s| ==> r[k] == UpperChar(s[k])
  {
    if s == [] then [] else [UpperChar(s[0])] + Upper(s[1..])
  }

  /** Leading white space removed: a suffix of `s` whose dropped part is all white space. */
  function TrimStart(s: string): (r: string)
    ensures |r| <= |s| && r == s[|s| - |r|..]
    ensures r != [] ==> !IsJsWhitespace(r[0])
    ensures forall k :: 0 <= k < |s| - |r| ==> IsJsWhitespace(s[k])
  {
    if s != [] && IsJsWhitespace(s[0]) then TrimStart(s[1..]) else s
  }

  /** Trailing white space removed: a prefix of `s` whose dropped part is all white space. */
  function TrimEnd(s: string): (r: string)
    ensures |r| <= |s| && r == s[..|r|]
    ensures r != [] ==> !IsJsWhitespace(r[|r| - 1])
    ensures forall k :: |r| <= k < |s| ==> IsJsWhitespace(s[k])
  {
    if s != [] && IsJsWhitespace(s[|s| - 1]) then TrimEnd(s[..|s| - 1]) else s
  }

  /** `r` is `s[i..j]`, and everything outside it is white space. */
  predicate TrimmedTo(s: string, i: int, j: int, r: string) {
    && 0 <= i <= j <= |s| && r == s[i..j]
    && (forall k :: 0 <= k < i ==> IsJsWhitespace(s[k]))
    && (forall k :: j <= k < |s| ==> IsJsWhitespace(s[k]))
  }

  /** `trim`: white space removed at both ends, and nothing else. */
  function Trim(s: string): (r: string)
    ensures |r| <= |s|
    ensures r != [] ==> !IsJsWhitespace(r[0]) && !IsJsWhitespace(r[|r| - 1])
    ensures (forall k :: 0 <= k < |s| ==> IsJsWhitespace(s[k])) <==> r == []
    ensures exists i, j :: TrimmedTo(s, i, j, r)
  {
    var t := TrimStart(s);
    var r := TrimEnd(t);
    assert r != [] ==> r[0] == t[0];
    var i := |s| - |t|;
    assert TrimmedTo(s, i, i + |r|, r);
    r
  }

  /** `(name || ' ').charAt(0)`. */
  function Initial(name: string): char {
    if name != "" then name[0] else ' '
  }

  /** `namesAsInitials(first, last)`: both initials, uppercased, trimmed. */
  function NamesAsInitials(firstName: string, lastName: string): (r: string)
    ensures |r| <= 2
  {
    Trim(Upper([Initial(firstName), Initial(lastName)]))
  }

  lemma UpperPreservesWhitespace(c: char)
    ensures IsJsWhitespace(UpperChar(c)) <==> IsJsWhitespace(c)
    ensures !('a' <= c <= 'z') ==> UpperChar(c) == c
  {
  }

  /** Two initials that are not white space stay both, uppercased. */
  lemma InitialsBoth(firstName: string, lastName: string)
    requires firstName != "" && lastName != ""
    requires !IsJsWhitespace(firstName[0]) && !IsJsWhitespace(lastName[0])
    ensures NamesAsInitials(firstName, lastName) == [UpperChar(firstName[0]), UpperChar(lastName[0])]
  {
    var u := Upper([firstName[0], lastName[0]]);
    UpperPreservesWhitespace(firstName[0]);
    UpperPreservesWhitespace(lastName[0]);
    assert TrimStart(u) == u;
    assert TrimEnd(u) == u;
  }

  /** Two empty names give no initials. */
  lemma InitialsNone()
    ensures NamesAsInitials("", "") == ""
  {
    var u := Upper([' ', ' ']);
    assert u == [' ', ' '];
    assert IsJsWhitespace(u[0]) && IsJsWhitespace(u[1]);
  }

  /**
   * With exactly one name empty, the initials are the other name's first
   * character uppercased, or nothing when that character is white space.
   */
  lemma InitialsOne(firstName: string, lastName: string)
    requires (firstName == "") != (lastName == "")
    ensures var c := if firstName != "" then firstName[0] else lastName[0];
      && (!IsJsWhitespace(c) ==> NamesAsInitials(firstName, lastName) == [UpperChar(c)])
      && (IsJsWhitespace(c) ==> NamesAsInitials(firstName, lastName) == "")
  {
    var c := if firstName != "" then firstName[0] else lastName[0];
    var u := Upper([Initial(firstName), Initial(lastName)]);
    UpperPreservesWhitespace(c);
    UpperPreservesWhitespace(' ');
    if firstName != "" {
      assert u == [UpperChar(c), ' '];
      if !IsJsWhitespace(c) {
        assert TrimStart(u) == u;
        assert TrimEnd(u) == [UpperChar(c)];
      }
    } else {
      assert u == [' ', UpperChar(c)];
      if !IsJsWhitespace(c) {
        assert TrimStart(u) == [UpperChar(c)];
        assert TrimEnd([UpperChar(c)]) == [UpperChar(c)];
      }
    }
  }
}
