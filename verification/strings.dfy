/**
 * The string operations the pages call, restated over `seq<char>`: ASCII case
 * mapping (`toLowerCase`, `toUpperCase`), the substring test `includes`, `trim`,
 * and one-character `replace`. Unicode case mapping is not modelled: only the
 * letters A-Z and a-z change case.
 */
module Strings {

  /** An ASCII capital, the class `[A-Z]` of a regular expression. */
  predicate IsUpper(c: char) { 'A' <= c <= 'Z' }

  predicate IsLowerLetter(c: char) { 'a' <= c <= 'z' }

  function LowerChar(c: char): char {
    if IsUpper(c) then (c as int + 32) as char else c
  }

  function UpperChar(c: char): char {
    if IsLowerLetter(c) then (c as int - 32) as char else c
  }

  /** `s.toLowerCase()` on the ASCII letters: every character is lowered in place. */
  function Lower(s: string): (r: string)
    ensures |r| == |s|
    ensures forall i :: 0 <= i < |s| ==> r[i] == LowerChar(s[i])
  {
    seq(|s|, i requires 0 <= i < |s| => LowerChar(s[i]))
  }

  /** Lower-casing twice is lower-casing once. */
  lemma LowerIdempotent(s: string)
    ensures Lower(Lower(s)) == Lower(s)
  {
    var l := Lower(s);
    assert forall i :: 0 <= i < |s| ==> LowerChar(l[i]) == l[i];
  }

  /** `Lower(s)` is `t` when `t` spells the lower case of `s` character by character. */
  lemma LowerSpelled(s: string, t: string)
    requires |s| == |t| && forall i :: 0 <= i < |s| ==> LowerChar(s[i]) == t[i]
    ensures Lower(s) == t
  {
  }

  /** `needle` occurs in `hay` at start index `i`. */
  predicate OccursAt(hay: string, needle: string, i: int) {
    0 <= i && i + |needle| <= |hay| && hay[i..i + |needle|] == needle
  }

  /**
   * `hay.includes(needle)`, trying start positions from left to right; true
   * exactly when some window of `hay` equals `needle`.
   */
  function Includes(hay: string, needle: string): (r: bool)
    ensures r <==> exists i :: OccursAt(hay, needle, i)
    decreases |hay|
  {
    if OccursAt(hay, needle, 0) then true
    else if |hay| == 0 then false
    else
      OccursShift(hay, needle);
      Includes(hay[1..], needle)
  }

  /** When `needle` is not a prefix of `hay`, it occurs in `hay` iff it occurs in its tail. */
  lemma OccursShift(hay: string, needle: string)
    requires |hay| > 0 && !OccursAt(hay, needle, 0)
    ensures (exists i :: OccursAt(hay, needle, i)) <==> (exists j :: OccursAt(hay[1..], needle, j))
  {
    if i :| OccursAt(hay, needle, i) {
      assert hay[1..][i - 1..i - 1 + |needle|] == hay[i..i + |needle|];
      assert OccursAt(hay[1..], needle, i - 1);
    }
    if j :| OccursAt(hay[1..], needle, j) {
      assert hay[1..][j..j + |needle|] == hay[j + 1..j + 1 + |needle|];
      assert OccursAt(hay, needle, j + 1);
    }
  }

  /** The empty search term occurs in every string. */
  lemma IncludesEmpty(hay: string)
    ensures Includes(hay, "")
  {
    assert OccursAt(hay, "", 0);
  }

  /**
   * The characters `trim` removes: the ASCII whitespace and line terminators,
   * no-break space, the byte-order mark and the two Unicode line separators.
   */
  predicate IsSpace(c: char) {
    c == ' ' || c == '\t' || c == '\n' || c == '\r' || c == '\U{B}' || c == '\U{C}'
    || c == '\U{A0}' || c == '\U{FEFF}' || c == '\U{2028}' || c == '\U{2029}'
  }

  /** Every character of `s` is whitespace (vacuously so for ""). */
  predicate IsBlank(s: string) {
    forall i :: 0 <= i < |s| ==> IsSpace(s[i])
  }

  /** The number of whitespace characters `s` starts with. */
  function LeadingBlank(s: string): (n: nat)
    ensures n <= |s| && IsBlank(s[..n])
    ensures n < |s| ==> !IsSpace(s[n])
  {
    if |s| > 0 && IsSpace(s[0]) then
      var m := LeadingBlank(s[1..]);
      m + 1
    else 0
  }

  /** The length of `s` once its trailing whitespace is dropped. */
  function BeforeTrailingBlank(s: string): (n: nat)
    ensures n <= |s| && IsBlank(s[n..])
    ensures n > 0 ==> !IsSpace(s[n - 1])
  {
    if |s| > 0 && IsSpace(s[|s| - 1]) then
      var m := BeforeTrailingBlank(s[..|s| - 1]);
      assert forall i :: 0 <= i < |s| - 1 - m ==> s[m..][i] == s[..|s| - 1][m..][i];
      m
    else |s|
  }

  /** `s.trimStart()`: the suffix left after dropping the leading whitespace. */
  function TrimStart(s: string): (r: string)
    ensures |r| <= |s| && r == s[|s| - |r|..]
    ensures IsBlank(s[..|s| - |r|])
    ensures |r| > 0 ==> !IsSpace(r[0])
  {
    s[LeadingBlank(s)..]
  }

  /** `s.trimEnd()`: the prefix left after dropping the trailing whitespace. */
  function TrimEnd(s: string): (r: string)
    ensures |r| <= |s| && r == s[..|r|]
    ensures IsBlank(s[|r|..])
    ensures |r| > 0 ==> !IsSpace(r[|r| - 1])
  {
    s[..BeforeTrailingBlank(s)]
  }

  /**
   * `s.trim()`: the contiguous middle of `s` left once the whitespace at both
   * ends is cut off; neither end of the result is whitespace.
   */
  function Trim(s: string): (r: string)
    ensures |r| <= |s|
    ensures |r| > 0 ==> !IsSpace(r[0]) && !IsSpace(r[|r| - 1])
    ensures exists a :: 0 <= a <= |s| - |r| && r == s[a..a + |r|] && IsBlank(s[..a]) && IsBlank(s[a + |r|..])
  {
    var t := TrimStart(s);
    var r := TrimEnd(t);
    var a := |s| - |t|;
    assert r == s[a..a + |r|] && s[a + |r|..] == t[|r|..];
    r
  }

  /** `s.trim()` is empty (falsy) exactly when `s` is all whitespace. */
  lemma TrimEmptyIffBlank(s: string)
    ensures Trim(s) == "" <==> IsBlank(s)
  {
    var t := TrimStart(s);
    if Trim(s) == "" {
      assert IsBlank(t[0..]);
      assert s[..|s| - |t|] == s;
    }
  }

  /** `s` with every whitespace character deleted. */
  function RemoveWhitespace(s: string): (r: string)
    ensures |r| <= |s|
    ensures forall i :: 0 <= i < |r| ==> !IsSpace(r[i])
  {
    if |s| == 0 then ""
    else (if IsSpace(s[0]) then "" else [s[0]]) + RemoveWhitespace(s[1..])
  }

  lemma {:induction false} RemoveWhitespaceAppend(a: string, b: string)
    ensures RemoveWhitespace(a + b) == RemoveWhitespace(a) + RemoveWhitespace(b)
    decreases |a|
  {
    if |a| > 0 {
      assert (a + b)[1..] == a[1..] + b;
      RemoveWhitespaceAppend(a[1..], b);
    } else {
      assert a + b == b;
    }
  }

  lemma {:induction false} RemoveWhitespaceOfBlank(s: string)
    requires IsBlank(s)
    ensures RemoveWhitespace(s) == ""
    decreases |s|
  {
    if |s| > 0 {
      RemoveWhitespaceOfBlank(s[1..]);
    }
  }

  /** A string without whitespace is unchanged by deleting whitespace. */
  lemma {:induction false} RemoveWhitespaceOfSolid(s: string)
    requires forall i :: 0 <= i < |s| ==> !IsSpace(s[i])
    ensures RemoveWhitespace(s) == s
    decreases |s|
  {
    if |s| > 0 {
      RemoveWhitespaceOfSolid(s[1..]);
      assert s == [s[0]] + s[1..];
    }
  }

  lemma BlankPrefixVanishes(a: string, b: string)
    requires IsBlank(a)
    ensures RemoveWhitespace(a + b) == RemoveWhitespace(b)
  {
    RemoveWhitespaceAppend(a, b);
    RemoveWhitespaceOfBlank(a);
  }

  lemma BlankSuffixVanishes(a: string, b: string)
    requires IsBlank(b)
    ensures RemoveWhitespace(a + b) == RemoveWhitespace(a)
  {
    RemoveWhitespaceAppend(a, b);
    RemoveWhitespaceOfBlank(b);
  }

  /** `trim` deletes only whitespace: the non-whitespace characters survive, in order. */
  lemma TrimKeepsNonWhitespace(s: string)
    ensures RemoveWhitespace(Trim(s)) == RemoveWhitespace(s)
  {
    var t := TrimStart(s);
    TrimStartKeepsNonWhitespace(s, t);
    TrimEndKeepsNonWhitespace(t, TrimEnd(t));
  }

  lemma TrimStartKeepsNonWhitespace(s: string, t: string)
    requires t == TrimStart(s)
    ensures RemoveWhitespace(t) == RemoveWhitespace(s)
  {
    var p := s[..|s| - |t|];
    assert s == p + t;
    BlankPrefixVanishes(p, t);
  }

  lemma TrimEndKeepsNonWhitespace(t: string, r: string)
    requires r == TrimEnd(t)
    ensures RemoveWhitespace(r) == RemoveWhitespace(t)
  {
    var q := t[|r|..];
    assert t == r + q;
    BlankSuffixVanishes(r, q);
  }

  /**
   * `s.replace(/([A-Z])/g, ' $1')`: a space put in front of every ASCII
   * capital. Only spaces are added, and every capital ends up right after one.
   */
  function SpaceBeforeCapitals(s: string): (r: string)
    ensures |r| >= |s|
    ensures RemoveWhitespace(r) == RemoveWhitespace(s)
    ensures |r| > 0 ==> !IsUpper(r[0])
    ensures forall i :: 0 <= i < |r| && IsUpper(r[i]) ==> 0 < i && r[i - 1] == ' '
  {
    if |s| == 0 then ""
    else
      var head := if IsUpper(s[0]) then [' ', s[0]] else [s[0]];
      var rest := SpaceBeforeCapitals(s[1..]);
      RemoveWhitespaceAppend(head, rest);
      RemoveWhitespaceAppend([s[0]], s[1..]);
      assert s == [s[0]] + s[1..];
      head + rest
  }

  /** Every space standing directly in front of an ASCII capital deleted. */
  function DropSpaceBeforeCapitals(r: string): string
    decreases |r|
  {
    if |r| == 0 then ""
    else if |r| >= 2 && r[0] == ' ' && IsUpper(r[1]) then DropSpaceBeforeCapitals(r[1..])
    else [r[0]] + DropSpaceBeforeCapitals(r[1..])
  }

  /**
   * `DropSpaceBeforeCapitals` undoes `SpaceBeforeCapitals` on every string:
   * exactly one space was inserted in front of each capital, and nothing else
   * changed.
   */
  lemma {:induction false} DropUndoesSpacing(s: string)
    ensures DropSpaceBeforeCapitals(SpaceBeforeCapitals(s)) == s
    decreases |s|
  {
    if |s| > 0 {
      DropUndoesSpacing(s[1..]);
      var rest := SpaceBeforeCapitals(s[1..]);
      var r := SpaceBeforeCapitals(s);
      if IsUpper(s[0]) {
        assert r == [' ', s[0]] + rest;
        assert r[1..] == [s[0]] + rest;
        assert r[1..][1..] == rest;
      } else {
        assert r == [s[0]] + rest;
        assert r[1..] == rest;
      }
      assert s == [s[0]] + s[1..];
    }
  }

  /** Every whitespace character of `r` is a plain space directly in front of an ASCII capital. */
  predicate SpacesPrecedeCapitals(r: string) {
    forall i :: 0 <= i < |r| && IsSpace(r[i]) ==> r[i] == ' ' && i + 1 < |r| && IsUpper(r[i + 1])
  }

  /** Every ASCII capital of `r`, except one in first position, has a space directly in front of it. */
  predicate CapitalsAfterSpace(r: string) {
    forall i :: 0 < i < |r| && IsUpper(r[i]) ==> r[i - 1] == ' '
  }

  /**
   * Trimming a string split into words at its capitals keeps it so: the
   * middle that `trim` keeps has the same two properties.
   */
  lemma TrimKeepsWordSplit(t: string)
    requires SpacesPrecedeCapitals(t) && CapitalsAfterSpace(t)
    ensures SpacesPrecedeCapitals(Trim(t)) && CapitalsAfterSpace(Trim(t))
  {
    var l := Trim(t);
    var a :| 0 <= a <= |t| - |l| && l == t[a..a + |l|];
    forall i | 0 <= i < |l| && IsSpace(l[i])
      ensures l[i] == ' ' && i + 1 < |l| && IsUpper(l[i + 1])
    {
      assert l[i] == t[a + i];
      assert i != |l| - 1;
      assert l[i + 1] == t[a + i + 1];
    }
    forall i | 0 < i < |l| && IsUpper(l[i])
      ensures l[i - 1] == ' '
    {
      assert l[i] == t[a + i] && l[i - 1] == t[a + i - 1];
    }
  }

  /**
   * In a string without whitespace, the only whitespace `SpaceBeforeCapitals`
   * produces is a plain space directly in front of a capital.
   */
  lemma {:induction false} SpacesOnlyBeforeCapitals(s: string)
    requires forall j :: 0 <= j < |s| ==> !IsSpace(s[j])
    ensures SpacesPrecedeCapitals(SpaceBeforeCapitals(s))
    decreases |s|
  {
    if |s| > 0 {
      SpacesOnlyBeforeCapitals(s[1..]);
      var rest := SpaceBeforeCapitals(s[1..]);
      assert SpacesPrecedeCapitals(rest);
      var head := if IsUpper(s[0]) then [' ', s[0]] else [s[0]];
      var r := SpaceBeforeCapitals(s);
      assert r == head + rest;
      forall i | 0 <= i < |r| && IsSpace(r[i])
        ensures r[i] == ' ' && i + 1 < |r| && IsUpper(r[i + 1])
      {
        if i >= |head| {
          var j := i - |head|;
          assert r[i] == rest[j];
          assert IsSpace(rest[j]);
          assert j + 1 < |rest|;
          assert r[i + 1] == rest[j + 1];
        } else if IsUpper(s[0]) {
          assert r[0] == ' ' && r[1] == s[0];
        }
      }
    }
  }

  /** `s.indexOf(c)`: the first index holding `c`, or -1 when there is none. */
  function IndexOf(s: string, c: char): (i: int)
    ensures -1 <= i < |s|
    ensures i == -1 <==> c !in s
    ensures 0 <= i ==> s[i] == c && c !in s[..i]
  {
    if |s| == 0 then -1
    else if s[0] == c then 0
    else
      var j := IndexOf(s[1..], c);
      if j < 0 then -1
      else
        assert s[..j + 1] == [s[0]] + s[1..][..j];
        j + 1
  }

  /**
   * `s.replace(from, to)` with one-character string arguments: only the FIRST
   * occurrence of `from` is replaced, and a string without `from` is returned as is.
   */
  function ReplaceFirst(s: string, from: char, to: char): (r: string)
    ensures |r| == |s|
    ensures from !in s ==> r == s
    ensures forall k :: 0 <= k < |s| ==> r[k] == (if k == IndexOf(s, from) then to else s[k])
  {
    var i := IndexOf(s, from);
    if i < 0 then s else s[..i] + [to] + s[i + 1..]
  }

  /** Only the first occurrence changes: any later `from` is still there. */
  lemma ReplaceFirstKeepsLaterOccurrences(s: string, from: char, to: char, j: int)
    requires IndexOf(s, from) < j < |s| && s[j] == from && from in s
    ensures ReplaceFirst(s, from, to)[j] == from
  {
  }

  /** A character that occurs at most once is gone after its first occurrence is replaced. */
  lemma ReplaceFirstSingle(s: string, from: char, to: char)
    requires from != to
    requires forall i, j :: 0 <= i < j < |s| && s[i] == from ==> s[j] != from
    ensures from !in ReplaceFirst(s, from, to)
  {
  }

  /** `s` with every `from` replaced by `to`. */
  function ReplaceAll(s: string, from: char, to: char): (r: string)
    ensures |r| == |s|
    ensures forall i :: 0 <= i < |s| ==> r[i] == (if s[i] == from then to else s[i])
  {
    if |s| == 0 then "" else [if s[0] == from then to else s[0]] + ReplaceAll(s[1..], from, to)
  }

  /** `ReplaceAll(s, from, to)` is `t` when `t` spells the replacement character by character. */
  lemma ReplaceAllSpelled(s: string, from: char, to: char, t: string)
    requires |s| == |t| && forall i :: 0 <= i < |s| ==> t[i] == (if s[i] == from then to else s[i])
    ensures ReplaceAll(s, from, to) == t
  {
  }

  /** Replacing a character that does not occur changes nothing. */
  lemma ReplaceAllAbsent(s: string, from: char, to: char)
    requires from !in s
    ensures ReplaceAll(s, from, to) == s
  {
  }
}
