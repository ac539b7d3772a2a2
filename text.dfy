/**
 * The string operations the sorter relies on: lower-casing, prefix tests and
 * substring search, on Dafny strings (sequences of characters).
 */
module Text {

  /** Lower-cases one character: the ASCII capitals 'A'..'Z' become 'a'..'z', every other character is kept. */
  function LowerChar(c: char): char {
    if 'A' <= c <= 'Z' then (c as int + 32) as char else c
  }

  /** Lower-cases a string character by character. */
  function ToLower(s: string): string
    decreases |s|
  {
    if s == [] then [] else [LowerChar(s[0])] + ToLower(s[1..])
  }

  /** A string holds no ASCII capital. */
  predicate IsLower(s: string) {
    forall i :: 0 <= i < |s| ==> !('A' <= s[i] <= 'Z')
  }

  /** Lower-casing keeps the length and lower-cases each character in place. */
  lemma {:induction false} ToLowerAt(s: string)
    ensures |ToLower(s)| == |s|
    ensures forall i :: 0 <= i < |s| ==> ToLower(s)[i] == LowerChar(s[i])
    decreases |s|
  {
    if s != [] {
      ToLowerAt(s[1..]);
      assert forall i :: 1 <= i < |s| ==> ToLower(s)[i] == ToLower(s[1..])[i - 1];
    }
  }

  /** The result of lower-casing holds no capital. */
  lemma ToLowerIsLower(s: string)
    ensures IsLower(ToLower(s))
  {
    ToLowerAt(s);
  }

  /** Lower-casing leaves a string without capitals unchanged. */
  lemma ToLowerKeepsLower(s: string)
    requires IsLower(s)
    ensures ToLower(s) == s
  {
    ToLowerAt(s);
  }

  /** Lower-casing twice is lower-casing once. */
  lemma ToLowerIdempotent(s: string)
    ensures ToLower(ToLower(s)) == ToLower(s)
  {
    ToLowerIsLower(s);
    ToLowerKeepsLower(ToLower(s));
  }

  /** `s` begins with `prefix` (Rust's str::starts_with). */
  predicate StartsWith(s: string, prefix: string) {
    |prefix| <= |s| && s[..|prefix|] == prefix
  }

  /** `needle` occurs in `s` starting at position `i`. */
  predicate OccursAt(s: string, needle: string, i: int) {
    0 <= i && i + |needle| <= |s| && s[i..i + |needle|] == needle
  }

  /** `needle` occurs somewhere in `s` (Rust's str::contains), searched from the left. */
  predicate Contains(s: string, needle: string)
    decreases |s|
  {
    StartsWith(s, needle) || (s != [] && Contains(s[1..], needle))
  }

  /** The search finds the needle exactly when it occurs at some position. */
  lemma {:induction false} ContainsIffOccurs(s: string, needle: string)
    ensures Contains(s, needle) <==> exists i :: OccursAt(s, needle, i)
    decreases |s|
  {
    if s == [] {
      assert Contains(s, needle) <==> needle == [];
      assert needle == [] ==> OccursAt(s, needle, 0);
      if exists i :: OccursAt(s, needle, i) {
        var i :| OccursAt(s, needle, i);
        assert needle == [];
      }
    } else {
      ContainsIffOccurs(s[1..], needle);
      if Contains(s, needle) {
        if StartsWith(s, needle) {
          assert OccursAt(s, needle, 0);
        } else {
          var j :| OccursAt(s[1..], needle, j);
          assert s[1..][j..j + |needle|] == s[j + 1..j + 1 + |needle|];
          assert OccursAt(s, needle, j + 1);
        }
      }
      if exists i :: OccursAt(s, needle, i) {
        var i :| OccursAt(s, needle, i);
        if i == 0 {
          assert StartsWith(s, needle);
        } else {
          assert s[1..][i - 1..i - 1 + |needle|] == s[i..i + |needle|];
          assert OccursAt(s[1..], needle, i - 1);
        }
      }
    }
  }

  /** A needle with a character that `s` lacks is not found in `s`. */
  lemma AbsentCharExcludes(s: string, needle: string, k: nat)
    requires k < |needle| && needle[k] !in s
    ensures !Contains(s, needle)
  {
    forall i | 0 <= i
      ensures !OccursAt(s, needle, i)
    {
      if i + |needle| <= |s| {
        assert s[i..i + |needle|][k] == s[i + k];
      }
    }
    ContainsIffOccurs(s, needle);
  }
}
