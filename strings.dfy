/** The string built-ins the client relies on: `toLowerCase`, `indexOf` and `search`. */
module Strings {

  /** Lower-casing of one character; only the ASCII letters A-Z change. */
  function LowerChar(c: char): char {
    if 'A' <= c <= 'Z' then (c as int + 32) as char else c
  }

  /** `s.toLowerCase()`, restricted to ASCII letters. */
  function ToLower(s: string): (r: string)
    ensures |r| == |s|
    ensures forall i :: 0 <= i < |s| ==> r[i] == LowerChar(s[i])
  {
    seq(|s|, i requires 0 <= i < |s| => LowerChar(s[i]))
  }

  /** `needle` occurs in `hay` starting at index `i`. */
  predicate OccursAt(hay: string, needle: string, i: int) {
    0 <= i && i + |needle| <= |hay| && hay[i..i + |needle|] == needle
  }

  /** The first occurrence of `needle` in `hay` at or after `from`, or -1. */
  function IndexFrom(hay: string, needle: string, from: nat): (r: int)
    requires from <= |hay|
    decreases |hay| - from
    ensures r == -1 || (from <= r && OccursAt(hay, needle, r))
    ensures r == -1 ==> forall j :: from <= j ==> !OccursAt(hay, needle, j)
    ensures r != -1 ==> forall j :: from <= j < r ==> !OccursAt(hay, needle, j)
  {
    if from + |needle| > |hay| then -1
    else if hay[from..from + |needle|] == needle then from
    else IndexFrom(hay, needle, from + 1)
  }

  /**
   * `hay.indexOf(needle)`: the index of the first occurrence, or -1 when there
   * is none. The empty string occurs at index 0.
   */
  function IndexOf(hay: string, needle: string): (r: int)
    ensures r == -1 <==> forall j :: !OccursAt(hay, needle, j)
    ensures r != -1 ==> OccursAt(hay, needle, r) && forall j :: 0 <= j < r ==> !OccursAt(hay, needle, j)
  {
    IndexFrom(hay, needle, 0)
  }

  /** `hay.indexOf(needle) !== -1`. */
  predicate Contains(hay: string, needle: string) {
    IndexOf(hay, needle) != -1
  }

  /** Containment holds exactly when some occurrence exists; the empty string is in every string. */
  lemma ContainsIff(hay: string, needle: string)
    ensures Contains(hay, needle) <==> exists j :: OccursAt(hay, needle, j)
    ensures Contains(hay, "")
  {
    assert OccursAt(hay, "", 0);
  }
}
