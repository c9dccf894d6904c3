/**
 * String helpers with the meaning the application's JavaScript gives them:
 * ASCII case mapping (`toLowerCase` / `toUpperCase` on ASCII text),
 * `String.prototype.includes` and `String.prototype.slice`.
 */
module Text {

  /** Lower-cases one ASCII letter; every other character is left as it is. */
  function LowerChar(c: char): char {
    if 'A' <= c <= 'Z' then (c as int + 32) as char else c
  }

  /** Upper-cases one ASCII letter; every other character is left as it is. */
  function UpperChar(c: char): char {
    if 'a' <= c <= 'z' then (c as int - 32) as char else c
  }

  /** `s.toLowerCase()`, restricted to ASCII. */
  function Lower(s: string): (r: string)
    ensures |r| == |s|
    ensures forall i :: 0 <= i < |s| ==> r[i] == LowerChar(s[i])
  {
    seq(|s|, i requires 0 <= i < |s| => LowerChar(s[i]))
  }

  /** `s.toUpperCase()`, restricted to ASCII. */
  function Upper(s: string): (r: string)
    ensures |r| == |s|
    ensures forall i :: 0 <= i < |s| ==> r[i] == UpperChar(s[i])
  {
    seq(|s|, i requires 0 <= i < |s| => UpperChar(s[i]))
  }

  predicate IsUpperCase(s: string) {
    forall i :: 0 <= i < |s| ==> !('a' <= s[i] <= 'z')
  }

  /** Upper-casing leaves no lower-case letter behind, and doing it twice changes nothing. */
  lemma UpperNormalises(s: string)
    ensures IsUpperCase(Upper(s))
    ensures Upper(Upper(s)) == Upper(s)
  {
  }

  /** Lower-casing twice changes nothing. */
  lemma LowerIdempotent(s: string)
    ensures Lower(Lower(s)) == Lower(s)
  {
  }

  /** `needle` occurs in `hay` starting at position `i`. */
  predicate OccursAt(hay: string, needle: string, i: int) {
    0 <= i && i + |needle| <= |hay| && hay[i..i + |needle|] == needle
  }

  /** `hay.includes(needle)`: the needle occurs at some start position. */
  predicate Includes(hay: string, needle: string) {
    exists i | 0 <= i <= |hay| - |needle| :: OccursAt(hay, needle, i)
  }

  /** Every string includes the empty string (an empty search matches everything). */
  lemma IncludesEmpty(hay: string)
    ensures Includes(hay, "")
  {
    assert OccursAt(hay, "", 0);
  }

  /** A needle that occurs at a known position is included. */
  lemma IncludesAt(hay: string, needle: string, i: int)
    requires OccursAt(hay, needle, i)
    ensures Includes(hay, needle)
  {
  }

  /** A needle holding a character the haystack lacks is not included. */
  lemma NotIncludesMissingChar(hay: string, needle: string, c: char)
    requires c in needle && c !in hay
    ensures !Includes(hay, needle)
  {
  }

  /** Clamps a `slice` argument as JavaScript does: negative counts from the end. */
  function SliceIndex(len: nat, k: int): (r: nat)
    ensures r <= len
    ensures k >= 0 ==> r == if k < len then k else len
    ensures k < 0 ==> r == if len + k > 0 then len + k else 0
  {
    if k < 0 then (if len + k > 0 then len + k else 0)
    else if k < len then k else len
  }

  /** `s.slice(start, end)`: empty when the clamped end is not after the clamped start. */
  function Slice(s: string, start: int, end: int): (r: string)
    ensures |r| <= |s|
  {
    var b := SliceIndex(|s|, start);
    var e := SliceIndex(|s|, end);
    if b < e then s[b..e] else ""
  }

  /** `s.slice(start)`: from the clamped start to the end. */
  function SliceFrom(s: string, start: int): (r: string)
    ensures |r| <= |s|
  {
    s[SliceIndex(|s|, start)..]
  }

  /** `slice(0, n)` keeps the first `n` characters, or all of a shorter string. */
  lemma SlicePrefix(s: string, n: nat)
    ensures Slice(s, 0, n) == if n < |s| then s[..n] else s
  {
  }

  /** `slice(-n)` keeps the last `n` characters, or all of a shorter string. */
  lemma SliceSuffix(s: string, n: nat)
    requires n > 0
    ensures SliceFrom(s, -(n as int)) == if n < |s| then s[|s| - n..] else s
  {
  }
}
