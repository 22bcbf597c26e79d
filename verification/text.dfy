/**
 * The JavaScript string operations the source relies on: `String.prototype.trim`,
 * `String.prototype.toLowerCase` and `String.prototype.includes`.
 */
module Text {
  import Seqs

  /** The characters `trim` strips: ECMAScript's WhiteSpace and LineTerminator sets
    * (tab, line tab, form feed, space, no-break space, byte-order mark, the other
    * space separators, and LF, CR, LS, PS). */
  predicate IsWhitespace(c: char) {
    var n := c as int;
    n == 0x09 || n == 0x0A || n == 0x0B || n == 0x0C || n == 0x0D || n == 0x20
    || n == 0xA0 || n == 0x1680 || (0x2000 <= n <= 0x200A) || n == 0x2028 || n == 0x2029
    || n == 0x202F || n == 0x205F || n == 0x3000 || n == 0xFEFF
  }

  /** Every character of `s` is whitespace (so `s.trim()` is the empty, falsy string). */
  ghost predicate IsBlank(s: string) {
    forall k :: 0 <= k < |s| ==> IsWhitespace(s[k])
  }

  /** `s` with its leading whitespace removed. */
  function TrimStart(s: string): (r: string)
    ensures |r| <= |s| && r == s[|s| - |r|..]
    ensures r == [] || !IsWhitespace(r[0])
    ensures forall k :: 0 <= k < |s| - |r| ==> IsWhitespace(s[k])
  {
    if s != [] && IsWhitespace(s[0]) then TrimStart(s[1..]) else s
  }

  /** `s` with its trailing whitespace removed. */
  function TrimEnd(s: string): (r: string)
    ensures |r| <= |s| && r == s[..|r|]
    ensures r == [] || !IsWhitespace(r[|r| - 1])
    ensures forall k :: |r| <= k < |s| ==> IsWhitespace(s[k])
  {
    if s != [] && IsWhitespace(s[|s| - 1]) then TrimEnd(s[..|s| - 1]) else s
  }

  /** `r` is the slice `s[i..j]`, and every character of `s` outside it is whitespace. */
  ghost predicate StripsTo(s: string, i: int, j: int, r: string) {
    && 0 <= i <= j <= |s| && s[i..j] == r
    && (forall k :: 0 <= k < i ==> IsWhitespace(s[k]))
    && (forall k :: j <= k < |s| ==> IsWhitespace(s[k]))
  }

  /** `s.trim()`: the slice of `s` left after removing whitespace, and only whitespace,
    * at both ends; it neither starts nor ends with whitespace, and it is empty exactly
    * when `s` is blank. */
  function Trim(s: string): (r: string)
    ensures exists i, j :: StripsTo(s, i, j, r)
    ensures r == [] || (!IsWhitespace(r[0]) && !IsWhitespace(r[|r| - 1]))
    ensures Contains(s, r)
    ensures r == [] <==> IsBlank(s)
  {
    var t := TrimStart(s);
    var r := TrimEnd(t);
    StrippedEnds(s, t, r);
    assert StripsTo(s, |s| - |t|, |s| - |t| + |r|, r);
    r
  }

  /** Let `t` be `s` without a whitespace-only prefix, starting with a non-whitespace
    * character, and `r` be `t` without a whitespace-only suffix. Then `r` is the slice
    * of `s` between the two, and it is empty exactly when every character was whitespace. */
  lemma StrippedEnds(s: string, t: string, r: string)
    requires |t| <= |s| && t == s[|s| - |t|..] && (t == [] || !IsWhitespace(t[0]))
    requires forall k :: 0 <= k < |s| - |t| ==> IsWhitespace(s[k])
    requires |r| <= |t| && r == t[..|r|]
    requires forall k :: |r| <= k < |t| ==> IsWhitespace(t[k])
    requires r == [] || !IsWhitespace(r[|r| - 1])
    ensures r == [] || (!IsWhitespace(r[0]) && !IsWhitespace(r[|r| - 1]))
    ensures OccursAt(s, r, |s| - |t|)
    ensures StripsTo(s, |s| - |t|, |s| - |t| + |r|, r)
    ensures r == [] <==> IsBlank(s)
  {
    var d := |s| - |t|;
    assert r == s[d..d + |r|];
    forall k | d + |r| <= k < |s| ensures IsWhitespace(s[k]) {
      assert s[k] == t[k - d];
    }
    if r == [] {
      assert t == [];
    } else {
      assert r[0] == s[d];
    }
  }

  /** The ASCII upper-case letters mapped to lower case; every other character is kept. */
  function LowerChar(c: char): char {
    if 'A' <= c <= 'Z' then (c as int + 32) as char else c
  }

  /** `s.toLowerCase()`, restricted to the ASCII letters. */
  function ToLower(s: string): (r: string)
    ensures |r| == |s|
    ensures forall i :: 0 <= i < |s| ==> r[i] == LowerChar(s[i])
  {
    Seqs.Map(s, LowerChar)
  }

  /** Lower-casing a second time changes nothing. */
  lemma ToLowerIdempotent(s: string)
    ensures ToLower(ToLower(s)) == ToLower(s)
  {
    var once := ToLower(s);
    forall i | 0 <= i < |s| ensures ToLower(once)[i] == once[i] {
      assert LowerChar(LowerChar(s[i])) == LowerChar(s[i]);
    }
  }

  /** `sub` occurs in `s` starting at position `i`. */
  predicate OccursAt(s: string, sub: string, i: int) {
    0 <= i && i + |sub| <= |s| && s[i..i + |sub|] == sub
  }

  /** `s.includes(sub)`. */
  predicate Contains(s: string, sub: string) {
    exists i | 0 <= i <= |s| :: OccursAt(s, sub, i)
  }

  /** Every string includes the empty string. */
  lemma ContainsEmpty(s: string)
    ensures Contains(s, "")
  {
    assert OccursAt(s, "", 0);
  }
}
