/** String operations of JavaScript that the core relies on, on `seq<char>`:
    startsWith, substring and slice with their index clamping, an ASCII
    toUpperCase, substring containment (the database's `contains` filter),
    a case-insensitive variant of it, and the 8-4-4-4-12 hexadecimal layout that zod's `uuid()` accepts. */
module Text {

  predicate StartsWith(s: string, prefix: string) {
    |prefix| <= |s| && s[..|prefix|] == prefix
  }

  /** `p` occurs somewhere in `s`. */
  predicate Contains(s: string, p: string)
    decreases |s|
  {
    StartsWith(s, p) || (|s| > 0 && Contains(s[1..], p))
  }

  lemma ContainsSelf(s: string)
    ensures Contains(s, s)
  {
  }

  function Clamp(i: int, n: nat): (r: nat)
    ensures r <= n
    ensures 0 <= i <= n ==> r == i
  {
    if i < 0 then 0 else if i > n then n else i
  }

  /** String.prototype.substring(start, end): both bounds are clamped to
      [0, |s|] and swapped when start exceeds end. */
  function JsSubstring(s: string, start: int, end: int): (r: string)
    ensures |r| <= |s|
    ensures 0 <= start <= end <= |s| ==> r == s[start..end]
  {
    var a, b := Clamp(start, |s|), Clamp(end, |s|);
    if a <= b then s[a..b] else s[b..a]
  }

  /** String.prototype.slice(start, end) for non-negative bounds: clamped to
      |s| and empty when start is not before end. */
  function JsSlice(s: string, start: nat, end: nat): (r: string)
    ensures |r| == (if start < end && start < |s| then (if end <= |s| then end else |s|) - start else 0)
    ensures start < end && start < |s| ==> r == s[start..(if end <= |s| then end else |s|)]
    ensures !(start < end && start < |s|) ==> r == []
  {
    var a, b := Clamp(start, |s|), Clamp(end, |s|);
    if a < b then s[a..b] else []
  }

  predicate IsLower(c: char) {
    'a' <= c <= 'z'
  }

  /** toUpperCase on ASCII letters; every other character is kept. */
  function UpperChar(c: char): (u: char)
    ensures !IsLower(u)
    ensures IsLower(c) ==> u as int == c as int - 32
    ensures !IsLower(c) ==> u == c
  {
    if IsLower(c) then (c as int - 32) as char else c
  }

  function ToUpper(s: string): (r: string)
    ensures |r| == |s|
    ensures forall i :: 0 <= i < |s| ==> r[i] == UpperChar(s[i])
  {
    if s == [] then [] else [UpperChar(s[0])] + ToUpper(s[1..])
  }

  /** The database's `contains` filter in its case-insensitive mode. */
  predicate ContainsIgnoringCase(s: string, p: string) {
    Contains(ToUpper(s), ToUpper(p))
  }

  lemma ContainsIgnoringCaseSelf(s: string)
    ensures ContainsIgnoringCase(s, s)
  {
    ContainsSelf(ToUpper(s));
  }

  lemma StartsWithUpper(s: string, p: string)
    requires StartsWith(s, p)
    ensures StartsWith(ToUpper(s), ToUpper(p))
  {
    assert ToUpper(s)[..|p|] == ToUpper(p);
  }

  /** Whatever the case-sensitive filter finds, the insensitive one finds;
      and the case of either side does not matter to it. */
  lemma {:induction false} ContainsIgnoresCase(s: string, p: string)
    ensures Contains(s, p) ==> ContainsIgnoringCase(s, p)
    ensures ContainsIgnoringCase(ToUpper(s), p) == ContainsIgnoringCase(s, p)
    ensures ContainsIgnoringCase(s, ToUpper(p)) == ContainsIgnoringCase(s, p)
    decreases |s|
  {
    UpperIdempotent(s);
    UpperIdempotent(p);
    if Contains(s, p) && !StartsWith(s, p) {
      ContainsIgnoresCase(s[1..], p);
      assert ToUpper(s)[1..] == ToUpper(s[1..]);
    } else if StartsWith(s, p) {
      StartsWithUpper(s, p);
    }
  }

  lemma UpperIdempotent(s: string)
    ensures ToUpper(ToUpper(s)) == ToUpper(s)
  {
  }

  predicate IsHex(c: char) {
    ('0' <= c <= '9') || ('a' <= c <= 'f') || ('A' <= c <= 'F')
  }

  predicate HexRun(s: string, from: nat, to: nat)
    requires from <= to <= |s|
  {
    forall i :: from <= i < to ==> IsHex(s[i])
  }

  /** Five hexadecimal groups of 8, 4, 4, 4 and 12 characters joined by '-'. */
  predicate IsUuid(s: string) {
    |s| == 36 && s[8] == '-' && s[13] == '-' && s[18] == '-' && s[23] == '-'
    && HexRun(s, 0, 8) && HexRun(s, 9, 13) && HexRun(s, 14, 18)
    && HexRun(s, 19, 23) && HexRun(s, 24, 36)
  }
}
