/** Lower-casing of strings, restricted to the ASCII letters. JavaScript's
    `String.prototype.toLowerCase` follows the full Unicode case tables; the
    status values this model deals with ("Normal", "FAULTY", ...) are ASCII,
    so only 'A'..'Z' are mapped and every other character is kept. */
module Ascii {

  predicate IsUpper(c: char) {
    'A' <= c <= 'Z'
  }

  /** A string with no upper-case ASCII letter left in it. */
  predicate IsLower(s: string) {
    forall i :: 0 <= i < |s| ==> !IsUpper(s[i])
  }

  /** The lower-case partner of an upper-case ASCII letter; any other
      character is returned unchanged. */
  function LowerChar(c: char): (r: char)
    ensures !IsUpper(r)
    ensures !IsUpper(c) ==> r == c
    ensures IsUpper(c) ==> 'a' <= r <= 'z' && r as int - 'a' as int == c as int - 'A' as int
  {
    if IsUpper(c) then (c as int - 'A' as int + 'a' as int) as char else c
  }

  /** Lower-cases `s` character by character. */
  function ToLower(s: string): (r: string)
    ensures |r| == |s|
    ensures forall i :: 0 <= i < |s| ==> r[i] == LowerChar(s[i])
    ensures IsLower(r)
  {
    if |s| == 0 then "" else [LowerChar(s[0])] + ToLower(s[1..])
  }

  /** Lower-casing leaves a string unchanged exactly when it has no
      upper-case letter in it. */
  lemma ToLowerFixesExactlyLower(s: string)
    ensures ToLower(s) == s <==> IsLower(s)
  {
  }

  /** Lower-casing twice is the same as lower-casing once. */
  lemma ToLowerIdempotent(s: string)
    ensures ToLower(ToLower(s)) == ToLower(s)
  {
  }

  /** Lower-casing produces the empty string only from the empty string,
      so the `|| 'unknown'` fallback fires only for an empty status. */
  lemma ToLowerEmptyIff(s: string)
    ensures ToLower(s) == "" <==> s == ""
  {
  }
}
