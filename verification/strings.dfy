/** Case mapping of Go's `strings` package, restricted to ASCII letters. */
module Strings {

  predicate IsUpper(ch: char) {
    'A' <= ch <= 'Z'
  }

  function LowerChar(ch: char): (r: char)
    ensures !IsUpper(r)
  {
    if IsUpper(ch) then (ch as int + 32) as char else ch
  }

  /** `strings.EqualFold` on ASCII: equal up to the case of letters. */
  predicate EqualFold(a: string, b: string) {
    |a| == |b| && forall i :: 0 <= i < |a| ==> LowerChar(a[i]) == LowerChar(b[i])
  }

  /**
   * `strings.ToLower`: the same string with every upper-case letter replaced
   * by its lower-case counterpart and every other character kept.
   */
  function ToLower(s: string): (r: string)
    ensures |r| == |s|
    ensures forall i :: 0 <= i < |r| ==> !IsUpper(r[i])
    ensures forall i :: 0 <= i < |r| ==> r[i] == s[i] || (IsUpper(s[i]) && r[i] as int == s[i] as int + 32)
  {
    if s == [] then [] else [LowerChar(s[0])] + ToLower(s[1..])
  }

  /** Lower-casing twice is lower-casing once. */
  lemma ToLowerIdempotent(s: string)
    ensures ToLower(ToLower(s)) == ToLower(s)
  {
  }

  /** Two strings lower-case to the same string exactly when they are equal up to case. */
  lemma ToLowerEqualIffEqualFold(a: string, b: string)
    ensures ToLower(a) == ToLower(b) <==> EqualFold(a, b)
  {
  }
}
