/** Lower-casing of strings, as strings.ToLower does it on ASCII text. */
module Text {

  /** An upper-case ASCII letter. */
  predicate IsUpper(ch: char) {
    'A' <= ch <= 'Z'
  }

  /** The lower-case letter of an upper-case ASCII letter; any other
      character unchanged. */
  function LowerChar(ch: char): char {
    if IsUpper(ch) then (ch as int + 32) as char else ch
  }

  /** Every upper-case ASCII letter becomes its lower-case letter; every
      other character is kept; the length does not change. */
  function ToLower(s: string): (r: string)
    ensures |r| == |s|
    ensures forall i :: 0 <= i < |s| ==> !IsUpper(r[i])
    ensures forall i :: 0 <= i < |s| && !IsUpper(s[i]) ==> r[i] == s[i]
    ensures forall i :: 0 <= i < |s| && IsUpper(s[i]) ==> r[i] as int == s[i] as int + 32
  {
    if s == [] then [] else [LowerChar(s[0])] + ToLower(s[1..])
  }
}
