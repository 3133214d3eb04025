/**
  The JavaBeans-style capitalisation used to build the expected setter name.
  Character classification is ASCII: `A`..`Z` are upper case and `a`..`z`
  map to them.
*/
module Naming {

  /** The upper-case letters are exactly those of the Latin alphabet. */
  predicate IsUpperCase(ch: char)
    ensures IsUpperCase(ch) <==> ch in "ABCDEFGHIJKLMNOPQRSTUVWXYZ"
  {
    'A' <= ch <= 'Z'
  }

  predicate IsLowerCase(ch: char)
  {
    'a' <= ch <= 'z'
  }

  function ToUpperCase(ch: char): (u: char)
    ensures IsLowerCase(ch) ==> IsUpperCase(u) && u as int == ch as int - 32
    ensures !IsLowerCase(ch) ==> u == ch
    ensures !IsLowerCase(u)
  {
    if IsLowerCase(ch) then (ch as int - 32) as char else ch
  }

  /**
    The property name as it appears after `set`: the first character upper-cased,
    unless the second character is already upper case (`xYzz` names the property
    whose setter is `setxYzz`, not `setXYzz`).
  */
  function Capitalize(s: string): (r: string)
    ensures |r| == |s|
    ensures forall k :: 1 <= k < |s| ==> r[k] == s[k]
    ensures |s| > 0 ==> r[0] == s[0] || r[0] == ToUpperCase(s[0])
    ensures |s| > 1 && IsUpperCase(s[1]) ==> r == s
    ensures |s| > 0 && !(|s| > 1 && IsUpperCase(s[1])) ==> !IsLowerCase(r[0])
  {
    if |s| == 0 then s
    else if |s| > 1 && IsUpperCase(s[1]) then s
    else [ToUpperCase(s[0])] + s[1..]
  }

  /** Capitalising twice is capitalising once. */
  lemma CapitalizeIdempotent(s: string)
    ensures Capitalize(Capitalize(s)) == Capitalize(s)
  {
  }

  /**
    Two names with the same capitalisation differ at most in the case of their
    first character; so a setter name determines its parameter name up to that.
  */
  lemma CapitalizeCollision(a: string, b: string)
    requires Capitalize(a) == Capitalize(b)
    ensures |a| == |b|
    ensures |a| > 0 ==> a[1..] == b[1..] && ToUpperCase(a[0]) == ToUpperCase(b[0])
    ensures |a| > 1 && IsUpperCase(a[1]) ==> a == b
  {
  }

  /** The worked examples: `time`, `xYzz`, and the empty name. */
  lemma CapitalizeExamples()
    ensures Capitalize("time") == "Time"
    ensures Capitalize("xYzz") == "xYzz"
    ensures Capitalize("") == ""
    ensures Capitalize("t") == "T"
  {
  }
}
