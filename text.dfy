/** Upper-casing of names, as String.toUpperCase does it for the letters a-z. */
module Text {

  predicate IsLowerAscii(c: char)
  {
    'a' <= c <= 'z'
  }

  /** The upper-case form of one character: a-z become A-Z, all else stays. */
  function UpperChar(c: char): (r: char)
    ensures !IsLowerAscii(r)
    ensures !IsLowerAscii(c) ==> r == c
    ensures IsLowerAscii(c) ==> 'A' <= r <= 'Z' && r as int == c as int - 32
  {
    if IsLowerAscii(c) then (c as int - 32) as char else c
  }

  /** No character of s is a lower-case letter. */
  predicate IsUpperCase(s: string)
  {
    forall i :: 0 <= i < |s| ==> !IsLowerAscii(s[i])
  }

  /** String.toUpperCase: every character replaced by its upper-case form. */
  function ToUpper(s: string): (r: string)
    ensures |r| == |s|
    ensures forall i :: 0 <= i < |s| ==> r[i] == UpperChar(s[i])
  {
    if s == [] then [] else [UpperChar(s[0])] + ToUpper(s[1..])
  }

  /** The result of upper-casing holds no lower-case letter. */
  lemma ToUpperIsUpperCase(s: string)
    ensures IsUpperCase(ToUpper(s))
  {
  }

  /** A string with no lower-case letter is its own upper-case form. */
  lemma ToUpperKeepsUpperCase(s: string)
    requires IsUpperCase(s)
    ensures ToUpper(s) == s
  {
  }

  /** Upper-casing twice is upper-casing once. */
  lemma ToUpperIdempotent(s: string)
    ensures ToUpper(ToUpper(s)) == ToUpper(s)
  {
    ToUpperIsUpperCase(s);
    ToUpperKeepsUpperCase(ToUpper(s));
  }
}
