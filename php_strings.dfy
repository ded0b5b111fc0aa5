/**
 * The two PHP string built-ins the core relies on: `lcfirst` and `ucfirst`.
 * Since PHP 8.2 both are locale-independent and only touch the ASCII letters
 * A-Z / a-z; every other first character is left as it is.
 */
module PhpStrings {

  predicate IsAsciiUpper(c: char) { 'A' <= c <= 'Z' }

  predicate IsAsciiLower(c: char) { 'a' <= c <= 'z' }

  function ToAsciiLower(c: char): (d: char)
    ensures !IsAsciiUpper(d)
    ensures IsAsciiUpper(c) ==> IsAsciiLower(d)
    ensures !IsAsciiUpper(c) ==> d == c
  {
    if IsAsciiUpper(c) then (c as int + 32) as char else c
  }

  function ToAsciiUpper(c: char): (d: char)
    ensures !IsAsciiLower(d)
    ensures IsAsciiLower(c) ==> IsAsciiUpper(d)
    ensures !IsAsciiLower(c) ==> d == c
  {
    if IsAsciiLower(c) then (c as int - 32) as char else c
  }

  /** `lcfirst`: only the first character may change, and afterwards it is not an upper-case letter. */
  function LcFirst(s: string): (r: string)
    ensures |r| == |s|
    ensures forall i :: 0 < i < |s| ==> r[i] == s[i]
    ensures |s| > 0 ==> !IsAsciiUpper(r[0])
    ensures s == [] || !IsAsciiUpper(s[0]) ==> r == s
  {
    if s == [] then s else [ToAsciiLower(s[0])] + s[1..]
  }

  /** `ucfirst`: only the first character may change, and afterwards it is not a lower-case letter. */
  function UcFirst(s: string): (r: string)
    ensures |r| == |s|
    ensures forall i :: 0 < i < |s| ==> r[i] == s[i]
    ensures |s| > 0 ==> !IsAsciiLower(r[0])
    ensures s == [] || !IsAsciiLower(s[0]) ==> r == s
  {
    if s == [] then s else [ToAsciiUpper(s[0])] + s[1..]
  }

  /** Upper-casing then lower-casing the first character gives the string back exactly when it did not start upper-case. */
  lemma LcFirstOfUcFirst(s: string)
    ensures LcFirst(UcFirst(s)) == s <==> (s == [] || !IsAsciiUpper(s[0]))
  {
    if s != [] {
      var r := LcFirst(UcFirst(s));
      if IsAsciiLower(s[0]) {
        assert r[0] == s[0];
        assert r == [r[0]] + r[1..];
        assert s == [s[0]] + s[1..];
      }
    }
  }

  /** Lower-casing then upper-casing the first character gives the string back exactly when it did not start lower-case. */
  lemma UcFirstOfLcFirst(s: string)
    ensures UcFirst(LcFirst(s)) == s <==> (s == [] || !IsAsciiLower(s[0]))
  {
    if s != [] {
      var r := UcFirst(LcFirst(s));
      if IsAsciiUpper(s[0]) {
        assert r[0] == s[0];
        assert r == [r[0]] + r[1..];
        assert s == [s[0]] + s[1..];
      }
    }
  }
}
