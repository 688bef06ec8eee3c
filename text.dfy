/**
 * `String.prototype.trim` as the contact form uses it: leading and trailing
 * white space and line terminators are removed, nothing inside is touched.
 */
module Text {

  /** The WhiteSpace and LineTerminator code points of ECMAScript (sections 12.2 and 12.3 of ECMA-262). */
  predicate IsSpace(c: char) {
    || c == '\t' || c == '\n' || c == '\U{000B}' || c == '\U{000C}' || c == '\r' || c == ' '
    || c == '\U{00A0}' || c == '\U{1680}' || ('\U{2000}' <= c <= '\U{200A}')
    || c == '\U{2028}' || c == '\U{2029}' || c == '\U{202F}' || c == '\U{205F}'
    || c == '\U{3000}' || c == '\U{FEFF}'
  }

  predicate AllSpace(s: string) {
    forall i :: 0 <= i < |s| ==> IsSpace(s[i])
  }

  /** Neither the first nor the last character is white space. */
  predicate Unpadded(s: string) {
    s == [] || (!IsSpace(s[0]) && !IsSpace(s[|s| - 1]))
  }

  /** Drops the leading white space: what is left is a suffix of `s` that starts with a non-space. */
  function TrimStart(s: string): (r: string)
    ensures |r| <= |s| && r == s[|s| - |r|..]
    ensures AllSpace(s[..|s| - |r|])
    ensures r == [] || !IsSpace(r[0])
  {
    if s != [] && IsSpace(s[0]) then TrimStart(s[1..]) else s
  }

  /** Drops the trailing white space: what is left is a prefix of `s` that ends with a non-space. */
  function TrimEnd(s: string): (r: string)
    ensures |r| <= |s| && r == s[..|r|]
    ensures AllSpace(s[|r|..])
    ensures r == [] || !IsSpace(r[|r| - 1])
  {
    if s != [] && IsSpace(s[|s| - 1]) then TrimEnd(s[..|s| - 1]) else s
  }

  /**
   * `r` is `s` with white space cut from both ends: `s` is a white-space
   * prefix of length `lo`, then `r`, then a white-space suffix, and `r`
   * itself neither starts nor ends with white space.
   */
  predicate TrimmedInfix(s: string, lo: int, r: string) {
    && 0 <= lo && lo + |r| <= |s| && r == s[lo..lo + |r|]
    && AllSpace(s[..lo]) && AllSpace(s[lo + |r|..])
    && Unpadded(r)
  }

  /** `s.trim()`: the infix left after dropping the leading and the trailing white space. */
  function Trim(s: string): (r: string)
    ensures TrimmedInfix(s, |s| - |TrimStart(s)|, r)
  {
    var t := TrimStart(s);
    var r := TrimEnd(t);
    TrimInfix(s, t, r);
    r
  }

  /** Dropping a white-space prefix and then a white-space suffix leaves an unpadded infix. */
  lemma TrimInfix(s: string, t: string, r: string)
    requires |t| <= |s| && t == s[|s| - |t|..] && AllSpace(s[..|s| - |t|])
    requires t == [] || !IsSpace(t[0])
    requires |r| <= |t| && r == t[..|r|] && AllSpace(t[|r|..])
    requires r == [] || !IsSpace(r[|r| - 1])
    ensures TrimmedInfix(s, |s| - |t|, r)
  {
    var lo := |s| - |t|;
    assert s[lo + |r|..] == t[|r|..];
    assert r != [] ==> r[0] == t[0];
  }

  /** `s.trim()` is falsy exactly when `s` is all white space (the empty string included). */
  lemma TrimEmptyIffAllSpace(s: string)
    ensures Trim(s) == [] <==> AllSpace(s)
  {
    var lo := |s| - |TrimStart(s)|;
    if Trim(s) == [] {
      AllSpaceJoin(s, lo);
    }
  }

  /** White space on both sides of a cut is white space throughout. */
  lemma AllSpaceJoin(s: string, k: nat)
    requires k <= |s| && AllSpace(s[..k]) && AllSpace(s[k..])
    ensures AllSpace(s)
  {
    forall i | 0 <= i < |s| ensures IsSpace(s[i]) {
      if i < k { assert s[i] == s[..k][i]; } else { assert s[i] == s[k..][i - k]; }
    }
  }

  /** A string without surrounding white space is its own trim. */
  lemma TrimUnpadded(s: string)
    requires Unpadded(s)
    ensures Trim(s) == s
  {
    assert TrimStart(s) == s;
    assert TrimEnd(s) == s;
  }

  /** Trimming twice is trimming once. */
  lemma TrimIdempotent(s: string)
    ensures Trim(Trim(s)) == Trim(s)
  {
    TrimUnpadded(Trim(s));
  }
}
