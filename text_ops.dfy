/**
 * The JavaScript string operations the terminal relies on:
 * `String.prototype.trim`, `String.prototype.toLowerCase` and the first
 * field of `String.prototype.split(" ")`.
 */
module TextOps {

  /**
   * The characters `trim` strips, ECMAScript WhiteSpace and LineTerminator:
   * tab, line feed, vertical tab, form feed, carriage return, space,
   * no-break space, the Ogham space mark, the spaces U+2000 to U+200A, the
   * line and paragraph separators, the narrow no-break space, the medium
   * mathematical space, the ideographic space and the byte order mark.
   */
  predicate IsTrimmable(c: char) {
    || '\t' <= c <= '\r'
    || c == ' '
    || c == '\U{00A0}'
    || c == '\U{1680}'
    || '\U{2000}' <= c <= '\U{200A}'
    || c == '\U{2028}' || c == '\U{2029}'
    || c == '\U{202F}' || c == '\U{205F}'
    || c == '\U{3000}' || c == '\U{FEFF}'
  }

  predicate AllTrimmable(s: string) {
    forall i :: 0 <= i < |s| ==> IsTrimmable(s[i])
  }

  /** Drops leading white space. */
  function TrimStart(s: string): (r: string)
    ensures |r| <= |s|
  {
    if s == [] || !IsTrimmable(s[0]) then s else TrimStart(s[1..])
  }

  /** Drops trailing white space. */
  function TrimEnd(s: string): (r: string)
    ensures |r| <= |s|
  {
    if s == [] || !IsTrimmable(s[|s| - 1]) then s else TrimEnd(s[..|s| - 1])
  }

  /** `s.trim()`: leading, then trailing white space dropped. */
  function Trim(s: string): (r: string)
    ensures |r| <= |TrimStart(s)| <= |s|
  {
    TrimEnd(TrimStart(s))
  }

  /**
   * `TrimStart` keeps a suffix of its input that does not start with white
   * space, and everything it drops is white space.
   */
  lemma {:induction false} TrimStartDrops(s: string)
    ensures var r := TrimStart(s);
      && r == s[|s| - |r|..]
      && (forall i :: 0 <= i < |s| - |r| ==> IsTrimmable(s[i]))
      && (r != [] ==> !IsTrimmable(r[0]))
  {
    if s != [] && IsTrimmable(s[0]) {
      TrimStartDrops(s[1..]);
      var r := TrimStart(s);
      forall i | 1 <= i < |s| - |r| ensures IsTrimmable(s[i]) {
        assert s[i] == s[1..][i - 1];
      }
    }
  }

  /**
   * `TrimEnd` keeps a prefix of its input that does not end with white
   * space, and everything it drops is white space.
   */
  lemma {:induction false} TrimEndDrops(s: string)
    ensures var r := TrimEnd(s);
      && r == s[..|r|]
      && (forall i :: |r| <= i < |s| ==> IsTrimmable(s[i]))
      && (r != [] ==> !IsTrimmable(r[|r| - 1]))
  {
    if s != [] && IsTrimmable(s[|s| - 1]) {
      var p := s[..|s| - 1];
      TrimEndDrops(p);
      var r := TrimEnd(s);
      assert r == p[..|r|];
      forall i | |r| <= i < |s| - 1 ensures IsTrimmable(s[i]) {
        assert s[i] == p[i];
      }
    }
  }

  /** `trim` yields the empty string exactly for an all-white-space input. */
  lemma TrimBlank(s: string)
    ensures Trim(s) == [] <==> AllTrimmable(s)
  {
    var t := TrimStart(s);
    TrimStartDrops(s);
    if t != [] {
      FirstSurvivesTrimEnd(t);
      assert s[|s| - |t|] == t[0];
    }
  }

  /** What `trim` keeps neither starts nor ends with white space. */
  lemma TrimEnds(s: string)
    ensures var r := Trim(s);
      r != [] ==> !IsTrimmable(r[0]) && !IsTrimmable(r[|r| - 1])
  {
    var t := TrimStart(s);
    TrimStartDrops(s);
    TrimEndDrops(t);
    if t != [] {
      FirstSurvivesTrimEnd(t);
    }
  }

  /** What `trim` keeps is one contiguous piece of the input, starting after its leading white space. */
  lemma TrimIsInfix(s: string)
    ensures var k := |s| - |TrimStart(s)|;
      k + |Trim(s)| <= |s| && Trim(s) == s[k..k + |Trim(s)|]
  {
    var t := TrimStart(s);
    var k := |s| - |t|;
    TrimStartDrops(s);
    TrimEndDrops(t);
    var r := TrimEnd(t);
    assert Trim(s) == r;
    assert r == t[..|r|] && t == s[k..];
    SliceOfSlice(s, k, |r|);
  }

  /** Trailing white space never reaches a first character that is not white space. */
  lemma FirstSurvivesTrimEnd(t: string)
    requires t != [] && !IsTrimmable(t[0])
    ensures TrimEnd(t) != [] && TrimEnd(t)[0] == t[0]
  {
    TrimEndDrops(t);
  }

  lemma SliceOfSlice(s: string, k: nat, m: nat)
    requires k <= |s| && m <= |s| - k
    ensures s[k..][..m] == s[k..k + m]
  {
  }

  /** Trimming twice is trimming once. */
  lemma TrimIdempotent(s: string)
    ensures Trim(Trim(s)) == Trim(s)
  {
    var t := Trim(s);
    TrimEnds(s);
    if t != [] {
      assert TrimStart(t) == t;
      assert TrimEnd(t) == t;
    }
  }

  /** The Kelvin sign, which `toLowerCase` maps to the ASCII letter `k`. */
  const KelvinSign: char := '\U{212A}'

  /**
   * `toLowerCase` on one character, for the ASCII letters and the one
   * non-ASCII character whose lower case is an ASCII letter.
   */
  function LowerChar(c: char): (d: char)
    ensures IsTrimmable(d) <==> IsTrimmable(c)
    ensures !('A' <= d <= 'Z')
    ensures 'A' <= c <= 'Z' ==> 'a' <= d <= 'z' && d as int == c as int + 32
    ensures c == KelvinSign ==> d == 'k'
    ensures !('A' <= c <= 'Z') && c != KelvinSign ==> d == c
  {
    if 'A' <= c <= 'Z' then (c as int + 32) as char
    else if c == KelvinSign then 'k'
    else c
  }

  /** `s.toLowerCase()`: same length, every character lowered, nothing upper-case left. */
  function ToLower(s: string): (r: string)
    ensures |r| == |s|
    ensures forall i :: 0 <= i < |s| ==> r[i] == LowerChar(s[i])
  {
    if s == [] then [] else [LowerChar(s[0])] + ToLower(s[1..])
  }

  /** A string already in lower case is left as it is. */
  lemma {:induction false} ToLowerIdempotent(s: string)
    ensures ToLower(ToLower(s)) == ToLower(s)
  {
    if s != [] {
      ToLowerIdempotent(s[1..]);
    }
  }

  /** `s.split(" ")[0]`: the text before the first space, or all of `s`. */
  function FirstToken(s: string): (r: string)
    ensures r <= s
    ensures ' ' !in r
    ensures r == s || s[|r|] == ' '
  {
    if s == [] || s[0] == ' ' then [] else [s[0]] + FirstToken(s[1..])
  }
}
