/** String helpers: JavaScript's `String.prototype.trim` and the decimal
    rendering of a natural number inside a template literal. */
module Text {

  /** JavaScript's WhiteSpace and LineTerminator code points, the set that
      `trim` strips (section 22.1.3.32 of ECMA-262). */
  predicate IsSpace(c: char) {
    c in {
      '\t', '\n', '\U{000B}', '\U{000C}', '\r', ' ', '\U{00A0}', '\U{1680}',
      '\U{2000}', '\U{2001}', '\U{2002}', '\U{2003}', '\U{2004}', '\U{2005}',
      '\U{2006}', '\U{2007}', '\U{2008}', '\U{2009}', '\U{200A}', '\U{2028}',
      '\U{2029}', '\U{202F}', '\U{205F}', '\U{3000}', '\U{FEFF}'
    }
  }

  predicate AllSpace(s: string) {
    forall i :: 0 <= i < |s| ==> IsSpace(s[i])
  }

  /** Strips leading white space: the result is a suffix of `s` whose first
      character (if any) is not white space, and everything dropped was. */
  function TrimStart(s: string): (r: string)
    ensures |r| <= |s| && r == s[|s| - |r|..]
    ensures |r| > 0 ==> !IsSpace(r[0])
    ensures AllSpace(s[..|s| - |r|])
    decreases |s|
  {
    if |s| > 0 && IsSpace(s[0]) then TrimStart(s[1..]) else s
  }

  /** Strips trailing white space: the result is a prefix of `s` whose last
      character (if any) is not white space, and everything dropped was. */
  function TrimEnd(s: string): (r: string)
    ensures |r| <= |s| && r == s[..|r|]
    ensures |r| > 0 ==> !IsSpace(r[|r| - 1])
    ensures AllSpace(s[|r|..])
    decreases |s|
  {
    if |s| > 0 && IsSpace(s[|s| - 1]) then TrimEnd(s[..|s| - 1]) else s
  }

  /** `String.prototype.trim`: the result is the part of `s` left once the
      leading and the trailing white space are dropped. */
  function Trim(s: string): (r: string)
    ensures |r| <= |s|
    ensures |r| > 0 ==> !IsSpace(r[0]) && !IsSpace(r[|r| - 1])
    ensures r == "" <==> AllSpace(s)
    ensures exists i :: CutAt(s, r, i)
  {
    TrimCut(s);
    TrimEmpty(s);
    TrimEnd(TrimStart(s))
  }

  /** The trimmed text is empty exactly when `s` is all white space. */
  lemma TrimEmpty(s: string)
    ensures TrimEnd(TrimStart(s)) == "" <==> AllSpace(s)
  {
    var t := TrimStart(s);
    var k := |s| - |t|;
    assert t == s[k..];
    if TrimEnd(t) == "" {
      assert t[0..] == t;
      assert t == "";
      assert s[..k] == s;
    }
  }

  /** `r` is the slice of `s` from `i`, with only white space before and
      after it. */
  predicate CutAt(s: string, r: string, i: int) {
    0 <= i <= |s| - |r| && r == s[i..i + |r|] && AllSpace(s[..i]) && AllSpace(s[i + |r|..])
  }

  /** The trimmed text sits in `s` between two runs of white space, right
      after the leading ones. */
  lemma TrimCut(s: string)
    ensures CutAt(s, TrimEnd(TrimStart(s)), |s| - |TrimStart(s)|)
  {
    var t := TrimStart(s);
    var i := |s| - |t|;
    var u := TrimEnd(t);
    SliceOfSuffix(s, i, t, u);
    assert AllSpace(s[..i]) && AllSpace(s[i + |u|..]);
  }

  /** A prefix `u` of the suffix `t` of `s` from `i` is the slice of `s`
      from `i` of its length, and the rest of `t` is the rest of `s`. */
  lemma SliceOfSuffix<T>(s: seq<T>, i: nat, t: seq<T>, u: seq<T>)
    requires i <= |s| && t == s[i..] && |u| <= |t| && u == t[..|u|]
    ensures u == s[i..i + |u|] && s[i + |u|..] == t[|u|..]
  {
  }

  /** Trimming an already trimmed string changes nothing. */
  lemma TrimIdempotent(s: string)
    ensures Trim(Trim(s)) == Trim(s)
  {
    var t := Trim(s);
    if |t| > 0 {
      assert TrimStart(t) == t;
      assert TrimEnd(t) == t;
    }
  }

  /** The decimal digits of `n`, as `${n}` renders a non-negative integer. */
  function NatToString(n: nat): (r: string)
    ensures |r| > 0
    ensures forall i :: 0 <= i < |r| ==> '0' <= r[i] <= '9'
    decreases n
  {
    var d := ['0' + (n % 10) as char];
    if n < 10 then d else NatToString(n / 10) + d
  }
}
