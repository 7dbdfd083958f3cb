/**
 * Character-level text operations the helper relies on, restricted to ASCII:
 * `toUpperCase`, `trim` and the regular-expression class `[,\s]`.
 */
module Text {

  /** ASCII whitespace: the characters `trim()` and `\s` remove in the ASCII range. */
  predicate IsSpace(c: char) {
    c == ' ' || c == '\t' || c == '\n' || c == '\r' || c == '\U{000B}' || c == '\U{000C}'
  }

  /** The characters of the class `[,\s]` that separate symbols in the settings text. */
  predicate IsSeparator(c: char) {
    c == ',' || IsSpace(c)
  }

  /** No character of `s` separates symbols. */
  predicate NoSeparator(s: string) {
    forall i :: 0 <= i < |s| ==> !IsSeparator(s[i])
  }

  /** A lower-case ASCII letter becomes its capital; every other character stays as it is. */
  function UpperChar(c: char): (d: char)
    ensures 'a' <= c <= 'z' ==> 'A' <= d <= 'Z' && d as int == c as int - 32
    ensures !('a' <= c <= 'z') ==> d == c
  {
    if 'a' <= c <= 'z' then (c as int - 32) as char else c
  }

  /** `s.toUpperCase()` on ASCII text: character by character, as `UpperChar` says. */
  function Upper(s: string): (r: string)
    ensures |r| == |s| && forall i :: 0 <= i < |s| ==> r[i] == UpperChar(s[i])
  {
    seq(|s|, i requires 0 <= i < |s| => UpperChar(s[i]))
  }

  /** `s` has no lower-case ASCII letter, so upper-casing leaves it as it is. */
  predicate IsUpper(s: string) {
    forall i :: 0 <= i < |s| ==> !('a' <= s[i] <= 'z')
  }

  lemma UpperIsUpper(s: string)
    ensures IsUpper(Upper(s))
  {
  }

  lemma UpperOfUpper(s: string)
    requires IsUpper(s)
    ensures Upper(s) == s
  {
  }

  /** Every character of `s` is whitespace. */
  predicate AllSpace(s: string) {
    forall i :: 0 <= i < |s| ==> IsSpace(s[i])
  }

  /** `s` with its leading whitespace removed. */
  function TrimStart(s: string): (r: string)
    ensures |r| <= |s| && r == s[|s| - |r|..]
    ensures r == [] || !IsSpace(r[0])
    ensures AllSpace(s[..|s| - |r|])
  {
    if s != [] && IsSpace(s[0]) then TrimStart(s[1..]) else s
  }

  /** `s` with its trailing whitespace removed. */
  function TrimEnd(s: string): (r: string)
    ensures |r| <= |s| && r == s[..|r|]
    ensures r == [] || !IsSpace(r[|r| - 1])
    ensures AllSpace(s[|r|..])
  {
    if s != [] && IsSpace(s[|s| - 1]) then TrimEnd(s[..|s| - 1]) else s
  }

  /**
   * `s.trim()`: the result neither starts nor ends with whitespace; `TrimIsInfix` adds
   * that only whitespace was removed.
   */
  function Trim(s: string): (r: string)
    ensures r == [] || (!IsSpace(r[0]) && !IsSpace(r[|r| - 1]))
  {
    TrimEndOfUnspaced(TrimStart(s));
    TrimEnd(TrimStart(s))
  }

  /** `s` is some whitespace, then `Trim(s)`, then some whitespace. */
  lemma {:induction false} TrimIsInfix(s: string)
    ensures var r := Trim(s);
      exists a, b :: 0 <= a <= b <= |s| && r == s[a..b] && AllSpace(s[..a]) && AllSpace(s[b..])
  {
    var t := TrimStart(s);
    var r := TrimEnd(t);
    var a := |s| - |t|;
    var b := a + |r|;
    SliceOfSuffix(s, a, |r|);
    assert AllSpace(s[..a]) && AllSpace(t[|r|..]);
  }

  /** Slicing a suffix of `s` is slicing `s` further on. */
  lemma SliceOfSuffix<T>(s: seq<T>, a: nat, n: nat)
    requires a + n <= |s|
    ensures s[a..][..n] == s[a..a + n] && s[a..][n..] == s[a + n..]
  {
  }

  /**
   * Trimming removes exactly the surrounding whitespace: text made of a whitespace
   * prefix, a core that neither starts nor ends with whitespace, and a whitespace
   * suffix trims to the core.
   */
  lemma TrimOfPadded(pre: string, w: string, post: string)
    requires AllSpace(pre) && AllSpace(post)
    requires w != [] && !IsSpace(w[0]) && !IsSpace(w[|w| - 1])
    ensures Trim(pre + w + post) == w
  {
    var s := pre + w + post;
    TrimStartOfPadded(pre, w + post);
    assert s == pre + (w + post);
    TrimEndOfPadded(w, post);
  }

  /**
   * Trimming stops at the first and the last non-whitespace character: around a core
   * that neither starts nor ends with whitespace, only the outer parts are trimmed.
   */
  lemma TrimAround(pre: string, w: string, post: string)
    requires w != [] && !IsSpace(w[0]) && !IsSpace(w[|w| - 1])
    ensures Trim(pre + w + post) == TrimStart(pre) + w + TrimEnd(post)
  {
    var p, u := TrimStart(pre), w + post;
    ConcatAssoc(pre, w, post);
    TrimStartThen(pre, u);
    var v := p + w;
    ConcatAssoc(p, w, post);
    assert v[|v| - 1] == w[|w| - 1];
    TrimEndAfter(v, post);
  }

  /** Concatenation is associative. */
  lemma ConcatAssoc<T>(x: seq<T>, y: seq<T>, z: seq<T>)
    ensures x + y + z == x + (y + z)
  {
  }

  lemma {:induction false} TrimStartThen(a: string, b: string)
    requires b != [] && !IsSpace(b[0])
    ensures TrimStart(a + b) == TrimStart(a) + b
  {
    if a == [] {
      assert a + b == b;
    } else if IsSpace(a[0]) {
      assert (a + b)[1..] == a[1..] + b;
      TrimStartThen(a[1..], b);
    }
  }

  lemma {:induction false} TrimEndAfter(a: string, b: string)
    requires a != [] && !IsSpace(a[|a| - 1])
    ensures TrimEnd(a + b) == a + TrimEnd(b)
  {
    if b == [] {
      assert a + b == a;
    } else if IsSpace(b[|b| - 1]) {
      var n := |b| - 1;
      assert (a + b)[..|a + b| - 1] == a + b[..n];
      TrimEndAfter(a, b[..n]);
    }
  }

  lemma {:induction false} TrimStartOfPadded(pre: string, t: string)
    requires AllSpace(pre) && t != [] && !IsSpace(t[0])
    ensures TrimStart(pre + t) == t
  {
    if pre != [] {
      assert (pre + t)[1..] == pre[1..] + t;
      TrimStartOfPadded(pre[1..], t);
    }
  }

  lemma {:induction false} TrimEndOfPadded(t: string, post: string)
    requires AllSpace(post) && t != [] && !IsSpace(t[|t| - 1])
    ensures TrimEnd(t + post) == t
  {
    if post != [] {
      var n := |post| - 1;
      assert (t + post)[..|t + post| - 1] == t + post[..n];
      TrimEndOfPadded(t, post[..n]);
    } else {
      assert t + post == t;
    }
  }

  lemma {:induction false} TrimEndOfUnspaced(s: string)
    requires s == [] || !IsSpace(s[0])
    ensures var r := TrimEnd(s); r == [] || !IsSpace(r[0])
  {
    if s != [] && IsSpace(s[|s| - 1]) {
      assert |s| > 1;
      TrimEndOfUnspaced(s[..|s| - 1]);
    }
  }

  /** Text that neither starts nor ends with whitespace is left alone by `trim()`. */
  lemma TrimOfUnspacedEnds(s: string)
    requires s != [] && !IsSpace(s[0]) && !IsSpace(s[|s| - 1])
    ensures Trim(s) == s
  {
  }

  /** Text without separators is left alone by `trim()`. */
  lemma TrimOfNoSeparator(s: string)
    requires NoSeparator(s)
    ensures Trim(s) == s
  {
  }

  /** Upper-casing never turns a space into another character or back. */
  lemma SpaceOfUpperChar(c: char)
    ensures IsSpace(UpperChar(c)) <==> IsSpace(c)
  {
  }

  lemma {:induction false} TrimStartUpper(s: string)
    ensures TrimStart(Upper(s)) == Upper(TrimStart(s))
  {
    if s != [] {
      var u := Upper(s);
      assert u[0] == UpperChar(s[0]);
      SpaceOfUpperChar(s[0]);
      if IsSpace(s[0]) {
        assert u[1..] == Upper(s[1..]);
        TrimStartUpper(s[1..]);
        assert TrimStart(u) == TrimStart(u[1..]);
        assert TrimStart(s) == TrimStart(s[1..]);
      } else {
        assert TrimStart(u) == u;
        assert TrimStart(s) == s;
      }
    }
  }

  lemma {:induction false} TrimEndUpper(s: string)
    ensures TrimEnd(Upper(s)) == Upper(TrimEnd(s))
  {
    if s != [] {
      var u, n := Upper(s), |s| - 1;
      assert u[n] == UpperChar(s[n]);
      SpaceOfUpperChar(s[n]);
      if IsSpace(s[n]) {
        UpperOfPrefix(s, n);
        TrimEndUpper(s[..n]);
        assert TrimEnd(u) == TrimEnd(u[..n]);
        assert TrimEnd(s) == TrimEnd(s[..n]);
      } else {
        assert TrimEnd(u) == u;
        assert TrimEnd(s) == s;
      }
    }
  }

  /** Trimming and upper-casing commute: case never turns a space into a letter or back. */
  lemma UpperOfPrefix(s: string, n: nat)
    requires n <= |s|
    ensures Upper(s)[..n] == Upper(s[..n])
  {
  }

  lemma TrimUpper(s: string)
    ensures Trim(Upper(s)) == Upper(Trim(s))
  {
    TrimStartUpper(s);
    TrimEndUpper(TrimStart(s));
  }
}
