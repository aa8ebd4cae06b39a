/**
 * The few `java.lang.String` operations the modelled code relies on:
 * `String.join` / `Collectors.joining`, `trim` and `equalsIgnoreCase`.
 */
module Text {

  /** `String.join(sep, xs)`: the elements in order, with `sep` between neighbours. */
  function Join(xs: seq<string>, sep: string): (r: string)
    ensures xs == [] ==> r == ""
    ensures |xs| == 1 ==> r == xs[0]
    decreases |xs|
  {
    if xs == [] then ""
    else if |xs| == 1 then xs[0]
    else xs[0] + sep + Join(xs[1..], sep)
  }

  /** Each element with `p` written in front of it. */
  function Prefixed(p: string, xs: seq<string>): (r: seq<string>)
    ensures |r| == |xs|
    ensures forall i :: 0 <= i < |xs| ==> r[i] == p + xs[i]
  {
    seq(|xs|, i requires 0 <= i < |xs| => p + xs[i])
  }

  /**
   * Joining with a separator that ends in `p`, after writing `p` once in
   * front (`"? " + joining(", ? ")`), is joining the prefixed elements with
   * the rest of the separator.
   */
  lemma {:induction false} JoinWithPrefix(xs: seq<string>, sep: string, p: string)
    requires xs != []
    ensures p + Join(xs, sep + p) == Join(Prefixed(p, xs), sep)
    decreases |xs|
  {
    if |xs| > 1 {
      JoinWithPrefix(xs[1..], sep, p);
      assert Prefixed(p, xs) == [p + xs[0]] + Prefixed(p, xs[1..]);
      assert Prefixed(p, xs)[1..] == Prefixed(p, xs[1..]);
    }
  }

  /** Joining `a + b` is joining `a`, the separator, and joining `b`. */
  lemma {:induction false} JoinAppend(a: seq<string>, b: seq<string>, sep: string)
    requires a != [] && b != []
    ensures Join(a + b, sep) == Join(a, sep) + sep + Join(b, sep)
    decreases |a|
  {
    if |a| == 1 {
      assert (a + b)[1..] == b;
    } else {
      JoinAppend(a[1..], b, sep);
      assert (a + b)[1..] == a[1..] + b;
    }
  }

  /** The characters `trim` removes: every code point up to and including the space. */
  predicate IsTrimmed(c: char) {
    c <= ' '
  }

  predicate AllTrimmed(s: string) {
    forall k :: 0 <= k < |s| ==> IsTrimmed(s[k])
  }

  /**
   * `String.trim`: the longest middle part of `s` that neither starts nor
   * ends with a character at or below U+0020.
   */
  function Trim(s: string): (r: string)
    ensures r != [] ==> !IsTrimmed(r[0]) && !IsTrimmed(r[|r| - 1])
    ensures exists i, j :: (0 <= i <= j <= |s| && r == s[i..j] && AllTrimmed(s[..i]) && AllTrimmed(s[j..]))
  {
    var i := LeadingTrimmed(s);
    var t := s[i..];
    var j := |t| - TrailingTrimmed(t);
    assert t[..j] == s[i..i + j];
    assert t[j..] == s[i + j..];
    t[..j]
  }

  /** How many characters at or below U+0020 `s` starts with. */
  function LeadingTrimmed(s: string): (n: nat)
    ensures n <= |s| && AllTrimmed(s[..n])
    ensures n < |s| ==> !IsTrimmed(s[n])
    decreases |s|
  {
    if s != [] && IsTrimmed(s[0]) then
      var n := LeadingTrimmed(s[1..]);
      assert s[..n + 1] == [s[0]] + s[1..][..n];
      n + 1
    else
      0
  }

  /** How many characters at or below U+0020 `s` ends with. */
  function TrailingTrimmed(s: string): (n: nat)
    ensures n <= |s| && AllTrimmed(s[|s| - n..])
    ensures n < |s| ==> !IsTrimmed(s[|s| - n - 1])
    decreases |s|
  {
    if s != [] && IsTrimmed(s[|s| - 1]) then
      var s' := s[..|s| - 1];
      var n := TrailingTrimmed(s');
      assert s[|s| - (n + 1)..] == s'[|s'| - n..] + [s[|s| - 1]];
      n + 1
    else
      0
  }

  /**
   * ASCII case folding. Java's `equalsIgnoreCase` folds every Unicode
   * letter; the values compared here are ASCII property values.
   */
  function ToUpper(c: char): (u: char)
    ensures 'a' <= c <= 'z' ==> u as int == c as int - 32
    ensures !('a' <= c <= 'z') ==> u == c
  {
    if 'a' <= c <= 'z' then (c as int - 32) as char else c
  }

  /** `a.equalsIgnoreCase(b)`: same length, and equal characters up to case. */
  predicate EqualsIgnoreCase(a: string, b: string)
    ensures a == b ==> EqualsIgnoreCase(a, b)
    ensures EqualsIgnoreCase(a, b) ==> |a| == |b|
  {
    |a| == |b| && forall i :: 0 <= i < |a| ==> ToUpper(a[i]) == ToUpper(b[i])
  }
}
