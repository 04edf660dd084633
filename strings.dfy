/** The few operations of Go's `strings` package that the controller uses,
    on Dafny strings (sequences of characters). */
module Strings {

  /** strings.HasPrefix */
  predicate HasPrefix(s: string, prefix: string)
  {
    |prefix| <= |s| && s[..|prefix|] == prefix
  }

  /** strings.TrimPrefix: drops `prefix` once when `s` starts with it. */
  function TrimPrefix(s: string, prefix: string): (r: string)
    ensures HasPrefix(s, prefix) ==> s == prefix + r
    ensures !HasPrefix(s, prefix) ==> r == s
  {
    if HasPrefix(s, prefix) then s[|prefix|..] else s
  }

  /** strings.Contains: `t` occurs somewhere in `s`. */
  predicate Contains(s: string, t: string)
    decreases |s|
  {
    HasPrefix(s, t) || (s != [] && Contains(s[1..], t))
  }

  /** The text of `s` before the first `sep`, i.e. strings.Split(s, sep)[0]. */
  function FirstSegment(s: string, sep: char): (r: string)
    ensures HasPrefix(s, r) && sep !in r
    ensures |r| < |s| ==> s[|r|] == sep
    decreases |s|
  {
    if s == [] || s[0] == sep then [] else [s[0]] + FirstSegment(s[1..], sep)
  }

  function LowerChar(c: char): char
  {
    if 'A' <= c <= 'Z' then (c as int + 32) as char else c
  }

  /** strings.ToLower, on ASCII letters. */
  function ToLower(s: string): (r: string)
    ensures |r| == |s|
    ensures forall i :: 0 <= i < |s| ==> r[i] == LowerChar(s[i])
  {
    seq(|s|, i requires 0 <= i < |s| => LowerChar(s[i]))
  }

  lemma {:induction false} ContainsPrefixed(p: string, s: string, t: string)
    requires Contains(s, t)
    ensures Contains(p + s, t)
    decreases |p|
  {
    if p != [] {
      ContainsPrefixed(p[1..], s, t);
      assert (p + s)[1..] == p[1..] + s;
    } else {
      assert p + s == s;
    }
  }

  /** A string contains each of its prefixes. */
  lemma ContainsOwnPrefix(s: string, t: string)
    requires HasPrefix(s, t)
    ensures Contains(s, t)
  {
  }

  /** Whatever contains `p + t` contains `t`. */
  lemma {:induction false} ContainsSuffixPart(s: string, p: string, t: string)
    requires Contains(s, p + t)
    ensures Contains(s, t)
    decreases |s|
  {
    if HasPrefix(s, p + t) {
      assert s[..|p + t|] == p + t;
      assert s[|p|..][..|t|] == (p + t)[|p|..];
      ContainsPrefixed(s[..|p|], s[|p|..], t);
      assert s[..|p|] + s[|p|..] == s;
    } else {
      ContainsSuffixPart(s[1..], p, t);
      ContainsPrefixed(s[..1], s[1..], t);
      assert s[..1] + s[1..] == s;
    }
  }
}
