/** Reading texts: prefixes, suffixes, substrings, blanks and lower case. */
module Texts {

  /** `p`, from its `i`-th character on, is read in `t` at `k + i`. */
  predicate ReadsAt(t: string, k: nat, p: string, i: nat)
    decreases |p| - i, |t|
  {
    i >= |p| || (k + i < |t| && t[k + i] == p[i] && ReadsAt(t, k, p, i + 1))
  }

  predicate HasPrefix(t: string, p: string) {
    ReadsAt(t, 0, p, 0)
  }

  predicate HasSuffix(t: string, p: string) {
    |p| <= |t| && ReadsAt(t, |t| - |p|, p, 0)
  }

  predicate ContainsFrom(t: string, k: nat, p: string)
    decreases |t| - k
  {
    ReadsAt(t, k, p, 0) || (k < |t| && ContainsFrom(t, k + 1, p))
  }

  predicate IsSpace(c: char) {
    c == ' ' || '\t' <= c <= '\r'
  }

  /** The index of the first character that is not a space. */
  function Margin(t: string, k: nat): nat
    decreases |t| - k
  {
    if k < |t| && IsSpace(t[k]) then Margin(t, k + 1) else k
  }

  function FoldChar(c: char): char {
    if 'A' <= c <= 'Z' then (c as int + 32) as char else c
  }

  /** Lower case, for the letters a login may contain. */
  function Fold(s: string): (r: string)
    ensures |r| == |s| && forall i | 0 <= i < |s| :: r[i] == FoldChar(s[i])
  {
    seq(|s|, i requires 0 <= i < |s| => FoldChar(s[i]))
  }

  function TrimStart(s: string): string {
    if s != [] && IsSpace(s[0]) then TrimStart(s[1..]) else s
  }

  function TrimEnd(s: string): string {
    if s != [] && IsSpace(s[|s| - 1]) then TrimEnd(s[..|s| - 1]) else s
  }

  function Trim(s: string): string { TrimEnd(TrimStart(s)) }
}
