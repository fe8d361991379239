/**
  Property-name normalisation (`kebabify`) and the string replacements used to
  derive accessor-method names. `src/state.ts` and `src/gobject.ts` each carry
  a copy of `kebabify` with the same text; it is defined once here.
  Only ASCII letters are case-mapped.
 */
module Naming {

  predicate IsLower(c: char) { 'a' <= c <= 'z' }

  predicate IsUpper(c: char) { 'A' <= c <= 'Z' }

  function LowerChar(c: char): char {
    if IsUpper(c) then (c as int + 32) as char else c
  }

  /** `.replace(/([a-z])([A-Z])/g, "$1-$2")`: a left-to-right scan in which each
      match consumes its two characters before the search resumes. */
  function HyphenateCamel(s: string): (r: string)
    decreases |s|
  {
    if |s| < 2 then s
    else if IsLower(s[0]) && IsUpper(s[1]) then [s[0], '-', s[1]] + HyphenateCamel(s[2..])
    else [s[0]] + HyphenateCamel(s[1..])
  }

  /** Position `i` is a camel-case boundary: a lower-case letter followed by an upper-case one. */
  predicate Boundary(s: string, i: int) {
    0 <= i < |s| - 1 && IsLower(s[i]) && IsUpper(s[i + 1])
  }

  /** Reference definition: every character, followed by `-` at each boundary. */
  function HyphenAtBoundaries(s: string): string
    decreases |s|
  {
    if s == [] then []
    else [s[0]] + (if Boundary(s, 0) then "-" else "") + HyphenAtBoundaries(s[1..])
  }

  /** `.replaceAll(from, to)` for a one-character pattern. */
  function ReplaceAll(s: string, from: char, to: char): (r: string)
    ensures |r| == |s|
    ensures forall i :: 0 <= i < |s| ==> r[i] == (if s[i] == from then to else s[i])
  {
    seq(|s|, i requires 0 <= i < |s| => if s[i] == from then to else s[i])
  }

  /** `.toLowerCase()` restricted to ASCII. */
  function Lower(s: string): (r: string)
    ensures |r| == |s|
    ensures forall i :: 0 <= i < |s| ==> r[i] == LowerChar(s[i])
  {
    seq(|s|, i requires 0 <= i < |s| => LowerChar(s[i]))
  }

  /** `kebabify`: hyphens at camel-case boundaries, `_` turned into `-`, then
      lower case. Every result is a kebab name. */
  function Kebabify(s: string): (r: string)
    ensures IsKebab(r)
  {
    var h := ReplaceAll(HyphenateCamel(s), '_', '-');
    assert forall i :: 0 <= i < |h| ==> !IsUpper(LowerChar(h[i])) && LowerChar(h[i]) != '_';
    Lower(h)
  }

  /** The names `Kebabify` produces: no upper-case letter and no underscore. */
  predicate IsKebab(s: string) {
    forall i :: 0 <= i < |s| ==> !IsUpper(s[i]) && s[i] != '_'
  }

  /** Index of the first `c` in `s`, or `|s|` when there is none. */
  function FirstIndex(s: string, c: char): (k: nat)
    ensures k <= |s|
    ensures k < |s| ==> s[k] == c
    ensures forall i :: 0 <= i < k ==> s[i] != c
  {
    if s == [] then 0 else if s[0] == c then 0 else 1 + FirstIndex(s[1..], c)
  }

  /** `.replace(from, to)` with a string pattern: only the first occurrence. */
  function ReplaceFirst(s: string, from: char, to: char): (r: string)
    ensures |r| == |s|
    ensures forall i :: 0 <= i < |s| ==> r[i] == (if i == FirstIndex(s, from) then to else s[i])
  {
    if s == [] then []
    else if s[0] == from then [to] + s[1..]
    else [s[0]] + ReplaceFirst(s[1..], from, to)
  }

  /** The regular-expression replacement inserts exactly one `-` at every
      camel-case boundary: a matched pair ends in an upper-case letter, which can
      never start another match, so the non-overlapping scan misses none. */
  lemma {:induction false} HyphenateCamelMatchesBoundaries(s: string)
    ensures HyphenateCamel(s) == HyphenAtBoundaries(s)
    decreases |s|
  {
    if |s| < 2 {
      if |s| == 1 {
        assert !Boundary(s, 0);
        assert s[1..] == [];
      }
    } else if IsLower(s[0]) && IsUpper(s[1]) {
      var t, u := s[1..], s[2..];
      HyphenateCamelMatchesBoundaries(u);
      var x := HyphenAtBoundaries(u);
      assert t[0] == s[1] && !Boundary(t, 0);
      assert t[1..] == u;
      assert HyphenAtBoundaries(t) == [s[1]] + x;
      assert HyphenAtBoundaries(s) == [s[0]] + "-" + ([s[1]] + x);
      assert [s[0]] + "-" + ([s[1]] + x) == [s[0], '-', s[1]] + x;
    } else {
      assert !Boundary(s, 0);
      HyphenateCamelMatchesBoundaries(s[1..]);
      assert HyphenAtBoundaries(s) == [s[0]] + HyphenAtBoundaries(s[1..]);
    }
  }

  /** Without upper-case letters the camel-case replacement changes nothing. */
  lemma {:induction false} HyphenateCamelNoUpper(s: string)
    requires forall i :: 0 <= i < |s| ==> !IsUpper(s[i])
    ensures HyphenateCamel(s) == s
    decreases |s|
  {
    if |s| >= 2 {
      HyphenateCamelNoUpper(s[1..]);
      assert [s[0]] + s[1..] == s;
    }
  }

  /** A kebab name is left as it is. */
  lemma KebabifyKeepsKebab(s: string)
    requires IsKebab(s)
    ensures Kebabify(s) == s
  {
    HyphenateCamelNoUpper(s);
    assert ReplaceAll(s, '_', '-') == s;
    assert Lower(s) == s;
  }

  /** `Kebabify(s) == s` exactly when `s` is already a kebab name. */
  lemma KebabifyFixedPoint(s: string)
    ensures Kebabify(s) == s <==> IsKebab(s)
  {
    if IsKebab(s) {
      KebabifyKeepsKebab(s);
    } else {
    }
  }

  /** Kebabifying twice is kebabifying once; the library relies on it when it
      re-kebabifies a binding's already normalised property name. */
  lemma KebabifyIdempotent(s: string)
    ensures Kebabify(Kebabify(s)) == Kebabify(s)
  {
    KebabifyKeepsKebab(Kebabify(s));
  }

  /** `.replace("-", "_")` changes the first hyphen only: any later hyphen stays. */
  lemma ReplaceFirstKeepsLater(s: string, from: char, to: char, j: int)
    requires from != to
    requires 0 <= j < |s| && s[j] == from && j != FirstIndex(s, from)
    ensures ReplaceFirst(s, from, to)[j] == from
    ensures FirstIndex(s, from) < j
  {
  }
}
