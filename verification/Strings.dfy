/** Go's string order, and the separator-joined keys used by the comparison helpers. */
module Strings {

  /** a < b in the lexicographic order of strings.Compare. */
  predicate Less(a: string, b: string) {
    if b == [] then false
    else if a == [] then true
    else a[0] < b[0] || (a[0] == b[0] && Less(a[1..], b[1..]))
  }

  predicate LessEq(a: string, b: string) { a == b || Less(a, b) }

  lemma {:induction false} LessTransitive(a: string, b: string, c: string)
    requires Less(a, b) && Less(b, c)
    ensures Less(a, c)
  {
    if a != [] && a[0] == b[0] && b[0] == c[0] {
      LessTransitive(a[1..], b[1..], c[1..]);
    }
  }

  lemma {:induction false} LessAsymmetric(a: string, b: string)
    requires Less(a, b)
    ensures !Less(b, a) && a != b
  {
    if a != [] && a[0] == b[0] {
      LessAsymmetric(a[1..], b[1..]);
    }
  }

  lemma {:induction false} LessTotal(a: string, b: string)
    ensures Less(a, b) || a == b || Less(b, a)
  {
    if a != [] && b != [] && a[0] == b[0] {
      LessTotal(a[1..], b[1..]);
      if a[1..] == b[1..] {
        assert a == [a[0]] + a[1..] && b == [b[0]] + b[1..];
      }
    }
  }

  lemma LessEqTransitive(a: string, b: string, c: string)
    requires LessEq(a, b) && LessEq(b, c)
    ensures LessEq(a, c)
  {
    if Less(a, b) && Less(b, c) {
      LessTransitive(a, b, c);
    }
  }

  const BAR := '|'

  predicate BarFree(s: string) { BAR !in s }

  ghost predicate IsFirstBar(s: string, n: nat) {
    n < |s| && s[n] == BAR && forall i :: 0 <= i < n ==> s[i] != BAR
  }

  ghost predicate IsLastBar(s: string, n: nat) {
    n < |s| && s[n] == BAR && forall i :: n < i < |s| ==> s[i] != BAR
  }

  /** The first part of "a|rest" is recovered when it holds no separator. */
  lemma SplitFirst(a: string, rest: string, a': string, rest': string)
    requires BarFree(a) && BarFree(a')
    requires a + [BAR] + rest == a' + [BAR] + rest'
    ensures a == a' && rest == rest'
  {
    var s, s' := a + [BAR] + rest, a' + [BAR] + rest';
    assert IsFirstBar(s, |a|) && IsFirstBar(s', |a'|);
    assert a == s[..|a|] && a' == s'[..|a'|];
    assert rest == s[|a| + 1..] && rest' == s'[|a'| + 1..];
  }

  /** The last part of "head|z" is recovered when it holds no separator; the head may hold any. */
  lemma SplitLast(head: string, z: string, head': string, z': string)
    requires BarFree(z) && BarFree(z')
    requires head + [BAR] + z == head' + [BAR] + z'
    ensures head == head' && z == z'
  {
    var s, s' := head + [BAR] + z, head' + [BAR] + z';
    assert IsLastBar(s, |head|) && IsLastBar(s', |head'|);
    assert head == s[..|head|] && head' == s'[..|head'|];
    assert z == s[|head| + 1..] && z' == s'[|head'| + 1..];
  }

  function Repeat(c: char, n: nat): (r: string)
    ensures |r| == n && forall i :: 0 <= i < n ==> r[i] == c
  {
    seq(n, i => c)
  }

  /** There is always another string, and one without separators. */
  lemma FreshString(used: set<string>) returns (x: string)
    ensures x !in used && BarFree(x) && x != ""
  {
    var rest := used;
    var n := 1;
    while rest != {}
      invariant rest <= used && n > 0 && forall s :: s in used - rest ==> |s| < n
      decreases |rest|
    {
      var s :| s in rest;
      rest := rest - {s};
      if |s| >= n { n := |s| + 1; }
    }
    x := Repeat('x', n);
  }
}
