/** The contract of slices.SortFunc on a string key: the result is a permutation in key
    order. Elements with equal keys may come out in any order, so nothing proved here or
    by its callers depends on stability. */
module Sorting {
  import opened Strings

  ghost predicate SortedBy<T(!new)>(s: seq<T>, key: T -> string) {
    forall i, j :: 0 <= i < j < |s| ==> LessEq(key(s[i]), key(s[j]))
  }

  ghost predicate DistinctKeys<T(!new)>(s: seq<T>, key: T -> string) {
    forall i, j :: 0 <= i < j < |s| ==> key(s[i]) != key(s[j])
  }

  /** s is what sorting `from` by key may produce. */
  ghost predicate IsSortOf<T(!new)>(s: seq<T>, from: seq<T>, key: T -> string) {
    multiset(s) == multiset(from) && SortedBy(s, key)
  }

  /** A permutation keeps the keys distinct. */
  lemma PermutationKeepsDistinct<T(!new)>(s: seq<T>, t: seq<T>, key: T -> string)
    requires multiset(s) == multiset(t) && DistinctKeys(s, key)
    ensures DistinctKeys(t, key)
  {
    forall i, j | 0 <= i < j < |t| ensures key(t[i]) != key(t[j]) {
      assert t[i] in multiset(t) && t[j] in multiset(t);
      assert t[i] in multiset(s) && t[j] in multiset(s);
      if t[i] == t[j] {
        TwoOccurrences(t, i, j);
        OneOccurrence(s, key, t[i]);
      }
    }
  }

  lemma TwoOccurrences<T>(t: seq<T>, i: nat, j: nat)
    requires i < j < |t| && t[i] == t[j]
    ensures multiset(t)[t[i]] >= 2
  {
    assert t == t[..j] + [t[j]] + t[j + 1..];
    assert multiset(t) == multiset(t[..j]) + multiset{t[j]} + multiset(t[j + 1..]);
    assert t[..j][i] == t[i];
    assert t[i] in multiset(t[..j]);
  }

  lemma {:induction false} OneOccurrence<T(!new)>(s: seq<T>, key: T -> string, x: T)
    requires DistinctKeys(s, key)
    ensures multiset(s)[x] <= 1
  {
    if s != [] {
      assert s == [s[0]] + s[1..];
      OneOccurrence(s[1..], key, x);
      assert s[0] !in s[1..] by {
        assert forall j :: 0 <= j < |s[1..]| ==> key(s[0]) != key(s[1..][j]);
      }
    }
  }

  /** The head of a sorted sequence has the least key, hence the same key in any sorted permutation. */
  lemma SameHeadKey<T(!new)>(s: seq<T>, t: seq<T>, key: T -> string)
    requires multiset(s) == multiset(t) && s != [] && t != []
    requires SortedBy(s, key) && SortedBy(t, key)
    ensures key(s[0]) == key(t[0])
  {
    assert s[0] in multiset(t) && t[0] in multiset(s);
    var i :| 0 <= i < |t| && t[i] == s[0];
    var j :| 0 <= j < |s| && s[j] == t[0];
    assert LessEq(key(t[0]), key(t[i])) && LessEq(key(s[0]), key(s[j]));
    if Less(key(s[0]), key(t[0])) { LessAsymmetric(key(s[0]), key(t[0])); }
  }

  lemma EqualHeads<T(!new)>(s: seq<T>, t: seq<T>, key: T -> string)
    requires multiset(s) == multiset(t) && s != [] && t != []
    requires DistinctKeys(s, key) && key(s[0]) == key(t[0])
    ensures s[0] == t[0]
  {
    assert t[0] in multiset(s);
    var j :| 0 <= j < |s| && s[j] == t[0];
  }

  /** With distinct keys there is only one sorted order. */
  lemma {:induction false} SortUnique<T(!new)>(s: seq<T>, t: seq<T>, key: T -> string)
    requires multiset(s) == multiset(t) && DistinctKeys(s, key)
    requires SortedBy(s, key) && SortedBy(t, key)
    ensures s == t
  {
    assert |s| == |multiset(s)| == |multiset(t)| == |t|;
    if s != [] {
      SameHeadKey(s, t, key);
      EqualHeads(s, t, key);
      TailMultiset(s);
      TailMultiset(t);
      SortUnique(s[1..], t[1..], key);
      assert s == [s[0]] + s[1..] && t == [t[0]] + t[1..];
    }
  }

  lemma TailMultiset<T>(s: seq<T>)
    requires s != []
    ensures multiset(s[1..]) == multiset(s) - multiset{s[0]}
  {
    assert s == [s[0]] + s[1..];
  }

  function Map<T, U>(f: T -> U, s: seq<T>): (r: seq<U>)
    ensures |r| == |s| && forall i :: 0 <= i < |s| ==> r[i] == f(s[i])
  {
    seq(|s|, i requires 0 <= i < |s| => f(s[i]))
  }

  lemma MapAppend<T, U>(f: T -> U, s: seq<T>, t: seq<T>)
    ensures Map(f, s + t) == Map(f, s) + Map(f, t)
  {
  }

  ghost predicate InjectiveOn<T(!new), U>(f: T -> U, s: seq<T>, t: seq<T>) {
    forall x, y :: x in s + t && y in s + t && f(x) == f(y) ==> x == y
  }

  function Without<T>(s: seq<T>, i: nat): seq<T>
    requires i < |s|
  {
    s[..i] + s[i + 1..]
  }

  lemma WithoutMultiset<T>(s: seq<T>, i: nat)
    requires i < |s|
    ensures multiset(Without(s, i)) == multiset(s) - multiset{s[i]}
    ensures multiset(s) == multiset(Without(s, i)) + multiset{s[i]}
  {
    var head, tail := s[..i], s[i + 1..];
    assert s == head + ([s[i]] + tail);
    assert multiset(s) == multiset(head) + (multiset{s[i]} + multiset(tail));
    assert multiset(Without(s, i)) == multiset(head) + multiset(tail);
  }

  lemma MapWithout<T, U>(f: T -> U, s: seq<T>, i: nat)
    requires i < |s|
    ensures Map(f, Without(s, i)) == Without(Map(f, s), i)
  {
    var a, b := Map(f, Without(s, i)), Without(Map(f, s), i);
    forall k | 0 <= k < |a| ensures a[k] == b[k] {
      assert Without(s, i)[k] == if k < i then s[k] else s[k + 1];
    }
  }

  lemma FindIn<T>(s: seq<T>, x: T) returns (i: nat)
    requires x in multiset(s)
    ensures i < |s| && s[i] == x
  {
    assert x in s;
    i :| 0 <= i < |s| && s[i] == x;
  }

  lemma {:induction false} MapMultiset<T, U>(f: T -> U, s: seq<T>, t: seq<T>)
    requires multiset(s) == multiset(t)
    ensures multiset(Map(f, s)) == multiset(Map(f, t))
    decreases |s|
  {
    assert |s| == |multiset(s)| == |multiset(t)| == |t|;
    if s != [] {
      var i := FindIn(t, s[0]);
      WithoutMultiset(s, 0);
      WithoutMultiset(t, i);
      MapMultiset(f, Without(s, 0), Without(t, i));
      MapWithout(f, s, 0);
      MapWithout(f, t, i);
      WithoutMultiset(Map(f, s), 0);
      WithoutMultiset(Map(f, t), i);
    }
  }

  /** An injective image determines the multiset. */
  lemma {:induction false} MapMultisetInjective<T(!new), U(!new)>(f: T -> U, s: seq<T>, t: seq<T>)
    requires InjectiveOn(f, s, t) && multiset(Map(f, s)) == multiset(Map(f, t))
    ensures multiset(s) == multiset(t)
    decreases |s|
  {
    assert |s| == |multiset(Map(f, s))| == |multiset(Map(f, t))| == |t|;
    if s != [] {
      assert Map(f, s)[0] in multiset(Map(f, s));
      var i := FindIn(Map(f, t), f(s[0]));
      assert s[0] == t[i] by {
        assert s[0] in s + t && t[i] in s + t;
      }
      WithoutMultiset(s, 0);
      WithoutMultiset(t, i);
      assert multiset(Map(f, Without(s, 0))) == multiset(Map(f, Without(t, i))) by {
        MapWithout(f, s, 0);
        MapWithout(f, t, i);
        WithoutMultiset(Map(f, s), 0);
        WithoutMultiset(Map(f, t), i);
      }
      assert InjectiveOn(f, Without(s, 0), Without(t, i)) by { InjectiveWithout(f, s, t, i); }
      MapMultisetInjective(f, Without(s, 0), Without(t, i));
    }
  }

  lemma InjectiveWithout<T(!new), U(!new)>(f: T -> U, s: seq<T>, t: seq<T>, i: nat)
    requires InjectiveOn(f, s, t) && s != [] && i < |t|
    ensures InjectiveOn(f, Without(s, 0), Without(t, i))
  {
    forall x | x in Without(s, 0) + Without(t, i) ensures x in s + t {
    }
  }

  function Same(s: string): string { s }

  /** Strings have one sorted order, repeats or not. */
  lemma {:induction false} SortedStringsUnique(s: seq<string>, t: seq<string>)
    requires multiset(s) == multiset(t) && SortedBy(s, Same) && SortedBy(t, Same)
    ensures s == t
  {
    assert |s| == |multiset(s)| == |multiset(t)| == |t|;
    if s != [] {
      SameHeadKey(s, t, Same);
      TailMultiset(s);
      TailMultiset(t);
      SortedStringsUnique(s[1..], t[1..]);
      assert s == [s[0]] + s[1..] && t == [t[0]] + t[1..];
    }
  }

  /** Comparing two sorted lists key by key is comparing the multisets of their keys. */
  lemma SortedKeysEqual<T(!new)>(s: seq<T>, t: seq<T>, from: seq<T>, into: seq<T>, key: T -> string)
    requires IsSortOf(s, from, key) && IsSortOf(t, into, key)
    ensures Map(key, s) == Map(key, t) <==> multiset(Map(key, from)) == multiset(Map(key, into))
  {
    MapMultiset(key, s, from);
    MapMultiset(key, t, into);
    if multiset(Map(key, from)) == multiset(Map(key, into)) {
      SortedStringsUnique(Map(key, s), Map(key, t));
    }
  }

  lemma InsertPermutes<T>(r: seq<T>, i: nat, x: T)
    requires i <= |r|
    ensures multiset(r[..i] + [x] + r[i..]) == multiset(r + [x])
  {
    assert r == r[..i] + r[i..];
  }

  /** Inserting x between keys not above and not below its own keeps the order. */
  lemma InsertKeepsSorted<T(!new)>(r: seq<T>, i: nat, x: T, key: T -> string)
    requires i <= |r| && SortedBy(r, key)
    requires forall j :: 0 <= j < i ==> LessEq(key(r[j]), key(x))
    requires forall j :: i <= j < |r| ==> LessEq(key(x), key(r[j]))
    ensures SortedBy(r[..i] + [x] + r[i..], key)
  {
    var t := r[..i] + [x] + r[i..];
    forall j, k | 0 <= j < k < |t| ensures LessEq(key(t[j]), key(t[k])) {
      if k < i {
        assert t[j] == r[j] && t[k] == r[k];
      } else if k == i {
        assert t[j] == r[j] && t[k] == x;
      } else if j < i {
        assert t[j] == r[j] && t[k] == r[k - 1];
      } else if j == i {
        assert t[j] == x && t[k] == r[k - 1];
      } else {
        assert t[j] == r[j - 1] && t[k] == r[k - 1];
      }
    }
  }

  lemma TailAbove<T(!new)>(r: seq<T>, i: nat, x: T, key: T -> string)
    requires i < |r| && SortedBy(r, key) && !LessEq(key(r[i]), key(x))
    ensures forall j :: i <= j < |r| ==> LessEq(key(x), key(r[j]))
  {
    LessTotal(key(r[i]), key(x));
    forall j | i <= j < |r| ensures LessEq(key(x), key(r[j])) {
      if i < j { LessEqTransitive(key(x), key(r[i]), key(r[j])); }
    }
  }

  lemma FirstAboveKey<T(!new)>(r: seq<T>, x: T, key: T -> string) returns (i: nat)
    requires SortedBy(r, key)
    ensures i <= |r|
    ensures forall j :: 0 <= j < i ==> LessEq(key(r[j]), key(x))
    ensures forall j :: i <= j < |r| ==> LessEq(key(x), key(r[j]))
  {
    i := 0;
    while i < |r| && LessEq(key(r[i]), key(x))
      invariant 0 <= i <= |r|
      invariant forall j :: 0 <= j < i ==> LessEq(key(r[j]), key(x))
    {
      i := i + 1;
    }
    if i < |r| { TailAbove(r, i, x, key); }
  }

  /** Every list has a sort. */
  lemma {:induction false} SortExists<T(!new)>(s: seq<T>, key: T -> string) returns (r: seq<T>)
    ensures IsSortOf(r, s, key)
    decreases |s|
  {
    if s == [] {
      return [];
    }
    var n := |s| - 1;
    var q := SortExists(s[..n], key);
    var i := FirstAboveKey(q, s[n], key);
    InsertKeepsSorted(q, i, s[n], key);
    InsertPermutes(q, i, s[n]);
    assert s == s[..n] + [s[n]];
    r := q[..i] + [s[n]] + q[i..];
  }

  /** Sorts a clone, as every caller in the source does. The order among equal keys is
      deliberately not part of the contract. */
  method SortFunc<T(!new)>(s: seq<T>, key: T -> string) returns (r: seq<T>)
    ensures IsSortOf(r, s, key)
  {
    r := [];
    for n := 0 to |s|
      invariant IsSortOf(r, s[..n], key)
    {
      var i := 0;
      while i < |r| && LessEq(key(r[i]), key(s[n]))
        invariant 0 <= i <= |r|
        invariant forall j :: 0 <= j < i ==> LessEq(key(r[j]), key(s[n]))
      {
        i := i + 1;
      }
      if i < |r| { TailAbove(r, i, s[n], key); }
      InsertKeepsSorted(r, i, s[n], key);
      InsertPermutes(r, i, s[n]);
      assert s[..n + 1] == s[..n] + [s[n]];
      r := r[..i] + [s[n]] + r[i..];
    }
    assert s[..|s|] == s;
  }
}
