/** The length-plus-containment comparisons: networksEqual, mosNetworksEqual,
    gatewayRoutesEqual, featuresEqual, and the pinned or unpinned matching of lbNetworksEqual. */
module KeyMatch {
  import opened Strings
  import opened Sorting

  /** What the four set-building helpers decide: equal lengths, and every desired key observed. */
  ghost predicate KeysCovered<T(!new)>(observed: seq<T>, desired: seq<T>, key: T -> string) {
    |observed| == |desired| && forall d :: d in desired ==> key(d) in Map(key, observed)
  }

  method ContainedIn<T(!new)>(observed: seq<T>, desired: seq<T>, key: T -> string) returns (r: bool)
    ensures r <==> KeysCovered(observed, desired, key)
  {
    if |observed| != |desired| {
      return false;
    }
    var keys: set<string> := {};
    for i := 0 to |observed|
      invariant forall k :: k in keys <==> k in Map(key, observed)[..i]
    {
      assert Map(key, observed)[..i + 1] == Map(key, observed)[..i] + [key(observed[i])];
      keys := keys + {key(observed[i])};
    }
    for i := 0 to |desired|
      invariant forall k :: 0 <= k < i ==> key(desired[k]) in Map(key, observed)
    {
      assert key(desired[i]) in keys <==> key(desired[i]) in Map(key, observed);
      if key(desired[i]) !in keys {
        assert desired[i] in desired;
        return false;
      }
    }
    return true;
  }

  /** Distinct strings that all occur in an equally long list are exactly that list's entries. */
  lemma {:induction false} Pigeonhole(have: seq<string>, want: seq<string>)
    requires |have| == |want| && DistinctKeys(want, Same)
    requires forall w :: w in want ==> w in have
    ensures multiset(have) == multiset(want)
  {
    if want != [] {
      assert want[0] in have;
      var i := FindIn(have, want[0]);
      var have', want' := Without(have, i), Without(want, 0);
      WithoutMultiset(have, i);
      WithoutMultiset(want, 0);
      forall w | w in want' ensures w in have' {
        assert w in want;
        var j :| 0 <= j < |want'| && want'[j] == w;
        assert Same(want[0]) != Same(want[j + 1]);
        assert w in multiset(have) && w != have[i];
        assert w in multiset(have');
      }
      Pigeonhole(have', want');
    }
  }

  /** With no repeated desired key, containment one way plus equal length is equality of the
      multisets of keys. */
  lemma CoveredIsEquality<T(!new)>(observed: seq<T>, desired: seq<T>, key: T -> string)
    requires DistinctKeys(desired, key)
    ensures KeysCovered(observed, desired, key) <==> multiset(Map(key, observed)) == multiset(Map(key, desired))
  {
    var have, want := Map(key, observed), Map(key, desired);
    if KeysCovered(observed, desired, key) {
      forall w | w in want ensures w in have {
        var i :| 0 <= i < |want| && want[i] == w;
        assert desired[i] in desired;
      }
      assert DistinctKeys(want, Same);
      Pigeonhole(have, want);
    }
    if multiset(have) == multiset(want) {
      assert |have| == |multiset(have)| == |multiset(want)| == |want|;
      forall d | d in desired ensures key(d) in have {
        var i :| 0 <= i < |desired| && desired[i] == d;
        assert want[i] in multiset(want);
        assert key(d) in multiset(have);
      }
    }
  }

  /** Replacing one of two entries with the same key by anything at all goes unnoticed. */
  lemma RepeatHidesReplacement<T(!new)>(desired: seq<T>, key: T -> string, i: nat, j: nat, other: T)
    requires i < |desired| && j < |desired| && i != j && key(desired[i]) == key(desired[j])
    ensures KeysCovered(desired[j := other], desired, key)
  {
    var observed := desired[j := other];
    forall d | d in desired ensures key(d) in Map(key, observed) {
      var k :| 0 <= k < |desired| && desired[k] == d;
      assert Map(key, observed)[if k == j then i else k] == key(d);
    }
  }

  lemma ReplacedDiffers<T(!new)>(s: seq<T>, j: nat, other: T)
    requires j < |s| && other !in s
    ensures multiset(s[j := other]) != multiset(s)
  {
    assert s[j := other][j] == other;
    assert other in multiset(s[j := other]) && other !in multiset(s);
  }

  lemma MapReplaced<T, U>(f: T -> U, s: seq<T>, j: nat, other: T)
    requires j < |s|
    ensures Map(f, s[j := other]) == Map(f, s)[j := f(other)]
  {
  }

  /** The exact condition, for any kind of entry with a key not among the desired ones: the check is right
      about every observed list if and only if no desired key repeats. */
  lemma CoveredIsEqualityIffDistinct<T(!new)>(desired: seq<T>, key: T -> string, other: T)
    requires key(other) !in Map(key, desired)
    ensures (forall observed ::
        KeysCovered(observed, desired, key) <==> multiset(Map(key, observed)) == multiset(Map(key, desired)))
            <==> DistinctKeys(desired, key)
  {
    if DistinctKeys(desired, key) {
      forall observed ensures KeysCovered(observed, desired, key)
          <==> multiset(Map(key, observed)) == multiset(Map(key, desired)) {
        CoveredIsEquality(observed, desired, key);
      }
    } else {
      var i, j :| 0 <= i < j < |desired| && key(desired[i]) == key(desired[j]);
      RepeatHidesReplacement(desired, key, i, j, other);
      MapReplaced(key, desired, j, other);
      ReplacedDiffers(Map(key, desired), j, key(other));
    }
  }

  /** For lists of names, as in featuresEqual, there always is another. */
  lemma NamesEqualIffDistinct(desired: seq<string>)
    ensures (forall observed :: KeysCovered(observed, desired, Same) <==> multiset(observed) == multiset(desired))
            <==> DistinctKeys(desired, Same)
  {
    var other := FreshString(set x | x in desired);
    MapSame(desired);
    CoveredIsEqualityIffDistinct(desired, Same, other);
    forall observed ensures Map(Same, observed) == observed {
      MapSame(observed);
    }
  }

  /** A repeated desired key makes the check accept a different list: an example. */
  lemma RepeatedKeyAccepted() returns (observed: seq<string>, desired: seq<string>)
    ensures KeysCovered(observed, desired, Same) && multiset(observed) != multiset(desired)
  {
    observed, desired := ["a", "b"], ["a", "a"];
    assert Map(Same, observed)[0] == "a";
    assert multiset(observed)["b"] == 1 && multiset(desired)["b"] == 0;
  }

  lemma MapSame(s: seq<string>)
    ensures Map(Same, s) == s
  {
  }

  // ---- Network attachments

  /** A service's network attachment; an absent UUID is the empty string, as in the key. */
  datatype Attachment = Attachment(name: string, kind: string, family: string, uuid: string)

  function BaseKey(n: Attachment): string { n.name + [BAR] + n.kind + [BAR] + n.family }

  function FullKey(n: Attachment): string { BaseKey(n) + [BAR] + n.uuid }

  predicate KeySafe(n: Attachment) { BarFree(n.name) && BarFree(n.kind) && BarFree(n.family) }

  predicate SameBase(a: Attachment, b: Attachment) { a.name == b.name && a.kind == b.kind && a.family == b.family }

  lemma BaseKeyInjective(a: Attachment, b: Attachment)
    requires KeySafe(a) && KeySafe(b)
    ensures BaseKey(a) == BaseKey(b) <==> SameBase(a, b)
  {
    if BaseKey(a) == BaseKey(b) {
      SplitLast(a.name + [BAR] + a.kind, a.family, b.name + [BAR] + b.kind, b.family);
      SplitLast(a.name, a.kind, b.name, b.kind);
    }
  }

  /** The UUID may be any string: it comes last, so the three safe fields fix where it starts. */
  lemma FullKeyInjective(a: Attachment, b: Attachment)
    requires KeySafe(a) && KeySafe(b)
    ensures FullKey(a) == FullKey(b) <==> a == b
  {
    if FullKey(a) == FullKey(b) {
      var ra, rb := a.family + [BAR] + a.uuid, b.family + [BAR] + b.uuid;
      assert FullKey(a) == a.name + [BAR] + (a.kind + [BAR] + ra);
      assert FullKey(b) == b.name + [BAR] + (b.kind + [BAR] + rb);
      SplitFirst(a.name, a.kind + [BAR] + ra, b.name, b.kind + [BAR] + rb);
      SplitFirst(a.kind, ra, b.kind, rb);
      SplitFirst(a.family, a.uuid, b.family, b.uuid);
    }
  }

  /** networksEqual and mosNetworksEqual are equality of multisets of attachments. */
  lemma NetworksEqualIsMultisetEquality(observed: seq<Attachment>, desired: seq<Attachment>)
    requires DistinctKeys(desired, FullKey)
    requires forall n :: n in observed || n in desired ==> KeySafe(n)
    ensures KeysCovered(observed, desired, FullKey) <==> multiset(observed) == multiset(desired)
  {
    CoveredIsEquality(observed, desired, FullKey);
    if multiset(observed) == multiset(desired) {
      MapMultiset(FullKey, observed, desired);
    }
    if multiset(Map(FullKey, observed)) == multiset(Map(FullKey, desired)) {
      forall x, y | x in observed + desired && y in observed + desired && FullKey(x) == FullKey(y) ensures x == y {
        FullKeyInjective(x, y);
      }
      MapMultisetInjective(FullKey, observed, desired);
    }
  }

  lemma FreshAttachment(desired: seq<Attachment>) returns (other: Attachment)
    ensures KeySafe(other) && other.uuid == "" && forall d :: d in desired ==> !SameBase(other, d)
  {
    var name := FreshString(set d | d in desired :: d.name);
    other := Attachment(name, "", "", "");
  }

  /** The exact condition for networksEqual and mosNetworksEqual: right about every observed list with
      separator-free fields if and only if no desired key repeats. */
  lemma NetworksEqualIffDistinct(desired: seq<Attachment>)
    requires forall d :: d in desired ==> KeySafe(d)
    ensures (forall observed :: (forall o :: o in observed ==> KeySafe(o)) ==>
               (KeysCovered(observed, desired, FullKey) <==> multiset(observed) == multiset(desired)))
            <==> DistinctKeys(desired, FullKey)
  {
    if DistinctKeys(desired, FullKey) {
      forall observed | forall o :: o in observed ==> KeySafe(o)
        ensures KeysCovered(observed, desired, FullKey) <==> multiset(observed) == multiset(desired)
      {
        NetworksEqualIsMultisetEquality(observed, desired);
      }
    } else {
      var i, j :| 0 <= i < j < |desired| && FullKey(desired[i]) == FullKey(desired[j]);
      var other := FreshAttachment(desired);
      RepeatHidesReplacement(desired, FullKey, i, j, other);
      ReplacedDiffers(desired, j, other);
      forall o | o in desired[j := other] ensures KeySafe(o) {
        assert o == other || o in desired;
      }
    }
  }

  // ---- Load balancer networks

  ghost predicate LbCovered(observed: seq<Attachment>, desired: seq<Attachment>) {
    && |observed| == |desired|
    && forall d :: d in desired ==> LbFound(observed, d)
  }

  /** A pinned UUID needs the full key; otherwise name, type and family are enough. */
  predicate LbFound(observed: seq<Attachment>, d: Attachment) {
    if d.uuid != "" then FullKey(d) in Map(FullKey, observed) else BaseKey(d) in Map(BaseKey, observed)
  }

  /** The two key sets of the observed networks. */
  method KeySets(observed: seq<Attachment>) returns (base: set<string>, full: set<string>)
    ensures forall k :: k in full <==> k in Map(FullKey, observed)
    ensures forall k :: k in base <==> k in Map(BaseKey, observed)
  {
    var fulls, bases := Map(FullKey, observed), Map(BaseKey, observed);
    base, full := {}, {};
    for i := 0 to |observed|
      invariant forall k :: k in full <==> k in fulls[..i]
      invariant forall k :: k in base <==> k in bases[..i]
    {
      assert fulls[..i + 1] == fulls[..i] + [fulls[i]];
      assert bases[..i + 1] == bases[..i] + [bases[i]];
      full := full + {FullKey(observed[i])};
      base := base + {BaseKey(observed[i])};
    }
    assert fulls[..|observed|] == fulls && bases[..|observed|] == bases;
  }

  method LbNetworksEqual(observed: seq<Attachment>, desired: seq<Attachment>) returns (r: bool)
    ensures r <==> LbCovered(observed, desired)
  {
    if |observed| != |desired| {
      return false;
    }
    var base, full := KeySets(observed);
    for i := 0 to |desired|
      invariant forall k :: 0 <= k < i ==> LbFound(observed, desired[k])
    {
      var d := desired[i];
      if d.uuid != "" {
        if FullKey(d) !in full {
          assert d in desired && !LbFound(observed, d);
          return false;
        }
      } else if BaseKey(d) !in base {
        assert d in desired && !LbFound(observed, d);
        return false;
      }
    }
    return true;
  }

  /** One observed network satisfies one desired network. */
  predicate Satisfies(o: Attachment, d: Attachment) {
    SameBase(o, d) && (d.uuid != "" ==> o.uuid == d.uuid)
  }

  /** p assigns to desired[i] the observed network p[i], using every observed network exactly once. */
  ghost predicate IsMatching(p: seq<nat>, observed: seq<Attachment>, desired: seq<Attachment>) {
    && |p| == |desired| == |observed|
    && (forall i :: 0 <= i < |p| ==> p[i] < |observed| && Satisfies(observed[p[i]], desired[i]))
    && (forall i, j :: 0 <= i < j < |p| ==> p[i] != p[j])
    && (forall o :: 0 <= o < |observed| ==> o in p)
  }

  function Upto(n: nat): (s: set<nat>)
    ensures |s| == n && forall i :: i in s <==> 0 <= i < n
  {
    if n == 0 then {} else Upto(n - 1) + {n - 1}
  }

  function Elements(p: seq<nat>): (s: set<nat>)
    ensures forall x :: x in s <==> x in p
  {
    if p == [] then {} else {p[0]} + Elements(p[1..])
  }

  lemma {:induction false} ElementsCount(p: seq<nat>)
    requires forall i, j :: 0 <= i < j < |p| ==> p[i] != p[j]
    ensures |Elements(p)| == |p|
  {
    if p != [] {
      ElementsCount(p[1..]);
      assert p[0] !in p[1..];
    }
  }

  lemma SubsetOfSameSize<T>(a: set<T>, b: set<T>)
    requires a <= b && |a| == |b|
    ensures a == b
  {
    assert |b - a| == |b| - |a|;
  }

  /** n distinct indices below n are all of them. */
  lemma InjectionIsOnto(p: seq<nat>)
    requires forall i :: 0 <= i < |p| ==> p[i] < |p|
    requires forall i, j :: 0 <= i < j < |p| ==> p[i] != p[j]
    ensures forall o :: 0 <= o < |p| ==> o in p
  {
    ElementsCount(p);
    forall x | x in p ensures x in Upto(|p|) {
      var i :| 0 <= i < |p| && p[i] == x;
    }
    SubsetOfSameSize(Elements(p), Upto(|p|));
  }

  lemma CoveredHasWitness(observed: seq<Attachment>, d: Attachment)
    requires KeySafe(d) && forall o :: o in observed ==> KeySafe(o)
    ensures LbFound(observed, d) <==> exists i :: 0 <= i < |observed| && Satisfies(observed[i], d)
  {
    forall i | 0 <= i < |observed| ensures FullKey(observed[i]) == FullKey(d) <==> observed[i] == d {
      assert observed[i] in observed;
      FullKeyInjective(observed[i], d);
    }
    forall i | 0 <= i < |observed| ensures BaseKey(observed[i]) == BaseKey(d) <==> SameBase(observed[i], d) {
      assert observed[i] in observed;
      BaseKeyInjective(observed[i], d);
    }
    if d.uuid != "" && FullKey(d) in Map(FullKey, observed) {
      var i :| 0 <= i < |observed| && Map(FullKey, observed)[i] == FullKey(d);
      assert Satisfies(observed[i], d);
    }
    if d.uuid == "" && BaseKey(d) in Map(BaseKey, observed) {
      var i :| 0 <= i < |observed| && Map(BaseKey, observed)[i] == BaseKey(d);
      assert Satisfies(observed[i], d);
    }
    if i :| 0 <= i < |observed| && Satisfies(observed[i], d) {
      assert Map(FullKey, observed)[i] == FullKey(observed[i]);
      assert Map(BaseKey, observed)[i] == BaseKey(observed[i]);
    }
  }

  ghost function Witness(observed: seq<Attachment>, d: Attachment): (i: nat)
    requires exists i :: 0 <= i < |observed| && Satisfies(observed[i], d)
    ensures i < |observed| && Satisfies(observed[i], d)
  {
    var i :| 0 <= i < |observed| && Satisfies(observed[i], d);
    i
  }

  /** The observed networks can be paired off with the desired ones. */
  ghost predicate Matchable(observed: seq<Attachment>, desired: seq<Attachment>) {
    exists p :: IsMatching(p, observed, desired)
  }

  /** No two desired networks compete for the same observed one: they differ in name, type or family, or
      are pinned to different networks. */
  ghost predicate Separated(desired: seq<Attachment>) {
    forall i, j :: 0 <= i < j < |desired| ==> Apart(desired[i], desired[j])
  }

  predicate Apart(a: Attachment, b: Attachment) {
    SameBase(a, b) ==> a.uuid != "" && b.uuid != "" && a.uuid != b.uuid
  }

  /** The matching decides whether the observed networks can be paired off with the desired ones,
      pinned UUIDs included. */
  lemma LbCoveredIsMatching(observed: seq<Attachment>, desired: seq<Attachment>)
    requires Separated(desired)
    requires forall n :: n in observed || n in desired ==> KeySafe(n)
    ensures LbCovered(observed, desired) <==> Matchable(observed, desired)
  {
    forall i | 0 <= i < |desired| ensures desired[i] in desired {
      CoveredHasWitness(observed, desired[i]);
    }
    if LbCovered(observed, desired) {
      forall i | 0 <= i < |desired|
        ensures exists j :: 0 <= j < |observed| && Satisfies(observed[j], desired[i])
      {
        CoveredHasWitness(observed, desired[i]);
      }
      var p := seq(|desired|, i requires 0 <= i < |desired| => Witness(observed, desired[i]));
      forall i, j | 0 <= i < j < |p| ensures p[i] != p[j] {
        assert Apart(desired[i], desired[j]);
      }
      InjectionIsOnto(p);
      assert IsMatching(p, observed, desired);
    }
    if p :| IsMatching(p, observed, desired) {
      forall d | d in desired ensures LbFound(observed, d) {
        var i :| 0 <= i < |desired| && desired[i] == d;
        assert Satisfies(observed[p[i]], d);
        CoveredHasWitness(observed, d);
      }
    }
  }

  /** A matching gives every observed network to some desired one. */
  lemma UsedBy(p: seq<nat>, observed: seq<Attachment>, desired: seq<Attachment>, j: nat) returns (k: nat)
    requires IsMatching(p, observed, desired) && j < |observed|
    ensures k < |desired| && desired[k] in desired && Satisfies(observed[j], desired[k])
  {
    assert j in p;
    k :| 0 <= k < |p| && p[k] == j;
  }

  /** Of two desired networks that compete, the less demanding one can be replaced unnoticed. */
  lemma CompetingHidesReplacement(desired: seq<Attachment>, i: nat, j: nat, other: Attachment)
    requires i < |desired| && j < |desired| && i != j && SameBase(desired[i], desired[j])
    requires desired[j].uuid == "" || desired[j].uuid == desired[i].uuid
    requires KeySafe(other) && forall d :: d in desired ==> KeySafe(d) && !SameBase(other, d)
    ensures LbCovered(desired[j := other], desired) && !Matchable(desired[j := other], desired)
  {
    var observed := desired[j := other];
    forall d | d in desired ensures LbFound(observed, d) {
      var k :| 0 <= k < |desired| && desired[k] == d;
      assert Satisfies(observed[if k == j then i else k], d);
      CoveredHasWitness(observed, d);
    }
    forall p | IsMatching(p, observed, desired) ensures false {
      var k := UsedBy(p, observed, desired, j);
    }
  }

  /** The exact condition for lbNetworksEqual: it is right about every observed list if and only if no two
      desired networks compete. */
  lemma LbIsMatchingIffSeparated(desired: seq<Attachment>)
    requires forall d :: d in desired ==> KeySafe(d)
    ensures (forall observed :: (forall o :: o in observed ==> KeySafe(o)) ==>
               (LbCovered(observed, desired) <==> Matchable(observed, desired)))
            <==> Separated(desired)
  {
    if Separated(desired) {
      forall observed | forall o :: o in observed ==> KeySafe(o)
        ensures LbCovered(observed, desired) <==> Matchable(observed, desired)
      {
        LbCoveredIsMatching(observed, desired);
      }
    } else {
      var i, j :| 0 <= i < j < |desired| && !Apart(desired[i], desired[j]);
      var other := FreshAttachment(desired);
      var kept, gone := if desired[j].uuid == "" then i else j, if desired[j].uuid == "" then j else i;
      CompetingHidesReplacement(desired, kept, gone, other);
      forall o | o in desired[gone := other] ensures KeySafe(o) {
        assert o == other || o in desired;
      }
    }
  }
}
