/** Ownership labels (internal/upcloudapi/labels.go). */
module Labels {
  import opened Sorting

  datatype Label = Label(key: string, value: string)

  const LABEL_MANAGED_BY := "managed-by"
  const LABEL_UID := "k8s-uid"
  const MANAGED_BY_VALUE := "uck"

  function KeyOf(l: Label): string { l.key }

  predicate Reserved(k: string) { k == LABEL_MANAGED_BY || k == LABEL_UID }

  function OwnerLabels(uid: string): seq<Label> {
    [Label(LABEL_UID, uid), Label(LABEL_MANAGED_BY, MANAGED_BY_VALUE)]
  }

  predicate HasUID(labels: seq<Label>, uid: string) { Label(LABEL_UID, uid) in labels }

  /** What the labels of a managed resource mean: the user's, with the two owner keys on top. */
  function Merged(uid: string, user: map<string, string>): map<string, string> {
    user + map[LABEL_UID := uid, LABEL_MANAGED_BY := MANAGED_BY_VALUE]
  }

  /** ls lists the map m, each key once, in key order. */
  ghost predicate Lists(ls: seq<Label>, m: map<string, string>) {
    && SortedBy(ls, KeyOf)
    && DistinctKeys(ls, KeyOf)
    && forall l :: l in ls <==> l.key in m && m[l.key] == l.value
  }

  lemma {:induction false} ListExists(m: map<string, string>) returns (ls: seq<Label>)
    ensures Lists(ls, m)
    decreases |m.Keys|
  {
    if m.Keys == {} {
      return [];
    }
    var k :| k in m.Keys;
    assert (m - {k}).Keys == m.Keys - {k};
    var r := ListExists(m - {k});
    ls := InsertLabel(r, m, k);
  }

  /** A listing of m without k becomes a listing of m. */
  lemma InsertLabel(r: seq<Label>, m: map<string, string>, k: string) returns (ls: seq<Label>)
    requires k in m && Lists(r, m - {k})
    ensures Lists(ls, m)
  {
    var x := Label(k, m[k]);
    var i := FirstAboveKey(r, x, KeyOf);
    InsertKeepsSorted(r, i, x, KeyOf);
    ls := r[..i] + [x] + r[i..];
    InsertPermutes(r, i, x);
    AppendDistinct(r, x);
    PermutationKeepsDistinct(r + [x], ls, KeyOf);
    SameElements(ls, r + [x]);
  }

  lemma SameElements<T(!new)>(a: seq<T>, b: seq<T>)
    requires multiset(a) == multiset(b)
    ensures forall l :: l in a <==> l in b
  {
    forall l ensures l in a <==> l in b {
      assert l in a <==> l in multiset(a);
      assert l in b <==> l in multiset(b);
    }
  }

  lemma AppendDistinct(r: seq<Label>, x: Label)
    requires DistinctKeys(r, KeyOf) && forall l :: l in r ==> l.key != x.key
    ensures DistinctKeys(r + [x], KeyOf)
  {
    assert forall j :: 0 <= j < |r| ==> r[j] in r;
  }

  lemma Listable(m: map<string, string>)
    ensures exists ls :: Lists(ls, m)
  {
    var ls := ListExists(m);
  }

  /** Two listings of one map have the same elements the same number of times. */
  lemma SameListing(a: seq<Label>, b: seq<Label>, m: map<string, string>)
    requires DistinctKeys(a, KeyOf) && DistinctKeys(b, KeyOf)
    requires forall l :: l in a <==> l.key in m && m[l.key] == l.value
    requires forall l :: l in b <==> l.key in m && m[l.key] == l.value
    ensures multiset(a) == multiset(b)
  {
    forall l ensures multiset(a)[l] == multiset(b)[l] {
      OneOccurrence(a, KeyOf, l);
      OneOccurrence(b, KeyOf, l);
      assert l in multiset(a) <==> l in a;
      assert l in multiset(b) <==> l in b;
    }
  }

  /** The label list of a managed resource: the one listing of the merged map. */
  ghost function Desired(uid: string, user: map<string, string>): (r: seq<Label>)
    ensures Lists(r, Merged(uid, user))
  {
    Listable(Merged(uid, user));
    var r :| Lists(r, Merged(uid, user));
    r
  }

  predicate Collected(l: Label, uid: string, user: map<string, string>, rest: set<string>) {
    l in OwnerLabels(uid) || (l.key in user.Keys - rest && !Reserved(l.key) && user[l.key] == l.value)
  }

  /** Owner labels, then the user's in whatever order the map yields them, then sorted. The
      result does not depend on that order. */
  method DesiredLabels(uid: string, user: map<string, string>) returns (out: seq<Label>)
    ensures out == Desired(uid, user)
  {
    var collected := Collect(uid, user);
    out := SortFunc(collected, KeyOf);
    PermutationKeepsDistinct(collected, out, KeyOf);
    SameElements(out, collected);
    forall l ensures l in out <==> l.key in Merged(uid, user) && Merged(uid, user)[l.key] == l.value {
      assert l in collected <==> Collected(l, uid, user, {});
    }
    SameListing(out, Desired(uid, user), Merged(uid, user));
    SortUnique(out, Desired(uid, user), KeyOf);
  }

  method Collect(uid: string, user: map<string, string>) returns (out: seq<Label>)
    ensures DistinctKeys(out, KeyOf) && forall l :: l in out <==> Collected(l, uid, user, {})
  {
    out := OwnerLabels(uid);
    var rest := user.Keys;
    while rest != {}
      invariant rest <= user.Keys
      invariant DistinctKeys(out, KeyOf)
      invariant forall l :: l in out <==> Collected(l, uid, user, rest)
      decreases |rest|
    {
      var k :| k in rest;
      rest := rest - {k};
      if !Reserved(k) {
        AppendDistinct(out, Label(k, user[k]));
        out := out + [Label(k, user[k])];
      }
    }
  }

  /** The owner's two labels are always there and no user entry overrides either. */
  lemma DesiredCarriesOwner(uid: string, user: map<string, string>, l: Label)
    requires Reserved(l.key)
    ensures l in Desired(uid, user) <==> l in OwnerLabels(uid)
  {
  }

  lemma DesiredHasExactlyOneUID(uid: string, user: map<string, string>, other: string)
    ensures HasUID(Desired(uid, user), other) <==> other == uid
  {
    DesiredCarriesOwner(uid, user, Label(LABEL_UID, other));
  }

  /** Equality of two label sets ignoring order. When the second has no repeated key this is
      exactly equality of multisets, whatever order sorting leaves equal keys in. */
  method LabelsEqual(a: seq<Label>, b: seq<Label>) returns (r: bool)
    ensures r ==> multiset(a) == multiset(b)
    ensures DistinctKeys(b, KeyOf) ==> (r <==> multiset(a) == multiset(b))
  {
    if |a| != |b| {
      assert |multiset(a)| == |a| && |multiset(b)| == |b|;
      return false;
    }
    var sa := SortFunc(a, KeyOf);
    var sb := SortFunc(b, KeyOf);
    r := sa == sb;
    if DistinctKeys(b, KeyOf) && multiset(a) == multiset(b) {
      PermutationKeepsDistinct(b, sa, KeyOf);
      SortUnique(sa, sb, KeyOf);
    }
  }

  method HasUIDScan(labels: seq<Label>, uid: string) returns (found: bool)
    ensures found == HasUID(labels, uid)
  {
    for i := 0 to |labels|
      invariant Label(LABEL_UID, uid) !in labels[..i]
    {
      if labels[i].key == LABEL_UID && labels[i].value == uid {
        return true;
      }
    }
    return false;
  }

  /** Any label set the drift check accepts still carries the owner's uid and no other, so the
      resource can be adopted again by exactly its owner. */
  lemma AcceptedLabelsStayAdoptable(labels: seq<Label>, uid: string, user: map<string, string>, other: string)
    requires multiset(labels) == multiset(Desired(uid, user))
    ensures HasUID(labels, other) <==> other == uid
  {
    DesiredHasExactlyOneUID(uid, user, other);
    var l := Label(LABEL_UID, other);
    assert l in labels <==> l in multiset(labels);
    assert l in Desired(uid, user) <==> l in multiset(Desired(uid, user));
  }

  /** Exactly which labels a managed resource gets: the owner's two, and the user's under other keys. */
  lemma DesiredLabelIff(uid: string, user: map<string, string>, l: Label)
    ensures l in Desired(uid, user) <==>
              || l == Label("k8s-uid", uid) || l == Label("managed-by", "uck")
              || (l.key != "k8s-uid" && l.key != "managed-by" && l.key in user && user[l.key] == l.value)
  {
  }
}
