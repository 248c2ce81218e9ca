/** Who owns what: the invariant tying the stored resources of one kind to the cloud resources
    carrying their labels, and the four things one reconcile pass may do to it. */
module Ownership {
  import opened Support
  import opened Labels
  import opened Reconciler
  import opened PassShape

  /** The labels of every cloud resource of the kind, by identifier. */
  type Labelled = map<Uuid, seq<Label>>

  ghost predicate OnlyUID(labels: seq<Label>, uid: string) {
    forall u :: HasUID(labels, u) <==> u == uid
  }

  /** No uid is on two resources, and every uid on a resource is a used one. */
  ghost predicate WellLabelled(res: Labelled, used: set<string>, last: nat) {
    && (forall k :: k in res ==> NO_UUID < k <= last)
    && (forall k, u :: k in res && HasUID(res[k], u) ==> u in used)
    && (forall k, u, v :: k in res && HasUID(res[k], u) && HasUID(res[k], v) ==> u == v)
    && (forall k, l, u :: k in res && l in res && HasUID(res[k], u) && HasUID(res[l], u) ==> k == l)
  }

  ghost predicate DistinctUids<S(!new), X(!new)>(objs: map<string, CR<S, X>>, used: set<string>) {
    && (forall a :: a in objs ==> objs[a].uid in used)
    && (forall a, b :: a in objs && b in objs && objs[a].uid == objs[b].uid ==> a == b)
  }

  /** A recorded identity names nothing but the resource carrying the owner's uid. A resource carrying
      the owner's uid is the recorded one, if one is recorded, and implies the finalizer. */
  ghost predicate Tracks<S, X>(o: CR<S, X>, res: Labelled, last: nat) {
    && (o.id != NO_UUID ==> o.finalizer && o.id <= last && (o.id in res ==> HasUID(res[o.id], o.uid)))
    && (forall k :: k in res && HasUID(res[k], o.uid) ==> o.finalizer && (o.id == NO_UUID || k == o.id))
  }

  /** A recorded identity names a resource that exists, unless the owner is being deleted. */
  ghost predicate Alive<S, X>(o: CR<S, X>, res: Labelled) {
    o.id == NO_UUID || o.deleting || o.id in res
  }

  ghost predicate Accounted<S(!new), X(!new)>(
    objs: map<string, CR<S, X>>, res: Labelled, used: set<string>, last: nat) {
    && WellLabelled(res, used, last)
    && DistinctUids(objs, used)
    && (forall a :: a in objs ==> Tracks(objs[a], res, last))
  }

  ghost predicate AllAlive<S(!new), X(!new)>(objs: map<string, CR<S, X>>, res: Labelled) {
    forall a :: a in objs ==> Alive(objs[a], res)
  }

  ghost predicate Owned<S(!new), X(!new)>(objs: map<string, CR<S, X>>, res: Labelled, used: set<string>, last: nat) {
    Accounted(objs, res, used, last) && AllAlive(objs, res)
  }

  ghost predicate NoneCarries(res: Labelled, uid: string) {
    forall k :: k in res ==> !HasUID(res[k], uid)
  }

  /** No resource appears, changes or goes; the identity may be recorded by adoption. */
  ghost predicate Keeps<S, X>(
    o: CR<S, X>, after: Option<CR<S, X>>, res: Labelled, last: nat, res': Labelled, last': nat) {
    && res' == res && last' == last
    && (after.Some? ==>
          && Continues(o, after.value)
          && (after.value.id == o.id || (o.finalizer && after.value.id in res && HasUID(res[after.value.id], o.uid))))
  }

  /** One resource appears, for an owner that had none; its identity is recorded or lost. */
  ghost predicate Adds<S, X>(
    o: CR<S, X>, after: Option<CR<S, X>>, res: Labelled, last: nat, res': Labelled, last': nat) {
    && !o.deleting && o.finalizer && NoneCarries(res, o.uid)
    && last' == last + 1
    && (exists labels :: OnlyUID(labels, o.uid) && res' == res[last' := labels])
    && after.Some? && Continues(o, after.value) && (after.value.id == o.id || after.value.id == last')
  }

  /** The owner's resource is rewritten and stays the owner's. */
  ghost predicate Rewrites<S, X>(
    o: CR<S, X>, after: Option<CR<S, X>>, res: Labelled, last: nat, res': Labelled, last': nat) {
    && !o.deleting && o.finalizer && last' == last
    && (exists k, labels :: k in res && HasUID(res[k], o.uid) && OnlyUID(labels, o.uid) && res' == res[k := labels])
    && after.Some? && Continues(o, after.value)
    && (after.value.id == o.id || (after.value.id in res && HasUID(res[after.value.id], o.uid)))
  }

  /** The recorded resource of a resource being deleted goes. */
  ghost predicate Removes<S, X>(
    o: CR<S, X>, after: Option<CR<S, X>>, res: Labelled, last: nat, res': Labelled, last': nat) {
    && o.deleting && o.policy == DeletePolicy && o.finalizer && o.id in res && last' == last
    && res' == res - {o.id}
    && (after.Some? ==> Continues(o, after.value) && after.value.id == o.id)
  }

  ghost predicate Effect<S, X>(
    o: CR<S, X>, after: Option<CR<S, X>>, res: Labelled, last: nat, res': Labelled, last': nat) {
    || Keeps(o, after, res, last, res', last')
    || Adds(o, after, res, last, res', last')
    || Rewrites(o, after, res, last, res', last')
    || Removes(o, after, res, last, res', last')
  }

  function Replaced<S, X>(objs: map<string, CR<S, X>>, name: string, after: Option<CR<S, X>>): map<string, CR<S, X>> {
    if after.Some? then objs[name := after.value] else objs - {name}
  }

  lemma EffectKeepsLabels<S, X>(
    o: CR<S, X>, after: Option<CR<S, X>>, res: Labelled, used: set<string>, last: nat, res': Labelled, last': nat)
    requires WellLabelled(res, used, last) && o.uid in used
    requires Effect(o, after, res, last, res', last')
    ensures WellLabelled(res', used, last') && last <= last'
  {
    if Adds(o, after, res, last, res', last') {
      var labels :| OnlyUID(labels, o.uid) && res' == res[last' := labels];
    } else if Rewrites(o, after, res, last, res', last') {
      var k, labels :| k in res && HasUID(res[k], o.uid) && OnlyUID(labels, o.uid) && res' == res[k := labels];
    }
  }

  /** The other owners are not affected. */
  lemma EffectKeepsOthers<S, X>(
    o: CR<S, X>, after: Option<CR<S, X>>, b: CR<S, X>, res: Labelled, used: set<string>, last: nat, res': Labelled,
    last': nat)
    requires WellLabelled(res, used, last) && Tracks(o, res, last) && Tracks(b, res, last) && Alive(b, res)
        && o.uid != b.uid
    requires Effect(o, after, res, last, res', last')
    ensures Tracks(b, res', last') && Alive(b, res')
  {
    if Adds(o, after, res, last, res', last') {
      var labels :| OnlyUID(labels, o.uid) && res' == res[last' := labels];
    } else if Rewrites(o, after, res, last, res', last') {
      var k, labels :| k in res && HasUID(res[k], o.uid) && OnlyUID(labels, o.uid) && res' == res[k := labels];
    }
  }

  lemma EffectKeepsOwn<S, X>(
    o: CR<S, X>, after: CR<S, X>, res: Labelled, used: set<string>, last: nat, res': Labelled, last': nat)
    requires WellLabelled(res, used, last) && Tracks(o, res, last) && Alive(o, res)
    requires Effect(o, Some(after), res, last, res', last')
    ensures Tracks(after, res', last') && Alive(after, res')
  {
    if Adds(o, Some(after), res, last, res', last') {
      var labels :| OnlyUID(labels, o.uid) && res' == res[last' := labels];
    } else if Rewrites(o, Some(after), res, last, res', last') {
      var k, labels :| k in res && HasUID(res[k], o.uid) && OnlyUID(labels, o.uid) && res' == res[k := labels];
    }
  }

  /** Every effect of a pass keeps ownership intact. */
  lemma EffectKeepsOwned<S(!new), X(!new)>(
    objs: map<string, CR<S, X>>, name: string, after: Option<CR<S, X>>,
    res: Labelled, used: set<string>, last: nat, res': Labelled, last': nat)
    requires Owned(objs, res, used, last) && name in objs
    requires Effect(objs[name], after, res, last, res', last')
    ensures Owned(Replaced(objs, name, after), res', used, last')
  {
    var o, objs' := objs[name], Replaced(objs, name, after);
    EffectKeepsLabels(o, after, res, used, last, res', last');
    forall b | b in objs' ensures Tracks(objs'[b], res', last') && Alive(objs'[b], res') {
      if b == name {
        EffectKeepsOwn(o, after.value, res, used, last, res', last');
      } else {
        EffectKeepsOthers(o, after, objs[b], res, used, last, res', last');
      }
    }
  }

  /** Who would be left with a stale identity if k went. */
  ghost predicate Missed<S(!new), X(!new)>(objs: map<string, CR<S, X>>, res: Labelled, k: Uuid) {
    k in res && exists a :: a in objs && objs[a].id == k && !objs[a].deleting
  }

  /** A resource deleted behind the operator's back keeps ownership intact exactly when no live owner
      has it on record. */
  lemma GoneKeepsOwnedIff<S(!new), X(!new)>(
    objs: map<string, CR<S, X>>, res: Labelled, used: set<string>, last: nat, k: Uuid)
    requires Accounted(objs, res, used, last)
    ensures Accounted(objs, res - {k}, used, last)
    ensures AllAlive(objs, res) ==> (AllAlive(objs, res - {k}) <==> !Missed(objs, res, k))
  {
    if a :| a in objs && objs[a].id == k && !objs[a].deleting && k in res {
      assert !Alive(objs[a], res - {k});
    }
  }
}
