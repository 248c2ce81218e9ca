/** Safety over every run of the Network and Router kinds. */
module PairSafety {
  import opened Support
  import opened Reconciler
  import opened NetworkCloud
  import opened NetworkTypes
  import opened Ownership
  import opened Pair
  import NetworkAdapter
  import RouterAdapter

  // ---- At most one cloud resource per owner

  lemma InitInv(w: World)
    requires Init(w)
    ensures Inv(w)
  {
  }

  /** More identifiers and more uids in use do not disturb ownership. */
  lemma OwnedMonotone<S(!new), X(!new)>(
    objs: map<string, CR<S, X>>, res: Labelled, used: set<string>, last: nat, used': set<string>, last': nat)
    requires Owned(objs, res, used, last) && used <= used' && last <= last'
    ensures Owned(objs, res, used', last')
  {
  }

  /** A new resource has an unused uid, so nothing carries it. */
  lemma AddKeepsOwned<S(!new), X(!new)>(
    objs: map<string, CR<S, X>>, name: string, o: CR<S, X>, res: Labelled, used: set<string>, last: nat)
    requires Owned(objs, res, used, last) && name !in objs && o.uid !in used && o.id == NO_UUID
    ensures Owned(objs[name := o], res, used + {o.uid}, last)
  {
  }

  lemma EditKeepsOwned<S(!new), X(!new)>(
    objs: map<string, CR<S, X>>, name: string, o: CR<S, X>, res: Labelled, used: set<string>, last: nat)
    requires Owned(objs, res, used, last) && name in objs
    requires o.uid == objs[name].uid && o.id == objs[name].id && o.finalizer == objs[name].finalizer
        && (objs[name].deleting ==> o.deleting)
    ensures Owned(objs[name := o], res, used, last)
  {
    assert Tracks(objs[name], res, last) && Alive(objs[name], res);
  }

  lemma MarkKeepsOwned<S(!new), X(!new)>(
    objs: map<string, CR<S, X>>, name: string, res: Labelled, used: set<string>, last: nat)
    requires Owned(objs, res, used, last)
    ensures Owned(Marked(objs, name), res, used, last)
  {
    if name in objs && objs[name].finalizer {
      EditKeepsOwned(objs, name, objs[name].(deleting := true), res, used, last);
    }
  }

  lemma ReconcileNetworkInv(w: World, name: string, e: Env, write: Write)
    requires Inv(w) && name in w.networks && Honest(w, ReconcileNetwork(name, e, write))
    ensures Inv(Next(w, ReconcileNetwork(name, e, write)))
  {
    var p := NetworkPass(w, name, e, write);
    NetworkPassHasEffect(w, name, e, write);
    EffectKeepsOwned(w.networks, name, p.obj, NetLabels(w.cloud), w.used, w.cloud.last, NetLabels(p.world.cloud),
      p.world.cloud.last);
    EffectKeepsLabels(w.networks[name], p.obj, NetLabels(w.cloud), w.used, w.cloud.last, NetLabels(p.world.cloud),
      p.world.cloud.last);
    OwnedMonotone(w.routers, RouterLabels(w.cloud), w.used, w.cloud.last, w.used, p.world.cloud.last);
    assert RouterLabels(p.world.cloud) == RouterLabels(w.cloud);
  }

  lemma ReconcileRouterInv(w: World, name: string, e: Env, write: Write)
    requires Inv(w) && name in w.routers && Honest(w, ReconcileRouter(name, e, write))
    ensures Inv(Next(w, ReconcileRouter(name, e, write)))
  {
    var p := RouterPass(w, name, e, write);
    RouterPassHasEffect(w, name, e, write);
    EffectKeepsOwned(w.routers, name, p.obj, RouterLabels(w.cloud), w.used, w.cloud.last, RouterLabels(p.world),
      p.world.last);
    EffectKeepsLabels(w.routers[name], p.obj, RouterLabels(w.cloud), w.used, w.cloud.last, RouterLabels(p.world),
      p.world.last);
    OwnedMonotone(w.networks, NetLabels(w.cloud), w.used, w.cloud.last, w.used, p.world.last);
    assert NetLabels(p.world) == NetLabels(w.cloud);
  }

  lemma DropNetworkKeepsInvIff(w: World, id: Uuid)
    requires Consistent(w)
    ensures Consistent(Next(w, DropNetwork(id)))
    ensures Inv(w) ==> (Inv(Next(w, DropNetwork(id))) <==> !Disturbs(w, DropNetwork(id)))
  {
    var c' := Next(w, DropNetwork(id)).cloud;
    GoneKeepsOwnedIff(w.networks, NetLabels(w.cloud), w.used, w.cloud.last, id);
    assert NetLabels(c') == NetLabels(w.cloud) - {id};
    assert RouterLabels(c') == RouterLabels(w.cloud) && c'.last == w.cloud.last;
  }

  lemma DropRouterKeepsInvIff(w: World, id: Uuid)
    requires Consistent(w)
    ensures Consistent(Next(w, DropRouter(id)))
    ensures Inv(w) ==> (Inv(Next(w, DropRouter(id))) <==> !Disturbs(w, DropRouter(id)))
  {
    var c' := Next(w, DropRouter(id)).cloud;
    if !Attached(w.cloud, id) {
      GoneKeepsOwnedIff(w.routers, RouterLabels(w.cloud), w.used, w.cloud.last, id);
      assert RouterLabels(c') == RouterLabels(w.cloud) - {id};
      assert NetLabels(c') == NetLabels(w.cloud) && c'.last == w.cloud.last;
    }
  }

  lemma CalmEventInv(w: World, ev: Event)
    requires Inv(w) && HonestLists(w, ev) && !ev.DropNetwork? && !ev.DropRouter?
    ensures Inv(Next(w, ev))
  {
    var w' := Next(w, ev);
    match ev
    case ReconcileNetwork(name, e, write) =>
      if name in w.networks { ReconcileNetworkInv(w, name, e, write); }
    case ReconcileRouter(name, e, write) =>
      if name in w.routers { ReconcileRouterInv(w, name, e, write); }
    case AddNetwork(name, uid, policy, spec) =>
      if name !in w.networks && uid !in w.used {
        AddKeepsOwned(w.networks, name, w'.networks[name], NetLabels(w.cloud), w.used, w.cloud.last);
        OwnedMonotone(w.routers, RouterLabels(w.cloud), w.used, w.cloud.last, w'.used, w.cloud.last);
      }
    case AddRouter(name, uid, policy, spec) =>
      if name !in w.routers && uid !in w.used {
        AddKeepsOwned(w.routers, name, w'.routers[name], RouterLabels(w.cloud), w.used, w.cloud.last);
        OwnedMonotone(w.networks, NetLabels(w.cloud), w.used, w.cloud.last, w'.used, w.cloud.last);
      }
    case EditNetwork(name, policy, spec) =>
      if name in w.networks {
        EditKeepsOwned(w.networks, name, w'.networks[name], NetLabels(w.cloud), w.used, w.cloud.last);
      }
    case EditRouter(name, policy, spec) =>
      if name in w.routers {
        EditKeepsOwned(w.routers, name, w'.routers[name], RouterLabels(w.cloud), w.used, w.cloud.last);
      }
    case MarkNetwork(name) => MarkKeepsOwned(w.networks, name, NetLabels(w.cloud), w.used, w.cloud.last);
    case MarkRouter(name) => MarkKeepsOwned(w.routers, name, RouterLabels(w.cloud), w.used, w.cloud.last);
    case DropNetwork(_) =>
    case DropRouter(_) =>
  }

  /** Every event keeps the invariant, except the deletion, behind the operator's back, of something a
      live resource has on record. */
  lemma NextInv(w: World, ev: Event)
    requires Inv(w) && HonestLists(w, ev)
    ensures Consistent(Next(w, ev))
    ensures Inv(Next(w, ev)) <==> !Disturbs(w, ev)
  {
    if ev.DropNetwork? {
      DropNetworkKeepsInvIff(w, ev.id);
    } else if ev.DropRouter? {
      DropRouterKeepsInvIff(w, ev.id);
    } else {
      CalmEventInv(w, ev);
    }
  }

  lemma {:induction false} RunInv(w: World, run: seq<Event>)
    requires Inv(w) && HonestRun(w, run)
    ensures Inv(Run(w, run))
    decreases |run|
  {
    if run != [] {
      NextInv(w, run[0]);
      RunInv(Next(w, run[0]), run[1..]);
    }
  }

  /** In every run - calls failing, create replies lost, status writes lost, users adding, editing and
      deleting, things nobody has on record vanishing - no two cloud networks and no two cloud routers
      carry the same uid. */
  lemma AtMostOnePerOwner(w: World, run: seq<Event>, uid: string, k: Uuid, l: Uuid)
    requires Init(w) && HonestRun(w, run)
    ensures var c := Run(w, run).cloud;
            && (NetworkAdapter.Carries(c, k, uid) && NetworkAdapter.Carries(c, l, uid) ==> k == l)
            && (RouterAdapter.Carries(c, k, uid) && RouterAdapter.Carries(c, l, uid) ==> k == l)
  {
    InitInv(w);
    RunInv(w, run);
    var c := Run(w, run).cloud;
    assert forall j :: j in c.networks <==> j in NetLabels(c);
    assert forall j :: j in c.routers <==> j in RouterLabels(c);
  }

  /** In every run a stored Network whose uid is on a cloud network holds the finalizer, so it cannot
      disappear without its delete call. */
  lemma FinalizerGuardsResource(w: World, run: seq<Event>, name: string, k: Uuid)
    requires Init(w) && HonestRun(w, run)
    requires var w' := Run(w, run); name in w'.networks && NetworkAdapter.Carries(w'.cloud, k, w'.networks[name].uid)
    ensures Run(w, run).networks[name].finalizer
    ensures name in Next(Run(w, run), MarkNetwork(name)).networks
  {
    InitInv(w);
    RunInv(w, run);
    var w' := Run(w, run);
    assert k in NetLabels(w'.cloud) && Tracks(w'.networks[name], NetLabels(w'.cloud), w'.cloud.last);
  }

  const CALM := Env(map[], NO_UUID, true)
}
