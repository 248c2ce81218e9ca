/** Runs of the Network and Router kinds against one cloud: reconciles with failing calls, lost
    replies and lost writes, interleaved with whatever the user does to the resources. */
module Pair {
  import opened Support
  import opened Labels
  import opened Reconciler
  import opened NetworkCloud
  import opened NetworkTypes
  import opened Ownership
  import opened PassShape
  import NetworkAdapter
  import RouterAdapter

  /** Stored resources of both kinds, the cloud, and every uid Kubernetes has given out. */
  datatype World = World(networks: map<string, NetworkCR>, routers: map<string, RouterCR>, cloud: Cloud,
                         used: set<string>)

  /** The intervals do not influence what a pass does. */
  const TIMERS := Timers(DEFAULT_REQUEUE, DEFAULT_REQUEUE, DEFAULT_STEADY)

  datatype Event =
    | ReconcileNetwork(name: string, env: Env, write: Write)
    | ReconcileRouter(name: string, env: Env, write: Write)
    | AddNetwork(name: string, uid: string, policy: DeletionPolicy, netSpec: NetworkSpec)
    | AddRouter(name: string, uid: string, policy: DeletionPolicy, routerSpec: RouterSpec)
    | EditNetwork(name: string, policy: DeletionPolicy, netSpec: NetworkSpec)
    | EditRouter(name: string, policy: DeletionPolicy, routerSpec: RouterSpec)
    | MarkNetwork(name: string)
    | MarkRouter(name: string)
    // Deletions behind the operator's back; the cloud applies its own rules to them.
    | DropNetwork(id: Uuid)
    | DropRouter(id: Uuid)

  ghost function NetworkPass(
    w: World, name: string, e: Env, write: Write): Pass<NetworkSpec, NetworkStatus, NetworkAdapter.NetWorld>
    requires name in w.networks
  {
    PassOver(NetworkAdapter.Ops, TIMERS, w.networks[name], NetworkAdapter.NetWorld(w.cloud, w.routers), e, write)
  }

  ghost function RouterPass(w: World, name: string, e: Env, write: Write): Pass<RouterSpec, RouterStatus, Cloud>
    requires name in w.routers
  {
    PassOver(RouterAdapter.Ops, TIMERS, w.routers[name], w.cloud, e, write)
  }

  function NewCR<S, X>(name: string, uid: string, policy: DeletionPolicy, spec: S, status: X): CR<S, X> {
    CR(name, uid, false, false, policy, spec, NO_UUID, status, Unset)
  }

  /** A delete request marks a resource holding the finalizer and removes one that does not. */
  function Marked<S, X>(objs: map<string, CR<S, X>>, name: string): map<string, CR<S, X>> {
    if name !in objs then objs
    else if objs[name].finalizer then objs[name := objs[name].(deleting := true)]
    else objs - {name}
  }

  /** One event. Events that are not possible in w change nothing. */
  ghost function Next(w: World, ev: Event): World {
    match ev
    case ReconcileNetwork(name, e, write) =>
      if name !in w.networks then w
      else var p := NetworkPass(w, name, e, write);
           w.(networks := Replaced(w.networks, name, p.obj), cloud := p.world.cloud)
    case ReconcileRouter(name, e, write) =>
      if name !in w.routers then w
      else var p := RouterPass(w, name, e, write);
           w.(routers := Replaced(w.routers, name, p.obj), cloud := p.world)
    case AddNetwork(name, uid, policy, spec) =>
      if name in w.networks || uid in w.used then w
      else w.(networks := w.networks[name := NewCR(name, uid, policy, spec, NetworkStatus(NO_UUID))],
        used := w.used + {uid})
    case AddRouter(name, uid, policy, spec) =>
      if name in w.routers || uid in w.used then w
      else w.(routers := w.routers[name := NewCR(name, uid, policy, spec, RouterStatus([]))], used := w.used + {uid})
    case EditNetwork(name, policy, spec) =>
      if name !in w.networks then w
      else w.(networks := w.networks[name := w.networks[name].(policy := policy, spec := spec)])
    case EditRouter(name, policy, spec) =>
      if name !in w.routers then w
      else w.(routers := w.routers[name := w.routers[name].(policy := policy, spec := spec)])
    case MarkNetwork(name) => w.(networks := Marked(w.networks, name))
    case MarkRouter(name) => w.(routers := Marked(w.routers, name))
    case DropNetwork(id) => w.(cloud := DeleteNetwork(w.cloud, id, Works).0)
    case DropRouter(id) => w.(cloud := DeleteRouter(w.cloud, id, Works).0)
  }

  /** A list call that finds a match yields a match. */
  ghost predicate HonestLists(w: World, ev: Event) {
    match ev
    case ReconcileNetwork(name, e, _) => name in w.networks
      ==> NetworkAdapter.HonestPick(w.cloud, w.networks[name].uid, e.pick)
    case ReconcileRouter(name, e, _) => name in w.routers
      ==> RouterAdapter.HonestPick(w.cloud, w.routers[name].uid, e.pick)
    case _ => true
  }

  /** Something goes behind the operator's back that a live resource has on record. */
  ghost predicate Disturbs(w: World, ev: Event) {
    match ev
    case DropNetwork(id) => Missed(w.networks, NetLabels(w.cloud), id)
    case DropRouter(id) => !Attached(w.cloud, id) && Missed(w.routers, RouterLabels(w.cloud), id)
    case _ => false
  }

  ghost predicate Honest(w: World, ev: Event) { HonestLists(w, ev) && !Disturbs(w, ev) }

  ghost function Run(w: World, run: seq<Event>): World
    decreases |run|
  {
    if run == [] then w else Run(Next(w, run[0]), run[1..])
  }

  ghost predicate HonestRun(w: World, run: seq<Event>)
    decreases |run|
  {
    run == [] || (Honest(w, run[0]) && HonestRun(Next(w, run[0]), run[1..]))
  }

  lemma RunOfTwo(w: World, a: Event, b: Event)
    ensures Run(w, [a, b]) == Next(Next(w, a), b)
  {
    assert [a, b][1..] == [b] && [b][1..] == [];
    assert Run(w, [a, b]) == Run(Next(w, a), [b]);
    assert Run(Next(w, a), [b]) == Run(Next(Next(w, a), b), []);
  }

  lemma RunOfThree(w: World, a: Event, b: Event, c: Event)
    ensures Run(w, [a, b, c]) == Next(Next(Next(w, a), b), c)
  {
    assert [a, b, c][1..] == [b, c] && [b, c][1..] == [c] && [c][1..] == [];
    var w1 := Next(w, a);
    var w2 := Next(w1, b);
    assert Run(w, [a, b, c]) == Run(w1, [b, c]) == Run(w2, [c]);
    assert Run(w2, [c]) == Run(Next(w2, c), []);
  }

  lemma {:induction false} RunAppend(w: World, r1: seq<Event>, r2: seq<Event>)
    ensures Run(w, r1 + r2) == Run(Run(w, r1), r2)
    ensures HonestRun(w, r1 + r2) <==> HonestRun(w, r1) && HonestRun(Run(w, r1), r2)
    decreases |r1|
  {
    if r1 == [] {
      assert r1 + r2 == r2;
    } else {
      assert (r1 + r2)[1..] == r1[1..] + r2;
      RunAppend(Next(w, r1[0]), r1[1..], r2);
    }
  }

  function NetLabels(c: Cloud): Labelled { map k | k in c.networks :: c.networks[k].labels }

  function RouterLabels(c: Cloud): Labelled { map k | k in c.routers :: c.routers[k].labels }

  /** Ownership up to stale identities. */
  ghost predicate Consistent(w: World) {
    && Accounted(w.networks, NetLabels(w.cloud), w.used, w.cloud.last)
    && Accounted(w.routers, RouterLabels(w.cloud), w.used, w.cloud.last)
  }

  /** Every identity on record, of a resource not being deleted, names something that exists. */
  ghost predicate IdentitiesLive(w: World) {
    AllAlive(w.networks, NetLabels(w.cloud)) && AllAlive(w.routers, RouterLabels(w.cloud))
  }

  ghost predicate Inv(w: World) { Consistent(w) && IdentitiesLive(w) }

  /** Before the operator starts: no resources of either kind are stored; the cloud may hold
      anything whose uid labels are unambiguous. */
  ghost predicate Init(w: World) {
    && w.networks == map[] && w.routers == map[]
    && WellLabelled(NetLabels(w.cloud), w.used, w.cloud.last)
    && WellLabelled(RouterLabels(w.cloud), w.used, w.cloud.last)
  }

  /** Nothing stored, nothing in the cloud. */
  const EMPTY := World(map[], map[], Cloud(map[], map[], 0), {})

  // ---- What a pass does to the cloud

  lemma OwnerLabelsOnly(uid: string, user: map<string, string>)
    ensures OnlyUID(Desired(uid, user), uid)
  {
    forall u {
      DesiredHasExactlyOneUID(uid, user, u);
    }
  }

  ghost predicate NetworkEffect(o: NetworkCR, after: Option<NetworkCR>, c: Cloud, c': Cloud) {
    c'.routers == c.routers && Effect(o, after, NetLabels(c), c.last, NetLabels(c'), c'.last)
  }

  ghost predicate RouterEffect(o: RouterCR, after: Option<RouterCR>, c: Cloud, c': Cloud) {
    c'.networks == c.networks && Effect(o, after, RouterLabels(c), c.last, RouterLabels(c'), c'.last)
  }

  lemma NetworkCreateEffect(o: NetworkCR, w: NetworkAdapter.NetWorld, e: Env, after: NetworkCR)
    requires !o.deleting && o.finalizer && NoneCarries(NetLabels(w.cloud), o.uid)
    requires Continues(o, after) && after.id in {o.id, NetworkAdapter.Create(o, w, e).obj.id}
    ensures NetworkEffect(o, Some(after), w.cloud, NetworkAdapter.Create(o, w, e).world.cloud)
  {
    var c, c' := w.cloud, NetworkAdapter.Create(o, w, e).world.cloud;
    var labels := NetworkAdapter.DesiredLabelsOf(o);
    OwnerLabelsOnly(o.uid, o.spec.labels);
    if c'.last != c.last {
      assert NetLabels(c') == NetLabels(c)[c'.last := labels];
      assert Adds(o, Some(after), NetLabels(c), c.last, NetLabels(c'), c'.last);
    } else {
      assert Keeps(o, Some(after), NetLabels(c), c.last, NetLabels(c'), c'.last);
    }
  }

  lemma NetworkUpdateEffect(o: NetworkCR, seen: NetworkCR, w: NetworkAdapter.NetWorld, e: Env, after: NetworkCR)
    requires !o.deleting && o.finalizer && seen.uid == o.uid && seen.spec == o.spec
    requires seen.id != NO_UUID && NetworkAdapter.Carries(w.cloud, seen.id, o.uid)
    requires Continues(o, after) && after.id in {o.id, seen.id}
    ensures NetworkEffect(o, Some(after), w.cloud, NetworkAdapter.Update(seen, w, e).world.cloud)
  {
    var c, c' := w.cloud, NetworkAdapter.Update(seen, w, e).world.cloud;
    NetworkAdapter.UpdateRewrites(seen, w, e);
    OwnerLabelsOnly(o.uid, o.spec.labels);
    var labels := c'.networks[seen.id].labels;
    assert NetLabels(c') == NetLabels(c)[seen.id := labels];
    if labels == c.networks[seen.id].labels {
      assert NetLabels(c') == NetLabels(c);
      assert Keeps(o, Some(after), NetLabels(c), c.last, NetLabels(c'), c'.last);
    } else {
      assert HasUID(NetLabels(c)[seen.id], o.uid) && OnlyUID(labels, o.uid);
      assert Rewrites(o, Some(after), NetLabels(c), c.last, NetLabels(c'), c'.last);
    }
  }

  lemma NetworkDeleteEffect(o: NetworkCR, w: NetworkAdapter.NetWorld, e: Env, after: Option<NetworkCR>)
    requires o.deleting && o.finalizer && o.policy == DeletePolicy
    requires after.Some? ==> Continues(o, after.value) && after.value.id == o.id
    ensures NetworkEffect(o, after, w.cloud, NetworkAdapter.Delete(o, w, e).world.cloud)
  {
    var c, c' := w.cloud, NetworkAdapter.Delete(o, w, e).world.cloud;
    if c' != c {
      assert NetLabels(c') == NetLabels(c) - {o.id};
      assert Removes(o, after, NetLabels(c), c.last, NetLabels(c'), c'.last);
    } else {
      assert Keeps(o, after, NetLabels(c), c.last, NetLabels(c'), c'.last);
    }
  }

  /** Under the invariant an absent resource is absent under its label too. */
  lemma AbsentNetwork(w: World, name: string, e: Env)
    requires Inv(w) && name in w.networks && !w.networks[name].deleting
    requires NetworkAdapter.HonestPick(w.cloud, w.networks[name].uid, e.pick)
    requires NetworkAdapter.Observe(w.networks[name], NetworkAdapter.NetWorld(w.cloud, w.routers),
        e).result == Ok(ABSENT)
    ensures w.networks[name].id == NO_UUID && NoneCarries(NetLabels(w.cloud), w.networks[name].uid)
  {
    var o := w.networks[name];
    assert Tracks(o, NetLabels(w.cloud), w.cloud.last) && Alive(o, NetLabels(w.cloud));
    assert o.id in NetLabels(w.cloud) <==> o.id in w.cloud.networks;
    forall k | k in NetLabels(w.cloud) ensures !HasUID(NetLabels(w.cloud)[k], o.uid) {
      assert NetworkAdapter.Carries(w.cloud, k, o.uid) ==> NetworkAdapter.Carries(w.cloud, e.pick, o.uid);
    }
  }

  /** A present resource is the owner's, however it was found. */
  lemma PresentNetwork(w: World, name: string, e: Env)
    requires Inv(w) && name in w.networks && !w.networks[name].deleting
    requires var v := NetworkAdapter.Observe(w.networks[name], NetworkAdapter.NetWorld(w.cloud, w.routers),
        e).result; v.Ok? && v.value.present
    ensures var o := w.networks[name];
            var v := NetworkAdapter.Observe(o, NetworkAdapter.NetWorld(w.cloud, w.routers), e).obj;
            v.id != NO_UUID && NetworkAdapter.Carries(w.cloud, v.id, o.uid) && v.uid == o.uid && v.spec == o.spec
  {
    var o := w.networks[name];
    assert Tracks(o, NetLabels(w.cloud), w.cloud.last) && Alive(o, NetLabels(w.cloud));
    var v := NetworkAdapter.Observe(o, NetworkAdapter.NetWorld(w.cloud, w.routers), e).obj;
    assert v.id in NetLabels(w.cloud);
  }

  lemma CreatingNetworkPassHasEffect(w: World, name: string, e: Env, write: Write)
    requires Inv(w) && name in w.networks && Honest(w, ReconcileNetwork(name, e, write))
    requires !w.networks[name].deleting && w.networks[name].finalizer
    requires var v := NetworkAdapter.Observe(w.networks[name], NetworkAdapter.NetWorld(w.cloud, w.routers), e).result;
             v.Ok? && !v.value.present
    ensures var p := NetworkPass(w, name, e, write);
            NetworkEffect(w.networks[name], p.obj, w.cloud, p.world.cloud) && p.world.routerObjs == w.routers
  {
    var o, nw := w.networks[name], NetworkAdapter.NetWorld(w.cloud, w.routers);
    LivePassShape(NetworkAdapter.Ops, TIMERS, o, nw, e, write);
    assert NetworkAdapter.Observe(o, nw, e) == Outcome(o, nw, Ok(ABSENT));
    AbsentNetwork(w, name, e);
    NetworkCreateEffect(o, nw, e, NetworkPass(w, name, e, write).obj.value);
  }

  lemma FindingNetworkPassHasEffect(w: World, name: string, e: Env, write: Write)
    requires Inv(w) && name in w.networks && Honest(w, ReconcileNetwork(name, e, write))
    requires !w.networks[name].deleting && w.networks[name].finalizer
    requires var v := NetworkAdapter.Observe(w.networks[name], NetworkAdapter.NetWorld(w.cloud, w.routers), e).result;
             v.Ok? ==> v.value.present
    ensures var p := NetworkPass(w, name, e, write);
            NetworkEffect(w.networks[name], p.obj, w.cloud, p.world.cloud) && p.world.routerObjs == w.routers
  {
    var o, nw := w.networks[name], NetworkAdapter.NetWorld(w.cloud, w.routers);
    var p := NetworkPass(w, name, e, write);
    LivePassShape(NetworkAdapter.Ops, TIMERS, o, nw, e, write);
    var v := NetworkAdapter.Observe(o, nw, e);
    if v.result.Ok? {
      PresentNetwork(w, name, e);
      if !v.result.value.upToDate {
        NetworkAdapter.UpdateRewrites(v.obj, nw, e);
        NetworkUpdateEffect(o, v.obj, nw, e, p.obj.value);
      }
    }
  }

  lemma NetworkPassHasEffect(w: World, name: string, e: Env, write: Write)
    requires Inv(w) && name in w.networks && Honest(w, ReconcileNetwork(name, e, write))
    ensures var p := NetworkPass(w, name, e, write);
            NetworkEffect(w.networks[name], p.obj, w.cloud, p.world.cloud) && p.world.routerObjs == w.routers
  {
    var o, nw := w.networks[name], NetworkAdapter.NetWorld(w.cloud, w.routers);
    if o.deleting && o.finalizer {
      DeletePassShape(NetworkAdapter.Ops, TIMERS, o, nw, e, write);
      if o.policy == DeletePolicy {
        NetworkDeleteEffect(o, nw, e, NetworkPass(w, name, e, write).obj);
      }
    } else if !o.deleting && o.finalizer {
      var v := NetworkAdapter.Observe(o, nw, e).result;
      if v.Ok? && !v.value.present {
        CreatingNetworkPassHasEffect(w, name, e, write);
      } else {
        FindingNetworkPassHasEffect(w, name, e, write);
      }
    }
  }

  lemma AbsentRouter(w: World, name: string, e: Env)
    requires Inv(w) && name in w.routers && !w.routers[name].deleting
    requires RouterAdapter.HonestPick(w.cloud, w.routers[name].uid, e.pick)
    requires RouterAdapter.Observe(w.routers[name], w.cloud, e).result == Ok(ABSENT)
    ensures w.routers[name].id == NO_UUID && NoneCarries(RouterLabels(w.cloud), w.routers[name].uid)
  {
    var o := w.routers[name];
    assert Tracks(o, RouterLabels(w.cloud), w.cloud.last) && Alive(o, RouterLabels(w.cloud));
    assert o.id in RouterLabels(w.cloud) <==> o.id in w.cloud.routers;
    forall k | k in RouterLabels(w.cloud) ensures !HasUID(RouterLabels(w.cloud)[k], o.uid) {
      assert RouterAdapter.Carries(w.cloud, k, o.uid) ==> RouterAdapter.Carries(w.cloud, e.pick, o.uid);
    }
  }

  lemma PresentRouter(w: World, name: string, e: Env)
    requires Inv(w) && name in w.routers && !w.routers[name].deleting
    requires var v := RouterAdapter.Observe(w.routers[name], w.cloud, e).result; v.Ok? && v.value.present
    ensures var o := w.routers[name];
            var v := RouterAdapter.Observe(o, w.cloud, e).obj;
            v.id != NO_UUID && RouterAdapter.Carries(w.cloud, v.id, o.uid) && v.uid == o.uid && v.spec == o.spec
  {
    var o := w.routers[name];
    assert Tracks(o, RouterLabels(w.cloud), w.cloud.last) && Alive(o, RouterLabels(w.cloud));
    var v := RouterAdapter.Observe(o, w.cloud, e).obj;
    assert v.id in RouterLabels(w.cloud);
  }

  lemma RouterCreateEffect(o: RouterCR, c: Cloud, e: Env, after: RouterCR)
    requires !o.deleting && o.finalizer && NoneCarries(RouterLabels(c), o.uid)
    requires Continues(o, after) && after.id in {o.id, RouterAdapter.Create(o, c, e).obj.id}
    ensures RouterEffect(o, Some(after), c, RouterAdapter.Create(o, c, e).world)
  {
    var c' := RouterAdapter.Create(o, c, e).world;
    OwnerLabelsOnly(o.uid, o.spec.labels);
    if c'.last != c.last {
      assert RouterLabels(c') == RouterLabels(c)[c'.last := RouterAdapter.WantedRouter(o).labels];
      assert Adds(o, Some(after), RouterLabels(c), c.last, RouterLabels(c'), c'.last);
    } else {
      assert Keeps(o, Some(after), RouterLabels(c), c.last, RouterLabels(c'), c'.last);
    }
  }

  lemma RouterUpdateEffect(o: RouterCR, seen: RouterCR, c: Cloud, e: Env, after: RouterCR)
    requires !o.deleting && o.finalizer && seen.uid == o.uid && seen.spec == o.spec
    requires RouterAdapter.Carries(c, seen.id, o.uid)
    requires Continues(o, after) && after.id in {o.id, seen.id}
    ensures RouterEffect(o, Some(after), c, RouterAdapter.Update(seen, c, e).world)
  {
    var c' := RouterAdapter.Update(seen, c, e).world;
    OwnerLabelsOnly(o.uid, o.spec.labels);
    if c' != c {
      assert RouterLabels(c') == RouterLabels(c)[seen.id := RouterAdapter.WantedRouter(seen).labels];
      assert HasUID(RouterLabels(c)[seen.id], o.uid) && OnlyUID(RouterAdapter.WantedRouter(seen).labels, o.uid);
      assert Rewrites(o, Some(after), RouterLabels(c), c.last, RouterLabels(c'), c'.last);
    } else {
      assert Keeps(o, Some(after), RouterLabels(c), c.last, RouterLabels(c'), c'.last);
    }
  }

  lemma RouterDeleteEffect(o: RouterCR, c: Cloud, e: Env, after: Option<RouterCR>)
    requires o.deleting && o.finalizer && o.policy == DeletePolicy
    requires after.Some? ==> Continues(o, after.value) && after.value.id == o.id
    ensures RouterEffect(o, after, c, RouterAdapter.Delete(o, c, e).world)
  {
    var c' := RouterAdapter.Delete(o, c, e).world;
    if c' != c {
      assert RouterLabels(c') == RouterLabels(c) - {o.id};
      assert Removes(o, after, RouterLabels(c), c.last, RouterLabels(c'), c'.last);
    } else {
      assert Keeps(o, after, RouterLabels(c), c.last, RouterLabels(c'), c'.last);
    }
  }

  lemma RouterPassHasEffect(w: World, name: string, e: Env, write: Write)
    requires Inv(w) && name in w.routers && Honest(w, ReconcileRouter(name, e, write))
    ensures var p := RouterPass(w, name, e, write);
            RouterEffect(w.routers[name], p.obj, w.cloud, p.world)
  {
    var o := w.routers[name];
    var p := RouterPass(w, name, e, write);
    if o.deleting && o.finalizer {
      DeletePassShape(RouterAdapter.Ops, TIMERS, o, w.cloud, e, write);
      if o.policy == DeletePolicy {
        RouterDeleteEffect(o, w.cloud, e, p.obj);
      }
    } else if o.finalizer {
      LivePassShape(RouterAdapter.Ops, TIMERS, o, w.cloud, e, write);
      var v := RouterAdapter.Observe(o, w.cloud, e);
      if v.result.Ok? && !v.result.value.present {
        AbsentRouter(w, name, e);
        RouterCreateEffect(o, w.cloud, e, p.obj.value);
      } else if v.result.Ok? {
        PresentRouter(w, name, e);
        if !v.result.value.upToDate {
          RouterUpdateEffect(o, v.obj, w.cloud, e, p.obj.value);
        }
      }
    }
  }
}
