/** All Networks and Routers together: with nothing failing, rounds of reconciles in any order make every
    resource Ready, though Networks wait for the Routers they refer to. */
module JointConvergence {
  import opened Support
  import opened Labels
  import opened Convert
  import opened Reconciler
  import opened NetworkCloud
  import opened NetworkTypes
  import opened Ownership
  import opened PassShape
  import opened Convergence
  import opened NetworkConvergence
  import opened Pair
  import opened PairSafety
  import opened Teardown
  import NetworkAdapter
  import RouterAdapter

  /** A reconcile in which nothing fails. */
  predicate Quiet(ev: Event) {
    (ev.ReconcileNetwork? || ev.ReconcileRouter?) && ev.env.faults == map[] && ev.write == Done
  }

  ghost predicate QuietRun(run: seq<Event>) { forall i :: 0 <= i < |run| ==> Quiet(run[i]) }

  /** Every resource of w is reconciled at least once, in any order. */
  ghost predicate FullRound(w: World, run: seq<Event>) {
    && QuietRun(run)
    && (forall a :: a in w.networks ==> VisitsNetwork(run, a))
    && (forall a :: a in w.routers ==> VisitsRouter(run, a))
  }

  ghost function Rounds(w: World, rs: seq<seq<Event>>): World
    decreases |rs|
  {
    if rs == [] then w else Rounds(Run(w, rs[0]), rs[1..])
  }

  ghost predicate HonestRounds(w: World, rs: seq<seq<Event>>)
    decreases |rs|
  {
    rs == [] || (HonestRun(w, rs[0]) && HonestRounds(Run(w, rs[0]), rs[1..]))
  }

  ghost predicate FullRounds(w: World, rs: seq<seq<Event>>) { forall i :: 0 <= i < |rs| ==> FullRound(w, rs[i]) }

  function NetView(w: World): NetworkAdapter.NetWorld { NetworkAdapter.NetWorld(w.cloud, w.routers) }

  /** Nothing is being deleted. */
  ghost predicate AllLive(w: World) {
    && Inv(w)
    && (forall a :: a in w.networks ==> !w.networks[a].deleting)
    && (forall a :: a in w.routers ==> !w.routers[a].deleting)
  }

  /** The same resources with the same specs. */
  ghost predicate SameResources(w: World, w': World) {
    && w'.networks.Keys == w.networks.Keys && w'.routers.Keys == w.routers.Keys
    && (forall a :: a in w.networks ==> SameResource(w.networks[a], w'.networks[a]))
    && (forall a :: a in w.routers ==> SameResource(w.routers[a], w'.routers[a]))
  }

  lemma SameTransitive(w: World, w1: World, w2: World)
    requires SameResources(w, w1) && SameResources(w1, w2)
    ensures SameResources(w, w2)
  {
  }

  lemma QuietKeepsLive(w: World, ev: Event)
    requires AllLive(w) && Honest(w, ev) && Quiet(ev)
    ensures AllLive(Next(w, ev)) && SameResources(w, Next(w, ev))
  {
    NextInv(w, ev);
    QuietKeepsSpecs(w, ev);
  }

  lemma QuietKeepsSpecs(w: World, ev: Event)
    requires Quiet(ev) && (forall a :: a in w.networks ==> !w.networks[a].deleting)
        && (forall a :: a in w.routers ==> !w.routers[a].deleting)
    ensures SameResources(w, Next(w, ev))
  {
    if ev.ReconcileNetwork? && ev.name in w.networks {
      LivePassKeepsRest(NetworkAdapter.Ops, TIMERS, w.networks[ev.name], NetworkAdapter.NetWorld(w.cloud, w.routers),
        ev.env, ev.write);
    } else if ev.ReconcileRouter? && ev.name in w.routers {
      LivePassKeepsRest(RouterAdapter.Ops, TIMERS, w.routers[ev.name], w.cloud, ev.env, ev.write);
    }
  }

  // ---- What one resource's pass leaves to the others

  /** Owner uid's routers are the same in both clouds. */
  ghost predicate SameRouters(c: Cloud, c': Cloud, uid: string) {
    forall k :: RouterAdapter.Carries(c, k, uid) || RouterAdapter.Carries(c', k, uid) ==>
      k in c.routers && k in c'.routers && c'.routers[k] == c.routers[k]
  }

  ghost predicate SameNetworks(c: Cloud, c': Cloud, uid: string) {
    forall k :: NetworkAdapter.Carries(c, k, uid) || NetworkAdapter.Carries(c', k, uid) ==>
      k in c.networks && k in c'.networks && c'.networks[k] == c.networks[k]
  }

  /** Entry k of the routers is the same in both clouds, or is, in each cloud that has it, one of uid's. */
  ghost predicate RouterLeft(c: Cloud, c': Cloud, uid: string, k: Uuid) {
    (k in c.routers && !HasUID(c.routers[k].labels, uid)) || (k in c'.routers && !HasUID(c'.routers[k].labels, uid)) ==>
      k in c.routers && k in c'.routers && c'.routers[k] == c.routers[k]
  }

  ghost predicate NetworkLeft(c: Cloud, c': Cloud, uid: string, k: Uuid) {
    (k in c.networks && !HasUID(c.networks[k].labels, uid))
      || (k in c'.networks && !HasUID(c'.networks[k].labels, uid)) ==>
      k in c.networks && k in c'.networks && c'.networks[k] == c.networks[k]
  }

  lemma RouterCallsLeave(o: RouterCR, c: Cloud, e: Env, k: Uuid)
    requires forall j :: j in c.routers ==> j <= c.last
    ensures RouterLeft(c, RouterAdapter.Create(o, c, e).world, o.uid, k)
    ensures RouterAdapter.Carries(c, o.id, o.uid) ==> RouterLeft(c, RouterAdapter.Update(o, c, e).world, o.uid, k)
  {
    OwnerLabelsOnly(o.uid, o.spec.labels);
  }

  lemma RouterPassLeaves(w: World, b: string, e: Env, write: Write, k: Uuid)
    requires AllLive(w) && b in w.routers && Honest(w, ReconcileRouter(b, e, write))
    ensures RouterLeft(w.cloud, RouterPass(w, b, e, write).world, w.routers[b].uid, k)
  {
    var o := w.routers[b];
    assert forall j :: j in RouterLabels(w.cloud) <==> j in w.cloud.routers;
    if o.finalizer {
      LivePassPersists(RouterAdapter.Ops, TIMERS, o, w.cloud, e, write);
      var v := RouterAdapter.Observe(o, w.cloud, e);
      RouterCallsLeave(v.obj, w.cloud, e, k);
      if v.result.Ok? && v.result.value.present {
        PresentRouter(w, b, e);
      }
    }
  }

  lemma NetworkCreateLeaves(o: NetworkCR, w: NetworkAdapter.NetWorld, e: Env, k: Uuid)
    requires forall j :: j in w.cloud.networks ==> j <= w.cloud.last
    ensures NetworkLeft(w.cloud, NetworkAdapter.Create(o, w, e).world.cloud, o.uid, k)
  {
    OwnerLabelsOnly(o.uid, o.spec.labels);
  }

  lemma NetworkUpdateLeaves(o: NetworkCR, w: NetworkAdapter.NetWorld, e: Env, k: Uuid)
    requires o.id != NO_UUID && NetworkAdapter.Carries(w.cloud, o.id, o.uid)
    ensures NetworkLeft(w.cloud, NetworkAdapter.Update(o, w, e).world.cloud, o.uid, k)
  {
    NetworkAdapter.UpdateRewrites(o, w, e);
    OwnerLabelsOnly(o.uid, o.spec.labels);
  }

  lemma NetworkPassLeaves(w: World, b: string, e: Env, write: Write, k: Uuid)
    requires AllLive(w) && b in w.networks && Honest(w, ReconcileNetwork(b, e, write))
    ensures NetworkLeft(w.cloud, NetworkPass(w, b, e, write).world.cloud, w.networks[b].uid, k)
  {
    var o, nw := w.networks[b], NetView(w);
    assert forall j :: j in NetLabels(w.cloud) <==> j in w.cloud.networks;
    if o.finalizer {
      LivePassPersists(NetworkAdapter.Ops, TIMERS, o, nw, e, write);
      var v := NetworkAdapter.Observe(o, nw, e);
      if v.result.Ok? && !v.result.value.present {
        NetworkCreateLeaves(v.obj, nw, e, k);
      } else if v.result.Ok? && !v.result.value.upToDate {
        PresentNetwork(w, b, e);
        NetworkUpdateLeaves(v.obj, nw, e, k);
      }
    }
  }

  lemma OtherRouterSame(w: World, b: string, e: Env, write: Write, a: string)
    requires AllLive(w) && a in w.routers && b in w.routers && a != b && Honest(w, ReconcileRouter(b, e, write))
    ensures SameRouters(w.cloud, RouterPass(w, b, e, write).world, w.routers[a].uid)
  {
    var c, c', u := w.cloud, RouterPass(w, b, e, write).world, w.routers[a].uid;
    NextInv(w, ReconcileRouter(b, e, write));
    assert WellLabelled(RouterLabels(c'), w.used, c'.last);
    forall k | RouterAdapter.Carries(c, k, u) || RouterAdapter.Carries(c', k, u)
      ensures k in c.routers && k in c'.routers && c'.routers[k] == c.routers[k]
    {
      RouterPassLeaves(w, b, e, write, k);
      assert k in c.routers ==> k in RouterLabels(c);
      assert k in c'.routers ==> k in RouterLabels(c');
    }
  }

  lemma OtherNetworkSame(w: World, b: string, e: Env, write: Write, a: string)
    requires AllLive(w) && a in w.networks && b in w.networks && a != b && Honest(w, ReconcileNetwork(b, e, write))
    ensures SameNetworks(w.cloud, NetworkPass(w, b, e, write).world.cloud, w.networks[a].uid)
  {
    var c, c', u := w.cloud, NetworkPass(w, b, e, write).world.cloud, w.networks[a].uid;
    NextInv(w, ReconcileNetwork(b, e, write));
    assert WellLabelled(NetLabels(c'), w.used, c'.last);
    forall k | NetworkAdapter.Carries(c, k, u) || NetworkAdapter.Carries(c', k, u)
      ensures k in c.networks && k in c'.networks && c'.networks[k] == c.networks[k]
    {
      NetworkPassLeaves(w, b, e, write, k);
      assert k in c.networks ==> k in NetLabels(c);
      assert k in c'.networks ==> k in NetLabels(c');
    }
  }

  /** A Router sees nothing but its own router. */
  lemma RouterSeesSame(o: RouterCR, c: Cloud, c': Cloud, e: Env)
    requires SameRouters(c, c', o.uid) && (o.id != NO_UUID ==> RouterAdapter.Carries(c, o.id, o.uid))
    ensures RouterFair(o, c, e) <==> RouterFair(o, c', e)
    ensures var v := RouterAdapter.Observe(o, c, e);
            RouterAdapter.Observe(o, c', e) == Outcome(v.obj, c', v.result)
  {
    assert forall k :: RouterAdapter.Carries(c, k, o.uid) <==> RouterAdapter.Carries(c', k, o.uid);
    var f := e.At(ObserveLookup);
    assert RouterAdapter.Lookup(o, c', f, e.pick) == RouterAdapter.Lookup(o, c, f, e.pick);
  }

  /** A Network sees its own network, and the Routers' resources. */
  lemma NetworkSeesSame(o: NetworkCR, w: NetworkAdapter.NetWorld, c': Cloud, e: Env)
    requires SameNetworks(w.cloud, c', o.uid) && (o.id != NO_UUID ==> NetworkAdapter.Carries(w.cloud, o.id, o.uid))
    ensures NetworkFair(o, w, e) <==> NetworkFair(o, w.(cloud := c'), e)
    ensures var v := NetworkAdapter.Observe(o, w, e);
            NetworkAdapter.Observe(o, w.(cloud := c'), e) == Outcome(v.obj, w.(cloud := c'), v.result)
  {
    assert forall k :: NetworkAdapter.Carries(w.cloud, k, o.uid) <==> NetworkAdapter.Carries(c', k, o.uid);
    var f := e.At(ObserveLookup);
    assert NetworkAdapter.Lookup(o, c', f, e.pick) == NetworkAdapter.Lookup(o, w.cloud, f, e.pick);
    assert NetworkAdapter.DesiredRouter(o, w.(cloud := c'), e.At(ObserveResolve)) == NetworkAdapter.DesiredRouter(o,
        w, e.At(ObserveResolve));
  }

  // ---- Routers

  /** Router a needs at most n more passes. */
  ghost predicate RouterWithin(w: World, a: string, n: nat) {
    a in w.routers && Within(RouterAdapter.Ops, RouterFair, Snapshot(w.routers[a], w.cloud), n)
  }

  lemma RouterWithinSame(o: RouterCR, c: Cloud, c': Cloud, n: nat)
    requires SameRouters(c, c', o.uid) && (o.id != NO_UUID ==> RouterAdapter.Carries(c, o.id, o.uid))
    requires Within(RouterAdapter.Ops, RouterFair, Snapshot(o, c), n)
    ensures Within(RouterAdapter.Ops, RouterFair, Snapshot(o, c'), n)
  {
    forall e: Env ensures RouterFair(o, c, e) <==> RouterFair(o, c', e)
      ensures RouterAdapter.Ops.observe(o, c', e)
              == Outcome(RouterAdapter.Ops.observe(o, c, e).obj, c', RouterAdapter.Ops.observe(o, c, e).result)
    {
      RouterSeesSame(o, c, c', e);
    }
  }

  lemma RecordedRouterCarried(w: World, a: string)
    requires AllLive(w) && a in w.routers
    ensures w.routers[a].id != NO_UUID ==> RouterAdapter.Carries(w.cloud, w.routers[a].id, w.routers[a].uid)
    ensures RouterFit(w.routers[a], w.cloud)
  {
    var res := RouterLabels(w.cloud);
    assert Tracks(w.routers[a], res, w.cloud.last) && Alive(w.routers[a], res);
    assert NO_UUID in w.cloud.routers ==> NO_UUID in res;
  }

  lemma RouterVisited(w: World, a: string, e: Env, n: nat)
    requires AllLive(w) && RouterWithin(w, a, n) && n <= 4
    requires Quiet(ReconcileRouter(a, e, Done)) && Honest(w, ReconcileRouter(a, e, Done))
    ensures RouterWithin(Next(w, ReconcileRouter(a, e, Done)), a, if n == 0 then 0 else n - 1)
  {
    var s, m := Snapshot(w.routers[a], w.cloud), if n == 0 then 1 else n;
    RouterContract();
    RecordedRouterCarried(w, a);
    WithinMore(RouterAdapter.Ops, RouterFair, s, n, m);
    OnceProgresses(RouterAdapter.Ops, RouterFit, RouterFair, TIMERS, s, e, m);
    LivePassKeepsRest(RouterAdapter.Ops, TIMERS, w.routers[a], w.cloud, e, Done);
    var w' := Next(w, ReconcileRouter(a, e, Done));
    assert Snapshot(w'.routers[a], w'.cloud) == Once(RouterAdapter.Ops, TIMERS, s, e);
  }

  /** Any quiet event keeps Router a within n passes, and its own pass brings it one closer. */
  lemma RouterEvent(w: World, ev: Event, a: string, n: nat)
    requires AllLive(w) && Honest(w, ev) && Quiet(ev) && RouterWithin(w, a, n) && n <= 4
    ensures RouterWithin(Next(w, ev), a, n)
    ensures ev.ReconcileRouter? && ev.name == a && n > 0 ==> RouterWithin(Next(w, ev), a, n - 1)
  {
    var w' := Next(w, ev);
    if ev.ReconcileRouter? && ev.name == a {
      RouterVisited(w, a, ev.env, n);
      WithinMore(RouterAdapter.Ops, RouterFair, Snapshot(w'.routers[a], w'.cloud), if n == 0 then 0 else n - 1, n);
    } else {
      RecordedRouterCarried(w, a);
      if ev.ReconcileRouter? && ev.name in w.routers {
        OtherRouterSame(w, ev.name, ev.env, ev.write, a);
        LivePassKeepsRest(RouterAdapter.Ops, TIMERS, w.routers[ev.name], w.cloud, ev.env, ev.write);
      } else if ev.ReconcileNetwork? && ev.name in w.networks {
        NetworkPassHasEffect(w, ev.name, ev.env, ev.write);
      }
      RouterWithinSame(w.routers[a], w.cloud, w'.cloud, n);
      assert w'.routers[a] == w.routers[a];
    }
  }

  lemma {:induction false} RouterRun(w: World, run: seq<Event>, a: string, n: nat)
    requires AllLive(w) && HonestRun(w, run) && QuietRun(run) && RouterWithin(w, a, n) && n <= 4
    ensures RouterWithin(Run(w, run), a, n)
    ensures VisitsRouter(run, a) && n > 0 ==> RouterWithin(Run(w, run), a, n - 1)
    decreases |run|
  {
    if run != [] {
      QuietKeepsLive(w, run[0]);
      RouterEvent(w, run[0], a, n);
      var w1 := Next(w, run[0]);
      if run[0].ReconcileRouter? && run[0].name == a && n > 0 {
        RouterRun(w1, run[1..], a, n - 1);
        var w' := Run(w, run);
        WithinMore(RouterAdapter.Ops, RouterFair, Snapshot(w'.routers[a], w'.cloud), n - 1, n);
      } else {
        RouterRun(w1, run[1..], a, n);
        if VisitsRouter(run, a) { VisitedLater(run, a); }
      }
    }
  }

  lemma {:induction false} QuietRunKeepsLive(w: World, run: seq<Event>)
    requires AllLive(w) && HonestRun(w, run) && QuietRun(run)
    ensures AllLive(Run(w, run)) && SameResources(w, Run(w, run))
    decreases |run|
  {
    if run != [] {
      var w1 := Next(w, run[0]);
      QuietKeepsLive(w, run[0]);
      QuietRunKeepsLive(w1, run[1..]);
      SameTransitive(w, w1, Run(w1, run[1..]));
    }
  }

  lemma FullRoundsLater(w: World, w': World, rs: seq<seq<Event>>)
    requires FullRounds(w, rs) && rs != [] && SameResources(w, w')
    ensures FullRounds(w', rs[1..]) && FullRound(w, rs[0])
  {
    forall i | 0 <= i < |rs| - 1 ensures FullRound(w', rs[1..][i]) {
      assert FullRound(w, rs[i + 1]);
    }
  }

  lemma {:induction false} RoundsKeepLive(w: World, rs: seq<seq<Event>>)
    requires AllLive(w) && HonestRounds(w, rs) && FullRounds(w, rs)
    ensures AllLive(Rounds(w, rs)) && SameResources(w, Rounds(w, rs))
    decreases |rs|
  {
    if rs != [] {
      var w1 := Run(w, rs[0]);
      assert FullRound(w, rs[0]);
      QuietRunKeepsLive(w, rs[0]);
      FullRoundsLater(w, w1, rs);
      RoundsKeepLive(w1, rs[1..]);
      SameTransitive(w, w1, Rounds(w1, rs[1..]));
    }
  }

  /** n rounds settle a Router n passes away. */
  lemma {:induction false} RouterRounds(w: World, rs: seq<seq<Event>>, a: string)
    requires AllLive(w) && HonestRounds(w, rs) && FullRounds(w, rs) && |rs| <= 4 && RouterWithin(w, a, |rs|)
    ensures RouterWithin(Rounds(w, rs), a, 0)
    decreases |rs|
  {
    if rs != [] {
      var w1 := Run(w, rs[0]);
      assert FullRound(w, rs[0]);
      QuietRunKeepsLive(w, rs[0]);
      RouterRun(w, rs[0], a, |rs|);
      FullRoundsLater(w, w1, rs);
      RouterRounds(w1, rs[1..], a);
    }
  }

  // ---- Networks, once the Routers are settled

  ghost predicate RoutersSettled(w: World) { forall a :: a in w.routers ==> RouterWithin(w, a, 0) }

  lemma SettledRouterUnmoved(w: World, ev: Event)
    requires AllLive(w) && Honest(w, ev) && Quiet(ev) && ev.ReconcileRouter? && RoutersSettled(w)
    ensures Next(w, ev) == w
  {
    if ev.name in w.routers {
      assert RouterWithin(w, ev.name, 0);
      Quiescent(RouterAdapter.Ops, RouterFair, TIMERS, Snapshot(w.routers[ev.name], w.cloud), ev.env);
      assert w.routers[ev.name := w.routers[ev.name]] == w.routers;
    }
  }

  lemma SettledRoutersStay(w: World, ev: Event)
    requires AllLive(w) && Honest(w, ev) && Quiet(ev) && RoutersSettled(w)
    ensures RoutersSettled(Next(w, ev)) && Next(w, ev).routers == w.routers
  {
    if ev.ReconcileRouter? {
      SettledRouterUnmoved(w, ev);
    } else {
      QuietKeepsLive(w, ev);
      forall a | a in Next(w, ev).routers ensures RouterWithin(Next(w, ev), a, 0) {
        RouterEvent(w, ev, a, 0);
      }
    }
  }

  ghost predicate NetworkWithin(w: World, a: string, n: nat) {
    a in w.networks && Within(NetworkAdapter.Ops, NetworkFair, Snapshot(w.networks[a], NetView(w)), n)
  }

  /** The resource has a name, and its subnets of one address agree. */
  ghost predicate WellSpecified(o: NetworkCR) {
    NetworkAdapter.ExternalName(o) != "" && Agreeing(ToIPNetworks(o.spec.ipNetworks))
  }

  /** The Router the Network refers to is there, or none is referred to. */
  predicate Referenced(w: World, a: string)
    requires a in w.networks
  {
    var s := w.networks[a].spec;
    s.routerUUID != NO_UUID || s.routerRef.None? || s.routerRef.value in w.routers
  }

  lemma SettledRouterIsReady(w: World, r: string)
    requires AllLive(w) && RouterWithin(w, r, 0)
    ensures var o := w.routers[r];
            o.IsReady() && RouterInSync(o, w.cloud)
  {
    var o := w.routers[r];
    RecordedRouterCarried(w, r);
    SettledRouter(Snapshot(o, w.cloud), Env(map[], RouterAdapter.AnyPick(w.cloud, o.uid), true));
  }

  lemma ReferencedIsFit(w: World, a: string)
    requires AllLive(w) && RoutersSettled(w) && a in w.networks && WellSpecified(w.networks[a]) && Referenced(w, a)
    ensures NetworkFit(w.networks[a], NetView(w))
    ensures w.networks[a].id != NO_UUID ==> NetworkAdapter.Carries(w.cloud, w.networks[a].id, w.networks[a].uid)
  {
    var s, res := w.networks[a].spec, NetLabels(w.cloud);
    assert Tracks(w.networks[a], res, w.cloud.last) && Alive(w.networks[a], res);
    assert NO_UUID in w.cloud.networks ==> NO_UUID in res;
    assert NO_UUID in w.cloud.routers ==> NO_UUID in RouterLabels(w.cloud);
    if s.routerUUID == NO_UUID && s.routerRef.Some? {
      SettledRouterIsReady(w, s.routerRef.value);
    }
  }

  lemma NetworkWithinSame(o: NetworkCR, w: NetworkAdapter.NetWorld, c': Cloud, n: nat)
    requires SameNetworks(w.cloud, c', o.uid) && (o.id != NO_UUID ==> NetworkAdapter.Carries(w.cloud, o.id, o.uid))
    requires Within(NetworkAdapter.Ops, NetworkFair, Snapshot(o, w), n)
    ensures Within(NetworkAdapter.Ops, NetworkFair, Snapshot(o, w.(cloud := c')), n)
  {
    var w' := w.(cloud := c');
    forall e: Env ensures NetworkFair(o, w, e) <==> NetworkFair(o, w', e)
      ensures NetworkAdapter.Ops.observe(o, w', e)
              == Outcome(NetworkAdapter.Ops.observe(o, w, e).obj, w', NetworkAdapter.Ops.observe(o, w, e).result)
    {
      NetworkSeesSame(o, w, c', e);
    }
  }

  lemma NetworkVisited(w: World, a: string, e: Env, n: nat)
    requires AllLive(w) && NetworkWithin(w, a, n) && n <= 4 && NetworkFit(w.networks[a], NetView(w))
    requires Quiet(ReconcileNetwork(a, e, Done)) && Honest(w, ReconcileNetwork(a, e, Done))
    ensures NetworkWithin(Next(w, ReconcileNetwork(a, e, Done)), a, if n == 0 then 0 else n - 1)
  {
    var s, m := Snapshot(w.networks[a], NetView(w)), if n == 0 then 1 else n;
    NetworkContract();
    WithinMore(NetworkAdapter.Ops, NetworkFair, s, n, m);
    OnceProgresses(NetworkAdapter.Ops, NetworkFit, NetworkFair, TIMERS, s, e, m);
    LivePassKeepsRest(NetworkAdapter.Ops, TIMERS, w.networks[a], NetView(w), e, Done);
    NetworkPassHasEffect(w, a, e, Done);
    var w' := Next(w, ReconcileNetwork(a, e, Done));
    assert Snapshot(w'.networks[a], NetView(w')) == Once(NetworkAdapter.Ops, TIMERS, s, e);
  }

  /** Any quiet event keeps a Network within n passes, and its own pass brings it one closer. */
  lemma NetworkEvent(w: World, ev: Event, a: string, n: nat)
    requires AllLive(w) && Honest(w, ev) && Quiet(ev) && RoutersSettled(w) && NetworkWithin(w, a, n) && n <= 4
    requires WellSpecified(w.networks[a]) && Referenced(w, a)
    ensures NetworkWithin(Next(w, ev), a, n)
    ensures ev.ReconcileNetwork? && ev.name == a && n > 0 ==> NetworkWithin(Next(w, ev), a, n - 1)
  {
    var w' := Next(w, ev);
    ReferencedIsFit(w, a);
    if ev.ReconcileRouter? {
      SettledRouterUnmoved(w, ev);
    } else if ev.name == a {
      NetworkVisited(w, a, ev.env, n);
      WithinMore(NetworkAdapter.Ops, NetworkFair, Snapshot(w'.networks[a], NetView(w')), if n == 0 then 0
        else n - 1, n);
    } else if ev.name in w.networks {
      OtherNetworkSame(w, ev.name, ev.env, ev.write, a);
      LivePassKeepsRest(NetworkAdapter.Ops, TIMERS, w.networks[ev.name], NetView(w), ev.env, ev.write);
      NetworkWithinSame(w.networks[a], NetView(w), w'.cloud, n);
      assert w'.networks[a] == w.networks[a] && NetView(w') == NetView(w).(cloud := w'.cloud);
    }
  }

  lemma SpecKept(w: World, w': World, a: string)
    requires SameResources(w, w') && a in w.networks
    ensures a in w'.networks && (WellSpecified(w'.networks[a]) <==> WellSpecified(w.networks[a]))
    ensures Referenced(w', a) <==> Referenced(w, a)
  {
  }

  lemma {:induction false} NetworkRun(w: World, run: seq<Event>, a: string, n: nat)
    requires AllLive(w) && HonestRun(w, run) && QuietRun(run) && RoutersSettled(w) && NetworkWithin(w, a, n) && n <= 4
    requires WellSpecified(w.networks[a]) && Referenced(w, a)
    ensures RoutersSettled(Run(w, run)) && NetworkWithin(Run(w, run), a, n)
    ensures VisitsNetwork(run, a) && n > 0 ==> NetworkWithin(Run(w, run), a, n - 1)
    decreases |run|
  {
    if run != [] {
      QuietKeepsLive(w, run[0]);
      SettledRoutersStay(w, run[0]);
      NetworkEvent(w, run[0], a, n);
      var w1 := Next(w, run[0]);
      SpecKept(w, w1, a);
      if run[0].ReconcileNetwork? && run[0].name == a && n > 0 {
        NetworkRun(w1, run[1..], a, n - 1);
        var w' := Run(w, run);
        WithinMore(NetworkAdapter.Ops, NetworkFair, Snapshot(w'.networks[a], NetView(w')), n - 1, n);
      } else {
        NetworkRun(w1, run[1..], a, n);
        if VisitsNetwork(run, a) { NetworkVisitedLater(run, a); }
      }
    }
  }

  lemma NetworkVisitedLater(run: seq<Event>, a: string)
    requires run != [] && VisitsNetwork(run, a)
    ensures (run[0].ReconcileNetwork? && run[0].name == a) || VisitsNetwork(run[1..], a)
  {
    var i :| 0 <= i < |run| && run[i].ReconcileNetwork? && run[i].name == a;
    if i > 0 { assert run[1..][i - 1] == run[i]; }
  }

  lemma {:induction false} NetworkRounds(w: World, rs: seq<seq<Event>>, a: string, n: nat)
    requires AllLive(w) && HonestRounds(w, rs) && FullRounds(w, rs) && RoutersSettled(w) && NetworkWithin(w, a, n)
    requires n <= 4 && n <= |rs| && WellSpecified(w.networks[a]) && Referenced(w, a)
    ensures RoutersSettled(Rounds(w, rs)) && NetworkWithin(Rounds(w, rs), a, 0)
    decreases |rs|
  {
    if rs != [] {
      var w1 := Run(w, rs[0]);
      assert FullRound(w, rs[0]);
      QuietRunKeepsLive(w, rs[0]);
      NetworkRun(w, rs[0], a, n);
      FullRoundsLater(w, w1, rs);
      SpecKept(w, w1, a);
      NetworkRounds(w1, rs[1..], a, if n == 0 then 0 else n - 1);
    }
  }

  // ---- A Network whose Router is not there

  /** Network a needs at most n passes to say that it waits. */
  predicate WaitsWithin(w: World, a: string, n: nat) {
    && a in w.networks && (n <= 1 ==> w.networks[a].finalizer) && (n == 0 ==> !w.networks[a].IsReady())
  }

  lemma WaitingEvent(w: World, ev: Event, a: string, n: nat)
    requires AllLive(w) && Honest(w, ev) && Quiet(ev) && WaitsWithin(w, a, n) && !Referenced(w, a)
    ensures WaitsWithin(Next(w, ev), a, n)
    ensures ev.ReconcileNetwork? && ev.name == a && n > 0 ==> WaitsWithin(Next(w, ev), a, n - 1)
  {
    if ev.ReconcileNetwork? && ev.name == a {
      var o := w.networks[a];
      LivePassKeepsRest(NetworkAdapter.Ops, TIMERS, o, NetView(w), ev.env, ev.write);
      if o.finalizer {
        assert NetworkAdapter.Observe(o, NetView(w), ev.env) == Outcome(o, NetView(w), Err(DependencyNotReady));
      }
    }
  }

  lemma {:induction false} WaitingRun(w: World, run: seq<Event>, a: string, n: nat)
    requires AllLive(w) && HonestRun(w, run) && QuietRun(run) && WaitsWithin(w, a, n) && !Referenced(w, a)
    ensures WaitsWithin(Run(w, run), a, n)
    ensures VisitsNetwork(run, a) && n > 0 ==> WaitsWithin(Run(w, run), a, n - 1)
    decreases |run|
  {
    if run != [] {
      var w1 := Next(w, run[0]);
      QuietKeepsLive(w, run[0]);
      WaitingEvent(w, run[0], a, n);
      SpecKept(w, w1, a);
      if run[0].ReconcileNetwork? && run[0].name == a && n > 0 {
        WaitingRun(w1, run[1..], a, n - 1);
      } else {
        WaitingRun(w1, run[1..], a, n);
        if VisitsNetwork(run, a) { NetworkVisitedLater(run, a); }
      }
    }
  }

  lemma {:induction false} WaitingRounds(w: World, rs: seq<seq<Event>>, a: string, n: nat)
    requires AllLive(w) && HonestRounds(w, rs) && FullRounds(w, rs) && WaitsWithin(w, a, n) && !Referenced(w, a)
    requires n <= |rs|
    ensures WaitsWithin(Rounds(w, rs), a, 0)
    decreases |rs|
  {
    if rs != [] {
      var w1 := Run(w, rs[0]);
      assert FullRound(w, rs[0]);
      QuietRunKeepsLive(w, rs[0]);
      WaitingRun(w, rs[0], a, n);
      FullRoundsLater(w, w1, rs);
      SpecKept(w, w1, a);
      WaitingRounds(w1, rs[1..], a, if n == 0 then 0 else n - 1);
    }
  }

  // ---- Everyone

  lemma {:induction false} RoundsAppend(w: World, rs: seq<seq<Event>>, more: seq<seq<Event>>)
    ensures Rounds(w, rs + more) == Rounds(Rounds(w, rs), more)
    ensures HonestRounds(w, rs + more) <==> HonestRounds(w, rs) && HonestRounds(Rounds(w, rs), more)
    decreases |rs|
  {
    if rs == [] {
      assert rs + more == more;
    } else {
      assert (rs + more)[1..] == rs[1..] + more;
      RoundsAppend(Run(w, rs[0]), rs[1..], more);
    }
  }

  lemma RoutersSettleInFour(w: World, rs: seq<seq<Event>>)
    requires AllLive(w) && HonestRounds(w, rs) && FullRounds(w, rs) && |rs| == 4
    ensures AllLive(Rounds(w, rs)) && SameResources(w, Rounds(w, rs)) && RoutersSettled(Rounds(w, rs))
  {
    RoundsKeepLive(w, rs);
    forall a | a in Rounds(w, rs).routers ensures RouterWithin(Rounds(w, rs), a, 0) {
      RouterRounds(w, rs, a);
    }
  }

  lemma {:induction false} SettledRoutersStayRounds(w: World, rs: seq<seq<Event>>)
    requires AllLive(w) && HonestRounds(w, rs) && FullRounds(w, rs) && RoutersSettled(w)
    ensures RoutersSettled(Rounds(w, rs))
    decreases |rs|
  {
    if rs != [] {
      var w1 := Run(w, rs[0]);
      assert FullRound(w, rs[0]);
      QuietRunKeepsLive(w, rs[0]);
      SettledRoutersStayRun(w, rs[0]);
      FullRoundsLater(w, w1, rs);
      SettledRoutersStayRounds(w1, rs[1..]);
    }
  }

  lemma {:induction false} SettledRoutersStayRun(w: World, run: seq<Event>)
    requires AllLive(w) && HonestRun(w, run) && QuietRun(run) && RoutersSettled(w)
    ensures RoutersSettled(Run(w, run))
    decreases |run|
  {
    if run != [] {
      QuietKeepsLive(w, run[0]);
      SettledRoutersStay(w, run[0]);
      SettledRoutersStayRun(Next(w, run[0]), run[1..]);
    }
  }

  lemma SplitRounds(w: World, rs: seq<seq<Event>>)
    requires AllLive(w) && HonestRounds(w, rs) && FullRounds(w, rs) && |rs| >= 4
    ensures var w4 := Rounds(w, rs[..4]);
            && AllLive(w4) && SameResources(w, w4) && RoutersSettled(w4)
            && HonestRounds(w4, rs[4..]) && FullRounds(w4, rs[4..]) && Rounds(w, rs) == Rounds(w4, rs[4..])
  {
    assert rs == rs[..4] + rs[4..];
    RoundsAppend(w, rs[..4], rs[4..]);
    RoutersSettleInFour(w, rs[..4]);
    var w4 := Rounds(w, rs[..4]);
    forall i | 0 <= i < |rs| - 4 ensures FullRound(w4, rs[4..][i]) {
      assert FullRound(w, rs[i + 4]);
    }
  }

  /** After four rounds, each in any order, and after every further one, every Router is Ready and its router
      is what its spec wants. */
  lemma RoutersConverge(w: World, rs: seq<seq<Event>>, r: string)
    requires AllLive(w) && HonestRounds(w, rs) && FullRounds(w, rs) && |rs| >= 4 && r in w.routers
    ensures var w' := Rounds(w, rs);
            && r in w'.routers && w'.routers[r].IsReady() && RouterInSync(w'.routers[r], w'.cloud)
  {
    SplitRounds(w, rs);
    var w4 := Rounds(w, rs[..4]);
    RoundsKeepLive(w, rs);
    SettledRoutersStayRounds(w4, rs[4..]);
    SettledRouterIsReady(Rounds(w, rs), r);
  }

  /** After eight rounds, each in any order, and after every further one, a Network is Ready if and only if
      the Router it refers to is there; then its network is what its spec wants. */
  lemma NetworksConvergeIffReferenced(w: World, rs: seq<seq<Event>>, a: string)
    requires AllLive(w) && HonestRounds(w, rs) && FullRounds(w, rs) && |rs| >= 8
    requires a in w.networks && WellSpecified(w.networks[a])
    ensures var w' := Rounds(w, rs);
            && a in w'.networks && (w'.networks[a].IsReady() <==> Referenced(w, a))
            && (w'.networks[a].IsReady() ==> NetworkInSync(w'.networks[a], NetView(w')))
  {
    SplitRounds(w, rs);
    var w4, w' := Rounds(w, rs[..4]), Rounds(w, rs);
    RoundsKeepLive(w, rs);
    SpecKept(w, w4, a);
    SpecKept(w, w', a);
    if Referenced(w, a) {
      NetworkRounds(w4, rs[4..], a, 4);
      SettledNetworkIsReady(w', a);
    } else {
      WaitingRounds(w4, rs[4..], a, 2);
    }
  }

  lemma SettledNetworkIsReady(w: World, a: string)
    requires AllLive(w) && RoutersSettled(w) && NetworkWithin(w, a, 0) && WellSpecified(w.networks[a])
        && Referenced(w, a)
    ensures w.networks[a].IsReady() && NetworkInSync(w.networks[a], NetView(w))
  {
    var o := w.networks[a];
    ReferencedIsFit(w, a);
    SettledNetwork(Snapshot(o, NetView(w)), Env(map[], NetworkAdapter.AnyPick(w.cloud, o.uid), true));
  }

  /** When everyone is settled, quiet runs change nothing at all. */
  lemma {:induction false} AllSettledStays(w: World, run: seq<Event>)
    requires AllLive(w) && HonestRun(w, run) && QuietRun(run) && RoutersSettled(w)
    requires forall a :: a in w.networks ==> NetworkWithin(w, a, 0)
    ensures Run(w, run) == w
    decreases |run|
  {
    if run != [] {
      var ev := run[0];
      if ev.ReconcileRouter? {
        SettledRouterUnmoved(w, ev);
      } else if ev.name in w.networks {
        assert NetworkWithin(w, ev.name, 0);
        Quiescent(NetworkAdapter.Ops, NetworkFair, TIMERS, Snapshot(w.networks[ev.name], NetView(w)), ev.env);
        assert w.networks[ev.name := w.networks[ev.name]] == w.networks;
      }
      assert Next(w, ev) == w;
      AllSettledStays(w, run[1..]);
    }
  }

  /** If every Network is well specified and refers to a Router that is there, eight rounds reach a state that
      no further quiet run changes. */
  lemma EveryoneSettles(w: World, rs: seq<seq<Event>>, run: seq<Event>)
    requires AllLive(w) && HonestRounds(w, rs) && FullRounds(w, rs) && |rs| >= 8
    requires forall a :: a in w.networks ==> WellSpecified(w.networks[a]) && Referenced(w, a)
    requires HonestRun(Rounds(w, rs), run) && QuietRun(run)
    ensures Run(Rounds(w, rs), run) == Rounds(w, rs)
  {
    SplitRounds(w, rs);
    var w4, w' := Rounds(w, rs[..4]), Rounds(w, rs);
    RoundsKeepLive(w, rs);
    SettledRoutersStayRounds(w4, rs[4..]);
    forall a | a in w'.networks ensures NetworkWithin(w', a, 0) {
      SpecKept(w, w4, a);
      NetworkRounds(w4, rs[4..], a, 4);
    }
    AllSettledStays(w', run);
  }
}
