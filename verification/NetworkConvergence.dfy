/** Drift repair for Networks and Routers, and with it the convergence theorem for both kinds. */
module NetworkConvergence {
  import opened Support
  import opened Labels
  import opened Convert
  import opened Reconciler
  import opened NetworkCloud
  import opened NetworkTypes
  import opened Convergence
  import NetworkAdapter
  import RouterAdapter

  // ---- Networks

  /** The dependency is Ready, the resource has a name, and its subnets of one address agree. */
  ghost predicate NetworkFit(n: NetworkCR, w: NetworkAdapter.NetWorld) {
    && NetworkAdapter.DesiredRouter(n, w, Works).Ok?
    && NetworkAdapter.ExternalName(n) != ""
    && Agreeing(ToIPNetworks(n.spec.ipNetworks))
    && NO_UUID !in w.cloud.networks
  }

  /** No call fails, and the list call, if it is needed, is honest. */
  ghost predicate NetworkFair(n: NetworkCR, w: NetworkAdapter.NetWorld, e: Env) {
    e.faults == map[] && (n.id == NO_UUID ==> NetworkAdapter.HonestPick(w.cloud, n.uid, e.pick))
  }

  lemma ModifyRepairs(n: NetworkCR, c: Cloud, e: Env)
    requires n.id in c.networks && NetworkAdapter.ModifyStep(n, c, n.id, e).1.Ok?
    requires NetworkAdapter.ExternalName(n) != "" && Agreeing(ToIPNetworks(n.spec.ipNetworks))
    ensures var c' := NetworkAdapter.ModifyStep(n, c, n.id, e).0;
            n.id in c'.networks && !NetworkAdapter.Drifted(n, c'.networks[n.id], e.tie)
            && c'.networks[n.id].router == c.networks[n.id].router
            && (!NetworkAdapter.Drifted(n, c.networks[n.id], e.tie) ==> c' == c)
  {
    SentSubnetsMatch(ToIPNetworks(n.spec.ipNetworks));
  }

  /** A network as the spec wants it, field by field. */
  ghost predicate NetworkInSync(n: NetworkCR, w: NetworkAdapter.NetWorld) {
    && n.id in w.cloud.networks
    && var net := w.cloud.networks[n.id];
       && net.name == (if n.spec.name != "" then n.spec.name else n.name)
       && SubnetsMatch(net.ipNetworks, ToIPNetworks(n.spec.ipNetworks))
       && multiset(net.labels) == multiset(Desired(n.uid, n.spec.labels))
       && NetworkAdapter.DesiredRouter(n, w, Works) == Ok(net.router)
  }

  /** A router as the spec wants it, field by field. */
  ghost predicate RouterInSync(r: RouterCR, c: Cloud) {
    && r.id in c.routers
    && var rt := c.routers[r.id];
       && rt.name == (if r.spec.name != "" then r.spec.name else r.name)
       && RoutesMatch(rt.staticRoutes, r.spec.staticRoutes)
       && multiset(rt.labels) == multiset(Desired(r.uid, r.spec.labels))
  }

  /** Whatever subset of name, subnets, labels and router had drifted, and whatever the environment, an
      update that returns nil has repaired all of it; when nothing had, it made no mutating call. */
  lemma NetworkDriftRepaired(n: NetworkCR, w: NetworkAdapter.NetWorld, e: Env)
    requires n.id != NO_UUID && NetworkAdapter.Update(n, w, e).result.Ok?
    requires NetworkAdapter.ExternalName(n) != "" && Agreeing(ToIPNetworks(n.spec.ipNetworks))
    ensures var u := NetworkAdapter.Update(n, w, e);
            u.obj == n && NetworkInSync(n, u.world)
    ensures NetworkInSync(n, w) ==> NetworkAdapter.Update(n, w, e).world == w
  {
    var router := NetworkAdapter.DesiredRouter(n, w, e.At(UpdateResolve)).value;
    assert NetworkAdapter.DesiredRouter(n, w, Works) == Ok(router);
    ModifyRepairs(n, w.cloud, e);
    var (c1, r1) := NetworkAdapter.ModifyStep(n, w.cloud, n.id, e);
    var current := w.cloud.networks[n.id].router;
    var (c2, r2) := NetworkAdapter.RouterStep(c1, n.id, current, router, e.At(RouterCall));
    assert NetworkAdapter.Update(n, w, e) == Outcome(n, w.(cloud := c2), r2);
    var net := c2.networks[n.id];
    assert net.router == router && !NetworkAdapter.Drifted(n, net, e.tie);
  }

  /** Without faults an update of an existing network returns nil. */
  lemma NetworkUpdateWorks(n: NetworkCR, w: NetworkAdapter.NetWorld, e: Env)
    requires NetworkFit(n, w) && e.faults == map[] && n.id in w.cloud.networks
    ensures NetworkAdapter.Update(n, w, e).result.Ok?
  {
  }

  /** Once there is an identity, or nothing to find, every fair environment shows the same. */
  lemma NetworkSeenAgain(o: NetworkCR, w: NetworkAdapter.NetWorld, e: Env, e': Env)
    requires NetworkFit(o, w) && NetworkFair(o, w, e)
    requires NetworkFair(NetworkAdapter.Observe(o, w, e).obj, w, e')
    ensures NetworkAdapter.Observe(NetworkAdapter.Observe(o, w, e).obj, w, e') == NetworkAdapter.Observe(o, w, e)
  {
    var v := NetworkAdapter.Observe(o, w, e);
    var found := NetworkAdapter.Lookup(o, w.cloud, Works, e.pick).value;
    assert NetworkAdapter.DesiredRouter(v.obj, w, Works) == NetworkAdapter.DesiredRouter(o, w, Works);
    if found.Some? {
      assert NetworkAdapter.Lookup(v.obj, w.cloud, Works, e'.pick) == Ok(found);
      var net := w.cloud.networks[found.value];
      assert NetworkAdapter.Drifted(v.obj, net, e'.tie) == NetworkAdapter.Drifted(o, net, e.tie);
    }
  }

  lemma NetworkObservedWell(o: NetworkCR, w: NetworkAdapter.NetWorld, e: Env)
    requires NetworkFit(o, w) && NetworkFair(o, w, e)
    ensures ObservedWell(NetworkAdapter.Ops, NetworkFit, NetworkFair, o, w, e)
  {
    var v := NetworkAdapter.Observe(o, w, e);
    assert NetworkAdapter.DesiredRouter(v.obj, w, Works) == NetworkAdapter.DesiredRouter(o, w, Works);
    forall e': Env | NetworkFair(v.obj, v.world, e') ensures NetworkAdapter.Ops.observe(v.obj, v.world, e') == v {
      NetworkSeenAgain(o, w, e, e');
    }
  }

  lemma NetworkBlindTo(o: NetworkCR, w: NetworkAdapter.NetWorld, e: Env, c: Condition, f: bool)
    ensures BlindTo(NetworkAdapter.Ops, NetworkFit, NetworkFair, o, w, e, c, f)
  {
    var o' := o.(condition := c, finalizer := f);
    assert forall g :: NetworkAdapter.Lookup(o', w.cloud, g, e.pick) == NetworkAdapter.Lookup(o, w.cloud, g, e.pick);
    assert forall g :: NetworkAdapter.DesiredRouter(o', w, g) == NetworkAdapter.DesiredRouter(o, w, g);
    var found := NetworkAdapter.Lookup(o, w.cloud, Works, e.pick).value;
    if found.Some? {
      var net := w.cloud.networks[found.value];
      assert NetworkAdapter.Drifted(o', net, e.tie) == NetworkAdapter.Drifted(o, net, e.tie);
    }
  }

  lemma NetworkCreatedWell(o: NetworkCR, w: NetworkAdapter.NetWorld, e: Env)
    requires NetworkFit(o, w) && NetworkFair(o, w, e)
    ensures CreatedWell(NetworkAdapter.Ops, NetworkFit, NetworkFair, o, w, e)
  {
  }

  lemma InSyncIsInStep(n: NetworkCR, w: NetworkAdapter.NetWorld)
    requires NetworkInSync(n, w) && NO_UUID !in w.cloud.networks && Agreeing(ToIPNetworks(n.spec.ipNetworks))
    ensures InStep(NetworkAdapter.Ops, NetworkFair, n, w)
  {
  }

  lemma NetworkUpdatedWell(o: NetworkCR, w: NetworkAdapter.NetWorld, e: Env)
    requires NetworkFit(o, w) && NetworkFair(o, w, e)
    ensures UpdatedWell(NetworkAdapter.Ops, NetworkFit, NetworkFair, o, w, e)
  {
    var v := NetworkAdapter.Observe(o, w, e);
    if v.result.Ok? && v.result.value.present && !v.result.value.upToDate {
      assert NetworkAdapter.DesiredRouter(v.obj, w, Works) == NetworkAdapter.DesiredRouter(o, w, Works);
      NetworkUpdateWorks(v.obj, w, e);
      NetworkDriftRepaired(v.obj, w, e);
      NetworkAdapter.UpdateRewrites(v.obj, w, e);
      InSyncIsInStep(v.obj, NetworkAdapter.Update(v.obj, w, e).world);
    }
  }

  lemma NetworkContract()
    ensures Contract(NetworkAdapter.Ops, NetworkFit, NetworkFair)
  {
    forall o: NetworkCR, w: NetworkAdapter.NetWorld, e: Env | NetworkFit(o, w) && NetworkFair(o, w, e)
      ensures ObservedWell(NetworkAdapter.Ops, NetworkFit, NetworkFair, o, w, e)
      ensures CreatedWell(NetworkAdapter.Ops, NetworkFit, NetworkFair, o, w, e)
      ensures UpdatedWell(NetworkAdapter.Ops, NetworkFit, NetworkFair, o, w, e)
    {
      NetworkObservedWell(o, w, e);
      NetworkCreatedWell(o, w, e);
      NetworkUpdatedWell(o, w, e);
    }
    forall o: NetworkCR, w: NetworkAdapter.NetWorld, e: Env, c: Condition, f: bool
      ensures BlindTo(NetworkAdapter.Ops, NetworkFit, NetworkFair, o, w, e, c, f)
    {
      NetworkBlindTo(o, w, e, c, f);
    }
  }

  lemma SettledNetwork(s: Snapshot<NetworkSpec, NetworkStatus, NetworkAdapter.NetWorld>, e: Env)
    requires Settled(NetworkAdapter.Ops, NetworkFair, s) && NetworkFit(s.obj, s.world) && NetworkFair(s.obj, s.world, e)
    ensures NetworkInSync(s.obj, s.world)
  {
    assert NetworkAdapter.Observe(s.obj, s.world, e) == Outcome(s.obj, s.world, Ok(Observation(true, true, true)));
  }

  /** A live Network is Ready and as its spec wants it after four passes in any fair environments, and every
      later pass leaves cloud and resource alone. */
  lemma NetworkConverges(t: Timers, n: NetworkCR, w: NetworkAdapter.NetWorld, es: seq<Env>, e: Env)
    requires !n.deleting && NetworkFit(n, w) && |es| >= 4
    requires FairRun(NetworkAdapter.Ops, NetworkFair, t, Snapshot(n, w), es)
    requires var s := Passes(NetworkAdapter.Ops, t, Snapshot(n, w), es); NetworkFair(s.obj, s.world, e)
    ensures var s := Passes(NetworkAdapter.Ops, t, Snapshot(n, w), es);
            && s == Passes(NetworkAdapter.Ops, t, Snapshot(n, w), es[..4])
            && s.obj.IsReady() && NetworkInSync(s.obj, s.world)
            && PassOver(NetworkAdapter.Ops, t, s.obj, s.world, e, Done) == Pass(Some(s.obj), s.world, t.steady, false)
  {
    var s := Passes(NetworkAdapter.Ops, t, Snapshot(n, w), es);
    NetworkContract();
    ConvergesInFour(NetworkAdapter.Ops, NetworkFit, NetworkFair, t, Snapshot(n, w), es, e);
    SettledAfter(NetworkAdapter.Ops, NetworkFit, NetworkFair, t, Snapshot(n, w), es, 4);
    SettledNetwork(s, e);
  }

  // ---- Routers

  ghost predicate RouterFit(r: RouterCR, c: Cloud) { NO_UUID !in c.routers }

  ghost predicate RouterFair(r: RouterCR, c: Cloud, e: Env) {
    e.faults == map[] && (r.id == NO_UUID ==> RouterAdapter.HonestPick(c, r.uid, e.pick))
  }

  lemma RouterObservedWell(o: RouterCR, c: Cloud, e: Env)
    requires RouterFit(o, c) && RouterFair(o, c, e)
    ensures ObservedWell(RouterAdapter.Ops, RouterFit, RouterFair, o, c, e)
  {
    var v := RouterAdapter.Observe(o, c, e);
    var found := RouterAdapter.Lookup(o, c, Works, e.pick).value;
    forall e': Env | RouterFair(v.obj, v.world, e') ensures RouterAdapter.Ops.observe(v.obj, v.world, e') == v {
      if found.Some? {
        assert RouterAdapter.Lookup(v.obj, c, Works, e'.pick) == Ok(found);
        assert RouterAdapter.InSync(v.obj, c.routers[found.value]) == RouterAdapter.InSync(o, c.routers[found.value]);
      }
    }
  }

  lemma RouterBlindTo(o: RouterCR, w: Cloud, e: Env, c: Condition, f: bool)
    ensures BlindTo(RouterAdapter.Ops, RouterFit, RouterFair, o, w, e, c, f)
  {
    var o' := o.(condition := c, finalizer := f);
    assert forall g :: RouterAdapter.Lookup(o', w, g, e.pick) == RouterAdapter.Lookup(o, w, g, e.pick);
    var found := RouterAdapter.Lookup(o, w, Works, e.pick).value;
    if found.Some? {
      assert RouterAdapter.InSync(o', w.routers[found.value]) == RouterAdapter.InSync(o, w.routers[found.value]);
    }
  }

  lemma RouterCreatedWell(o: RouterCR, c: Cloud, e: Env)
    requires RouterFit(o, c) && RouterFair(o, c, e)
    ensures CreatedWell(RouterAdapter.Ops, RouterFit, RouterFair, o, c, e)
  {
  }

  /** An update that returns nil has made the router what the spec wants, in any environment. */
  lemma RouterDriftRepaired(r: RouterCR, c: Cloud, e: Env)
    requires RouterAdapter.Update(r, c, e).result.Ok?
    ensures var u := RouterAdapter.Update(r, c, e);
            u.obj == r && RouterInSync(r, u.world)
  {
    SentRoutesMatch(r.spec.staticRoutes);
  }

  lemma RouterUpdatedWell(o: RouterCR, c: Cloud, e: Env)
    requires RouterFit(o, c) && RouterFair(o, c, e)
    ensures UpdatedWell(RouterAdapter.Ops, RouterFit, RouterFair, o, c, e)
  {
    var v := RouterAdapter.Observe(o, c, e);
    if v.result.Ok? && v.result.value.present && !v.result.value.upToDate {
      RouterDriftRepaired(v.obj, c, e);
    }
  }

  lemma RouterContract()
    ensures Contract(RouterAdapter.Ops, RouterFit, RouterFair)
  {
    forall o: RouterCR, c: Cloud, e: Env | RouterFit(o, c) && RouterFair(o, c, e)
      ensures ObservedWell(RouterAdapter.Ops, RouterFit, RouterFair, o, c, e)
      ensures CreatedWell(RouterAdapter.Ops, RouterFit, RouterFair, o, c, e)
      ensures UpdatedWell(RouterAdapter.Ops, RouterFit, RouterFair, o, c, e)
    {
      RouterObservedWell(o, c, e);
      RouterCreatedWell(o, c, e);
      RouterUpdatedWell(o, c, e);
    }
    forall o: RouterCR, w: Cloud, e: Env, c: Condition, f: bool
      ensures BlindTo(RouterAdapter.Ops, RouterFit, RouterFair, o, w, e, c, f)
    {
      RouterBlindTo(o, w, e, c, f);
    }
  }

  lemma SettledRouter(s: Snapshot<RouterSpec, RouterStatus, Cloud>, e: Env)
    requires Settled(RouterAdapter.Ops, RouterFair, s) && RouterFair(s.obj, s.world, e) && RouterFit(s.obj, s.world)
    ensures RouterInSync(s.obj, s.world)
  {
    assert RouterAdapter.Observe(s.obj, s.world, e) == Outcome(s.obj, s.world, Ok(Observation(true, true, true)));
  }

  /** A live Router is Ready and as its spec wants it after four passes in any fair environments, and every
      later pass leaves cloud and resource alone. */
  lemma RouterConverges(t: Timers, r: RouterCR, c: Cloud, es: seq<Env>, e: Env)
    requires !r.deleting && RouterFit(r, c) && |es| >= 4
    requires FairRun(RouterAdapter.Ops, RouterFair, t, Snapshot(r, c), es)
    requires var s := Passes(RouterAdapter.Ops, t, Snapshot(r, c), es); RouterFair(s.obj, s.world, e)
    ensures var s := Passes(RouterAdapter.Ops, t, Snapshot(r, c), es);
            && s == Passes(RouterAdapter.Ops, t, Snapshot(r, c), es[..4])
            && s.obj.IsReady() && RouterInSync(s.obj, s.world)
            && PassOver(RouterAdapter.Ops, t, s.obj, s.world, e, Done) == Pass(Some(s.obj), s.world, t.steady, false)
  {
    var s := Passes(RouterAdapter.Ops, t, Snapshot(r, c), es);
    RouterContract();
    ConvergesInFour(RouterAdapter.Ops, RouterFit, RouterFair, t, Snapshot(r, c), es, e);
    SettledAfter(RouterAdapter.Ops, RouterFit, RouterFair, t, Snapshot(r, c), es, 4);
    SettledRouter(s, e);
  }
}
