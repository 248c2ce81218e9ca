/** Referential integrity: does every router a cloud network names exist? */
module Referential {
  import opened Support
  import opened Strings
  import opened Reconciler
  import opened NetworkCloud
  import opened NetworkTypes
  import opened Ownership
  import opened PassShape
  import opened Pair
  import opened PairSafety
  import NetworkAdapter
  import RouterAdapter

  ghost predicate Intact(c: Cloud) {
    forall k :: k in c.networks && c.networks[k].router != NO_UUID ==> c.networks[k].router in c.routers
  }

  /** What the dependency gate silently relies on: a Router that says Ready names a live router. */
  ghost predicate ReadyRoutersLive(w: World) {
    forall a ::
        a in w.routers && w.routers[a].id != NO_UUID && w.routers[a].IsReady() ==> w.routers[a].id in w.cloud.routers
  }

  ghost predicate ByRefOnly(w: World) {
    forall a :: a in w.networks ==> w.networks[a].spec.routerUUID == NO_UUID
  }

  /** Networks name their router by reference, not by a raw UUID. */
  predicate ByRef(ev: Event) {
    match ev
    case AddNetwork(_, _, _, spec) => spec.routerUUID == NO_UUID
    case EditNetwork(_, _, spec) => spec.routerUUID == NO_UUID
    case _ => true
  }

  /** The delete call of a Ready Router takes effect and the write that should follow it (release, or
      Ready=False after a lost reply) does not. */
  predicate LosesReleaseWrite(w: World, ev: Event) {
    && ev.ReconcileRouter? && ev.write.Rejected? && ev.name in w.routers
    && var o := w.routers[ev.name];
       && o.deleting && o.finalizer && o.policy == DeletePolicy && o.IsReady()
       && o.id != NO_UUID && o.id in w.cloud.routers && !Attached(w.cloud, o.id)
       && TakesEffect(ev.env.At(DeleteCall))
  }

  /** The router of a Router that says Ready, and is being deleted, goes behind the operator's back. */
  ghost predicate DropsReady(w: World, ev: Event) {
    && ev.DropRouter? && ev.id in w.cloud.routers && !Attached(w.cloud, ev.id)
    && exists a :: a in w.routers && w.routers[a].id == ev.id && w.routers[a].id != NO_UUID && w.routers[a].IsReady()
  }

  /** The harmful events: either way a Router goes on saying Ready while its router is gone. */
  ghost predicate BreaksGate(w: World, ev: Event) { LosesReleaseWrite(w, ev) || DropsReady(w, ev) }

  ghost predicate Sound(w: World) {
    Inv(w) && Intact(w.cloud) && ByRefOnly(w)
  }

  lemma ResolvedRouterLives(w: World, o: NetworkCR, f: Fault)
    requires ReadyRoutersLive(w) && o.spec.routerUUID == NO_UUID
    ensures var d := NetworkAdapter.DesiredRouter(o, NetworkAdapter.NetWorld(w.cloud, w.routers), f);
            d.Ok? && d.value != NO_UUID ==> d.value in w.cloud.routers
  {
  }

  lemma CreateIntact(w: World, o: NetworkCR, e: Env)
    requires Intact(w.cloud) && ReadyRoutersLive(w) && o.spec.routerUUID == NO_UUID
    ensures Intact(NetworkAdapter.Create(o, NetworkAdapter.NetWorld(w.cloud, w.routers), e).world.cloud)
  {
    ResolvedRouterLives(w, o, e.At(CreateResolve));
  }

  lemma UpdateIntact(w: World, seen: NetworkCR, e: Env)
    requires Intact(w.cloud) && ReadyRoutersLive(w) && seen.spec.routerUUID == NO_UUID
    requires seen.id != NO_UUID && seen.id in w.cloud.networks
    ensures Intact(NetworkAdapter.Update(seen, NetworkAdapter.NetWorld(w.cloud, w.routers), e).world.cloud)
  {
    ResolvedRouterLives(w, seen, e.At(UpdateResolve));
    NetworkAdapter.UpdateRewrites(seen, NetworkAdapter.NetWorld(w.cloud, w.routers), e);
  }

  /** A network pass writes no router but a resolved one. */
  lemma NetworkPassIntact(w: World, name: string, e: Env, write: Write)
    requires Sound(w) && ReadyRoutersLive(w) && name in w.networks && Honest(w, ReconcileNetwork(name, e, write))
    ensures Intact(NetworkPass(w, name, e, write).world.cloud)
  {
    var o, nw := w.networks[name], NetworkAdapter.NetWorld(w.cloud, w.routers);
    if o.deleting && o.finalizer {
      DeletePassShape(NetworkAdapter.Ops, TIMERS, o, nw, e, write);
    } else if o.finalizer {
      LivePassShape(NetworkAdapter.Ops, TIMERS, o, nw, e, write);
      var v := NetworkAdapter.Observe(o, nw, e);
      if v.result.Ok? && !v.result.value.present {
        CreateIntact(w, v.obj, e);
      } else if v.result.Ok? && !v.result.value.upToDate {
        PresentNetwork(w, name, e);
        UpdateIntact(w, v.obj, e);
      }
    }
  }

  lemma NetworkPassKeepsSpec(w: World, name: string, e: Env, write: Write)
    requires Inv(w) && name in w.networks && Honest(w, ReconcileNetwork(name, e, write))
    ensures var p := NetworkPass(w, name, e, write); p.obj.Some? ==> p.obj.value.spec == w.networks[name].spec
    ensures NetworkPass(w, name, e, write).world.cloud.routers == w.cloud.routers
  {
    NetworkPassHasEffect(w, name, e, write);
  }

  /** A router with attached networks is not deleted, and creating or modifying one hides none. */
  lemma RouterPassIntact(w: World, name: string, e: Env, write: Write)
    requires Sound(w) && name in w.routers && Honest(w, ReconcileRouter(name, e, write))
    ensures Intact(RouterPass(w, name, e, write).world)
  {
    var o := w.routers[name];
    if o.deleting && o.finalizer {
      DeletePassShape(RouterAdapter.Ops, TIMERS, o, w.cloud, e, write);
    } else if o.finalizer {
      LivePassShape(RouterAdapter.Ops, TIMERS, o, w.cloud, e, write);
    }
  }

  /** What is left of a router after a pass of its own resource. */
  lemma RouterPassOwnReady(w: World, name: string, e: Env, write: Write)
    requires Sound(w) && ReadyRoutersLive(w) && name in w.routers && Honest(w, ReconcileRouter(name, e, write))
    ensures var p := RouterPass(w, name, e, write);
            (p.obj.Some? && p.obj.value.id != NO_UUID && p.obj.value.IsReady() ==> p.obj.value.id in p.world.routers)
            <==> !LosesReleaseWrite(w, ReconcileRouter(name, e, write))
  {
    var o := w.routers[name];
    var p := RouterPass(w, name, e, write);
    if o.deleting && o.finalizer {
      DeletePassShape(RouterAdapter.Ops, TIMERS, o, w.cloud, e, write);
    } else if o.finalizer {
      LivePassShape(RouterAdapter.Ops, TIMERS, o, w.cloud, e, write);
    }
  }

  lemma RouterPassOthersReady(w: World, name: string, e: Env, write: Write, b: string)
    requires Sound(w) && ReadyRoutersLive(w) && name in w.routers && Honest(w, ReconcileRouter(name, e, write))
    requires b in w.routers && b != name && w.routers[b].id != NO_UUID && w.routers[b].IsReady()
    ensures w.routers[b].id in RouterPass(w, name, e, write).world.routers
  {
    var o, other := w.routers[name], w.routers[b];
    assert Tracks(o, RouterLabels(w.cloud), w.cloud.last) && Tracks(other, RouterLabels(w.cloud), w.cloud.last);
    assert other.id in RouterLabels(w.cloud);
    assert other.id != o.id;
    RouterPassHasEffect(w, name, e, write);
    var p := RouterPass(w, name, e, write);
    assert other.id in RouterLabels(p.world);
  }

  lemma NetworkEventKeepsPromise(w: World, name: string, e: Env, write: Write)
    requires Sound(w) && ReadyRoutersLive(w) && name in w.networks && Honest(w, ReconcileNetwork(name, e, write))
    ensures var w' := Next(w, ReconcileNetwork(name, e, write));
            Intact(w'.cloud) && ByRefOnly(w') && ReadyRoutersLive(w')
  {
    NetworkPassIntact(w, name, e, write);
    NetworkPassKeepsSpec(w, name, e, write);
  }

  lemma RouterEventKeepsPromiseIff(w: World, name: string, e: Env, write: Write)
    requires Sound(w) && ReadyRoutersLive(w) && name in w.routers && Honest(w, ReconcileRouter(name, e, write))
    ensures var w' := Next(w, ReconcileRouter(name, e, write));
            Intact(w'.cloud) && ByRefOnly(w') && (ReadyRoutersLive(w')
              <==> !LosesReleaseWrite(w, ReconcileRouter(name, e, write)))
  {
    RouterPassIntact(w, name, e, write);
    RouterPassOwnReady(w, name, e, write);
    var w', p := Next(w, ReconcileRouter(name, e, write)), RouterPass(w, name, e, write);
    forall b | b in w.routers && b != name && w.routers[b].id != NO_UUID && w.routers[b].IsReady()
      ensures w.routers[b].id in w'.cloud.routers
    {
      RouterPassOthersReady(w, name, e, write, b);
    }
    assert w'.routers == Replaced(w.routers, name, p.obj) && w'.cloud == p.world;
    assert p.obj.Some? ==> w'.routers[name] == p.obj.value;
  }

  lemma DropKeepsPromiseIff(w: World, ev: Event)
    requires Sound(w) && ReadyRoutersLive(w) && (ev.DropNetwork? || ev.DropRouter?)
    ensures var w' := Next(w, ev);
            Intact(w'.cloud) && ByRefOnly(w') && (ReadyRoutersLive(w') <==> !BreaksGate(w, ev))
  {
    var w' := Next(w, ev);
    if ev.DropRouter? && Attached(w.cloud, ev.id) {
      assert w' == w;
    }
  }

  lemma UserEventKeepsPromise(w: World, ev: Event)
    requires Sound(w) && ReadyRoutersLive(w) && ByRef(ev)
    requires !ev.ReconcileNetwork? && !ev.ReconcileRouter? && !ev.DropNetwork? && !ev.DropRouter?
    ensures var w' := Next(w, ev); Intact(w'.cloud) && ByRefOnly(w') && ReadyRoutersLive(w')
  {
  }

  /** Each event keeps the gate's promise exactly when it is not a harmful one. */
  lemma GatePromise(w: World, ev: Event)
    requires Sound(w) && ReadyRoutersLive(w) && Honest(w, ev) && ByRef(ev)
    ensures Sound(Next(w, ev))
    ensures ReadyRoutersLive(Next(w, ev)) <==> !BreaksGate(w, ev)
  {
    NextInv(w, ev);
    if ev.ReconcileNetwork? {
      if ev.name in w.networks { NetworkEventKeepsPromise(w, ev.name, ev.env, ev.write); }
    } else if ev.ReconcileRouter? {
      if ev.name in w.routers { RouterEventKeepsPromiseIff(w, ev.name, ev.env, ev.write); }
    } else if ev.DropNetwork? || ev.DropRouter? {
      DropKeepsPromiseIff(w, ev);
    } else {
      UserEventKeepsPromise(w, ev);
    }
  }

  ghost predicate Careful(w: World, ev: Event) { Honest(w, ev) && ByRef(ev) && !BreaksGate(w, ev) }

  /** Runs of honest, by-reference events none of which is harmful. */
  ghost predicate CarefulRun(w: World, run: seq<Event>)
    decreases |run|
  {
    run == [] || (Careful(w, run[0]) && CarefulRun(Next(w, run[0]), run[1..]))
  }

  lemma {:induction false} CarefulRunsStayIntact(w: World, run: seq<Event>)
    requires Sound(w) && ReadyRoutersLive(w) && CarefulRun(w, run)
    ensures Sound(Run(w, run)) && ReadyRoutersLive(Run(w, run))
    decreases |run|
  {
    if run != [] {
      GatePromise(w, run[0]);
      CarefulRunsStayIntact(Next(w, run[0]), run[1..]);
    }
  }

  // ---- The converse

  function RefSpec(router: string): NetworkSpec {
    NetworkSpec("", "zone", [], Some(router), NO_UUID, map[])
  }

  /** A new Network referencing a Router that says Ready but whose router is gone is created attached
      to nothing: two faultless passes. */
  lemma DeadReadyRouterDangles(w: World, router: string) returns (run: seq<Event>)
    requires Sound(w) && router in w.routers
    requires var r := w.routers[router]; r.IsReady() && r.id != NO_UUID && r.id !in w.cloud.routers
    ensures CarefulRun(w, run) && !Intact(Run(w, run).cloud)
  {
    var name := FreshString(w.networks.Keys);
    var uid := FreshString(w.used);
    var add := AddNetwork(name, uid, DeletePolicy, RefSpec(router));
    var pass := ReconcileNetwork(name, CALM, Done);
    RefIsAdded(w, name, uid, router);
    RefIsCreated(Next(Next(w, add), pass), name, router);
    run := [add, pass, pass];
    RunOfThree(w, add, pass, pass);
    CarefulRunOfThree(w, add, pass, pass);
  }

  lemma CarefulRunOfThree(w: World, a: Event, b: Event, c: Event)
    requires Careful(w, a) && Careful(Next(w, a), b) && Careful(Next(Next(w, a), b), c)
    ensures CarefulRun(w, [a, b, c])
  {
    var w1 := Next(w, a);
    var w2 := Next(w1, b);
    assert [a, b, c][1..] == [b, c] && [b, c][1..] == [c] && [c][1..] == [];
    assert CarefulRun(Next(w2, c), []);
    assert CarefulRun(w2, [c]) && CarefulRun(w1, [b, c]);
  }

  /** The first pass over a new Network adds the finalizer only. */
  lemma RefIsAdded(w: World, name: string, uid: string, router: string)
    requires Sound(w) && name !in w.networks && uid !in w.used
    ensures var add, pass := AddNetwork(name, uid, DeletePolicy, RefSpec(router)), ReconcileNetwork(name, CALM, Done);
            var w1 := Next(w, add);
            var w2 := Next(w1, pass);
            && Careful(w, add) && Careful(w1, pass) && Careful(w2, pass)
            && Inv(w2) && name in w2.networks && w2.cloud == w.cloud && w2.routers == w.routers
            && NoneCarries(NetLabels(w2.cloud), uid)
            && w2.networks[name] == NewCR(name, uid, DeletePolicy, RefSpec(router),
                 NetworkStatus(NO_UUID)).(finalizer := true)
  {
    var add, pass := AddNetwork(name, uid, DeletePolicy, RefSpec(router)), ReconcileNetwork(name, CALM, Done);
    var w1 := Next(w, add);
    NextInv(w, add);
    NoneCarriesFresh(w1, name);
    NextInv(w1, pass);
    NoneCarriesFresh(Next(w1, pass), name);
  }

  lemma RefIsCreated(w: World, name: string, router: string)
    requires Inv(w) && name in w.networks && router in w.routers
    requires var r := w.routers[router]; r.IsReady() && r.id != NO_UUID
    requires var o := w.networks[name];
             !o.deleting && o.finalizer && o.id == NO_UUID && o.spec == RefSpec(router)
               && NoneCarries(NetLabels(w.cloud), o.uid)
    ensures var w' := Next(w, ReconcileNetwork(name, CALM, Done));
            && w'.cloud.routers == w.cloud.routers
            && w.cloud.last + 1 in w'.cloud.networks
                 && w'.cloud.networks[w.cloud.last + 1].router == w.routers[router].id
  {
    var o, nw := w.networks[name], NetworkAdapter.NetWorld(w.cloud, w.routers);
    assert NetworkAdapter.Observe(o, nw, CALM) == Outcome(o, nw, Ok(ABSENT)) by {
      assert NO_UUID in w.cloud.networks ==> NO_UUID in NetLabels(w.cloud);
    }
  }

  /** A resource with no finalizer has nothing in the cloud; any pick is honest for it. */
  lemma NoneCarriesFresh(w: World, name: string)
    requires Inv(w) && name in w.networks && w.networks[name].id == NO_UUID
    requires w.networks[name].finalizer ==> NoneCarries(NetLabels(w.cloud), w.networks[name].uid)
    ensures NoneCarries(NetLabels(w.cloud), w.networks[name].uid)
    ensures Honest(w, ReconcileNetwork(name, CALM, Done))
  {
    var o := w.networks[name];
    assert Tracks(o, NetLabels(w.cloud), w.cloud.last);
    forall k ensures !NetworkAdapter.Carries(w.cloud, k, o.uid) {
      if k in w.cloud.networks { assert k in NetLabels(w.cloud); }
    }
  }

  /** The exact condition. A state is safe - no careful continuation ever leaves a network naming a
      missing router - if and only if every Router that says Ready names a live router. */
  lemma SafeIffReadyRoutersLive(w: World)
    requires Sound(w)
    ensures ReadyRoutersLive(w) <==> forall run :: CarefulRun(w, run) ==> Intact(Run(w, run).cloud)
  {
    if ReadyRoutersLive(w) {
      forall run | CarefulRun(w, run) ensures Intact(Run(w, run).cloud) {
        CarefulRunsStayIntact(w, run);
      }
    } else {
      var a :| a in w.routers && w.routers[a].id != NO_UUID && w.routers[a].IsReady()
          && w.routers[a].id !in w.cloud.routers;
      var run := DeadReadyRouterDangles(w, a);
    }
  }

  /** So for one event: it leaves the world safe if and only if it is not a harmful one. */
  lemma SafeAfterIffGateKept(w: World, ev: Event)
    requires Sound(w) && ReadyRoutersLive(w) && Honest(w, ev) && ByRef(ev)
    ensures !BreaksGate(w, ev) <==> forall run :: CarefulRun(Next(w, ev), run) ==> Intact(Run(Next(w, ev), run).cloud)
  {
    GatePromise(w, ev);
    SafeIffReadyRoutersLive(Next(w, ev));
  }
}
