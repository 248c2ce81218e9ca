/** Teardown in any order: a Router waits while networks are attached to it, and everything marked
    for deletion goes within two rounds. */
module Teardown {
  import opened Support
  import opened Reconciler
  import opened NetworkCloud
  import opened NetworkTypes
  import opened Ownership
  import opened PassShape
  import opened Pair
  import NetworkAdapter
  import RouterAdapter

  ghost predicate Doomed<S, X>(o: CR<S, X>) {
    o.deleting && o.finalizer && o.policy == DeletePolicy
  }

  ghost predicate AllMarked(w: World) {
    && (forall a :: a in w.networks ==> Doomed(w.networks[a]))
    && (forall a :: a in w.routers ==> Doomed(w.routers[a]))
  }

  /** A reconcile whose delete call and write go through. */
  predicate Calm(ev: Event) {
    (ev.ReconcileNetwork? || ev.ReconcileRouter?) && ev.env.At(DeleteCall).Works? && ev.write == Done
  }

  ghost predicate CalmRun(run: seq<Event>) { forall i :: 0 <= i < |run| ==> Calm(run[i]) }

  ghost predicate VisitsNetwork(
    run: seq<Event>, a: string) { exists i :: 0 <= i < |run| && run[i].ReconcileNetwork? && run[i].name == a }

  ghost predicate VisitsRouter(
    run: seq<Event>, a: string) { exists i :: 0 <= i < |run| && run[i].ReconcileRouter? && run[i].name == a }

  /** A round visits every resource at least once, in any order. */
  ghost predicate Round(w: World, run: seq<Event>) {
    && CalmRun(run)
    && (forall a :: a in w.networks ==> VisitsNetwork(run, a))
    && (forall a :: a in w.routers ==> VisitsRouter(run, a))
  }

  ghost predicate RecordedBySomeone(w: World, k: Uuid) {
    exists b :: b in w.networks && w.networks[b].id == k
  }

  /** The router of a, still in the cloud, is held by network k. */
  predicate HeldBy(w: World, a: string, k: Uuid) {
    && a in w.routers && w.routers[a].id != NO_UUID && w.routers[a].id in w.cloud.routers
    && k in w.cloud.networks && w.cloud.networks[k].router == w.routers[a].id
  }

  /** Every network attached to a router that is to go is itself to go. */
  ghost predicate AllTracked(w: World) {
    forall a, k :: HeldBy(w, a, k) ==> RecordedBySomeone(w, k)
  }

  /** Where a teardown that began in w0 may be: on the networks' side... */
  ghost predicate NetworksDown(w0: World, w: World) {
    && (forall a :: a in w.networks ==> a in w0.networks && w.networks[a] == w0.networks[a])
    && (forall k :: k in w.cloud.networks ==> k in w0.cloud.networks && w.cloud.networks[k] == w0.cloud.networks[k])
    && (forall k :: k in w0.cloud.networks && !RecordedBySomeone(w0, k) ==> k in w.cloud.networks)
    && (forall a :: a in w0.networks && a !in w.networks ==>
         w0.networks[a].id == NO_UUID || w0.networks[a].id !in w.cloud.networks)
  }

  /** ...and on the routers'. */
  ghost predicate RoutersDown(w0: World, w: World) {
    && (forall a :: a in w.routers ==> a in w0.routers && w.routers[a].id == w0.routers[a].id && Doomed(w.routers[a]))
    && (forall a :: a in w0.routers && a !in w.routers ==>
         w0.routers[a].id == NO_UUID || w0.routers[a].id !in w.cloud.routers)
    && (forall a :: a in w.routers && w.routers[a].id in w0.cloud.routers ==> w.routers[a].id in w.cloud.routers)
    && w.cloud.routers.Keys <= w0.cloud.routers.Keys
  }

  ghost predicate Down(w0: World, w: World) { NetworksDown(w0, w) && RoutersDown(w0, w) }

  ghost predicate Start(w0: World) { Inv(w0) && AllMarked(w0) }

  lemma NetworkGoes(w: World, a: string, e: Env)
    requires a in w.networks && Doomed(w.networks[a]) && e.At(DeleteCall).Works?
    ensures var w' := Next(w, ReconcileNetwork(a, e, Done));
            && w'.networks == w.networks - {a} && w'.routers == w.routers && w'.cloud.routers == w.cloud.routers
            && w'.cloud.networks == if w.networks[a].id == NO_UUID then w.cloud.networks
                 else w.cloud.networks - {w.networks[a].id}
  {
    DeletePassShape(NetworkAdapter.Ops, TIMERS, w.networks[a], NetworkAdapter.NetWorld(w.cloud, w.routers), e, Done);
  }

  /** The router goes unless networks are attached; then its resource waits, marked Deleting. */
  lemma RouterGoesOrWaits(w: World, a: string, e: Env)
    requires a in w.routers && Doomed(w.routers[a]) && e.At(DeleteCall).Works?
    ensures var o := w.routers[a];
            var w' := Next(w, ReconcileRouter(a, e, Done));
            && w'.networks == w.networks && w'.cloud.networks == w.cloud.networks
            && if o.id in w.cloud.routers && o.id != NO_UUID && Attached(w.cloud, o.id)
               then w'.routers == w.routers[a := o.SetReady(false, Deleting)] && w'.cloud == w.cloud
               else w'.routers == w.routers - {a}
                    && w'.cloud.routers == if o.id == NO_UUID then w.cloud.routers else w.cloud.routers - {o.id}
  {
    DeletePassShape(RouterAdapter.Ops, TIMERS, w.routers[a], w.cloud, e, Done);
  }

  lemma RouterIdsDistinct(w0: World, a: string, b: string)
    requires Inv(w0) && a in w0.routers && b in w0.routers && a != b
    requires w0.routers[a].id != NO_UUID && w0.routers[a].id == w0.routers[b].id
    ensures w0.routers[a].id !in w0.cloud.routers
  {
    var res := RouterLabels(w0.cloud);
    assert forall k :: k in w0.cloud.routers <==> k in res;
    assert Tracks(w0.routers[a], res, w0.cloud.last) && Tracks(w0.routers[b], res, w0.cloud.last);
  }

  lemma RouterStepDown(w0: World, w: World, a: string, e: Env)
    requires Start(w0) && Down(w0, w) && a in w.routers && e.At(DeleteCall).Works?
    ensures Down(w0, Next(w, ReconcileRouter(a, e, Done)))
    ensures Next(w, ReconcileRouter(a, e, Done)).routers.Keys <= w.routers.Keys
  {
    RouterGoesOrWaits(w, a, e);
    var w' := Next(w, ReconcileRouter(a, e, Done));
    assert NetworksDown(w0, w');
    forall b | b in w'.routers && w'.routers[b].id in w0.cloud.routers ensures w'.routers[b].id in w'.cloud.routers {
      OtherRouterStays(w0, w, a, e, b);
    }
  }

  lemma OtherRouterStays(w0: World, w: World, a: string, e: Env, b: string)
    requires Start(w0) && Down(w0, w) && a in w.routers && e.At(DeleteCall).Works?
    requires var w' := Next(w, ReconcileRouter(a, e, Done)); b in w'.routers && w'.routers[b].id in w0.cloud.routers
    ensures var w' := Next(w, ReconcileRouter(a, e, Done)); w'.routers[b].id in w'.cloud.routers
  {
    RouterGoesOrWaits(w, a, e);
    if b != a && w.routers[b].id == w.routers[a].id && w.routers[b].id != NO_UUID {
      RouterIdsDistinct(w0, b, a);
    }
  }

  lemma NetworkStepDown(w0: World, w: World, a: string, e: Env)
    requires Start(w0) && Down(w0, w) && a in w.networks && e.At(DeleteCall).Works?
    ensures Down(w0, Next(w, ReconcileNetwork(a, e, Done)))
    ensures Next(w, ReconcileNetwork(a, e, Done)).networks.Keys <= w.networks.Keys
  {
    NetworkGoes(w, a, e);
    var w' := Next(w, ReconcileNetwork(a, e, Done));
    assert RecordedBySomeone(w0, w.networks[a].id);
    assert RoutersDown(w0, w');
  }

  lemma StepDown(w0: World, w: World, ev: Event)
    requires Start(w0) && Down(w0, w) && Calm(ev)
    ensures Down(w0, Next(w, ev))
    ensures Next(w, ev).networks.Keys <= w.networks.Keys && Next(w, ev).routers.Keys <= w.routers.Keys
  {
    if ev.ReconcileNetwork? && ev.name in w.networks {
      NetworkStepDown(w0, w, ev.name, ev.env);
      NetworkGoes(w, ev.name, ev.env);
    } else if ev.ReconcileRouter? && ev.name in w.routers {
      RouterStepDown(w0, w, ev.name, ev.env);
      RouterGoesOrWaits(w, ev.name, ev.env);
    }
  }

  /** A visited network is gone afterwards, whatever else the run does. */
  lemma {:induction false} VisitedNetworksGo(w0: World, w: World, run: seq<Event>)
    requires Start(w0) && Down(w0, w) && CalmRun(run)
    ensures Down(w0, Run(w, run)) && Run(w, run).networks.Keys <= w.networks.Keys
        && Run(w, run).routers.Keys <= w.routers.Keys
    ensures forall a :: a in Run(w, run).networks ==> !VisitsNetwork(run, a)
    decreases |run|
  {
    if run != [] {
      var w1 := Next(w, run[0]);
      StepDown(w0, w, run[0]);
      VisitedNetworksGo(w0, w1, run[1..]);
      forall a | a in Run(w, run).networks ensures !VisitsNetwork(run, a) {
        if run[0].ReconcileNetwork? && run[0].name == a && a in w.networks {
          NetworkGoes(w, a, run[0].env);
        }
        assert !VisitsNetwork(run[1..], a);
        forall i | 0 <= i < |run| ensures !(run[i].ReconcileNetwork? && run[i].name == a) {
          if i > 0 { assert run[i] == run[1..][i - 1]; }
        }
      }
    }
  }

  lemma NothingAttached(w0: World, w: World, a: string)
    requires Start(w0) && Down(w0, w) && w.networks == map[] && AllTracked(w0)
    requires a in w.routers && w.routers[a].id != NO_UUID && w.routers[a].id in w.cloud.routers
    ensures !Attached(w.cloud, w.routers[a].id)
  {
    forall k | k in w.cloud.networks ensures w.cloud.networks[k].router != w.routers[a].id {
      assert k in NetLabels(w0.cloud);
      assert !RecordedBySomeone(w0, k);
      assert !HeldBy(w0, a, k);
    }
  }

  lemma FreeRouterGoes(w0: World, w: World, a: string, e: Env)
    requires Start(w0) && Down(w0, w) && w.networks == map[] && AllTracked(w0) && a in w.routers
        && e.At(DeleteCall).Works?
    ensures a !in Next(w, ReconcileRouter(a, e, Done)).routers
  {
    RouterGoesOrWaits(w, a, e);
    if w.routers[a].id != NO_UUID && w.routers[a].id in w.cloud.routers {
      NothingAttached(w0, w, a);
    }
  }

  lemma VisitedLater(run: seq<Event>, a: string)
    requires run != [] && VisitsRouter(run, a)
    ensures (run[0].ReconcileRouter? && run[0].name == a) || VisitsRouter(run[1..], a)
  {
    var i :| 0 <= i < |run| && run[i].ReconcileRouter? && run[i].name == a;
    if i > 0 { assert run[1..][i - 1] == run[i]; }
  }

  /** Once every network is gone, so is every visited router. */
  lemma {:induction false} VisitedRoutersGo(w0: World, w: World, run: seq<Event>, a: string)
    requires Start(w0) && Down(w0, w) && CalmRun(run) && w.networks == map[] && AllTracked(w0)
    requires VisitsRouter(run, a) || a !in w.routers
    ensures a !in Run(w, run).routers
    decreases |run|
  {
    if run != [] {
      var w1 := Next(w, run[0]);
      StepDown(w0, w, run[0]);
      if VisitsRouter(run, a) { VisitedLater(run, a); }
      if run[0].ReconcileRouter? && run[0].name == a && a in w.routers {
        FreeRouterGoes(w0, w, a, run[0].env);
      }
      assert w1.networks == map[];
      VisitedRoutersGo(w0, w1, run[1..], a);
    }
  }

  /** A router held by a network nobody is deleting is never released. */
  lemma {:induction false} HeldRouterStays(w0: World, w: World, run: seq<Event>, a: string, k: Uuid)
    requires Start(w0) && Down(w0, w) && CalmRun(run)
    requires a in w.routers && HeldBy(w0, a, k) && !RecordedBySomeone(w0, k)
    ensures a in Run(w, run).routers
    decreases |run|
  {
    if run != [] {
      var w1 := Next(w, run[0]);
      StepDown(w0, w, run[0]);
      if run[0].ReconcileRouter? && run[0].name in w.routers {
        RouterGoesOrWaits(w, run[0].name, run[0].env);
        assert k in w.cloud.networks && Attached(w.cloud, w.routers[a].id);
      } else if run[0].ReconcileNetwork? && run[0].name in w.networks {
        NetworkGoes(w, run[0].name, run[0].env);
      }
      HeldRouterStays(w0, w1, run[1..], a, k);
    }
  }

  ghost predicate AllGone(w0: World, w: World) {
    && w.networks == map[] && w.routers == map[]
    && (forall a :: a in w0.networks && w0.networks[a].id != NO_UUID ==> w0.networks[a].id !in w.cloud.networks)
    && (forall a :: a in w0.routers && w0.routers[a].id != NO_UUID ==> w0.routers[a].id !in w.cloud.routers)
  }

  /** Two rounds, each in any order, remove every resource of both kinds and all their cloud resources
      - if and only if every network attached to one of the routers is being deleted too. */
  lemma TwoRoundsTearDown(w: World, first: seq<Event>, second: seq<Event>)
    requires Start(w) && Round(w, first) && Round(w, second)
    ensures AllGone(w, Run(w, first + second)) <==> AllTracked(w)
  {
    RunAppend(w, first, second);
    assert Down(w, w);
    var w1 := Run(w, first);
    VisitedNetworksGo(w, w, first);
    assert w1.networks == map[];
    var w2 := Run(w1, second);
    VisitedNetworksGo(w, w1, second);
    if AllTracked(w) {
      forall a ensures a !in w2.routers {
        if a in w1.routers {
          assert VisitsRouter(second, a);
        }
        VisitedRoutersGo(w, w1, second, a);
      }
      assert w2.networks == map[] && w2.routers == map[];
    } else {
      var a, k :| HeldBy(w, a, k) && !RecordedBySomeone(w, k);
      CalmAppend(first, second);
      HeldRouterStays(w, w, first + second, a, k);
    }
  }

  lemma CalmAppend(first: seq<Event>, second: seq<Event>)
    requires CalmRun(first) && CalmRun(second)
    ensures CalmRun(first + second)
  {
  }
}
