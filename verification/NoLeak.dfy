/** No leak: for each uid, which events leave a cloud resource behind with no owner left. */
module NoLeak {
  import opened Support
  import opened Labels
  import opened Reconciler
  import opened NetworkCloud
  import opened NetworkTypes
  import opened Ownership
  import opened PassShape
  import opened Pair
  import opened PairSafety
  import NetworkAdapter
  import RouterAdapter

  // ---- For any kind

  ghost predicate HasOwner<S(!new), X(!new)>(objs: map<string, CR<S, X>>, u: string) {
    exists a :: a in objs && objs[a].uid == u
  }

  /** If a cloud resource carries uid u, a stored resource has it. */
  ghost predicate Kept<S(!new), X(!new)>(objs: map<string, CR<S, X>>, res: Labelled, u: string) {
    NoneCarries(res, u) || HasOwner(objs, u)
  }

  /** Only its owner's pass puts a uid on a resource or takes it off one. */
  lemma EffectTouchesOwnUID<S, X>(
    o: CR<S, X>, after: Option<CR<S, X>>, res: Labelled, used: set<string>, last: nat, res': Labelled, last': nat,
    u: string)
    requires WellLabelled(res, used, last) && Tracks(o, res, last) && u != o.uid
    requires Effect(o, after, res, last, res', last')
    ensures NoneCarries(res', u) <==> NoneCarries(res, u)
  {
    if Adds(o, after, res, last, res', last') {
      var labels :| OnlyUID(labels, o.uid) && res' == res[last' := labels];
      assert forall k :: k in res ==> k in res' && res'[k] == res[k];
    } else if Rewrites(o, after, res, last, res', last') {
      var j, labels :| j in res && HasUID(res[j], o.uid) && OnlyUID(labels, o.uid) && res' == res[j := labels];
      assert forall k :: k in res && k != j ==> k in res' && res'[k] == res[k];
    } else if Removes(o, after, res, last, res', last') {
      assert forall k :: k in res && k != o.id ==> k in res' && res'[k] == res[k];
    }
  }

  /** A pass loses the owner of a carried uid exactly when it releases that owner while a resource still
      carries its uid. */
  lemma EffectKeepsOwnerIff<S(!new), X(!new)>(
    objs: map<string, CR<S, X>>, name: string, after: Option<CR<S, X>>,
    res: Labelled, used: set<string>, last: nat, res': Labelled, last': nat, u: string)
    requires Owned(objs, res, used, last) && name in objs && Kept(objs, res, u)
    requires Effect(objs[name], after, res, last, res', last')
    ensures Kept(Replaced(objs, name, after), res', u)
        <==> !(after.None? && objs[name].uid == u && !NoneCarries(res', u))
  {
    var o, objs' := objs[name], Replaced(objs, name, after);
    if u != o.uid {
      EffectTouchesOwnUID(o, after, res, used, last, res', last', u);
      if a :| a in objs && objs[a].uid == u {
        assert a in objs' && objs'[a].uid == u;
      }
    } else if after.Some? {
      assert name in objs' && objs'[name].uid == u;
    }
  }

  /** What has lost its owner never gets one again. */
  lemma EffectKeepsStray<S(!new), X(!new)>(
    objs: map<string, CR<S, X>>, name: string, after: Option<CR<S, X>>,
    res: Labelled, used: set<string>, last: nat, res': Labelled, last': nat, u: string)
    requires Owned(objs, res, used, last) && name in objs && !Kept(objs, res, u)
    requires Effect(objs[name], after, res, last, res', last')
    ensures !Kept(Replaced(objs, name, after), res', u)
  {
    EffectTouchesOwnUID(objs[name], after, res, used, last, res', last', u);
  }

  /** A delete request drops only owners of nothing. */
  lemma MarkKeepsOwnerIff<S(!new), X(!new)>(
    objs: map<string, CR<S, X>>, name: string, res: Labelled, used: set<string>, last: nat, u: string)
    requires Owned(objs, res, used, last)
    ensures Kept(Marked(objs, name), res, u) <==> Kept(objs, res, u)
  {
    var objs' := Marked(objs, name);
    if name in objs { assert Tracks(objs[name], res, last); }
    if a :| a in objs && objs[a].uid == u && a in objs' {
      assert objs'[a].uid == u;
    }
    if a :| a in objs' && objs'[a].uid == u {
      assert objs[a].uid == u;
    }
  }

  lemma AddKeepsOwnerIff<S(!new), X(!new)>(
    objs: map<string, CR<S, X>>, name: string, o: CR<S, X>, res: Labelled, used: set<string>, last: nat, u: string)
    requires Owned(objs, res, used, last) && name !in objs && o.uid !in used
    ensures Kept(objs[name := o], res, u) <==> Kept(objs, res, u)
  {
    if a :| a in objs && objs[a].uid == u {
      assert objs[name := o][a].uid == u;
    }
  }

  lemma EditKeepsOwnerIff<S(!new), X(!new)>(
    objs: map<string, CR<S, X>>, name: string, o: CR<S, X>, res: Labelled, u: string)
    requires name in objs && o.uid == objs[name].uid
    ensures Kept(objs[name := o], res, u) <==> Kept(objs, res, u)
  {
    if a :| a in objs && objs[a].uid == u {
      assert objs[name := o][a].uid == u;
    }
  }

  // ---- Over runs

  /** Event by event, what is kept stays kept exactly when it is not abandoned, and what is not kept stays so
      unless the event ends the leak. */
  ghost predicate StepIff(kept: World -> bool, abandons: (World, Event) -> bool, ends: Event -> bool) {
    forall w, ev :: Inv(w) && Honest(w, ev) ==>
      && (kept(w) ==> (kept(Next(w, ev)) <==> !abandons(w, ev)))
      && (!kept(w) && !ends(ev) ==> !kept(Next(w, ev)))
  }

  ghost predicate Never(abandons: (World, Event) -> bool, w: World, run: seq<Event>)
    decreases |run|
  {
    run == [] || (!abandons(w, run[0]) && Never(abandons, Next(w, run[0]), run[1..]))
  }

  predicate NoneEnds(ends: Event -> bool, run: seq<Event>) { forall i :: 0 <= i < |run| ==> !ends(run[i]) }

  lemma {:induction false} StrayStays(
    kept: World -> bool, abandons: (World, Event) -> bool, ends: Event -> bool, w: World, run: seq<Event>)
    requires StepIff(kept, abandons, ends) && Inv(w) && HonestRun(w, run) && !kept(w) && NoneEnds(ends, run)
    ensures !kept(Run(w, run))
    decreases |run|
  {
    if run != [] {
      NextInv(w, run[0]);
      StrayStays(kept, abandons, ends, Next(w, run[0]), run[1..]);
    }
  }

  lemma {:induction false} RunKeptIff(
    kept: World -> bool, abandons: (World, Event) -> bool, ends: Event -> bool, w: World, run: seq<Event>)
    requires StepIff(kept, abandons, ends) && Inv(w) && HonestRun(w, run) && kept(w)
    ensures Never(abandons, w, run) ==> kept(Run(w, run))
    ensures NoneEnds(ends, run) ==> (kept(Run(w, run)) <==> Never(abandons, w, run))
    decreases |run|
  {
    if run != [] {
      var w1, rest := Next(w, run[0]), run[1..];
      NextInv(w, run[0]);
      if kept(w1) {
        RunKeptIff(kept, abandons, ends, w1, rest);
      } else if NoneEnds(ends, run) {
        StrayStays(kept, abandons, ends, w1, rest);
      }
    }
  }

  // ---- Networks

  ghost predicate NetworkKept(w: World, u: string) { Kept(w.networks, NetLabels(w.cloud), u) }

  ghost predicate Releases(w: World, ev: Event) {
    ev.ReconcileNetwork? && ev.name in w.networks && NetworkPass(w, ev.name, ev.env, ev.write).obj.None?
  }

  /** The Orphan policy makes no cloud call at all. */
  lemma OrphanTouchesNothing(w: World, name: string, e: Env, write: Write)
    requires name in w.networks && w.networks[name].deleting && w.networks[name].policy == OrphanPolicy
    ensures NetworkPass(w, name, e, write).world.cloud == w.cloud
  {
    if w.networks[name].finalizer {
      DeletePassShape(NetworkAdapter.Ops, TIMERS, w.networks[name], NetworkAdapter.NetWorld(w.cloud, w.routers), e,
        write);
    }
  }

  /** Delete with no recorded identity is a silent no-op, so a releasing pass leaves nothing behind
      exactly when there was nothing, or the policy is Delete and the identity was recorded. */
  lemma ReleaseLeavesNothingIff(w: World, ev: Event)
    requires Inv(w) && ev.ReconcileNetwork? && ev.name in w.networks && Honest(w, ev)
    ensures Releases(w, ev) ==>
              var o := w.networks[ev.name];
              NoneCarries(NetLabels(Next(w, ev).cloud), o.uid) <==>
                NoneCarries(NetLabels(w.cloud), o.uid) || (o.policy == DeletePolicy && o.id != NO_UUID)
  {
    var o, nw := w.networks[ev.name], NetworkAdapter.NetWorld(w.cloud, w.routers);
    assert Tracks(o, NetLabels(w.cloud), w.cloud.last);
    if o.deleting && o.finalizer {
      DeletePassShape(NetworkAdapter.Ops, TIMERS, o, nw, ev.env, ev.write);
      var c' := Next(w, ev).cloud;
      if o.id == NO_UUID || o.policy == OrphanPolicy {
        assert c' == w.cloud;
      } else if Releases(w, ev) {
        forall k | k in NetLabels(c') ensures !HasUID(NetLabels(c')[k], o.uid) {
          assert k in c'.networks && k in w.cloud.networks && k != o.id;
          assert NetLabels(c')[k] == NetLabels(w.cloud)[k];
        }
      }
    } else if o.finalizer {
      LivePassShape(NetworkAdapter.Ops, TIMERS, o, nw, ev.env, ev.write);
    }
  }

  /** A pass over the owner of u, which is being deleted under Orphan or with no identity on record, goes
      through while a network carries u. */
  ghost predicate AbandonsNetwork(w: World, ev: Event, u: string) {
    && ev.ReconcileNetwork? && ev.name in w.networks && !ev.write.Rejected?
    && var o := w.networks[ev.name];
       && o.uid == u && o.deleting && o.finalizer && (o.policy == OrphanPolicy || o.id == NO_UUID)
       && exists k :: NetworkAdapter.Carries(w.cloud, k, u)
  }

  lemma NetworkCarriedIff(c: Cloud, u: string)
    ensures (exists k :: NetworkAdapter.Carries(c, k, u)) <==> !NoneCarries(NetLabels(c), u)
  {
    if k :| NetworkAdapter.Carries(c, k, u) {
      assert k in NetLabels(c);
    }
    if k :| k in NetLabels(c) && HasUID(NetLabels(c)[k], u) {
      assert NetworkAdapter.Carries(c, k, u);
    }
  }

  /** Such a pass is exactly one that releases its resource with something left under its uid. */
  lemma AbandonsNetworkIff(w: World, ev: Event, u: string)
    requires Inv(w) && Honest(w, ev) && ev.ReconcileNetwork? && ev.name in w.networks
    ensures AbandonsNetwork(w, ev, u) <==>
              && Releases(w, ev) && w.networks[ev.name].uid == u && !NoneCarries(NetLabels(Next(w, ev).cloud), u)
  {
    var o, nw := w.networks[ev.name], NetworkAdapter.NetWorld(w.cloud, w.routers);
    ReleaseLeavesNothingIff(w, ev);
    NetworkCarriedIff(w.cloud, u);
    if o.deleting && o.finalizer {
      DeletePassShape(NetworkAdapter.Ops, TIMERS, o, nw, ev.env, ev.write);
    } else if o.finalizer {
      LivePassShape(NetworkAdapter.Ops, TIMERS, o, nw, ev.env, ev.write);
    }
  }

  lemma NetworkReconcileKeepsIff(w: World, ev: Event, u: string)
    requires Inv(w) && Honest(w, ev) && ev.ReconcileNetwork?
    ensures NetworkKept(w, u) ==> (NetworkKept(Next(w, ev), u) <==> !AbandonsNetwork(w, ev, u))
    ensures !NetworkKept(w, u) ==> !NetworkKept(Next(w, ev), u)
  {
    if ev.name in w.networks {
      var p := NetworkPass(w, ev.name, ev.env, ev.write);
      NetworkPassHasEffect(w, ev.name, ev.env, ev.write);
      if NetworkKept(w, u) {
        EffectKeepsOwnerIff(w.networks, ev.name, p.obj, NetLabels(w.cloud), w.used, w.cloud.last,
          NetLabels(p.world.cloud), p.world.cloud.last, u);
        AbandonsNetworkIff(w, ev, u);
      } else {
        EffectKeepsStray(w.networks, ev.name, p.obj, NetLabels(w.cloud), w.used, w.cloud.last,
          NetLabels(p.world.cloud), p.world.cloud.last, u);
      }
    }
  }

  /** Every event keeps u's network owned exactly when it does not abandon it; and only a deletion behind
      the operator's back ends a leak. */
  lemma NetworkKeptIff(w: World, ev: Event, u: string)
    requires Inv(w) && Honest(w, ev)
    ensures NetworkKept(w, u) ==> (NetworkKept(Next(w, ev), u) <==> !AbandonsNetwork(w, ev, u))
    ensures !NetworkKept(w, u) && !ev.DropNetwork? ==> !NetworkKept(Next(w, ev), u)
  {
    var w', res := Next(w, ev), NetLabels(w.cloud);
    match ev
    case ReconcileNetwork(_, _, _) => NetworkReconcileKeepsIff(w, ev, u);
    case ReconcileRouter(name, e, write) =>
      if name in w.routers { RouterPassHasEffect(w, name, e, write); }
    case AddNetwork(name, uid, _, _) =>
      if name !in w.networks && uid !in w.used {
        AddKeepsOwnerIff(w.networks, name, w'.networks[name], res, w.used, w.cloud.last, u);
      }
    case EditNetwork(name, _, _) =>
      if name in w.networks { EditKeepsOwnerIff(w.networks, name, w'.networks[name], res, u); }
    case MarkNetwork(name) => MarkKeepsOwnerIff(w.networks, name, res, w.used, w.cloud.last, u);
    case DropNetwork(id) => assert forall k :: k in NetLabels(w'.cloud) ==>
      k in res && NetLabels(w'.cloud)[k] == res[k];
    case DropRouter(id) => assert NetLabels(w'.cloud) == res;
    case AddRouter(_, _, _, _) =>
    case EditRouter(_, _, _) =>
    case MarkRouter(_) =>
  }

  ghost predicate NeverAbandonsNetwork(w: World, run: seq<Event>, u: string) {
    Never((w: World, ev: Event) => AbandonsNetwork(w, ev, u), w, run)
  }

  /** No leak over runs, uid by uid: a network the operator made has an owner at the end of a run, whatever
      failed and whatever became of other resources, if no event of the run abandoned it - and, unless
      networks were deleted behind the operator's back, only if. */
  lemma NetworkLeaksIffAbandoned(w: World, run: seq<Event>, u: string)
    requires Init(w) && HonestRun(w, run) && u !in w.used
    ensures NeverAbandonsNetwork(w, run, u) ==> NetworkKept(Run(w, run), u)
    ensures NoneEnds((ev: Event) => ev.DropNetwork?, run) ==>
              (NetworkKept(Run(w, run), u) <==> NeverAbandonsNetwork(w, run, u))
  {
    InitInv(w);
    var kept, abandons := (w: World) => NetworkKept(w, u), (w: World, ev: Event) => AbandonsNetwork(w, ev, u);
    var ends := (ev: Event) => ev.DropNetwork?;
    forall w, ev | Inv(w) && Honest(w, ev)
      ensures kept(w) ==> (kept(Next(w, ev)) <==> !abandons(w, ev))
      ensures !kept(w) && !ends(ev) ==> !kept(Next(w, ev))
    {
      NetworkKeptIff(w, ev, u);
    }
    RunKeptIff(kept, abandons, ends, w, run);
  }

  // ---- Routers

  ghost predicate RouterKept(w: World, u: string) { Kept(w.routers, RouterLabels(w.cloud), u) }

  ghost predicate ReleasesRouter(w: World, ev: Event) {
    ev.ReconcileRouter? && ev.name in w.routers && RouterPass(w, ev.name, ev.env, ev.write).obj.None?
  }

  /** Delete with no recorded identity is a silent no-op, so a releasing pass leaves nothing behind
      exactly when there was nothing, or the policy is Delete and the identity was recorded. */
  lemma RouterReleaseLeavesNothingIff(w: World, ev: Event)
    requires Inv(w) && ev.ReconcileRouter? && ev.name in w.routers && Honest(w, ev)
    ensures ReleasesRouter(w, ev) ==>
              var o := w.routers[ev.name];
              NoneCarries(RouterLabels(Next(w, ev).cloud), o.uid) <==>
                NoneCarries(RouterLabels(w.cloud), o.uid) || (o.policy == DeletePolicy && o.id != NO_UUID)
  {
    var o, nw := w.routers[ev.name], w.cloud;
    assert Tracks(o, RouterLabels(w.cloud), w.cloud.last);
    if o.deleting && o.finalizer {
      DeletePassShape(RouterAdapter.Ops, TIMERS, o, nw, ev.env, ev.write);
      var c' := Next(w, ev).cloud;
      if o.id == NO_UUID || o.policy == OrphanPolicy {
        assert c' == w.cloud;
      } else if ReleasesRouter(w, ev) {
        forall k | k in RouterLabels(c') ensures !HasUID(RouterLabels(c')[k], o.uid) {
          assert k in c'.routers && k in w.cloud.routers && k != o.id;
          assert RouterLabels(c')[k] == RouterLabels(w.cloud)[k];
        }
      }
    } else if o.finalizer {
      LivePassShape(RouterAdapter.Ops, TIMERS, o, nw, ev.env, ev.write);
    }
  }

  /** A pass over the owner of u, which is being deleted under Orphan or with no identity on record, goes
      through while a router carries u. */
  ghost predicate AbandonsRouter(w: World, ev: Event, u: string) {
    && ev.ReconcileRouter? && ev.name in w.routers && !ev.write.Rejected?
    && var o := w.routers[ev.name];
       && o.uid == u && o.deleting && o.finalizer && (o.policy == OrphanPolicy || o.id == NO_UUID)
       && exists k :: RouterAdapter.Carries(w.cloud, k, u)
  }

  lemma RouterCarriedIff(c: Cloud, u: string)
    ensures (exists k :: RouterAdapter.Carries(c, k, u)) <==> !NoneCarries(RouterLabels(c), u)
  {
    if k :| RouterAdapter.Carries(c, k, u) {
      assert k in RouterLabels(c);
    }
    if k :| k in RouterLabels(c) && HasUID(RouterLabels(c)[k], u) {
      assert RouterAdapter.Carries(c, k, u);
    }
  }

  lemma AbandonsRouterIff(w: World, ev: Event, u: string)
    requires Inv(w) && Honest(w, ev) && ev.ReconcileRouter? && ev.name in w.routers
    ensures AbandonsRouter(w, ev, u) <==>
              && ReleasesRouter(w, ev) && w.routers[ev.name].uid == u
                   && !NoneCarries(RouterLabels(Next(w, ev).cloud), u)
  {
    var o := w.routers[ev.name];
    RouterReleaseLeavesNothingIff(w, ev);
    RouterCarriedIff(w.cloud, u);
    if o.deleting && o.finalizer {
      DeletePassShape(RouterAdapter.Ops, TIMERS, o, w.cloud, ev.env, ev.write);
    } else if o.finalizer {
      LivePassShape(RouterAdapter.Ops, TIMERS, o, w.cloud, ev.env, ev.write);
    }
  }

  lemma RouterReconcileKeepsIff(w: World, ev: Event, u: string)
    requires Inv(w) && Honest(w, ev) && ev.ReconcileRouter?
    ensures RouterKept(w, u) ==> (RouterKept(Next(w, ev), u) <==> !AbandonsRouter(w, ev, u))
    ensures !RouterKept(w, u) ==> !RouterKept(Next(w, ev), u)
  {
    if ev.name in w.routers {
      var p := RouterPass(w, ev.name, ev.env, ev.write);
      RouterPassHasEffect(w, ev.name, ev.env, ev.write);
      if RouterKept(w, u) {
        EffectKeepsOwnerIff(w.routers, ev.name, p.obj, RouterLabels(w.cloud), w.used, w.cloud.last,
          RouterLabels(p.world), p.world.last, u);
        AbandonsRouterIff(w, ev, u);
      } else {
        EffectKeepsStray(w.routers, ev.name, p.obj, RouterLabels(w.cloud), w.used, w.cloud.last,
          RouterLabels(p.world), p.world.last, u);
      }
    }
  }

  /** Every event keeps u's router owned exactly when it does not abandon it; and only a deletion behind
      the operator's back ends a leak. */
  lemma RouterKeptIff(w: World, ev: Event, u: string)
    requires Inv(w) && Honest(w, ev)
    ensures RouterKept(w, u) ==> (RouterKept(Next(w, ev), u) <==> !AbandonsRouter(w, ev, u))
    ensures !RouterKept(w, u) && !ev.DropRouter? ==> !RouterKept(Next(w, ev), u)
  {
    var w', res := Next(w, ev), RouterLabels(w.cloud);
    match ev
    case ReconcileRouter(_, _, _) => RouterReconcileKeepsIff(w, ev, u);
    case ReconcileNetwork(name, e, write) =>
      if name in w.networks { NetworkPassHasEffect(w, name, e, write); }
    case AddRouter(name, uid, _, _) =>
      if name !in w.routers && uid !in w.used {
        AddKeepsOwnerIff(w.routers, name, w'.routers[name], res, w.used, w.cloud.last, u);
      }
    case EditRouter(name, _, _) =>
      if name in w.routers { EditKeepsOwnerIff(w.routers, name, w'.routers[name], res, u); }
    case MarkRouter(name) => MarkKeepsOwnerIff(w.routers, name, res, w.used, w.cloud.last, u);
    case DropRouter(id) => assert forall k :: k in RouterLabels(w'.cloud) ==>
      k in res && RouterLabels(w'.cloud)[k] == res[k];
    case DropNetwork(id) => assert RouterLabels(w'.cloud) == res;
    case AddNetwork(_, _, _, _) =>
    case EditNetwork(_, _, _) =>
    case MarkNetwork(_) =>
  }

  ghost predicate NeverAbandonsRouter(w: World, run: seq<Event>, u: string) {
    Never((w: World, ev: Event) => AbandonsRouter(w, ev, u), w, run)
  }

  /** No leak over runs, uid by uid: a router the operator made has an owner at the end of a run, whatever
      failed and whatever became of other resources, if no event of the run abandoned it - and, unless
      routers were deleted behind the operator's back, only if. */
  lemma RouterLeaksIffAbandoned(w: World, run: seq<Event>, u: string)
    requires Init(w) && HonestRun(w, run) && u !in w.used
    ensures NeverAbandonsRouter(w, run, u) ==> RouterKept(Run(w, run), u)
    ensures NoneEnds((ev: Event) => ev.DropRouter?, run) ==>
              (RouterKept(Run(w, run), u) <==> NeverAbandonsRouter(w, run, u))
  {
    InitInv(w);
    var kept, abandons := (w: World) => RouterKept(w, u), (w: World, ev: Event) => AbandonsRouter(w, ev, u);
    var ends := (ev: Event) => ev.DropRouter?;
    forall w, ev | Inv(w) && Honest(w, ev)
      ensures kept(w) ==> (kept(Next(w, ev)) <==> !abandons(w, ev))
      ensures !kept(w) && !ends(ev) ==> !kept(Next(w, ev))
    {
      RouterKeptIff(w, ev, u);
    }
    RunKeptIff(kept, abandons, ends, w, run);
  }

  // ---- An example

  /** How an abandoned network comes about without Orphan: the write after the create is lost and the user
      then deletes the resource. */
  lemma LostIdentityLeaks(w: World, name: string)
    requires Inv(w) && name in w.networks
    requires var o := w.networks[name];
             && !o.deleting && o.finalizer && o.id == NO_UUID && o.policy == DeletePolicy
                  && NoneCarries(NetLabels(w.cloud), o.uid)
             && o.spec.routerUUID == NO_UUID && o.spec.routerRef.None?
    ensures var w' := Run(w, [ReconcileNetwork(name, CALM, Rejected), MarkNetwork(name),
        ReconcileNetwork(name, CALM, Done)]);
            name !in w'.networks && NetworkAdapter.Carries(w'.cloud, w.cloud.last + 1, w.networks[name].uid)
  {
    var create, mark, delete := ReconcileNetwork(name, CALM, Rejected), MarkNetwork(name),
        ReconcileNetwork(name, CALM, Done);
    RunOfThree(w, create, mark, delete);
    UnwrittenCreate(w, name);
    MarkThenDelete(Next(w, create), name);
  }

  lemma UnwrittenCreate(w: World, name: string)
    requires Inv(w) && name in w.networks
    requires var o := w.networks[name];
             && !o.deleting && o.finalizer && o.id == NO_UUID && NoneCarries(NetLabels(w.cloud), o.uid)
             && o.spec.routerUUID == NO_UUID && o.spec.routerRef.None?
    ensures var w' := Next(w, ReconcileNetwork(name, CALM, Rejected));
            w'.networks == w.networks && NetworkAdapter.Carries(w'.cloud, w.cloud.last + 1, w.networks[name].uid)
  {
    var o, nw := w.networks[name], NetworkAdapter.NetWorld(w.cloud, w.routers);
    assert NO_UUID !in w.cloud.networks by {
      assert NO_UUID in w.cloud.networks ==> NO_UUID in NetLabels(w.cloud);
    }
    assert NetworkAdapter.Observe(o, nw, CALM) == Outcome(o, nw, Ok(ABSENT));
    OwnerLabelsOnly(o.uid, o.spec.labels);
    var w' := Next(w, ReconcileNetwork(name, CALM, Rejected));
    assert w'.networks == w.networks[name := o];
    assert w'.cloud.networks == w.cloud.networks[w.cloud.last + 1 := NetworkAdapter.FreshNetwork(o, NO_UUID)];
  }

  /** With no identity on record the delete call is never made. */
  lemma MarkThenDelete(w: World, name: string)
    requires name in w.networks
    requires var o := w.networks[name]; !o.deleting && o.finalizer && o.id == NO_UUID && o.policy == DeletePolicy
    ensures Next(Next(w, MarkNetwork(name)), ReconcileNetwork(name, CALM, Done)) == w.(networks := w.networks - {name})
  {
    var w1 := Next(w, MarkNetwork(name));
    assert w1.networks[name] == w.networks[name].(deleting := true) && w1.cloud == w.cloud;
    DeletePassShape(NetworkAdapter.Ops, TIMERS, w1.networks[name], NetworkAdapter.NetWorld(w1.cloud, w1.routers),
      CALM, Done);
    assert w1.networks - {name} == w.networks - {name};
  }
}
