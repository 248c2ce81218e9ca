/** At most one cloud resource per owner, exactly: what deletions behind the operator's back do to it. */
module StaleIdentity {
  import opened Support
  import opened Reconciler
  import opened NetworkCloud
  import opened NetworkTypes
  import opened Ownership
  import opened PassShape
  import opened Pair
  import opened PairSafety
  import NetworkAdapter
  import RouterAdapter

  /** No two networks and no two routers of one owner. */
  ghost predicate Unique(c: Cloud) {
    && (forall k, l, u :: NetworkAdapter.Carries(c, k, u) && NetworkAdapter.Carries(c, l, u) ==> k == l)
    && (forall k, l, u :: RouterAdapter.Carries(c, k, u) && RouterAdapter.Carries(c, l, u) ==> k == l)
  }

  lemma ConsistentIsUnique(w: World)
    requires Consistent(w)
    ensures Unique(w.cloud)
  {
    assert forall k :: k in w.cloud.networks <==> k in NetLabels(w.cloud);
    assert forall k :: k in w.cloud.routers <==> k in RouterLabels(w.cloud);
  }

  /** No fault; a list call would yield `pick`. */
  function Faultless(pick: Uuid): Env { Env(map[], pick, true) }

  /** A live Network with a stale identity and no router to wait for. */
  predicate StaleNetwork(w: World, name: string) {
    && name in w.networks
    && var o := w.networks[name];
       && !o.deleting && o.finalizer && o.id != NO_UUID && o.id !in w.cloud.networks
       && o.spec.routerUUID == NO_UUID && o.spec.routerRef.None?
  }

  /** A recorded identity that names nothing leads to a create. */
  lemma MissingNetworkIsCreated(w: World, name: string, pick: Uuid, write: Write)
    requires StaleNetwork(w, name)
    ensures var o, c, w' := w.networks[name], w.cloud, Next(w, ReconcileNetwork(name, Faultless(pick), write));
            && w'.cloud == c.(networks := c.networks[c.last + 1 := NetworkAdapter.FreshNetwork(o, NO_UUID)],
                 last := c.last + 1)
            && name in w'.networks && w'.routers == w.routers && (write.Rejected? ==> w'.networks == w.networks)
  {
    var o, nw, e := w.networks[name], NetworkAdapter.NetWorld(w.cloud, w.routers), Faultless(pick);
    LivePassPersists(NetworkAdapter.Ops, TIMERS, o, nw, e, write);
    assert NetworkAdapter.Observe(o, nw, e) == Outcome(o, nw, Ok(ABSENT));
    assert w.networks[name := o] == w.networks;
  }

  /** A resource with a stale identity has nothing in the cloud, so any list order is honest. */
  lemma NoNetworkOfStale(w: World, name: string, pick: Uuid)
    requires Consistent(w) && StaleNetwork(w, name)
    ensures NetworkAdapter.HonestPick(w.cloud, w.networks[name].uid, pick)
  {
    var res := NetLabels(w.cloud);
    assert Tracks(w.networks[name], res, w.cloud.last);
    assert forall k :: k in w.cloud.networks <==> k in res;
  }

  /** Two networks made for one owner. */
  lemma NetworkTwins(c: Cloud, o: NetworkCR, k: Uuid)
    requires k in c.networks && k + 1 in c.networks
    requires c.networks[k].labels == c.networks[k + 1].labels == NetworkAdapter.DesiredLabelsOf(o)
    ensures !Unique(c)
  {
    OwnerLabelsOnly(o.uid, o.spec.labels);
    assert NetworkAdapter.Carries(c, k, o.uid) && NetworkAdapter.Carries(c, k + 1, o.uid);
  }

  /** Two faultless passes over a stale resource, the first losing its write, create twice. */
  lemma NetworkCreatedTwice(w: World, name: string, pick: Uuid)
    requires Consistent(w) && StaleNetwork(w, name) && pick == w.cloud.last + 1
    ensures var lost := ReconcileNetwork(name, Faultless(pick), Rejected);
            var w1 := Next(w, lost);
            var kept := ReconcileNetwork(name, Faultless(pick), Done);
            Honest(w, lost) && Honest(w1, kept) && !Unique(Next(w1, kept).cloud)
  {
    var o := w.networks[name];
    NoNetworkOfStale(w, name, pick);
    assert Tracks(o, NetLabels(w.cloud), w.cloud.last);
    MissingNetworkIsCreated(w, name, pick, Rejected);
    var w1 := Next(w, ReconcileNetwork(name, Faultless(pick), Rejected));
    assert w1.networks == w.networks;
    MissingNetworkIsCreated(w1, name, pick, Done);
    OnlyNetworkOfUID(w1.cloud, o, pick);
    NetworkTwins(Next(w1, ReconcileNetwork(name, Faultless(pick), Done)).cloud, o, pick);
  }

  lemma StaleNetworkDuplicates(w: World, name: string) returns (run: seq<Event>)
    requires Consistent(w) && StaleNetwork(w, name)
    ensures HonestRun(w, run) && !Unique(Run(w, run).cloud)
  {
    var pick := w.cloud.last + 1;
    var lost, kept := ReconcileNetwork(name, Faultless(pick), Rejected), ReconcileNetwork(name, Faultless(pick), Done);
    NetworkCreatedTwice(w, name, pick);
    run := [lost, kept];
    RunOfTwo(w, lost, kept);
    HonestRunOfTwo(w, lost, kept);
  }

  /** The one network just made for an owner that had none is the one any list yields. */
  lemma OnlyNetworkOfUID(c: Cloud, o: NetworkCR, pick: Uuid)
    requires pick in c.networks && c.networks[pick].labels == NetworkAdapter.DesiredLabelsOf(o)
    ensures NetworkAdapter.HonestPick(c, o.uid, pick)
  {
    OwnerLabelsOnly(o.uid, o.spec.labels);
  }

  /** Whatever router the stale Network asks for, the user may stop asking for it. */
  lemma AnyStaleNetworkDuplicates(w: World, name: string) returns (run: seq<Event>)
    requires Consistent(w) && name in w.networks && !Alive(w.networks[name], NetLabels(w.cloud))
    ensures HonestRun(w, run) && !Unique(Run(w, run).cloud)
  {
    var o := w.networks[name];
    assert Tracks(o, NetLabels(w.cloud), w.cloud.last);
    var edit := EditNetwork(name, o.policy, o.spec.(routerUUID := NO_UUID, routerRef := None));
    var w1 := Next(w, edit);
    forall a | a in w1.networks ensures Tracks(w1.networks[a], NetLabels(w.cloud), w.cloud.last) {
      assert Tracks(w.networks[a], NetLabels(w.cloud), w.cloud.last);
    }
    var rest := StaleNetworkDuplicates(w1, name);
    run := [edit] + rest;
    assert run[1..] == rest;
  }

  predicate StaleRouter(w: World, name: string) {
    && name in w.routers
    && var o := w.routers[name]; !o.deleting && o.finalizer && o.id != NO_UUID && o.id !in w.cloud.routers
  }

  lemma MissingRouterIsCreated(w: World, name: string, pick: Uuid, write: Write)
    requires StaleRouter(w, name)
    ensures var o, c, w' := w.routers[name], w.cloud, Next(w, ReconcileRouter(name, Faultless(pick), write));
            && w'.cloud == c.(routers := c.routers[c.last + 1 := RouterAdapter.WantedRouter(o)], last := c.last + 1)
            && name in w'.routers && w'.networks == w.networks && (write.Rejected? ==> w'.routers == w.routers)
  {
    var o, e := w.routers[name], Faultless(pick);
    LivePassPersists(RouterAdapter.Ops, TIMERS, o, w.cloud, e, write);
    assert RouterAdapter.Observe(o, w.cloud, e) == Outcome(o, w.cloud, Ok(ABSENT));
    assert w.routers[name := o] == w.routers;
  }

  lemma RouterTwins(c: Cloud, o: RouterCR, k: Uuid)
    requires k in c.routers && k + 1 in c.routers
    requires c.routers[k].labels == c.routers[k + 1].labels == RouterAdapter.WantedRouter(o).labels
    ensures !Unique(c)
  {
    OwnerLabelsOnly(o.uid, o.spec.labels);
    assert RouterAdapter.Carries(c, k, o.uid) && RouterAdapter.Carries(c, k + 1, o.uid);
  }

  lemma NoRouterOfStale(w: World, name: string, pick: Uuid)
    requires Consistent(w) && name in w.routers && !Alive(w.routers[name], RouterLabels(w.cloud))
    ensures RouterAdapter.HonestPick(w.cloud, w.routers[name].uid, pick)
    ensures StaleRouter(w, name)
  {
    var res := RouterLabels(w.cloud);
    assert Tracks(w.routers[name], res, w.cloud.last);
    assert forall k :: k in w.cloud.routers <==> k in res;
  }

  /** Two faultless passes over a stale resource, the first losing its write, create twice. */
  lemma RouterCreatedTwice(w: World, name: string, pick: Uuid)
    requires Consistent(w) && name in w.routers && !Alive(w.routers[name], RouterLabels(w.cloud))
        && pick == w.cloud.last + 1
    ensures var lost := ReconcileRouter(name, Faultless(pick), Rejected);
            var w1 := Next(w, lost);
            var kept := ReconcileRouter(name, Faultless(pick), Done);
            Honest(w, lost) && Honest(w1, kept) && !Unique(Next(w1, kept).cloud)
  {
    var o := w.routers[name];
    NoRouterOfStale(w, name, pick);
    assert Tracks(o, RouterLabels(w.cloud), w.cloud.last);
    MissingRouterIsCreated(w, name, pick, Rejected);
    var w1 := Next(w, ReconcileRouter(name, Faultless(pick), Rejected));
    assert w1.routers == w.routers;
    MissingRouterIsCreated(w1, name, pick, Done);
    OnlyRouterOfUID(w1.cloud, o, pick);
    RouterTwins(Next(w1, ReconcileRouter(name, Faultless(pick), Done)).cloud, o, pick);
  }

  lemma StaleRouterDuplicates(w: World, name: string) returns (run: seq<Event>)
    requires Consistent(w) && name in w.routers && !Alive(w.routers[name], RouterLabels(w.cloud))
    ensures HonestRun(w, run) && !Unique(Run(w, run).cloud)
  {
    var pick := w.cloud.last + 1;
    var lost, kept := ReconcileRouter(name, Faultless(pick), Rejected), ReconcileRouter(name, Faultless(pick), Done);
    RouterCreatedTwice(w, name, pick);
    run := [lost, kept];
    RunOfTwo(w, lost, kept);
    HonestRunOfTwo(w, lost, kept);
  }

  /** The one router just made for an owner that had none is the one any list yields. */
  lemma OnlyRouterOfUID(c: Cloud, o: RouterCR, pick: Uuid)
    requires pick in c.routers && c.routers[pick].labels == RouterAdapter.WantedRouter(o).labels
    ensures RouterAdapter.HonestPick(c, o.uid, pick)
  {
    OwnerLabelsOnly(o.uid, o.spec.labels);
  }

  lemma HonestRunOfTwo(w: World, a: Event, b: Event)
    requires Honest(w, a) && Honest(Next(w, a), b)
    ensures HonestRun(w, [a, b])
  {
    assert [a, b][1..] == [b] && [b][1..] == [];
    assert HonestRun(Next(Next(w, a), b), []);
    assert HonestRun(Next(w, a), [b]);
  }

  /** The exact condition. No honest continuation ever duplicates - whatever calls and writes fail - if
      and only if every live resource's recorded identity names something that exists. */
  lemma UniqueForeverIffIdentitiesLive(w: World)
    requires Consistent(w)
    ensures IdentitiesLive(w) <==> forall run :: HonestRun(w, run) ==> Unique(Run(w, run).cloud)
  {
    if IdentitiesLive(w) {
      forall run | HonestRun(w, run) ensures Unique(Run(w, run).cloud) {
        RunInv(w, run);
        ConsistentIsUnique(Run(w, run));
      }
    } else if a :| a in w.networks && !Alive(w.networks[a], NetLabels(w.cloud)) {
      var run := AnyStaleNetworkDuplicates(w, a);
    } else {
      var a :| a in w.routers && !Alive(w.routers[a], RouterLabels(w.cloud));
      var run := StaleRouterDuplicates(w, a);
    }
  }

  /** So for one event: afterwards no honest continuation duplicates if and only if the event did not
      take away what a live resource has on record. */
  lemma UniqueAfterIffUndisturbed(w: World, ev: Event)
    requires Inv(w) && HonestLists(w, ev)
    ensures !Disturbs(w, ev) <==> forall run :: HonestRun(Next(w, ev), run) ==> Unique(Run(Next(w, ev), run).cloud)
  {
    NextInv(w, ev);
    UniqueForeverIffIdentitiesLive(Next(w, ev));
  }

  // ---- A concrete run

  const PLAIN := NetworkSpec("", "zone", [], None, NO_UUID, map[])
  const ADD := AddNetwork("n", "u", DeletePolicy, PLAIN)
  const PASS := ReconcileNetwork("n", CALM, Done)

  /** The only Network "n", holding its finalizer, before its network exists. */
  function Held(): World {
    var o := NewCR("n", "u", DeletePolicy, PLAIN, NetworkStatus(NO_UUID)).(finalizer := true);
    World(map["n" := o], map[], Cloud(map[], map[], 0), {"u"})
  }

  lemma AddedHeld()
    ensures Next(Next(EMPTY, ADD), PASS) == Held()
    ensures Honest(Next(EMPTY, ADD), PASS) && Honest(Held(), PASS)
  {
    assert Next(EMPTY, ADD).cloud == EMPTY.cloud;
  }

  lemma CreatedHeld()
    ensures Disturbs(Next(Held(), PASS), DropNetwork(1))
  {
    var w, w' := Held(), Next(Held(), PASS);
    var o, nw := w.networks["n"], NetworkAdapter.NetWorld(w.cloud, w.routers);
    LivePassPersists(NetworkAdapter.Ops, TIMERS, o, nw, CALM, Done);
    assert NetworkAdapter.Observe(o, nw, CALM) == Outcome(o, nw, Ok(ABSENT));
    var c := NetworkAdapter.Create(o, nw, CALM);
    assert c.obj.id == 1 && 1 in c.world.cloud.networks;
    assert w'.networks["n"].id == 1 && !w'.networks["n"].deleting && 1 in NetLabels(w'.cloud);
  }

  lemma CreatedInThree()
    ensures HonestRun(EMPTY, [ADD, PASS, PASS]) && Run(EMPTY, [ADD, PASS, PASS]) == Next(Held(), PASS)
  {
    AddedHeld();
    RunOfThree(EMPTY, ADD, PASS, PASS);
    HonestRunOfTwo(Next(EMPTY, ADD), PASS, PASS);
    assert [ADD, PASS, PASS][1..] == [PASS, PASS];
  }

  /** From an empty world: a Network is added and reconciled until its network exists, that network is
      deleted behind the operator's back, and a run follows that duplicates it. */
  lemma DuplicatesFromNothing() returns (run: seq<Event>, rest: seq<Event>)
    ensures Init(EMPTY) && HonestRun(EMPTY, run) && Disturbs(Run(EMPTY, run), DropNetwork(1))
    ensures var w := Next(Run(EMPTY, run), DropNetwork(1)); HonestRun(w, rest) && !Unique(Run(w, rest).cloud)
  {
    run := [ADD, PASS, PASS];
    CreatedInThree();
    CreatedHeld();
    InitInv(EMPTY);
    RunInv(EMPTY, run);
    rest := DisturbedDuplicates(Run(EMPTY, run), DropNetwork(1));
  }

  lemma DisturbedDuplicates(w: World, ev: Event) returns (run: seq<Event>)
    requires Inv(w) && HonestLists(w, ev) && Disturbs(w, ev)
    ensures HonestRun(Next(w, ev), run) && !Unique(Run(Next(w, ev), run).cloud)
  {
    UniqueAfterIffUndisturbed(w, ev);
    run :| HonestRun(Next(w, ev), run) && !Unique(Run(Next(w, ev), run).cloud);
  }
}
