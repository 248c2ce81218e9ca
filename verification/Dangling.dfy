/** Referential integrity fails: a concrete run, from an empty world, that leaves a cloud network naming
    a router that is gone. */
module Dangling {
  import opened Support
  import opened Convert
  import opened Reconciler
  import opened NetworkCloud
  import opened NetworkTypes
  import opened Pair
  import opened PairSafety
  import opened Referential
  import RouterAdapter

  const PLAIN_ROUTER := RouterSpec("", [], map[])
  const ADD := AddRouter("r", "u", DeletePolicy, PLAIN_ROUTER)
  const PASS := ReconcileRouter("r", CALM, Done)
  /** The list call, were it made, would yield the router. */
  const SEES := Env(map[], 1, true)

  /** Runs of honest events that name routers by reference. */
  ghost predicate RefRun(w: World, run: seq<Event>) {
    HonestRun(w, run) && forall i :: 0 <= i < |run| ==> ByRef(run[i])
  }

  lemma RefRunThen(w: World, run: seq<Event>, ev: Event)
    requires RefRun(w, run) && Honest(Run(w, run), ev) && ByRef(ev)
    ensures RefRun(w, run + [ev]) && Run(w, run + [ev]) == Next(Run(w, run), ev)
  {
    RunAppend(w, run, [ev]);
    assert [ev][1..] == [] && Run(Run(w, run), [ev]) == Run(Next(Run(w, run), ev), []);
    assert HonestRun(Next(Run(w, run), ev), []);
  }

  lemma {:induction false} CarefulIsRefRun(w: World, run: seq<Event>)
    requires CarefulRun(w, run)
    ensures RefRun(w, run)
    decreases |run|
  {
    if run != [] { CarefulIsRefRun(Next(w, run[0]), run[1..]); }
  }

  /** The only Router "r", holding its finalizer, and the cloud router made for it. */
  ghost function Stage(id: Uuid, condition: Condition, deleting: bool, routers: map<Uuid, Router>): World {
    var o := NewCR("r", "u", DeletePolicy, PLAIN_ROUTER, RouterStatus([])).(finalizer := true);
    World(map[], map["r" := o.(id := id, condition := condition, deleting := deleting)],
      Cloud(map[], routers, |routers|), {"u"})
  }

  ghost function Live(): map<Uuid, Router> {
    map[1 := RouterAdapter.WantedRouter(NewCR("r", "u", DeletePolicy, PLAIN_ROUTER, RouterStatus([])))]
  }

  lemma CreateOutcome()
    ensures var w := Stage(NO_UUID, Unset, false, map[]);
            RouterAdapter.Create(w.routers["r"], w.cloud, CALM) == Outcome(w.routers["r"].(id := 1),
              Cloud(map[], Live(), 1), Ok(()))
  {
    var w := Stage(NO_UUID, Unset, false, map[]);
    assert RouterAdapter.WantedRouter(w.routers["r"]) == Live()[1];
    assert w.cloud.routers[1 := Live()[1]] == Live();
  }

  lemma IsCreated()
    ensures Next(Stage(NO_UUID, Unset, false, map[]), PASS) == Stage(1, Ready(false, Creating), false, Live())
  {
    var w := Stage(NO_UUID, Unset, false, map[]);
    var o := w.routers["r"];
    assert RouterAdapter.Observe(o, w.cloud, CALM) == Outcome(o, w.cloud, Ok(ABSENT));
    CreateOutcome();
    var p := RouterPass(w, "r", CALM, Done);
    assert p.obj == Some(o.(id := 1, condition := Ready(false, Creating))) && p.world == Cloud(map[], Live(), 1);
  }

  lemma OneCarrier(condition: Condition, deleting: bool, write: Write)
    ensures Honest(Stage(1, condition, deleting, Live()), ReconcileRouter("r", SEES, write))
  {
    OwnerLabelsOnly("u", PLAIN_ROUTER.labels);
    var w := Stage(1, condition, deleting, Live());
    assert forall id :: RouterAdapter.Carries(w.cloud, id, "u") <==> id == 1;
  }

  lemma BecomesReady()
    ensures Next(Stage(1, Ready(false, Creating), false, Live()), ReconcileRouter("r", SEES, Done)) == Stage(1,
        Ready(true, Available), false, Live())
  {
    var w := Stage(1, Ready(false, Creating), false, Live());
    var o := w.routers["r"];
    SentRoutesMatch(PLAIN_ROUTER.staticRoutes);
    assert RouterAdapter.InSync(o, Live()[1]);
    assert RouterAdapter.Observe(o, w.cloud, SEES) == Outcome(o, w.cloud, Ok(Observation(true, true, true)));
  }

  /** The delete takes effect, the release does not. */
  lemma ReleaseRejected()
    ensures var w := Stage(1, Ready(true, Available), true, Live());
            Next(w, ReconcileRouter("r", SEES, Rejected)) == w.(cloud := Cloud(map[], map[], 1))
  {
    var w := Stage(1, Ready(true, Available), true, Live());
    assert !Attached(w.cloud, 1);
  }

  lemma Added()
    ensures Honest(Next(EMPTY, ADD), PASS)
    ensures Next(Next(EMPTY, ADD), PASS) == Stage(NO_UUID, Unset, false, map[])
    ensures Honest(Stage(NO_UUID, Unset, false, map[]), PASS)
  {
    assert Next(EMPTY, ADD).cloud == EMPTY.cloud;
  }

  lemma IsMarked()
    ensures Next(Stage(1, Ready(true, Available), false, Live()), MarkRouter("r")) == Stage(1, Ready(true, Available),
        true, Live())
  {
  }

  lemma ReadyAfterFour() returns (run: seq<Event>)
    ensures RefRun(EMPTY, run) && Run(EMPTY, run) == Stage(1, Ready(true, Available), false, Live())
  {
    RefRunThen(EMPTY, [], ADD);
    Added();
    RefRunThen(EMPTY, [] + [ADD], PASS);
    IsCreated();
    RefRunThen(EMPTY, [] + [ADD] + [PASS], PASS);
    OneCarrier(Ready(false, Creating), false, Done);
    BecomesReady();
    run := [] + [ADD] + [PASS] + [PASS];
    RefRunThen(EMPTY, run, ReconcileRouter("r", SEES, Done));
    run := run + [ReconcileRouter("r", SEES, Done)];
  }

  /** A Router that says Ready although its router is gone. */
  lemma DeadButReady() returns (run: seq<Event>)
    ensures RefRun(EMPTY, run)
    ensures var w := Run(EMPTY, run);
            w.routers == Stage(1, Ready(true, Available), true, Live()).routers && w.cloud == Cloud(map[], map[], 1)
              && w.networks == map[]
  {
    run := ReadyAfterFour();
    RefRunThen(EMPTY, run, MarkRouter("r"));
    IsMarked();
    run := run + [MarkRouter("r")];
    OneCarrier(Ready(true, Available), true, Rejected);
    ReleaseRejected();
    RefRunThen(EMPTY, run, ReconcileRouter("r", SEES, Rejected));
    run := run + [ReconcileRouter("r", SEES, Rejected)];
  }

  lemma DeadButReadyIsSound() returns (run: seq<Event>)
    ensures RefRun(EMPTY, run) && Sound(Run(EMPTY, run)) && "r" in Run(EMPTY, run).routers
    ensures var r := Run(EMPTY, run).routers["r"];
        r.IsReady() && r.id != NO_UUID && r.id !in Run(EMPTY, run).cloud.routers
  {
    run := DeadButReady();
    InitInv(EMPTY);
    RunInv(EMPTY, run);
  }

  /** Nine events: a Router is added, reconciled to Ready and deleted, with the release of its resource
      rejected; then a Network is added that references it, and reconciled twice. */
  lemma IntegrityFails() returns (run: seq<Event>)
    ensures Init(EMPTY) && RefRun(EMPTY, run) && !Intact(Run(EMPTY, run).cloud)
  {
    var first := DeadButReadyIsSound();
    var w := Run(EMPTY, first);
    var rest := DeadReadyRouterDangles(w, "r");
    CarefulIsRefRun(w, rest);
    RunAppend(EMPTY, first, rest);
    run := first + rest;
  }
}
