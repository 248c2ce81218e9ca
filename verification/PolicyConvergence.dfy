/** Policies of an object storage user over whole sequences of passes: when the attached policies come to be
    the desired ones, whatever was attached, detached or failed before. */
module PolicyConvergence {
  import opened Support
  import opened Sorting
  import opened Reconciler
  import opened PassShape
  import opened Convergence
  import opened UserPolicies

  type Delete = (UserCR, PolicyWorld, Env) -> Outcome<UserSpec, UserStatus, PolicyWorld, ()>

  /** Nothing below depends on what the kind's delete does. */
  ghost function Ops(delete: Delete): Adapter<UserSpec, UserStatus, PolicyWorld, Env> {
    Adapter(Observe, Create, Update, delete)
  }

  /** Service and references can be resolved. */
  predicate Resolvable(o: UserCR, w: PolicyWorld) {
    (o.status.serviceKnown || w.kube.serviceReady) && RefsReady(o.spec, w.kube.readyRefs)
  }

  /** Every policy still to be attached exists. */
  predicate Attachable(o: UserCR, w: PolicyWorld) {
    Wanted(o.spec, w.kube.readyRefs) - (if w.cloud.userExists then w.cloud.attached else {}) <= w.policies
  }

  predicate PolicyFit(o: UserCR, w: PolicyWorld) { Resolvable(o, w) && Attachable(o, w) }

  predicate Faultless(o: UserCR, w: PolicyWorld, e: Env) {
    e.service.Works? && e.user.Works? && e.policies.Works? && e.updateUser.Works? && e.updatePolicies.Works?
      && e.failing.None?
  }

  // ---- The loops without faults

  /** The names of `todo` that are not in `known`. */
  function Missing(todo: seq<string>, known: seq<string>): set<string> { SetOf(todo) - SetOf(known) }

  lemma MissingTail(todo: seq<string>, known: seq<string>)
    requires todo != []
    ensures Missing(todo, known) == Missing(todo[1..], known) + if todo[0] in known then {} else {todo[0]}
  {
    assert todo == [todo[0]] + todo[1..];
    assert SetOf(todo) == {todo[0]} + SetOf(todo[1..]);
  }

  /** The attach loop attaches everything missing, if and only if it exists. */
  lemma {:induction false} AttachesMissingIff(
    todo: seq<string>, known: seq<string>, c: UserCloud, policies: set<string>)
    requires c.userExists
    ensures var (c', r) := AttachLoop(todo, known, c, policies, None);
            && c'.userExists && c.attached <= c'.attached <= c.attached + Missing(todo, known) * policies
            && (r.Ok? <==> Missing(todo, known) <= policies)
            && (r.Ok? ==> c'.attached == c.attached + Missing(todo, known))
            && (r.Err? ==> r.error == Api(NOT_FOUND))
  {
    if todo != [] {
      MissingTail(todo, known);
      if todo[0] in known {
        AttachesMissingIff(todo[1..], known, c, policies);
      } else if todo[0] in policies {
        AttachesMissingIff(todo[1..], known, AttachPolicy(c, policies, todo[0], Works).0, policies);
      }
    }
  }

  /** The detach loop detaches everything superfluous. */
  lemma {:induction false} DetachesExtra(todo: seq<string>, wanted: seq<string>, c: UserCloud)
    requires c.userExists && Distinct(todo) && SetOf(todo) <= c.attached
    ensures var (c', r) := DetachLoop(todo, wanted, c, None);
            c'.userExists && r.Ok? && c'.attached == c.attached - Missing(todo, wanted)
  {
    if todo != [] {
      MissingTail(todo, wanted);
      assert todo[0] in SetOf(todo);
      assert forall x :: x in todo[1..] ==> x in SetOf(todo);
      forall x | x in todo[1..] ensures x != todo[0] {
        var i :| 0 <= i < |todo| - 1 && todo[1..][i] == x;
        assert Same(todo[0]) != Same(todo[i + 1]);
      }
      var c1 := if todo[0] in wanted then c else DetachPolicy(c, todo[0], Works).0;
      assert SetOf(todo[1..]) <= c1.attached;
      DetachesExtra(todo[1..], wanted, c1);
    }
  }

  /** Without faults an update succeeds if and only if every missing policy exists, and then the attached
      policies are the wanted ones; if it does not, some policy is still missing that does not exist. */
  lemma LoopsRepairIff(o: UserCR, w: PolicyWorld)
    requires w.cloud.userExists && RefsReady(o.spec, w.kube.readyRefs)
    ensures var want := Wanted(o.spec, w.kube.readyRefs);
            var (c, r) := BothLoops(Listing(want), Listing(w.cloud.attached), w.cloud, w.policies, None);
            && c.userExists && (r.Ok? <==> want - w.cloud.attached <= w.policies)
            && (r.Ok? ==> c.attached == want)
            && (r.Err? ==> r.error == Api(NOT_FOUND) && !(want - c.attached <= w.policies))
  {
    var want := Wanted(o.spec, w.kube.readyRefs);
    var desired, attached := Listing(want), Listing(w.cloud.attached);
    AttachesMissingIff(desired, attached, w.cloud, w.policies);
    var c1 := AttachLoop(desired, attached, w.cloud, w.policies, None).0;
    DetachesExtra(attached, desired, c1);
  }

  // ---- The contract

  lemma SeenUpToDateIff(o: UserCR, w: PolicyWorld, e: Env)
    requires Resolvable(o, w) && Faultless(o, w, e) && w.cloud.userExists
    ensures Observe(o, w, e) ==
              Outcome(o.(id := USERNAME, status := UserStatus(true, w.arn, Listing(w.cloud.attached))), w,
                      Ok(Observation(true, w.cloud.attached == Wanted(o.spec, w.kube.readyRefs), true)))
  {
    SortedListsEqualIffSameNames(Listing(w.cloud.attached), Listing(Wanted(o.spec, w.kube.readyRefs)));
  }

  lemma PolicyObservedWell(delete: Delete, o: UserCR, w: PolicyWorld, e: Env)
    requires PolicyFit(o, w) && Faultless(o, w, e)
    ensures ObservedWell(Ops(delete), PolicyFit, Faultless, o, w, e)
  {
    var v := Observe(o, w, e);
    if w.cloud.userExists { SeenUpToDateIff(o, w, e); }
    forall e': Env | Faultless(v.obj, v.world, e') ensures Ops(delete).observe(v.obj, v.world, e') == v {
      if w.cloud.userExists { SeenUpToDateIff(v.obj, w, e'); }
    }
  }

  lemma PolicyBlindTo(delete: Delete, o: UserCR, w: PolicyWorld, e: Env, c: Condition, f: bool)
    ensures BlindTo(Ops(delete), PolicyFit, Faultless, o, w, e, c, f)
  {
    var o' := o.(condition := c, finalizer := f);
    var p, p' := Service(o, w.kube, e.service), Service(o', w.kube, e.service);
    assert p.Ok? ==> p' == Ok(p.value.(condition := c, finalizer := f));
    var v := Observe(o, w, e);
    if p.Err? {
      assert Observe(o', w, e) == Outcome(o', w, v.result);
    } else if w.cloud.userExists && e.user.Works? {
      var u := p.value.(id := USERNAME, status := p.value.status.(arn := w.arn));
      var u' := p'.value.(id := USERNAME, status := p'.value.status.(arn := w.arn));
      assert u' == u.(condition := c, finalizer := f);
    }
  }

  lemma PolicyCreatedWell(delete: Delete, o: UserCR, w: PolicyWorld, e: Env)
    requires PolicyFit(o, w) && Faultless(o, w, e)
    ensures CreatedWell(Ops(delete), PolicyFit, Faultless, o, w, e)
  {
    if w.cloud.userExists {
      SeenUpToDateIff(o, w, e);
    } else {
      var v := Observe(o, w, e).obj;
      var c := CreateUser(w.cloud, Works).0;
      var desired := Listing(Wanted(o.spec, w.kube.readyRefs));
      AttachesMissingIff(desired, Listing({}), c, w.policies);
      var made := Create(v, w, e);
      assert made.result.Ok? && made.obj.status.serviceKnown && made.world == w.(cloud := made.world.cloud);
      forall e': Env | Faultless(made.obj, made.world, e')
        ensures Ops(delete).observe(made.obj, made.world, e').result.Ok?
        ensures Ops(delete).observe(made.obj, made.world, e').result.value.present
      {
        SeenUpToDateIff(made.obj, made.world, e');
      }
    }
  }

  lemma PolicyUpdatedWell(delete: Delete, o: UserCR, w: PolicyWorld, e: Env)
    requires PolicyFit(o, w) && Faultless(o, w, e)
    ensures UpdatedWell(Ops(delete), PolicyFit, Faultless, o, w, e)
  {
    if w.cloud.userExists {
      SeenUpToDateIff(o, w, e);
      LoopsRepairIff(o, w);
      var u := Update(Observe(o, w, e).obj, w, e);
      forall e': Env | Faultless(u.obj, u.world, e')
        ensures Sees(Ops(delete), u.obj, u.world, e', Observation(true, true, true))
      {
        SeenUpToDateIff(u.obj, u.world, e');
      }
    }
  }

  lemma PolicyContract(delete: Delete)
    ensures Contract(Ops(delete), PolicyFit, Faultless)
  {
    forall o: UserCR, w: PolicyWorld, e: Env | PolicyFit(o, w) && Faultless(o, w, e)
      ensures ObservedWell(Ops(delete), PolicyFit, Faultless, o, w, e)
      ensures CreatedWell(Ops(delete), PolicyFit, Faultless, o, w, e)
      ensures UpdatedWell(Ops(delete), PolicyFit, Faultless, o, w, e)
    {
      PolicyObservedWell(delete, o, w, e);
      PolicyCreatedWell(delete, o, w, e);
      PolicyUpdatedWell(delete, o, w, e);
    }
    forall o: UserCR, w: PolicyWorld, e: Env, c: Condition, f: bool
      ensures BlindTo(Ops(delete), PolicyFit, Faultless, o, w, e, c, f)
    {
      PolicyBlindTo(delete, o, w, e, c, f);
    }
  }

  // ---- The exact condition

  type PolicySnapshot = Snapshot<UserSpec, UserStatus, PolicyWorld>

  predicate InAgreement(s: PolicySnapshot) {
    s.world.cloud.userExists && s.world.cloud.attached == Wanted(s.obj.spec, s.world.kube.readyRefs)
  }

  lemma SettledAgrees(delete: Delete, s: PolicySnapshot)
    requires Settled(Ops(delete), Faultless, s) && Resolvable(s.obj, s.world)
    ensures s.obj.IsReady() && InAgreement(s)
  {
    var e := Env(Works, Works, Works, Works, Works, None);
    assert Faultless(s.obj, s.world, e);
    assert Observe(s.obj, s.world, e) == Outcome(s.obj, s.world, Ok(Observation(true, true, true)));
    SeenUpToDateIff(s.obj, s.world, e);
  }

  /** A live resource with its user in the cloud, service and references resolvable. */
  predicate Steady(s: PolicySnapshot) {
    !s.obj.deleting && s.obj.finalizer && s.world.cloud.userExists && Resolvable(s.obj, s.world)
  }

  lemma FitSettles(delete: Delete, t: Timers, s: PolicySnapshot, es: seq<Env>)
    requires Steady(s) && Attachable(s.obj, s.world) && |es| >= 2 && FairRun(Ops(delete), Faultless, t, s, es)
    ensures var s' := Passes(Ops(delete), t, s, es);
            s' == Passes(Ops(delete), t, s, es[..2]) && s'.obj.IsReady() && InAgreement(s')
  {
    PolicyContract(delete);
    forall e: Env | Faultless(s.obj, s.world, e)
      ensures Ops(delete).observe(s.obj, s.world, e).result.Ok?
      ensures Ops(delete).observe(s.obj, s.world, e).result.value.present
    {
      SeenUpToDateIff(s.obj, s.world, e);
    }
    SettledAfter(Ops(delete), PolicyFit, Faultless, t, s, es, 2);
    SettledAgrees(delete, Passes(Ops(delete), t, s, es));
  }

  /** A faultless pass over a resource that wants a policy the service does not have leaves it so, and not
      Ready. */
  lemma UnfitStays(delete: Delete, t: Timers, s: PolicySnapshot, e: Env)
    requires Steady(s) && !Attachable(s.obj, s.world) && Faultless(s.obj, s.world, e)
    ensures var s' := Once(Ops(delete), t, s, e);
            Steady(s') && !Attachable(s'.obj, s'.world) && !s'.obj.IsReady()
  {
    LivePassPersists(Ops(delete), t, s.obj, s.world, e, Done);
    SeenUpToDateIff(s.obj, s.world, e);
    LoopsRepairIff(s.obj, s.world);
    var v := Observe(s.obj, s.world, e);
    var u := Update(v.obj, s.world, e);
    assert !v.result.value.upToDate && u.result == Err(Api(NOT_FOUND));
    assert Once(Ops(delete), t, s, e) == Snapshot(u.obj.(condition := Ready(false, UpdateFailed)), u.world);
  }

  lemma {:induction false} UnfitNeverReady(delete: Delete, t: Timers, s: PolicySnapshot, es: seq<Env>)
    requires Steady(s) && !Attachable(s.obj, s.world) && es != [] && FairRun(Ops(delete), Faultless, t, s, es)
    ensures !Passes(Ops(delete), t, s, es).obj.IsReady()
    decreases |es|
  {
    UnfitStays(delete, t, s, es[0]);
    if |es| > 1 {
      UnfitNeverReady(delete, t, Once(Ops(delete), t, s, es[0]), es[1..]);
    } else {
      assert es[1..] == [];
    }
  }

  /** From any state, two faultless passes make a live user Ready with exactly the wanted policies attached,
      and every later one makes no call at all, if and only if every policy still to be attached exists. */
  lemma PoliciesConvergeIff(delete: Delete, t: Timers, s: PolicySnapshot, es: seq<Env>)
    requires Steady(s) && |es| >= 2 && FairRun(Ops(delete), Faultless, t, s, es)
    ensures var s' := Passes(Ops(delete), t, s, es);
            && (s'.obj.IsReady() <==> Attachable(s.obj, s.world))
            && (s'.obj.IsReady() ==> s' == Passes(Ops(delete), t, s, es[..2]) && InAgreement(s'))
  {
    if Attachable(s.obj, s.world) {
      FitSettles(delete, t, s, es);
    } else {
      UnfitNeverReady(delete, t, s, es);
    }
  }

  /** Present in the cloud or not, a live user whose policies exist is Ready and in agreement after four
      faultless passes, and stays so. */
  lemma PoliciesConverge(delete: Delete, t: Timers, s: PolicySnapshot, es: seq<Env>)
    requires !s.obj.deleting && PolicyFit(s.obj, s.world) && |es| >= 4
    requires FairRun(Ops(delete), Faultless, t, s, es)
    ensures var s' := Passes(Ops(delete), t, s, es);
            s' == Passes(Ops(delete), t, s, es[..4]) && s'.obj.IsReady() && InAgreement(s')
  {
    PolicyContract(delete);
    SettledAfter(Ops(delete), PolicyFit, Faultless, t, s, es, 4);
    SettledAgrees(delete, Passes(Ops(delete), t, s, es));
  }

  // ---- What the calls mean

  /** Which policies are wanted: those named, and those referred to. */
  lemma WantedIff(spec: UserSpec, readyRefs: map<string, string>, x: string)
    ensures x in Wanted(spec, readyRefs) <==>
              x in spec.policies || exists r :: r in spec.policyRefs && r in readyRefs && readyRefs[r] == x
  {
  }

  /** A faultless create of a user that is absent leaves it with exactly the wanted policies if and only if they
      all exist, and fails otherwise; identity and ARN are recorded in either case. */
  lemma CreatedUserHasPoliciesIff(o: UserCR, w: PolicyWorld, e: Env)
    requires Resolvable(o, w) && Faultless(o, w, e) && !w.cloud.userExists
    ensures var c, want := Create(o, w, e), Wanted(o.spec, w.kube.readyRefs);
            && c.world.cloud.userExists && c.obj.id == USERNAME && c.obj.status.arn == w.arn
            && (c.result.Ok? <==> want <= w.policies)
            && (c.result.Ok? <==> c.world.cloud.attached == want)
  {
    var want := Wanted(o.spec, w.kube.readyRefs);
    AttachesMissingIff(Listing(want), Listing({}), CreateUser(w.cloud, Works).0, w.policies);
    assert CreateUser(w.cloud, Works).0.attached == {};
    assert Missing(Listing(want), Listing({})) == want;
  }

  /** A name already taken is adopted as it is. */
  lemma TakenNameIsAdopted(o: UserCR, w: PolicyWorld, e: Env)
    requires Resolvable(o, w) && Faultless(o, w, e) && w.cloud.userExists
    ensures var c := Create(o, w, e);
            c.result.Ok? && c.world.cloud.attached == w.cloud.attached && c.world.cloud.effects == w.cloud.effects
  {
  }

  /** Until the service is known it must be Ready; and every reference must be. */
  lemma ServiceGate(o: UserCR, w: PolicyWorld, e: Env)
    requires Faultless(o, w, e) && !Resolvable(o, w)
    ensures (w.cloud.userExists ==> Observe(o, w, e).result == Err(DependencyNotReady))
    ensures Update(o, w, e).result.Err? && Update(o, w, e).world == w
  {
  }

  /** Whatever cannot be read is reported as it is, and nothing is changed for it. */
  lemma FailedReads(o: UserCR, w: PolicyWorld, e: Env)
    requires o.status.serviceKnown
    ensures !e.user.Works? ==> Observe(o, w, e) == Outcome(o, w, Err(Api(e.user.status)))
    ensures e.user.Works? && !w.cloud.userExists ==>
        Observe(o, w, e) == Outcome(o, w, Ok(Observation(false, false, false)))
    ensures e.user.Works? && w.cloud.userExists && !e.policies.Works? ==>
              Observe(o, w, e).result == Err(Api(e.policies.status))
    ensures !e.updateUser.Works? ==> Update(o, w, e) == Outcome(o, w, Err(Api(e.updateUser.status)))
    ensures e.updateUser.Works? && !w.cloud.userExists ==> Update(o, w, e) == Outcome(o, w, Err(Pending))
    ensures e.updateUser.Works? && w.cloud.userExists && RefsReady(o.spec, w.kube.readyRefs)
            && !e.updatePolicies.Works? ==>
              Update(o, w, e) == Outcome(o, w, Err(Api(e.updatePolicies.status)))
  {
  }
}
