/** Credentials over whole sequences of passes: when password and access control come into agreement
    again, whatever Secrets were rotated or deleted, whatever changed behind the operator's back and
    whatever failed before. */
module UserConvergence {
  import opened Support
  import opened Reconciler
  import opened PassShape
  import opened Convergence
  import opened DatabaseUser

  type UserSnapshot = Snapshot<UserSpec, UserStatus, UserWorld>

  /** The parent and the source of the password can be read: a referenced Secret is there and has its key;
      the credentials Secret may be missing, but not its key. */
  predicate Reachable(o: UserCR, w: UserWorld) {
    && (o.status.parentKnown || w.parentReady)
    && DesiredPassword(o.spec, w, Works).Ok?
    && (o.spec.passwordRef.Some? ==> DesiredPassword(o.spec, w, Works).value.Some?)
  }

  /** The password can be sent, is not needed, or is the cloud's already. */
  predicate Sendable(s: UserSpec, w: UserWorld) {
    Source(s, w, "") ==> if w.user.Some? then w.user.value.password == "" else s.passwordRef.None?
  }

  predicate Sayable(s: UserSpec, w: UserWorld) {
    Expressible(s.access) || (w.user.Some? && Granted(s.access, w.user.value.access))
  }

  predicate UserFit(o: UserCR, w: UserWorld) { Reachable(o, w) && Sendable(o.spec, w) && Sayable(o.spec, w) }

  predicate Faultless(o: UserCR, w: UserWorld, e: Env) { e.faults == map[] }

  /** What a faultless observation of a fit resource with a user shows and leaves, whatever it heals. */
  lemma SeenFit(o: UserCR, w: UserWorld, e: Env)
    requires Reachable(o, w) && Sendable(o.spec, w) && Faultless(o, w, e) && w.user.Some?
    ensures var v, user := Observe(o, w, e), w.user.value;
            && v.obj == o.(id := USERNAME, status := UserStatus(true, user.primary))
            && v.result.Ok? && v.result.value.present && v.result.value.ready
            && (v.result.value.upToDate <==> Agreement(o.spec, v.world) && AccessMatches(o.spec.access, user.access))
            && v.world == w.(credentials := v.world.credentials)
            && DesiredPassword(o.spec, v.world, Works).Ok? && DesiredPassword(o.spec, v.world, Works).value.Some?
            && Sendable(o.spec, v.world)
  {
    var desired := DesiredPassword(o.spec, w, Works).value;
    if desired.Some? {
      SeenWithSource(o, w, e, desired.value);
    } else {
      SeenHealing(o, w, e);
    }
  }

  /** A second look, healing done, shows the same. */
  lemma SeenTwice(o: UserCR, w: UserWorld, e: Env, e': Env)
    requires Reachable(o, w) && Sendable(o.spec, w) && Faultless(o, w, e) && w.user.Some?
    requires e'.faults == map[]
    ensures var v := Observe(o, w, e); Observe(v.obj, v.world, e') == v
  {
    SeenFit(o, w, e);
    var v := Observe(o, w, e);
    var password := DesiredPassword(o.spec, v.world, Works).value.value;
    SeenWithSource(v.obj, v.world, e', password);
  }

  lemma SeenAbsent(o: UserCR, w: UserWorld, e: Env)
    requires Reachable(o, w) && Faultless(o, w, e) && w.user.None?
    ensures Observe(o, w, e) == Outcome(o.(status := o.status.(parentKnown := true)), w, Ok(ABSENT))
  {
  }

  lemma UserObservedWell(o: UserCR, w: UserWorld, e: Env)
    requires UserFit(o, w) && Faultless(o, w, e)
    ensures ObservedWell(Ops, UserFit, Faultless, o, w, e)
  {
    var v := Observe(o, w, e);
    if w.user.Some? {
      SeenFit(o, w, e);
      forall e': Env | Faultless(v.obj, v.world, e') ensures Ops.observe(v.obj, v.world, e') == v {
        SeenTwice(o, w, e, e');
      }
    } else {
      SeenAbsent(o, w, e);
      forall e': Env | Faultless(v.obj, v.world, e') ensures Ops.observe(v.obj, v.world, e') == v {
        SeenAbsent(v.obj, v.world, e');
      }
    }
  }

  lemma HealingBlindTo(u: UserCR, w: UserWorld, user: User, e: Env, c: Condition, f: bool)
    ensures var h := HealCredentials(u, w, user, e);
            HealCredentials(u.(condition := c, finalizer := f), w, user, e)
            == Outcome(h.obj.(condition := c, finalizer := f), h.world, h.result)
  {
  }

  lemma ObserveBlindTo(o: UserCR, w: UserWorld, e: Env, c: Condition, f: bool)
    ensures var v := Observe(o, w, e);
            Observe(o.(condition := c, finalizer := f), w, e)
            == Outcome(v.obj.(condition := c, finalizer := f), v.world, v.result)
  {
    var o' := o.(condition := c, finalizer := f);
    var p, p' := Parent(o, w, e.At(ParentRead)), Parent(o', w, e.At(ParentRead));
    assert p.Ok? ==> p' == Ok(p.value.(condition := c, finalizer := f));
    if p.Ok? && w.user.Some? && e.At(GetUser).Works? {
      var status := UserStatus(true, w.user.value.primary);
      var u, u' := p.value.(id := USERNAME, status := status), p'.value.(id := USERNAME, status := status);
      assert u' == u.(condition := c, finalizer := f);
      HealingBlindTo(u, w, w.user.value, e, c, f);
    }
  }

  lemma UserBlindTo(o: UserCR, w: UserWorld, e: Env, c: Condition, f: bool)
    ensures BlindTo(Ops, UserFit, Faultless, o, w, e, c, f)
  {
    ObserveBlindTo(o, w, e, c, f);
  }

  lemma CreateWorks(o: UserCR, w: UserWorld, e: Env)
    requires o.status.parentKnown && DesiredPassword(o.spec, w, Works).Ok? && e.faults == map[] && w.user.None?
    requires o.spec.passwordRef.Some? ==> DesiredPassword(o.spec, w, Works).value.Some?
    ensures Create(o, w, e).result.Ok?
  {
  }

  lemma UserCreatedWell(o: UserCR, w: UserWorld, e: Env)
    requires UserFit(o, w) && Faultless(o, w, e)
    ensures CreatedWell(Ops, UserFit, Faultless, o, w, e)
  {
    if w.user.None? {
      SeenAbsent(o, w, e);
      var v := Observe(o, w, e).obj;
      CreateWorks(v, w, e);
      CreateMakes(v, w, e);
      SentAccessMatchesIffExpressible(o.spec.access);
      var c := Create(v, w, e);
      var source := if o.spec.passwordRef.Some? then DesiredPassword(o.spec, w, Works).value.value
          else c.world.user.value.password;
      assert Source(o.spec, c.world, source) && c.world.user.value.password == source;
      forall e': Env | Faultless(c.obj, c.world, e') ensures Sees(Ops, c.obj, c.world, e',
          Observation(true, true, true)) {
        SeenWithSource(c.obj, c.world, e', source);
      }
    } else {
      SeenFit(o, w, e);
    }
  }

  lemma UpdateWorks(o: UserCR, w: UserWorld, e: Env, password: string)
    requires o.status.parentKnown && Source(o.spec, w, password) && e.faults == map[] && w.user.Some?
    ensures Update(o, w, e).result.Ok?
  {
  }

  /** One faultless update of a user whose source is there. */
  lemma Repairs(o: UserCR, w: UserWorld, e: Env)
    requires o.status.parentKnown && DesiredPassword(o.spec, w, Works).Ok?
        && DesiredPassword(o.spec, w, Works).value.Some?
    requires e.faults == map[] && w.user.Some?
    ensures var u, password := Update(o, w, e), DesiredPassword(o.spec, w, Works).value.value;
            u.result.Ok? && u.obj == o && u.world == w.(user := Some(Repaired(o.spec, w.user.value, password)))
  {
    var password := DesiredPassword(o.spec, w, Works).value.value;
    UpdateWorks(o, w, e, password);
    UpdateRepairs(o, w, e, password);
  }

  lemma UserUpdatedWell(o: UserCR, w: UserWorld, e: Env)
    requires UserFit(o, w) && Faultless(o, w, e)
    ensures UpdatedWell(Ops, UserFit, Faultless, o, w, e)
  {
    if w.user.Some? {
      SeenFit(o, w, e);
      var v := Observe(o, w, e);
      Repairs(v.obj, v.world, e);
      SentAccessMatchesIffExpressible(o.spec.access);
      var u := Update(v.obj, v.world, e);
      var password := DesiredPassword(o.spec, v.world, Works).value.value;
      assert Source(u.obj.spec, u.world, password);
      forall e': Env | Faultless(u.obj, u.world, e') ensures Sees(Ops, u.obj, u.world, e',
          Observation(true, true, true)) {
        SeenWithSource(u.obj, u.world, e', password);
      }
    } else {
      SeenAbsent(o, w, e);
    }
  }

  lemma UserContract()
    ensures Contract(Ops, UserFit, Faultless)
  {
    forall o: UserCR, w: UserWorld, e: Env | UserFit(o, w) && Faultless(o, w, e)
      ensures ObservedWell(Ops, UserFit, Faultless, o, w, e)
      ensures CreatedWell(Ops, UserFit, Faultless, o, w, e)
      ensures UpdatedWell(Ops, UserFit, Faultless, o, w, e)
    {
      UserObservedWell(o, w, e);
      UserCreatedWell(o, w, e);
      UserUpdatedWell(o, w, e);
    }
    forall o: UserCR, w: UserWorld, e: Env, c: Condition,
        f: bool ensures BlindTo(Ops, UserFit, Faultless, o, w, e, c, f) {
      UserBlindTo(o, w, e, c, f);
    }
  }

  /** Present in the cloud or not, a fit live user is Ready and in agreement after four passes. */
  lemma UserConverges(t: Timers, s: UserSnapshot, es: seq<Env>)
    requires !s.obj.deleting && UserFit(s.obj, s.world) && |es| >= 4 && FairRun(Ops, Faultless, t, s, es)
    ensures var s' := Passes(Ops, t, s, es);
            && s' == Passes(Ops, t, s, es[..4]) && s'.obj.IsReady()
            && Agreement(s'.obj.spec, s'.world) && Granted(s'.obj.spec.access, s'.world.user.value.access)
  {
    UserContract();
    SettledAfter(Ops, UserFit, Faultless, t, s, es, 4);
    SettledAgrees(Passes(Ops, t, s, es));
  }

  lemma SettledAgrees(s: UserSnapshot)
    requires Settled(Ops, Faultless, s)
    ensures s.obj.IsReady() && Agreement(s.obj.spec, s.world)
        && Granted(s.obj.spec.access, s.world.user.value.access)
  {
    var e := Env(map[], "");
    assert Faultless(s.obj, s.world, e);
    assert Observe(s.obj, s.world, e) == Outcome(s.obj, s.world, Ok(Observation(true, true, true)));
    CredentialsAgree(s.obj, s.world, e);
  }

  // ---- The exact condition

  /** A live resource with its user in the cloud and its parent and password source readable. */
  predicate Steady(s: UserSnapshot) {
    !s.obj.deleting && s.obj.finalizer && s.world.user.Some? && Reachable(s.obj, s.world)
  }

  lemma FitSettles(t: Timers, s: UserSnapshot, es: seq<Env>)
    requires Steady(s) && UserFit(s.obj, s.world) && |es| >= 2 && FairRun(Ops, Faultless, t, s, es)
    ensures var s' := Passes(Ops, t, s, es);
            && s' == Passes(Ops, t, s, es[..2]) && s'.obj.IsReady()
            && Agreement(s'.obj.spec, s'.world) && Granted(s'.obj.spec.access, s'.world.user.value.access)
  {
    UserContract();
    forall e: Env | Faultless(s.obj, s.world, e)
      ensures Ops.observe(s.obj, s.world, e).result.Ok? && Ops.observe(s.obj, s.world, e).result.value.present
    {
      SeenFit(s.obj, s.world, e);
    }
    SettledAfter(Ops, UserFit, Faultless, t, s, es, 2);
    SettledAgrees(Passes(Ops, t, s, es));
  }

  /** A faultless pass over a resource that is not fit leaves it so, and not Ready. */
  lemma UnfitStays(t: Timers, s: UserSnapshot, e: Env)
    requires Steady(s) && !UserFit(s.obj, s.world) && e.faults == map[]
    ensures var s' := Once(Ops, t, s, e);
            Steady(s') && !UserFit(s'.obj, s'.world) && !s'.obj.IsReady()
  {
    var o, w := s.obj, s.world;
    var desired := DesiredPassword(o.spec, w, Works).value;
    LivePassPersists(Ops, t, o, w, e, Done);
    SentAccessMatchesIffExpressible(o.spec.access);
    if desired.Some? {
      SeenWithSource(o, w, e, desired.value);
    } else {
      SeenHealing(o, w, e);
    }
    var v := Observe(o, w, e);
    assert !v.result.value.upToDate;
    Repairs(v.obj, v.world, e);
    var u := Update(v.obj, v.world, e);
    var s' := Once(Ops, t, s, e);
    assert s'.obj == u.obj.(condition := Ready(false, Updating)) && s'.world == u.world;
  }

  lemma {:induction false} UnfitNeverReady(t: Timers, s: UserSnapshot, es: seq<Env>)
    requires Steady(s) && !UserFit(s.obj, s.world) && es != [] && FairRun(Ops, Faultless, t, s, es)
    ensures !Passes(Ops, t, s, es).obj.IsReady()
    decreases |es|
  {
    var s' := Once(Ops, t, s, es[0]);
    UnfitStays(t, s, es[0]);
    if |es| > 1 {
      UnfitNeverReady(t, s', es[1..]);
    } else {
      assert es[1..] == [];
    }
  }

  /** From any state - so after any rotation or deletion of Secrets, any change behind the operator's back
      and any faults - two faultless passes make a live user Ready, in agreement with its password source
      and its access control, and every later one keeps it so, if and only if the password can be sent and
      the access control said. */
  lemma AgreementRestoredIff(t: Timers, s: UserSnapshot, es: seq<Env>)
    requires Steady(s) && |es| >= 2 && FairRun(Ops, Faultless, t, s, es)
    ensures var s' := Passes(Ops, t, s, es);
            s'.obj.IsReady() <==> Sendable(s.obj.spec, s.world) && Sayable(s.obj.spec, s.world)
    ensures var s' := Passes(Ops, t, s, es);
            s'.obj.IsReady() ==>
              && s' == Passes(Ops, t, s, es[..2])
              && Agreement(s'.obj.spec, s'.world) && Granted(s'.obj.spec.access, s'.world.user.value.access)
  {
    if UserFit(s.obj, s.world) {
      FitSettles(t, s, es);
    } else {
      UnfitNeverReady(t, s, es);
    }
  }
}
