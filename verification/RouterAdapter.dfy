/** The Router kind's adapter (internal/controller/network/router_adapter.go). */
module RouterAdapter {
  import opened Support
  import opened Labels
  import opened Convert
  import opened Reconciler
  import opened NetworkCloud
  import opened NetworkTypes

  function ExternalName(r: RouterCR): string { if r.spec.name != "" then r.spec.name else r.name }

  predicate Carries(c: Cloud, id: Uuid, uid: string) { id in c.routers && HasUID(c.routers[id].labels, uid) }

  function Lookup(r: RouterCR, c: Cloud, f: Fault, pick: Uuid): Result<Option<Uuid>> {
    if !f.Works? then Err(Api(f.status))
    else if r.id != NO_UUID then Ok(if r.id in c.routers then Some(r.id) else None)
    else Ok(if Carries(c, pick, r.uid) then Some(pick) else None)
  }

  ghost predicate HonestPick(c: Cloud, uid: string, pick: Uuid) {
    forall id :: Carries(c, id, uid) ==> Carries(c, pick, uid)
  }

  ghost function AnyPick(c: Cloud, uid: string): (pick: Uuid)
    ensures HonestPick(c, uid, pick)
  {
    if id: Uuid :| Carries(c, id, uid) then id else NO_UUID
  }

  ghost function WantedRouter(r: RouterCR): Router {
    Router(ExternalName(r), Desired(r.uid, r.spec.labels), ToStaticRoutes(r.spec.staticRoutes), [])
  }

  ghost predicate InSync(r: RouterCR, rt: Router) {
    && rt.name == ExternalName(r)
    && RoutesMatch(rt.staticRoutes, r.spec.staticRoutes)
    && multiset(rt.labels) == multiset(Desired(r.uid, r.spec.labels))
  }

  ghost function Observe(r: RouterCR, c: Cloud, e: Env): Outcome<RouterSpec, RouterStatus, Cloud, Observation> {
    var found := Lookup(r, c, e.At(ObserveLookup), e.pick);
    if found.Err? then Outcome(r, c, Err(found.error)) else
    if found.value.None? then Outcome(r, c, Ok(ABSENT)) else
    var rt := c.routers[found.value.value];
    Outcome(r.(id := found.value.value, status := RouterStatus(rt.attached)), c,
      Ok(Observation(true, InSync(r, rt), true)))
  }

  ghost function Create(r: RouterCR, c: Cloud, e: Env): Outcome<RouterSpec, RouterStatus, Cloud, ()> {
    var (c', id) := CreateRouter(c, WantedRouter(r), e.At(CreateCall));
    if id.Err? then Outcome(r, c', Err(id.error)) else Outcome(r.(id := id.value), c', Ok(()))
  }

  ghost function Update(r: RouterCR, c: Cloud, e: Env): Outcome<RouterSpec, RouterStatus, Cloud, ()> {
    var (c', m) := ModifyRouter(c, r.id, ExternalName(r), Some(Desired(r.uid, r.spec.labels)),
        Some(ToStaticRoutes(r.spec.staticRoutes)), e.At(ModifyCall));
    Outcome(r, c', m)
  }

  ghost function Delete(r: RouterCR, c: Cloud, e: Env): Outcome<RouterSpec, RouterStatus, Cloud, ()> {
    if r.id == NO_UUID then Outcome(r, c, Ok(())) else
    var (c', d) := DeleteRouter(c, r.id, e.At(DeleteCall));
    Outcome(r, c', Deleted(d))
  }

  ghost const Ops: Adapter<RouterSpec, RouterStatus, Cloud, Env> := Adapter(Observe, Create, Update, Delete)

  class AdapterObject {
    const api: NetworkAPI

    constructor (api: NetworkAPI)
      ensures this.api == api
    {
      this.api := api;
    }

    method Find(n: RouterCR, f: Fault) returns (r: Result<Option<Uuid>>, ghost pick: Uuid)
      ensures HonestPick(api.View(), n.uid, pick)
      ensures r == Lookup(n, api.View(), f, pick)
      ensures r.Ok? && r.value.Some? ==> r.value.value in api.routers
    {
      ghost var c := api.View();
      pick := AnyPick(c, n.uid);
      if n.id != NO_UUID {
        var rt := api.GetRouterDetails(n.id, f);
        if rt.Err? && IsNotFound(rt.error) {
          return Ok(None), pick;
        }
        return if rt.Err? then Err(rt.error) else Ok(Some(n.id)), pick;
      }
      var list := api.GetRouters(n.uid, f);
      if list.Err? {
        return Err(list.error), pick;
      }
      for i := 0 to |list.value|
        invariant forall k :: 0 <= k < i ==> !HasUID(list.value[k].1.labels, n.uid)
      {
        var has := HasUIDScan(list.value[i].1.labels, n.uid);
        if has {
          assert list.value[i] in list.value;
          return Ok(Some(list.value[i].0)), list.value[i].0;
        }
      }
      forall id | id in c.routers ensures !HasUID(c.routers[id].labels, n.uid) {
        var p := (id, c.routers[id]);
        assert p in list.value <==> HasUID(p.1.labels, n.uid);
      }
      return Ok(None), pick;
    }

    method ObserveCall(
      n: Resource<RouterSpec, RouterStatus>, faults: map<Site, Fault>) returns (r: Result<Observation>, ghost e: Env)
      modifies n
      ensures e.faults == faults && HonestPick(api.View(), n.cr.uid, e.pick)
      ensures Outcome(n.cr, api.View(), r) == Observe(old(n.cr), old(api.View()), e)
    {
      var plain := Env(faults, NO_UUID, true);
      var found, pick := Find(n.cr, plain.At(ObserveLookup));
      e := plain.(pick := pick);
      if found.Err? {
        return Err(found.error), e;
      }
      if found.value.None? {
        return Ok(ABSENT), e;
      }
      var rt := api.routers[found.value.value];
      var upToDate := Compare(n.cr, rt);
      n.cr := n.cr.(id := found.value.value, status := RouterStatus([]));
      for i := 0 to |rt.attached|
        modifies n
        invariant n.cr == old(n.cr).(id := found.value.value, status := RouterStatus(rt.attached[..i]))
      {
        assert rt.attached[..i + 1] == rt.attached[..i] + [rt.attached[i]];
        n.cr := n.cr.(status := RouterStatus(n.cr.status.attached + [rt.attached[i]]));
      }
      assert rt.attached[..|rt.attached|] == rt.attached;
      r := Ok(Observation(true, upToDate, true));
    }

    method Compare(n: RouterCR, rt: Router) returns (r: bool)
      ensures r == InSync(n, rt)
    {
      var mine := UserRoutesLoop(rt.staticRoutes);
      var wanted := ToStaticRoutesLoop(n.spec.staticRoutes);
      var routesEqual := RoutesEqualSorted(mine, wanted);
      var labels := DesiredLabels(n.uid, n.spec.labels);
      var labelsEqual := LabelsEqual(rt.labels, labels);
      r := rt.name == ExternalName(n) && routesEqual && labelsEqual;
    }

    method CreateRt(n: Resource<RouterSpec, RouterStatus>, e: Env) returns (r: Result<()>)
      modifies n, api
      ensures Outcome(n.cr, api.View(), r) == Create(old(n.cr), old(api.View()), e)
    {
      var labels := DesiredLabels(n.cr.uid, n.cr.spec.labels);
      var routes := ToStaticRoutesLoop(n.cr.spec.staticRoutes);
      var id := api.CreateRouterCall(Router(ExternalName(n.cr), labels, routes, []), e.At(CreateCall));
      if id.Err? {
        return Err(id.error);
      }
      n.cr := n.cr.(id := id.value);
      return Ok(());
    }

    method UpdateRt(n: Resource<RouterSpec, RouterStatus>, e: Env) returns (r: Result<()>)
      modifies api
      ensures Outcome(n.cr, api.View(), r) == Update(old(n.cr), old(api.View()), e)
    {
      var labels := DesiredLabels(n.cr.uid, n.cr.spec.labels);
      var routes := ToStaticRoutesLoop(n.cr.spec.staticRoutes);
      r := api.ModifyRouterCall(n.cr.id, ExternalName(n.cr), Some(labels), Some(routes), e.At(ModifyCall));
    }

    method DeleteRt(n: Resource<RouterSpec, RouterStatus>, e: Env) returns (r: Result<()>)
      modifies api
      ensures Outcome(n.cr, api.View(), r) == Delete(old(n.cr), old(api.View()), e)
    {
      if n.cr.id == NO_UUID {
        return Ok(());
      }
      var d := api.DeleteRouterCall(n.cr.id, e.At(DeleteCall));
      if d.Ok? || IsNotFound(d.error) {
        return Ok(());
      }
      return if IsConflict(d.error) then Err(Pending) else d;
    }
  }

  // ---- What the calls mean

  /** The router a successful create leaves under the recorded identity, field by field. */
  lemma CreatedRouterIs(r: RouterCR, c: Cloud, e: Env)
    requires Create(r, c, e).result.Ok?
    ensures var made, id := Create(r, c, e), c.last + 1;
            && made.obj.id == id && id in made.world.routers
            && made.world == c.(routers := c.routers[id := made.world.routers[id]], last := id)
            && var rt := made.world.routers[id];
               && rt.name == (if r.spec.name != "" then r.spec.name else r.name)
               && rt.staticRoutes == ToStaticRoutes(r.spec.staticRoutes) && rt.attached == []
               && multiset(rt.labels) == multiset(Desired(r.uid, r.spec.labels))
  {
  }

  /** The verdict on a router that is found, field by field, and what the status records of it. */
  lemma ObservedRouterIff(r: RouterCR, c: Cloud, e: Env)
    requires e.At(ObserveLookup).Works? && r.id != NO_UUID && r.id in c.routers
    ensures var v, rt := Observe(r, c, e), c.routers[r.id];
            && v.result.Ok? && v.result.value.present && v.result.value.ready && v.world == c
            && (v.result.value.upToDate <==>
                  && rt.name == (if r.spec.name != "" then r.spec.name else r.name)
                  && RoutesMatch(rt.staticRoutes, r.spec.staticRoutes)
                  && multiset(rt.labels) == multiset(Desired(r.uid, r.spec.labels)))
            && v.obj.id == r.id && v.obj.status.attached == rt.attached
  {
  }

  lemma AdoptedIff(r: RouterCR, c: Cloud, e: Env)
    requires e.At(ObserveLookup).Works? && r.id == NO_UUID && HonestPick(c, r.uid, e.pick)
    ensures var v := Observe(r, c, e);
            && v.result.Ok? && (v.result.value.present <==> exists k :: Carries(c, k, r.uid))
            && (v.result.value.present ==> Carries(c, v.obj.id, r.uid))
            && (!v.result.value.present ==> v.obj == r)
  {
    assert Carries(c, e.pick, r.uid) <==> exists k :: Carries(c, k, r.uid);
  }

  /** An update that returns nil has made the router what the spec says and kept what the API reports as attached. */
  lemma UpdatedRouterIs(r: RouterCR, c: Cloud, e: Env)
    requires Update(r, c, e).result.Ok?
    ensures var c' := Update(r, c, e).world;
            && r.id in c.routers && r.id in c'.routers && c' == c.(routers := c.routers[r.id := c'.routers[r.id]])
            && var rt := c'.routers[r.id];
               && rt.name == (if r.spec.name != "" then r.spec.name else r.name)
               && rt.staticRoutes == ToStaticRoutes(r.spec.staticRoutes) && rt.attached == c.routers[r.id].attached
               && multiset(rt.labels) == multiset(Desired(r.uid, r.spec.labels))
  {
  }

  /** Whatever cannot be read or done is reported as it is. */
  lemma FailedCalls(r: RouterCR, c: Cloud, e: Env)
    ensures !e.At(ObserveLookup).Works? ==> Observe(r, c, e) == Outcome(r, c, Err(Api(e.At(ObserveLookup).status)))
    ensures e.At(ObserveLookup).Works? && r.id != NO_UUID && r.id !in c.routers ==>
              Observe(r, c, e) == Outcome(r, c, Ok(Observation(false, false, false)))
    ensures e.At(CreateCall).Refused? ==> Create(r, c, e) == Outcome(r, c, Err(Api(e.At(CreateCall).status)))
    ensures e.At(ModifyCall).Refused? ==> Update(r, c, e).result.Err? && Update(r, c, e).world == c
    ensures r.id !in c.routers && e.At(ModifyCall).Works? ==> Update(r, c, e) == Outcome(r, c, Err(Api(404)))
  {
  }

  /** Deleted or gone already is success; attached networks and conflicts are pending; else an error. */
  lemma DeleteAnswers(r: RouterCR, c: Cloud, e: Env)
    requires r.id != NO_UUID
    ensures var d, f := Delete(r, c, e), e.At(DeleteCall);
            && (f.Works? && r.id in c.routers && Attached(c, r.id) ==> d == Outcome(r, c, Err(Pending)))
            && (f.Works? && !(r.id in c.routers && Attached(c, r.id)) ==>
                 d.result == Ok(()) && r.id !in d.world.routers)
            && (!f.Works? ==> d.result == Err(if f.status == CONFLICT then Pending else Api(f.status)))
  {
  }
}
