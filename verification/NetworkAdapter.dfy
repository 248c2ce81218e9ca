/** The Network kind's adapter (internal/controller/network/network_adapter.go) and the dependency
    gate it uses (internal/resolve/resolve.go). */
module NetworkAdapter {
  import opened Support
  import opened Labels
  import opened Convert
  import opened Reconciler
  import opened NetworkCloud
  import opened NetworkTypes

  /** What the Network adapter reads and writes: the cloud, and the Router resources it resolves. */
  datatype NetWorld = NetWorld(cloud: Cloud, routerObjs: map<string, RouterCR>)

  function ExternalName(n: NetworkCR): string { if n.spec.name != "" then n.spec.name else n.name }

  /** The gate on a referenced Router: it exists, has an identity and is Ready. */
  function ResolveReady(objs: map<string, RouterCR>, name: string, f: Fault): Result<Uuid> {
    if !f.Works? then Err(Other)
    else if name !in objs || objs[name].id == NO_UUID || !objs[name].IsReady() then Err(DependencyNotReady)
    else Ok(objs[name].id)
  }

  /** An explicit router UUID wins, then the referenced Router. */
  function DesiredRouter(n: NetworkCR, w: NetWorld, f: Fault): Result<Uuid> {
    if n.spec.routerUUID != NO_UUID then Ok(n.spec.routerUUID)
    else if n.spec.routerRef.Some? then ResolveReady(w.routerObjs, n.spec.routerRef.value, f)
    else Ok(NO_UUID)
  }

  predicate Carries(c: Cloud, id: Uuid, uid: string) { id in c.networks && HasUID(c.networks[id].labels, uid) }

  /** By recorded identity if there is one, else by the owner's label. */
  function Lookup(n: NetworkCR, c: Cloud, f: Fault, pick: Uuid): Result<Option<Uuid>> {
    if !f.Works? then Err(Api(f.status))
    else if n.id != NO_UUID then Ok(if n.id in c.networks then Some(n.id) else None)
    else Ok(if Carries(c, pick, n.uid) then Some(pick) else None)
  }

  /** A list call that finds a match yields a match. */
  ghost predicate HonestPick(c: Cloud, uid: string, pick: Uuid) {
    forall id :: Carries(c, id, uid) ==> Carries(c, pick, uid)
  }

  ghost function AnyPick(c: Cloud, uid: string): (pick: Uuid)
    ensures HonestPick(c, uid, pick)
  {
    if id: Uuid :| Carries(c, id, uid) then id else NO_UUID
  }

  ghost function SubnetsEqual(observed: seq<IPNetwork>, desired: seq<IPNetwork>, tie: bool): bool {
    if Agreeing(desired) then SubnetsMatch(observed, desired) else tie
  }

  ghost function DesiredLabelsOf(n: NetworkCR): seq<Label> { Desired(n.uid, n.spec.labels) }

  ghost predicate Drifted(n: NetworkCR, net: Network, tie: bool) {
    || net.name != ExternalName(n)
    || !SubnetsEqual(net.ipNetworks, ToIPNetworks(n.spec.ipNetworks), tie)
    || multiset(net.labels) != multiset(DesiredLabelsOf(n))
  }

  ghost function Observe(
    n: NetworkCR, w: NetWorld, e: Env): Outcome<NetworkSpec, NetworkStatus, NetWorld, Observation> {
    var router := DesiredRouter(n, w, e.At(ObserveResolve));
    if router.Err? then Outcome(n, w, Err(router.error)) else
    var found := Lookup(n, w.cloud, e.At(ObserveLookup), e.pick);
    if found.Err? then Outcome(n, w, Err(found.error)) else
    if found.value.None? then Outcome(n, w, Ok(ABSENT)) else
    var net := w.cloud.networks[found.value.value];
    Outcome(n.(id := found.value.value, status := NetworkStatus(net.router)), w,
            Ok(Observation(true, !Drifted(n, net, e.tie) && net.router == router.value, true)))
  }

  ghost function FreshNetwork(n: NetworkCR, router: Uuid): Network {
    Network(ExternalName(n), n.spec.zone, router, ToIPNetworks(n.spec.ipNetworks), DesiredLabelsOf(n))
  }

  ghost function Create(n: NetworkCR, w: NetWorld, e: Env): Outcome<NetworkSpec, NetworkStatus, NetWorld, ()> {
    var router := DesiredRouter(n, w, e.At(CreateResolve));
    if router.Err? then Outcome(n, w, Err(router.error)) else
    var (c, id) := CreateNetwork(w.cloud, FreshNetwork(n, router.value), e.At(CreateCall));
    if id.Err? then Outcome(n, w.(cloud := c), Err(id.error))
    else Outcome(n.(id := id.value, status := NetworkStatus(router.value)), w.(cloud := c), Ok(()))
  }

  /** Modify first, router attachment last. */
  ghost function Update(n: NetworkCR, w: NetWorld, e: Env): Outcome<NetworkSpec, NetworkStatus, NetWorld, ()> {
    var router := DesiredRouter(n, w, e.At(UpdateResolve));
    if router.Err? then Outcome(n, w, Err(router.error)) else
    var found := Lookup(n, w.cloud, e.At(UpdateLookup), e.pick);
    if found.Err? then Outcome(n, w, Err(found.error)) else
    if found.value.None? then Outcome(n, w, Err(Pending)) else
    var id := found.value.value;
    var net := w.cloud.networks[id];
    var (c1, r1) := ModifyStep(n, w.cloud, id, e);
    if r1.Err? then Outcome(n, w.(cloud := c1), Err(r1.error)) else
    var (c2, r2) := RouterStep(c1, id, net.router, router.value, e.At(RouterCall));
    Outcome(n, w.(cloud := c2), r2)
  }

  ghost function ModifyStep(n: NetworkCR, c: Cloud, id: Uuid, e: Env): (Cloud, Result<()>)
    requires id in c.networks
  {
    var net := c.networks[id];
    if !Drifted(n, net, e.tie) then (c, Ok(()))
    else
      var subnets := ToIPNetworks(n.spec.ipNetworks);
      ModifyNetwork(c, id, ExternalName(n), if SubnetsEqual(net.ipNetworks, subnets, e.tie) then None
        else Some(subnets),
                    Some(DesiredLabelsOf(n)), e.At(ModifyCall))
  }

  function RouterStep(c: Cloud, id: Uuid, current: Uuid, desired: Uuid, f: Fault): (Cloud, Result<()>) {
    if current != desired then SetNetworkRouter(c, id, desired, f) else (c, Ok(()))
  }

  /** Nothing recorded is nothing to delete. */
  ghost function Delete(n: NetworkCR, w: NetWorld, e: Env): Outcome<NetworkSpec, NetworkStatus, NetWorld, ()> {
    if n.id == NO_UUID then Outcome(n, w, Ok(())) else
    var (c, r) := DeleteNetwork(w.cloud, n.id, e.At(DeleteCall));
    Outcome(n, w.(cloud := c), Deleted(r))
  }

  ghost const Ops: Adapter<NetworkSpec, NetworkStatus, NetWorld, Env> := Adapter(Observe, Create, Update, Delete)

  /** c' is c up to one network's entry. */
  ghost predicate SameBut(c: Cloud, c': Cloud, id: Uuid) {
    && c'.routers == c.routers && c'.last == c.last
    && id in c.networks && id in c'.networks && c'.networks == c.networks[id := c'.networks[id]]
  }

  lemma ModifyStepRewrites(n: NetworkCR, c: Cloud, id: Uuid, e: Env)
    requires id in c.networks
    ensures var c' := ModifyStep(n, c, id, e).0;
            && SameBut(c, c', id)
            && c'.networks[id].labels in [c.networks[id].labels, DesiredLabelsOf(n)]
            && c'.networks[id].router == c.networks[id].router
  {
    var c' := ModifyStep(n, c, id, e).0;
    assert c'.networks == c.networks[id := c'.networks[id]];
  }

  lemma RouterStepRewrites(c: Cloud, id: Uuid, current: Uuid, desired: Uuid, f: Fault)
    requires id in c.networks
    ensures var c' := RouterStep(c, id, current, desired, f).0;
            && SameBut(c, c', id)
            && c'.networks[id].labels == c.networks[id].labels
            && c'.networks[id].router in [c.networks[id].router, desired]
  {
    var c' := RouterStep(c, id, current, desired, f).0;
    assert c'.networks == c.networks[id := c'.networks[id]];
  }

  /** An update rewrites at most the network it is about: the labels stay or become the owner's, the
      router stays or becomes the desired one. */
  lemma UpdateRewrites(n: NetworkCR, w: NetWorld, e: Env)
    requires n.id != NO_UUID && n.id in w.cloud.networks
    ensures var u := Update(n, w, e);
            var c, c' := w.cloud, u.world.cloud;
            && u.obj == n && u.world.routerObjs == w.routerObjs
            && SameBut(c, c', n.id)
            && c'.networks[n.id].labels in [c.networks[n.id].labels, DesiredLabelsOf(n)]
            && (c'.networks[n.id].router == c.networks[n.id].router
                || DesiredRouter(n, w, e.At(UpdateResolve)) == Ok(c'.networks[n.id].router))
  {
    var router := DesiredRouter(n, w, e.At(UpdateResolve));
    if router.Err? || !e.At(UpdateLookup).Works? {
      assert Update(n, w, e).world == w;
    } else {
      ModifyStepRewrites(n, w.cloud, n.id, e);
      var (c1, r1) := ModifyStep(n, w.cloud, n.id, e);
      var current := w.cloud.networks[n.id].router;
      if r1.Err? {
        assert Update(n, w, e).world == w.(cloud := c1);
      } else {
        RouterStepRewrites(c1, n.id, current, router.value, e.At(RouterCall));
        var c2 := RouterStep(c1, n.id, current, router.value, e.At(RouterCall)).0;
        assert Update(n, w, e).world == w.(cloud := c2);
        SameButTransitive(w.cloud, c1, c2, n.id);
      }
    }
  }

  lemma SameButTransitive(c0: Cloud, c1: Cloud, c2: Cloud, id: Uuid)
    requires SameBut(c0, c1, id) && SameBut(c1, c2, id)
    ensures SameBut(c0, c2, id)
  {
    assert c2.networks == c0.networks[id := c2.networks[id]];
  }

  // ---- The adapter as an object

  class Client {
    var routerObjs: map<string, RouterCR>

    constructor (objs: map<string, RouterCR>)
      ensures routerObjs == objs
    {
      routerObjs := objs;
    }
  }

  class AdapterObject {
    const api: NetworkAPI
    const client: Client

    constructor (api: NetworkAPI, client: Client)
      ensures this.api == api && this.client == client
    {
      this.api := api;
      this.client := client;
    }

    function World(): NetWorld
      reads api, client
    {
      NetWorld(api.View(), client.routerObjs)
    }

    method DesiredRouterUUID(n: NetworkCR, f: Fault) returns (r: Result<Uuid>)
      ensures r == DesiredRouter(n, World(), f)
    {
      if n.spec.routerUUID != NO_UUID {
        return Ok(n.spec.routerUUID);
      }
      if n.spec.routerRef.Some? {
        return ResolveReady(client.routerObjs, n.spec.routerRef.value, f);
      }
      return Ok(NO_UUID);
    }

    /** Returns the match and, as `pick`, the entry the list happened to yield first. */
    method Find(n: NetworkCR, f: Fault) returns (r: Result<Option<Uuid>>, ghost pick: Uuid)
      ensures HonestPick(api.View(), n.uid, pick)
      ensures r == Lookup(n, api.View(), f, pick)
      ensures r.Ok? && r.value.Some? ==> r.value.value in api.networks
    {
      ghost var c := api.View();
      pick := AnyPick(c, n.uid);
      if n.id != NO_UUID {
        var net := api.GetNetworkDetails(n.id, f);
        if net.Err? && IsNotFound(net.error) {
          return Ok(None), pick;
        }
        return if net.Err? then Err(net.error) else Ok(Some(n.id)), pick;
      }
      var list := api.GetNetworks(n.uid, f);
      if list.Err? {
        return Err(list.error), pick;
      }
      for i := 0 to |list.value|
        invariant forall k :: 0 <= k < i ==> !HasUID(list.value[k].1.labels, n.uid)
      {
        var has := HasUIDScan(list.value[i].1.labels, n.uid);
        if has {
          assert list.value[i] in list.value;
          return Ok(Some(list.value[i].0)), list.value[i].0;
        }
      }
      forall id | id in c.networks ensures !HasUID(c.networks[id].labels, n.uid) {
        var p := (id, c.networks[id]);
        assert p in list.value <==> HasUID(p.1.labels, n.uid);
      }
      return Ok(None), pick;
    }

    /** Name, subnets and labels against the spec. */
    method Compare(n: NetworkCR, net: Network) returns (subnetsEqual: bool, drifted: bool, ghost tie: bool)
      ensures subnetsEqual == SubnetsEqual(net.ipNetworks, ToIPNetworks(n.spec.ipNetworks), tie)
      ensures drifted == Drifted(n, net, tie)
      ensures Agreeing(ToIPNetworks(n.spec.ipNetworks)) ==>
                (subnetsEqual <==> SubnetsMatch(net.ipNetworks, ToIPNetworks(n.spec.ipNetworks)))
      ensures !drifted <==>
          net.name == ExternalName(n) && subnetsEqual && multiset(net.labels) == multiset(DesiredLabelsOf(n))
    {
      var subnets := ToIPNetworksLoop(n.spec.ipNetworks);
      subnetsEqual := IPNetworksEqual(net.ipNetworks, subnets);
      tie := subnetsEqual;
      var labels := DesiredLabels(n.uid, n.spec.labels);
      var labelsEqual := LabelsEqual(net.labels, labels);
      drifted := net.name != ExternalName(n) || !subnetsEqual || !labelsEqual;
    }

    method ObserveCall(
      n: Resource<NetworkSpec, NetworkStatus>, faults: map<Site, Fault>) returns (r: Result<Observation>, ghost e: Env)
      modifies n
      ensures e.faults == faults && HonestPick(api.View(), n.cr.uid, e.pick)
      ensures Outcome(n.cr, World(), r) == Observe(old(n.cr), old(World()), e)
    {
      var plain := Env(faults, NO_UUID, true);
      e := plain.(pick := AnyPick(api.View(), n.cr.uid));
      var router := DesiredRouterUUID(n.cr, plain.At(ObserveResolve));
      if router.Err? {
        return Err(router.error), e;
      }
      var found, pick := Find(n.cr, plain.At(ObserveLookup));
      e := e.(pick := pick);
      if found.Err? {
        return Err(found.error), e;
      }
      if found.value.None? {
        return Ok(ABSENT), e;
      }
      var net := api.networks[found.value.value];
      var subnetsEqual, drifted, tie := Compare(n.cr, net);
      e := e.(tie := tie);
      n.cr := n.cr.(id := found.value.value, status := NetworkStatus(net.router));
      r := Ok(Observation(true, !drifted && net.router == router.value, true));
    }

    method CreateNet(n: Resource<NetworkSpec, NetworkStatus>, e: Env) returns (r: Result<()>)
      modifies n, api
      ensures Outcome(n.cr, World(), r) == Create(old(n.cr), old(World()), e)
    {
      var router := DesiredRouterUUID(n.cr, e.At(CreateResolve));
      if router.Err? {
        return Err(router.error);
      }
      var subnets := ToIPNetworksLoop(n.cr.spec.ipNetworks);
      var labels := DesiredLabels(n.cr.uid, n.cr.spec.labels);
      var id := api.CreateNetworkCall(Network(ExternalName(n.cr), n.cr.spec.zone, router.value, subnets, labels),
          e.At(CreateCall));
      if id.Err? {
        return Err(id.error);
      }
      n.cr := n.cr.(id := id.value, status := NetworkStatus(router.value));
      return Ok(());
    }

    method UpdateNet(
      n: Resource<NetworkSpec, NetworkStatus>, faults: map<Site, Fault>) returns (r: Result<()>, ghost e: Env)
      modifies n, api
      ensures e.faults == faults && HonestPick(old(api.View()), n.cr.uid, e.pick)
      ensures Outcome(n.cr, World(), r) == Update(old(n.cr), old(World()), e)
    {
      var plain := Env(faults, NO_UUID, true);
      e := plain.(pick := AnyPick(api.View(), n.cr.uid));
      var router := DesiredRouterUUID(n.cr, plain.At(UpdateResolve));
      if router.Err? {
        return Err(router.error), e;
      }
      var found, pick := Find(n.cr, plain.At(UpdateLookup));
      e := e.(pick := pick);
      if found.Err? {
        return Err(found.error), e;
      }
      if found.value.None? {
        return Err(Pending), e;
      }
      var id := found.value.value;
      var current := api.networks[id].router;
      var m, tie := Modify(n.cr, id, faults, pick);
      e := e.(tie := tie);
      if m.Err? {
        return Err(m.error), e;
      }
      r := SetRouter(id, current, router.value, plain.At(RouterCall));
    }

    /** One modify call when name, subnets or labels drifted; subnets only if they did. */
    method Modify(
      n: NetworkCR, id: Uuid, faults: map<Site, Fault>, ghost pick: Uuid) returns (r: Result<()>, ghost tie: bool)
      requires id in api.networks
      modifies api
      ensures (api.View(), r) == ModifyStep(n, old(api.View()), id, Env(faults, pick, tie))
    {
      var net := api.networks[id];
      var subnetsEqual, drifted;
      subnetsEqual, drifted, tie := Compare(n, net);
      if !drifted {
        return Ok(()), tie;
      }
      var subnets := ToIPNetworksLoop(n.spec.ipNetworks);
      var labels := DesiredLabels(n.uid, n.spec.labels);
      r := api.ModifyNetworkCall(id, ExternalName(n), if subnetsEqual then None else Some(subnets), Some(labels),
                                 Env(faults, NO_UUID, true).At(ModifyCall));
    }

    /** Attach when another router is wanted, detach when none is. */
    method SetRouter(id: Uuid, current: Uuid, desired: Uuid, f: Fault) returns (r: Result<()>)
      modifies api
      ensures (api.View(), r) == RouterStep(old(api.View()), id, current, desired, f)
    {
      r := Ok(());
      if current != desired && desired != NO_UUID {
        r := api.AttachNetworkRouter(id, desired, f);
      } else if current != NO_UUID && desired == NO_UUID {
        r := api.DetachNetworkRouter(id, f);
      }
    }

    method DeleteNet(n: Resource<NetworkSpec, NetworkStatus>, e: Env) returns (r: Result<()>)
      modifies api
      ensures Outcome(n.cr, World(), r) == Delete(old(n.cr), old(World()), e)
    {
      if n.cr.id == NO_UUID {
        return Ok(());
      }
      var d := api.DeleteNetworkCall(n.cr.id, e.At(DeleteCall));
      if d.Ok? || IsNotFound(d.error) {
        return Ok(());
      }
      return if IsConflict(d.error) then Err(Pending) else d;
    }
  }

  // ---- What the calls mean

  /** The gate on a Router: there, with an identity, and Ready. */
  lemma ResolveReadyIff(objs: map<string, RouterCR>, name: string, f: Fault, id: Uuid)
    ensures ResolveReady(objs, name, f) == Ok(id) <==>
              f.Works? && name in objs && objs[name].IsReady() && objs[name].id == id != NO_UUID
    ensures ResolveReady(objs, name, f) == Err(DependencyNotReady) <==>
              f.Works? && !(name in objs && objs[name].IsReady() && objs[name].id != NO_UUID)
  {
  }

  /** An explicit UUID needs no Router; a reference needs a Ready one; with neither, none is wanted. */
  lemma DesiredRouterIs(n: NetworkCR, w: NetWorld, f: Fault)
    ensures n.spec.routerUUID != NO_UUID ==> DesiredRouter(n, w, f) == Ok(n.spec.routerUUID)
    ensures n.spec.routerUUID == NO_UUID && n.spec.routerRef.None? ==> DesiredRouter(n, w, f) == Ok(NO_UUID)
    ensures n.spec.routerUUID == NO_UUID && n.spec.routerRef.Some? ==>
              DesiredRouter(n, w, f) == ResolveReady(w.routerObjs, n.spec.routerRef.value, f)
  {
  }

  /** The network a successful create leaves under the recorded identity, field by field. */
  lemma CreatedNetworkIs(n: NetworkCR, w: NetWorld, e: Env)
    requires Create(n, w, e).result.Ok?
    ensures var c, id := Create(n, w, e), w.cloud.last + 1;
            && c.obj.id == id && id in c.world.cloud.networks
            && c.world.cloud == w.cloud.(networks := w.cloud.networks[id := c.world.cloud.networks[id]], last := id)
            && var net := c.world.cloud.networks[id];
               && net.name == (if n.spec.name != "" then n.spec.name else n.name) && net.zone == n.spec.zone
               && DesiredRouter(n, w, Works) == Ok(net.router) && c.obj.status.router == net.router
               && net.ipNetworks == ToIPNetworks(n.spec.ipNetworks)
               && multiset(net.labels) == multiset(Desired(n.uid, n.spec.labels))
  {
  }

  /** The verdict on a network that is found, field by field, and what the status records of it. */
  lemma ObservedNetworkIff(n: NetworkCR, w: NetWorld, e: Env)
    requires e.At(ObserveResolve).Works? && e.At(ObserveLookup).Works? && DesiredRouter(n, w, Works).Ok?
    requires n.id != NO_UUID && n.id in w.cloud.networks && Agreeing(ToIPNetworks(n.spec.ipNetworks))
    ensures var v, net := Observe(n, w, e), w.cloud.networks[n.id];
            && v.result.Ok? && v.result.value.present && v.result.value.ready && v.world == w
            && (v.result.value.upToDate <==>
                  && net.name == (if n.spec.name != "" then n.spec.name else n.name)
                  && SubnetsMatch(net.ipNetworks, ToIPNetworks(n.spec.ipNetworks))
                  && multiset(net.labels) == multiset(Desired(n.uid, n.spec.labels))
                  && DesiredRouter(n, w, Works) == Ok(net.router))
            && v.obj.id == n.id && v.obj.status.router == net.router
  {
  }

  /** With no identity on record a network carrying the owner's uid is adopted, and only such a one. */
  lemma AdoptedIff(n: NetworkCR, w: NetWorld, e: Env)
    requires e.At(ObserveResolve).Works? && e.At(ObserveLookup).Works? && DesiredRouter(n, w, Works).Ok?
    requires n.id == NO_UUID && HonestPick(w.cloud, n.uid, e.pick)
    ensures var v := Observe(n, w, e);
            && v.result.Ok? && (v.result.value.present <==> exists k :: Carries(w.cloud, k, n.uid))
            && (v.result.value.present ==> Carries(w.cloud, v.obj.id, n.uid))
            && (!v.result.value.present ==> v.obj == n)
  {
    assert Carries(w.cloud, e.pick, n.uid) <==> exists k :: Carries(w.cloud, k, n.uid);
  }

  /** A refused modify stops an update: the router stays as it is. */
  lemma RefusedModifyStops(n: NetworkCR, w: NetWorld, e: Env)
    requires n.id != NO_UUID && n.id in w.cloud.networks && Drifted(n, w.cloud.networks[n.id], e.tie)
    requires e.At(ModifyCall).Refused?
    ensures Update(n, w, e).world == w && Update(n, w, e).result.Err?
  {
  }

  /** Deleted or gone already is success, a conflict is pending, anything else is an error. */
  lemma DeleteAnswers(n: NetworkCR, w: NetWorld, e: Env)
    requires n.id != NO_UUID
    ensures var d, f := Delete(n, w, e), e.At(DeleteCall);
            && (f.Works? ==> d.result == Ok(()) && n.id !in d.world.cloud.networks)
            && (!f.Works? && f.status == CONFLICT ==> d.result == Err(Pending))
            && (!f.Works? && f.status != CONFLICT ==> d.result == Err(Api(f.status)))
  {
  }

  /** Whatever cannot be resolved or read is reported as it is, and nothing is changed for it. */
  lemma FailedReads(n: NetworkCR, w: NetWorld, e: Env)
    requires DesiredRouter(n, w, Works).Ok?
    ensures e.At(ObserveResolve).Works? && !e.At(ObserveLookup).Works? ==>
              Observe(n, w, e) == Outcome(n, w, Err(Api(e.At(ObserveLookup).status)))
    ensures e.At(UpdateResolve).Works? && !e.At(UpdateLookup).Works? ==>
              Update(n, w, e) == Outcome(n, w, Err(Api(e.At(UpdateLookup).status)))
    ensures e.At(UpdateResolve).Works? && e.At(UpdateLookup).Works? && n.id != NO_UUID && n.id !in w.cloud.networks ==>
              Update(n, w, e) == Outcome(n, w, Err(Pending))
    ensures e.At(ObserveResolve).Works? && e.At(ObserveLookup).Works? && n.id != NO_UUID
            && n.id !in w.cloud.networks ==>
              Observe(n, w, e) == Outcome(n, w, Ok(Observation(false, false, false)))
  {
  }

  /** With a Router that is not Ready nothing is done. */
  lemma DependencyGate(n: NetworkCR, w: NetWorld, e: Env)
    requires e.At(ObserveResolve).Works? && e.At(CreateResolve).Works? && e.At(UpdateResolve).Works?
    requires DesiredRouter(n, w, Works) == Err(DependencyNotReady)
    ensures Observe(n, w, e) == Outcome(n, w, Err(DependencyNotReady))
    ensures Create(n, w, e) == Outcome(n, w, Err(DependencyNotReady))
    ensures Update(n, w, e) == Outcome(n, w, Err(DependencyNotReady))
  {
  }

  /** A create that is refused records nothing. */
  lemma RefusedCreate(n: NetworkCR, w: NetWorld, e: Env)
    requires e.At(CreateResolve).Works? && DesiredRouter(n, w, Works).Ok? && e.At(CreateCall).Refused?
    ensures Create(n, w, e) == Outcome(n, w, Err(Api(e.At(CreateCall).status)))
  {
  }
}
