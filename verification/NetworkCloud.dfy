/** The cloud's rules for networks and routers, as the in-memory API states them
    (internal/upcloudapi/fake/network.go). Each call carries the fault the environment deals it. */
module NetworkCloud {
  import opened Support
  import opened Labels
  import opened Convert

  datatype Network = Network(name: string, zone: string, router: Uuid, ipNetworks: seq<IPNetwork>, labels: seq<Label>)

  /** `attached` is what the API reports as attached networks; the rules below never fill it. */
  datatype Router = Router(name: string, labels: seq<Label>, staticRoutes: seq<StaticRoute>, attached: seq<Uuid>)

  /** Every identifier handed out so far is at most `last`; networks and routers share the counter. */
  datatype Cloud = Cloud(networks: map<Uuid, Network>, routers: map<Uuid, Router>, last: nat)

  predicate Attached(c: Cloud, router: Uuid) {
    exists k :: k in c.networks && c.networks[k].router == router
  }

  function CreateNetwork(c: Cloud, net: Network, f: Fault): (Cloud, Result<Uuid>) {
    var id := c.last + 1;
    (if TakesEffect(f) then c.(networks := c.networks[id := net], last := id) else c, Answer(f, Ok(id)))
  }

  /** An empty name, absent subnets and absent labels say nothing. */
  function Modified(
    net: Network, name: string, ipNetworks: Option<seq<IPNetwork>>, labels: Option<seq<Label>>): Network {
    net.(name := if name != "" then name else net.name,
         ipNetworks := Or(ipNetworks, net.ipNetworks),
         labels := Or(labels, net.labels))
  }

  function ModifyNetwork(
    c: Cloud, id: Uuid, name: string, ipNetworks: Option<seq<IPNetwork>>, labels: Option<seq<Label>>,
    f: Fault): (Cloud, Result<()>) {
    if id !in c.networks then (c, Answer(f, Err(Api(NOT_FOUND))))
    else (if TakesEffect(f) then c.(networks := c.networks[id := Modified(c.networks[id], name, ipNetworks, labels)])
      else c, Answer(f, Ok(())))
  }

  function DeleteNetwork(c: Cloud, id: Uuid, f: Fault): (Cloud, Result<()>) {
    if id !in c.networks then (c, Answer(f, Err(Api(NOT_FOUND))))
    else (if TakesEffect(f) then c.(networks := c.networks - {id}) else c, Answer(f, Ok(())))
  }

  /** Attach (router not NO_UUID) and detach (NO_UUID). */
  function SetNetworkRouter(c: Cloud, id: Uuid, router: Uuid, f: Fault): (Cloud, Result<()>) {
    if id !in c.networks then (c, Answer(f, Err(Api(NOT_FOUND))))
    else (if TakesEffect(f) then c.(networks := c.networks[id := c.networks[id].(router := router)])
      else c, Answer(f, Ok(())))
  }

  function CreateRouter(c: Cloud, router: Router, f: Fault): (Cloud, Result<Uuid>) {
    var id := c.last + 1;
    (if TakesEffect(f) then c.(routers := c.routers[id := router], last := id) else c, Answer(f, Ok(id)))
  }

  /** Absent labels and routes say nothing; the name is always replaced. */
  function ModifiedRouter(
    rt: Router, name: string, labels: Option<seq<Label>>, routes: Option<seq<StaticRoute>>): Router {
    rt.(name := name, labels := Or(labels, rt.labels), staticRoutes := Or(routes, rt.staticRoutes))
  }

  function ModifyRouter(
    c: Cloud, id: Uuid, name: string, labels: Option<seq<Label>>, routes: Option<seq<StaticRoute>>, f: Fault): (Cloud,
    Result<()>) {
    if id !in c.routers then (c, Answer(f, Err(Api(NOT_FOUND))))
    else (if TakesEffect(f) then c.(routers := c.routers[id := ModifiedRouter(c.routers[id], name, labels, routes)])
      else c, Answer(f, Ok(())))
  }

  /** A router with attached networks is refused: 409, section 15.5.10 of RFC 9110. */
  function DeleteRouter(c: Cloud, id: Uuid, f: Fault): (Cloud, Result<()>) {
    if id !in c.routers then (c, Answer(f, Err(Api(NOT_FOUND))))
    else if Attached(c, id) then (c, Answer(f, Err(Api(CONFLICT))))
    else (if TakesEffect(f) then c.(routers := c.routers - {id}) else c, Answer(f, Ok(())))
  }

  /** What a modify leaves of a network, field by field. */
  lemma ModifiedNetworkIs(
    c: Cloud, id: Uuid, name: string, ipNetworks: Option<seq<IPNetwork>>, labels: Option<seq<Label>>)
    requires id in c.networks
    ensures var (c', r) := ModifyNetwork(c, id, name, ipNetworks, labels, Works);
            && r.Ok? && id in c'.networks && c' == c.(networks := c.networks[id := c'.networks[id]])
            && var was, net := c.networks[id], c'.networks[id];
               && net.zone == was.zone && net.router == was.router
               && net.name == (if name == "" then was.name else name)
               && (ipNetworks == None ==> net.ipNetworks == was.ipNetworks)
               && (ipNetworks.Some? ==> net.ipNetworks == ipNetworks.value)
               && (labels == None ==> net.labels == was.labels) && (labels.Some? ==> net.labels == labels.value)
  {
  }

  /** Attaching changes the router of one network. */
  lemma AttachedNetworkIs(c: Cloud, id: Uuid, router: Uuid)
    requires id in c.networks
    ensures var (c', r) := SetNetworkRouter(c, id, router, Works);
            r.Ok? && c' == c.(networks := c.networks[id := c.networks[id].(router := router)])
  {
  }

  /** No identifier in use is above the counter, so the next one is fresh. */
  predicate Counted(c: Cloud) {
    (forall k :: k in c.networks ==> k <= c.last) && (forall k :: k in c.routers ==> k <= c.last)
  }

  /** The API object: the maps and the counter, updated in place. */
  class NetworkAPI {
    var networks: map<Uuid, Network>
    var routers: map<Uuid, Router>
    var last: nat

    function View(): Cloud
      reads this
    {
      Cloud(networks, routers, last)
    }

    constructor (c: Cloud)
      ensures View() == c
    {
      networks, routers, last := c.networks, c.routers, c.last;
    }

    /** The networks carrying uid, in whatever order the map yields them. */
    method GetNetworks(uid: string, f: Fault) returns (r: Result<seq<(Uuid, Network)>>)
      ensures f.Works? <==> r.Ok?
      ensures !f.Works? ==> r == Err(Api(f.status))
      ensures r.Ok? ==> forall p :: p in r.value <==> p.0 in networks && networks[p.0] == p.1 && HasUID(p.1.labels, uid)
      ensures r.Ok? ==> forall i, j :: 0 <= i < j < |r.value| ==> r.value[i].0 != r.value[j].0
    {
      if !f.Works? {
        return Err(Api(f.status));
      }
      var list: seq<(Uuid, Network)> := [];
      var rest := networks.Keys;
      while rest != {}
        invariant rest <= networks.Keys
        invariant forall p :: p in list <==>
            p.0 in networks.Keys - rest && networks[p.0] == p.1 && HasUID(p.1.labels, uid)
        invariant forall i, j :: 0 <= i < j < |list| ==> list[i].0 != list[j].0
        decreases |rest|
      {
        var k :| k in rest;
        rest := rest - {k};
        var has := HasUIDScan(networks[k].labels, uid);
        if has {
          assert forall i :: 0 <= i < |list| ==> list[i] in list && list[i].0 != k;
          list := list + [(k, networks[k])];
        }
      }
      return Ok(list);
    }

    method GetNetworkDetails(id: Uuid, f: Fault) returns (r: Result<Network>)
      ensures r == if !f.Works? then Err(Api(f.status)) else if id in networks then Ok(networks[id])
          else Err(Api(NOT_FOUND))
    {
      if !f.Works? {
        return Err(Api(f.status));
      }
      if id !in networks {
        return Err(Api(NOT_FOUND));
      }
      return Ok(networks[id]);
    }

    method CreateNetworkCall(net: Network, f: Fault) returns (r: Result<Uuid>)
      modifies this
      ensures (View(), r) == CreateNetwork(old(View()), net, f)
      ensures Counted(old(View())) ==>
          Counted(View()) && (r.Ok? ==> r.value !in old(networks) && r.value !in old(routers))
    {
      if f.Refused? {
        return Err(Api(f.status));
      }
      last := last + 1;
      networks := networks[last := net];
      r := if f.LostReply? then Err(Api(f.status)) else Ok(last);
    }

    method ModifyNetworkCall(
      id: Uuid, name: string, ipNetworks: Option<seq<IPNetwork>>, labels: Option<seq<Label>>, f: Fault)
      returns (r: Result<()>)
      modifies this
      ensures (View(), r) == ModifyNetwork(old(View()), id, name, ipNetworks, labels, f)
    {
      if f.Refused? {
        return Err(Api(f.status));
      }
      if id !in networks {
        return Answer(f, Err(Api(NOT_FOUND)));
      }
      var n := networks[id];
      if name != "" { n := n.(name := name); }
      if ipNetworks.Some? { n := n.(ipNetworks := ipNetworks.value); }
      if labels.Some? { n := n.(labels := labels.value); }
      networks := networks[id := n];
      return Answer(f, Ok(()));
    }

    method DeleteNetworkCall(id: Uuid, f: Fault) returns (r: Result<()>)
      modifies this
      ensures (View(), r) == DeleteNetwork(old(View()), id, f)
    {
      if f.Refused? {
        return Err(Api(f.status));
      }
      if id !in networks {
        return Answer(f, Err(Api(NOT_FOUND)));
      }
      networks := networks - {id};
      return Answer(f, Ok(()));
    }

    method AttachNetworkRouter(id: Uuid, router: Uuid, f: Fault) returns (r: Result<()>)
      modifies this
      ensures (View(), r) == SetNetworkRouter(old(View()), id, router, f)
    {
      if f.Refused? {
        return Err(Api(f.status));
      }
      if id !in networks {
        return Answer(f, Err(Api(NOT_FOUND)));
      }
      networks := networks[id := networks[id].(router := router)];
      return Answer(f, Ok(()));
    }

    method DetachNetworkRouter(id: Uuid, f: Fault) returns (r: Result<()>)
      modifies this
      ensures (View(), r) == SetNetworkRouter(old(View()), id, NO_UUID, f)
    {
      r := AttachNetworkRouter(id, NO_UUID, f);
    }

    method GetRouters(uid: string, f: Fault) returns (r: Result<seq<(Uuid, Router)>>)
      ensures f.Works? <==> r.Ok?
      ensures !f.Works? ==> r == Err(Api(f.status))
      ensures r.Ok? ==> forall p :: p in r.value <==> p.0 in routers && routers[p.0] == p.1 && HasUID(p.1.labels, uid)
      ensures r.Ok? ==> forall i, j :: 0 <= i < j < |r.value| ==> r.value[i].0 != r.value[j].0
    {
      if !f.Works? {
        return Err(Api(f.status));
      }
      var list: seq<(Uuid, Router)> := [];
      var rest := routers.Keys;
      while rest != {}
        invariant rest <= routers.Keys
        invariant forall p :: p in list <==>
            p.0 in routers.Keys - rest && routers[p.0] == p.1 && HasUID(p.1.labels, uid)
        invariant forall i, j :: 0 <= i < j < |list| ==> list[i].0 != list[j].0
        decreases |rest|
      {
        var k :| k in rest;
        rest := rest - {k};
        var has := HasUIDScan(routers[k].labels, uid);
        if has {
          assert forall i :: 0 <= i < |list| ==> list[i] in list && list[i].0 != k;
          list := list + [(k, routers[k])];
        }
      }
      return Ok(list);
    }

    method GetRouterDetails(id: Uuid, f: Fault) returns (r: Result<Router>)
      ensures r == if !f.Works? then Err(Api(f.status)) else if id in routers then Ok(routers[id])
          else Err(Api(NOT_FOUND))
    {
      if !f.Works? {
        return Err(Api(f.status));
      }
      if id !in routers {
        return Err(Api(NOT_FOUND));
      }
      return Ok(routers[id]);
    }

    method CreateRouterCall(router: Router, f: Fault) returns (r: Result<Uuid>)
      modifies this
      ensures (View(), r) == CreateRouter(old(View()), router, f)
      ensures Counted(old(View())) ==>
          Counted(View()) && (r.Ok? ==> r.value !in old(networks) && r.value !in old(routers))
    {
      if f.Refused? {
        return Err(Api(f.status));
      }
      last := last + 1;
      routers := routers[last := router];
      r := if f.LostReply? then Err(Api(f.status)) else Ok(last);
    }

    method ModifyRouterCall(
      id: Uuid, name: string, labels: Option<seq<Label>>, routes: Option<seq<StaticRoute>>, f: Fault)
      returns (r: Result<()>)
      modifies this
      ensures (View(), r) == ModifyRouter(old(View()), id, name, labels, routes, f)
    {
      if f.Refused? {
        return Err(Api(f.status));
      }
      if id !in routers {
        return Answer(f, Err(Api(NOT_FOUND)));
      }
      var rt := routers[id].(name := name);
      if labels.Some? { rt := rt.(labels := labels.value); }
      if routes.Some? { rt := rt.(staticRoutes := routes.value); }
      routers := routers[id := rt];
      return Answer(f, Ok(()));
    }

    method DeleteRouterCall(id: Uuid, f: Fault) returns (r: Result<()>)
      modifies this
      ensures (View(), r) == DeleteRouter(old(View()), id, f)
    {
      if f.Refused? {
        return Err(Api(f.status));
      }
      if id !in routers {
        return Answer(f, Err(Api(NOT_FOUND)));
      }
      var rest := networks.Keys;
      while rest != {}
        invariant rest <= networks.Keys
        invariant forall k :: k in networks.Keys - rest ==> networks[k].router != id
        decreases |rest|
      {
        var k :| k in rest;
        rest := rest - {k};
        if networks[k].router == id {
          return Answer(f, Err(Api(CONFLICT)));
        }
      }
      routers := routers - {id};
      return Answer(f, Ok(()));
    }
  }
}
