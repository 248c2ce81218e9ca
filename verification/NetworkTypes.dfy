/** The Network and Router kinds and the environment of one of their passes. */
module NetworkTypes {
  import opened Support
  import opened Convert
  import opened Reconciler

  datatype NetworkSpec = NetworkSpec(name: string, zone: string, ipNetworks: seq<IPNetworkSpec>,
                                     routerRef: Option<string>, routerUUID: Uuid, labels: map<string, string>)

  /** The router last seen attached. */
  datatype NetworkStatus = NetworkStatus(router: Uuid)

  type NetworkCR = CR<NetworkSpec, NetworkStatus>

  datatype RouterSpec = RouterSpec(name: string, staticRoutes: seq<RouteSpec>, labels: map<string, string>)

  /** The networks last reported as attached. */
  datatype RouterStatus = RouterStatus(attached: seq<Uuid>)

  type RouterCR = CR<RouterSpec, RouterStatus>

  /** The calls one pass may make; each is made at most once. */
  datatype Site = ObserveResolve | ObserveLookup | CreateResolve | CreateCall
                | UpdateResolve | UpdateLookup | ModifyCall | RouterCall | DeleteCall

  /** The environment of one pass: the faults dealt to its calls; `pick`, the entry a list call yields
      first among those carrying the owner's uid; and `tie`, the verdict of the subnet comparison when
      different desired subnets share an address and the unstable sort decides. */
  datatype Env = Env(faults: map<Site, Fault>, pick: Uuid, tie: bool)
  {
    function At(s: Site): Fault { if s in faults then faults[s] else Works }
  }

  /** A delete call as the reconciler sees it: gone counts as deleted, refused means later. */
  function Deleted(r: Result<()>): Result<()> {
    if r.Ok? || IsNotFound(r.error) then Ok(())
    else if IsConflict(r.error) then Err(Pending)
    else r
  }

  /** A resource in memory: the adapter writes its status in place. */
  class Resource<S, X> {
    var cr: CR<S, X>

    constructor (cr: CR<S, X>)
      ensures this.cr == cr
    {
      this.cr := cr;
    }
  }
}
