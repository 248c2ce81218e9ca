# Proofs about the UpCloud Kubernetes operator

A Dafny 4.11 model of the operator's control loop, and proofs about whole runs of it. The operator keeps
UpCloud resources in step with Kubernetes custom resources: a generic reconcile loop (finalizer, observe,
create / update / delete, status patch) drives one adapter per kind against the cloud API. The rules of the
cloud are those of the repository's in-memory API (`internal/upcloudapi/fake`).

`dafny verify dfyconfig.toml` checks everything.

## How it is modelled

* **Code that changes state is imperative.** The loop (`Reconciler.Loop`), the cloud
  (`NetworkCloud.NetworkAPI`, `UserPolicies.ObjectStorageAPI`, `Database.DatabaseAPI`), the adapters
  (`AdapterObject` classes) and the comparison helpers with their loops and sorts are methods. Each is proved
  equal to a function of its inputs and of the old state, or against a declarative specification; the
  theorems are about those functions.
* **An adapter** is a record of its four operations (`Reconciler.Adapter`), so loop theorems hold for every
  adapter.
* **Failures.** Each call of a pass is dealt a fault: it works, is refused with no effect, or takes effect and
  its reply is lost. A failing call never reports 404: "not found" is only ever an honest answer, because the
  operator trusts it. A write to the Kubernetes API server works, is rejected, or works with its reply lost.
* **Runs** are arbitrary sequences of events: reconciles with any faults, users adding, editing and deleting
  resources, Secrets changing, cloud resources vanishing behind the operator's back.
  Runs of Networks and Routers are called honest when a list call that finds a match yields one and nothing a
  live resource has on record vanishes.
* **Identifiers** are numbers, 0 standing for the empty string.

| module | content |
|---|---|
| Support, Strings, Sorting | error classes and faults; Go's string order, separator-joined keys; sorting, permutations, multisets |
| Labels, Convert, KeyMatch, BucketSearch | label merge, route and subnet comparison, key-set comparison, paged search |
| Reconciler, PassShape, Convergence | the loop, what one pass does, convergence for any adapter that keeps a contract |
| NetworkCloud, NetworkTypes, NetworkAdapter, RouterAdapter | the two kinds and their cloud |
| Ownership, Pair, PairSafety, StaleIdentity | runs of both kinds, the ownership invariant, at most one cloud resource per owner |
| Referential, Dangling, NoLeak, Teardown | referential integrity, no leak, teardown in any order |
| NetworkConvergence, JointConvergence | drift repair and convergence of one Network or Router; of all of them together |
| GatewayTunnel | replace by delete and create, rotation token |
| UserPolicies, PolicyConvergence, AccessKey | policy attach and detach loops, and their convergence; key creation with an undo |
| Database, DatabaseUser, UserConvergence | power and modify, two-phase delete; passwords, access control, credentials Secret |

## Where the code falls short of the wish

Each of these is a theorem with the exact condition, and an example where one is called for.

* **Referential integrity.** A cloud network can end up naming a router that no longer exists: a Router that
  is Ready is deleted in the cloud, the write that should follow is rejected, and until the next pass the
  dependency gate still calls it Ready, because it does not look at the deletion mark. The gate fails after
  that event, or when the router of a Ready Router being deleted vanishes by itself, and never otherwise
  (`GatePromise`, `SafeAfterIffGateKept`, `SafeIffReadyRoutersLive`); `IntegrityFails` is a nine-event run from
  an empty world.
* **No leak.** Deleting a resource with no recorded identity makes no call, so a lost create reply or a lost
  status write followed by a delete leaves the cloud resource behind. Uid by uid, a network or router is
  abandoned exactly when its owner is released with no identity on record or under Orphan
  (`NetworkKeptIff`, `RouterKeptIff`, `NetworkLeaksIffAbandoned`, `RouterLeaksIffAbandoned`);
  `LostIdentityLeaks` is an example.
* **At most one network, at most one router** rest on recorded identities naming live resources: after a
  deletion behind the operator's back, one lost status write duplicates. Runs stay free of duplicates exactly
  as long as nothing a live resource has on record vanishes (`UniqueForeverIffIdentitiesLive`,
  `UniqueAfterIffUndisturbed`); `DuplicatesFromNothing` is a run from an empty world.
* **At most one tunnel.** Tunnels carry no labels to adopt by: a second one can appear exactly after an event
  that loses track of a created one (`UniqueAfterIffNotLost`); `LostWriteDuplicates` is an example.
* **The recorded tunnel.** That the recorded identity is empty exactly when there is no tunnel holds as long as no
  event loses a created tunnel, loses the deletion of the recorded one, or is somebody else's deletion of it, and
  fails after any of these (`NextExactIff`). Persisted writes are not enough: a lost reply of the delete call leaves
  an identity with no tunnel (`LostDeleteReplyLeavesIdentity`).
* **Tunnel replacement.** `docs/resources.md:22` and `README.md:249-252` of the repository say any spec change
  replaces the tunnel. The code replaces it for some changes only (`EditReplacesIff`); an IPSec block added with
  no parameters is never applied (`AddedIPSecNotApplied`).
* **Access keys.** If the service cannot be read after a key was created and the compensating delete does
  nothing, the key is recorded without its secret ever being stored, and the resource then stays Ready
  (`NextAgrees`, `HarmWedges`, `UnwrittenKeyStays`).
* **Policies.** A wanted policy the service does not have keeps the user from ever being Ready; nothing else does
  (`PoliciesConvergeIff`).
* **Databases.** An empty plan or title, or an empty maintenance window, cannot be sent
  (`UpdateRepairsIffSayable`); a delete with no identity on record reports success while the service stays
  (`SuccessMeansGoneIff`).
* **Database users.** An empty password in a Secret never reaches the cloud
  (`RotatedPasswordReachesCloud`), and a Valkey list that is present but empty is out of date for ever; no other
  state keeps passes from restoring agreement (`AgreementRestoredIff`).
* **Comparisons.** Each is right about everything it may be asked if and only if a condition on the desired side
  holds: no separator in a route's fields (`RouteDriftRightIffBarFree`), no repeated key
  (`NamesEqualIffDistinct`, `NetworksEqualIffDistinct`), no two load balancer networks competing
  (`LbIsMatchingIffSeparated`), no two different subnets of one address (`SubnetsDecidedIffAgreeing`).

## Model

| member | source | states |
|---|---|---|
| Reconciler.Defaulted | internal/reconciler/reconciler.go:73-83 | a set interval is kept, an unset one becomes 15 seconds waiting or 5 minutes steady, and none stays zero |
| Reconciler.Loop.FillDefaults | internal/reconciler/reconciler.go:73-83 | fills in exactly the intervals left at zero |
| Reconciler.Loop.Reconcile | internal/reconciler/reconciler.go:94-111 | what a reconcile leaves of the stored objects, the world, the requeue interval and the error, for every fate of its read and its one write; a failing read or a missing object changes nothing |
| Reconciler.Loop.ReconcileNormal | internal/reconciler/reconciler.go:113-156 | a live pass is the pass function: observe, then at most one of create and update, then a status patch carrying status and condition only |
| Reconciler.Loop.ReconcileDelete | internal/reconciler/reconciler.go:158-177 | a deletion pass is the delete-pass function: nothing without the finalizer, no call under Orphan, release only after success |
| Reconciler.Loop.PatchStatus | internal/reconciler/reconciler.go:185-187 | a patch touches identity, status and condition of one object, or nothing when rejected |
| PassShape.LivePassPersists | internal/reconciler/reconciler.go:113-156 | a live pass stores what its calls left, or exactly the old object when the write is rejected |
| PassShape.LivePassShape | internal/reconciler/reconciler.go:113-156 | which one mutating call a live pass makes, whose identity it may record, and that Ready=True means an up-to-date observation |
| PassShape.DeletePassShape | internal/reconciler/reconciler.go:158-177 | a resource is released if and only if its delete succeeded (or its policy is Orphan) and the write went through |
| PassShape.LivePassReadyIff | internal/reconciler/reconciler.go:113-156 | Ready=True is left exactly when the resource is observed to exist, up to date and ready |
| PassShape.LivePassReports | internal/reconciler/reconciler.go:113-156 | condition, interval and error of a live pass, case by case: dependency, failing observe, create, update with each of its errors, not ready, ready |
| PassShape.LostWriteFails | internal/reconciler/reconciler.go:113-187 | a write that is rejected or whose reply is lost makes the pass fail and changes nothing else about it |
| PassShape.FirstPassAddsFinalizer | internal/reconciler/reconciler.go:105-108 | the first pass adds the finalizer and does nothing else |
| PassShape.DeletePassReports | internal/reconciler/reconciler.go:158-177 | condition, interval and error of a deletion pass, case by case |
| Convergence.Quiescent | internal/reconciler/reconciler.go:113-156 | a settled resource is a fixed point of the loop in every fair environment, checked again after the steady interval |
| Convergence.OnceProgresses | internal/reconciler/reconciler.go:73-156 | every pass of a contract-keeping adapter, in whatever fair environment, lowers the number of passes still needed |
| Convergence.SettledAfter | internal/reconciler/reconciler.go:73-156 | a resource within n passes of settling is settled after n and stays as it is |
| Convergence.ConvergesInFour | internal/reconciler/reconciler.go:73-156 | any contract-keeping adapter, from any live state, in any sequence of fair environments: Ready=True after four passes, and every later pass changes nothing |
| NetworkCloud.NetworkAPI.GetNetworks | internal/upcloudapi/fake/network.go:91-102 | the list call yields exactly the networks carrying the owner's label, each once |
| NetworkCloud.NetworkAPI.CreateNetworkCall | internal/upcloudapi/fake/network.go:116-129 | a create adds one network under an identifier nothing else has |
| NetworkCloud.NetworkAPI.ModifyNetworkCall | internal/upcloudapi/fake/network.go:131-152 | an empty name, absent subnets and absent labels change nothing; 404 for a missing network |
| NetworkCloud.NetworkAPI.DeleteNetworkCall | internal/upcloudapi/fake/network.go:154-165 | a delete removes that network only; 404 when missing |
| NetworkCloud.NetworkAPI.AttachNetworkRouter | internal/upcloudapi/fake/network.go:167-179 | an attach sets one network's router, without asking whether that router exists |
| NetworkCloud.NetworkAPI.DetachNetworkRouter | internal/upcloudapi/fake/network.go:181-193 | a detach clears one network's router |
| NetworkCloud.NetworkAPI.GetRouters | internal/upcloudapi/fake/network.go:195-206 | the list call yields exactly the routers carrying the owner's label, each once |
| NetworkCloud.NetworkAPI.CreateRouterCall | internal/upcloudapi/fake/network.go:220-230 | a create adds one router under an identifier nothing else has |
| NetworkCloud.NetworkAPI.ModifyRouterCall | internal/upcloudapi/fake/network.go:232-251 | the name is replaced, labels and routes if present; 404 when missing |
| NetworkCloud.NetworkAPI.DeleteRouterCall | internal/upcloudapi/fake/network.go:253-269 | the scan refuses a router with 409 exactly when some network is attached to it |
| NetworkCloud.ModifiedNetworkIs | internal/upcloudapi/fake/network.go:131-152 | what a modify leaves of each field of a network, and that it leaves the rest of the cloud alone |
| NetworkCloud.AttachedNetworkIs | internal/upcloudapi/fake/network.go:167-193 | attaching changes the router of one network and nothing else |
| NetworkAdapter.AdapterObject.DesiredRouterUUID | internal/controller/network/network_adapter.go:27-35 | explicit UUID first, then the reference through the Ready gate, else none |
| NetworkAdapter.AdapterObject.Find | internal/controller/network/network_adapter.go:37-55 | by recorded identity if any, else an entry carrying the owner's uid whenever one exists |
| NetworkAdapter.AdapterObject.Compare | internal/controller/network/network_adapter.go:72-76 | the drift verdict is name, declarative subnet match and multiset equality of labels |
| NetworkAdapter.AdapterObject.ObserveCall | internal/controller/network/network_adapter.go:58-77 | the call does to resource and result what the observe function says, under an honest list order |
| NetworkAdapter.AdapterObject.CreateNet | internal/controller/network/network_adapter.go:80-98 | identity and router are recorded only on success; nothing is created when the router is not Ready |
| NetworkAdapter.AdapterObject.UpdateNet | internal/controller/network/network_adapter.go:102-136 | modify first, router attachment last, each only on drift, stopping at the first error |
| NetworkAdapter.AdapterObject.Modify | internal/controller/network/network_adapter.go:114-124 | one modify exactly when name, subnets or labels drifted, carrying subnets only if they did |
| NetworkAdapter.AdapterObject.SetRouter | internal/controller/network/network_adapter.go:125-135 | attach or detach exactly when the attached router is not the desired one |
| NetworkAdapter.AdapterObject.DeleteNet | internal/controller/network/network_adapter.go:139-152 | no call without an identity; 404 counts as deleted, 409 as pending |
| NetworkAdapter.UpdateRewrites | internal/controller/network/network_adapter.go:102-136 | an update touches one network: its labels stay or become the owner's, its router stays or becomes the resolved one |
| NetworkAdapter.ResolveReadyIff | internal/resolve/resolve.go:21-46 | the gate answers an identity exactly for a Router that is there, Ready and has one |
| NetworkAdapter.DesiredRouterIs | internal/controller/network/network_adapter.go:27-35 | an explicit UUID wins over a reference, a reference over none |
| NetworkAdapter.CreatedNetworkIs | internal/controller/network/network_adapter.go:80-98 | every field of the network a successful create leaves, and what is recorded of it |
| NetworkAdapter.ObservedNetworkIff | internal/controller/network/network_adapter.go:58-77 | the verdict on a network, field by field, and what is recorded of it |
| NetworkAdapter.AdoptedIff | internal/controller/network/network_adapter.go:46-55 | with no identity on record a network is found exactly when one carries the owner's uid, and then such a one is recorded |
| NetworkAdapter.RefusedModifyStops | internal/controller/network/network_adapter.go:116-124 | a refused modify ends the update before the router is touched |
| NetworkAdapter.DeleteAnswers | internal/controller/network/network_adapter.go:139-152 | deleted and gone is success, a conflict pending, anything else that error |
| NetworkAdapter.FailedReads | internal/controller/network/network_adapter.go:37-136 | a failing or empty lookup is reported as it is and changes nothing |
| NetworkAdapter.DependencyGate | internal/controller/network/network_adapter.go:27-136 | with a Router that is not Ready nothing is done and the dependency error returned |
| NetworkAdapter.RefusedCreate | internal/controller/network/network_adapter.go:85-94 | a refused create records nothing |
| RouterAdapter.AdapterObject.Find | internal/controller/network/router_adapter.go:22-40 | by recorded identity if any, else an entry carrying the owner's uid whenever one exists |
| RouterAdapter.AdapterObject.ObserveCall | internal/controller/network/router_adapter.go:43-60 | identity and reported attached networks are recorded, and the verdict given, as the observe function says |
| RouterAdapter.AdapterObject.Compare | internal/controller/network/router_adapter.go:55-59 | up to date is name, user routes as a multiset of keys, and labels as a multiset |
| RouterAdapter.AdapterObject.CreateRt | internal/controller/network/router_adapter.go:63-74 | a create sends the wanted router and records its identity only when answered |
| RouterAdapter.AdapterObject.UpdateRt | internal/controller/network/router_adapter.go:77-87 | a modify sends the wanted router to the recorded identity |
| RouterAdapter.AdapterObject.DeleteRt | internal/controller/network/router_adapter.go:90-103 | no call without an identity; 404 counts as deleted, 409 as pending |
| RouterAdapter.CreatedRouterIs | internal/controller/network/router_adapter.go:63-74 | every field of the router a successful create leaves |
| RouterAdapter.ObservedRouterIff | internal/controller/network/router_adapter.go:43-60 | the verdict on a router, field by field, and what is recorded of it |
| RouterAdapter.AdoptedIff | internal/controller/network/router_adapter.go:30-40 | with no identity on record a router is found exactly when one carries the owner's uid |
| RouterAdapter.UpdatedRouterIs | internal/controller/network/router_adapter.go:77-87 | every field of the router a successful update leaves |
| RouterAdapter.FailedCalls | internal/controller/network/router_adapter.go:22-87 | a failing lookup, create or modify is reported as it is |
| RouterAdapter.DeleteAnswers | internal/controller/network/router_adapter.go:90-103 | attached networks and conflicts are pending, deleted and gone is success, anything else that error |
| Ownership.EffectKeepsOwned | internal/controller/network/network_adapter.go:37-98 | whatever one pass may do to the cloud keeps every uid on at most one resource and every owner tracking its own |
| Pair.NetworkPassHasEffect | internal/reconciler/reconciler.go:94-177 | one Network pass, with any faults, keeps, adds, rewrites or removes the owner's network and nothing else |
| Pair.RouterPassHasEffect | internal/reconciler/reconciler.go:94-177 | one Router pass, with any faults, keeps, adds, rewrites or removes the owner's router and nothing else |
| Ownership.GoneKeepsOwnedIff | internal/controller/network/network_adapter.go:37-55 | something deleted behind the operator's back keeps ownership intact if and only if no live owner has it on record |
| PairSafety.NextInv | internal/reconciler/reconciler.go:94-177 | every event of either kind keeps the ownership invariant if and only if it does not take away what a live resource has on record |
| PairSafety.RunInv | internal/reconciler/reconciler.go:94-177 | so does every run |
| PairSafety.AtMostOnePerOwner | internal/controller/network/network_adapter.go:37-98 | in every run with failing calls, lost replies, lost status writes and vanishing unrecorded resources, no two networks and no two routers carry one uid |
| PairSafety.FinalizerGuardsResource | internal/reconciler/reconciler.go:101-110 | in every run a resource whose uid is on a cloud network holds the finalizer and survives a delete request |
| StaleIdentity.UniqueForeverIffIdentitiesLive | internal/controller/network/network_adapter.go:37-55 | no honest continuation ever duplicates if and only if every live resource's recorded identity names something that exists |
| StaleIdentity.UniqueAfterIffUndisturbed | internal/controller/network/network_adapter.go:37-98 | one event leaves the world so if and only if it does not delete, behind the operator's back, what a live resource has on record |
| StaleIdentity.AnyStaleNetworkDuplicates | internal/controller/network/network_adapter.go:38-44 | from a stale Network, whatever router it asks for, one edit and one lost status write make two networks |
| StaleIdentity.StaleRouterDuplicates | internal/controller/network/router_adapter.go:23-29 | from a stale Router one lost status write makes two routers |
| StaleIdentity.DuplicatesFromNothing | internal/controller/network/network_adapter.go:38-44 | a run from an empty world that ends with two networks of one owner |
| Referential.GatePromise | internal/resolve/resolve.go:21-32 | an event keeps "every Ready Router names a live router" if and only if it neither loses the write after a Ready Router's delete nor deletes its router behind the operator's back |
| Referential.CarefulRunsStayIntact | internal/controller/network/network_adapter.go:27-35 | in every run without those events, every router a network names exists |
| Referential.DeadReadyRouterDangles | internal/resolve/resolve.go:21-32 | from any sound state with a dead Ready Router, a new Network and two faultless passes dangle |
| Referential.SafeIffReadyRoutersLive | internal/resolve/resolve.go:21-46 | no careful continuation ever dangles if and only if every Ready Router names a live router |
| Referential.SafeAfterIffGateKept | internal/reconciler/reconciler.go:158-177 | one event leaves the world safe if and only if it is not a harmful one |
| Dangling.IntegrityFails | internal/resolve/resolve.go:21-32 | a concrete run from an empty world after which a network names a missing router |
| NoLeak.OrphanTouchesNothing | internal/reconciler/reconciler.go:164-173 | a deletion pass under Orphan leaves the cloud as it was |
| NoLeak.ReleaseLeavesNothingIff | internal/controller/network/network_adapter.go:139-152 | a releasing Network pass leaves nothing with the uid if and only if nothing existed, or the policy is Delete and the identity was on record |
| NoLeak.RouterReleaseLeavesNothingIff | internal/controller/network/router_adapter.go:90-103 | the same for Routers |
| NoLeak.EffectKeepsOwnerIff | internal/reconciler/reconciler.go:101-177 | for any kind, a pass loses the owner of a carried uid if and only if it releases that owner while something still carries the uid |
| NoLeak.AbandonsNetworkIff | internal/reconciler/reconciler.go:158-177 | the guard - being deleted, finalizer held, write not rejected, uid carried, Orphan or no identity - says exactly which passes release a Network and leave its uid on a network |
| NoLeak.NetworkKeptIff | internal/reconciler/reconciler.go:158-177 | per uid and event: its network keeps an owner if and only if the event does not meet that guard; only a deletion behind the operator's back ends a leak |
| NoLeak.AbandonsRouterIff | internal/reconciler/reconciler.go:158-177 | the same guard for Routers |
| NoLeak.RouterKeptIff | internal/reconciler/reconciler.go:158-177 | the same for Routers |
| NoLeak.RunKeptIff | internal/reconciler/reconciler.go:101-177 | for either kind, what holds event by event holds over runs |
| NoLeak.NetworkLeaksIffAbandoned | internal/reconciler/reconciler.go:101-177 | per uid and run, whatever failed and whatever became of other resources: the network has an owner at the end if - and, with no such deletion, only if - no event of the run abandoned it |
| NoLeak.RouterLeaksIffAbandoned | internal/reconciler/reconciler.go:101-177 | the same for Routers |
| NoLeak.LostIdentityLeaks | internal/controller/network/network_adapter.go:139-142 | losing the write after a create and then deleting the resource leaks the network |
| Teardown.RouterGoesOrWaits | internal/controller/network/router_adapter.go:90-103 | a doomed Router with attached networks waits as Deleting; any other goes with its router |
| Teardown.VisitedNetworksGo | internal/controller/integration/network_test.go:18-73 | in every calm run a visited Network is gone afterwards, and nothing comes back |
| Teardown.VisitedRoutersGo | internal/controller/integration/network_test.go:18-73 | once the Networks are gone, every visited Router goes |
| Teardown.HeldRouterStays | internal/upcloudapi/fake/network.go:253-269 | a Router held by a network nobody deletes is never released |
| Teardown.TwoRoundsTearDown | internal/controller/integration/network_test.go:18-73 | two rounds in any order remove every resource and cloud resource if and only if every attached network is being deleted too |
| NetworkConvergence.NetworkDriftRepaired | internal/controller/network/network_adapter.go:102-136 | in any environment, an update that returns nil has repaired any subset of name, subnets, labels and router; with no drift it called nothing |
| NetworkConvergence.NetworkContract | internal/controller/network/network_adapter.go:58-136 | the Network adapter keeps the convergence contract |
| NetworkConvergence.NetworkConverges | internal/reconciler/reconciler.go:73-156 | a live Network is Ready and as its spec wants it after four passes in any fair environments, and stays so untouched |
| NetworkConvergence.RouterDriftRepaired | internal/controller/network/router_adapter.go:77-87 | in any environment, an update that returns nil has made the router what the spec wants |
| NetworkConvergence.RouterContract | internal/controller/network/router_adapter.go:43-87 | the Router adapter keeps the convergence contract |
| NetworkConvergence.RouterConverges | internal/reconciler/reconciler.go:73-156 | a live Router is Ready and as its spec wants it after four passes in any fair environments, and stays so untouched |
| PassShape.LivePassKeepsRest | internal/reconciler/reconciler.go:94-156 | a live pass rewrites nothing but finalizer, identity, status and condition |
| JointConvergence.OtherNetworkSame | internal/controller/network/network_adapter.go:37-136 | a Network's pass leaves every other owner's networks as they are, field by field |
| JointConvergence.OtherRouterSame | internal/controller/network/router_adapter.go:22-87 | a Router's pass leaves every other owner's routers as they are, field by field |
| JointConvergence.RouterEvent | internal/reconciler/reconciler.go:73-156 | any faultless pass of anything keeps a Router within n passes of settling, and its own brings it one closer |
| JointConvergence.NetworkEvent | internal/reconciler/reconciler.go:73-156 | the same for a Network once the Routers are settled |
| JointConvergence.RoutersConverge | internal/reconciler/reconciler.go:73-156 | all resources together, each reconciled at least once a round, in any order: after four faultless rounds and ever after every Router is Ready and as its spec wants it |
| JointConvergence.NetworksConvergeIffReferenced | internal/resolve/resolve.go:21-46 | after eight and ever after a well specified Network is Ready if and only if the Router it refers to is there, and then its network is as its spec wants it |
| JointConvergence.EveryoneSettles | internal/reconciler/reconciler.go:73-156 | if all are, the state reached is one no faultless run changes |
| GatewayTunnel.AdapterObject.ObserveCall | internal/controller/network/gatewaytunnel_adapter.go:45-79 | parents and state are recorded as the observe function says, rotation token included |
| GatewayTunnel.AdapterObject.CreateCall | internal/controller/network/gatewaytunnel_adapter.go:83-105 | identity and token are recorded only when the create is answered; `CreatedTunnelIs` says what is created |
| GatewayTunnel.AdapterObject.UpdateCall | internal/controller/network/gatewaytunnel_adapter.go:109-119 | delete, forget the identity, create; a failing delete stops it |
| GatewayTunnel.AdapterObject.DeleteTunnelOf | internal/controller/network/gatewaytunnel_adapter.go:122-137 | no call unless the whole identity is on record; 404 counts as deleted, 409 as pending |
| GatewayTunnel.CreateMakesOneOrNone | internal/controller/network/gatewaytunnel_adapter.go:83-105 | a create makes one tunnel with the PSK its Secret holds now, or changes nothing; success records identity and token |
| GatewayTunnel.CreatedTunnelIs | internal/controller/network/gatewaytunnel_adapter.go:140-173 | every field of the tunnel a successful create leaves - name, both addresses, parameters, authentication, PSK - and that no other tunnel changes |
| GatewayTunnel.CreatedIsUpToDate | internal/controller/network/gatewaytunnel_adapter.go:83-105 | what was just created is observed up to date and ready |
| GatewayTunnel.UpdatedIsUpToDate | internal/controller/network/gatewaytunnel_adapter.go:109-119 | so is what a successful update leaves |
| GatewayTunnel.ObservedTunnelIff | internal/controller/network/gatewaytunnel_adapter.go:45-79 | the verdict on a tunnel, field by field, its readiness, and what is recorded of it |
| GatewayTunnel.ParentGate | internal/controller/network/gatewaytunnel_adapter.go:31-42 | with a parent that is not Ready nothing is done and the dependency error returned |
| GatewayTunnel.FailedCalls | internal/controller/network/gatewaytunnel_adapter.go:45-156 | failing reads and calls are reported as they are; a missing Secret is waited for; a refused delete keeps the update from creating |
| GatewayTunnel.NextInv | internal/controller/network/gatewaytunnel_adapter.go:45-137 | an event keeps the accounting of tunnels if and only if it does not lose a created tunnel |
| GatewayTunnel.UniqueAfterIffNotLost | internal/controller/network/gatewaytunnel_adapter.go:45-119 | one event leaves the resource safe from ever having two tunnels if and only if it does not lose one |
| GatewayTunnel.AtMostOneTunnel | internal/controller/network/gatewaytunnel_adapter.go:45-119 | in every run that loses none, under either deletion policy, there is at most one tunnel, and it is the recorded one while the resource is stored |
| GatewayTunnel.ReleaseLeavesNoneIff | internal/controller/network/gatewaytunnel_adapter.go:122-137 | the event that removes the resource leaves no tunnel if and only if there was none or the policy was Delete |
| GatewayTunnel.CreatesIff | internal/controller/network/gatewaytunnel_adapter.go:83-119 | exactly which passes create a tunnel, by what can be checked before the create |
| GatewayTunnel.NextExactIff | internal/controller/network/gatewaytunnel_adapter.go:109-137 | the recorded identity goes on being exactly that of the tunnel owned if and only if the event neither loses a created tunnel, nor loses the deletion of the recorded one, nor is somebody else's deletion of it |
| GatewayTunnel.IdentityEmptyIffNoTunnel | internal/controller/network/gatewaytunnel_adapter.go:109-119 | in runs without those events the identity is that of the one tunnel owned, and empty exactly when there is none, whatever else fails between delete and create |
| GatewayTunnel.LostDeleteReplyLeavesIdentity | internal/controller/network/gatewaytunnel_adapter.go:109-119 | an example in which every write persists: the reply of the delete call is lost and an identity stays with no tunnel |
| GatewayTunnel.MadeInSomeStep | internal/controller/network/gatewaytunnel_adapter.go:140-173 | every tunnel the resource has was there at the start, or was made in a step of the run, with the token the spec had and the PSK its Secret held in that very step (nothing is read, and an empty PSK sent, when the spec has no IPSec block) |
| GatewayTunnel.UpToDateMeansCurrentToken | internal/controller/network/gatewaytunnel_adapter.go:69-78 | observed up to date means: the tunnel was made in a step in which the token was the present one, with the PSK the Secret held in it |
| GatewayTunnel.LostWriteDuplicates | internal/controller/network/gatewaytunnel_adapter.go:53-56 | an example: one lost status write after a create makes a second tunnel |
| GatewayTunnel.AddedIPSecNotApplied | internal/controller/network/gatewaytunnel_adapter.go:177-211 | an IPSec block added with no parameters is reported up to date |
| GatewayTunnel.EditReplacesIff | internal/controller/network/gatewaytunnel_adapter.go:177-211 | exactly which spec edits make an up-to-date tunnel be replaced |
| UserPolicies.ObjectStorageAPI.Attach | internal/upcloudapi/fake/objectstorage.go:330-355 | attaching is idempotent and needs user and policy to exist |
| UserPolicies.ObjectStorageAPI.Detach | internal/upcloudapi/fake/objectstorage.go:357-385 | detaching what is not attached is 404 |
| UserPolicies.ServiceUUID | internal/controller/objectstorage/objectstorageuser_adapter.go:28-38 | the service must be Ready once and is then remembered |
| UserPolicies.ObjectStorageAPI.Create | internal/upcloudapi/fake/objectstorage.go:252-273 | a taken name is refused with 409; a new user has no policies |
| UserPolicies.DesiredPolicies | internal/controller/objectstorage/objectstorageuser_adapter.go:44-64 | the one sorted list, without repeats, of the named and referenced policies; an error exactly when a reference is not Ready |
| UserPolicies.CurrentPolicies | internal/controller/objectstorage/objectstorageuser_adapter.go:76-87 | the one sorted list, without repeats, of the attached policies |
| UserPolicies.EqualStringSlices | internal/controller/objectstorage/objectstorageuser_adapter.go:275-285 | decides equality of lists |
| UserPolicies.SortedListsEqualIffSameNames | internal/controller/objectstorage/objectstorageuser_adapter.go:275-285 | sorted lists without repeats are equal exactly when they hold the same names |
| UserPolicies.ObserveCall | internal/controller/objectstorage/objectstorageuser_adapter.go:90-122 | service, username, ARN and attached policies are recorded as far as they can be read; up to date exactly when the attached set is the desired set |
| UserPolicies.AttachMissing | internal/controller/objectstorage/objectstorageuser_adapter.go:193-204 | attaches only missing policies, in order, one call each, up to the first failure; succeeds exactly when all exist and no needed call fails |
| UserPolicies.DetachExtra | internal/controller/objectstorage/objectstorageuser_adapter.go:205-216 | detaches only superfluous policies, in order, one call each, up to the first failure; succeeds exactly when no needed call fails |
| UserPolicies.ApproachesCompose | internal/controller/objectstorage/objectstorageuser_adapter.go:174-218 | each effective call brings the two sets one step closer, so both loops together need as many calls as the sets differ by |
| UserPolicies.UpdateCall | internal/controller/objectstorage/objectstorageuser_adapter.go:174-218 | distance falls by exactly the effective calls, never rises; success exactly when nothing stands in the way, and then the sets are equal |
| UserPolicies.CreateCall | internal/controller/objectstorage/objectstorageuser_adapter.go:127-144 | a conflict adopts the user; otherwise identity and ARN are recorded and the desired policies attached |
| UserPolicies.AttachDesiredCall | internal/controller/objectstorage/objectstorageuser_adapter.go:148-171 | every desired policy not attached yet is attached, in order, up to the first failure |
| PolicyConvergence.AttachesMissingIff | internal/controller/objectstorage/objectstorageuser_adapter.go:193-204 | without faults the attach loop succeeds if and only if every missing policy exists, and attaches no other |
| PolicyConvergence.LoopsRepairIff | internal/controller/objectstorage/objectstorageuser_adapter.go:174-218 | without faults an update leaves exactly the wanted policies if and only if every missing one exists; otherwise one that does not exist is still missing |
| PolicyConvergence.PolicyContract | internal/controller/objectstorage/objectstorageuser_adapter.go:90-218 | the adapter keeps the convergence contract |
| PolicyConvergence.PoliciesConverge | internal/reconciler/reconciler.go:73-156 | present in the cloud or not, a live user whose policies exist is Ready with exactly those attached after four faultless passes, and stays so |
| PolicyConvergence.PoliciesConvergeIff | internal/reconciler/reconciler.go:73-156 | from any state, two faultless passes make a user Ready with exactly the wanted policies, and later ones change nothing, if and only if every policy still to be attached exists |
| PolicyConvergence.WantedIff | internal/controller/objectstorage/objectstorageuser_adapter.go:44-64 | a policy is wanted exactly when it is named or referred to |
| PolicyConvergence.CreatedUserHasPoliciesIff | internal/controller/objectstorage/objectstorageuser_adapter.go:127-171 | a faultless create leaves a new user with exactly the wanted policies if and only if they all exist, and fails otherwise |
| PolicyConvergence.TakenNameIsAdopted | internal/controller/objectstorage/objectstorageuser_adapter.go:136-141 | an existing user is adopted as it is |
| PolicyConvergence.ServiceGate | internal/controller/objectstorage/objectstorageuser_adapter.go:28-64 | service and references must be Ready, or nothing is done |
| PolicyConvergence.FailedReads | internal/controller/objectstorage/objectstorageuser_adapter.go:90-191 | failing reads are reported as they are and change nothing |
| AccessKey.AdapterObject.DeleteKey | internal/upcloudapi/fake/objectstorage.go:492-515 | the key goes, 404 when it is not there |
| AccessKey.AdapterObject.SecretDataOf | internal/controller/objectstorage/objectstorageaccesskey_adapter.go:119-141 | key id, secret, the first public endpoint and the region |
| AccessKey.AdapterObject.CreateCall | internal/controller/objectstorage/objectstorageaccesskey_adapter.go:87-115 | create, read service, write Secret, with the undo on each failure and the identity the code leaves |
| AccessKey.AdapterObject.ParentOf | internal/controller/objectstorage/objectstorageaccesskey_adapter.go:30-44 | the parent must be Ready once; service and username are then remembered |
| AccessKey.AdapterObject.ObserveCall | internal/controller/objectstorage/objectstorageaccesskey_adapter.go:48-81 | an identity that names no key reads as absent; up to date is the key's activity |
| AccessKey.AdapterObject.UpdateCall | internal/controller/objectstorage/objectstorageaccesskey_adapter.go:145-166 | only the activity of the recorded key changes |
| AccessKey.AdapterObject.DeleteCall | internal/controller/objectstorage/objectstorageaccesskey_adapter.go:170-191 | no call without an identity or a parent; 404 counts as deleted, 409 as pending |
| AccessKey.ReleasedKeyGoneIff | internal/controller/objectstorage/objectstorageaccesskey_adapter.go:170-191 | after a releasing pass the recorded key is live if and only if it was, and the policy was Orphan or the parent was never on record; no other key changes |
| AccessKey.DeletedKeyGoes | internal/controller/objectstorage/objectstorageaccesskey_adapter.go:170-191 | without faults the recorded key is deleted |
| AccessKey.CreatedKeyIs | internal/controller/objectstorage/objectstorageaccesskey_adapter.go:87-141 | the key a successful create leaves, and all four entries of the Secret |
| AccessKey.ObservedKeyIff | internal/controller/objectstorage/objectstorageaccesskey_adapter.go:48-81 | present exactly when the recorded key is live, up to date exactly when its activity is the spec's |
| AccessKey.UpdatedKeyIs | internal/controller/objectstorage/objectstorageaccesskey_adapter.go:145-166 | a successful update sets the activity of the recorded key and changes nothing else |
| AccessKey.ParentGate | internal/controller/objectstorage/objectstorageaccesskey_adapter.go:30-44 | until the parent is on record it must be Ready, or nothing is done |
| AccessKey.FailedCalls | internal/controller/objectstorage/objectstorageaccesskey_adapter.go:48-191 | failing calls are reported as they are |
| AccessKey.FailingCreateIsUndone | internal/controller/objectstorage/objectstorageaccesskey_adapter.go:87-115 | a failing create leaves the user's keys unchanged if and only if no key was made, or it was answered and the compensating delete took effect |
| AccessKey.CreateAgrees | internal/controller/objectstorage/objectstorageaccesskey_adapter.go:87-115 | exactly when a create leaves the Secret agreeing with the identity it leaves |
| AccessKey.NextAgrees | internal/controller/objectstorage/objectstorageaccesskey_adapter.go:48-191 | every event keeps Secret and key in agreement if and only if it is not the harmful one |
| AccessKey.SecretAgreesWithKey | internal/controller/objectstorage/objectstorageaccesskey_adapter.go:48-115 | in every run without it, an identity naming a live key names the key the Secret holds |
| AccessKey.HarmWedges | internal/controller/objectstorage/objectstorageaccesskey_adapter.go:105-107 | the harmful event records a live key the Secret does not hold |
| AccessKey.UnwrittenKeyStays | internal/controller/objectstorage/objectstorageaccesskey_adapter.go:48-81 | from there no number of faultless passes heals it, and from the second on the resource is Ready |
| Database.DatabaseAPI.PowerService | internal/upcloudapi/fake/database.go:213-244 | start and shutdown set power and state together |
| Database.DatabaseAPI.ModifyService | internal/upcloudapi/fake/database.go:144-185 | whatever the request leaves out, or says by an empty string or window, is kept, properties are merged, the rest is replaced; 404 without a service |
| Database.ApplyRequest | internal/upcloudapi/fake/database.go:155-182 | field by field, the request applied as that rule says |
| Database.SpecMatchesCall | internal/controller/database/manageddatabase_adapter.go:305-378 | the drift verdict, with labels as multisets, networks by key and only the named properties |
| Database.UpToDateIff | internal/controller/database/manageddatabase_adapter.go:305-378 | the verdict, field by field: plan, title, disk, protection, power, window, labels, networks as a multiset, named properties |
| Database.UpdatedScalars | internal/controller/database/manageddatabase_adapter.go:166-221 | disk, protection, power, state, plan and title after a successful update |
| Database.UpdatedRest | internal/controller/database/manageddatabase_adapter.go:166-221 | window, labels and named properties after a successful update |
| Database.UpdatedNetworks | internal/controller/database/manageddatabase_adapter.go:166-221 | after a successful update the networks are those resolved, as a multiset |
| Database.UpdateWorksFrom | internal/controller/database/manageddatabase_adapter.go:166-221 | from running, stopped or error a faultless update succeeds; from any other state it is pending and touches nothing |
| Database.UpdateErrors | internal/controller/database/manageddatabase_adapter.go:177-220 | which failure an update reports, and which calls it does not make after one |
| Database.DatabaseAPI.GetAll | internal/upcloudapi/fake/database.go:131-141 | all services, each once |
| Database.Find | internal/controller/database/manageddatabase_adapter.go:48-66 | by recorded identity if any, else a service carrying the owner's uid whenever one exists |
| Database.UpdateService | internal/controller/database/manageddatabase_adapter.go:166-221 | pending when the lookup finds nothing; else the service found, and no other, is updated |
| Database.UpdateFound | internal/controller/database/manageddatabase_adapter.go:177-221 | power first, then at most one modify, comparing against the service as looked up |
| Database.ModifyIfDrifted | internal/controller/database/manageddatabase_adapter.go:189-220 | a modify exactly on drift; unresolved networks and unparsable properties are errors before any modify |
| Database.UpdateRepairsIffSayable | internal/controller/database/manageddatabase_adapter.go:166-221 | after nil the next observation is up to date if and only if plan, title and window can be sent |
| Database.CallsMade | internal/controller/database/manageddatabase_adapter.go:166-221 | the calls made are a prefix of the needed power call and the needed modify, in that order, whatever fails; all of them on success, none when up to date |
| Database.UnnamedPropertiesKept | internal/upcloudapi/fake/database.go:176-181 | whatever fails, a property the spec does not name keeps its value |
| Database.DatabaseAPI.DeleteService | internal/upcloudapi/fake/database.go:187-211 | 404 for a missing service; a protected one is refused; the first call starts the deletion, the second ends it with 404 |
| Database.DeletePhase | internal/controller/database/manageddatabase_adapter.go:226-253 | success with no call when no identity is on record; pending after a started deletion; an error under protection |
| Database.DeleteAnswers | internal/controller/database/manageddatabase_adapter.go:226-253 | what a faultless delete pass does and answers in each state, protected or not |
| Database.ConflictAnswer | internal/controller/database/manageddatabase_adapter.go:245-249 | a conflict is an error under protection and otherwise pending |
| Database.SuccessMeansGoneIff | internal/controller/database/manageddatabase_adapter.go:226-253 | success means the service is gone if and only if its identity was recorded or there was none |
| Database.OthersUntouched | internal/controller/database/manageddatabase_adapter.go:226-253 | no other service is touched |
| Database.GoneAfterTwoEffectiveDeletes | internal/controller/database/manageddatabase_adapter.go:226-253 | gone after two effective deletes among any failures if and only if recorded and not protected; otherwise never touched |
| DatabaseUser.AdapterObject.ParentOf | internal/controller/database/manageddatabaseuser_adapter.go:34-44 | the parent must be Ready once and its service is then remembered |
| DatabaseUser.AdapterObject.ObserveCall | internal/controller/database/manageddatabaseuser_adapter.go:78-116 | the call records the user, heals a missing credentials Secret, and reports as the observe function says |
| DatabaseUser.AdapterObject.UpdateCall | internal/controller/database/manageddatabaseuser_adapter.go:171-219 | password first, then access control, each only on drift |
| DatabaseUser.AdapterObject.ModifyUser | internal/upcloudapi/fake/database.go:306-326 | an empty password keeps the old one, the authentication is always replaced |
| DatabaseUser.AdapterObject.DeleteUser | internal/controller/database/manageddatabaseuser_adapter.go:223-242 | no call without an identity, primary users are refused, 404 counts as deleted, 409 as pending |
| DatabaseUser.AdapterObject.CreateUser | internal/controller/database/manageddatabaseuser_adapter.go:120-166 | a conflict adopts the user; otherwise the password given or made up goes to the Secret |
| DatabaseUser.AdapterObject.AddUser | internal/upcloudapi/fake/database.go:256-286 | a taken name is refused with 409, an empty password is made up |
| DatabaseUser.CredentialsAgree | internal/controller/database/manageddatabaseuser_adapter.go:68-116 | Exists and UpToDate means the source of truth holds the cloud's password, found or healed |
| DatabaseUser.AccessMatchesIff | internal/controller/database/manageddatabaseuser_adapter.go:261-319 | the access comparison accepts exactly what grants every block of the spec |
| DatabaseUser.ObservedUserIff | internal/controller/database/manageddatabaseuser_adapter.go:78-116 | the verdict: the password source agrees and every access block is granted; type and username are recorded |
| DatabaseUser.UpdatedAccess | internal/controller/database/manageddatabaseuser_adapter.go:171-219 | after a successful update every access block is granted if and only if it was or it can be expressed |
| DatabaseUser.CreatedUserIs | internal/controller/database/manageddatabaseuser_adapter.go:120-166 | password, access, authentication and type of the user a successful create leaves, and the password in the Secret |
| DatabaseUser.CredentialsAre | internal/controller/database/manageddatabaseuser_adapter.go:245-258 | all entries of the credentials Secret |
| DatabaseUser.ReleasedUserGoneIff | internal/controller/database/manageddatabaseuser_adapter.go:223-242 | after a releasing pass the user is gone if and only if there was none, or the policy was Delete and the identity on record |
| DatabaseUser.DeletedUserGoes | internal/controller/database/manageddatabaseuser_adapter.go:223-242 | without faults the user is deleted, unless it is primary |
| DatabaseUser.ParentGate | internal/controller/database/manageddatabaseuser_adapter.go:34-44 | until the parent is on record it must be Ready, or nothing is done |
| DatabaseUser.FailedReads | internal/controller/database/manageddatabaseuser_adapter.go:78-219 | failing reads are reported as they are and change nothing |
| DatabaseUser.UnusableSource | internal/controller/database/manageddatabaseuser_adapter.go:48-105 | which password source is an error, which is waited for, and which is healed |
| DatabaseUser.TakenNameIsAdopted | internal/controller/database/manageddatabaseuser_adapter.go:148-153 | an existing user is adopted as it is |
| DatabaseUser.SentAccessMatchesIffExpressible | internal/controller/database/manageddatabaseuser_adapter.go:261-368 | what is sent compares equal to the spec if and only if no Valkey list is present but empty |
| DatabaseUser.RotatedPasswordReachesCloud | internal/controller/database/manageddatabaseuser_adapter.go:171-219 | a rotated password reaches the cloud through an update if and only if it is not empty |
| DatabaseUser.UpdateRepairsIff | internal/controller/database/manageddatabaseuser_adapter.go:171-219 | exactly when the observation after a successful update is up to date |
| DatabaseUser.CreatedUserUpToDate | internal/controller/database/manageddatabaseuser_adapter.go:120-166 | exactly when a user just created is observed up to date |
| DatabaseUser.UpdateRepairs | internal/controller/database/manageddatabaseuser_adapter.go:171-219 | what a successful update leaves of the user: password, authentication, access control |
| UserConvergence.UserContract | internal/controller/database/manageddatabaseuser_adapter.go:78-219 | the adapter, healing and all, keeps the convergence contract |
| UserConvergence.UserConverges | internal/reconciler/reconciler.go:73-156 | present in the cloud or not, a live user that can be served is Ready and in agreement after four faultless passes and stays so |
| UserConvergence.UnfitStays | internal/controller/database/manageddatabaseuser_adapter.go:171-219 | a password that cannot be sent or a block that cannot be said is not got over by any pass |
| UserConvergence.AgreementRestoredIff | internal/controller/database/manageddatabaseuser_adapter.go:68-219 | from any state - any Secret rotated or deleted, anything changed behind the operator's back - two faultless passes restore agreement of cloud, Secret and spec, and later ones keep it, if and only if password and access control can be sent |
| Labels.Desired | internal/upcloudapi/labels.go:32-42 | the key-sorted listing, each key once, of the user's labels with the owner's two on top |
| Labels.DesiredLabels | internal/upcloudapi/labels.go:32-42 | the merge yields that one listing for every map iteration order |
| Labels.DesiredCarriesOwner | internal/upcloudapi/labels.go:23-42 | the owner's two labels are always there and never overridden |
| Labels.DesiredLabelIff | internal/upcloudapi/labels.go:23-42 | a label is sent exactly when it is one of the owner's two or the user's under another key |
| Labels.DesiredHasExactlyOneUID | internal/upcloudapi/labels.go:32-63 | the merged labels carry the owner's uid and no other |
| Labels.LabelsEqual | internal/upcloudapi/labels.go:45-53 | multiset equality, exactly, when the second list repeats no key |
| Labels.HasUIDScan | internal/upcloudapi/labels.go:56-63 | decides whether the uid label is there |
| Labels.AcceptedLabelsStayAdoptable | internal/upcloudapi/labels.go:45-63 | labels accepted as equal keep the resource adoptable by its owner and by nobody else |
| Convert.ToStaticRoutesLoop | internal/controller/network/convert.go:11-21 | one request route per spec route, in order, without a type |
| Convert.UserRoutesLoop | internal/controller/network/convert.go:23-31 | keeps the user's routes in order |
| Convert.RequestedRouteIs | internal/controller/network/convert.go:11-21 | each field of each requested route |
| Convert.UserRoutesAre | internal/controller/network/convert.go:23-31 | the user's routes keep name, route and nexthop and their order |
| Convert.WithoutServiceAre | internal/controller/network/convert.go:23-31 | they are exactly the routes of type user or of none, as often as listed |
| Convert.RoutesEqualSorted | internal/controller/network/convert.go:33-39 | sorting and comparing keys decides equality of the multisets of keys |
| Convert.RoutesEqualIsMultisetEquality | internal/controller/network/convert.go:33-39 | that is multiset equality of (name, route, nexthop) when route and nexthop hold no separator |
| Convert.RoutesEqualIffBarFree | internal/controller/network/convert.go:33-39 | against given routes every verdict is right if and only if none of their fields holds the separator, whatever the other side holds |
| Convert.RouteDriftRightIffBarFree | internal/controller/network/convert.go:11-39 | a Router's drift check is right about every observed table if and only if no name, route or nexthop in the spec holds the separator |
| Convert.RoutesEqualCollision | internal/controller/network/convert.go:33-39 | an example of two different routes that compare equal |
| Convert.ServiceRoutesAreNoDrift | internal/controller/network/convert.go:23-39 | two tables that differ only in service routes, however many and wherever, get the same verdict |
| Convert.SentRoutesMatch | internal/controller/network/convert.go:11-39 | routes stored as sent are not drift |
| Convert.ToIPNetworksLoop | internal/controller/network/convert.go:60-78 | one subnet per spec entry, in order, with the defaults |
| Convert.RequestedSubnetIs | internal/controller/network/convert.go:60-78 | each field of each requested subnet: IPv4 and DHCP unless the spec says otherwise |
| Convert.AcceptsIff | internal/controller/network/convert.go:89-106 | an observed subnet is accepted exactly when it is the desired one, an empty desired gateway accepting any |
| Convert.PointwiseDecides | internal/controller/network/convert.go:80-106 | when desired subnets of one address agree, as distinct ones do, any two sorts compared pointwise decide the declarative match |
| Convert.SubnetsDecidedIffAgreeing | internal/controller/network/convert.go:80-106 | that holds for every observed list and every outcome of the sorts if and only if they agree |
| Convert.DistinctIsAgreeing | internal/controller/network/convert.go:80-106 | distinct addresses are enough |
| Convert.IPNetworksEqual | internal/controller/network/convert.go:80-106 | same addresses and agreement per address, an empty desired gateway accepting any |
| Convert.SentSubnetsMatch | internal/controller/network/convert.go:89-106 | subnets stored as sent are not drift |
| KeyMatch.ContainedIn | internal/controller/network/gatewayconnection_adapter.go:166-180 | equal lengths and every desired key observed |
| KeyMatch.CoveredIsEquality | internal/controller/network/gateway_adapter.go:167-181 | with no repeated desired key that is multiset equality of keys |
| KeyMatch.CoveredIsEqualityIffDistinct | internal/controller/network/gatewayconnection_adapter.go:166-180 | the check is right about every observed list if and only if no desired key repeats |
| KeyMatch.NamesEqualIffDistinct | internal/controller/network/gateway_adapter.go:167-181 | the same for lists of names, without any further assumption |
| KeyMatch.RepeatedKeyAccepted | internal/controller/network/gateway_adapter.go:167-181 | an example of another list being accepted |
| KeyMatch.FullKeyInjective | internal/controller/database/manageddatabase_adapter.go:356-362 | the joined key identifies an attachment when name, type and family hold no separator |
| KeyMatch.NetworksEqualIsMultisetEquality | internal/controller/objectstorage/managedobjectstorage_adapter.go:246-268 | the network comparisons are multiset equality of attachments |
| KeyMatch.NetworksEqualIffDistinct | internal/controller/objectstorage/managedobjectstorage_adapter.go:246-268 | right about every separator-free observed list if and only if no desired key repeats |
| KeyMatch.LbNetworksEqual | internal/controller/loadbalancer/loadbalancer_adapter.go:266-288 | pinned networks need the full key, unpinned ones the base key, lengths equal |
| KeyMatch.LbCoveredIsMatching | internal/controller/loadbalancer/loadbalancer_adapter.go:259-288 | true exactly when a bijection pairs observed and desired, pinned UUIDs included, as long as no two desired networks compete |
| KeyMatch.LbIsMatchingIffSeparated | internal/controller/loadbalancer/loadbalancer_adapter.go:259-288 | right about every separator-free observed list if and only if no two desired networks compete: they differ in name, type or family, or are pinned to different networks |
| BucketSearch.FirstHit | internal/upcloudapi/fake/objectstorage.go:670-692 | the flat scan: the first live bucket of the name |
| BucketSearch.FindBucket | internal/controller/objectstorage/objectstoragebucket_adapter.go:46-64 | the paged search ends with the flat scan's answer, and fails exactly when a page it needs fails |

## Left out

- Convert.IPNetworksEqual: says nothing when two different desired subnets share an address; the source's sort is unstable there, so the verdict is not a function of the inputs, and the model lets the environment choose it.
- Labels.LabelsEqual: is exact only when the second list repeats no key, which holds at every call, for the same reason.
- NoLeak.NetworkLeaksIffAbandoned: the converse is for runs in which no network vanishes behind the operator's back, because that may end a leak; the same goes for routers.
- GatewayTunnel.AtMostOneTunnel: assumes one fixed parent connection, and tunnels are kept in one map by identifier instead of nested in gateways and connections.
- AccessKey.SecretAgreesWithKey: assumes nobody else edits the owned Secret.
- Database.UpdateService: resolved network attachments and parsed properties are inputs; creating a database and its connection Secret are not part of this model.
- UserConvergence.AgreementRestoredIff: the authentication field is sent but never compared, so agreement does not cover it.
- NetworkConvergence.NetworkConverges: is instantiated for Networks, Routers, database users and object storage users; kinds whose resources take time to start are not.
- UserPolicies.UpdateCall: at most one mutating call of a pass is dealt a fault, which is no restriction, as a pass ends at its first failing call.
- PolicyConvergence.PoliciesConvergeIff: the delete cascade of users is not modelled; the result holds for every delete operation.
- Reconciles are atomic: no caches, resourceVersion conflicts, leader election, or concurrent workers. Requeue intervals are results; time passing is not modelled.
- Condition messages, observed generation and transition times; finalizers other than the operator's.
- Admission rules (immutable fields, enums, lengths): the model allows any edit.
- Call records, injected errors, state overrides and the mutex of the in-memory API; slices shared between it and its callers.
- Adapters for gateways, gateway connections, object storage services, load balancers and their children, floating IPs, peerings, logical databases, custom domains, policies and certificate bundles, apart from the comparisons listed above. The load balancer's plan is compared but never sent, so it would not converge.
- Watches and the indexes that find dependents: the proofs rest on requeueing only.
- Equality of JSON values is equality of their canonical text; there is no JSON parser.
