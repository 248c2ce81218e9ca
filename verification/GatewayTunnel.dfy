/** The GatewayTunnel kind (internal/controller/network/gatewaytunnel_adapter.go): replace by delete
    and create, with a rotation token standing in for a secret the API never echoes. */
module GatewayTunnel {
  import opened Support
  import opened Reconciler
  import opened PassShape

  datatype IPSecParams = IPSecParams(rekeyTime: int, childRekeyTime: int, dpdDelay: int, dpdTimeout: int,
                                     ikeLifetime: int,
                                     phase1Algorithms: seq<string>, phase1Integrity: seq<string>, phase1DH: seq<int>,
                                     phase2Algorithms: seq<string>, phase2Integrity: seq<string>, phase2DH: seq<int>)

  const NO_PARAMS := IPSecParams(0, 0, 0, 0, 0, [], [], [], [], [], [])

  datatype SecretKey = SecretKey(name: string, key: string)

  datatype IPSecSpec = IPSecSpec(authentication: string, psk: SecretKey, params: IPSecParams)

  datatype TunnelSpec = TunnelSpec(name: string, localAddress: string, remoteAddress: string, ipsec: Option<IPSecSpec>,
                                   rotationToken: string)

  datatype TunnelStatus = TunnelStatus(gateway: Uuid, connection: Uuid, rotationToken: string, operationalState: string)

  type TunnelCR = CR<TunnelSpec, TunnelStatus>

  const ESTABLISHED := "established"

  /** A tunnel nested in a connection of a gateway; `psk` is what the API was given and never returns. */
  datatype Tunnel = Tunnel(gateway: Uuid, connection: Uuid, name: string, localAddress: string, remoteAddress: string,
                           params: IPSecParams, authentication: string, psk: string, operationalState: string)

  /** What the operator was looking at when it made a tunnel: the token of the spec, and the value
      read from the Secret if the spec asked for one. A record for the proofs; no code reads it. */
  datatype Origin = Origin(token: string, secretRead: Option<string>)

  /** `parent` is the Ready connection's gateway and connection, or None while it is not Ready. */
  datatype GwWorld = GwWorld(parent: Option<(Uuid, Uuid)>, secrets: map<SecretKey, string>, connections: set<(Uuid,
                             Uuid)>,
                             tunnels: map<Uuid, Tunnel>, last: nat, origins: map<Uuid, Origin>)

  datatype Site = ObserveResolve | ObserveGet | CreateResolve | SecretRead | CreateCall | DeleteCall

  datatype Env = Env(faults: map<Site, Fault>)
  {
    function At(s: Site): Fault { if s in faults then faults[s] else Works }
  }

  function ResolveParents(w: GwWorld, f: Fault): Result<(Uuid, Uuid)> {
    if !f.Works? then Err(Other)
    else if w.parent.None? || w.parent.value.0 == NO_UUID || w.parent.value.1 == NO_UUID then Err(DependencyNotReady)
    else Ok(w.parent.value)
  }

  /** The tunnel at (gateway, connection, id), if that is where it is. */
  predicate Has(w: GwWorld, gateway: Uuid, connection: Uuid, id: Uuid) {
    id in w.tunnels && w.tunnels[id].gateway == gateway && w.tunnels[id].connection == connection
  }

  function GetTunnel(w: GwWorld, gateway: Uuid, connection: Uuid, id: Uuid, f: Fault): Result<Tunnel> {
    if !f.Works? then Err(Api(f.status))
    else if Has(w, gateway, connection, id) then Ok(w.tunnels[id])
    else Err(Api(NOT_FOUND))
  }

  function DeleteTunnel(w: GwWorld, gateway: Uuid, connection: Uuid, id: Uuid, f: Fault): (GwWorld, Result<()>) {
    if !Has(w, gateway, connection, id) then (w, Answer(f, Err(Api(NOT_FOUND))))
    else (if TakesEffect(f) then w.(tunnels := w.tunnels - {id}) else w, Answer(f, Ok(())))
  }

  /** The PSK is not compared: the API does not return it. The name and the kind of authentication are
      returned but not compared either; IPSec parameters are, if the spec has an IPSec block. */
  predicate TunnelMatches(t: Tunnel, spec: TunnelSpec) {
    && t.remoteAddress == spec.remoteAddress && t.localAddress == spec.localAddress
    && (spec.ipsec.Some? ==> t.params == spec.ipsec.value.params)
  }

  function Observe(t: TunnelCR, w: GwWorld, e: Env): Outcome<TunnelSpec, TunnelStatus, GwWorld, Observation> {
    var p := ResolveParents(w, e.At(ObserveResolve));
    if p.Err? then Outcome(t, w, Err(p.error)) else
    var t1 := t.(status := t.status.(gateway := p.value.0, connection := p.value.1));
    if t.id == NO_UUID then Outcome(t1, w, Ok(ABSENT)) else
    var got := GetTunnel(w, p.value.0, p.value.1, t.id, e.At(ObserveGet));
    if got.Err? then Outcome(t1, w, if IsNotFound(got.error) then Ok(ABSENT) else Err(got.error)) else
    Outcome(t1.(status := t1.status.(operationalState := got.value.operationalState)), w,
            Ok(Observation(true, TunnelMatches(got.value, t.spec) && t.status.rotationToken == t.spec.rotationToken,
                           got.value.operationalState == ESTABLISHED)))
  }

  /** The PSK to send, read from its Secret now; None when the spec has no IPSec block. */
  function ReadPsk(t: TunnelCR, w: GwWorld, f: Fault): Result<Option<string>> {
    if t.spec.ipsec.None? then Ok(None)
    else if !f.Works? then Err(Other)
    else if t.spec.ipsec.value.psk !in w.secrets then Err(DependencyNotReady)
    else Ok(Some(w.secrets[t.spec.ipsec.value.psk]))
  }

  function ExternalName(t: TunnelCR): string { if t.spec.name != "" then t.spec.name else t.name }

  function Payload(t: TunnelCR, gateway: Uuid, connection: Uuid, psk: Option<string>): Tunnel {
    Tunnel(gateway, connection, ExternalName(t), t.spec.localAddress, t.spec.remoteAddress,
           if t.spec.ipsec.Some? then t.spec.ipsec.value.params else NO_PARAMS,
           if t.spec.ipsec.Some? then t.spec.ipsec.value.authentication else "",
           if psk.Some? then psk.value else "", ESTABLISHED)
  }

  function CreateTunnel(w: GwWorld, tunnel: Tunnel, origin: Origin, f: Fault): (GwWorld, Result<Uuid>) {
    var id := w.last + 1;
    if (tunnel.gateway, tunnel.connection) !in w.connections then (w, Answer(f, Err(Api(NOT_FOUND))))
    else (if TakesEffect(f) then w.(tunnels := w.tunnels[id := tunnel], last := id,
      origins := w.origins[id := origin]) else w, Answer(f, Ok(id)))
  }

  function Create(t: TunnelCR, w: GwWorld, e: Env): Outcome<TunnelSpec, TunnelStatus, GwWorld, ()> {
    var p := ResolveParents(w, e.At(CreateResolve));
    if p.Err? then Outcome(t, w, Err(p.error)) else
    var psk := ReadPsk(t, w, e.At(SecretRead));
    if psk.Err? then Outcome(t, w, Err(psk.error)) else
    var (w', id) := CreateTunnel(w, Payload(t, p.value.0, p.value.1, psk.value),
        Origin(t.spec.rotationToken, psk.value), e.At(CreateCall));
    if id.Err? then Outcome(t, w', Err(id.error)) else
    Outcome(t.(id := id.value, status := t.status.(gateway := p.value.0, connection := p.value.1,
      rotationToken := t.spec.rotationToken)), w', Ok(()))
  }

  /** No modify in the API: delete, then create. */
  function Update(t: TunnelCR, w: GwWorld, e: Env): Outcome<TunnelSpec, TunnelStatus, GwWorld, ()> {
    if t.id == NO_UUID then Create(t, w, e) else
    var (w1, d) := DeleteTunnel(w, t.status.gateway, t.status.connection, t.id, e.At(DeleteCall));
    if d.Err? && !IsNotFound(d.error) then Outcome(t, w1, Err(d.error))
    else Create(t.(id := NO_UUID), w1, e)
  }

  function Delete(t: TunnelCR, w: GwWorld, e: Env): Outcome<TunnelSpec, TunnelStatus, GwWorld, ()> {
    if t.id == NO_UUID || t.status.gateway == NO_UUID || t.status.connection == NO_UUID then Outcome(t, w, Ok(())) else
    var (w', d) := DeleteTunnel(w, t.status.gateway, t.status.connection, t.id, e.At(DeleteCall));
    Outcome(t, w', if d.Ok? || IsNotFound(d.error) then Ok(()) else if IsConflict(d.error) then Err(Pending) else d)
  }

  const Ops: Adapter<TunnelSpec, TunnelStatus, GwWorld, Env> := Adapter(Observe, Create, Update, Delete)

  // ---- The adapter as an object

  class TunnelObject {
    var cr: TunnelCR

    constructor (cr: TunnelCR)
      ensures this.cr == cr
    {
      this.cr := cr;
    }
  }

  class AdapterObject {
    var world: GwWorld

    constructor (w: GwWorld)
      ensures world == w
    {
      world := w;
    }

    method ObserveCall(t: TunnelObject, e: Env) returns (r: Result<Observation>)
      modifies t
      ensures Outcome(t.cr, world, r) == Observe(old(t.cr), world, e)
    {
      var p := ResolveParents(world, e.At(ObserveResolve));
      if p.Err? {
        return Err(p.error);
      }
      t.cr := t.cr.(status := t.cr.status.(gateway := p.value.0, connection := p.value.1));
      if t.cr.id == NO_UUID {
        return Ok(ABSENT);
      }
      var got := GetTunnel(world, p.value.0, p.value.1, t.cr.id, e.At(ObserveGet));
      if got.Err? {
        return if IsNotFound(got.error) then Ok(ABSENT) else Err(got.error);
      }
      t.cr := t.cr.(status := t.cr.status.(operationalState := got.value.operationalState));
      var upToDate := TunnelMatches(got.value, t.cr.spec);
      if upToDate && t.cr.status.rotationToken != t.cr.spec.rotationToken {
        upToDate := false;
      }
      return Ok(Observation(true, upToDate, got.value.operationalState == ESTABLISHED));
    }

    method CreateCall(t: TunnelObject, e: Env) returns (r: Result<()>)
      modifies this, t
      ensures Outcome(t.cr, world, r) == Create(old(t.cr), old(world), e)
    {
      var p := ResolveParents(world, e.At(Site.CreateResolve));
      if p.Err? {
        return Err(p.error);
      }
      var psk := ReadPsk(t.cr, world, e.At(SecretRead));
      if psk.Err? {
        return Err(psk.error);
      }
      var made := Payload(t.cr, p.value.0, p.value.1, psk.value);
      var (w, id) := CreateTunnel(world, made, Origin(t.cr.spec.rotationToken, psk.value), e.At(Site.CreateCall));
      world := w;
      if id.Err? {
        return Err(id.error);
      }
      t.cr := t.cr.(id := id.value);
      t.cr := t.cr.(status := t.cr.status.(gateway := p.value.0, connection := p.value.1,
        rotationToken := t.cr.spec.rotationToken));
      return Ok(());
    }

    method UpdateCall(t: TunnelObject, e: Env) returns (r: Result<()>)
      modifies this, t
      ensures Outcome(t.cr, world, r) == Update(old(t.cr), old(world), e)
    {
      if t.cr.id != NO_UUID {
        var (w, d) := DeleteTunnel(world, t.cr.status.gateway, t.cr.status.connection, t.cr.id, e.At(Site.DeleteCall));
        world := w;
        if d.Err? && !IsNotFound(d.error) {
          return Err(d.error);
        }
        t.cr := t.cr.(id := NO_UUID);
      }
      r := CreateCall(t, e);
    }

    method DeleteTunnelOf(t: TunnelObject, e: Env) returns (r: Result<()>)
      modifies this
      ensures Outcome(t.cr, world, r) == Delete(old(t.cr), old(world), e)
    {
      if t.cr.id == NO_UUID || t.cr.status.gateway == NO_UUID || t.cr.status.connection == NO_UUID {
        return Ok(());
      }
      var (w, d) := DeleteTunnel(world, t.cr.status.gateway, t.cr.status.connection, t.cr.id, e.At(Site.DeleteCall));
      world := w;
      if d.Ok? || IsNotFound(d.error) {
        return Ok(());
      }
      return if IsConflict(d.error) then Err(Pending) else d;
    }
  }

  // ---- Runs of one resource

  /** The resource, if it is still stored, and everything around it. `home` is the parent connection. */
  datatype State = State(obj: Option<TunnelCR>, world: GwWorld, home: (Uuid, Uuid))

  const NO_FAULTS := Env(map[])

  const TIMERS := Timers(DEFAULT_REQUEUE, DEFAULT_REQUEUE, DEFAULT_STEADY)

  datatype Event =
    | Reconcile(env: Env, write: Write)
    | Edit(policy: DeletionPolicy, spec: TunnelSpec)
    | Mark
    | SetSecret(key: SecretKey, value: string)
    | DropSecret(key: SecretKey)
    | ParentReady(isReady: bool)
    | OthersTunnel(tunnel: Tunnel)
    | OutOfBandDelete(id: Uuid)

  function ThePass(s: State, e: Env, write: Write): Pass<TunnelSpec, TunnelStatus, GwWorld>
    requires s.obj.Some?
  {
    PassOver(Ops, TIMERS, s.obj.value, s.world, e, write)
  }

  function Next(s: State, ev: Event): State {
    match ev
    case Reconcile(e, write) =>
      if s.obj.None? then s else var p := ThePass(s, e, write); s.(obj := p.obj, world := p.world)
    case Edit(policy, spec) => if s.obj.None? then s else s.(obj := Some(s.obj.value.(policy := policy, spec := spec)))
    case Mark =>
      if s.obj.None? then s
      else s.(obj := if s.obj.value.finalizer then Some(s.obj.value.(deleting := true)) else None)
    case SetSecret(key, value) => s.(world := s.world.(secrets := s.world.secrets[key := value]))
    case DropSecret(key) => s.(world := s.world.(secrets := s.world.secrets - {key}))
    case ParentReady(isReady) => s.(world := s.world.(parent := if isReady then Some(s.home) else None))
    case OthersTunnel(tunnel) =>
      s.(world := s.world.(tunnels := s.world.tunnels[s.world.last + 1 := tunnel], last := s.world.last + 1))
    case OutOfBandDelete(id) => s.(world := s.world.(tunnels := s.world.tunnels - {id}))
  }

  function Run(s: State, run: seq<Event>): State
    decreases |run|
  {
    if run == [] then s else Run(Next(s, run[0]), run[1..])
  }

  /** A tunnel this resource made and that still exists. */
  predicate Mine(w: GwWorld, id: Uuid) { id in w.origins && id in w.tunnels }

  /** The cloud matches the record of how each of the resource's tunnels was made. */
  predicate AsMade(t: Tunnel, o: Origin) {
    t.psk == if o.secretRead.Some? then o.secretRead.value else ""
  }

  /** A pass over t reaches a create, and the create takes effect: t is live; it is observed absent, or out of
      date with its delete answered; the parent and the PSK can be read; the parent connection exists. */
  predicate CreatesTunnel(t: TunnelCR, w: GwWorld, e: Env) {
    && !t.deleting && t.finalizer && TakesEffect(e.At(CreateCall))
    && var seen := Observe(t, w, e).result;
       && seen.Ok? && (!seen.value.present || (!seen.value.upToDate && e.At(DeleteCall).Works?))
       && e.At(CreateResolve).Works? && ReadPsk(t, w, e.At(SecretRead)).Ok? && w.parent.value in w.connections
  }

  /** A create took effect and its reply, or the status write after it, was lost. */
  predicate LosesTunnel(s: State, ev: Event) {
    && ev.Reconcile? && s.obj.Some? && CreatesTunnel(s.obj.value, s.world, ev.env)
    && (ev.env.At(CreateCall).LostReply? || ev.write.Rejected?)
  }

  /** The recorded tunnel's delete call is made, and takes effect: on deletion under Delete, or to replace it. */
  predicate DeletesRecorded(t: TunnelCR, w: GwWorld, e: Env) {
    && t.finalizer && t.id in w.tunnels && TakesEffect(e.At(DeleteCall))
    && if t.deleting then t.policy == DeletePolicy
       else
         var seen := Observe(t, w, e).result;
         seen.Ok? && seen.value.present && !seen.value.upToDate
  }

  /** The recorded tunnel is deleted and its reply, or the write after it, is lost. */
  predicate LosesDelete(s: State, ev: Event) {
    && ev.Reconcile? && s.obj.Some? && DeletesRecorded(s.obj.value, s.world, ev.env)
    && (ev.env.At(DeleteCall).LostReply? || ev.write.Rejected?)
  }

  /** Somebody else deletes the recorded tunnel. */
  predicate DropsRecorded(s: State, ev: Event) {
    ev.OutOfBandDelete? && s.obj.Some? && s.obj.value.id == ev.id && ev.id in s.world.tunnels
  }

  /** w' is w with, at most, the tunnel `gone` deleted and one tunnel made for `t`. */
  ghost predicate Made(w: GwWorld, w': GwWorld, t: TunnelCR, home: (Uuid, Uuid)) {
    var id := w.last + 1;
    && id in w'.tunnels && id in w'.origins
    && w' == w.(tunnels := w.tunnels[id := w'.tunnels[id]], last := id, origins := w.origins[id := w'.origins[id]])
    && w'.tunnels[id].gateway == home.0 && w'.tunnels[id].connection == home.1
    && AsMade(w'.tunnels[id], w'.origins[id]) && w'.origins[id].token == t.spec.rotationToken
    && HoldsPsk(w'.tunnels[id], t.spec, w.secrets)
  }

  /** The tunnel's PSK is what the Secret named by the spec holds, or empty if the spec names none. */
  predicate HoldsPsk(tunnel: Tunnel, spec: TunnelSpec, secrets: map<SecretKey, string>) {
    if spec.ipsec.None? then tunnel.psk == ""
    else spec.ipsec.value.psk in secrets && tunnel.psk == secrets[spec.ipsec.value.psk]
  }

  /** A create makes one tunnel, whose identity and token are recorded unless the reply is lost, or none. */
  lemma CreateMakesOneOrNone(t: TunnelCR, w: GwWorld, e: Env, home: (Uuid, Uuid))
    requires w.parent.Some? ==> w.parent.value == home
    ensures var c := Create(t, w, e);
            if c.world == w then c.result.Err? && c.obj == t
            else Made(w, c.world, t, home) && (c.result.Err? ==> e.At(CreateCall).LostReply? && c.obj == t)
                 && (c.result.Ok? ==> c.obj.id == w.last + 1 && c.obj.status.rotationToken == t.spec.rotationToken
                                      && (c.obj.status.gateway, c.obj.status.connection) == home)
  {
    var c := Create(t, w, e);
    assert c.world.last == w.last ==> c.world == w;
  }

  ghost predicate WorldOK(w: GwWorld, home: (Uuid, Uuid)) {
    && home.0 != NO_UUID && home.1 != NO_UUID
    && (w.parent.Some? ==> w.parent.value == home)
    && (forall id :: id in w.tunnels || id in w.origins ==> NO_UUID < id <= w.last)
    && (forall id :: Mine(w, id) ==>
          w.tunnels[id].gateway == home.0 && w.tunnels[id].connection == home.1 && AsMade(w.tunnels[id], w.origins[id]))
  }

  /** The resource accounts for every tunnel it made that still exists: at most one, recorded with the
      token it was made under. */
  ghost predicate Accounts(t: TunnelCR, w: GwWorld, home: (Uuid, Uuid)) {
    && (forall id :: Mine(w, id) ==> t.id == id && t.status.rotationToken == w.origins[id].token)
    && (t.id != NO_UUID ==> t.id in w.origins && (t.status.gateway, t.status.connection) == home)
  }

  ghost predicate AtMostOne(w: GwWorld) {
    forall i, j :: Mine(w, i) && Mine(w, j) ==> i == j
  }

  ghost predicate Inv(s: State) {
    && WorldOK(s.world, s.home)
    && (s.obj.None? ==> AtMostOne(s.world))
    && (s.obj.Some? ==> (s.obj.value.id != NO_UUID ==> s.obj.value.finalizer) && Accounts(s.obj.value, s.world, s.home))
  }

  /** An identity on record names a tunnel that exists. */
  ghost predicate Exact(s: State) {
    s.obj.Some? && s.obj.value.id != NO_UUID ==> s.obj.value.id in s.world.tunnels
  }

  ghost predicate Init(s: State) {
    && WorldOK(s.world, s.home) && s.world.origins == map[]
    && s.obj.Some? && s.obj.value.id == NO_UUID && !s.obj.value.deleting
  }

  /** What the calls of a live pass leave, as far as the invariant cares. */
  ghost predicate CallsOK(t: TunnelCR, x: TunnelCR, w: GwWorld, w': GwWorld, e: Env, home: (Uuid, Uuid)) {
    && WorldOK(w', home) && w'.parent == w.parent && w.last <= w'.last
    && (w'.last == w.last || !e.At(CreateCall).LostReply? ==> Accounts(x, w', home))
    && (w'.last == w.last ==> Accounts(t, w', home))
  }

  lemma AfterCreate(t: TunnelCR, x: TunnelCR, w: GwWorld, e: Env, home: (Uuid, Uuid))
    requires WorldOK(w, home) && Accounts(t, w, home) && Accounts(x, w, home) && forall id :: !Mine(w, id)
    requires x.spec == t.spec
    ensures var c := Create(x, w, e);
            && WorldOK(c.world, home) && c.world.parent == w.parent && w.last <= c.world.last
            && (c.world.last == w.last || !e.At(CreateCall).LostReply? ==> Accounts(c.obj, c.world, home))
            && (c.world.last == w.last ==> c.world == w && c.obj == x)
            && (c.world.last != w.last && !e.At(CreateCall).LostReply? ==> c.obj.id in c.world.tunnels)
  {
    CreateMakesOneOrNone(x, w, e, home);
    var w' := Create(x, w, e).world;
    assert w' != w ==> forall id :: Mine(w', id) <==> id == w'.last || Mine(w, id);
  }

  lemma AfterDelete(t: TunnelCR, w: GwWorld, e: Env, home: (Uuid, Uuid))
    requires WorldOK(w, home) && Accounts(t, w, home) && t.id != NO_UUID
    ensures var (w1, d) := DeleteTunnel(w, t.status.gateway, t.status.connection, t.id, e.At(DeleteCall));
            && WorldOK(w1, home) && Accounts(t, w1, home) && w1 == w.(tunnels := w1.tunnels)
            && (d.Ok? || IsNotFound(d.error) ==> forall id :: !Mine(w1, id))
            && (d.Err? && !IsNotFound(d.error) && !e.At(DeleteCall).LostReply? ==> w1 == w)
  {
  }

  lemma SeenAccounts(t: TunnelCR, w: GwWorld, e: Env, home: (Uuid, Uuid))
    requires WorldOK(w, home) && Accounts(t, w, home)
    ensures var v := Observe(t, w, e);
            && v.world == w && v.obj.id == t.id && v.obj.spec == t.spec && Accounts(v.obj, w, home)
            && (v.result.Ok? && v.result.value.present ==> t.id != NO_UUID)
            && (v.result == Ok(ABSENT) ==> (forall id :: !Mine(w, id)) && t.id !in w.tunnels)
            && (v.result.Ok? && !v.result.value.present ==> v.result == Ok(ABSENT))
  {
    assert forall id :: Mine(w, id) ==> id == t.id && NO_UUID < id && Has(w, home.0, home.1, id);
  }

  lemma UpdateCalls(t: TunnelCR, x: TunnelCR, w: GwWorld, e: Env, home: (Uuid, Uuid))
    requires WorldOK(w, home) && Accounts(t, w, home) && Accounts(x, w, home) && x.id != NO_UUID && x.spec == t.spec
        && x.id == t.id
    ensures var u := Update(x, w, e); CallsOK(t, u.obj, w, u.world, e, home)
  {
    AfterDelete(x, w, e, home);
    AfterDelete(t, w, e, home);
    var (w1, d) := DeleteTunnel(w, x.status.gateway, x.status.connection, x.id, e.At(DeleteCall));
    if d.Ok? || IsNotFound(d.error) {
      AfterCreate(t, x.(id := NO_UUID), w1, e, home);
    }
  }

  lemma LiveCalls(t: TunnelCR, w: GwWorld, e: Env, home: (Uuid, Uuid))
    requires WorldOK(w, home) && Accounts(t, w, home)
    ensures var (x, w') := AfterCalls(Ops, t, w, e);
            CallsOK(t, x, w, w', e, home)
  {
    var v := Observe(t, w, e);
    SeenAccounts(t, w, e, home);
    if v.result.Ok? && !v.result.value.present {
      AfterCreate(t, v.obj, w, e, home);
    } else if v.result.Ok? && !v.result.value.upToDate {
      UpdateCalls(t, v.obj, w, e, home);
    }
  }

  /** The identifier counter moves exactly when a pass creates a tunnel. */
  lemma CreatesIff(t: TunnelCR, w: GwWorld, e: Env, write: Write)
    ensures PassOver(Ops, TIMERS, t, w, e, write).world.last != w.last <==> CreatesTunnel(t, w, e)
  {
    if t.deleting && t.finalizer {
      DeletePassShape(Ops, TIMERS, t, w, e, write);
    } else if t.finalizer {
      LivePassPersists(Ops, TIMERS, t, w, e, write);
      var v := Observe(t, w, e);
      if v.result.Ok? && v.result.value.present && !v.result.value.upToDate {
        UpdateCreatesIff(v.obj, w, e);
      }
    }
  }

  lemma UpdateCreatesIff(x: TunnelCR, w: GwWorld, e: Env)
    requires x.id != NO_UUID && Has(w, x.status.gateway, x.status.connection, x.id)
    requires w.parent == Some((x.status.gateway, x.status.connection)) && x.status.gateway != NO_UUID
        && x.status.connection != NO_UUID
    ensures Update(x, w, e).world.last != w.last <==>
              && e.At(DeleteCall).Works? && e.At(CreateResolve).Works? && ReadPsk(x, w, e.At(SecretRead)).Ok?
              && w.parent.value in w.connections && TakesEffect(e.At(CreateCall))
  {
    var w1 := DeleteTunnel(w, x.status.gateway, x.status.connection, x.id, e.At(DeleteCall)).0;
    var y := x.(id := NO_UUID);
    assert ReadPsk(y, w1, e.At(SecretRead)) == ReadPsk(x, w, e.At(SecretRead));
    assert Create(y, w1, e).world.last != w.last <==>
      && e.At(CreateResolve).Works? && ReadPsk(x, w, e.At(SecretRead)).Ok?
      && w.parent.value in w.connections && TakesEffect(e.At(CreateCall));
  }

  lemma PassInv(s: State, e: Env, write: Write)
    requires Inv(s) && s.obj.Some? && !LosesTunnel(s, Reconcile(e, write))
    ensures Inv(Next(s, Reconcile(e, write)))
  {
    var t := s.obj.value;
    CreatesIff(t, s.world, e, write);
    if t.deleting && t.finalizer {
      DeletePassShape(Ops, TIMERS, t, s.world, e, write);
      if t.id != NO_UUID { AfterDelete(t, s.world, e, s.home); }
    } else if t.finalizer {
      LivePassPersists(Ops, TIMERS, t, s.world, e, write);
      LiveCalls(t, s.world, e, s.home);
    }
  }

  /** Where a lost create leaves the resource: with a tunnel it has not on record, and no other. */
  ghost predicate Lost(s: State) {
    && s.obj.Some? && !s.obj.value.deleting && s.obj.value.finalizer && s.obj.value.id !in s.world.tunnels
    && s.home.0 != NO_UUID && s.home.1 != NO_UUID && s.home in s.world.connections
    && Mine(s.world, s.world.last) && s.obj.value.id < s.world.last
  }

  lemma CreateNeedsConnection(t: TunnelCR, w: GwWorld, e: Env, home: (Uuid, Uuid))
    requires (w.parent.Some? ==> w.parent.value == home) && Create(t, w, e).world.last != w.last
    ensures home in w.connections && Create(t, w, e).world.connections == w.connections
  {
  }

  lemma LosingPassLeavesLost(s: State, e: Env, write: Write)
    requires Inv(s) && LosesTunnel(s, Reconcile(e, write))
    ensures Lost(Next(s, Reconcile(e, write)))
  {
    var t, w := s.obj.value, s.world;
    assert t.id <= w.last;
    CreatesIff(t, w, e, write);
    if t.deleting && t.finalizer {
      DeletePassShape(Ops, TIMERS, t, w, e, write);
    } else {
      LivePassPersists(Ops, TIMERS, t, w, e, write);
      SeenAccounts(t, w, e, s.home);
      var v := Observe(t, w, e);
      if !v.result.value.present {
        CreateMakesOneOrNone(v.obj, w, e, s.home);
        CreateNeedsConnection(v.obj, w, e, s.home);
      } else {
        LosingUpdate(v.obj, w, e, s.home);
      }
    }
  }

  lemma LosingUpdate(x: TunnelCR, w: GwWorld, e: Env, home: (Uuid, Uuid))
    requires WorldOK(w, home) && Accounts(x, w, home) && x.id != NO_UUID && Update(x, w, e).world.last != w.last
    ensures var u := Update(x, w, e);
            && u.world.last == w.last + 1 && Mine(u.world, u.world.last) && x.id !in u.world.tunnels
            && home in w.connections && u.world.connections == w.connections
            && (e.At(CreateCall).LostReply? ==> u.obj.id == NO_UUID)
  {
    AfterDelete(x, w, e, home);
    var w1 := DeleteTunnel(w, x.status.gateway, x.status.connection, x.id, e.At(DeleteCall)).0;
    assert x.id <= w.last;
    CreateMakesOneOrNone(x.(id := NO_UUID), w1, e, home);
    CreateNeedsConnection(x.(id := NO_UUID), w1, e, home);
  }

  /** Every event but the loss of a created tunnel keeps the accounting, and that one breaks it. */
  lemma NextInv(s: State, ev: Event)
    requires Inv(s)
    ensures Inv(Next(s, ev)) <==> !LosesTunnel(s, ev)
  {
    if LosesTunnel(s, ev) {
      LosingPassLeavesLost(s, ev.env, ev.write);
    } else if ev.Reconcile? && s.obj.Some? {
      PassInv(s, ev.env, ev.write);
    } else if ev.Mark? {
      assert forall id :: Mine(s.world, id) ==> NO_UUID < id;
    } else {
      assert forall id :: Mine(Next(s, ev).world, id) ==> Mine(s.world, id);
    }
  }

  ghost predicate TrackedRun(s: State, run: seq<Event>)
    decreases |run|
  {
    run == [] || (!LosesTunnel(s, run[0]) && TrackedRun(Next(s, run[0]), run[1..]))
  }

  lemma {:induction false} RunInv(s: State, run: seq<Event>)
    requires Inv(s) && TrackedRun(s, run)
    ensures Inv(Run(s, run))
    decreases |run|
  {
    if run != [] {
      NextInv(s, run[0]);
      RunInv(Next(s, run[0]), run[1..]);
    }
  }

  /** At most one tunnel per resource, and always the recorded one while the resource is stored - in every
      run in which no create is lost track of, whatever fails between delete and create. */
  lemma AtMostOneTunnel(s: State, run: seq<Event>)
    requires Init(s) && TrackedRun(s, run)
    ensures var s' := Run(s, run);
            && AtMostOne(s'.world)
            && (s'.obj.Some? ==> forall id :: Mine(s'.world, id) ==> s'.obj.value.id == id)
  {
    RunInv(s, run);
  }

  /** The event that removes the resource leaves no tunnel behind if and only if there was none or the
      policy was Delete. */
  lemma ReleaseLeavesNoneIff(s: State, ev: Event)
    requires Inv(s) && s.obj.Some? && Next(s, ev).obj.None?
    ensures (forall id :: !Mine(Next(s, ev).world, id)) <==>
        s.obj.value.policy == DeletePolicy || forall id :: !Mine(s.world, id)
  {
    var t := s.obj.value;
    assert forall id :: Mine(s.world, id) ==> NO_UUID < id;
    if ev.Reconcile? && t.deleting && t.finalizer {
      DeletePassShape(Ops, TIMERS, t, s.world, ev.env, ev.write);
      if t.id != NO_UUID { AfterDelete(t, s.world, ev.env, s.home); }
    } else if ev.Reconcile? && t.finalizer {
      LivePassPersists(Ops, TIMERS, t, s.world, ev.env, ev.write);
    }
  }

  /** Two events and one faultless pass later a lost tunnel has a twin. */
  lemma LostDuplicates(s: State) returns (run: seq<Event>)
    requires Lost(s)
    ensures TrackedRun(s, run) && !AtMostOne(Run(s, run).world)
  {
    var t, w := s.obj.value, s.world;
    var spec := t.spec.(ipsec := None);
    var s1 := Next(s, ParentReady(true));
    var s2 := Next(s1, Edit(t.policy, spec));
    var s3 := Next(s2, Reconcile(NO_FAULTS, Done));
    run := [ParentReady(true), Edit(t.policy, spec), Reconcile(NO_FAULTS, Done)];
    assert s3.world.last == w.last + 1 && Mine(s3.world, w.last) && Mine(s3.world, w.last + 1) by {
      var x := t.(spec := spec, status := t.status.(gateway := s.home.0, connection := s.home.1));
      assert Observe(s2.obj.value, s2.world, NO_FAULTS) == Outcome(x, s2.world, Ok(ABSENT));
      assert Create(x, s2.world, NO_FAULTS).world.last == w.last + 1;
      LivePassPersists(Ops, TIMERS, s2.obj.value, s2.world, NO_FAULTS, Done);
    }
    assert run[1..] == [run[1], run[2]] && run[1..][1..] == [run[2]] && run[1..][1..][1..] == [];
    assert Run(s2, run[1..][1..]) == Run(s3, []) && TrackedRun(s3, []);
    assert Run(s1, run[1..]) == s3 && TrackedRun(s2, run[1..][1..]) && TrackedRun(s1, run[1..]);
  }

  /** The exact condition, event by event: afterwards no run that loses no tunnel ever has two, if and
      only if the event did not lose one. */
  lemma UniqueAfterIffNotLost(s: State, ev: Event)
    requires Inv(s)
    ensures !LosesTunnel(s, ev) <==> forall run ::
        TrackedRun(Next(s, ev), run) ==> AtMostOne(Run(Next(s, ev), run).world)
  {
    NextInv(s, ev);
    if LosesTunnel(s, ev) {
      LosingPassLeavesLost(s, ev.env, ev.write);
      var run := LostDuplicates(Next(s, ev));
    } else {
      forall run | TrackedRun(Next(s, ev), run) ensures AtMostOne(Run(Next(s, ev), run).world) {
        RunInv(Next(s, ev), run);
      }
    }
  }

  // ---- The recorded identity

  lemma ReplacedExact(x: TunnelCR, w: GwWorld, e: Env, home: (Uuid, Uuid))
    requires WorldOK(w, home) && Accounts(x, w, home) && x.id in w.tunnels
    ensures var u := Update(x, w, e);
            && (x.id in u.world.tunnels <==> !TakesEffect(e.At(DeleteCall)))
            && (u.obj.id == NO_UUID || u.obj.id in u.world.tunnels || (u.obj.id == x.id && e.At(DeleteCall).LostReply?))
            && (e.At(DeleteCall).LostReply? ==> u.obj.id == x.id)
  {
    AfterDelete(x, w, e, home);
    assert Mine(w, x.id);
    var w1 := DeleteTunnel(w, x.status.gateway, x.status.connection, x.id, e.At(DeleteCall)).0;
    CreateMakesOneOrNone(x.(id := NO_UUID), w1, e, home);
  }

  lemma LivePassExactIff(s: State, e: Env, write: Write)
    requires Inv(s) && Exact(s) && s.obj.Some? && !s.obj.value.deleting && s.obj.value.finalizer
    ensures Exact(Next(s, Reconcile(e, write))) || LosesTunnel(s, Reconcile(e, write))
        || LosesDelete(s, Reconcile(e, write))
    ensures LosesDelete(s, Reconcile(e, write)) ==> !Exact(Next(s, Reconcile(e, write)))
  {
    var t, w := s.obj.value, s.world;
    LivePassPersists(Ops, TIMERS, t, w, e, write);
    SeenAccounts(t, w, e, s.home);
    var v := Observe(t, w, e);
    if v.result.Ok? && !v.result.value.present {
      CreateMakesOneOrNone(v.obj, w, e, s.home);
    } else if v.result.Ok? && !v.result.value.upToDate {
      ReplacedExact(v.obj, w, e, s.home);
    }
  }

  lemma DeletePassExactIff(s: State, e: Env, write: Write)
    requires Inv(s) && Exact(s) && s.obj.Some? && s.obj.value.deleting && s.obj.value.finalizer
    ensures Exact(Next(s, Reconcile(e, write))) <==> !LosesDelete(s, Reconcile(e, write))
  {
    var t := s.obj.value;
    DeletePassShape(Ops, TIMERS, t, s.world, e, write);
    if t.id != NO_UUID {
      assert Mine(s.world, t.id);
      AfterDelete(t, s.world, e, s.home);
    }
  }

  /** The exact condition, event by event: the resource goes on having on record exactly the tunnel it owns
      if and only if the event neither loses a created tunnel, nor loses the deletion of the recorded one,
      nor is somebody else's deletion of it. */
  lemma NextExactIff(s: State, ev: Event)
    requires Inv(s) && Exact(s)
    ensures Inv(Next(s, ev)) && Exact(Next(s, ev)) <==>
              !LosesTunnel(s, ev) && !LosesDelete(s, ev) && !DropsRecorded(s, ev)
  {
    NextInv(s, ev);
    if ev.Reconcile? && s.obj.Some? && s.obj.value.finalizer {
      if s.obj.value.deleting {
        DeletePassExactIff(s, ev.env, ev.write);
      } else {
        LivePassExactIff(s, ev.env, ev.write);
      }
    }
  }

  ghost predicate ExactRun(s: State, run: seq<Event>)
    decreases |run|
  {
    run == []
    || (!LosesTunnel(s, run[0]) && !LosesDelete(s, run[0]) && !DropsRecorded(s, run[0])
         && ExactRun(Next(s, run[0]), run[1..]))
  }

  lemma {:induction false} ExactRunInv(s: State, run: seq<Event>)
    requires Inv(s) && Exact(s) && ExactRun(s, run)
    ensures Inv(Run(s, run)) && Exact(Run(s, run))
    decreases |run|
  {
    if run != [] {
      NextExactIff(s, run[0]);
      ExactRunInv(Next(s, run[0]), run[1..]);
    }
  }

  /** While nothing is lost, the resource has exactly its own tunnel on record; so the recorded identity is
      empty exactly when it owns none, whatever else fails between delete and create. */
  lemma IdentityEmptyIffNoTunnel(s: State, run: seq<Event>)
    requires Init(s) && ExactRun(s, run) && Run(s, run).obj.Some?
    ensures var s' := Run(s, run);
            && (forall id :: Mine(s'.world, id) <==> id != NO_UUID && id == s'.obj.value.id)
            && (s'.obj.value.id == NO_UUID <==> forall id :: !Mine(s'.world, id))
  {
    ExactRunInv(s, run);
    var s' := Run(s, run);
    var t := s'.obj.value;
    forall id ensures Mine(s'.world, id) <==> id != NO_UUID && id == t.id {
      assert Mine(s'.world, id) ==> NO_UUID < id;
    }
    assert t.id != NO_UUID ==> Mine(s'.world, t.id);
  }

  /** Writes that persist are not enough. The tunnel is made, the token is bumped, and the replacing pass
      loses the reply of its delete call: an identity stays on record although there is no tunnel. */
  lemma LostDeleteReplyLeavesIdentity(s: State, token: string)
    requires Init(s) && s.obj.value.finalizer && s.obj.value.spec.ipsec.None? && s.obj.value.spec.rotationToken != token
    requires s.world.parent == Some(s.home) && s.home in s.world.connections
    ensures var t := s.obj.value;
            var s1 := Next(s, Reconcile(NO_FAULTS, Done));
            var s2 := Next(s1, Edit(t.policy, t.spec.(rotationToken := token)));
            var s3 := Next(s2, Reconcile(Env(map[DeleteCall := LostReply(500)]), Done));
            s3.obj.Some? && s3.obj.value.id != NO_UUID && forall id :: !Mine(s3.world, id)
  {
    var t, w, e := s.obj.value, s.world, Env(map[DeleteCall := LostReply(500)]);
    var id := w.last + 1;
    var s1 := Next(s, Reconcile(NO_FAULTS, Done));
    LivePassPersists(Ops, TIMERS, t, w, NO_FAULTS, Done);
    SeenAccounts(t, w, NO_FAULTS, s.home);
    CreateMakesOneOrNone(Observe(t, w, NO_FAULTS).obj, w, NO_FAULTS, s.home);
    CreatesIff(t, w, NO_FAULTS, Done);
    NextInv(s, Reconcile(NO_FAULTS, Done));
    var s2 := Next(s1, Edit(t.policy, t.spec.(rotationToken := token)));
    NextInv(s1, Edit(t.policy, t.spec.(rotationToken := token)));
    assert s2.obj.value.id == id && Mine(s2.world, id) && s2.world.parent == Some(s.home);
    LivePassPersists(Ops, TIMERS, s2.obj.value, s2.world, e, Done);
    var v := Observe(s2.obj.value, s2.world, e);
    assert v.result.Ok? && v.result.value.present && !v.result.value.upToDate;
    ReplacedExact(v.obj, s2.world, e, s.home);
    assert Update(v.obj, s2.world, e).obj == v.obj;
    var s3 := Next(s2, Reconcile(e, Done));
    assert s3.obj.value.id == id && id !in s3.world.tunnels;
    NextInv(s2, Reconcile(e, Done));
  }

  /** The event in s made this tunnel, with the token of the spec and the PSK of its Secret; a spec without
      IPSec block has no Secret, and the PSK sent is empty. */
  predicate MadeIn(s: State, ev: Event, id: Uuid, tunnel: Tunnel, token: string) {
    && !Mine(s.world, id) && Mine(Next(s, ev).world, id)
    && s.obj.Some? && s.obj.value.spec.rotationToken == token && HoldsPsk(tunnel, s.obj.value.spec, s.world.secrets)
  }

  ghost predicate SameTunnel(w: GwWorld, w': GwWorld, id: Uuid) {
    Mine(w, id) && Mine(w', id) && w'.tunnels[id] == w.tunnels[id] && w'.origins[id] == w.origins[id]
  }

  lemma LiveCallsRead(t: TunnelCR, w: GwWorld, e: Env, home: (Uuid, Uuid), id: Uuid)
    requires WorldOK(w, home) && Accounts(t, w, home)
    requires var w' := AfterCalls(Ops, t, w, e).1; Mine(w', id) && !SameTunnel(w, w', id)
    ensures var w' := AfterCalls(Ops, t, w, e).1;
            !Mine(w, id) && w'.origins[id].token == t.spec.rotationToken && HoldsPsk(w'.tunnels[id], t.spec, w.secrets)
  {
    var v := Observe(t, w, e);
    SeenAccounts(t, w, e, home);
    if v.result.Ok? && !v.result.value.present {
      CreateMakesOneOrNone(v.obj, w, e, home);
    } else if v.result.Ok? && !v.result.value.upToDate {
      var w1 := DeleteTunnel(w, v.obj.status.gateway, v.obj.status.connection, v.obj.id, e.At(DeleteCall)).0;
      CreateMakesOneOrNone(v.obj.(id := NO_UUID), w1, e, home);
    }
  }

  /** A tunnel that is the resource's after an event already was, or was made in it. */
  lemma NewTunnelRead(s: State, ev: Event, id: Uuid)
    requires Inv(s) && Mine(Next(s, ev).world, id)
    ensures var w' := Next(s, ev).world;
            SameTunnel(s.world, w', id) || MadeIn(s, ev, id, w'.tunnels[id], w'.origins[id].token)
  {
    var w' := Next(s, ev).world;
    if ev.Reconcile? && s.obj.Some? && !SameTunnel(s.world, w', id) {
      var t := s.obj.value;
      if t.deleting && t.finalizer {
        DeletePassShape(Ops, TIMERS, t, s.world, ev.env, ev.write);
      } else if t.finalizer {
        LivePassPersists(Ops, TIMERS, t, s.world, ev.env, ev.write);
        LiveCallsRead(t, s.world, ev.env, s.home, id);
      }
    }
  }

  /** Every tunnel the resource has at the end of a run it had at the start, or made in some step. */
  lemma {:induction false} MadeInSomeStep(s: State, run: seq<Event>, id: Uuid)
    requires Inv(s) && TrackedRun(s, run) && Mine(Run(s, run).world, id)
    ensures var w' := Run(s, run).world;
            SameTunnel(s.world, w', id)
            || exists i :: 0 <= i < |run| && MadeIn(Run(s, run[..i]), run[i], id, w'.tunnels[id], w'.origins[id].token)
    decreases |run|
  {
    if run != [] {
      var s1, rest, w' := Next(s, run[0]), run[1..], Run(s, run).world;
      NextInv(s, run[0]);
      MadeInSomeStep(s1, rest, id);
      if SameTunnel(s1.world, w', id) {
        NewTunnelRead(s, run[0], id);
        assert Run(s, run[..0]) == s;
      } else {
        var i :| 0 <= i < |rest| && MadeIn(Run(s1, rest[..i]), rest[i], id, w'.tunnels[id], w'.origins[id].token);
        assert run[i + 1] == rest[i];
        assert run[..i + 1][1..] == rest[..i];
        assert Run(s, run[..i + 1]) == Run(s1, rest[..i]);
      }
    }
  }

  /** Whenever the resource is observed up to date, its tunnel was made in a step of the run in which the
      spec's rotation token had the value it has now, with the PSK the spec's Secret then held. */
  lemma UpToDateMeansCurrentToken(s: State, run: seq<Event>, e: Env)
    requires Init(s) && TrackedRun(s, run)
    requires var s' := Run(s, run);
             s'.obj.Some? && var v := Observe(s'.obj.value, s'.world, e).result;
               v.Ok? && v.value.present && v.value.upToDate
    ensures var s' := Run(s, run);
            var t := s'.obj.value;
            && t.id in s'.world.tunnels
            && exists i ::
                 0 <= i < |run| && MadeIn(Run(s, run[..i]), run[i], t.id, s'.world.tunnels[t.id], t.spec.rotationToken)
  {
    RunInv(s, run);
    MadeInSomeStep(s, run, Run(s, run).obj.value.id);
  }

  /** One lost status write after a create is enough for a second tunnel: tunnels carry no labels to
      adopt by. An example without faults in the calls. */
  lemma LostWriteDuplicates(s: State)
    requires Inv(s) && s.obj.Some? && s.world.parent.Some? && s.home in s.world.connections
    requires var t := s.obj.value; !t.deleting && t.finalizer && t.id == NO_UUID && t.spec.ipsec.None?
    ensures var s' := Next(Next(s, Reconcile(NO_FAULTS, Rejected)), Reconcile(NO_FAULTS, Done));
            Mine(s'.world, s.world.last + 1) && Mine(s'.world, s.world.last + 2)
  {
    var s1 := Next(s, Reconcile(NO_FAULTS, Rejected));
    assert s1.obj == s.obj && s1.world.last == s.world.last + 1 && s1.world.parent == s.world.parent;
  }

  /** The documentation says any spec change replaces the tunnel. Adding an IPSec block that states no
      parameters does not: the tunnel is still reported up to date and no PSK is ever sent. */
  lemma AddedIPSecNotApplied(t: TunnelCR, w: GwWorld, authentication: string, psk: SecretKey)
    requires w.parent.Some? && w.parent.value.0 != NO_UUID && w.parent.value.1 != NO_UUID && t.id != NO_UUID
    requires Has(w, w.parent.value.0, w.parent.value.1, t.id) && t.spec.ipsec.None?
    requires w.tunnels[t.id].params == NO_PARAMS && w.tunnels[t.id].psk == ""
    requires Observe(t, w, NO_FAULTS).result.Ok? && Observe(t, w, NO_FAULTS).result.value.upToDate
    ensures var edited := t.(spec := t.spec.(ipsec := Some(IPSecSpec(authentication, psk, NO_PARAMS))));
            Observe(edited, w, NO_FAULTS).result.Ok? && Observe(edited, w, NO_FAULTS).result.value.upToDate
  {
  }

  /** Which spec edits replace an up-to-date tunnel: exactly a changed address, a changed token, or an
      IPSec block whose parameters differ from the tunnel's. Dropping the block, or pointing it at
      another Secret, replaces nothing; nor would a new name or kind of authentication, which the
      Kubernetes API server rejects as edits. */
  lemma EditReplacesIff(t: TunnelCR, w: GwWorld, spec: TunnelSpec)
    requires w.parent.Some? && w.parent.value.0 != NO_UUID && w.parent.value.1 != NO_UUID && t.id != NO_UUID
    requires Has(w, w.parent.value.0, w.parent.value.1, t.id)
    requires Observe(t, w, NO_FAULTS).result.Ok? && Observe(t, w, NO_FAULTS).result.value.upToDate
    ensures var v := Observe(t.(spec := spec), w, NO_FAULTS).result;
            v.Ok? && (!v.value.upToDate <==>
                        || spec.remoteAddress != t.spec.remoteAddress || spec.localAddress != t.spec.localAddress
                        || spec.rotationToken != t.spec.rotationToken
                        || (spec.ipsec.Some? && spec.ipsec.value.params != w.tunnels[t.id].params))
  {
  }

  // ---- What is made and what is compared

  /** The tunnel a successful create leaves under the recorded identity, field by field. */
  lemma CreatedTunnelIs(t: TunnelCR, w: GwWorld, e: Env)
    requires Create(t, w, e).result.Ok?
    ensures var c := Create(t, w, e);
            && c.obj.id == w.last + 1 && c.obj.id in c.world.tunnels && w.parent.Some?
            && var made := c.world.tunnels[c.obj.id];
               && (made.gateway, made.connection) == w.parent.value
               && made.name == (if t.spec.name != "" then t.spec.name else t.name)
               && made.localAddress == t.spec.localAddress && made.remoteAddress == t.spec.remoteAddress
               && (t.spec.ipsec.Some? ==>
                     var i := t.spec.ipsec.value;
                     && made.params == i.params && made.authentication == i.authentication
                     && i.psk in w.secrets && made.psk == w.secrets[i.psk])
               && (t.spec.ipsec.None? ==> made.params == NO_PARAMS && made.psk == "" && made.authentication == "")
    ensures var c := Create(t, w, e);
            forall id :: id in w.tunnels && id != c.obj.id ==>
                id in c.world.tunnels && c.world.tunnels[id] == w.tunnels[id]
  {
  }

  /** What was just made is observed up to date and ready. */
  lemma CreatedIsUpToDate(t: TunnelCR, w: GwWorld, e: Env)
    requires Create(t, w, e).result.Ok?
    ensures var c := Create(t, w, e); Observe(c.obj, c.world, NO_FAULTS).result == Ok(Observation(true, true, true))
  {
    CreatedTunnelIs(t, w, e);
  }

  lemma UpdatedIsUpToDate(t: TunnelCR, w: GwWorld, e: Env)
    requires Update(t, w, e).result.Ok?
    ensures var u := Update(t, w, e); Observe(u.obj, u.world, NO_FAULTS).result == Ok(Observation(true, true, true))
  {
    if t.id == NO_UUID {
      CreatedIsUpToDate(t, w, e);
    } else {
      var w1 := DeleteTunnel(w, t.status.gateway, t.status.connection, t.id, e.At(DeleteCall)).0;
      CreatedIsUpToDate(t.(id := NO_UUID), w1, e);
    }
  }

  /** The verdict on a tunnel that is there, field by field, and what the status records of it. */
  lemma ObservedTunnelIff(t: TunnelCR, w: GwWorld, e: Env)
    requires w.parent.Some? && w.parent.value.0 != NO_UUID && w.parent.value.1 != NO_UUID
    requires e.At(ObserveResolve).Works? && e.At(ObserveGet).Works? && t.id != NO_UUID
    requires Has(w, w.parent.value.0, w.parent.value.1, t.id)
    ensures var v, tunnel := Observe(t, w, e), w.tunnels[t.id];
            && v.result.Ok? && v.result.value.present && v.world == w
            && (v.result.value.ready <==> tunnel.operationalState == "established")
            && (v.result.value.upToDate <==>
                  && tunnel.localAddress == t.spec.localAddress && tunnel.remoteAddress == t.spec.remoteAddress
                  && (t.spec.ipsec.Some? ==> tunnel.params == t.spec.ipsec.value.params)
                  && t.status.rotationToken == t.spec.rotationToken)
            && (v.obj.status.gateway, v.obj.status.connection) == w.parent.value
            && v.obj.status.operationalState == tunnel.operationalState && v.obj.id == t.id
  {
  }

  /** The parent connection must be Ready, and every call that needs it says so. */
  lemma ParentGate(t: TunnelCR, w: GwWorld, e: Env)
    requires w.parent.None? && e.At(ObserveResolve).Works? && e.At(CreateResolve).Works?
    ensures Observe(t, w, e) == Outcome(t, w, Err(DependencyNotReady))
    ensures Create(t, w, e) == Outcome(t, w, Err(DependencyNotReady))
  {
  }

  /** Whatever cannot be read or done is reported as it is: a Secret or key that is missing is waited for, and a
      delete that fails keeps the update from creating. */
  lemma FailedCalls(t: TunnelCR, w: GwWorld, e: Env)
    requires w.parent.Some? && w.parent.value.0 != NO_UUID && w.parent.value.1 != NO_UUID
    requires e.At(ObserveResolve).Works? && e.At(CreateResolve).Works?
    ensures t.id != NO_UUID && !e.At(ObserveGet).Works? ==> Observe(t, w, e).result == Err(Api(e.At(ObserveGet).status))
    ensures t.id == NO_UUID ==> Observe(t, w, e).result == Ok(Observation(false, false, false))
    ensures t.spec.ipsec.Some? && e.At(SecretRead).Works? && t.spec.ipsec.value.psk !in w.secrets ==>
              Create(t, w, e) == Outcome(t, w, Err(DependencyNotReady))
    ensures t.spec.ipsec.Some? && !e.At(SecretRead).Works? ==> Create(t, w, e) == Outcome(t, w, Err(Other))
    ensures t.id != NO_UUID && e.At(DeleteCall).Refused?
        ==> Update(t, w, e) == Outcome(t, w, Err(Api(e.At(DeleteCall).status)))
    ensures t.spec.ipsec.None? && !e.At(CreateCall).Works? ==>
              Create(t, w, e).result == Err(Api(e.At(CreateCall).status)) && Create(t, w, e).obj == t
  {
  }
}
