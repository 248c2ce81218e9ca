/** ObjectStorageAccessKey (internal/controller/objectstorage/objectstorageaccesskey_adapter.go): a key
    whose secret is shown once, and an undo when it cannot be stored. */
module AccessKey {
  import opened Support
  import opened Reconciler
  import opened PassShape

  /** `secret` is known to the cloud and returned by the create call only. */
  datatype Key = Key(secret: string, active: bool)

  /** The owned Secret. */
  datatype SecretData = SecretData(keyId: Uuid, secret: string, endpoint: string, region: string)

  datatype Endpoint = Endpoint(kind: string, domain: string)

  datatype Service = Service(region: string, endpoints: seq<Endpoint>)

  const PUBLIC := "public"

  datatype KeySpec = KeySpec(active: bool)

  /** Whether service and username are on record. */
  datatype KeyStatus = KeyStatus(parentKnown: bool)

  type KeyCR = CR<KeySpec, KeyStatus>

  /** The user's keys, the key counter, the owned Secret if it exists, whether the parent user
      resource is Ready, and the service the user belongs to. */
  datatype KeyWorld = KeyWorld(keys: map<Uuid, Key>, last: nat, owned: Option<SecretData>, parentReady: bool,
                               service: Service)

  datatype Site = GetCall | CreateCall | ServiceRead | SecretWrite | Compensate | ModifyCall | DeleteCall

  /** `generated` is the secret the cloud generates if a key is created in this pass. */
  datatype Env = Env(faults: map<Site, Fault>, generated: string)
  {
    function At(s: Site): Fault { if s in faults then faults[s] else Works }
  }

  function Parent(k: KeyCR, w: KeyWorld): Result<KeyCR> {
    if k.status.parentKnown then Ok(k)
    else if !w.parentReady then Err(DependencyNotReady)
    else Ok(k.(status := KeyStatus(true)))
  }

  function Observe(k: KeyCR, w: KeyWorld, e: Env): Outcome<KeySpec, KeyStatus, KeyWorld, Observation> {
    if k.id == NO_UUID then Outcome(k, w, Ok(ABSENT)) else
    var p := Parent(k, w);
    if p.Err? then Outcome(k, w, Err(p.error)) else
    if !e.At(GetCall).Works? then Outcome(p.value, w, Err(Api(e.At(GetCall).status))) else
    if k.id !in w.keys then Outcome(p.value, w, Ok(ABSENT)) else
    Outcome(p.value, w, Ok(Observation(true, w.keys[k.id].active == k.spec.active, true)))
  }

  function NewKey(w: KeyWorld, secret: string, f: Fault): (KeyWorld, Result<Uuid>) {
    var id := w.last + 1;
    (if TakesEffect(f) then w.(keys := w.keys[id := Key(secret, true)], last := id) else w, Answer(f, Ok(id)))
  }

  function RemoveKey(w: KeyWorld, id: Uuid, f: Fault): (KeyWorld, Result<()>) {
    if id !in w.keys then (w, Answer(f, Err(Api(NOT_FOUND))))
    else (if TakesEffect(f) then w.(keys := w.keys - {id}) else w, Answer(f, Ok(())))
  }

  function WriteSecret(w: KeyWorld, data: SecretData, f: Fault): (KeyWorld, bool) {
    (if TakesEffect(f) then w.(owned := Some(data)) else w, f.Works?)
  }

  /** The first public endpoint, empty if there is none. */
  function PublicEndpoint(endpoints: seq<Endpoint>): string {
    if endpoints == [] then ""
    else if endpoints[0].kind == PUBLIC then "https://" + endpoints[0].domain
    else PublicEndpoint(endpoints[1..])
  }

  function SecretFor(service: Service, id: Uuid, secret: string): SecretData {
    SecretData(id, secret, PublicEndpoint(service.endpoints), service.region)
  }

  /** Create the key, read the service, write the Secret. If a later step fails the key is deleted
      again, and the outcome of that delete is ignored. */
  function Create(k: KeyCR, w: KeyWorld, e: Env): Outcome<KeySpec, KeyStatus, KeyWorld, ()> {
    var p := Parent(k, w);
    if p.Err? then Outcome(k, w, Err(p.error)) else
    var (w1, id) := NewKey(w, e.generated, e.At(CreateCall));
    if id.Err? then Outcome(p.value, w1, Err(id.error)) else
    var k1 := p.value.(id := id.value);
    if !e.At(ServiceRead).Works? then
      // The status keeps the identity of the key that was just deleted.
      Outcome(k1, RemoveKey(w1, id.value, e.At(Compensate)).0, Err(Api(e.At(ServiceRead).status)))
    else
      var (w2, written) := WriteSecret(w1, SecretFor(w1.service, id.value, e.generated), e.At(SecretWrite));
      if !written then Outcome(k1.(id := NO_UUID), RemoveKey(w2, id.value, e.At(Compensate)).0, Err(Other))
      else Outcome(k1, w2, Ok(()))
  }

  function Update(k: KeyCR, w: KeyWorld, e: Env): Outcome<KeySpec, KeyStatus, KeyWorld, ()> {
    if k.id == NO_UUID then Outcome(k, w, Err(Pending)) else
    var p := Parent(k, w);
    if p.Err? then Outcome(k, w, Err(p.error)) else
    var f := e.At(ModifyCall);
    if k.id !in w.keys then Outcome(p.value, w, Answer(f, Err(Api(NOT_FOUND))))
    else Outcome(p.value, if TakesEffect(f) then w.(keys := w.keys[k.id := w.keys[k.id].(active := k.spec.active)])
      else w, Answer(f, Ok(())))
  }

  function Delete(k: KeyCR, w: KeyWorld, e: Env): Outcome<KeySpec, KeyStatus, KeyWorld, ()> {
    if k.id == NO_UUID || !k.status.parentKnown then Outcome(k, w, Ok(())) else
    var (w', d) := RemoveKey(w, k.id, e.At(DeleteCall));
    Outcome(k, w', if d.Ok? || IsNotFound(d.error) then Ok(()) else if IsConflict(d.error) then Err(Pending) else d)
  }

  const Ops: Adapter<KeySpec, KeyStatus, KeyWorld, Env> := Adapter(Observe, Create, Update, Delete)

  // ---- The adapter as an object

  class KeyObject {
    var cr: KeyCR

    constructor (cr: KeyCR)
      ensures this.cr == cr
    {
      this.cr := cr;
    }
  }

  class AdapterObject {
    var world: KeyWorld

    constructor (w: KeyWorld)
      ensures world == w
    {
      world := w;
    }

    method DeleteKey(id: Uuid, f: Fault) returns (r: Result<()>)
      modifies this
      ensures (world, r) == RemoveKey(old(world), id, f)
    {
      if f.Refused? {
        return Err(Api(f.status));
      }
      if id !in world.keys {
        return Answer(f, Err(Api(NOT_FOUND)));
      }
      world := world.(keys := world.keys - {id});
      return Answer(f, Ok(()));
    }

    method SecretDataOf(id: Uuid, secret: string) returns (data: SecretData)
      ensures data == SecretFor(world.service, id, secret)
    {
      var endpoints := world.service.endpoints;
      var endpoint := "";
      for i := 0 to |endpoints|
        invariant endpoint == "" && PublicEndpoint(endpoints) == PublicEndpoint(endpoints[i..])
      {
        if endpoints[i].kind == PUBLIC {
          endpoint := "https://" + endpoints[i].domain;
          break;
        }
      }
      data := SecretData(id, secret, endpoint, world.service.region);
    }

    method CreateCall(k: KeyObject, e: Env) returns (r: Result<()>)
      modifies this, k
      ensures Outcome(k.cr, world, r) == Create(old(k.cr), old(world), e)
    {
      var p := ParentOf(k);
      if p.Err? {
        return Err(p.error);
      }
      var (made, id) := NewKey(world, e.generated, e.At(Site.CreateCall));
      world := made;
      if id.Err? {
        return Err(id.error);
      }
      k.cr := k.cr.(id := id.value);
      if !e.At(ServiceRead).Works? {
        var _ := DeleteKey(id.value, e.At(Compensate));
        return Err(Api(e.At(ServiceRead).status));
      }
      var data := SecretDataOf(id.value, e.generated);
      var (stored, written) := WriteSecret(world, data, e.At(SecretWrite));
      world := stored;
      if !written {
        var _ := DeleteKey(id.value, e.At(Compensate));
        k.cr := k.cr.(id := NO_UUID);
        return Err(Other);
      }
      return Ok(());
    }

    /** The parent is resolved once and remembered. */
    method ParentOf(k: KeyObject) returns (r: Result<()>)
      modifies k
      ensures var p := Parent(old(k.cr), world);
              if p.Ok? then r.Ok? && k.cr == p.value else r == Err(p.error) && k.cr == old(k.cr)
    {
      if k.cr.status.parentKnown {
        return Ok(());
      }
      if !world.parentReady {
        return Err(DependencyNotReady);
      }
      k.cr := k.cr.(status := KeyStatus(true));
      return Ok(());
    }

    method ObserveCall(k: KeyObject, e: Env) returns (r: Result<Observation>)
      modifies k
      ensures Outcome(k.cr, world, r) == Observe(old(k.cr), world, e)
    {
      if k.cr.id == NO_UUID {
        return Ok(ABSENT);
      }
      var p := ParentOf(k);
      if p.Err? {
        return Err(p.error);
      }
      if !e.At(GetCall).Works? {
        return Err(Api(e.At(GetCall).status));
      }
      if k.cr.id !in world.keys {
        return Ok(ABSENT);
      }
      return Ok(Observation(true, world.keys[k.cr.id].active == k.cr.spec.active, true));
    }

    method UpdateCall(k: KeyObject, e: Env) returns (r: Result<()>)
      modifies this, k
      ensures Outcome(k.cr, world, r) == Update(old(k.cr), old(world), e)
    {
      if k.cr.id == NO_UUID {
        return Err(Pending);
      }
      var p := ParentOf(k);
      if p.Err? {
        return Err(p.error);
      }
      var f := e.At(ModifyCall);
      if k.cr.id !in world.keys {
        return Answer(f, Err(Api(NOT_FOUND)));
      }
      if !f.Refused? {
        world := world.(keys := world.keys[k.cr.id := world.keys[k.cr.id].(active := k.cr.spec.active)]);
      }
      return Answer(f, Ok(()));
    }

    method DeleteCall(k: KeyObject, e: Env) returns (r: Result<()>)
      modifies this
      ensures Outcome(k.cr, world, r) == Delete(old(k.cr), old(world), e)
    {
      if k.cr.id == NO_UUID || !k.cr.status.parentKnown {
        return Ok(());
      }
      var d := DeleteKey(k.cr.id, e.At(Site.DeleteCall));
      if d.Ok? || IsNotFound(d.error) {
        return Ok(());
      }
      return if IsConflict(d.error) then Err(Pending) else d;
    }
  }

  // ---- All or nothing

  ghost predicate WellCounted(w: KeyWorld) { forall id :: id in w.keys ==> NO_UUID < id <= w.last }

  /** A failing create leaves the user's keys as they were exactly when no key was made, or the reply
      came and the compensating delete took effect. */
  lemma FailingCreateIsUndone(k: KeyCR, w: KeyWorld, e: Env)
    requires WellCounted(w) && Create(k, w, e).result.Err?
    ensures Create(k, w, e).world.keys == w.keys <==>
              || Parent(k, w).Err? || e.At(CreateCall).Refused?
              || (e.At(CreateCall).Works? && TakesEffect(e.At(Compensate)))
  {
    var id := w.last + 1;
    var w1 := NewKey(w, e.generated, e.At(CreateCall)).0;
    assert w.keys[id := Key(e.generated, true)] - {id} == w.keys;
    assert id !in w.keys && (TakesEffect(e.At(CreateCall)) ==> id in w1.keys);
  }

  // ---- Runs of one resource

  datatype State = State(obj: Option<KeyCR>, world: KeyWorld)

  const TIMERS := Timers(DEFAULT_REQUEUE, DEFAULT_REQUEUE, DEFAULT_STEADY)

  datatype Event =
    | Reconcile(env: Env, write: Write)
    | Edit(spec: KeySpec)
    | Mark
    | ParentReady(isReady: bool)
    | OthersKey(secret: string)
    | OutOfBandDelete(id: Uuid)
    | ServiceChanges(service: Service)

  function ThePass(s: State, e: Env, write: Write): Pass<KeySpec, KeyStatus, KeyWorld>
    requires s.obj.Some?
  {
    PassOver(Ops, TIMERS, s.obj.value, s.world, e, write)
  }

  function Next(s: State, ev: Event): State {
    match ev
    case Reconcile(e, write) => if s.obj.None? then s else var p := ThePass(s, e, write); State(p.obj, p.world)
    case Edit(spec) => if s.obj.None? then s else s.(obj := Some(s.obj.value.(spec := spec)))
    case Mark =>
      if s.obj.None? then s
      else s.(obj := if s.obj.value.finalizer then Some(s.obj.value.(deleting := true)) else None)
    case ParentReady(isReady) => s.(world := s.world.(parentReady := isReady))
    case OthersKey(secret) => s.(world := NewKey(s.world, secret, Works).0)
    case OutOfBandDelete(id) => s.(world := s.world.(keys := s.world.keys - {id}))
    case ServiceChanges(service) => s.(world := s.world.(service := service))
  }

  function Run(s: State, run: seq<Event>): State
    decreases |run|
  {
    if run == [] then s else Run(Next(s, run[0]), run[1..])
  }

  /** If the recorded identity names a live key, the owned Secret holds exactly that key. */
  predicate Agrees(k: KeyCR, w: KeyWorld) {
    k.id in w.keys ==> w.owned.Some? && w.owned.value.keyId == k.id && w.owned.value.secret == w.keys[k.id].secret
  }

  ghost predicate Counted(w: KeyWorld) {
    WellCounted(w) && (w.owned.Some? ==> w.owned.value.keyId <= w.last)
  }

  ghost predicate Inv(s: State) {
    Counted(s.world) && (s.obj.Some? ==>
      s.obj.value.id <= s.world.last && (s.obj.value.id != NO_UUID ==> s.obj.value.finalizer))
  }

  ghost predicate Agreement(s: State) { s.obj.Some? ==> Agrees(s.obj.value, s.world) }

  /** The one harmful event: a created key is recorded although the service could not be read and the
      compensating delete did not take effect. */
  predicate KeepsUnwrittenKey(s: State, ev: Event) {
    && ev.Reconcile? && s.obj.Some?
    && var k, e := s.obj.value, ev.env;
       && !k.deleting && k.finalizer && Observe(k, s.world, e).result == Ok(ABSENT) && Parent(k, s.world).Ok?
       && e.At(CreateCall).Works? && !e.At(ServiceRead).Works? && e.At(Compensate).Refused? && !ev.write.Rejected?
  }

  /** A create changes at most the next key and the Secret, and writes only that key there. */
  lemma CreateAddsOne(k: KeyCR, w: KeyWorld, e: Env)
    ensures var c, id := Create(k, w, e), w.last + 1;
            && c.obj.id in {k.id, id, NO_UUID} && c.world.last in {w.last, id}
            && (c.world.last == w.last ==> c.world == w && c.obj.id == k.id)
            && (forall i :: i in c.world.keys ==> i in w.keys || i == c.world.last)
            && (c.world.owned == w.owned || c.world.owned == Some(SecretFor(w.service, id, e.generated)))
  {
    var p := Parent(k, w);
    if p.Ok? {
      var (w1, id) := NewKey(w, e.generated, e.At(CreateCall));
      if id.Ok? && e.At(ServiceRead).Works? {
        var (w2, written) := WriteSecret(w1, SecretFor(w1.service, id.value, e.generated), e.At(SecretWrite));
        assert w2.keys == w1.keys;
      }
    }
  }

  /** The keys and the counter after a create. */
  lemma CreateCounts(k: KeyCR, w: KeyWorld, e: Env)
    requires Counted(w) && k.id <= w.last && k.id !in w.keys
    ensures var c := Create(k, w, e);
            && Counted(c.world) && c.obj.id <= c.world.last && w.last <= c.world.last
            && k.id !in c.world.keys && NO_UUID !in c.world.keys
  {
    CreateAddsOne(k, w, e);
  }

  /** A create leaves the Secret agreeing with the identity it leaves - unless it is the harmful one. */
  lemma CreateAgrees(k: KeyCR, w: KeyWorld, e: Env)
    requires Counted(w) && k.id <= w.last && k.id !in w.keys
    ensures var c := Create(k, w, e);
            Agrees(c.obj, c.world) <==>
              !(Parent(k, w).Ok? && e.At(CreateCall).Works? && !e.At(ServiceRead).Works? && e.At(Compensate).Refused?)
  {
    var c, id := Create(k, w, e), w.last + 1;
    CreateCounts(k, w, e);
    if Parent(k, w).Ok? && e.At(CreateCall).Works? {
      if !e.At(ServiceRead).Works? {
        assert c.obj.id == id && (id in c.world.keys <==> e.At(Compensate).Refused?) && c.world.owned == w.owned;
      } else if e.At(SecretWrite).Works? {
        assert c.obj.id == id && c.world.keys[id].secret == e.generated;
      }
    }
  }

  lemma OtherCallsAgree(k: KeyCR, w: KeyWorld, e: Env)
    requires Counted(w) && k.id <= w.last && Agrees(k, w)
    ensures var v := Observe(k, w, e);
        v.world == w && v.obj.id == k.id && (v.result.Ok? && !v.result.value.present ==>
          v.result == Ok(ABSENT) && k.id !in w.keys)
    ensures var u := Update(k, w, e);
        Counted(u.world) && u.world.last == w.last && u.obj.id == k.id && Agrees(u.obj, u.world) && Agrees(k, u.world)
    ensures var d := Delete(k, w, e); Counted(d.world) && d.world.last == w.last && d.obj == k && Agrees(k, d.world)
  {
  }

  lemma PassAgrees(s: State, e: Env, write: Write)
    requires Inv(s) && Agreement(s) && s.obj.Some?
    ensures var s' := Next(s, Reconcile(e, write));
            Inv(s') && (Agreement(s') <==> !KeepsUnwrittenKey(s, Reconcile(e, write)))
  {
    var k, w := s.obj.value, s.world;
    if k.deleting && k.finalizer {
      DeletePassShape(Ops, TIMERS, k, w, e, write);
      OtherCallsAgree(k, w, e);
    } else if k.finalizer {
      LivePassPersists(Ops, TIMERS, k, w, e, write);
      OtherCallsAgree(k, w, e);
      var v := Observe(k, w, e);
      if v.result.Ok? && !v.result.value.present {
        CreateCounts(v.obj, w, e);
        CreateAgrees(v.obj, w, e);
        assert Parent(v.obj, w).Ok? <==> Parent(k, w).Ok?;
      } else if v.result.Ok? {
        OtherCallsAgree(v.obj, w, e);
      }
    }
  }

  /** Each event keeps the agreement exactly when it is not the harmful one. */
  lemma NextAgrees(s: State, ev: Event)
    requires Inv(s) && Agreement(s)
    ensures Inv(Next(s, ev)) && (Agreement(Next(s, ev)) <==> !KeepsUnwrittenKey(s, ev))
  {
    if ev.Reconcile? && s.obj.Some? {
      PassAgrees(s, ev.env, ev.write);
    }
  }

  ghost predicate UndoneRun(s: State, run: seq<Event>)
    decreases |run|
  {
    run == [] || (!KeepsUnwrittenKey(s, run[0]) && UndoneRun(Next(s, run[0]), run[1..]))
  }

  /** In every run without that event - failing calls, lost replies, lost status writes, failing
      compensations after a failed Secret write, keys deleted behind the operator's back - an identity
      on record that names a live key names the key whose secret the owned Secret holds. */
  lemma {:induction false} SecretAgreesWithKey(s: State, run: seq<Event>)
    requires Inv(s) && Agreement(s) && UndoneRun(s, run)
    ensures Inv(Run(s, run)) && Agreement(Run(s, run))
    decreases |run|
  {
    if run != [] {
      NextAgrees(s, run[0]);
      SecretAgreesWithKey(Next(s, run[0]), run[1..]);
    }
  }

  const CALM := Env(map[], "")

  ghost predicate Wedged(s: State) {
    && s.obj.Some? && !s.obj.value.deleting && s.obj.value.finalizer && s.obj.value.status.parentKnown
    && s.obj.value.id != NO_UUID && s.obj.value.id in s.world.keys && !Agrees(s.obj.value, s.world)
  }

  function Calmly(s: State, n: nat): State
    decreases n
  {
    if n == 0 then s else Calmly(Next(s, Reconcile(CALM, Done)), n - 1)
  }

  /** After the harmful event nothing heals: from the second pass on the resource is Ready, and for
      good, while the Secret does not hold its key. */
  lemma {:induction false} UnwrittenKeyStays(s: State, n: nat)
    requires Wedged(s)
    ensures Wedged(Calmly(s, n)) && (n >= 2 ==> Calmly(s, n).obj.value.IsReady())
    decreases n
  {
    if n > 0 {
      var s1 := Next(s, Reconcile(CALM, Done));
      assert Wedged(s1) && s1.world.keys[s1.obj.value.id].active == s1.obj.value.spec.active
          && s1.obj.value.spec == s.obj.value.spec;
      UnwrittenKeyStays(s1, n - 1);
      if n >= 2 { InSyncIsReady(s1, n - 1); }
    }
  }

  lemma {:induction false} InSyncIsReady(s: State, n: nat)
    requires Wedged(s) && n > 0 && s.world.keys[s.obj.value.id].active == s.obj.value.spec.active
    ensures Calmly(s, n).obj.Some? && Calmly(s, n).obj.value.IsReady()
    decreases n
  {
    var s1 := Next(s, Reconcile(CALM, Done));
    assert Wedged(s1) && s1.obj.value.IsReady() && s1.world == s.world && s1.obj.value.spec == s.obj.value.spec
        && s1.obj.value.id == s.obj.value.id;
    if n > 1 {
      InSyncIsReady(s1, n - 1);
    } else {
      assert Calmly(s1, 0) == s1;
    }
  }

  /** The harmful event does lead there. */
  lemma HarmWedges(s: State, ev: Event)
    requires Inv(s) && Agreement(s) && KeepsUnwrittenKey(s, ev)
    ensures Wedged(Next(s, ev))
  {
    NextAgrees(s, ev);
    LivePassPersists(Ops, TIMERS, s.obj.value, s.world, ev.env, ev.write);
  }

  // ---- What the calls mean

  /** A released resource's key is gone, unless it was orphaned or its parent was never on record. */
  lemma ReleasedKeyGoneIff(s: State, ev: Event)
    requires Inv(s) && s.obj.Some? && s.obj.value.deleting && s.obj.value.finalizer
    requires ev.Reconcile?
    ensures Next(s, ev).obj.None? ==>
              var k := s.obj.value;
              k.id in Next(s, ev).world.keys <==>
                k.id in s.world.keys && (k.policy == OrphanPolicy || !k.status.parentKnown)
    ensures forall id :: id != s.obj.value.id ==>
              (id in Next(s, ev).world.keys <==> id in s.world.keys)
  {
    DeletePassShape(Ops, TIMERS, s.obj.value, s.world, ev.env, ev.write);
  }

  /** Without faults a deleted resource with a known parent is released, and its key is gone. */
  lemma DeletedKeyGoes(k: KeyCR, w: KeyWorld)
    requires k.id != NO_UUID && k.status.parentKnown
    ensures Delete(k, w, CALM).result.Ok? && k.id !in Delete(k, w, CALM).world.keys
  {
  }

  /** Endpoint i is the first public one. */
  predicate FirstPublic(endpoints: seq<Endpoint>, i: nat) {
    i < |endpoints| && endpoints[i].kind == "public" && forall j :: 0 <= j < i ==> endpoints[j].kind != "public"
  }

  lemma {:induction false} PublicEndpointIs(endpoints: seq<Endpoint>, i: nat)
    requires FirstPublic(endpoints, i) || (i == |endpoints| && forall j :: 0 <= j < i ==> endpoints[j].kind != "public")
    ensures PublicEndpoint(endpoints) == if i < |endpoints| then "https://" + endpoints[i].domain else ""
  {
    if i > 0 {
      assert endpoints[0].kind != "public";
      assert forall j :: 0 <= j < i - 1 ==> endpoints[1..][j] == endpoints[j + 1];
      PublicEndpointIs(endpoints[1..], i - 1);
    }
  }

  /** What a successful create leaves: one active key, recorded, and a Secret holding all of its data. */
  lemma CreatedKeyIs(k: KeyCR, w: KeyWorld, e: Env)
    requires Create(k, w, e).result.Ok?
    ensures var c, id := Create(k, w, e), w.last + 1;
            && c.obj.id == id && c.world.keys == w.keys[id := Key(e.generated, true)]
            && c.world.owned.Some?
            && var data := c.world.owned.value;
               && data.keyId == id && data.secret == e.generated && data.region == w.service.region
               && forall i: nat ::
                    FirstPublic(w.service.endpoints, i) ==> data.endpoint == "https://" + w.service.endpoints[i].domain
  {
    forall i: nat | FirstPublic(w.service.endpoints, i)
      ensures PublicEndpoint(w.service.endpoints) == "https://" + w.service.endpoints[i].domain
    {
      PublicEndpointIs(w.service.endpoints, i);
    }
  }

  /** The verdict on a key, without faults. */
  lemma ObservedKeyIff(k: KeyCR, w: KeyWorld)
    requires k.status.parentKnown || w.parentReady
    ensures var r := Observe(k, w, CALM).result;
            && r.Ok? && (r.value.present <==> k.id != NO_UUID && k.id in w.keys)
            && (r.value.present ==> r.value.ready && (r.value.upToDate <==> w.keys[k.id].active == k.spec.active))
  {
  }

  /** An update that returns nil has set the key's activity, and changed neither its secret nor any other. */
  lemma UpdatedKeyIs(k: KeyCR, w: KeyWorld, e: Env)
    requires Update(k, w, e).result.Ok?
    ensures k.id in w.keys && Update(k, w, e).world == w.(keys := w.keys[k.id := Key(w.keys[k.id].secret,
        k.spec.active)])
  {
  }

  /** Until the parent is known it must be Ready. */
  lemma ParentGate(k: KeyCR, w: KeyWorld, e: Env)
    requires !k.status.parentKnown && !w.parentReady
    ensures Create(k, w, e) == Outcome(k, w, Err(DependencyNotReady))
    ensures k.id != NO_UUID ==> Observe(k, w, e) == Outcome(k, w, Err(DependencyNotReady))
    ensures k.id != NO_UUID ==> Update(k, w, e) == Outcome(k, w, Err(DependencyNotReady))
  {
  }

  /** Whatever cannot be read or done is reported as it is. */
  lemma FailedCalls(k: KeyCR, w: KeyWorld, e: Env)
    requires k.status.parentKnown
    ensures k.id != NO_UUID && !e.At(GetCall).Works?
        ==> Observe(k, w, e) == Outcome(k, w, Err(Api(e.At(GetCall).status)))
    ensures !e.At(CreateCall).Works? ==>
        Create(k, w, e).result == Err(Api(e.At(CreateCall).status)) && Create(k, w, e).obj == k
    ensures k.id == NO_UUID ==> Update(k, w, e) == Outcome(k, w, Err(Pending))
    ensures k.id in w.keys && k.id != NO_UUID && !e.At(ModifyCall).Works? ==>
              Update(k, w, e).result == Err(Api(e.At(ModifyCall).status))
    ensures k.id != NO_UUID && !e.At(DeleteCall).Works? ==>
              Delete(k, w, e).result == Err(if e.At(DeleteCall).status == 409 then Pending
                else Api(e.At(DeleteCall).status))
  {
  }
}
