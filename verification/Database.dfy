/** ManagedDatabase (internal/controller/database/manageddatabase_adapter.go) against the database
    API's rules (internal/upcloudapi/fake/database.go). */
module Database {
  import opened Support
  import opened Sorting
  import opened Labels
  import opened KeyMatch

  datatype ServiceState = Running | Stopped | Failed | DeleteService | Rebuilding

  datatype Window = Window(dayOfWeek: string, time: string)

  const NO_WINDOW := Window("", "")

  /** A JSON value, compared by its canonical text. */
  datatype Json = Json(text: string)

  datatype Service = Service(plan: string, title: string, disk: int, protected: bool, maintenance: Window,
                             labels: seq<Label>,
                             networks: seq<Attachment>, properties: map<string, Json>, powered: bool,
                               state: ServiceState)

  /** spec.properties: absent, not a JSON object, or an object. */
  datatype Properties = Absent | Malformed | Object(values: map<string, Json>)

  /** The mutable part of the spec, the title already defaulted; `networks` is what resolving the
      attachments yields in this pass. */
  datatype DbSpec = DbSpec(uid: string, plan: string, title: string, disk: int, protected: bool,
                           maintenance: Option<Window>,
                           labels: map<string, string>, properties: Properties, powered: Option<bool>)

  function DesiredPowered(d: DbSpec): bool { if d.powered.None? then true else d.powered.value }

  predicate UpdateOK(s: ServiceState) { s in {Running, Stopped, Failed} }

  predicate DeleteOK(s: ServiceState) { UpdateOK(s) || s == DeleteService }

  /** Every property the spec names has the spec's value; what the spec does not name, or cannot be
      parsed, does not count. */
  predicate PropertiesUpToDate(observed: map<string, Json>, p: Properties) {
    p.Object? ==> forall k :: k in p.values ==> k in observed && observed[k] == p.values[k]
  }

  ghost predicate SpecMatches(db: Service, d: DbSpec, networks: seq<Attachment>) {
    && db.plan == d.plan && db.title == d.title && db.disk == d.disk && db.protected == d.protected
    && (d.maintenance.Some? ==> db.maintenance == d.maintenance.value)
    && multiset(db.labels) == multiset(Desired(d.uid, d.labels))
    && KeysCovered(db.networks, networks, FullKey)
    && PropertiesUpToDate(db.properties, d.properties)
  }

  ghost predicate UpToDate(db: Service, d: DbSpec, networks: seq<Attachment>) {
    SpecMatches(db, d, networks) && db.powered == DesiredPowered(d)
  }

  // ---- The API's rules

  datatype Call = Start | Shutdown | Modify

  function SetPower(db: Service, on: bool): Service { db.(powered := on, state := if on then Running else Stopped) }

  function Merge(db: map<string, Json>, values: map<string, Json>): map<string, Json> { db + values }

  /** A modify request; an absent field, an empty string, an empty window and no properties say nothing. */
  datatype ModifyRequest = ModifyRequest(plan: string, title: string, disk: Option<int>, protected: Option<bool>,
                                         labels: Option<seq<Label>>, networks: Option<seq<Attachment>>,
                                         maintenance: Window, properties: map<string, Json>)

  /** Properties are merged, everything else the request says is replaced. */
  function Applied(db: Service, q: ModifyRequest): Service {
    db.(plan := if q.plan != "" then q.plan else db.plan,
        title := if q.title != "" then q.title else db.title,
        disk := Or(q.disk, db.disk), protected := Or(q.protected, db.protected),
        labels := Or(q.labels, db.labels), networks := Or(q.networks, db.networks),
        maintenance := if q.maintenance != NO_WINDOW then q.maintenance else db.maintenance,
        properties := Merge(db.properties, q.properties))
  }

  /** The one request the adapter sends. */
  ghost function RequestFor(d: DbSpec, networks: seq<Attachment>): ModifyRequest {
    ModifyRequest(d.plan, d.title, Some(d.disk), Some(d.protected), Some(Desired(d.uid, d.labels)), Some(networks),
                  Or(d.maintenance, NO_WINDOW), if d.properties.Object? then d.properties.values else map[])
  }

  ghost function Modified(
    db: Service, d: DbSpec, networks: seq<Attachment>): Service { Applied(db, RequestFor(d, networks)) }

  datatype Site = LookupCall | PowerCall | NetworksRead | ModifyCall | DeleteCall

  datatype Env = Env(faults: map<Site, Fault>, networks: Result<seq<Attachment>>)
  {
    function At(s: Site): Fault { if s in faults then faults[s] else Works }
  }

  /** Service after, calls made, answer. */
  datatype Updated = Updated(db: Service, calls: seq<Call>, result: Result<()>)

  ghost function PowerStep(db: Service, d: DbSpec, f: Fault): Updated {
    if db.powered == DesiredPowered(d) then Updated(db, [], Ok(()))
    else
      var on := DesiredPowered(d);
      Updated(if TakesEffect(f) then SetPower(db, on) else db, [if on then Start else Shutdown], Answer(f, Ok(())))
  }

  /** The comparison uses the service as looked up, before the power call. */
  ghost function ModifyStep(looked: Service, now: Service, d: DbSpec, e: Env): Updated {
    if e.networks.Err? then Updated(now, [], Err(e.networks.error))
    else if SpecMatches(looked, d, e.networks.value) then Updated(now, [], Ok(()))
    else if d.properties.Malformed? then Updated(now, [], Err(Other))
    else
      var f := e.At(ModifyCall);
      Updated(if TakesEffect(f) then Modified(now, d, e.networks.value) else now, [Modify], Answer(f, Ok(())))
  }

  /** Power first, then one modify for everything else. */
  ghost function Update(db: Service, d: DbSpec, e: Env): Updated {
    if !e.At(LookupCall).Works? then Updated(db, [], Err(Api(e.At(LookupCall).status)))
    else if !UpdateOK(db.state) then Updated(db, [], Err(Pending))
    else
      var p := PowerStep(db, d, e.At(PowerCall));
      if p.result.Err? then p
      else
        var m := ModifyStep(db, p.db, d, e);
        Updated(m.db, p.calls + m.calls, m.result)
  }

  // ---- The adapter as an object

  method ApplyRequest(db: Service, q: ModifyRequest) returns (s: Service)
    ensures s == Applied(db, q)
  {
    s := ApplyScalars(db, q);
    if q.labels.Some? { s := s.(labels := q.labels.value); }
    if q.networks.Some? { s := s.(networks := q.networks.value); }
    if q.maintenance.dayOfWeek != "" || q.maintenance.time != "" {
      s := s.(maintenance := q.maintenance);
    }
    s := s.(properties := Merge(s.properties, q.properties));
  }

  method ApplyScalars(db: Service, q: ModifyRequest) returns (s: Service)
    ensures s == Applied(db, q).(labels := db.labels, networks := db.networks, maintenance := db.maintenance,
        properties := db.properties)
  {
    s := db;
    if q.plan != "" { s := s.(plan := q.plan); }
    if q.title != "" { s := s.(title := q.title); }
    if q.disk.Some? { s := s.(disk := q.disk.value); }
    if q.protected.Some? { s := s.(protected := q.protected.value); }
  }

  predicate Carries(dbs: map<Uuid, Service>, id: Uuid, uid: string) { id in dbs && HasUID(dbs[id].labels, uid) }

  /** By recorded identity if there is one, else by the owner's label. */
  function Lookup(id: Uuid, uid: string, dbs: map<Uuid, Service>, f: Fault, pick: Uuid): Result<Option<Uuid>> {
    if !f.Works? then Err(Api(f.status))
    else if id != NO_UUID then Ok(if id in dbs then Some(id) else None)
    else Ok(if Carries(dbs, pick, uid) then Some(pick) else None)
  }

  /** A scan of the services that can find one of the owner's finds one. */
  ghost predicate HonestPick(dbs: map<Uuid, Service>, uid: string, pick: Uuid) {
    forall id :: Carries(dbs, id, uid) ==> Carries(dbs, pick, uid)
  }

  ghost function AnyPick(dbs: map<Uuid, Service>, uid: string): (pick: Uuid)
    ensures HonestPick(dbs, uid, pick)
  {
    if id: Uuid :| Carries(dbs, id, uid) then id else NO_UUID
  }

  /** The services, and the start, shutdown and modify calls made on them. */
  class DatabaseAPI {
    var dbs: map<Uuid, Service>
    var calls: seq<Call>

    constructor (dbs: map<Uuid, Service>)
      ensures this.dbs == dbs && calls == []
    {
      this.dbs, calls := dbs, [];
    }

    /** All services, in whatever order the map yields them. */
    method GetAll(f: Fault) returns (r: Result<seq<(Uuid, Service)>>)
      ensures if f.Works? then r.Ok? else r == Err(Api(f.status))
      ensures r.Ok? ==> forall p :: p in r.value <==> p.0 in dbs && dbs[p.0] == p.1
      ensures r.Ok? ==> forall i, j :: 0 <= i < j < |r.value| ==> r.value[i].0 != r.value[j].0
    {
      if !f.Works? {
        return Err(Api(f.status));
      }
      var list: seq<(Uuid, Service)> := [];
      var rest := dbs.Keys;
      while rest != {}
        invariant rest <= dbs.Keys
        invariant forall p :: p in list <==> p.0 in dbs.Keys - rest && dbs[p.0] == p.1
        invariant forall i, j :: 0 <= i < j < |list| ==> list[i].0 != list[j].0
        decreases |rest|
      {
        var k :| k in rest;
        rest := rest - {k};
        assert forall i :: 0 <= i < |list| ==> list[i] in list && list[i].0 != k;
        list := list + [(k, dbs[k])];
      }
      return Ok(list);
    }

    method PowerService(id: Uuid, on: bool, f: Fault) returns (r: Result<()>)
      modifies this
      ensures dbs == (if id in old(dbs) && TakesEffect(f) then old(dbs)[id := SetPower(old(dbs)[id], on)] else old(dbs))
      ensures calls == old(calls) + [if on then Start else Shutdown]
      ensures r == Answer(f, if id in old(dbs) then Ok(()) else Err(Api(NOT_FOUND)))
    {
      calls := calls + [if on then Start else Shutdown];
      if f.Refused? {
        return Err(Api(f.status));
      }
      if id !in dbs {
        return Answer(f, Err(Api(NOT_FOUND)));
      }
      dbs := dbs[id := dbs[id].(powered := on)];
      dbs := dbs[id := dbs[id].(state := if on then Running else Stopped)];
      return Answer(f, Ok(()));
    }

    method ModifyService(id: Uuid, q: ModifyRequest, f: Fault) returns (r: Result<()>)
      modifies this
      ensures dbs == (if id in old(dbs) && TakesEffect(f) then old(dbs)[id := Applied(old(dbs)[id], q)] else old(dbs))
      ensures calls == old(calls) + [Modify]
      ensures r == Answer(f, if id in old(dbs) then Ok(()) else Err(Api(NOT_FOUND)))
    {
      calls := calls + [Modify];
      if f.Refused? {
        return Err(Api(f.status));
      }
      if id !in dbs {
        return Answer(f, Err(Api(NOT_FOUND)));
      }
      var s := ApplyRequest(dbs[id], q);
      dbs := dbs[id := s];
      return Answer(f, Ok(()));
    }

    method DeleteService(id: Uuid, f: Fault) returns (r: Result<()>)
      modifies this
      ensures var (after, honest) := DeleteRule(old(dbs), id);
              dbs == (if TakesEffect(f) then after else old(dbs)) && r == Answer(f, honest)
    {
      if f.Refused? {
        return Err(Api(f.status));
      }
      if id !in dbs {
        return Answer(f, Err(Api(NOT_FOUND)));
      }
      if dbs[id].protected {
        return Answer(f, Err(Api(CONFLICT)));
      }
      if dbs[id].state == ServiceState.DeleteService {
        dbs := dbs - {id};
        return Answer(f, Err(Api(NOT_FOUND)));
      }
      dbs := dbs[id := dbs[id].(state := ServiceState.DeleteService)];
      return Answer(f, Ok(()));
    }
  }

  method Find(api: DatabaseAPI, id: Uuid, uid: string, f: Fault) returns (r: Result<Option<Uuid>>, ghost pick: Uuid)
    ensures HonestPick(api.dbs, uid, pick)
    ensures r == Lookup(id, uid, api.dbs, f, pick)
    ensures if f.Works? then r.Ok? else r == Err(Api(f.status))
    ensures r.Ok? && id != NO_UUID ==> r.value == if id in api.dbs then Some(id) else None
    ensures r.Ok? && id == NO_UUID ==>
              if r.value.Some? then Carries(api.dbs, r.value.value, uid) else forall k :: !Carries(api.dbs, k, uid)
  {
    pick := AnyPick(api.dbs, uid);
    if id != NO_UUID {
      return if !f.Works? then Err(Api(f.status)) else if id in api.dbs then Ok(Some(id)) else Ok(None), pick;
    }
    var list := api.GetAll(f);
    if list.Err? {
      return Err(list.error), pick;
    }
    for i := 0 to |list.value|
      invariant forall k :: 0 <= k < i ==> !HasUID(list.value[k].1.labels, uid)
    {
      var has := HasUIDScan(list.value[i].1.labels, uid);
      if has {
        assert list.value[i] in list.value;
        return Ok(Some(list.value[i].0)), list.value[i].0;
      }
    }
    forall k | k in api.dbs ensures !HasUID(api.dbs[k].labels, uid) {
      assert (k, api.dbs[k]) in list.value;
    }
    return Ok(None), pick;
  }

  method SpecMatchesCall(db: Service, d: DbSpec, networks: seq<Attachment>) returns (r: bool)
    ensures r == SpecMatches(db, d, networks)
  {
    if db.plan != d.plan || db.title != d.title || db.disk != d.disk || db.protected != d.protected {
      return false;
    }
    if d.maintenance.Some? && (db.maintenance.dayOfWeek != d.maintenance.value.dayOfWeek
      || db.maintenance.time != d.maintenance.value.time) {
      return false;
    }
    var labels := DesiredLabels(d.uid, d.labels);
    var labelsEqual := LabelsEqual(db.labels, labels);
    if !labelsEqual {
      return false;
    }
    var networksEqual := ContainedIn(db.networks, networks, FullKey);
    return networksEqual && PropertiesUpToDate(db.properties, d.properties);
  }

  method UpdateService(api: DatabaseAPI, id: Uuid, d: DbSpec, e: Env) returns (r: Result<()>, ghost pick: Uuid)
    modifies api
    ensures HonestPick(old(api.dbs), d.uid, pick)
    ensures var found := Lookup(id, d.uid, old(api.dbs), e.At(LookupCall), pick);
            if found.Ok? && found.value.Some? then
              var k := found.value.value;
              var u := Update(old(api.dbs)[k], d, e);
              api.dbs == old(api.dbs)[k := u.db] && api.calls == old(api.calls) + u.calls && r == u.result
            else
              && api.dbs == old(api.dbs) && api.calls == old(api.calls)
              && r == Err(if found.Ok? then Pending else found.error)
  {
    var found;
    found, pick := Find(api, id, d.uid, e.At(LookupCall));
    if found.Err? {
      return Err(found.error), pick;
    }
    if found.value.None? {
      return Err(Pending), pick;
    }
    r := UpdateFound(api, found.value.value, d, e);
  }

  method UpdateFound(api: DatabaseAPI, k: Uuid, d: DbSpec, e: Env) returns (r: Result<()>)
    requires k in api.dbs && e.At(LookupCall).Works?
    modifies api
    ensures var u := Update(old(api.dbs)[k], d, e);
            api.dbs == old(api.dbs)[k := u.db] && api.calls == old(api.calls) + u.calls && r == u.result
  {
    var looked := api.dbs[k];
    if !UpdateOK(looked.state) {
      return Err(Pending);
    }
    ghost var calls := api.calls;
    if looked.powered && !DesiredPowered(d) {
      var p := api.PowerService(k, false, e.At(PowerCall));
      if p.Err? {
        return p;
      }
    } else if !looked.powered && DesiredPowered(d) {
      var p := api.PowerService(k, true, e.At(PowerCall));
      if p.Err? {
        return p;
      }
    }
    assert api.calls == calls + PowerStep(looked, d, e.At(PowerCall)).calls;
    r := ModifyIfDrifted(api, k, looked, d, e);
  }

  method ModifyIfDrifted(api: DatabaseAPI, k: Uuid, looked: Service, d: DbSpec, e: Env) returns (r: Result<()>)
    requires k in api.dbs
    modifies api
    ensures var u := ModifyStep(looked, old(api.dbs)[k], d, e);
            api.dbs == old(api.dbs)[k := u.db] && api.calls == old(api.calls) + u.calls && r == u.result
  {
    if e.networks.Err? {
      return Err(e.networks.error);
    }
    var matches := SpecMatchesCall(looked, d, e.networks.value);
    if matches {
      return Ok(());
    }
    if d.properties.Malformed? {
      return Err(Other);
    }
    var labels := DesiredLabels(d.uid, d.labels);
    var q := ModifyRequest(d.plan, d.title, Some(d.disk), Some(d.protected), Some(labels), Some(e.networks.value),
                           NO_WINDOW, if d.properties.Object? then d.properties.values else map[]);
    if d.maintenance.Some? {
      q := q.(maintenance := d.maintenance.value);
    }
    r := api.ModifyService(k, q, e.At(ModifyCall));
  }

  // ---- Drift repair

  /** The spec asks for nothing the modify call cannot say: an empty plan, title or window leaves the
      service's own in place. */
  predicate Sayable(db: Service, d: DbSpec) {
    && (d.plan != "" || db.plan == "") && (d.title != "" || db.title == "")
    && (d.maintenance == Some(NO_WINDOW) ==> db.maintenance == NO_WINDOW)
  }

  lemma EchoedNetworks(networks: seq<Attachment>)
    ensures KeysCovered(networks, networks, FullKey)
  {
    forall d | d in networks ensures FullKey(d) in Map(FullKey, networks) {
      var i :| 0 <= i < |networks| && networks[i] == d;
      assert Map(FullKey, networks)[i] == FullKey(d);
    }
  }

  lemma ModifiedMatches(db: Service, d: DbSpec, networks: seq<Attachment>)
    requires !d.properties.Malformed?
    ensures SpecMatches(Modified(db, d, networks), d, networks) <==> Sayable(db, d)
  {
    EchoedNetworks(networks);
  }

  /** An update that returns nil makes the next observation up to date exactly when the spec is
      sayable - from any state, whatever had drifted. */
  lemma UpdateRepairsIffSayable(db: Service, d: DbSpec, e: Env)
    requires Update(db, d, e).result.Ok?
    ensures e.networks.Ok?
    ensures UpToDate(Update(db, d, e).db, d, e.networks.value) <==> Sayable(db, d)
  {
    var p := PowerStep(db, d, e.At(PowerCall));
    if !SpecMatches(db, d, e.networks.value) {
      ModifiedMatches(p.db, d, e.networks.value);
    }
  }

  /** The calls an update has to make: a power call exactly if power drifted... */
  function PowerNeeded(db: Service, d: DbSpec): seq<Call> {
    if db.powered == DesiredPowered(d) then [] else [if DesiredPowered(d) then Start else Shutdown]
  }

  /** ...then a modify exactly if anything else did. */
  ghost function ModifyNeeded(db: Service, d: DbSpec, networks: Result<seq<Attachment>>): seq<Call> {
    if networks.Ok? && !SpecMatches(db, d, networks.value) then [Modify] else []
  }

  /** An update makes its needed calls in order and no others: all of them when it succeeds, so none when
      already up to date; and never another one after a failure. */
  lemma CallsMade(db: Service, d: DbSpec, e: Env)
    ensures var made, needed := Update(db, d, e).calls, PowerNeeded(db, d) + ModifyNeeded(db, d, e.networks);
            made <= needed && (Update(db, d, e).result.Ok? ==> made == needed)
    ensures Update(db, d, e).result.Ok? ==> (Update(db, d, e).calls == [] <==> UpToDate(db, d, e.networks.value))
  {
  }

  /** Whatever happens in an update, a property the spec does not name keeps its value. */
  lemma UnnamedPropertiesKept(db: Service, d: DbSpec, e: Env, k: string)
    requires d.properties.Object? ==> k !in d.properties.values
    ensures var after := Update(db, d, e).db.properties;
            (k in after <==> k in db.properties) && (k in after ==> after[k] == db.properties[k])
  {
    var p := PowerStep(db, d, e.At(PowerCall));
    assert p.db.properties == db.properties;
    if e.networks.Ok? {
      var named := if d.properties.Object? then d.properties.values else map[];
      assert Modified(p.db, d, e.networks.value).properties == Merge(db.properties, named);
    }
  }

  // ---- What a successful update and an up-to-date verdict mean

  /** The drift verdict, field by field. */
  lemma UpToDateIff(db: Service, d: DbSpec, networks: seq<Attachment>)
    requires DistinctKeys(networks, FullKey) && forall n :: n in db.networks || n in networks ==> KeySafe(n)
    ensures UpToDate(db, d, networks) <==>
              && db.plan == d.plan && db.title == d.title && db.disk == d.disk && db.protected == d.protected
              && db.powered == (d.powered == None || d.powered == Some(true))
              && (d.maintenance.Some? ==>
                    db.maintenance.dayOfWeek == d.maintenance.value.dayOfWeek
                      && db.maintenance.time == d.maintenance.value.time)
              && multiset(db.labels) == multiset(Desired(d.uid, d.labels))
              && multiset(db.networks) == multiset(networks)
              && (d.properties.Object? ==>
                    forall k :: k in d.properties.values ==>
                      k in db.properties && db.properties[k] == d.properties.values[k])
  {
    NetworksEqualIsMultisetEquality(db.networks, networks);
  }

  /** The two steps of an update that returns nil. */
  lemma UpdateOkIs(db: Service, d: DbSpec, e: Env)
    requires Update(db, d, e).result.Ok?
    ensures var on := d.powered == None || d.powered == Some(true);
            var p := if db.powered == on then db else db.(powered := on, state := if on then Running else Stopped);
            && e.networks.Ok?
            && Update(db, d, e).db == (if SpecMatches(db, d, e.networks.value) then p
                 else Modified(p, d, e.networks.value))
  {
    PowerStepIs(db, d, e.At(PowerCall));
  }

  /** What an update that returns nil leaves, field by field; power changes the state with it. */
  lemma UpdatedScalars(db: Service, d: DbSpec, e: Env)
    requires Update(db, d, e).result.Ok?
    ensures var after := Update(db, d, e).db;
            && after.disk == d.disk && after.protected == d.protected
            && after.powered == (d.powered == None || d.powered == Some(true))
            && after.state == (if after.powered == db.powered then db.state else if after.powered then Running
                 else Stopped)
            && after.plan == (if d.plan != "" then d.plan else db.plan)
            && after.title == (if d.title != "" then d.title else db.title)
  {
    UpdateOkIs(db, d, e);
  }

  lemma PowerStepIs(db: Service, d: DbSpec, f: Fault)
    requires PowerStep(db, d, f).result.Ok?
    ensures var on := d.powered == None || d.powered == Some(true);
            PowerStep(db, d, f).db ==
              if db.powered == on then db else db.(powered := on, state := if on then Running else Stopped)
  {
  }

  lemma UpdatedRest(db: Service, d: DbSpec, e: Env)
    requires Update(db, d, e).result.Ok?
    ensures var after := Update(db, d, e).db;
            && (d.maintenance.Some? && d.maintenance.value != Window("", "") ==>
                  after.maintenance == d.maintenance.value)
            && (d.maintenance.None? || d.maintenance == Some(Window("", "")) ==> after.maintenance == db.maintenance)
            && multiset(after.labels) == multiset(Desired(d.uid, d.labels))
            && (d.properties.Object? ==>
                  forall k :: k in d.properties.values ==>
                    k in after.properties && after.properties[k] == d.properties.values[k])
  {
    UpdateOkIs(db, d, e);
  }

  lemma UpdatedNetworks(db: Service, d: DbSpec, e: Env)
    requires Update(db, d, e).result.Ok? && DistinctKeys(e.networks.value, FullKey)
    requires forall n :: n in db.networks || n in e.networks.value ==> KeySafe(n)
    ensures multiset(Update(db, d, e).db.networks) == multiset(e.networks.value)
  {
    NetworksEqualIsMultisetEquality(db.networks, e.networks.value);
  }

  /** From running, stopped or error an update without faults succeeds, unless the properties are no object;
      from any other state it waits and touches nothing. */
  lemma UpdateWorksFrom(db: Service, d: DbSpec, e: Env)
    requires e.faults == map[] && e.networks.Ok? && !d.properties.Malformed?
    ensures db.state in {Running, Stopped, Failed} ==> Update(db, d, e).result.Ok?
    ensures db.state !in {Running, Stopped, Failed} ==> Update(db, d, e) == Updated(db, [], Err(Pending))
  {
  }

  /** Whatever fails is reported as it is: nothing follows a failing power call, and networks that cannot be
      resolved or properties that are no object keep the modify from being sent. */
  lemma UpdateErrors(db: Service, d: DbSpec, e: Env)
    requires e.At(LookupCall).Works? && UpdateOK(db.state)
    ensures var u := Update(db, d, e);
            var powerDrifted := db.powered != (d.powered == None || d.powered == Some(true));
            && (powerDrifted && !e.At(PowerCall).Works? ==>
                  u.result == Err(Api(e.At(PowerCall).status)) && |u.calls| == 1)
            && (!powerDrifted || e.At(PowerCall).Works? ==>
                  && (e.networks.Err? ==> u.result == Err(e.networks.error) && Modify !in u.calls)
                  && (e.networks.Ok? && d.properties.Malformed? && !SpecMatches(db, d, e.networks.value) ==>
                        u.result == Err(Other) && Modify !in u.calls)
                  && (e.networks.Ok? && !d.properties.Malformed? && !SpecMatches(db, d, e.networks.value) ==>
                        Modify in u.calls && (!e.At(ModifyCall).Works?
                          ==> u.result == Err(Api(e.At(ModifyCall).status)))))
  {
  }

  // ---- Two-phase delete

  /** The environment of one delete pass: the fate of its read and of its delete call. */
  datatype Try = Try(read: Fault, delete: Fault)

  /** The services afterwards and the adapter's answer. `id` is the identity on record; with none on record
      no call is made and the service, if there is one, stays. */
  function Delete(id: Uuid, dbs: map<Uuid, Service>, t: Try): (map<Uuid, Service>, Result<()>) {
    if id == NO_UUID then (dbs, Ok(()))
    else if !t.read.Works? then (dbs, Err(Api(t.read.status)))
    else if id !in dbs then (dbs, Ok(()))
    else if !DeleteOK(dbs[id].state) then (dbs, Err(Pending))
    else
      var (after, honest) := DeleteRule(dbs, id);
      (if TakesEffect(t.delete) then after else dbs, DeleteAnswer(dbs[id], Answer(t.delete, honest)))
  }

  /** The API: a protected service is refused; the first call starts the deletion, a call on a service
      already deleting finishes it and reports 404. */
  function DeleteRule(dbs: map<Uuid, Service>, id: Uuid): (map<Uuid, Service>, Result<()>) {
    if id !in dbs then (dbs, Err(Api(NOT_FOUND)))
    else if dbs[id].protected then (dbs, Err(Api(CONFLICT)))
    else if dbs[id].state == DeleteService then (dbs - {id}, Err(Api(NOT_FOUND)))
    else (dbs[id := dbs[id].(state := DeleteService)], Ok(()))
  }

  function DeleteAnswer(db: Service, r: Result<()>): Result<()> {
    if r.Ok? then Err(Pending)
    else if IsNotFound(r.error) then Ok(())
    else if IsConflict(r.error) && !db.protected then Err(Pending)
    else r
  }

  method DeletePhase(api: DatabaseAPI, id: Uuid, t: Try) returns (r: Result<()>)
    modifies api
    ensures (api.dbs, r) == Delete(id, old(api.dbs), t)
  {
    if id == NO_UUID {
      return Ok(());
    }
    if !t.read.Works? {
      return Err(Api(t.read.status));
    }
    if id !in api.dbs {
      return Ok(());
    }
    if !DeleteOK(api.dbs[id].state) {
      return Err(Pending);
    }
    var wasProtected := api.dbs[id].protected;
    var d := api.DeleteService(id, t.delete);
    if d.Ok? {
      return Err(Pending);
    }
    if IsNotFound(d.error) {
      return Ok(());
    }
    return if IsConflict(d.error) && !wasProtected then Err(Pending) else d;
  }

  function Deletes(id: Uuid, dbs: map<Uuid, Service>, tries: seq<Try>): map<Uuid, Service>
    decreases |tries|
  {
    if tries == [] then dbs else Deletes(id, Delete(id, dbs, tries[0]).0, tries[1..])
  }

  /** No pass touches another service than the one on record. */
  lemma OthersUntouched(id: Uuid, dbs: map<Uuid, Service>, t: Try, other: Uuid)
    requires other != id
    ensures var after := Delete(id, dbs, t).0;
            (other in after <==> other in dbs) && (other in dbs ==> after[other] == dbs[other])
  {
  }

  /** `mine` is the resource's service, whether or not its identity got recorded. Success means it is gone
      if and only if the identity was recorded or there was no service. */
  lemma SuccessMeansGoneIff(id: Uuid, mine: Uuid, dbs: map<Uuid, Service>, t: Try)
    requires mine != NO_UUID && (id == NO_UUID || id == mine)
    requires Delete(id, dbs, t).1.Ok?
    ensures mine !in Delete(id, dbs, t).0 <==> id == mine || mine !in dbs
  {
  }

  /** What a pass without faults over the recorded service answers: a transitional service is left alone, a
      protected one is an error, and a deletion just started is pending. */
  lemma DeleteAnswers(id: Uuid, dbs: map<Uuid, Service>)
    requires id != NO_UUID && id in dbs
    ensures var (after, r) := Delete(id, dbs, Try(Works, Works));
            var state := dbs[id].state;
            && (state == Rebuilding ==> after == dbs && r == Err(Pending))
            && (state != Rebuilding && dbs[id].protected ==> after == dbs && r == Err(Api(CONFLICT)))
            && (state in {Running, Stopped, Failed} && !dbs[id].protected ==>
                  r == Err(Pending) && id in after && after[id].state == ServiceState.DeleteService)
            && (state == ServiceState.DeleteService && !dbs[id].protected ==> r == Ok(()) && id !in after)
  {
  }

  /** A refusal by conflict is an error under protection and else worth waiting for. */
  lemma ConflictAnswer(id: Uuid, dbs: map<Uuid, Service>)
    requires id != NO_UUID && id in dbs && dbs[id].state != Rebuilding
    ensures Delete(id, dbs, Try(Works, Refused(CONFLICT))) ==
              (dbs, Err(if dbs[id].protected then Api(CONFLICT) else Pending))
  {
  }

  predicate GoesThrough(t: Try) { t.read.Works? && TakesEffect(t.delete) }

  function Effective(tries: seq<Try>): nat {
    if tries == [] then 0 else (if GoesThrough(tries[0]) then 1 else 0) + Effective(tries[1..])
  }

  /** A deletable service is gone once two delete calls have had the chance to take effect, whatever fails
      in between, if and only if its identity is on record and it is not protected; else it is never touched. */
  lemma {:induction false} GoneAfterTwoEffectiveDeletes(id: Uuid, mine: Uuid, dbs: map<Uuid, Service>, tries: seq<Try>)
    requires mine != NO_UUID && (id == NO_UUID || id == mine)
    requires mine in dbs && dbs[mine].state in {Running, Stopped, Failed, ServiceState.DeleteService}
        && Effective(tries) >= 2
    ensures mine !in Deletes(id, dbs, tries) <==> id == mine && !dbs[mine].protected
    ensures id == NO_UUID || dbs[mine].protected ==> Deletes(id, dbs, tries) == dbs
  {
    if id == NO_UUID || dbs[mine].protected {
      NeverTouched(id, dbs, tries);
    } else {
      GoneAfter(mine, dbs, tries, 2);
    }
  }

  lemma {:induction false} NeverTouched(id: Uuid, dbs: map<Uuid, Service>, tries: seq<Try>)
    requires id == NO_UUID || (id in dbs && dbs[id].protected)
    ensures Deletes(id, dbs, tries) == dbs
    decreases |tries|
  {
    if tries != [] { NeverTouched(id, dbs, tries[1..]); }
  }

  lemma {:induction false} GoneStays(id: Uuid, dbs: map<Uuid, Service>, tries: seq<Try>)
    requires id !in dbs
    ensures id !in Deletes(id, dbs, tries)
    decreases |tries|
  {
    if tries != [] { GoneStays(id, dbs, tries[1..]); }
  }

  lemma {:induction false} GoneAfter(id: Uuid, dbs: map<Uuid, Service>, tries: seq<Try>, needed: nat)
    requires id != NO_UUID && id in dbs && DeleteOK(dbs[id].state) && !dbs[id].protected && Effective(tries) >= needed
    requires needed == 2 || (needed == 1 && dbs[id].state == DeleteService)
    ensures id !in Deletes(id, dbs, tries)
    decreases |tries|
  {
    if !GoesThrough(tries[0]) {
      GoneAfter(id, dbs, tries[1..], needed);
    } else if dbs[id].state == DeleteService {
      GoneStays(id, dbs - {id}, tries[1..]);
    } else {
      GoneAfter(id, dbs[id := dbs[id].(state := DeleteService)], tries[1..], 1);
    }
  }
}
