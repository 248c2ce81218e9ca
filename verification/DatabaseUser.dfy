/** ManagedDatabaseUser (internal/controller/database/manageddatabaseuser_adapter.go): passwords and
    access control kept in step between the cloud, the spec and the credentials Secret. */
module DatabaseUser {
  import opened Support
  import opened Reconciler
  import opened PassShape

  /** A Go slice: nil and empty are different to reflect.DeepEqual. */
  type Slice = Option<seq<string>>

  datatype Valkey = Valkey(categories: Slice, channels: Slice, commands: Slice, keys: Slice)

  /** Access control blocks, absent or present: PostgreSQL replication, Valkey lists, OpenSearch rules. */
  datatype Access = Access(pg: Option<Option<bool>>, valkey: Option<Valkey>, openSearch: Option<Slice>)

  /** The cloud's user; `primary` users come with the service. */
  datatype User = User(password: string, access: Access, authentication: string, primary: bool)

  const PASSWORD := "password"

  /** The data of a Secret. */
  type SecretData = map<string, string>

  datatype UserSpec = UserSpec(passwordRef: Option<(string, string)>, access: Access, authentication: string)

  /** Whether the service is on record, and the recorded type. */
  datatype UserStatus = UserStatus(parentKnown: bool, primary: bool)

  type UserCR = CR<UserSpec, UserStatus>

  /** The identity on record is the username, which never changes. */
  const USERNAME: Uuid := 1

  /** Where the service is reached. */
  datatype ServiceParams = ServiceParams(host: string, port: string, database: string, sslMode: string)

  /** The cloud user, the credentials Secret the operator owns, every other Secret, whether the parent
      database is Ready, the username, and the service. */
  datatype UserWorld = UserWorld(user: Option<User>, credentials: Option<SecretData>, others: map<string, SecretData>,
                                 parentReady: bool, username: string, service: ServiceParams)

  datatype Site = ParentRead | GetUser | SecretRead | GetService | SecretWrite
                | UpdateGetUser | UpdateSecretRead | PasswordCall | AccessCall | CreateCall | DeleteCall

  /** `generated` is the password the API makes up when none is given. */
  datatype Env = Env(faults: map<Site, Fault>, generated: string)
  {
    function At(s: Site): Fault { if s in faults then faults[s] else Works }
  }

  /** The parent must be Ready once; its service is then remembered. */
  function Parent(u: UserCR, w: UserWorld, f: Fault): Result<UserCR> {
    if u.status.parentKnown then Ok(u)
    else if !f.Works? then Err(Other)
    else if !w.parentReady then Err(DependencyNotReady)
    else Ok(u.(status := u.status.(parentKnown := true)))
  }

  function PasswordFrom(secret: Option<SecretData>, key: string, f: Fault): Result<Option<string>> {
    if !f.Works? then Err(Other)
    else if secret.None? then Ok(None)
    else if key !in secret.value then Err(Other)
    else Ok(Some(secret.value[key]))
  }

  /** The referenced Secret is the source of truth if there is a reference, else the credentials Secret. */
  function DesiredPassword(s: UserSpec, w: UserWorld, f: Fault): Result<Option<string>> {
    if s.passwordRef.Some? then
      var (name, key) := s.passwordRef.value;
      PasswordFrom(if name in w.others then Some(w.others[name]) else None, key, f)
    else PasswordFrom(w.credentials, PASSWORD, f)
  }

  function Requested(x: Slice): Slice { if x.Some? && |x.value| > 0 then x else None }

  /** What the API is sent, and stores: empty Valkey lists are left out, OpenSearch rules never are. */
  function RequestOf(a: Access): Access {
    Access(a.pg,
           if a.valkey.None? then None
           else Some(Valkey(Requested(a.valkey.value.categories), Requested(a.valkey.value.channels),
                            Requested(a.valkey.value.commands), Requested(a.valkey.value.keys))),
           if a.openSearch.None? then None else Some(Some(RulesOf(a.openSearch.value))))
  }

  /** A rule list built with make(..., 0): never nil. */
  function RulesOf(x: Slice): seq<string> { if x.Some? then x.value else [] }

  predicate AccessMatches(spec: Access, observed: Access) {
    && spec.pg == observed.pg
    && spec.valkey == observed.valkey
    && (spec.openSearch.Some? <==> observed.openSearch.Some?)
    && (spec.openSearch.Some? ==> observed.openSearch.value == Some(RulesOf(spec.openSearch.value)))
  }

  function ConnectionURI(username: string, password: string, p: ServiceParams): string {
    "postgresql://" + username + ":" + password + "@" + p.host + ":" + p.port
    + "/" + p.database + "?sslmode=" + p.sslMode
  }

  /** All the credentials Secret holds. */
  function Credentials(w: UserWorld, password: string): (data: SecretData)
    ensures PASSWORD in data && data[PASSWORD] == password
  {
    map["username" := w.username, PASSWORD := password, "host" := w.service.host, "port" := w.service.port,
        "uri" := ConnectionURI(w.username, password, w.service)]
  }

  function WriteCredentials(w: UserWorld, password: string, f: Fault): (UserWorld, Result<()>) {
    (if TakesEffect(f) then w.(credentials := Some(Credentials(w, password))) else w, if f.Works? then Ok(())
      else Err(Other))
  }

  /** Authentication is not compared. */
  function Observe(o: UserCR, w: UserWorld, e: Env): Outcome<UserSpec, UserStatus, UserWorld, Observation> {
    var p := Parent(o, w, e.At(ParentRead));
    if p.Err? then Outcome(o, w, Err(p.error)) else
    if !e.At(GetUser).Works? then Outcome(p.value, w, Err(Api(e.At(GetUser).status))) else
    if w.user.None? then Outcome(p.value, w, Ok(ABSENT)) else
    var user := w.user.value;
    var u := p.value.(id := USERNAME, status := UserStatus(true, user.primary));
    var desired := DesiredPassword(o.spec, w, e.At(SecretRead));
    if desired.Err? then Outcome(u, w, Err(desired.error)) else
    if desired.value.None? then HealCredentials(u, w, user, e)
    else Outcome(u, w, Ok(Observation(true, user.password == desired.value.value
      && AccessMatches(o.spec.access, user.access), true)))
  }

  function HealCredentials(
    u: UserCR, w: UserWorld, user: User, e: Env): Outcome<UserSpec, UserStatus, UserWorld, Observation> {
    if u.spec.passwordRef.Some? then Outcome(u, w, Err(DependencyNotReady)) else
    if !e.At(GetService).Works? then Outcome(u, w, Err(Api(e.At(GetService).status))) else
    var (w', written) := WriteCredentials(w, user.password, e.At(SecretWrite));
    Outcome(u, w', if written.Err? then Err(written.error)
      else Ok(Observation(true, AccessMatches(u.spec.access, user.access), true)))
  }

  /** The API keeps the password when it is sent an empty one; the authentication is always replaced. */
  function ModifyPassword(w: UserWorld, password: string, authentication: string, f: Fault): (UserWorld, Result<()>) {
    if w.user.None? then (w, Answer(f, Err(Api(NOT_FOUND))))
    else
      var user := w.user.value.(password := if password != "" then password
          else w.user.value.password, authentication := authentication);
      (if TakesEffect(f) then w.(user := Some(user)) else w, Answer(f, Ok(())))
  }

  function ModifyAccess(w: UserWorld, access: Access, f: Fault): (UserWorld, Result<()>) {
    if w.user.None? then (w, Answer(f, Err(Api(NOT_FOUND))))
    else (if TakesEffect(f) then w.(user := Some(w.user.value.(access := RequestOf(access)))) else w, Answer(f, Ok(())))
  }

  function PasswordStep(s: UserSpec, w: UserWorld, user: User, desired: string, f: Fault): (UserWorld, Result<()>) {
    if user.password != desired then ModifyPassword(w, desired, s.authentication, f) else (w, Ok(()))
  }

  function AccessStep(s: UserSpec, w: UserWorld, user: User, f: Fault): (UserWorld, Result<()>) {
    if AccessMatches(s.access, user.access) then (w, Ok(())) else ModifyAccess(w, s.access, f)
  }

  /** Password first, then access control, each only on drift. */
  function Update(o: UserCR, w: UserWorld, e: Env): Outcome<UserSpec, UserStatus, UserWorld, ()> {
    var p := Parent(o, w, e.At(ParentRead));
    if p.Err? then Outcome(o, w, Err(p.error)) else
    if !e.At(UpdateGetUser).Works? then Outcome(p.value, w, Err(Api(e.At(UpdateGetUser).status))) else
    if w.user.None? then Outcome(p.value, w, Err(Pending)) else
    var user, desired := w.user.value, DesiredPassword(o.spec, w, e.At(UpdateSecretRead));
    if desired.Err? then Outcome(p.value, w, Err(desired.error)) else
    if desired.value.None? then Outcome(p.value, w, if o.spec.passwordRef.Some? then Err(DependencyNotReady)
      else Ok(())) else
    var w1 := PasswordStep(o.spec, w, user, desired.value.value, e.At(PasswordCall));
    if w1.1.Err? then Outcome(p.value, w1.0, w1.1) else
    var w2 := AccessStep(o.spec, w1.0, user, e.At(AccessCall));
    Outcome(p.value, w2.0, w2.1)
  }

  /** The API: a taken name is refused with 409; an empty password is made up. Answers the password. */
  function NewUser(w: UserWorld, password: string, s: UserSpec, e: Env): (UserWorld, Result<string>) {
    var f, used := e.At(CreateCall), if password == "" then e.generated else password;
    if w.user.Some? then (w, Answer(f, Err(Api(CONFLICT))))
    else (if TakesEffect(f) then w.(user := Some(User(used, RequestOf(s.access), s.authentication, false)))
      else w, Answer(f, Ok(used)))
  }

  /** A 409 adopts the existing user; otherwise the password used or generated goes to the Secret. */
  function Create(o: UserCR, w: UserWorld, e: Env): Outcome<UserSpec, UserStatus, UserWorld, ()> {
    var p := Parent(o, w, e.At(ParentRead));
    if p.Err? then Outcome(o, w, Err(p.error)) else
    if !e.At(GetService).Works? then Outcome(p.value, w, Err(Api(e.At(GetService).status))) else
    var given := if o.spec.passwordRef.Some? then DesiredPassword(o.spec, w, e.At(SecretRead)) else Ok(Some(""));
    if given.Err? then Outcome(p.value, w, Err(given.error)) else
    if given.value.None? then Outcome(p.value, w, Err(DependencyNotReady)) else
    var (w1, made) := NewUser(w, given.value.value, o.spec, e);
    if made.Err? then Outcome(p.value, w1, if IsConflict(made.error) then Ok(()) else Err(made.error)) else
    var (w2, written) := WriteCredentials(w1, if o.spec.passwordRef.Some? then given.value.value
        else made.value, e.At(SecretWrite));
    Outcome(p.value.(id := USERNAME, status := p.value.status.(primary := false)), w2, written)
  }

  function RemoveUser(w: UserWorld, f: Fault): (UserWorld, Result<()>) {
    if w.user.None? then (w, Answer(f, Err(Api(NOT_FOUND))))
    else if w.user.value.primary then (w, Answer(f, Err(Api(CONFLICT))))
    else (if TakesEffect(f) then w.(user := None) else w, Answer(f, Ok(())))
  }

  function Delete(o: UserCR, w: UserWorld, e: Env): Outcome<UserSpec, UserStatus, UserWorld, ()> {
    if !o.status.parentKnown || o.id == NO_UUID then Outcome(o, w, Ok(())) else
    if o.status.primary then Outcome(o, w, Err(Other)) else
    var (w', d) := RemoveUser(w, e.At(DeleteCall));
    Outcome(o, w', if d.Ok? || IsNotFound(d.error) then Ok(()) else if IsConflict(d.error) then Err(Pending) else d)
  }

  const Ops: Adapter<UserSpec, UserStatus, UserWorld, Env> := Adapter(Observe, Create, Update, Delete)

  // ---- The adapter as an object

  class UserObject {
    var cr: UserCR

    constructor (cr: UserCR)
      ensures this.cr == cr
    {
      this.cr := cr;
    }
  }

  class AdapterObject {
    var world: UserWorld

    constructor (w: UserWorld)
      ensures world == w
    {
      world := w;
    }

    method ParentOf(u: UserObject, f: Fault) returns (r: Result<()>)
      modifies u
      ensures var p := Parent(old(u.cr), world, f);
              if p.Ok? then r.Ok? && u.cr == p.value else r == Err(p.error) && u.cr == old(u.cr)
    {
      if u.cr.status.parentKnown {
        return Ok(());
      }
      if !f.Works? {
        return Err(Other);
      }
      if !world.parentReady {
        return Err(DependencyNotReady);
      }
      u.cr := u.cr.(status := u.cr.status.(parentKnown := true));
      return Ok(());
    }

    method WriteSecret(password: string, f: Fault) returns (r: Result<()>)
      modifies this
      ensures (world, r) == WriteCredentials(old(world), password, f)
    {
      if !f.Refused? {
        world := world.(credentials := Some(Credentials(world, password)));
      }
      return if f.Works? then Ok(()) else Err(Other);
    }

    method ObserveCall(u: UserObject, e: Env) returns (r: Result<Observation>)
      modifies this, u
      ensures Outcome(u.cr, world, r) == Observe(old(u.cr), old(world), e)
    {
      var p := ParentOf(u, e.At(ParentRead));
      if p.Err? {
        return Err(p.error);
      }
      if !e.At(GetUser).Works? {
        return Err(Api(e.At(GetUser).status));
      }
      if world.user.None? {
        return Ok(ABSENT);
      }
      var user := world.user.value;
      u.cr := u.cr.(id := USERNAME, status := UserStatus(true, user.primary));
      var desired := DesiredPassword(u.cr.spec, world, e.At(SecretRead));
      if desired.Err? {
        return Err(desired.error);
      }
      if desired.value.None? {
        if u.cr.spec.passwordRef.Some? {
          return Err(DependencyNotReady);
        }
        if !e.At(GetService).Works? {
          return Err(Api(e.At(GetService).status));
        }
        var written := WriteSecret(user.password, e.At(SecretWrite));
        if written.Err? {
          return Err(written.error);
        }
      } else if user.password != desired.value.value {
        return Ok(Observation(true, false, true));
      }
      return Ok(Observation(true, AccessMatches(u.cr.spec.access, user.access), true));
    }

    method ModifyUser(password: string, authentication: string, f: Fault) returns (r: Result<()>)
      modifies this
      ensures (world, r) == ModifyPassword(old(world), password, authentication, f)
    {
      if f.Refused? {
        return Err(Api(f.status));
      }
      if world.user.None? {
        return Answer(f, Err(Api(NOT_FOUND)));
      }
      var user := world.user.value;
      if password != "" {
        user := user.(password := password);
      }
      world := world.(user := Some(user.(authentication := authentication)));
      return Answer(f, Ok(()));
    }

    method UpdateCall(u: UserObject, e: Env) returns (r: Result<()>)
      modifies this, u
      ensures Outcome(u.cr, world, r) == Update(old(u.cr), old(world), e)
    {
      var p := ParentOf(u, e.At(ParentRead));
      if p.Err? {
        return Err(p.error);
      }
      if !e.At(UpdateGetUser).Works? {
        return Err(Api(e.At(UpdateGetUser).status));
      }
      if world.user.None? {
        return Err(Pending);
      }
      var user := world.user.value;
      var desired := DesiredPassword(u.cr.spec, world, e.At(UpdateSecretRead));
      if desired.Err? {
        return Err(desired.error);
      }
      if desired.value.None? {
        return if u.cr.spec.passwordRef.Some? then Err(DependencyNotReady) else Ok(());
      }
      if user.password != desired.value.value {
        var m := ModifyUser(desired.value.value, u.cr.spec.authentication, e.At(PasswordCall));
        if m.Err? {
          return m;
        }
      }
      if !AccessMatches(u.cr.spec.access, user.access) {
        var (w, a) := ModifyAccess(world, u.cr.spec.access, e.At(AccessCall));
        world := w;
        return a;
      }
      return Ok(());
    }

    method AddUser(password: string, s: UserSpec, e: Env) returns (r: Result<string>)
      modifies this
      ensures (world, r) == NewUser(old(world), password, s, e)
    {
      var f := e.At(Site.CreateCall);
      if f.Refused? {
        return Err(Api(f.status));
      }
      if world.user.Some? {
        return Answer(f, Err(Api(CONFLICT)));
      }
      var used := if password == "" then e.generated else password;
      world := world.(user := Some(User(used, RequestOf(s.access), s.authentication, false)));
      return Answer(f, Ok(used));
    }

    method CreateUser(u: UserObject, e: Env) returns (r: Result<()>)
      modifies this, u
      ensures Outcome(u.cr, world, r) == Create(old(u.cr), old(world), e)
    {
      var p := ParentOf(u, e.At(ParentRead));
      if p.Err? {
        return Err(p.error);
      }
      if !e.At(GetService).Works? {
        return Err(Api(e.At(GetService).status));
      }
      var password := "";
      if u.cr.spec.passwordRef.Some? {
        var given := DesiredPassword(u.cr.spec, world, e.At(SecretRead));
        if given.Err? {
          return Err(given.error);
        }
        if given.value.None? {
          return Err(DependencyNotReady);
        }
        password := given.value.value;
      }
      var made := AddUser(password, u.cr.spec, e);
      if made.Err? {
        return if IsConflict(made.error) then Ok(()) else Err(made.error);
      }
      u.cr := u.cr.(id := USERNAME, status := u.cr.status.(primary := false));
      if u.cr.spec.passwordRef.None? {
        password := made.value;
      }
      r := WriteSecret(password, e.At(SecretWrite));
    }

    method DeleteUser(u: UserObject, e: Env) returns (r: Result<()>)
      modifies this
      ensures Outcome(u.cr, world, r) == Delete(old(u.cr), old(world), e)
    {
      if !u.cr.status.parentKnown || u.cr.id == NO_UUID {
        return Ok(());
      }
      if u.cr.status.primary {
        return Err(Other);
      }
      var (w, d) := RemoveUser(world, e.At(Site.DeleteCall));
      world := w;
      if d.Ok? || IsNotFound(d.error) {
        return Ok(());
      }
      return if IsConflict(d.error) then Err(Pending) else d;
    }
  }

  // ---- One call

  /** The source of truth for the password holds the cloud's: the Secret the spec refers to, or else the
      credentials Secret. */
  predicate Agreement(s: UserSpec, w: UserWorld) {
    && w.user.Some?
    && match s.passwordRef
       case Some((name, key)) => name in w.others && key in w.others[name]
         && w.others[name][key] == w.user.value.password
       case None =>
         && w.credentials.Some? && "password" in w.credentials.value
         && w.credentials.value["password"] == w.user.value.password
  }

  /** The cloud grants what the spec's blocks say, block by block. */
  predicate Granted(spec: Access, cloud: Access) {
    && cloud.pg == spec.pg
    && cloud.valkey == spec.valkey
    && (spec.openSearch.None? ==> cloud.openSearch.None?)
    && (spec.openSearch.Some? ==>
          cloud.openSearch == Some(Some(if spec.openSearch.value.Some? then spec.openSearch.value.value else [])))
  }

  /** The access comparison decides that, and so tells any difference in any block. */
  lemma AccessMatchesIff(spec: Access, cloud: Access)
    ensures AccessMatches(spec, cloud) <==> Granted(spec, cloud)
  {
  }

  /** An observation of Exists and UpToDate leaves the source of truth in agreement with the cloud - found
      so, or healed - and the access granted. Observing never touches the user. */
  lemma CredentialsAgree(o: UserCR, w: UserWorld, e: Env)
    requires var r := Observe(o, w, e).result; r.Ok? && r.value.present && r.value.upToDate
    ensures var w' := Observe(o, w, e).world;
            && w'.user == w.user && Agreement(o.spec, w') && Granted(o.spec.access, w.user.value.access)
            && (o.spec.passwordRef.Some? ==> w' == w)
  {
    var p := Parent(o, w, e.At(ParentRead));
    var desired := DesiredPassword(o.spec, w, e.At(SecretRead));
    assert p.Ok? && w.user.Some? && desired.Ok?;
    AccessMatchesIff(o.spec.access, w.user.value.access);
    if desired.value.Some? {
      assert Observe(o, w, e).world == w;
    } else {
      assert Observe(o, w, e).world == WriteCredentials(w, w.user.value.password, e.At(SecretWrite)).0;
    }
  }

  /** The password the spec's source holds, if the source is there. */
  predicate Source(s: UserSpec, w: UserWorld, password: string) {
    DesiredPassword(s, w, Works) == Ok(Some(password))
  }

  /** The request can express the block: no Valkey list is present but empty. */
  predicate Expressible(a: Access) {
    a.valkey.Some? ==>
      var v := a.valkey.value;
      v.categories != Some([]) && v.channels != Some([]) && v.commands != Some([]) && v.keys != Some([])
  }

  lemma SentAccessMatchesIffExpressible(a: Access)
    ensures AccessMatches(a, RequestOf(a)) <==> Expressible(a)
  {
    if a.valkey.Some? {
      assert forall x: Slice :: Requested(x) == x <==> x != Some([]);
    }
  }

  /** The user after both repairs. */
  function Repaired(s: UserSpec, user: User, password: string): User {
    user.(password := if password != "" then password else user.password,
          authentication := if user.password != password then s.authentication else user.authentication,
          access := if AccessMatches(s.access, user.access) then user.access else RequestOf(s.access))
  }

  lemma StepsRepair(s: UserSpec, w: UserWorld, password: string, f: Fault, g: Fault)
    requires w.user.Some? && PasswordStep(s, w, w.user.value, password, f).1.Ok?
    requires AccessStep(s, PasswordStep(s, w, w.user.value, password, f).0, w.user.value, g).1.Ok?
    ensures AccessStep(s, PasswordStep(s, w, w.user.value, password, f).0, w.user.value, g).0
            == w.(user := Some(Repaired(s, w.user.value, password)))
  {
    var w1 := PasswordStep(s, w, w.user.value, password, f).0;
    assert w1.user.Some? && w1 == w.(user := w1.user);
  }

  lemma UpdateRepairs(o: UserCR, w: UserWorld, e: Env, password: string)
    requires Source(o.spec, w, password) && Update(o, w, e).result.Ok?
    ensures w.user.Some? && Parent(o, w, e.At(ParentRead)).Ok?
    ensures Update(o, w, e).obj == Parent(o, w, e.At(ParentRead)).value
    ensures Update(o, w, e).world == w.(user := Some(Repaired(o.spec, w.user.value, password)))
  {
    var desired := DesiredPassword(o.spec, w, e.At(UpdateSecretRead));
    assert desired == Ok(Some(password));
    StepsRepair(o.spec, w, password, e.At(PasswordCall), e.At(AccessCall));
  }

  /** With the source there, an observation compares it and the access control with the user. */
  lemma SeenWithSource(o: UserCR, w: UserWorld, e: Env, password: string)
    requires e.faults == map[] && w.user.Some? && Source(o.spec, w, password) && Parent(o, w, Works).Ok?
    ensures var user := w.user.value;
            Observe(o, w, e) == Outcome(o.(id := USERNAME, status := UserStatus(true, user.primary)), w,
                                        Ok(Observation(true, user.password == password
                                          && AccessMatches(o.spec.access, user.access), true)))
  {
  }

  /** Without it, an observation makes the credentials Secret hold the user's password. */
  lemma SeenHealing(o: UserCR, w: UserWorld, e: Env)
    requires e.faults == map[] && w.user.Some? && o.spec.passwordRef.None? && w.credentials.None?
        && Parent(o, w, Works).Ok?
    ensures var user := w.user.value;
            Observe(o, w, e) == Outcome(o.(id := USERNAME, status := UserStatus(true, user.primary)),
                                        w.(credentials := Some(Credentials(w, user.password))),
                                        Ok(Observation(true, AccessMatches(o.spec.access, user.access), true)))
  {
  }

  /** A password rotated in the Secret reaches the cloud through Update exactly when it is not empty. */
  lemma RotatedPasswordReachesCloud(o: UserCR, w: UserWorld, e: Env, password: string)
    requires Source(o.spec, w, password) && Update(o, w, e).result.Ok?
    ensures w.user.Some? && Update(o, w, e).world.user.Some?
    ensures Update(o, w, e).world.user.value.password == password <==> password != "" || w.user.value.password == ""
  {
    UpdateRepairs(o, w, e, password);
  }

  /** After an update that returns nil the next observation is up to date exactly when the password can
      be sent and the access control either matched already or can be expressed. */
  lemma UpdateRepairsIff(o: UserCR, w: UserWorld, e: Env, password: string, next: Env)
    requires Source(o.spec, w, password) && Update(o, w, e).result.Ok? && next.faults == map[]
    ensures w.user.Some?
    ensures var r := Observe(Update(o, w, e).obj, Update(o, w, e).world, next).result;
            r.Ok? && r.value.present
            && (r.value.upToDate <==>
                  && (password != "" || w.user.value.password == "")
                  && (AccessMatches(o.spec.access, w.user.value.access) || Expressible(o.spec.access)))
  {
    UpdateRepairs(o, w, e, password);
    SentAccessMatchesIffExpressible(o.spec.access);
    var u := Update(o, w, e);
    assert Source(u.obj.spec, u.world, password);
    SeenWithSource(u.obj, u.world, next, password);
  }

  /** What a successful create leaves: the user, and the password it was given or got in the Secret. */
  lemma CreateMakes(o: UserCR, w: UserWorld, e: Env)
    requires w.user.None? && e.At(CreateCall).Works? && Create(o, w, e).result.Ok?
    ensures var c := Create(o, w, e);
            var given := if o.spec.passwordRef.None? then "" else DesiredPassword(o.spec, w, Works).value.value;
            var used := if given == "" then e.generated else given;
            && (o.spec.passwordRef.Some? ==> Source(o.spec, w, given))
            && Parent(o, w, e.At(ParentRead)).Ok? && c.obj == o.(id := USERNAME, status := UserStatus(true, false))
            && c.world == w.(user := Some(User(used, RequestOf(o.spec.access), o.spec.authentication, false)),
                             credentials := Some(Credentials(w, if o.spec.passwordRef.Some? then given else used)))
  {
  }

  /** A create that made the user and reports success leaves it up to date, unless a Valkey list is
      present but empty, or the referenced password is empty and the API made one up. */
  lemma CreatedUserUpToDate(o: UserCR, w: UserWorld, e: Env, next: Env)
    requires w.user.None? && e.At(CreateCall).Works? && Create(o, w, e).result.Ok? && e.generated != ""
        && next.faults == map[]
    ensures var r := Observe(Create(o, w, e).obj, Create(o, w, e).world, next).result;
            r.Ok? && r.value.present
            && (r.value.upToDate <==>
                 Expressible(o.spec.access) && (o.spec.passwordRef.Some? ==> !Source(o.spec, w, "")))
  {
    CreateMakes(o, w, e);
    SentAccessMatchesIffExpressible(o.spec.access);
    var c := Create(o, w, e);
    var source := if o.spec.passwordRef.Some? then DesiredPassword(o.spec, w, Works).value.value
        else c.world.user.value.password;
    assert Source(c.obj.spec, c.world, source);
    SeenWithSource(c.obj, c.world, next, source);
  }

  // ---- What the calls mean

  /** With the source of the password there, the verdict is that it agrees and the access is granted. */
  lemma ObservedUserIff(o: UserCR, w: UserWorld, e: Env)
    requires e.faults == map[] && w.user.Some? && (o.status.parentKnown || w.parentReady)
    requires match o.spec.passwordRef
             case Some((name, key)) => name in w.others && key in w.others[name]
             case None => w.credentials.Some? && "password" in w.credentials.value
    ensures var v := Observe(o, w, e);
            && v.result.Ok? && v.result.value.present && v.result.value.ready && v.world == w
            && (v.result.value.upToDate <==> Agreement(o.spec, w) && Granted(o.spec.access, w.user.value.access))
            && v.obj.id != NO_UUID && v.obj.status == UserStatus(true, w.user.value.primary)
  {
  }

  /** What the healed or newly written credentials Secret holds. */
  lemma CredentialsAre(w: UserWorld, password: string)
    ensures var data := Credentials(w, password);
            && data.Keys == {"username", "password", "host", "port", "uri"}
            && data["username"] == w.username && data["password"] == password
            && data["host"] == w.service.host && data["port"] == w.service.port
            && data["uri"] ==
                 "postgresql://" + w.username + ":" + password + "@" + w.service.host + ":" + w.service.port
                 + "/" + w.service.database + "?sslmode=" + w.service.sslMode
  {
  }

  /** An update that returns nil leaves the access granted if it was, or if it can be expressed; and sends
      the authentication along with a password. */
  lemma UpdatedAccess(o: UserCR, w: UserWorld, e: Env, password: string)
    requires Source(o.spec, w, password) && Update(o, w, e).result.Ok?
    ensures w.user.Some? && Update(o, w, e).world.user.Some?
    ensures Granted(o.spec.access, Update(o, w, e).world.user.value.access) <==>
              Granted(o.spec.access, w.user.value.access) || Expressible(o.spec.access)
    ensures Update(o, w, e).world.user.value.authentication ==
              if w.user.value.password != password then o.spec.authentication else w.user.value.authentication
    ensures Update(o, w, e).world.user.value.primary == w.user.value.primary
  {
    UpdateRepairs(o, w, e, password);
    SentAccessMatchesIffExpressible(o.spec.access);
  }

  /** What a successful create leaves, field by field. */
  lemma CreatedUserIs(o: UserCR, w: UserWorld, e: Env)
    requires w.user.None? && e.At(CreateCall).Works? && Create(o, w, e).result.Ok?
    ensures var w' := Create(o, w, e).world;
            && w'.user.Some? && w'.credentials.Some? && "password" in w'.credentials.value
            && var user, written := w'.user.value, w'.credentials.value["password"];
               && user.authentication == o.spec.authentication && !user.primary
               && (Granted(o.spec.access, user.access) <==> Expressible(o.spec.access))
               && match o.spec.passwordRef
                  case None => user.password == written == e.generated
                  case Some((name, key)) =>
                    && name in w.others && key in w.others[name] && written == w.others[name][key]
                    && user.password == if written != "" then written else e.generated
  {
    CreateMakes(o, w, e);
    SentAccessMatchesIffExpressible(o.spec.access);
  }

  /** A released resource's user is gone, unless it was orphaned or its identity was never on record. */
  lemma ReleasedUserGoneIff(t: Timers, o: UserCR, w: UserWorld, e: Env, write: Write)
    requires o.deleting && o.finalizer && PassOver(Ops, t, o, w, e, write).obj.None?
    ensures PassOver(Ops, t, o, w, e, write).world.user.None? <==>
              w.user.None? || (o.policy == DeletePolicy && o.status.parentKnown && o.id != NO_UUID)
  {
    DeletePassShape(Ops, t, o, w, e, write);
  }

  /** Without faults the user is deleted; a primary user never is. */
  lemma DeletedUserGoes(o: UserCR, w: UserWorld, e: Env)
    requires e.faults == map[] && o.status.parentKnown && o.id != NO_UUID
    requires w.user.Some? ==> w.user.value.primary == o.status.primary
    ensures if o.status.primary then Delete(o, w, e) == Outcome(o, w, Err(Other))
            else Delete(o, w, e) == Outcome(o, w.(user := None), Ok(()))
  {
  }

  /** Until the parent is known it must be Ready. */
  lemma ParentGate(o: UserCR, w: UserWorld, e: Env)
    requires !o.status.parentKnown && !w.parentReady && e.At(ParentRead).Works?
    ensures Observe(o, w, e) == Outcome(o, w, Err(DependencyNotReady))
    ensures Update(o, w, e) == Outcome(o, w, Err(DependencyNotReady))
    ensures Create(o, w, e) == Outcome(o, w, Err(DependencyNotReady))
  {
  }

  /** Whatever cannot be read is reported as it is, and nothing is changed for it. */
  lemma FailedReads(o: UserCR, w: UserWorld, e: Env)
    requires o.status.parentKnown
    ensures !e.At(GetUser).Works? ==> Observe(o, w, e) == Outcome(o, w, Err(Api(e.At(GetUser).status)))
    ensures !e.At(UpdateGetUser).Works? ==> Update(o, w, e) == Outcome(o, w, Err(Api(e.At(UpdateGetUser).status)))
    ensures e.At(UpdateGetUser).Works? && w.user.None? ==> Update(o, w, e) == Outcome(o, w, Err(Pending))
    ensures e.At(GetUser).Works? && w.user.None? ==>
        Observe(o, w, e) == Outcome(o, w, Ok(Observation(false, false, false)))
    ensures !e.At(GetService).Works? ==> Create(o, w, e) == Outcome(o, w, Err(Api(e.At(GetService).status)))
  {
  }

  /** The password's source: a Secret that is missing is waited for, or healed if it is the operator's own; one
      without the key, or not readable, is an error. */
  lemma UnusableSource(o: UserCR, w: UserWorld, e: Env)
    requires o.status.parentKnown && e.At(GetUser).Works? && w.user.Some?
    ensures var v := Observe(o, w, e);
            && (!e.At(SecretRead).Works? ==> v.result == Err(Other) && v.world == w)
            && (e.At(SecretRead).Works? ==>
                  match o.spec.passwordRef
                  case Some((name, key)) =>
                    && (name !in w.others ==> v.result == Err(DependencyNotReady) && v.world == w)
                    && (name in w.others && key !in w.others[name] ==> v.result == Err(Other) && v.world == w)
                  case None =>
                    && (w.credentials.Some? && "password" !in w.credentials.value ==>
                         v.result == Err(Other) && v.world == w)
                    && (w.credentials.None? && !e.At(GetService).Works? ==>
                          v.result == Err(Api(e.At(GetService).status)) && v.world == w)
                    && (w.credentials.None? && e.At(GetService).Works? && e.At(SecretWrite).Works? ==>
                          v.result.Ok? && v.world == w.(credentials := Some(Credentials(w, w.user.value.password)))))
  {
  }

  /** A name already taken is adopted as it is. */
  lemma TakenNameIsAdopted(o: UserCR, w: UserWorld, e: Env)
    requires e.faults == map[] && o.status.parentKnown && w.user.Some?
    requires o.spec.passwordRef.Some? ==>
        DesiredPassword(o.spec, w, Works).Ok? && DesiredPassword(o.spec, w, Works).value.Some?
    ensures Create(o, w, e) == Outcome(o, w, Ok(()))
  {
  }
}
