/** ObjectStorageUser policies (internal/controller/objectstorage/objectstorageuser_adapter.go): the
    attach and detach loops against the object storage API. */
module UserPolicies {
  import opened Support
  import opened Sorting
  import opened Reconciler

  function SetOf(s: seq<string>): set<string> { set x | x in s }

  lemma SetOfAppend(s: seq<string>, x: string)
    ensures SetOf(s + [x]) == SetOf(s) + {x}
  {
  }

  ghost predicate Distinct(s: seq<string>) { DistinctKeys(s, Same) }

  /** What separates the attached policies from the desired ones. */
  function Delta(desired: set<string>, attached: set<string>): set<string> {
    (desired - attached) + (attached - desired)
  }

  /** Going from `before` to `now`, the distance to the spec fell by exactly the calls that took effect. */
  predicate Approach(desired: set<string>, before: set<string>, now: set<string>, effects: int) {
    |Delta(desired, now)| + effects == |Delta(desired, before)|
  }

  /** Attaching k missing policies, or detaching k superfluous ones, brings the user k policies closer. */
  lemma AttachingApproaches(desired: set<string>, before: set<string>, gained: set<string>)
    requires gained <= desired - before
    ensures Approach(desired, before, before + gained, |gained|)
  {
    assert Delta(desired, before + gained) == Delta(desired, before) - gained;
    assert gained <= Delta(desired, before);
  }

  lemma DetachingApproaches(desired: set<string>, before: set<string>, lost: set<string>)
    requires lost <= before - desired
    ensures Approach(desired, before, before - lost, |lost|)
  {
    assert Delta(desired, before - lost) == Delta(desired, before) - lost;
    assert lost <= Delta(desired, before);
  }

  lemma SameSet(a: seq<string>, b: seq<string>)
    requires multiset(a) == multiset(b)
    ensures SetOf(a) == SetOf(b)
  {
    forall x ensures x in SetOf(a) <==> x in SetOf(b) {
      assert x in multiset(a) <==> x in a;
      assert x in multiset(b) <==> x in b;
    }
  }

  /** Sorted lists without repeats are equal exactly when they hold the same names. */
  lemma SortedListsEqualIffSameNames(a: seq<string>, b: seq<string>)
    requires SortedBy(a, Same) && SortedBy(b, Same) && Distinct(a) && Distinct(b)
    ensures a == b <==> SetOf(a) == SetOf(b)
  {
    if SetOf(a) == SetOf(b) {
      forall x ensures multiset(a)[x] == multiset(b)[x] {
        OneOccurrence(a, Same, x);
        OneOccurrence(b, Same, x);
        assert x in multiset(a) <==> x in SetOf(a);
        assert x in multiset(b) <==> x in SetOf(b);
      }
      SortedStringsUnique(a, b);
    }
  }

  method EqualStringSlices(a: seq<string>, b: seq<string>) returns (r: bool)
    ensures r <==> a == b
  {
    if |a| != |b| {
      return false;
    }
    for i := 0 to |a|
      invariant forall k :: 0 <= k < i ==> a[k] == b[k]
    {
      if a[i] != b[i] {
        return false;
      }
    }
    return true;
  }

  /** One user of one service: whether it exists, the policies attached to it, how many mutating calls were
      made and how many of them changed anything. */
  datatype UserCloud = UserCloud(userExists: bool, attached: set<string>, calls: nat, effects: nat)

  /** Which mutating call fails next, and how; a pass ends at its first failing call, so one is all an
      environment can deal it. */
  type Failing = Option<(nat, Fault)>

  function FaultAt(failing: Failing, n: nat): Fault {
    if failing.Some? && failing.value.0 == n then failing.value.1 else Works
  }

  /** One call more, of which `after` would be the effect. */
  function Called(c: UserCloud, after: UserCloud, f: Fault): UserCloud {
    if TakesEffect(f) && after != c then after.(calls := c.calls + 1, effects := c.effects + 1)
      else c.(calls := c.calls + 1)
  }

  function CreateUser(c: UserCloud, f: Fault): (UserCloud, Result<()>) {
    if c.userExists then (Called(c, c, f), Answer(f, Err(Api(CONFLICT))))
    else (Called(c, c.(userExists := true, attached := {}), f), Answer(f, Ok(())))
  }

  function AttachPolicy(c: UserCloud, policies: set<string>, name: string, f: Fault): (UserCloud, Result<()>) {
    if !c.userExists || name !in policies then (Called(c, c, f), Answer(f, Err(Api(NOT_FOUND))))
    else (Called(c, c.(attached := c.attached + {name}), f), Answer(f, Ok(())))
  }

  function DetachPolicy(c: UserCloud, name: string, f: Fault): (UserCloud, Result<()>) {
    if !c.userExists || name !in c.attached then (Called(c, c, f), Answer(f, Err(Api(NOT_FOUND))))
    else (Called(c, c.(attached := c.attached - {name}), f), Answer(f, Ok(())))
  }

  /** `policies` are the policies the service has, `attached` those attached to the user; the API lists them
      in any order and holds each once. */
  class ObjectStorageAPI {
    const policies: set<string>
    const arn: string
    const failing: Failing
    var userExists: bool
    var attached: set<string>
    var calls: nat
    var effects: nat

    constructor (policies: set<string>, arn: string, failing: Failing)
      ensures this.policies == policies && this.arn == arn && this.failing == failing
      ensures Cloud() == UserCloud(false, {}, 0, 0)
    {
      this.policies, this.arn, this.failing := policies, arn, failing;
      userExists, attached, calls, effects := false, {}, 0, 0;
    }

    function Cloud(): UserCloud
      reads this
    {
      UserCloud(userExists, attached, calls, effects)
    }

    method Create() returns (r: Result<()>)
      modifies this
      ensures (Cloud(), r) == CreateUser(old(Cloud()), FaultAt(failing, old(calls)))
    {
      var f := FaultAt(failing, calls);
      calls := calls + 1;
      if f.Refused? {
        return Err(Api(f.status));
      }
      if userExists {
        return Answer(f, Err(Api(CONFLICT)));
      }
      userExists, attached, effects := true, {}, effects + 1;
      return Answer(f, Ok(()));
    }

    method Attach(name: string) returns (r: Result<()>)
      modifies this`attached, this`calls, this`effects
      ensures (Cloud(), r) == AttachPolicy(old(Cloud()), policies, name, FaultAt(failing, old(calls)))
    {
      var f := FaultAt(failing, calls);
      calls := calls + 1;
      if f.Refused? {
        return Err(Api(f.status));
      }
      if !userExists || name !in policies {
        return Answer(f, Err(Api(NOT_FOUND)));
      }
      if name !in attached {
        attached, effects := attached + {name}, effects + 1;
      } else {
        assert attached + {name} == attached;
      }
      return Answer(f, Ok(()));
    }

    method Detach(name: string) returns (r: Result<()>)
      modifies this`attached, this`calls, this`effects
      ensures (Cloud(), r) == DetachPolicy(old(Cloud()), name, FaultAt(failing, old(calls)))
    {
      var f := FaultAt(failing, calls);
      calls := calls + 1;
      if f.Refused? {
        return Err(Api(f.status));
      }
      if !userExists || name !in attached {
        return Answer(f, Err(Api(NOT_FOUND)));
      }
      assert name !in attached - {name};
      attached, effects := attached - {name}, effects + 1;
      return Answer(f, Ok(()));
    }
  }

  /** Policy names in the spec, and references resolved to names; `readyRefs` are the referenced
      policy resources that are Ready. */
  datatype UserSpec = UserSpec(policies: seq<string>, policyRefs: seq<string>)

  predicate RefsReady(spec: UserSpec, readyRefs: map<string, string>) {
    forall r :: r in spec.policyRefs ==> r in readyRefs
  }

  function Wanted(spec: UserSpec, readyRefs: map<string, string>): set<string> {
    SetOf(spec.policies) + set r | r in spec.policyRefs && r in readyRefs :: readyRefs[r]
  }

  ghost predicate Lists(s: seq<string>, names: set<string>) { SortedBy(s, Same) && Distinct(s) && SetOf(s) == names }

  lemma {:induction false} ListingExists(names: set<string>) returns (s: seq<string>)
    ensures Lists(s, names)
    decreases |names|
  {
    if names == {} {
      return [];
    }
    var x :| x in names;
    var rest := ListingExists(names - {x});
    s := SortExists(rest + [x], Same);
    assert x !in SetOf(rest);
    SetOfAppend(rest, x);
    PermutationKeepsDistinct(rest + [x], s, Same);
    SameSet(s, rest + [x]);
  }

  lemma Listable(names: set<string>)
    ensures exists s :: Lists(s, names)
  {
    var s := ListingExists(names);
  }

  /** The one sorted list of a set of names. */
  ghost function Listing(names: set<string>): (s: seq<string>)
    ensures Lists(s, names)
  {
    Listable(names);
    var s :| Lists(s, names);
    s
  }

  /** A set, listed in any order, then sorted. */
  method SortedNames(names: set<string>) returns (out: seq<string>)
    ensures out == Listing(names)
  {
    out := [];
    var rest := names;
    while rest != {}
      invariant rest <= names && Distinct(out) && SetOf(out) == names - rest
      decreases |rest|
    {
      var x :| x in rest;
      rest := rest - {x};
      assert x !in SetOf(out);
      SetOfAppend(out, x);
      out := out + [x];
    }
    var listed := out;
    out := SortFunc(out, Same);
    PermutationKeepsDistinct(listed, out, Same);
    SameSet(out, listed);
    SortedListsEqualIffSameNames(out, Listing(names));
  }

  /** The names a spec asks for, sorted; an error unless every reference is Ready. */
  ghost function Desired(spec: UserSpec, readyRefs: map<string, string>): Result<seq<string>> {
    if RefsReady(spec, readyRefs) then Ok(Listing(Wanted(spec, readyRefs))) else Err(DependencyNotReady)
  }

  method DesiredPolicies(spec: UserSpec, readyRefs: map<string, string>) returns (r: Result<seq<string>>)
    ensures r == Desired(spec, readyRefs)
  {
    var names: set<string> := {};
    for i := 0 to |spec.policies|
      invariant names == SetOf(spec.policies[..i])
    {
      assert spec.policies[..i + 1] == spec.policies[..i] + [spec.policies[i]];
      SetOfAppend(spec.policies[..i], spec.policies[i]);
      names := names + {spec.policies[i]};
    }
    assert spec.policies[..|spec.policies|] == spec.policies;
    for i := 0 to |spec.policyRefs|
      invariant forall k :: 0 <= k < i ==> spec.policyRefs[k] in readyRefs
      invariant forall x :: x in names <==>
                  x in SetOf(spec.policies) || exists k :: 0 <= k < i && x == readyRefs[spec.policyRefs[k]]
    {
      if spec.policyRefs[i] !in readyRefs {
        assert spec.policyRefs[i] in spec.policyRefs;
        return Err(DependencyNotReady);
      }
      names := names + {readyRefs[spec.policyRefs[i]]};
    }
    assert RefsReady(spec, readyRefs) by {
      forall r | r in spec.policyRefs ensures r in readyRefs {
        var k :| 0 <= k < |spec.policyRefs| && spec.policyRefs[k] == r;
      }
    }
    forall x ensures x in names <==> x in Wanted(spec, readyRefs) {
      if k :| 0 <= k < |spec.policyRefs| && x == readyRefs[spec.policyRefs[k]] {
        assert spec.policyRefs[k] in spec.policyRefs;
      }
    }
    assert names == Wanted(spec, readyRefs);
    var out := SortedNames(names);
    return Ok(out);
  }

  /** What is recorded: whether the service is known, the user's ARN, and the policies last seen attached. */
  datatype UserStatus = UserStatus(serviceKnown: bool, arn: string, attachedPolicies: seq<string>)

  type UserCR = CR<UserSpec, UserStatus>

  /** The identity on record is the username, which never changes. */
  const USERNAME: Uuid := 1

  /** What Kubernetes shows: the referenced policy resources that are Ready, and whether the service is. */
  datatype Kube = Kube(readyRefs: map<string, string>, serviceReady: bool)

  datatype PolicyWorld = PolicyWorld(cloud: UserCloud, policies: set<string>, arn: string, kube: Kube)

  /** The fates of the reads of a pass, and which mutating call fails. */
  datatype Env = Env(service: Fault, user: Fault, policies: Fault, updateUser: Fault, updatePolicies: Fault,
                     failing: Failing)

  /** The service must be Ready once and is then remembered. */
  function Service(o: UserCR, kube: Kube, f: Fault): Result<UserCR> {
    if o.status.serviceKnown then Ok(o)
    else if !f.Works? then Err(Other)
    else if !kube.serviceReady then Err(DependencyNotReady)
    else Ok(o.(status := o.status.(serviceKnown := true)))
  }

  ghost function Current(c: UserCloud, f: Fault): Result<seq<string>> {
    if f.Works? then Ok(Listing(c.attached)) else Err(Api(f.status))
  }

  ghost function Observe(o: UserCR, w: PolicyWorld, e: Env): Outcome<UserSpec, UserStatus, PolicyWorld, Observation> {
    var p := Service(o, w.kube, e.service);
    if p.Err? then Outcome(o, w, Err(p.error)) else
    if !e.user.Works? then Outcome(p.value, w, Err(Api(e.user.status))) else
    if !w.cloud.userExists then Outcome(p.value, w, Ok(ABSENT)) else
    var u := p.value.(id := USERNAME, status := p.value.status.(arn := w.arn));
    var attached := Current(w.cloud, e.policies);
    if attached.Err? then Outcome(u, w, Err(attached.error)) else
    var seen := u.(status := u.status.(attachedPolicies := attached.value));
    var desired := Desired(o.spec, w.kube.readyRefs);
    if desired.Err? then Outcome(seen, w, Err(desired.error)) else
    Outcome(seen, w, Ok(Observation(true, attached.value == desired.value, true)))
  }

  /** Attach what is in `todo` and not in `known`, in order, up to the first failure. */
  function AttachLoop(
    todo: seq<string>, known: seq<string>, c: UserCloud, policies: set<string>, failing: Failing): (UserCloud,
    Result<()>) {
    if todo == [] then (c, Ok(()))
    else if todo[0] in known then AttachLoop(todo[1..], known, c, policies, failing)
    else
      var (c1, r) := AttachPolicy(c, policies, todo[0], FaultAt(failing, c.calls));
      if r.Err? then (c1, r) else AttachLoop(todo[1..], known, c1, policies, failing)
  }

  /** One step of the loop, seen from position i of the list. */
  lemma AttachLoopStep(
    todo: seq<string>, i: nat, known: seq<string>, c: UserCloud, policies: set<string>, failing: Failing)
    requires i < |todo|
    ensures var (c1, r) := AttachPolicy(c, policies, todo[i], FaultAt(failing, c.calls));
            AttachLoop(todo[i..], known, c, policies, failing) ==
              if todo[i] in known then AttachLoop(todo[i + 1..], known, c, policies, failing)
              else if r.Err? then (c1, r)
              else AttachLoop(todo[i + 1..], known, c1, policies, failing)
  {
    assert todo[i..][1..] == todo[i + 1..];
  }

  lemma DetachLoopStep(todo: seq<string>, i: nat, wanted: seq<string>, c: UserCloud, failing: Failing)
    requires i < |todo|
    ensures var (c1, r) := DetachPolicy(c, todo[i], FaultAt(failing, c.calls));
            DetachLoop(todo[i..], wanted, c, failing) ==
              if todo[i] in wanted then DetachLoop(todo[i + 1..], wanted, c, failing)
              else if r.Err? then (c1, r)
              else DetachLoop(todo[i + 1..], wanted, c1, failing)
  {
    assert todo[i..][1..] == todo[i + 1..];
  }

  /** Detach what is in `todo` and not in `wanted`, in order, up to the first failure. */
  function DetachLoop(todo: seq<string>, wanted: seq<string>, c: UserCloud, failing: Failing): (UserCloud, Result<()>) {
    if todo == [] then (c, Ok(()))
    else if todo[0] in wanted then DetachLoop(todo[1..], wanted, c, failing)
    else
      var (c1, r) := DetachPolicy(c, todo[0], FaultAt(failing, c.calls));
      if r.Err? then (c1, r) else DetachLoop(todo[1..], wanted, c1, failing)
  }

  function BothLoops(
    desired: seq<string>, attached: seq<string>, c: UserCloud, policies: set<string>, failing: Failing): (UserCloud,
    Result<()>) {
    var (c1, r) := AttachLoop(desired, attached, c, policies, failing);
    if r.Err? then (c1, r) else DetachLoop(attached, desired, c1, failing)
  }

  ghost function Update(o: UserCR, w: PolicyWorld, e: Env): Outcome<UserSpec, UserStatus, PolicyWorld, ()> {
    var p := Service(o, w.kube, e.service);
    if p.Err? then Outcome(o, w, Err(p.error)) else
    if !e.updateUser.Works? then Outcome(p.value, w, Err(Api(e.updateUser.status))) else
    if !w.cloud.userExists then Outcome(p.value, w, Err(Pending)) else
    var desired := Desired(o.spec, w.kube.readyRefs);
    if desired.Err? then Outcome(p.value, w, Err(desired.error)) else
    var attached := Current(w.cloud, e.updatePolicies);
    if attached.Err? then Outcome(p.value, w, Err(attached.error)) else
    var (c, r) := BothLoops(desired.value, attached.value, w.cloud, w.policies, e.failing);
    Outcome(p.value, w.(cloud := c), r)
  }

  /** A 409 adopts the existing user; otherwise the desired policies are attached at once. */
  ghost function Create(o: UserCR, w: PolicyWorld, e: Env): Outcome<UserSpec, UserStatus, PolicyWorld, ()> {
    var p := Service(o, w.kube, e.service);
    if p.Err? then Outcome(o, w, Err(p.error)) else
    var (c, made) := CreateUser(w.cloud, FaultAt(e.failing, w.cloud.calls));
    if made.Err? then Outcome(p.value, w.(cloud := c), if IsConflict(made.error) then Ok(()) else made) else
    var u := p.value.(id := USERNAME, status := p.value.status.(arn := w.arn));
    var (c', r) := AttachDesired(o.spec, w.(cloud := c), e);
    Outcome(u, w.(cloud := c'), r)
  }

  ghost function AttachDesired(spec: UserSpec, w: PolicyWorld, e: Env): (UserCloud, Result<()>) {
    var desired := Desired(spec, w.kube.readyRefs);
    if desired.Err? then (w.cloud, Err(desired.error)) else
    var attached := Current(w.cloud, e.policies);
    if attached.Err? then (w.cloud, Err(attached.error)) else
    AttachLoop(desired.value, attached.value, w.cloud, w.policies, e.failing)
  }

  // ---- The adapter's methods

  class UserObject {
    var cr: UserCR

    constructor (cr: UserCR)
      ensures this.cr == cr
    {
      this.cr := cr;
    }
  }

  ghost function World(api: ObjectStorageAPI, kube: Kube): PolicyWorld
    reads api
  {
    PolicyWorld(api.Cloud(), api.policies, api.arn, kube)
  }

  method ServiceUUID(u: UserObject, kube: Kube, f: Fault) returns (r: Result<()>)
    modifies u
    ensures var p := Service(old(u.cr), kube, f);
            if p.Ok? then r.Ok? && u.cr == p.value else r == Err(p.error) && u.cr == old(u.cr)
  {
    if u.cr.status.serviceKnown {
      return Ok(());
    }
    if !f.Works? {
      return Err(Other);
    }
    if !kube.serviceReady {
      return Err(DependencyNotReady);
    }
    u.cr := u.cr.(status := u.cr.status.(serviceKnown := true));
    return Ok(());
  }

  method CurrentPolicies(api: ObjectStorageAPI, f: Fault) returns (r: Result<seq<string>>)
    ensures r == Current(api.Cloud(), f)
  {
    if !f.Works? {
      return Err(Api(f.status));
    }
    var names := SortedNames(api.attached);
    r := Ok(names);
  }

  /** Up to date exactly when the attached policies are the desired ones. Whatever could be read goes to
      the status. */
  method ObserveCall(u: UserObject, api: ObjectStorageAPI, kube: Kube, e: Env) returns (r: Result<Observation>)
    modifies u
    ensures Outcome(u.cr, World(api, kube), r) == Observe(old(u.cr), World(api, kube), e)
    ensures r.Ok? && r.value.present ==> (r.value.upToDate <==> api.attached == Wanted(u.cr.spec, kube.readyRefs))
  {
    var service := ServiceUUID(u, kube, e.service);
    if service.Err? {
      return Err(service.error);
    }
    if !e.user.Works? {
      return Err(Api(e.user.status));
    }
    if !api.userExists {
      return Ok(ABSENT);
    }
    u.cr := u.cr.(id := USERNAME, status := u.cr.status.(arn := api.arn));
    var attached := CurrentPolicies(api, e.policies);
    if attached.Err? {
      return Err(attached.error);
    }
    u.cr := u.cr.(status := u.cr.status.(attachedPolicies := attached.value));
    var desired := DesiredPolicies(u.cr.spec, kube.readyRefs);
    if desired.Err? {
      return Err(desired.error);
    }
    SortedListsEqualIffSameNames(attached.value, desired.value);
    var equal := EqualStringSlices(attached.value, desired.value);
    return Ok(Observation(true, equal, true));
  }

  /** The mutating calls numbered from `from` up to `to` go through. */
  predicate NoFaults(api: ObjectStorageAPI, from: nat, to: nat) {
    api.failing.Some? && from <= api.failing.value.0 < to ==> api.failing.value.1.Works?
  }

  lemma Fits(a: set<string>, b: set<string>)
    requires a <= b
    ensures |a| <= |b|
  {
    assert b == a + (b - a);
  }

  /** The calls a loop over `todo` has made when it reaches position i: one for each name of `due` so far. */
  ghost predicate Acted(todo: seq<string>, i: nat, due: set<string>, done: set<string>) {
    && i <= |todo| && done <= due
    && (forall j :: 0 <= j < i && todo[j] in due ==> todo[j] in done)
    && (forall j :: i <= j < |todo| ==> todo[j] !in done)
  }

  lemma ActedStep(todo: seq<string>, i: nat, due: set<string>, done: set<string>)
    requires i < |todo| && Distinct(todo) && Acted(todo, i, due, done)
    ensures todo[i] !in done
    ensures todo[i] !in due ==> Acted(todo, i + 1, due, done)
    ensures todo[i] in due ==> Acted(todo, i + 1, due, done + {todo[i]}) && |done + {todo[i]}| == |done| + 1 <= |due|
  {
    assert forall j :: i < j < |todo| ==> Same(todo[i]) != Same(todo[j]);
    if todo[i] in due {
      Fits(done + {todo[i]}, due);
    }
  }

  lemma ActedAll(todo: seq<string>, due: set<string>, done: set<string>)
    requires Acted(todo, |todo|, due, done) && due <= SetOf(todo)
    ensures done == due
  {
    forall x | x in due ensures x in done {
      assert x in todo;
    }
  }

  /** One needed attach call: it succeeds exactly when the policy exists and the call is not failed. */
  method AttachOne(api: ObjectStorageAPI, name: string, ghost before: set<string>, ghost gained: set<string>)
    returns (r: Result<()>, ghost gained': set<string>)
    requires api.userExists && name !in before + gained && api.attached == before + gained
    modifies api`attached, api`calls, api`effects
    ensures (api.Cloud(), r) == AttachPolicy(old(api.Cloud()), api.policies, name, FaultAt(api.failing, old(api.calls)))
    ensures api.calls == old(api.calls) + 1 && api.attached == before + gained'
    ensures r.Ok? <==> name in api.policies && NoFaults(api, old(api.calls), old(api.calls) + 1)
    ensures if name in gained' then gained' == gained + {name} && |gained'| == |gained| + 1
        && api.effects == old(api.effects) + 1
            else gained' == gained && api.effects == old(api.effects)
    ensures r.Ok? ==> name in gained'
  {
    r := api.Attach(name);
    gained' := if name in api.attached then gained + {name} else gained;
  }

  /** Attach every desired policy not in `attached`, one call each. The loop succeeds exactly when
      every missing policy exists and none of the calls it needs is failed. */
  method AttachMissing(api: ObjectStorageAPI, desired: seq<string>, attached: seq<string>, ghost missing: set<string>)
    returns (r: Result<()>, ghost gained: set<string>)
    requires api.userExists && Distinct(desired) && SetOf(attached) == api.attached
    requires missing == SetOf(desired) - api.attached
    modifies api`attached, api`calls, api`effects
    ensures (api.Cloud(), r) == AttachLoop(desired, attached, old(api.Cloud()), api.policies, api.failing)
    ensures api.attached == old(api.attached) + gained && gained <= missing
    ensures api.effects == old(api.effects) + |gained| && api.calls <= old(api.calls) + |missing|
    ensures r.Ok? ==> gained == missing && api.calls == old(api.calls) + |missing|
    ensures r.Ok? <==> missing <= api.policies && NoFaults(api, old(api.calls), old(api.calls) + |missing|)
  {
    gained := {};
    ghost var c0 := api.calls;
    for i := 0 to |desired|
      invariant AttachLoop(desired, attached, old(api.Cloud()), api.policies, api.failing)
                == AttachLoop(desired[i..], attached, api.Cloud(), api.policies, api.failing)
      invariant Acted(desired, i, missing, gained)
      invariant api.attached == old(api.attached) + gained
      invariant api.calls == c0 + |gained| && api.effects == old(api.effects) + |gained|
      invariant gained <= api.policies && NoFaults(api, c0, c0 + |gained|)
    {
      var name := desired[i];
      ActedStep(desired, i, missing, gained);
      AttachLoopStep(desired, i, attached, api.Cloud(), api.policies, api.failing);
      assert name in missing <==> name !in attached by {
        assert name in SetOf(desired);
      }
      if name !in attached {
        r, gained := AttachOne(api, name, old(api.attached), gained);
        if r.Err? {
          return;
        }
      }
    }
    ActedAll(desired, missing, gained);
    r := Ok(());
  }

  method DetachOne(api: ObjectStorageAPI, name: string, ghost before: set<string>, ghost lost: set<string>)
    returns (r: Result<()>, ghost lost': set<string>)
    requires api.userExists && name in before - lost && api.attached == before - lost
    modifies api`attached, api`calls, api`effects
    ensures (api.Cloud(), r) == DetachPolicy(old(api.Cloud()), name, FaultAt(api.failing, old(api.calls)))
    ensures api.calls == old(api.calls) + 1 && api.attached == before - lost'
    ensures r.Ok? <==> NoFaults(api, old(api.calls), old(api.calls) + 1)
    ensures if name in lost' then lost' == lost + {name} && |lost'| == |lost| + 1 && api.effects == old(api.effects) + 1
            else lost' == lost && api.effects == old(api.effects)
    ensures r.Ok? ==> name in lost'
  {
    r := api.Detach(name);
    lost' := if name in api.attached then lost else lost + {name};
  }

  /** Detach every attached policy that is not desired, one call each. */
  method DetachExtra(api: ObjectStorageAPI, desired: seq<string>, attached: seq<string>, ghost extra: set<string>)
    returns (r: Result<()>, ghost lost: set<string>)
    requires api.userExists && Distinct(attached) && SetOf(attached) <= api.attached
    requires extra == SetOf(attached) - SetOf(desired)
    modifies api`attached, api`calls, api`effects
    ensures (api.Cloud(), r) == DetachLoop(attached, desired, old(api.Cloud()), api.failing)
    ensures api.attached == old(api.attached) - lost && lost <= extra
    ensures api.effects == old(api.effects) + |lost| && api.calls <= old(api.calls) + |extra|
    ensures r.Ok? ==> lost == extra && api.calls == old(api.calls) + |extra|
    ensures r.Ok? <==> NoFaults(api, old(api.calls), old(api.calls) + |extra|)
  {
    lost := {};
    ghost var c0 := api.calls;
    for i := 0 to |attached|
      invariant DetachLoop(attached, desired, old(api.Cloud()), api.failing)
                == DetachLoop(attached[i..], desired, api.Cloud(), api.failing)
      invariant Acted(attached, i, extra, lost)
      invariant api.attached == old(api.attached) - lost
      invariant api.calls == c0 + |lost| && api.effects == old(api.effects) + |lost|
      invariant NoFaults(api, c0, c0 + |lost|)
    {
      var name := attached[i];
      ActedStep(attached, i, extra, lost);
      DetachLoopStep(attached, i, desired, api.Cloud(), api.failing);
      assert name in extra <==> name !in desired by {
        assert name in SetOf(attached);
      }
      if name !in desired {
        r, lost := DetachOne(api, name, old(api.attached), lost);
        if r.Err? {
          return;
        }
      }
    }
    ActedAll(attached, extra, lost);
    r := Ok(());
  }

  /** What an update pass has done: each call that took effect brought the user one policy closer to the
      spec; nothing both desired and attached was touched and nothing foreign to both appeared; the
      pass is complete exactly when it has made as many calls as the two sets differed by. */
  predicate Converged(
    desired: set<string>, before: set<string>, now: set<string>, calls: int, effects: int, complete: bool) {
    && Approach(desired, before, now, effects)
    && desired * before <= now <= desired + before
    && calls <= |Delta(desired, before)|
    && (complete ==> now == desired && calls == |Delta(desired, before)|)
  }

  /** The names gained by the first loop and lost by the second make up one converging pass. */
  lemma ApproachesCompose(
    want: set<string>, before: set<string>, gained: set<string>, lost: set<string>, now: set<string>, calls: int,
    complete: bool)
    requires gained <= want - before && lost <= before - want && now == before + gained - lost
    requires calls <= |want - before| + |before - want|
    requires complete ==> gained == want - before && lost == before - want && calls == |want - before| + |before - want|
    ensures Converged(want, before, now, calls, |gained| + |lost|, complete)
    ensures |Delta(want, before)| == |want - before| + |before - want|
  {
    AttachingApproaches(want, before, gained);
    DetachingApproaches(want, before + gained, lost);
  }

  /** Service, user, attached policies and references can all be read. */
  predicate Readable(o: UserCR, c: UserCloud, kube: Kube, e: Env) {
    && Service(o, kube, e.service).Ok? && e.updateUser.Works? && c.userExists && RefsReady(o.spec, kube.readyRefs)
    && e.updatePolicies.Works?
  }

  /** One update pass. Each call that takes effect brings the user one policy closer to the spec and
      none takes it further away; policies both desired and attached are never touched and none
      outside the two sets appears. It succeeds exactly when everything can be read, every missing policy
      exists and no call is failed; then the attached policies are the desired ones, after exactly as many
      calls as they differed by. */
  method UpdateCall(u: UserObject, api: ObjectStorageAPI, kube: Kube, e: Env) returns (r: Result<()>)
    requires e.failing == api.failing
    modifies u, api`attached, api`calls, api`effects
    ensures Outcome(u.cr, World(api, kube), r) == Update(old(u.cr), old(World(api, kube)), e)
    ensures !Readable(old(u.cr), old(api.Cloud()), kube, e) ==> r.Err? && api.Cloud() == old(api.Cloud())
    ensures Readable(old(u.cr), old(api.Cloud()), kube, e) ==>
              var desired, before := Wanted(u.cr.spec, kube.readyRefs), old(api.attached);
              && Converged(desired, before, api.attached, api.calls - old(api.calls), api.effects - old(api.effects),
                   r.Ok?)
              && (r.Ok? <==>
                   desired - before <= api.policies
                     && NoFaults(api, old(api.calls), old(api.calls) + |Delta(desired, before)|))
  {
    var service := ServiceUUID(u, kube, e.service);
    if service.Err? {
      return Err(service.error);
    }
    if !e.updateUser.Works? {
      return Err(Api(e.updateUser.status));
    }
    if !api.userExists {
      return Err(Pending);
    }
    var desired := DesiredPolicies(u.cr.spec, kube.readyRefs);
    if desired.Err? {
      return Err(desired.error);
    }
    var attached := CurrentPolicies(api, e.updatePolicies);
    if attached.Err? {
      return Err(attached.error);
    }
    r := Converge(api, desired.value, attached.value);
  }

  method CreateCall(u: UserObject, api: ObjectStorageAPI, kube: Kube, e: Env) returns (r: Result<()>)
    requires e.failing == api.failing
    modifies u, api
    ensures Outcome(u.cr, World(api, kube), r) == Create(old(u.cr), old(World(api, kube)), e)
  {
    var service := ServiceUUID(u, kube, e.service);
    if service.Err? {
      return Err(service.error);
    }
    var made := api.Create();
    if made.Err? {
      return if IsConflict(made.error) then Ok(()) else made;
    }
    u.cr := u.cr.(id := USERNAME, status := u.cr.status.(arn := api.arn));
    r := AttachDesiredCall(u.cr.spec, api, kube, e);
  }

  method AttachDesiredCall(spec: UserSpec, api: ObjectStorageAPI, kube: Kube, e: Env) returns (r: Result<()>)
    requires e.failing == api.failing && api.userExists
    modifies api`attached, api`calls, api`effects
    ensures (api.Cloud(), r) == AttachDesired(spec, old(World(api, kube)), e)
  {
    var desired := DesiredPolicies(spec, kube.readyRefs);
    if desired.Err? {
      return Err(desired.error);
    }
    var attached := CurrentPolicies(api, e.policies);
    if attached.Err? {
      return Err(attached.error);
    }
    ghost var gained;
    r, gained := AttachMissing(api, desired.value, attached.value, SetOf(desired.value) - api.attached);
  }

  /** The two loops, towards a resolved list of policies. */
  method Converge(api: ObjectStorageAPI, desired: seq<string>, attached: seq<string>) returns (r: Result<()>)
    requires api.userExists && Distinct(desired) && Distinct(attached) && SetOf(attached) == api.attached
    modifies api`attached, api`calls, api`effects
    ensures (api.Cloud(), r) == BothLoops(desired, attached, old(api.Cloud()), api.policies, api.failing)
    ensures Converged(SetOf(desired), old(api.attached), api.attached, api.calls - old(api.calls),
        api.effects - old(api.effects), r.Ok?)
    ensures r.Ok? <==> SetOf(desired) - old(api.attached) <= api.policies
                       && NoFaults(api, old(api.calls), old(api.calls) + |Delta(SetOf(desired), old(api.attached))|)
  {
    ghost var want, before := SetOf(desired), api.attached;
    ghost var c0, gained, lost := api.calls, {}, {};
    ghost var missing, extra := want - before, before - want;
    r, gained := AttachMissing(api, desired, attached, missing);
    if r.Err? {
      ApproachesCompose(want, before, gained, {}, api.attached, api.calls - c0, false);
      return;
    }
    assert before <= api.attached;
    r, lost := DetachExtra(api, desired, attached, extra);
    ApproachesCompose(want, before, gained, lost, api.attached, api.calls - c0, r.Ok?);
  }
}
