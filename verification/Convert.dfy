/** Route and subnet conversion and comparison (internal/controller/network/convert.go). */
module Convert {
  import opened Support
  import opened Strings
  import opened Sorting

  const USER_ROUTE := "user"
  const IPV4 := "IPv4"

  /** A static route; `kind` is the response-only Type attribute. */
  datatype StaticRoute = StaticRoute(name: string, route: string, nexthop: string, kind: string)

  datatype RouteSpec = RouteSpec(name: string, route: string, nexthop: string)

  datatype IPNetwork = IPNetwork(address: string, family: string, dhcp: bool, dhcpDefaultRoute: bool,
                                 dhcpDns: seq<string>, dhcpRoutes: seq<string>, gateway: string)

  datatype IPNetworkSpec = IPNetworkSpec(address: string, family: string, dhcp: Option<bool>,
                                         dhcpDefaultRoute: Option<bool>,
                                         dhcpDns: seq<string>, dhcpRoutes: seq<string>, gateway: string)

  // ---- Routes

  function RequestRoute(r: RouteSpec): StaticRoute { StaticRoute(r.name, r.route, r.nexthop, "") }

  function ToStaticRoutes(specs: seq<RouteSpec>): seq<StaticRoute> { Map(RequestRoute, specs) }

  method ToStaticRoutesLoop(specs: seq<RouteSpec>) returns (out: seq<StaticRoute>)
    ensures out == ToStaticRoutes(specs)
  {
    out := [];
    for i := 0 to |specs|
      invariant out == Map(RequestRoute, specs[..i])
    {
      assert specs[..i + 1] == specs[..i] + [specs[i]];
      MapAppend(RequestRoute, specs[..i], [specs[i]]);
      out := out + [StaticRoute(specs[i].name, specs[i].route, specs[i].nexthop, "")];
    }
    assert specs[..|specs|] == specs;
  }

  predicate IsUserRoute(r: StaticRoute) { r.kind == USER_ROUTE || r.kind == "" }

  function UserRoutes(routes: seq<StaticRoute>): seq<StaticRoute> {
    if routes == [] then []
    else (if IsUserRoute(routes[0]) then [routes[0].(kind := USER_ROUTE)] else []) + UserRoutes(routes[1..])
  }

  lemma {:induction false} UserRoutesAppend(a: seq<StaticRoute>, b: seq<StaticRoute>)
    ensures UserRoutes(a + b) == UserRoutes(a) + UserRoutes(b)
  {
    if a == [] {
      assert a + b == b;
    } else {
      UserRoutesAppend(a[1..], b);
      assert (a + b)[0] == a[0] && (a + b)[1..] == a[1..] + b;
      var head := if IsUserRoute(a[0]) then [a[0].(kind := USER_ROUTE)] else [];
      calc {
        UserRoutes(a + b);
        head + (UserRoutes(a[1..]) + UserRoutes(b));
        (head + UserRoutes(a[1..])) + UserRoutes(b);
        UserRoutes(a) + UserRoutes(b);
      }
    }
  }

  method UserRoutesLoop(routes: seq<StaticRoute>) returns (out: seq<StaticRoute>)
    ensures out == UserRoutes(routes)
  {
    out := [];
    for i := 0 to |routes|
      invariant out == UserRoutes(routes[..i])
    {
      var r := routes[i];
      assert routes[..i + 1] == routes[..i] + [r];
      UserRoutesAppend(routes[..i], [r]);
      if r.kind == USER_ROUTE || r.kind == "" {
        out := out + [StaticRoute(r.name, r.route, r.nexthop, USER_ROUTE)];
      }
    }
    assert routes[..|routes|] == routes;
  }

  function RouteKey(r: StaticRoute): string { r.name + [BAR] + r.route + [BAR] + r.nexthop }

  ghost predicate RoutesEqual(a: seq<StaticRoute>, b: seq<StaticRoute>) {
    multiset(Map(RouteKey, a)) == multiset(Map(RouteKey, b))
  }

  /** Sort both by key and compare key by key. */
  method RoutesEqualSorted(a: seq<StaticRoute>, b: seq<StaticRoute>) returns (r: bool)
    ensures r <==> RoutesEqual(a, b)
  {
    var sa := SortFunc(a, RouteKey);
    var sb := SortFunc(b, RouteKey);
    r := Map(RouteKey, sa) == Map(RouteKey, sb);
    SortedKeysEqual(sa, sb, a, b, RouteKey);
  }

  function Triple(r: StaticRoute): (string, string, string) { (r.name, r.route, r.nexthop) }

  function SpecTriple(r: RouteSpec): (string, string, string) { (r.name, r.route, r.nexthop) }

  function KeyOfTriple(t: (string, string, string)): string { t.0 + [BAR] + t.1 + [BAR] + t.2 }

  predicate KeySafe(t: (string, string, string)) { BarFree(t.1) && BarFree(t.2) }

  lemma KeyInjective(s: (string, string, string), t: (string, string, string))
    requires KeySafe(s) && KeySafe(t) && KeyOfTriple(s) == KeyOfTriple(t)
    ensures s == t
  {
    SplitLast(s.0 + [BAR] + s.1, s.2, t.0 + [BAR] + t.1, t.2);
    SplitLast(s.0, s.1, t.0, t.1);
  }

  lemma MapCompose(a: seq<StaticRoute>)
    ensures Map(RouteKey, a) == Map(KeyOfTriple, Map(Triple, a))
  {
  }

  lemma InMap<T, U>(f: T -> U, s: seq<T>, y: U) returns (i: nat)
    requires y in Map(f, s)
    ensures i < |s| && f(s[i]) == y
  {
    i :| 0 <= i < |s| && Map(f, s)[i] == y;
  }

  lemma SafeKeysInjective(a: seq<StaticRoute>, b: seq<StaticRoute>)
    requires forall r :: r in a || r in b ==> KeySafe(Triple(r))
    ensures InjectiveOn(KeyOfTriple, Map(Triple, a), Map(Triple, b))
  {
    var ta, tb := Map(Triple, a), Map(Triple, b);
    forall t | t in ta + tb ensures KeySafe(t) {
      if t in ta {
        var i := InMap(Triple, a, t);
        assert a[i] in a;
      } else {
        var i := InMap(Triple, b, t);
        assert b[i] in b;
      }
    }
    forall x, y | x in ta + tb && y in ta + tb && KeyOfTriple(x) == KeyOfTriple(y) ensures x == y {
      KeyInjective(x, y);
    }
  }

  /** Routes are equal exactly when the multisets of (name, route, nexthop) are, as long as route
      and nexthop hold no separator; names may. */
  lemma RoutesEqualIsMultisetEquality(a: seq<StaticRoute>, b: seq<StaticRoute>)
    requires forall r :: r in a || r in b ==> KeySafe(Triple(r))
    ensures RoutesEqual(a, b) <==> multiset(Map(Triple, a)) == multiset(Map(Triple, b))
  {
    var ta, tb := Map(Triple, a), Map(Triple, b);
    MapCompose(a);
    MapCompose(b);
    if multiset(ta) == multiset(tb) {
      MapMultiset(KeyOfTriple, ta, tb);
    }
    if RoutesEqual(a, b) {
      SafeKeysInjective(a, b);
      MapMultisetInjective(KeyOfTriple, ta, tb);
    }
  }

  /** With separators in the fields, two different route tables are accepted as equal: an example. */
  lemma RoutesEqualCollision() returns (a: StaticRoute, b: StaticRoute)
    ensures Triple(a) != Triple(b) && RoutesEqual([a], [b])
  {
    a := StaticRoute("r", "x|y", "z", "");
    b := StaticRoute("r", "x", "y|z", "");
    assert RouteKey(a) == "r|x|y|z" == RouteKey(b);
    assert Map(RouteKey, [a]) == ["r|x|y|z"] == Map(RouteKey, [b]);
  }

  predicate AllBarFree(t: (string, string, string)) { BarFree(t.0) && BarFree(t.1) && BarFree(t.2) }

  /** The separators of a key whose fields hold none are the two it was joined with. */
  lemma KeyBars(t: (string, string, string), i: nat)
    requires i < |KeyOfTriple(t)| && AllBarFree(t)
    ensures KeyOfTriple(t)[i] == BAR ==> i == |t.0| || i == |t.0| + 1 + |t.1|
  {
    if i < |t.0| {
      assert KeyOfTriple(t)[i] == t.0[i];
    } else if |t.0| < i < |t.0| + 1 + |t.1| {
      assert KeyOfTriple(t)[i] == t.1[i - |t.0| - 1];
    } else if i > |t.0| + 1 + |t.1| {
      assert KeyOfTriple(t)[i] == t.2[i - |t.0| - |t.1| - 2];
    }
  }

  /** A key whose fields hold no separator is nobody else's, whatever the others' fields hold. */
  lemma BarFreeKeyUnique(s: (string, string, string), t: (string, string, string))
    requires AllBarFree(t) && KeyOfTriple(s) == KeyOfTriple(t)
    ensures s == t
  {
    var k := KeyOfTriple(t);
    assert k[|s.0|] == BAR && k[|s.0| + 1 + |s.1|] == BAR;
    KeyBars(t, |s.0|);
    KeyBars(t, |s.0| + 1 + |s.1|);
    assert s.0 == k[..|s.0|] && t.0 == k[..|t.0|];
    assert s.1 == k[|s.0| + 1..|s.0| + 1 + |s.1|] && t.1 == k[|t.0| + 1..|t.0| + 1 + |t.1|];
    assert s.2 == k[|s.0| + |s.1| + 2..] && t.2 == k[|t.0| + |t.1| + 2..];
  }

  /** Any other key is somebody else's too: shift one separator. */
  lemma ShiftBar(t: (string, string, string)) returns (s: (string, string, string))
    requires !AllBarFree(t)
    ensures s != t && KeyOfTriple(s) == KeyOfTriple(t)
  {
    if i :| 0 <= i < |t.0| && t.0[i] == BAR {
      s := (t.0[..i], t.0[i + 1..] + [BAR] + t.1, t.2);
      assert t.0 == t.0[..i] + [BAR] + t.0[i + 1..];
      assert |s.0| != |t.0|;
    } else if i :| 0 <= i < |t.1| && t.1[i] == BAR {
      s := (t.0 + [BAR] + t.1[..i], t.1[i + 1..], t.2);
      assert t.1 == t.1[..i] + [BAR] + t.1[i + 1..];
      assert |s.0| != |t.0|;
    } else {
      var i :| 0 <= i < |t.2| && t.2[i] == BAR;
      s := (t.0, t.1 + [BAR] + t.2[..i], t.2[i + 1..]);
      assert t.2 == t.2[..i] + [BAR] + t.2[i + 1..];
      assert |s.1| != |t.1|;
    }
  }

  lemma BarFreeSideDecides(a: seq<StaticRoute>, b: seq<StaticRoute>)
    requires forall r :: r in b ==> AllBarFree(Triple(r))
    ensures RoutesEqual(a, b) <==> multiset(Map(Triple, a)) == multiset(Map(Triple, b))
  {
    var ta, tb := Map(Triple, a), Map(Triple, b);
    MapCompose(a);
    MapCompose(b);
    if multiset(ta) == multiset(tb) {
      MapMultiset(KeyOfTriple, ta, tb);
    }
    if RoutesEqual(a, b) {
      forall t | t in ta + tb ensures AllBarFree(t) {
        assert KeyOfTriple(t) in multiset(Map(KeyOfTriple, tb)) by {
          if t in ta {
            var i := InMap(Triple, a, t);
            assert Map(KeyOfTriple, ta)[i] == KeyOfTriple(t);
            assert KeyOfTriple(t) in multiset(Map(KeyOfTriple, ta));
          } else {
            var i := InMap(Triple, b, t);
            assert Map(KeyOfTriple, tb)[i] == KeyOfTriple(t);
          }
        }
        var i := InMap(KeyOfTriple, tb, KeyOfTriple(t));
        assert b[i] in b;
        BarFreeKeyUnique(t, tb[i]);
      }
      forall x, y | x in ta + tb && y in ta + tb && KeyOfTriple(x) == KeyOfTriple(y) ensures x == y {
        BarFreeKeyUnique(x, y);
      }
      MapMultisetInjective(KeyOfTriple, ta, tb);
    }
  }

  lemma ReplacedTriple(b: seq<StaticRoute>, i: nat, t: (string, string, string)) returns (a: seq<StaticRoute>)
    requires i < |b| && t != Triple(b[i]) && KeyOfTriple(t) == RouteKey(b[i])
    ensures RoutesEqual(a, b) && multiset(Map(Triple, a)) != multiset(Map(Triple, b))
  {
    a := b[i := StaticRoute(t.0, t.1, t.2, USER_ROUTE)];
    assert Map(RouteKey, a) == Map(RouteKey, b);
    var ta, tb := Map(Triple, a), Map(Triple, b);
    assert ta == tb[i := t];
    assert multiset(tb[i := t]) == multiset(tb) - multiset{tb[i]} + multiset{t};
    assert multiset(ta)[t] == multiset(tb)[t] + 1;
  }

  /** The exact condition: every verdict against the routes b is right if and only if no field in b holds
      the separator - whatever the other side holds. */
  lemma RoutesEqualIffBarFree(b: seq<StaticRoute>)
    ensures (forall a :: RoutesEqual(a, b) <==> multiset(Map(Triple, a)) == multiset(Map(Triple, b)))
            <==> forall r :: r in b ==> AllBarFree(Triple(r))
  {
    if forall r :: r in b ==> AllBarFree(Triple(r)) {
      forall a ensures RoutesEqual(a, b) <==> multiset(Map(Triple, a)) == multiset(Map(Triple, b)) {
        BarFreeSideDecides(a, b);
      }
    } else {
      var r :| r in b && !AllBarFree(Triple(r));
      var i :| 0 <= i < |b| && b[i] == r;
      var t := ShiftBar(Triple(r));
      var a := ReplacedTriple(b, i, t);
    }
  }

  ghost predicate RoutesMatch(observed: seq<StaticRoute>, spec: seq<RouteSpec>) {
    RoutesEqual(UserRoutes(observed), ToStaticRoutes(spec))
  }

  /** What the drift check means to ask: the user's routes are the spec's, in any order. */
  ghost predicate SameRoutes(observed: seq<StaticRoute>, spec: seq<RouteSpec>) {
    multiset(Map(Triple, UserRoutes(observed))) == multiset(Map(SpecTriple, spec))
  }

  lemma SpecTriples(spec: seq<RouteSpec>)
    ensures Map(Triple, ToStaticRoutes(spec)) == Map(SpecTriple, spec)
  {
  }

  function AsUser(r: StaticRoute): StaticRoute { r.(kind := USER_ROUTE) }

  lemma {:induction false} UserRoutesOfUserRoutes(a: seq<StaticRoute>)
    requires forall i :: 0 <= i < |a| ==> IsUserRoute(a[i])
    ensures UserRoutes(a) == Map(AsUser, a)
  {
    if a != [] {
      UserRoutesOfUserRoutes(a[1..]);
      assert Map(AsUser, a) == [AsUser(a[0])] + Map(AsUser, a[1..]);
    }
  }

  /** The drift check of a Router is right about every observed route table if and only if no name, route
      or nexthop in the spec holds the separator. */
  lemma RouteDriftRightIffBarFree(spec: seq<RouteSpec>)
    ensures (forall observed :: RoutesMatch(observed, spec) <==> SameRoutes(observed, spec))
            <==> forall r :: r in spec ==> AllBarFree(SpecTriple(r))
  {
    var b := ToStaticRoutes(spec);
    SpecTriples(spec);
    assert forall i :: 0 <= i < |spec| ==> Triple(b[i]) == SpecTriple(spec[i]);
    if forall r :: r in spec ==> AllBarFree(SpecTriple(r)) {
      forall r | r in b ensures AllBarFree(Triple(r)) {
        var i :| 0 <= i < |b| && b[i] == r;
        assert spec[i] in spec;
      }
      forall observed ensures RoutesMatch(observed, spec) <==> SameRoutes(observed, spec) {
        BarFreeSideDecides(UserRoutes(observed), b);
      }
    } else {
      var r :| r in spec && !AllBarFree(SpecTriple(r));
      var i :| 0 <= i < |spec| && spec[i] == r;
      var t := ShiftBar(Triple(b[i]));
      var a := ReplacedTriple(b, i, t);
      var observed := Map(AsUser, a);
      assert Map(AsUser, observed) == observed;
      UserRoutesOfUserRoutes(observed);
      assert Map(Triple, observed) == Map(Triple, a) && Map(RouteKey, observed) == Map(RouteKey, a);
      assert RoutesMatch(observed, spec) && !SameRoutes(observed, spec);
    }
  }

  /** The routes that are not the service's, as listed. */
  function WithoutService(routes: seq<StaticRoute>): seq<StaticRoute> {
    if routes == [] then []
    else (if IsUserRoute(routes[0]) then [routes[0]] else []) + WithoutService(routes[1..])
  }

  lemma {:induction false} UserRoutesIgnoreService(routes: seq<StaticRoute>)
    ensures UserRoutes(WithoutService(routes)) == UserRoutes(routes)
  {
    if routes != [] {
      UserRoutesIgnoreService(routes[1..]);
      if IsUserRoute(routes[0]) {
        assert WithoutService(routes)[1..] == WithoutService(routes[1..]);
      } else {
        assert WithoutService(routes) == WithoutService(routes[1..]);
      }
    }
  }

  /** Routes managed by UpCloud never count as drift, however many are listed and wherever: two tables that
      differ only in them get the same verdict. */
  lemma ServiceRoutesAreNoDrift(observed: seq<StaticRoute>, other: seq<StaticRoute>, spec: seq<RouteSpec>)
    requires WithoutService(observed) == WithoutService(other)
    ensures RoutesMatch(observed, spec) <==> RoutesMatch(other, spec)
  {
    UserRoutesIgnoreService(observed);
    UserRoutesIgnoreService(other);
  }

  lemma {:induction false} EchoedRoutes(specs: seq<RouteSpec>)
    ensures Map(RouteKey, UserRoutes(ToStaticRoutes(specs))) == Map(RouteKey, ToStaticRoutes(specs))
  {
    if specs != [] {
      EchoedRoutes(specs[1..]);
      var sent := ToStaticRoutes(specs);
      assert sent[1..] == ToStaticRoutes(specs[1..]);
      MapAppend(RouteKey, [sent[0].(kind := USER_ROUTE)], UserRoutes(sent[1..]));
    }
  }

  /** Each route requested, field by field. */
  lemma RequestedRouteIs(specs: seq<RouteSpec>, i: nat)
    requires i < |specs|
    ensures var r := ToStaticRoutes(specs);
            && |r| == |specs| && r[i].name == specs[i].name && r[i].route == specs[i].route
            && r[i].nexthop == specs[i].nexthop && r[i].kind == ""
  {
  }

  /** The user's routes are those not marked as the service's, in their order, with all their fields... */
  lemma {:induction false} UserRoutesAre(routes: seq<StaticRoute>)
    ensures UserRoutes(routes) == Map(AsUser, WithoutService(routes))
    ensures Map(Triple, UserRoutes(routes)) == Map(Triple, WithoutService(routes))
  {
    if routes != [] {
      UserRoutesAre(routes[1..]);
      var rest := WithoutService(routes[1..]);
      if IsUserRoute(routes[0]) {
        assert WithoutService(routes) == [routes[0]] + rest;
        MapAppend(AsUser, [routes[0]], rest);
        assert Map(AsUser, [routes[0]]) == [routes[0].(kind := USER_ROUTE)];
      } else {
        assert WithoutService(routes) == rest;
      }
    }
  }

  /** ...and those are the ones of type "user" or of none, as often as they are listed. */
  lemma {:induction false} WithoutServiceAre(routes: seq<StaticRoute>, r: StaticRoute)
    ensures multiset(WithoutService(routes))[r] == if r.kind == "user" || r.kind == "" then multiset(routes)[r] else 0
  {
    if routes != [] {
      WithoutServiceAre(routes[1..], r);
      assert routes == [routes[0]] + routes[1..];
      var head := if IsUserRoute(routes[0]) then [routes[0]] else [];
      assert multiset(WithoutService(routes)) == multiset(head) + multiset(WithoutService(routes[1..]));
      assert multiset(routes) == multiset{routes[0]} + multiset(routes[1..]);
    }
  }

  /** The routes sent on create or modify, stored as sent, are not drift. */
  lemma SentRoutesMatch(specs: seq<RouteSpec>)
    ensures RoutesMatch(ToStaticRoutes(specs), specs)
  {
    EchoedRoutes(specs);
  }

  // ---- Subnets

  function RequestSubnet(p: IPNetworkSpec): IPNetwork {
    IPNetwork(p.address, if p.family == "" then IPV4 else p.family,
              if p.dhcp.None? then true else p.dhcp.value,
              if p.dhcpDefaultRoute.None? then false else p.dhcpDefaultRoute.value,
              p.dhcpDns, p.dhcpRoutes, p.gateway)
  }

  function ToIPNetworks(specs: seq<IPNetworkSpec>): seq<IPNetwork> { Map(RequestSubnet, specs) }

  method ToIPNetworksLoop(specs: seq<IPNetworkSpec>) returns (out: seq<IPNetwork>)
    ensures out == ToIPNetworks(specs)
  {
    out := [];
    for i := 0 to |specs|
      invariant out == Map(RequestSubnet, specs[..i])
    {
      assert specs[..i + 1] == specs[..i] + [specs[i]];
      MapAppend(RequestSubnet, specs[..i], [specs[i]]);
      var p := specs[i];
      var family := p.family;
      if family == "" {
        family := IPV4;
      }
      out := out + [IPNetwork(p.address, family, PtrDefault(p.dhcp, true), PtrDefault(p.dhcpDefaultRoute, false),
                              p.dhcpDns, p.dhcpRoutes, p.gateway)];
    }
    assert specs[..|specs|] == specs;
  }

  /** Each subnet requested, field by field: IPv4 and DHCP unless the spec says otherwise. */
  lemma RequestedSubnetIs(specs: seq<IPNetworkSpec>, i: nat)
    requires i < |specs|
    ensures var n, p := ToIPNetworks(specs), specs[i];
            && |n| == |specs| && n[i].address == p.address && n[i].gateway == p.gateway
            && n[i].family == (if p.family == "" then "IPv4" else p.family)
            && n[i].dhcp == (p.dhcp != Some(false)) && n[i].dhcpDefaultRoute == (p.dhcpDefaultRoute == Some(true))
            && n[i].dhcpDns == p.dhcpDns && n[i].dhcpRoutes == p.dhcpRoutes
  {
  }

  function PtrDefault<T>(p: Option<T>, def: T): T { if p.None? then def else p.value }

  function AddressOf(n: IPNetwork): string { n.address }

  /** One observed subnet satisfies one desired subnet of the same address. */
  predicate Accepts(o: IPNetwork, d: IPNetwork) {
    && o.family == d.family && o.dhcp == d.dhcp && o.dhcpDefaultRoute == d.dhcpDefaultRoute
    && o.dhcpDns == d.dhcpDns && o.dhcpRoutes == d.dhcpRoutes
    && (d.gateway != "" ==> o.gateway == d.gateway)
  }

  /** Field by field; an empty desired gateway accepts any. */
  lemma AcceptsIff(o: IPNetwork, d: IPNetwork)
    ensures Accepts(o, d) && o.address == d.address <==> o == d || (d.gateway == "" && o.(gateway := "") == d)
  {
  }

  /** Same addresses, and agreement per address. */
  ghost predicate SubnetsMatch(observed: seq<IPNetwork>, desired: seq<IPNetwork>) {
    && multiset(Map(AddressOf, observed)) == multiset(Map(AddressOf, desired))
    && forall o, d :: o in observed && d in desired && o.address == d.address ==> Accepts(o, d)
  }

  predicate PointwiseEqual(o: seq<IPNetwork>, d: seq<IPNetwork>) {
    |o| == |d| && forall i :: 0 <= i < |o| ==> o[i].address == d[i].address && Accepts(o[i], d[i])
  }

  /** Desired subnets of one address are one subnet, however often it is listed. */
  ghost predicate Agreeing(desired: seq<IPNetwork>) {
    forall d, d' :: d in desired && d' in desired && d.address == d'.address ==> d == d'
  }

  lemma DistinctIsAgreeing(desired: seq<IPNetwork>)
    requires DistinctKeys(desired, AddressOf)
    ensures Agreeing(desired)
  {
    forall d, d' | d in desired && d' in desired && d.address == d'.address ensures d == d' {
      var i :| 0 <= i < |desired| && desired[i] == d;
      var j :| 0 <= j < |desired| && desired[j] == d';
      assert AddressOf(desired[i]) == AddressOf(desired[j]);
    }
  }

  lemma PointwiseImpliesMatch(o: seq<IPNetwork>, d: seq<IPNetwork>)
    requires PointwiseEqual(o, d) && Agreeing(d)
    ensures Map(AddressOf, o) == Map(AddressOf, d)
    ensures forall x, y :: x in o && y in d && x.address == y.address ==> Accepts(x, y)
  {
    forall x, y | x in o && y in d && x.address == y.address ensures Accepts(x, y) {
      var i :| 0 <= i < |o| && o[i] == x;
      assert d[i] in d;
    }
  }

  lemma SameMembers(s: seq<IPNetwork>, t: seq<IPNetwork>)
    requires multiset(s) == multiset(t)
    ensures forall x :: x in s <==> x in t
  {
    forall x ensures x in s <==> x in t {
      assert x in s <==> x in multiset(s);
      assert x in t <==> x in multiset(t);
    }
  }

  lemma MatchImpliesPointwise(o: seq<IPNetwork>, d: seq<IPNetwork>)
    requires Map(AddressOf, o) == Map(AddressOf, d)
    requires forall x, y :: x in o && y in d && x.address == y.address ==> Accepts(x, y)
    ensures PointwiseEqual(o, d)
  {
    assert |o| == |Map(AddressOf, o)| == |Map(AddressOf, d)| == |d|;
    forall i | 0 <= i < |o| ensures o[i].address == d[i].address && Accepts(o[i], d[i]) {
      assert Map(AddressOf, o)[i] == Map(AddressOf, d)[i];
    }
  }

  /** Whatever order the two sorts produce, comparing them pointwise decides SubnetsMatch when the
      desired subnets agree. */
  lemma PointwiseDecides(so: seq<IPNetwork>, sd: seq<IPNetwork>, observed: seq<IPNetwork>, desired: seq<IPNetwork>)
    requires IsSortOf(so, observed, AddressOf) && IsSortOf(sd, desired, AddressOf)
    requires Agreeing(desired)
    ensures PointwiseEqual(so, sd) <==> SubnetsMatch(observed, desired)
  {
    SortedKeysEqual(so, sd, observed, desired, AddressOf);
    SameMembers(so, observed);
    SameMembers(sd, desired);
    if PointwiseEqual(so, sd) {
      PointwiseImpliesMatch(so, sd);
    }
    if SubnetsMatch(observed, desired) {
      MatchImpliesPointwise(so, sd);
    }
  }

  /** Whatever is observed, and however the two lists get sorted, the comparison decides SubnetsMatch. */
  ghost predicate AlwaysDecides(desired: seq<IPNetwork>) {
    forall observed, so, sd :: IsSortOf(so, observed, AddressOf) && IsSortOf(sd, desired, AddressOf) ==>
      (PointwiseEqual(so, sd) <==> SubnetsMatch(observed, desired))
  }

  /** The exact condition. */
  lemma SubnetsDecidedIffAgreeing(desired: seq<IPNetwork>)
    ensures AlwaysDecides(desired) <==> Agreeing(desired)
  {
    if Agreeing(desired) {
      forall observed, so, sd | IsSortOf(so, observed, AddressOf) && IsSortOf(sd, desired, AddressOf)
        ensures PointwiseEqual(so, sd) <==> SubnetsMatch(observed, desired)
      {
        PointwiseDecides(so, sd, observed, desired);
      }
    } else {
      var s := SortExists(desired, AddressOf);
      assert PointwiseEqual(s, s);
      var d, d' :| d in desired && d' in desired && d.address == d'.address && d != d';
      assert !(Accepts(d, d') && Accepts(d', d));
    }
  }

  /** Sort both by address, compare pointwise. */
  method IPNetworksEqual(observed: seq<IPNetwork>, desired: seq<IPNetwork>) returns (r: bool)
    ensures Agreeing(desired) ==> (r <==> SubnetsMatch(observed, desired))
  {
    var o := SortFunc(observed, AddressOf);
    var d := SortFunc(desired, AddressOf);
    if Agreeing(desired) {
      PointwiseDecides(o, d, observed, desired);
    }
    if |o| != |d| {
      return false;
    }
    for i := 0 to |o|
      invariant forall k :: 0 <= k < i ==> o[k].address == d[k].address && Accepts(o[k], d[k])
    {
      if o[i].address != d[i].address || !Accepts(o[i], d[i]) {
        return false;
      }
    }
    return true;
  }

  /** Stored as sent, agreeing subnets are not drift. */
  lemma SentSubnetsMatch(desired: seq<IPNetwork>)
    requires Agreeing(desired)
    ensures SubnetsMatch(desired, desired)
  {
  }
}
