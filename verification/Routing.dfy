/** From a received config to a routing table and its lookup indexes:
    buildRoutingTable and buildPathIndex of pkg/proxy/dataplane.go, and pkg/proxy/Router.go.
    Go iterates maps in an unspecified order; here the order is an arbitrary choice. */
module Routing {
  import opened Text

  // ----- The wire format -----

  datatype RouteSpec = RouteSpec(path: string, methods: seq<string>)

  datatype Service = Service(name: string, clusterIP: string, port: int, endpoints: seq<string>, routes: seq<RouteSpec>)

  datatype ProxyConfig = ProxyConfig(port: int, metricsPort: int, healthCheckIntervalSeconds: int)

  datatype Config = Config(version: string, services: seq<Service>, proxyConfig: Option<ProxyConfig>)

  // ----- The internal format -----

  datatype Route = Route(path: string, methods: set<string>)

  datatype ServiceRouting = ServiceRouting(name: string, clusterIP: string, port: int, routes: seq<Route>, endpoints: seq<string>)

  type Services = map<string, ServiceRouting>
  type PathIndex = map<string, map<string, string>>
  type VipIndex = map<string, string>

  datatype RoutingTable = RoutingTable(services: Services, pathIndex: PathIndex, vipIndex: Option<VipIndex>)

  datatype Result<+T, +E> = Ok(value: T) | Err(error: E)

  datatype Error =
    | NoConfig
    | NameRequired(i: nat)
    | NoEndpoints(i: nat)
    | AddressRequired(i: nat, j: nat)
    | DuplicateEndpoint(i: nat, address: string)
    | NoRoutes(i: nat)
    | PathRequired(i: nat, j: nat)
    | NoMethods(i: nat, j: nat)
    | DuplicateService(name: string)

  // ----- What is acceptable -----

  predicate Distinct(xs: seq<string>) {
    forall j, k | 0 <= j < k < |xs| :: xs[j] != xs[k]
  }

  predicate EndpointsOk(xs: seq<string>) {
    xs != [] && (forall j | 0 <= j < |xs| :: xs[j] != "") && Distinct(xs)
  }

  predicate RouteOk(r: RouteSpec) {
    r.path != "" && exists j :: 0 <= j < |r.methods| && r.methods[j] != ""
  }

  predicate RoutesOk(rs: seq<RouteSpec>) {
    rs != [] && forall j | 0 <= j < |rs| :: RouteOk(rs[j])
  }

  predicate ServiceOk(s: Service) {
    s.name != "" && EndpointsOk(s.endpoints) && RoutesOk(s.routes)
  }

  predicate ServicesOk(ss: seq<Service>) {
    && (forall i | 0 <= i < |ss| :: ServiceOk(ss[i]))
    && (forall i, j | 0 <= i < j < |ss| :: ss[i].name != ss[j].name)
  }

  function Compiled(r: RouteSpec, upper: string -> string): Route {
    Route(r.path, set j | 0 <= j < |r.methods| && r.methods[j] != "" :: upper(r.methods[j]))
  }

  function CompiledAll(rs: seq<RouteSpec>, upper: string -> string): (r: seq<Route>)
    ensures |r| == |rs|
  {
    seq(|rs|, j requires 0 <= j < |rs| => Compiled(rs[j], upper))
  }

  function CompiledService(s: Service, upper: string -> string): ServiceRouting {
    ServiceRouting(s.name, s.clusterIP, s.port, CompiledAll(s.routes, upper), s.endpoints)
  }

  function ServiceNames(ss: seq<Service>): set<string> {
    set i | 0 <= i < |ss| :: ss[i].name
  }

  /** The table of an acceptable list: one entry per service, under its name. */
  ghost predicate IsTableOf(t: Services, ss: seq<Service>, upper: string -> string) {
    && t.Keys == ServiceNames(ss)
    && forall i | 0 <= i < |ss| :: t[ss[i].name] == CompiledService(ss[i], upper)
  }

  /** What the error says is wrong with service i is wrong with it. */
  predicate Describes(e: Error, i: nat, s: Service) {
    match e
    case NoConfig => false
    case NameRequired(k) => k == i && s.name == ""
    case NoEndpoints(k) => k == i && s.endpoints == []
    case AddressRequired(k, j) => k == i && j < |s.endpoints| && s.endpoints[j] == ""
    case DuplicateEndpoint(k, a) =>
      k == i && exists j, l :: 0 <= j < l < |s.endpoints| && s.endpoints[j] == s.endpoints[l] == a
    case NoRoutes(k) => k == i && s.routes == []
    case PathRequired(k, j) => k == i && j < |s.routes| && s.routes[j].path == ""
    case NoMethods(k, j) =>
      k == i && j < |s.routes| && forall l | 0 <= l < |s.routes[j].methods| :: s.routes[j].methods[l] == ""
    case DuplicateService(n) => s.name == n && ServiceOk(s)
  }

  /** The error describes the first service that is not acceptable. */
  ghost predicate Blames(ss: seq<Service>, e: Error) {
    exists i: nat :: FirstBad(ss, i) && Describes(e, i, ss[i])
  }

  ghost predicate FirstBad(ss: seq<Service>, i: nat) {
    i < |ss| && ServicesOk(ss[..i]) && !ServicesOk(ss[..i + 1])
  }

  lemma FirstBadRejects(ss: seq<Service>, i: nat)
    requires FirstBad(ss, i)
    ensures !ServicesOk(ss)
  {
  }

  lemma BlameRejects(ss: seq<Service>, e: Error)
    requires Blames(ss, e)
    ensures !ServicesOk(ss)
  {
    var i: nat :| FirstBad(ss, i) && Describes(e, i, ss[i]);
    FirstBadRejects(ss, i);
  }

  // ----- buildRoutingTable -----

  method BuildEndpoints(i: nat, s: Service) returns (r: Result<seq<string>, Error>)
    ensures r.Ok? <==> EndpointsOk(s.endpoints)
    ensures if r.Ok? then r.value == s.endpoints else Describes(r.error, i, s) && !r.error.DuplicateService?
  {
    var xs := s.endpoints;
    if |xs| == 0 {
      return Err(NoEndpoints(i));
    }
    var seen: set<string>, endpoints := {}, [];
    for j := 0 to |xs|
      invariant endpoints == xs[..j]
      invariant seen == set k | 0 <= k < j :: xs[k]
      invariant forall k | 0 <= k < j :: xs[k] != ""
      invariant Distinct(xs[..j])
    {
      var addr := xs[j];
      if addr == "" {
        return Err(AddressRequired(i, j));
      }
      if addr in seen {
        return Err(DuplicateEndpoint(i, addr));
      }
      seen := seen + {addr};
      endpoints := endpoints + [addr];
    }
    assert xs[..|xs|] == xs;
    return Ok(endpoints);
  }

  method BuildMethods(ms: seq<string>, upper: string -> string) returns (methods: set<string>)
    ensures methods == set j | 0 <= j < |ms| && ms[j] != "" :: upper(ms[j])
  {
    methods := {};
    for j := 0 to |ms|
      invariant methods == set k | 0 <= k < j && ms[k] != "" :: upper(ms[k])
    {
      if ms[j] == "" {
        continue;
      }
      methods := methods + {upper(ms[j])};
    }
  }

  lemma MethodsNonEmpty(r: RouteSpec, upper: string -> string)
    ensures Compiled(r, upper).methods != {} <==> exists j :: 0 <= j < |r.methods| && r.methods[j] != ""
  {
    if j :| 0 <= j < |r.methods| && r.methods[j] != "" {
      assert upper(r.methods[j]) in Compiled(r, upper).methods;
    }
  }

  method BuildRoutes(i: nat, s: Service, upper: string -> string) returns (r: Result<seq<Route>, Error>)
    ensures r.Ok? <==> RoutesOk(s.routes)
    ensures if r.Ok? then r.value == CompiledAll(s.routes, upper) else Describes(r.error, i, s) && !r.error.DuplicateService?
  {
    var rs := s.routes;
    if |rs| == 0 {
      return Err(NoRoutes(i));
    }
    var routes := [];
    for j := 0 to |rs|
      invariant routes == CompiledAll(rs, upper)[..j]
      invariant forall k | 0 <= k < j :: RouteOk(rs[k])
    {
      if rs[j].path == "" {
        return Err(PathRequired(i, j));
      }
      var methods := BuildMethods(rs[j].methods, upper);
      MethodsNonEmpty(rs[j], upper);
      if |methods| == 0 {
        return Err(NoMethods(i, j));
      }
      routes := routes + [Route(rs[j].path, methods)];
    }
    return Ok(routes);
  }

  lemma AppendService(ss: seq<Service>, i: nat)
    requires i < |ss| && ServicesOk(ss[..i])
    ensures ServicesOk(ss[..i + 1]) <==> ServiceOk(ss[i]) && forall k | 0 <= k < i :: ss[k].name != ss[i].name
  {
    assert ss[..i + 1] == ss[..i] + [ss[i]];
    assert forall k | 0 <= k < i :: ss[..i][k] == ss[k];
    if ServicesOk(ss[..i + 1]) {
      forall k | 0 <= k < i
        ensures ss[k].name != ss[i].name
      {
        assert ss[..i + 1][k].name != ss[..i + 1][i].name;
      }
    }
  }

  /** One service's turn: rejected with a description, or compiled. */
  method BuildService(i: nat, s: Service, upper: string -> string) returns (r: Result<ServiceRouting, Error>)
    ensures r.Ok? <==> ServiceOk(s)
    ensures if r.Ok? then r.value == CompiledService(s, upper) else Describes(r.error, i, s)
  {
    if s.name == "" {
      return Err(NameRequired(i));
    }
    var endpoints := BuildEndpoints(i, s);
    if endpoints.Err? {
      return Err(endpoints.error);
    }
    var routes := BuildRoutes(i, s, upper);
    if routes.Err? {
      return Err(routes.error);
    }
    return Ok(ServiceRouting(s.name, s.clusterIP, s.port, routes.value, endpoints.value));
  }

  method BuildServices(ss: seq<Service>, upper: string -> string) returns (r: Result<Services, Error>)
    ensures r.Ok? <==> ServicesOk(ss)
    ensures if r.Ok? then IsTableOf(r.value, ss, upper) else Blames(ss, r.error)
  {
    var t: Services := map[];
    for i := 0 to |ss|
      invariant ServicesOk(ss[..i]) && IsTableOf(t, ss[..i], upper)
    {
      AppendService(ss, i);
      var svc := BuildService(i, ss[i], upper);
      if svc.Err? {
        assert FirstBad(ss, i);
        BlameRejects(ss, svc.error);
        return Err(svc.error);
      }
      if ss[i].name in t {
        var k :| 0 <= k < i && ss[..i][k].name == ss[i].name;
        assert ss[k].name == ss[i].name;
        assert FirstBad(ss, i) && Describes(DuplicateService(ss[i].name), i, ss[i]);
        BlameRejects(ss, DuplicateService(ss[i].name));
        return Err(DuplicateService(ss[i].name));
      }
      TableStep(t, ss, i, upper);
      t := t[ss[i].name := svc.value];
    }
    assert ss[..|ss|] == ss;
    return Ok(t);
  }

  lemma ServiceNamesSnoc(ss: seq<Service>, s: Service)
    ensures ServiceNames(ss + [s]) == ServiceNames(ss) + {s.name}
  {
    var longer := ss + [s];
    assert longer[|ss|] == s;
    assert forall i | 0 <= i < |ss| :: longer[i] == ss[i];
  }

  lemma TableStep(t: Services, ss: seq<Service>, i: nat, upper: string -> string)
    requires i < |ss| && IsTableOf(t, ss[..i], upper) && ss[i].name !in t
    ensures IsTableOf(t[ss[i].name := CompiledService(ss[i], upper)], ss[..i + 1], upper)
  {
    assert ss[..i + 1] == ss[..i] + [ss[i]];
    ServiceNamesSnoc(ss[..i], ss[i]);
    assert forall k | 0 <= k < i :: ss[..i][k].name in ServiceNames(ss[..i]);
  }

  // ----- Lookups as scans -----

  predicate Declares(s: ServiceRouting, path: string, verb: string) {
    exists j :: 0 <= j < |s.routes| && s.routes[j].path == path && verb in s.routes[j].methods
  }

  /** The service writes a VIP entry, and it is this one. */
  predicate OwnsVip(s: ServiceRouting, vip: string) {
    s.clusterIP != "" && s.port > 0 && Keyed(s.clusterIP, ':', s.port) == vip
  }

  /** An iteration order of a map: every key once. */
  ghost predicate Enumerates(order: seq<string>, keys: set<string>) {
    Distinct(order) && (set i | 0 <= i < |order| :: order[i]) == keys
  }

  /** Later writers overwrite earlier ones: the last name in the order that satisfies p. */
  function LastWriter(order: seq<string>, p: string -> bool): Option<string> {
    if order == [] then None
    else if p(order[|order| - 1]) then Some(order[|order| - 1])
    else LastWriter(order[..|order| - 1], p)
  }

  function PathWriters(t: Services, path: string, verb: string): string -> bool {
    s => s in t && Declares(t[s], path, verb)
  }

  function VipWriters(t: Services, vip: string): string -> bool {
    s => s in t && OwnsVip(t[s], vip)
  }

  function PathLookup(index: PathIndex, path: string, verb: string): Option<string> {
    if path in index && verb in index[path] then Some(index[path][verb]) else None
  }

  function VipLookup(index: VipIndex, vip: string): Option<string> {
    if vip in index then Some(index[vip]) else None
  }

  /** The index answers every lookup as a scan in that order would. */
  ghost predicate PathIndexFor(index: PathIndex, t: Services, order: seq<string>) {
    forall path, verb :: PathLookup(index, path, verb) == LastWriter(order, PathWriters(t, path, verb))
  }

  ghost predicate VipIndexFor(index: VipIndex, t: Services, order: seq<string>) {
    forall vip :: VipLookup(index, vip) == LastWriter(order, VipWriters(t, vip))
  }

  lemma LastWriterSnoc(order: seq<string>, s: string, p: string -> bool)
    ensures LastWriter(order + [s], p) == if p(s) then Some(s) else LastWriter(order, p)
  {
    assert (order + [s])[..|order|] == order;
  }

  /** A scan finds a name exactly when one in the order satisfies p, and what it finds does. */
  lemma {:induction false} LastWriterFinds(order: seq<string>, p: string -> bool)
    ensures LastWriter(order, p).Some? <==> exists i :: 0 <= i < |order| && p(order[i])
    ensures LastWriter(order, p).Some? ==> LastWriter(order, p).value in order && p(LastWriter(order, p).value)
  {
    if order != [] {
      LastWriterFinds(order[..|order| - 1], p);
      if i :| 0 <= i < |order| && p(order[i]) && i < |order| - 1 {
        assert p(order[..|order| - 1][i]);
      }
    }
  }

  lemma EnumeratesMember(order: seq<string>, keys: set<string>, s: string)
    requires Enumerates(order, keys)
    ensures s in order <==> s in keys
  {
    if s in keys {
      var i :| 0 <= i < |order| && order[i] == s;
    }
    if s in order {
      assert s in (set i | 0 <= i < |order| :: order[i]);
    }
  }

  /** For every iteration order: a hit names a service that satisfies p, and a miss means none does. */
  lemma LookupSound(order: seq<string>, keys: set<string>, p: string -> bool)
    requires Enumerates(order, keys)
    ensures match LastWriter(order, p)
            case Some(s) => s in keys && p(s)
            case None => forall s | s in keys :: !p(s)
  {
    LastWriterFinds(order, p);
    match LastWriter(order, p)
    case Some(s) => EnumeratesMember(order, keys, s);
    case None =>
      forall s | s in keys
        ensures !p(s)
      {
        EnumeratesMember(order, keys, s);
      }
  }

  ghost predicate AtMostOne(keys: set<string>, p: string -> bool) {
    forall s, s' | s in keys && s' in keys && p(s) && p(s') :: s == s'
  }

  ghost predicate OrderIndependent(keys: set<string>, p: string -> bool) {
    forall o, o' | Enumerates(o, keys) && Enumerates(o', keys) :: LastWriter(o, p) == LastWriter(o', p)
  }

  /** An enumeration of the keys that ends with the one asked for. */
  lemma EnumerateEndingWith(keys: set<string>, last: string) returns (order: seq<string>)
    requires last in keys
    ensures Enumerates(order, keys) && order != [] && order[|order| - 1] == last
  {
    var rest := keys - {last};
    if rest == {} {
      order := [last];
      EnumerateSnoc([], {}, last);
      assert [] + [last] == order && {} + {last} == keys;
    } else {
      var other :| other in rest;
      var prefix := EnumerateEndingWith(rest, other);
      order := prefix + [last];
      EnumerateSnoc(prefix, rest, last);
      assert rest + {last} == keys;
    }
  }

  lemma EnumerateSnoc(order: seq<string>, keys: set<string>, s: string)
    requires Enumerates(order, keys) && s !in keys
    ensures Enumerates(order + [s], keys + {s})
  {
    EnumeratesMember(order, keys, s);
    var o := order + [s];
    forall x
      ensures x in (set i | 0 <= i < |o| :: o[i]) <==> x in keys + {s}
    {
      EnumeratesMember(order, keys, x);
      if x in order {
        var i :| 0 <= i < |order| && order[i] == x;
        assert o[i] == x;
      } else if x == s {
        assert o[|order|] == x;
      }
    }
  }

  /** A lookup gives the same answer for every iteration order exactly when at most one service
      claims the key. */
  lemma OrderIndependentIff(keys: set<string>, p: string -> bool)
    ensures OrderIndependent(keys, p) <==> AtMostOne(keys, p)
  {
    if AtMostOne(keys, p) {
      forall o, o' | Enumerates(o, keys) && Enumerates(o', keys)
        ensures LastWriter(o, p) == LastWriter(o', p)
      {
        LookupSound(o, keys, p);
        LookupSound(o', keys, p);
      }
    } else {
      var s, s' :| s in keys && s' in keys && p(s) && p(s') && s != s';
      var o := EnumerateEndingWith(keys, s);
      var o' := EnumerateEndingWith(keys, s');
      assert LastWriter(o, p) == Some(s) && LastWriter(o', p) == Some(s');
    }
  }

  /** Two services compete for a VIP exactly when they share address and port. */
  lemma VipKeyInjective(s: ServiceRouting, s': ServiceRouting, vip: string)
    requires OwnsVip(s, vip)
    ensures OwnsVip(s', vip) <==> s'.clusterIP == s.clusterIP && s'.port == s.port
  {
    if OwnsVip(s', vip) {
      KeyedInjective(s.clusterIP, s'.clusterIP, ':', s.port, s'.port);
    }
  }

  /** The VIP index does not depend on the iteration order exactly when no two services that have
      a VIP share it. */
  lemma VipOrderIndependentIff(t: Services)
    ensures (forall vip :: OrderIndependent(t.Keys, VipWriters(t, vip))) <==>
            forall s, s' | s in t && s' in t && s != s' && t[s].clusterIP != "" && t[s].port > 0 ::
              !(t[s'].clusterIP == t[s].clusterIP && t[s'].port == t[s].port)
  {
    forall s, s' | s in t && s' in t && s != s' && t[s].clusterIP != "" && t[s].port > 0
                   && t[s'].clusterIP == t[s].clusterIP && t[s'].port == t[s].port
      ensures exists vip :: !OrderIndependent(t.Keys, VipWriters(t, vip))
    {
      var p := VipWriters(t, Keyed(t[s].clusterIP, ':', t[s].port));
      assert p(s) && p(s');
      OrderIndependentIff(t.Keys, p);
    }
    forall vip | !OrderIndependent(t.Keys, VipWriters(t, vip))
      ensures exists s, s' :: s in t && s' in t && s != s' && t[s].clusterIP != "" && t[s].port > 0
                && t[s'].clusterIP == t[s].clusterIP && t[s'].port == t[s].port
    {
      var p := VipWriters(t, vip);
      OrderIndependentIff(t.Keys, p);
      var s, s' :| s in t && s' in t && p(s) && p(s') && s != s';
      VipKeyInjective(t[s], t[s'], vip);
    }
  }

  /** Two builds of the path index can disagree on a lookup only where two services declare it. */
  lemma PathIndexesAgree(t: Services, i: PathIndex, o: seq<string>, i': PathIndex, o': seq<string>, path: string, verb: string)
    requires Enumerates(o, t.Keys) && PathIndexFor(i, t, o)
    requires Enumerates(o', t.Keys) && PathIndexFor(i', t, o')
    requires forall s, s' | s in t && s' in t && Declares(t[s], path, verb) && Declares(t[s'], path, verb) :: s == s'
    ensures PathLookup(i, path, verb) == PathLookup(i', path, verb)
  {
    var p := PathWriters(t, path, verb);
    assert AtMostOne(t.Keys, p);
    OrderIndependentIff(t.Keys, p);
    assert PathLookup(i, path, verb) == LastWriter(o, p) && PathLookup(i', path, verb) == LastWriter(o', p);
  }

  /** A hit names a service that declares the route, and a miss means none does. */
  ghost predicate PathsSound(index: PathIndex, t: Services) {
    forall path, verb ::
      match PathLookup(index, path, verb)
      case Some(s) => s in t && Declares(t[s], path, verb)
      case None => forall s | s in t :: !Declares(t[s], path, verb)
  }

  ghost predicate VipsSound(index: VipIndex, t: Services) {
    forall vip ::
      match VipLookup(index, vip)
      case Some(s) => s in t && OwnsVip(t[s], vip)
      case None => forall s | s in t :: !OwnsVip(t[s], vip)
  }

  lemma PathsAreSound(index: PathIndex, t: Services, order: seq<string>)
    requires Enumerates(order, t.Keys) && PathIndexFor(index, t, order)
    ensures PathsSound(index, t)
  {
    forall path, verb
      ensures match PathLookup(index, path, verb)
              case Some(s) => s in t && Declares(t[s], path, verb)
              case None => forall s | s in t :: !Declares(t[s], path, verb)
    {
      var writers := PathWriters(t, path, verb);
      LookupSound(order, t.Keys, writers);
      assert forall s | s in t :: writers(s) == Declares(t[s], path, verb);
      assert PathLookup(index, path, verb) == LastWriter(order, writers);
    }
  }

  lemma VipsAreSound(index: VipIndex, t: Services, order: seq<string>)
    requires Enumerates(order, t.Keys) && VipIndexFor(index, t, order)
    ensures VipsSound(index, t)
  {
    forall vip
      ensures match VipLookup(index, vip)
              case Some(s) => s in t && OwnsVip(t[s], vip)
              case None => forall s | s in t :: !OwnsVip(t[s], vip)
    {
      var writers := VipWriters(t, vip);
      LookupSound(order, t.Keys, writers);
      assert forall s | s in t :: writers(s) == OwnsVip(t[s], vip);
      assert VipLookup(index, vip) == LastWriter(order, writers);
    }
  }

  // ----- The same in terms of the config -----

  /** The config's service has a route of that path with that method, empty ones aside. */
  predicate ServesRoute(s: Service, path: string, verb: string, upper: string -> string) {
    exists i, j :: 0 <= i < |s.routes| && 0 <= j < |s.routes[i].methods| && s.routes[i].path == path
                   && s.routes[i].methods[j] != "" && upper(s.routes[i].methods[j]) == verb
  }

  /** The config's service is at this address and port. */
  predicate ServesVip(s: Service, vip: string) {
    s.clusterIP != "" && s.port > 0 && vip == s.clusterIP + ":" + Decimal(s.port)
  }

  lemma CompiledMethods(r: RouteSpec, upper: string -> string, verb: string)
    ensures verb in Compiled(r, upper).methods <==> exists j :: 0 <= j < |r.methods| && r.methods[j] != "" && upper(r.methods[j]) == verb
  {
  }

  lemma CompiledServes(s: Service, upper: string -> string, path: string, verb: string)
    ensures Declares(CompiledService(s, upper), path, verb) <==> ServesRoute(s, path, verb, upper)
  {
    var c := CompiledService(s, upper);
    forall i | 0 <= i < |s.routes|
      ensures c.routes[i].path == s.routes[i].path
      ensures verb in c.routes[i].methods <==>
              exists j :: 0 <= j < |s.routes[i].methods| && s.routes[i].methods[j] != "" && upper(s.routes[i].methods[j]) == verb
    {
      CompiledMethods(s.routes[i], upper, verb);
    }
  }

  lemma CompiledOwns(s: Service, upper: string -> string, vip: string)
    ensures OwnsVip(CompiledService(s, upper), vip) <==> ServesVip(s, vip)
  {
    assert s.clusterIP + ":" + Decimal(s.port) == Keyed(s.clusterIP, ':', s.port);
  }

  /** Every lookup in this table names a service of the config that serves the key, and misses only if
      none does. */
  ghost predicate RoutesConfig(t: RoutingTable, ss: seq<Service>, upper: string -> string) {
    && (forall path, verb :: NamesOne(PathLookup(t.pathIndex, path, verb), ss, s => ServesRoute(s, path, verb, upper)))
    && t.vipIndex.Some? && (forall vip :: NamesOne(VipLookup(t.vipIndex.value, vip), ss, s => ServesVip(s, vip)))
  }

  ghost predicate NamesOne(r: Option<string>, ss: seq<Service>, serves: Service -> bool) {
    match r
    case Some(name) => exists i :: 0 <= i < |ss| && ss[i].name == name && serves(ss[i])
    case None => forall i | 0 <= i < |ss| :: !serves(ss[i])
  }

  lemma PathNamesOne(t: RoutingTable, ss: seq<Service>, upper: string -> string, path: string, verb: string)
    requires IsTableOf(t.services, ss, upper) && PathsSound(t.pathIndex, t.services)
    ensures NamesOne(PathLookup(t.pathIndex, path, verb), ss, s => ServesRoute(s, path, verb, upper))
  {
    forall i | 0 <= i < |ss|
      ensures ss[i].name in t.services
      ensures Declares(t.services[ss[i].name], path, verb) <==> ServesRoute(ss[i], path, verb, upper)
    {
      assert ss[i].name in ServiceNames(ss);
      CompiledServes(ss[i], upper, path, verb);
    }
    var r := PathLookup(t.pathIndex, path, verb);
    if r.Some? {
      assert r.value in t.services && Declares(t.services[r.value], path, verb);
      assert r.value in ServiceNames(ss);
      var i :| 0 <= i < |ss| && ss[i].name == r.value;
      assert ServesRoute(ss[i], path, verb, upper);
    }
  }

  lemma VipNamesOne(t: RoutingTable, ss: seq<Service>, upper: string -> string, vip: string)
    requires IsTableOf(t.services, ss, upper) && t.vipIndex.Some? && VipsSound(t.vipIndex.value, t.services)
    ensures NamesOne(VipLookup(t.vipIndex.value, vip), ss, s => ServesVip(s, vip))
  {
    forall i | 0 <= i < |ss|
      ensures ss[i].name in t.services
      ensures OwnsVip(t.services[ss[i].name], vip) <==> ServesVip(ss[i], vip)
    {
      assert ss[i].name in ServiceNames(ss);
      CompiledOwns(ss[i], upper, vip);
    }
    var r := VipLookup(t.vipIndex.value, vip);
    if r.Some? {
      assert r.value in t.services && OwnsVip(t.services[r.value], vip);
      assert r.value in ServiceNames(ss);
      var i :| 0 <= i < |ss| && ss[i].name == r.value;
      assert ServesVip(ss[i], vip);
    }
  }

  lemma TableRoutesConfig(t: RoutingTable, ss: seq<Service>, upper: string -> string)
    requires IsTableOf(t.services, ss, upper) && PathsSound(t.pathIndex, t.services)
    requires t.vipIndex.Some? && VipsSound(t.vipIndex.value, t.services)
    ensures RoutesConfig(t, ss, upper)
  {
    forall path, verb
      ensures NamesOne(PathLookup(t.pathIndex, path, verb), ss, s => ServesRoute(s, path, verb, upper))
    {
      PathNamesOne(t, ss, upper, path, verb);
    }
    forall vip
      ensures NamesOne(VipLookup(t.vipIndex.value, vip), ss, s => ServesVip(s, vip))
    {
      VipNamesOne(t, ss, upper, vip);
    }
  }

  // ----- The index-building loops -----

  /** The inner loop over one route's methods. */
  method AddMethods(index: PathIndex, path: string, methods: set<string>, service: string) returns (r: PathIndex)
    ensures forall p, v :: PathLookup(r, p, v) == if p == path && v in methods then Some(service) else PathLookup(index, p, v)
  {
    r := index;
    if path !in r {
      r := r[path := map[]];
    }
    var todo := methods;
    while todo != {}
      invariant todo <= methods && path in r
      invariant forall p, v :: PathLookup(r, p, v) == if p == path && v in methods && v !in todo then Some(service) else PathLookup(index, p, v)
      decreases todo
    {
      var verb :| verb in todo;
      ghost var before := r;
      r := r[path := r[path][verb := service]];
      assert forall p, v :: PathLookup(r, p, v) == if p == path && v == verb then Some(service) else PathLookup(before, p, v);
      todo := todo - {verb};
    }
  }

  /** The loop over one service's routes. */
  method AddRoutes(index: PathIndex, s: ServiceRouting, service: string) returns (r: PathIndex)
    ensures forall p, v :: PathLookup(r, p, v) == if Declares(s, p, v) then Some(service) else PathLookup(index, p, v)
  {
    r := index;
    for j := 0 to |s.routes|
      invariant forall p, v :: PathLookup(r, p, v) ==
                  if Declares(s.(routes := s.routes[..j]), p, v) then Some(service) else PathLookup(index, p, v)
    {
      var route := s.routes[j];
      r := AddMethods(r, route.path, route.methods, service);
      DeclaresSnoc(s, j);
    }
    assert s.(routes := s.routes[..|s.routes|]) == s;
  }

  lemma DeclaresSnoc(s: ServiceRouting, j: nat)
    requires j < |s.routes|
    ensures forall p, v :: Declares(s.(routes := s.routes[..j + 1]), p, v) <==>
                           Declares(s.(routes := s.routes[..j]), p, v) || (p == s.routes[j].path && v in s.routes[j].methods)
  {
    forall p, v
      ensures Declares(s.(routes := s.routes[..j + 1]), p, v) <==>
              Declares(s.(routes := s.routes[..j]), p, v) || (p == s.routes[j].path && v in s.routes[j].methods)
    {
      var longer, shorter := s.(routes := s.routes[..j + 1]), s.(routes := s.routes[..j]);
      if k :| 0 <= k < |longer.routes| && longer.routes[k].path == p && v in longer.routes[k].methods && k < j {
        assert shorter.routes[k] == longer.routes[k];
      }
      if k :| 0 <= k < |shorter.routes| && shorter.routes[k].path == p && v in shorter.routes[k].methods {
        assert shorter.routes[k] == longer.routes[k];
      }
      assert longer.routes[j] == s.routes[j];
    }
  }

  /** buildPathIndex, and the same loop in UpdateRoutes. */
  method BuildPathIndex(t: Services) returns (index: PathIndex, ghost order: seq<string>)
    ensures Enumerates(order, t.Keys) && PathIndexFor(index, t, order)
    ensures PathsSound(index, t)
  {
    index, order := map[], [];
    var todo := t.Keys;
    while todo != {}
      invariant todo <= t.Keys && Enumerates(order, t.Keys - todo)
      invariant PathIndexFor(index, t, order)
      decreases todo
    {
      var service :| service in todo;
      EnumerateSnoc(order, t.Keys - todo, service);
      assert t.Keys - todo + {service} == t.Keys - (todo - {service});
      ghost var before := index;
      index := AddRoutes(index, t[service], service);
      forall p, v
        ensures PathLookup(index, p, v) == LastWriter(order + [service], PathWriters(t, p, v))
      {
        assert PathLookup(before, p, v) == LastWriter(order, PathWriters(t, p, v));
        LastWriterSnoc(order, service, PathWriters(t, p, v));
      }
      order := order + [service];
      todo := todo - {service};
    }
    assert t.Keys - {} == t.Keys;
    PathsAreSound(index, t, order);
  }

  /** The VIP loop of UpdateRoutes. */
  method BuildVipIndex(t: Services) returns (index: VipIndex, ghost order: seq<string>)
    ensures Enumerates(order, t.Keys) && VipIndexFor(index, t, order)
    ensures VipsSound(index, t)
  {
    index, order := map[], [];
    var todo := t.Keys;
    while todo != {}
      invariant todo <= t.Keys && Enumerates(order, t.Keys - todo)
      invariant VipIndexFor(index, t, order)
      decreases todo
    {
      var service :| service in todo;
      EnumerateSnoc(order, t.Keys - todo, service);
      assert t.Keys - todo + {service} == t.Keys - (todo - {service});
      var s := t[service];
      ghost var before := index;
      if s.clusterIP != "" && s.port > 0 {
        index := index[Keyed(s.clusterIP, ':', s.port) := service];
      }
      forall vip
        ensures VipLookup(index, vip) == LastWriter(order + [service], VipWriters(t, vip))
      {
        assert VipLookup(before, vip) == LastWriter(order, VipWriters(t, vip));
        LastWriterSnoc(order, service, VipWriters(t, vip));
      }
      order := order + [service];
      todo := todo - {service};
    }
    assert t.Keys - {} == t.Keys;
    VipsAreSound(index, t, order);
  }

  method BuildRoutingTable(cfg: Option<Config>, upper: string -> string) returns (r: Result<RoutingTable, Error>)
    ensures r.Ok? <==> cfg.Some? && ServicesOk(cfg.value.services)
    ensures r.Ok? ==> IsTableOf(r.value.services, cfg.value.services, upper) && PathsSound(r.value.pathIndex, r.value.services)
    ensures r.Err? ==> if cfg.None? then r.error == NoConfig else Blames(cfg.value.services, r.error)
  {
    if cfg.None? {
      return Err(NoConfig);
    }
    var t := BuildServices(cfg.value.services, upper);
    if t.Err? {
      return Err(t.error);
    }
    var index, order := BuildPathIndex(t.value);
    return Ok(RoutingTable(t.value, index, None));
  }

  class Router {
    var routingTable: RoutingTable

    /** NewProxyState: no services, and no VIP index yet. */
    constructor ()
      ensures routingTable == RoutingTable(map[], map[], None)
    {
      routingTable := RoutingTable(map[], map[], None);
    }

    /** Both indexes of the installed table answer as scans of its services. */
    ghost predicate Indexed()
      reads this
    {
      var t := routingTable;
      && (exists order :: Enumerates(order, t.services.Keys) && PathIndexFor(t.pathIndex, t.services, order))
      && (t.vipIndex.Some? ==> exists order :: Enumerates(order, t.services.Keys) && VipIndexFor(t.vipIndex.value, t.services, order))
    }

    method UpdateRoutes(rt: RoutingTable)
      modifies this
      ensures routingTable.services == rt.services && routingTable.vipIndex.Some? && Indexed()
      ensures PathsSound(routingTable.pathIndex, rt.services) && VipsSound(routingTable.vipIndex.value, rt.services)
    {
      var paths, order := BuildPathIndex(rt.services);
      var vips, order' := BuildVipIndex(rt.services);
      routingTable := RoutingTable(rt.services, paths, Some(vips));
    }

    method FindService(path: string, verb: string) returns (r: Option<string>)
      requires Indexed()
      ensures r == PathLookup(routingTable.pathIndex, path, verb)
      ensures match r
              case Some(s) => s in routingTable.services && Declares(routingTable.services[s], path, verb)
              case None => forall s | s in routingTable.services :: !Declares(routingTable.services[s], path, verb)
    {
      ghost var t := routingTable.services;
      ghost var order :| Enumerates(order, t.Keys) && PathIndexFor(routingTable.pathIndex, t, order);
      PathsAreSound(routingTable.pathIndex, t, order);
      assert PathLookup(routingTable.pathIndex, path, verb).None? ==> forall s | s in t :: !Declares(t[s], path, verb);
      if path in routingTable.pathIndex {
        var methods := routingTable.pathIndex[path];
        if verb in methods {
          return Some(methods[verb]);
        }
      }
      return None;
    }

    method FindServiceByVIP(vip: string) returns (r: Option<string>)
      requires Indexed()
      ensures r == if routingTable.vipIndex.None? then None else VipLookup(routingTable.vipIndex.value, vip)
      ensures routingTable.vipIndex.Some? ==>
                match r
                case Some(s) => s in routingTable.services && OwnsVip(routingTable.services[s], vip)
                case None => forall s | s in routingTable.services :: !OwnsVip(routingTable.services[s], vip)
    {
      if routingTable.vipIndex.None? {
        return None;
      }
      ghost var t := routingTable.services;
      ghost var order :| Enumerates(order, t.Keys) && VipIndexFor(routingTable.vipIndex.value, t, order);
      VipsAreSound(routingTable.vipIndex.value, t, order);
      assert VipLookup(routingTable.vipIndex.value, vip).None? ==> forall s | s in t :: !OwnsVip(t[s], vip);
      if vip in routingTable.vipIndex.value {
        return Some(routingTable.vipIndex.value[vip]);
      }
      return None;
    }
  }
}
