/** Kubernetes discovery: buildEndpoints, buildConfig and validate of controlplane/k8s-client.go,
    and what the proxies make of the configs it produces. */
module Discovery {
  import opened Text
  import opened Routing
  import opened Dataplane

  const DEFAULT_PORT: int := 8080

  datatype KService = KService(namespace: string, name: string, selector: map<string, string>,
                               labels: map<string, string>, clusterIP: string, ports: seq<int>)

  datatype KEndpoint = KEndpoint(ready: Option<bool>, addresses: seq<string>)

  datatype KSlice = KSlice(namespace: string, labels: map<string, string>, ports: seq<Option<int>>, endpoints: seq<KEndpoint>)

  function Label(labels: map<string, string>, key: string): string {
    if key in labels then labels[key] else ""
  }

  // ----- The specification: ready addresses with their ports -----

  datatype Target = Target(address: string, port: int)

  predicate Belongs(slice: KSlice, ns: string, name: string) {
    slice.namespace == ns && Label(slice.labels, "kubernetes.io/service-name") == name
  }

  function SlicePort(slice: KSlice): int {
    if |slice.ports| > 0 && slice.ports[0].Some? then slice.ports[0].value else DEFAULT_PORT
  }

  predicate IsReady(e: KEndpoint) {
    e.ready != Some(false)
  }

  function AddressTargets(addresses: seq<string>, port: int): seq<Target> {
    seq(|addresses|, i requires 0 <= i < |addresses| => Target(addresses[i], port))
  }

  function EndpointTargets(es: seq<KEndpoint>, port: int): seq<Target> {
    if es == [] then []
    else
      var e := es[|es| - 1];
      EndpointTargets(es[..|es| - 1], port) + if IsReady(e) then AddressTargets(e.addresses, port) else []
  }

  function SliceTargets(slices: seq<KSlice>, ns: string, name: string): seq<Target> {
    if slices == [] then []
    else
      var s := slices[|slices| - 1];
      SliceTargets(slices[..|slices| - 1], ns, name) + if Belongs(s, ns, name) then EndpointTargets(s.endpoints, SlicePort(s)) else []
  }

  function Printed(ts: seq<Target>): (r: seq<string>)
    ensures |r| == |ts| && forall i | 0 <= i < |ts| :: r[i] == Keyed(ts[i].address, ':', ts[i].port)
  {
    seq(|ts|, i requires 0 <= i < |ts| => Keyed(ts[i].address, ':', ts[i].port))
  }

  lemma PrintedConcat(ts: seq<Target>, us: seq<Target>)
    ensures Printed(ts + us) == Printed(ts) + Printed(us)
  {
  }

  /** The targets of a service are exactly the ready addresses of its slices, each with its slice's
      first port or the default. */
  predicate Offers(slice: KSlice, t: Target) {
    t.port == SlicePort(slice) &&
    exists j :: 0 <= j < |slice.endpoints| && IsReady(slice.endpoints[j]) && t.address in slice.endpoints[j].addresses
  }

  lemma {:induction false} EndpointTargetsExactly(es: seq<KEndpoint>, port: int, t: Target)
    ensures t in EndpointTargets(es, port) <==>
            t.port == port && exists j :: 0 <= j < |es| && IsReady(es[j]) && t.address in es[j].addresses
  {
    if es != [] {
      var n := |es| - 1;
      EndpointTargetsExactly(es[..n], port, t);
      AddressTargetsExactly(es[n].addresses, port, t);
      if j :| 0 <= j < |es| && IsReady(es[j]) && t.address in es[j].addresses && j < n {
        assert es[..n][j] == es[j];
      }
    }
  }

  lemma AddressTargetsExactly(addresses: seq<string>, port: int, t: Target)
    ensures t in AddressTargets(addresses, port) <==> t.port == port && t.address in addresses
  {
    if t.port == port && t.address in addresses {
      var i :| 0 <= i < |addresses| && addresses[i] == t.address;
      assert AddressTargets(addresses, port)[i] == t;
    }
  }

  lemma {:induction false} TargetsIn(slices: seq<KSlice>, ns: string, name: string, t: Target)
    ensures t in SliceTargets(slices, ns, name) <==> exists slice :: slice in slices && Belongs(slice, ns, name) && Offers(slice, t)
  {
    if slices != [] {
      var n := |slices| - 1;
      TargetsIn(slices[..n], ns, name, t);
      EndpointTargetsExactly(slices[n].endpoints, SlicePort(slices[n]), t);
      assert t in EndpointTargets(slices[n].endpoints, SlicePort(slices[n])) <==> Offers(slices[n], t);
      assert slices == slices[..n] + [slices[n]];
    }
  }

  lemma TargetsExactly(slices: seq<KSlice>, ns: string, name: string, t: Target)
    ensures t in SliceTargets(slices, ns, name) <==>
            exists i :: 0 <= i < |slices| && Belongs(slices[i], ns, name) && Offers(slices[i], t)
  {
    TargetsIn(slices, ns, name, t);
  }

  // ----- buildEndpoints -----

  /** The innermost loop. */
  method PrintAddresses(addresses: seq<string>, port: int) returns (r: seq<string>)
    ensures r == Printed(AddressTargets(addresses, port))
  {
    r := [];
    for i := 0 to |addresses|
      invariant r == Printed(AddressTargets(addresses[..i], port))
    {
      r := r + [Keyed(addresses[i], ':', port)];
    }
    assert addresses[..|addresses|] == addresses;
  }

  lemma EndpointTargetsSnoc(es: seq<KEndpoint>, i: nat, port: int)
    requires i < |es|
    ensures Printed(EndpointTargets(es[..i + 1], port)) == Printed(EndpointTargets(es[..i], port)) +
            if IsReady(es[i]) then Printed(AddressTargets(es[i].addresses, port)) else []
  {
    assert es[..i + 1][..i] == es[..i];
    var more := if IsReady(es[i]) then AddressTargets(es[i].addresses, port) else [];
    PrintedConcat(EndpointTargets(es[..i], port), more);
  }

  lemma SliceTargetsSnoc(slices: seq<KSlice>, i: nat, ns: string, name: string)
    requires i < |slices|
    ensures Printed(SliceTargets(slices[..i + 1], ns, name)) == Printed(SliceTargets(slices[..i], ns, name)) +
            if Belongs(slices[i], ns, name) then Printed(EndpointTargets(slices[i].endpoints, SlicePort(slices[i]))) else []
  {
    assert slices[..i + 1][..i] == slices[..i];
    var more := if Belongs(slices[i], ns, name) then EndpointTargets(slices[i].endpoints, SlicePort(slices[i])) else [];
    PrintedConcat(SliceTargets(slices[..i], ns, name), more);
  }

  /** The loop over one slice's endpoints. */
  method PrintEndpoints(es: seq<KEndpoint>, port: int) returns (r: seq<string>)
    ensures r == Printed(EndpointTargets(es, port))
  {
    r := [];
    for i := 0 to |es|
      invariant r == Printed(EndpointTargets(es[..i], port))
    {
      EndpointTargetsSnoc(es, i, port);
      if es[i].ready.Some? && !es[i].ready.value {
        continue;
      }
      var more := PrintAddresses(es[i].addresses, port);
      r := r + more;
    }
    assert es[..|es|] == es;
  }

  method BuildEndpoints(slices: seq<KSlice>, ns: string, svcName: string) returns (out: seq<string>)
    ensures out == Printed(SliceTargets(slices, ns, svcName))
  {
    out := [];
    for i := 0 to |slices|
      invariant out == Printed(SliceTargets(slices[..i], ns, svcName))
    {
      var slice := slices[i];
      SliceTargetsSnoc(slices, i, ns, svcName);
      if slice.namespace != ns || Label(slice.labels, "kubernetes.io/service-name") != svcName {
        continue;
      }
      var port := DEFAULT_PORT;
      if |slice.ports| > 0 && slice.ports[0].Some? {
        port := slice.ports[0].value;
      }
      var more := PrintEndpoints(slice.endpoints, port);
      out := out + more;
    }
    assert slices[..|slices|] == slices;
  }

  // ----- buildConfig -----

  /** In the mesh, with a selector and at least one ready address. */
  predicate Selected(s: KService, slices: seq<KSlice>) {
    && s.selector != map[]
    && Label(s.labels, "ananse.io/mesh") == "enabled"
    && SliceTargets(slices, s.namespace, s.name) != []
  }

  function Exported(s: KService, slices: seq<KSlice>): Service {
    Service(s.name, s.clusterIP, if |s.ports| > 0 then s.ports[0] else 0,
            Printed(SliceTargets(slices, s.namespace, s.name)),
            [RouteSpec("/" + s.name, ["GET", "POST", "PUT", "DELETE", "PATCH"])])
  }

  /** The selected services, in the order of the cache listing. */
  function SelectedServices(services: seq<KService>, slices: seq<KSlice>): (r: seq<KService>)
    ensures forall i | 0 <= i < |r| :: r[i] in services && Selected(r[i], slices)
  {
    if services == [] then []
    else
      var s := services[|services| - 1];
      var rest := SelectedServices(services[..|services| - 1], slices);
      if Selected(s, slices) then rest + [s] else rest
  }

  function ExportedAll(ss: seq<KService>, slices: seq<KSlice>): (r: seq<Service>)
    ensures |r| == |ss| && forall i | 0 <= i < |ss| :: r[i] == Exported(ss[i], slices)
  {
    seq(|ss|, i requires 0 <= i < |ss| => Exported(ss[i], slices))
  }

  method BuildConfig(services: seq<KService>, slices: seq<KSlice>, version: string) returns (cfg: Config)
    ensures cfg == Config(version, ExportedAll(SelectedServices(services, slices), slices), Some(ProxyConfig(8089, 9090, 10)))
  {
    var out: seq<Service> := [];
    for i := 0 to |services|
      invariant out == ExportedAll(SelectedServices(services[..i], slices), slices)
    {
      var svc := services[i];
      assert services[..i + 1][..i] == services[..i];
      if |svc.selector| == 0 {
        assert svc.selector == map[];
        continue;
      }
      assert svc.selector != map[];
      if Label(svc.labels, "ananse.io/mesh") != "enabled" {
        continue;
      }
      var endpoints := BuildEndpoints(slices, svc.namespace, svc.name);
      if |endpoints| == 0 {
        continue;
      }
      var servicePort := 0;
      if |svc.ports| > 0 {
        servicePort := svc.ports[0];
      }
      out := out + [Service(svc.name, svc.clusterIP, servicePort, endpoints,
                            [RouteSpec("/" + svc.name, ["GET", "POST", "PUT", "DELETE", "PATCH"])])];
    }
    assert services[..|services|] == services;
    cfg := Config(version, out, Some(ProxyConfig(8089, 9090, 10)));
  }

  predicate Validates(cfg: Config) {
    cfg.proxyConfig.Some? && cfg.services != []
  }

  // ----- Written out -----

  /** The slice is the service's and lists this ready address, with its first port or 8080. */
  predicate Lists(slice: KSlice, s: KService, endpoint: string) {
    && slice.namespace == s.namespace
    && (if "kubernetes.io/service-name" in slice.labels then slice.labels["kubernetes.io/service-name"] else "") == s.name
    && exists j, k :: 0 <= j < |slice.endpoints| && slice.endpoints[j].ready != Some(false) && 0 <= k < |slice.endpoints[j].addresses|
         && endpoint == slice.endpoints[j].addresses[k] + ":" +
                        Decimal(if |slice.ports| > 0 && slice.ports[0].Some? then slice.ports[0].value else 8080)
  }

  lemma KeyedMeans(address: string, port: int)
    ensures Keyed(address, ':', port) == address + ":" + Decimal(port)
  {
  }

  lemma OffersMeans(slice: KSlice, s: KService, endpoint: string)
    ensures Lists(slice, s, endpoint) <==>
            Belongs(slice, s.namespace, s.name) && exists t :: Offers(slice, t) && endpoint == Keyed(t.address, ':', t.port)
  {
    var port := SlicePort(slice);
    if Lists(slice, s, endpoint) {
      var j, k :| 0 <= j < |slice.endpoints| && slice.endpoints[j].ready != Some(false) && 0 <= k < |slice.endpoints[j].addresses|
                  && endpoint == slice.endpoints[j].addresses[k] + ":" + Decimal(port);
      KeyedMeans(slice.endpoints[j].addresses[k], port);
      assert Offers(slice, Target(slice.endpoints[j].addresses[k], port));
    }
    if t :| Offers(slice, t) && endpoint == Keyed(t.address, ':', t.port) && Belongs(slice, s.namespace, s.name) {
      var j :| 0 <= j < |slice.endpoints| && IsReady(slice.endpoints[j]) && t.address in slice.endpoints[j].addresses;
      var k :| 0 <= k < |slice.endpoints[j].addresses| && slice.endpoints[j].addresses[k] == t.address;
      KeyedMeans(t.address, port);
    }
  }

  /** A printed endpoint of a service is a ready address one of its slices lists, and every one is. */
  lemma PrintedExactly(slices: seq<KSlice>, s: KService, endpoint: string)
    ensures endpoint in Printed(SliceTargets(slices, s.namespace, s.name)) <==> exists i :: 0 <= i < |slices| && Lists(slices[i], s, endpoint)
  {
    var ts := SliceTargets(slices, s.namespace, s.name);
    if endpoint in Printed(ts) {
      var n :| 0 <= n < |ts| && Printed(ts)[n] == endpoint;
      TargetsExactly(slices, s.namespace, s.name, ts[n]);
      var i :| 0 <= i < |slices| && Belongs(slices[i], s.namespace, s.name) && Offers(slices[i], ts[n]);
      OffersMeans(slices[i], s, endpoint);
    }
    if i :| 0 <= i < |slices| && Lists(slices[i], s, endpoint) {
      OffersMeans(slices[i], s, endpoint);
      var t :| Offers(slices[i], t) && endpoint == Keyed(t.address, ':', t.port);
      TargetsExactly(slices, s.namespace, s.name, t);
      var n :| 0 <= n < |ts| && ts[n] == t;
      assert Printed(ts)[n] == endpoint;
    }
  }

  /** What is exported of a cluster service. */
  lemma ExportedMeans(s: KService, slices: seq<KSlice>)
    ensures var e := Exported(s, slices);
            && e.name == s.name && e.clusterIP == s.clusterIP && e.port == (if s.ports == [] then 0 else s.ports[0])
            && e.routes == [RouteSpec("/" + s.name, ["GET", "POST", "PUT", "DELETE", "PATCH"])]
            && forall endpoint :: endpoint in e.endpoints <==> exists i :: 0 <= i < |slices| && Lists(slices[i], s, endpoint)
  {
    forall endpoint
      ensures endpoint in Exported(s, slices).endpoints <==> exists i :: 0 <= i < |slices| && Lists(slices[i], s, endpoint)
    {
      PrintedExactly(slices, s, endpoint);
    }
  }

  /** Which cluster services are: those with a selector, the mesh label and a ready address. */
  lemma {:induction false} SelectedExactly(services: seq<KService>, slices: seq<KSlice>, s: KService)
    ensures s in SelectedServices(services, slices) <==>
            && s in services && s.selector != map[]
            && "ananse.io/mesh" in s.labels && s.labels["ananse.io/mesh"] == "enabled"
            && exists i, endpoint :: 0 <= i < |slices| && Lists(slices[i], s, endpoint)
  {
    SelectedMeans(s, slices);
    if services != [] {
      SelectedExactly(services[..|services| - 1], slices, s);
    }
  }

  lemma SelectedMeans(s: KService, slices: seq<KSlice>)
    ensures Selected(s, slices) <==>
            && s.selector != map[] && "ananse.io/mesh" in s.labels && s.labels["ananse.io/mesh"] == "enabled"
            && exists i, endpoint :: 0 <= i < |slices| && Lists(slices[i], s, endpoint)
  {
    var ts := SliceTargets(slices, s.namespace, s.name);
    if ts != [] {
      PrintedExactly(slices, s, Printed(ts)[0]);
    }
    if i, endpoint :| 0 <= i < |slices| && Lists(slices[i], s, endpoint) {
      PrintedExactly(slices, s, endpoint);
    }
  }

  // ----- What the data plane makes of it -----

  predicate DistinctTargets(ts: seq<Target>) {
    forall i, j | 0 <= i < j < |ts| :: ts[i] != ts[j]
  }

  /** A name, and no ready address and port twice. */
  predicate Clean(s: KService, slices: seq<KSlice>) {
    s.name != "" && DistinctTargets(SliceTargets(slices, s.namespace, s.name))
  }

  /** A cache the proxies can work with. */
  predicate WellFormed(ss: seq<KService>, slices: seq<KSlice>) {
    && (forall i | 0 <= i < |ss| :: Clean(ss[i], slices))
    && (forall i, j | 0 <= i < j < |ss| :: ss[i].name != ss[j].name)
  }

  /** Printing keeps targets apart, IPv6 addresses included. */
  lemma PrintedDistinct(ts: seq<Target>)
    ensures Distinct(Printed(ts)) <==> DistinctTargets(ts)
  {
    forall i, j | 0 <= i < j < |ts|
      ensures Printed(ts)[i] == Printed(ts)[j] <==> ts[i] == ts[j]
    {
      if Printed(ts)[i] == Printed(ts)[j] {
        KeyedInjective(ts[i].address, ts[j].address, ':', ts[i].port, ts[j].port);
      }
    }
  }

  lemma ExportedOk(s: KService, slices: seq<KSlice>)
    requires Selected(s, slices)
    ensures ServiceOk(Exported(s, slices)) <==> Clean(s, slices)
  {
    var e := Exported(s, slices);
    PrintedDistinct(SliceTargets(slices, s.namespace, s.name));
    assert e.routes[0].methods[0] != "";
    assert RouteOk(e.routes[0]);
  }

  /** Cross-plane acceptance: what discovery builds and validates, buildRoutingTable accepts exactly
      when the selected services have distinct non-empty names and no service lists a ready
      address and port twice. */
  lemma AcceptedIff(services: seq<KService>, slices: seq<KSlice>)
    ensures var ss := SelectedServices(services, slices);
            ServicesOk(ExportedAll(ss, slices)) <==> WellFormed(ss, slices)
  {
    var ss := SelectedServices(services, slices);
    ListAccepted(ss, ExportedAll(ss, slices), slices);
  }

  /** Every address this config prints is one that url.Parse takes. */
  ghost predicate AllAddressesParse(cfg: Config, parse: UrlParser) {
    forall i, j | 0 <= i < |cfg.services| && 0 <= j < |cfg.services[i].endpoints| ::
      parse(WithScheme(cfg.services[i].endpoints[j])).Some?
  }

  /** Discovery against HandleConfig: the config is applied exactly when it validates, the selected
      services are well formed, and the printed addresses parse; and it never lacks proxy_config. */
  lemma AppliedIff(services: seq<KService>, slices: seq<KSlice>, version: string, cfg: Config, parse: UrlParser)
    requires cfg == Config(version, ExportedAll(SelectedServices(services, slices), slices), Some(ProxyConfig(8089, 9090, 10)))
    ensures Acceptable(Some(cfg), parse) <==>
            Validates(cfg) && WellFormed(SelectedServices(services, slices), slices) && AllAddressesParse(cfg, parse)
    ensures cfg.proxyConfig.Some?
  {
    AcceptedIff(services, slices);
  }

  /** Every discovered service has one path, its name, so distinct names do not compete for a route:
      whatever the orders two proxies iterate in, their path indexes answer alike. */
  lemma DiscoveredPathsAgree(services: seq<KService>, slices: seq<KSlice>, upper: string -> string, t: Services,
                             i: PathIndex, o: seq<string>, i': PathIndex, o': seq<string>, path: string, verb: string)
    requires WellFormed(SelectedServices(services, slices), slices)
    requires IsTableOf(t, ExportedAll(SelectedServices(services, slices), slices), upper)
    requires Enumerates(o, t.Keys) && PathIndexFor(i, t, o) && Enumerates(o', t.Keys) && PathIndexFor(i', t, o')
    ensures PathLookup(i, path, verb) == PathLookup(i', path, verb)
  {
    var es := ExportedAll(SelectedServices(services, slices), slices);
    forall s | s in t && Declares(t[s], path, verb)
      ensures path == "/" + s
    {
      var k :| 0 <= k < |es| && es[k].name == s;
      assert t[s] == CompiledService(es[k], upper);
    }
    forall s, s' | s in t && s' in t && Declares(t[s], path, verb) && Declares(t[s'], path, verb)
      ensures s == s'
    {
      assert path[1..] == s && path[1..] == s';
    }
    PathIndexesAgree(t, i, o, i', o', path, verb);
  }

  lemma ListAccepted(ss: seq<KService>, es: seq<Service>, slices: seq<KSlice>)
    requires |es| == |ss| && forall i | 0 <= i < |ss| :: Selected(ss[i], slices) && es[i] == Exported(ss[i], slices)
    ensures ServicesOk(es) <==> WellFormed(ss, slices)
  {
    forall i | 0 <= i < |ss|
      ensures ServiceOk(es[i]) == Clean(ss[i], slices) && es[i].name == ss[i].name
    {
      ExportedOk(ss[i], slices);
    }
  }
}
