/** Applying a config: CreateBackends and HandleConfig of pkg/proxy/dataplane.go, and
    findRemovedBackends of pkg/proxy/backend.go. url.Parse is a parameter. */
module Dataplane {
  import opened Text
  import opened CircuitBreaker
  import opened Backends
  import opened Balancer
  import opened HealthChecks
  import opened Routing

  type UrlParser = string -> Option<string>

  datatype BackendError = InvalidEndpoint(service: string, address: string) | NoValidServices

  function BackendName(service: string, i: nat): string {
    Keyed(service, '-', i)
  }

  /** Names are unique across all services of a pool, not only within one. */
  lemma BackendNameInjective(s: string, i: nat, s': string, i': nat)
    requires BackendName(s, i) == BackendName(s', i')
    ensures s == s' && i == i'
  {
    KeyedInjective(s, s', '-', i, i');
  }

  predicate HasPrefix(s: string, p: string) {
    p <= s
  }

  function WithScheme(address: string): string {
    if HasPrefix(address, "http://") || HasPrefix(address, "https://") then address else "http://" + address
  }

  /** The non-empty addresses among the first n, by index. */
  function Kept(endpoints: seq<string>, n: nat): (ks: seq<nat>)
    requires n <= |endpoints|
    ensures forall j | 0 <= j < |ks| :: ks[j] < n && endpoints[ks[j]] != ""
  {
    if n == 0 then []
    else if endpoints[n - 1] == "" then Kept(endpoints, n - 1)
    else Kept(endpoints, n - 1) + [n - 1]
  }

  lemma {:induction false} AllKept(endpoints: seq<string>, n: nat)
    requires n <= |endpoints| && forall i | 0 <= i < n :: endpoints[i] != ""
    ensures |Kept(endpoints, n)| == n && forall i | 0 <= i < n :: Kept(endpoints, n)[i] == i
  {
    if n > 0 {
      AllKept(endpoints, n - 1);
    }
  }

  predicate Parses(endpoints: seq<string>, parse: UrlParser, n: nat)
    requires n <= |endpoints|
  {
    forall i | 0 <= i < n && endpoints[i] != "" :: parse(WithScheme(endpoints[i])).Some?
  }

  /** One backend per non-empty address, named by the service and the address's index. */
  ghost predicate BuiltFrom(bs: seq<Backend>, service: string, endpoints: seq<string>, parse: UrlParser, n: nat)
    requires n <= |endpoints|
  {
    var ks := Kept(endpoints, n);
    && Parses(endpoints, parse, n) && |bs| == |ks|
    && forall j | 0 <= j < |bs| ::
         bs[j].name == BackendName(service, ks[j]) && Some(bs[j].target) == parse(WithScheme(endpoints[ks[j]]))
  }

  ghost predicate AllFresh(bs: seq<Backend>)
    reads bs
  {
    forall j | 0 <= j < |bs| :: bs[j].View() == FRESH && bs[j].activeRequest == 0
  }

  lemma BuiltSnoc(bs: seq<Backend>, b: Backend, service: string, endpoints: seq<string>, parse: UrlParser, i: nat)
    requires i < |endpoints| && endpoints[i] != "" && BuiltFrom(bs, service, endpoints, parse, i)
    requires b.name == BackendName(service, i) && Some(b.target) == parse(WithScheme(endpoints[i]))
    ensures BuiltFrom(bs + [b], service, endpoints, parse, i + 1)
  {
    assert Kept(endpoints, i + 1) == Kept(endpoints, i) + [i];
  }

  lemma BuiltSkip(bs: seq<Backend>, service: string, endpoints: seq<string>, parse: UrlParser, i: nat)
    requires i < |endpoints| && endpoints[i] == "" && BuiltFrom(bs, service, endpoints, parse, i)
    ensures BuiltFrom(bs, service, endpoints, parse, i + 1)
  {
  }

  /** The inner loop of CreateBackends. */
  method BackendsFor(service: string, endpoints: seq<string>, parse: UrlParser) returns (r: Result<seq<Backend>, BackendError>)
    ensures r.Ok? <==> Parses(endpoints, parse, |endpoints|)
    ensures r.Ok? ==> BuiltFrom(r.value, service, endpoints, parse, |endpoints|) && AllFresh(r.value)
    ensures r.Ok? ==> forall b | b in r.value :: fresh(b)
    ensures r.Err? ==> r.error.InvalidEndpoint? && r.error.service == service &&
                       r.error.address in endpoints && parse(WithScheme(r.error.address)).None?
  {
    var bs: seq<Backend> := [];
    for i := 0 to |endpoints|
      invariant BuiltFrom(bs, service, endpoints, parse, i)
      invariant AllFresh(bs) && forall b | b in bs :: fresh(b)
    {
      var longer := AddBackend(bs, service, endpoints, parse, i);
      if longer.None? {
        return Err(InvalidEndpoint(service, endpoints[i]));
      }
      bs := longer.value;
    }
    return Ok(bs);
  }

  /** One endpoint: nothing for an empty address, otherwise a backend if the address parses. */
  method AddBackend(bs: seq<Backend>, service: string, endpoints: seq<string>, parse: UrlParser, i: nat) returns (r: Option<seq<Backend>>)
    requires i < |endpoints| && BuiltFrom(bs, service, endpoints, parse, i) && AllFresh(bs)
    ensures r.None? <==> endpoints[i] != "" && parse(WithScheme(endpoints[i])).None?
    ensures r.Some? ==> BuiltFrom(r.value, service, endpoints, parse, i + 1) && AllFresh(r.value)
    ensures r.Some? ==> forall b | b in r.value :: b in bs || fresh(b)
  {
    if endpoints[i] == "" {
      BuiltSkip(bs, service, endpoints, parse, i);
      return Some(bs);
    }
    var u := parse(WithScheme(endpoints[i]));
    if u.None? {
      return None;
    }
    var b := new Backend(BackendName(service, i), u.value);
    BuiltSnoc(bs, b, service, endpoints, parse, i);
    return Some(bs + [b]);
  }

  type Pool = map<string, seq<Backend>>

  /** What CreateBackends makes of the services visited so far. */
  ghost predicate PoolOf(p: Pool, t: Services, visited: set<string>, parse: UrlParser) {
    && (forall s | s in p :: s in visited)
    && (forall s | s in visited :: s in t && Parses(t[s].endpoints, parse, |t[s].endpoints|))
    && (forall s | s in visited :: s in p <==> Kept(t[s].endpoints, |t[s].endpoints|) != [])
    && (forall s | s in p :: BuiltFrom(p[s], s, t[s].endpoints, parse, |t[s].endpoints|))
  }

  ghost predicate AllParse(t: Services, parse: UrlParser) {
    forall s | s in t :: Parses(t[s].endpoints, parse, |t[s].endpoints|)
  }

  method CreateBackends(t: Services, parse: UrlParser) returns (r: Result<Pool, BackendError>)
    ensures r.Ok? <==> AllParse(t, parse) && exists s :: s in t && Kept(t[s].endpoints, |t[s].endpoints|) != []
    ensures r.Ok? ==> PoolOf(r.value, t, t.Keys, parse)
    ensures r.Ok? ==> forall s | s in r.value :: AllFresh(r.value[s]) && forall b | b in r.value[s] :: fresh(b)
  {
    var p: Pool := map[];
    var todo := t.Keys;
    while todo != {}
      invariant todo <= t.Keys && PoolOf(p, t, t.Keys - todo, parse)
      invariant forall s | s in p :: AllFresh(p[s]) && forall b | b in p[s] :: fresh(b)
      decreases todo
    {
      var s :| s in todo;
      var endpoints := t[s].endpoints;
      todo := todo - {s};
      if |endpoints| == 0 {
        continue;
      }
      var bs := BackendsFor(s, endpoints, parse);
      if bs.Err? {
        return Err(bs.error);
      }
      if |bs.value| > 0 {
        p := p[s := bs.value];
      }
    }
    if |p| == 0 {
      assert forall s | s in t :: s !in p;
      return Err(NoValidServices);
    }
    var s :| s in p;
    return Ok(p);
  }

  // ----- Which backends a new pool drops -----

  function NamesOf(bs: seq<Backend>): set<string> {
    set j | 0 <= j < |bs| :: bs[j].name
  }

  /** The old backends of one service whose name the new list does not have, in order. */
  function Unmatched(old_: seq<Backend>, new_: seq<Backend>): seq<Backend> {
    if old_ == [] then []
    else
      var rest := Unmatched(old_[..|old_| - 1], new_);
      if old_[|old_| - 1].name in NamesOf(new_) then rest else rest + [old_[|old_| - 1]]
  }

  ghost function BackendsOf(p: Pool, s: string): seq<Backend> {
    if s in p then p[s] else []
  }

  /** The services' drops, one after the other. */
  ghost function AllUnmatched(order: seq<string>, oldPool: Pool, newPool: Pool): seq<Backend> {
    if order == [] then []
    else
      var s := order[|order| - 1];
      AllUnmatched(order[..|order| - 1], oldPool, newPool) + Unmatched(BackendsOf(oldPool, s), BackendsOf(newPool, s))
  }

  method UnmatchedOf(oldBackends: seq<Backend>, newBackends: seq<Backend>) returns (removed: seq<Backend>)
    ensures removed == Unmatched(oldBackends, newBackends)
  {
    var names: set<string> := {};
    for i := 0 to |newBackends|
      invariant names == NamesOf(newBackends[..i])
    {
      assert newBackends[..i + 1] == newBackends[..i] + [newBackends[i]];
      NamesOfSnoc(newBackends[..i], newBackends[i]);
      names := names + {newBackends[i].name};
    }
    assert newBackends[..|newBackends|] == newBackends;
    removed := [];
    for i := 0 to |oldBackends|
      invariant removed == Unmatched(oldBackends[..i], newBackends)
    {
      assert oldBackends[..i + 1][..i] == oldBackends[..i];
      if oldBackends[i].name !in names {
        removed := removed + [oldBackends[i]];
      }
    }
    assert oldBackends[..|oldBackends|] == oldBackends;
  }

  lemma NamesOfSnoc(bs: seq<Backend>, b: Backend)
    ensures NamesOf(bs + [b]) == NamesOf(bs) + {b.name}
  {
    var longer := bs + [b];
    assert longer[|bs|] == b;
    assert forall j | 0 <= j < |bs| :: longer[j] == bs[j];
  }

  lemma {:induction false} UnmatchedAre(old_: seq<Backend>, new_: seq<Backend>, b: Backend)
    ensures b in Unmatched(old_, new_) <==> b in old_ && b.name !in NamesOf(new_)
  {
    if old_ != [] {
      UnmatchedAre(old_[..|old_| - 1], new_, b);
    }
  }

  /** b serves s in the old pool, and no backend of its name does in the new. */
  ghost predicate Dropped(b: Backend, s: string, oldPool: Pool, newPool: Pool) {
    s in oldPool && b in oldPool[s] && b.name !in NamesOf(BackendsOf(newPool, s))
  }

  lemma {:induction false} AllUnmatchedAre(order: seq<string>, oldPool: Pool, newPool: Pool, b: Backend)
    ensures b in AllUnmatched(order, oldPool, newPool) <==> exists s :: s in order && Dropped(b, s, oldPool, newPool)
  {
    if order != [] {
      var n := |order| - 1;
      AllUnmatchedAre(order[..n], oldPool, newPool, b);
      UnmatchedAre(BackendsOf(oldPool, order[n]), BackendsOf(newPool, order[n]), b);
      assert b in Unmatched(BackendsOf(oldPool, order[n]), BackendsOf(newPool, order[n])) <==> Dropped(b, order[n], oldPool, newPool);
      assert order == order[..n] + [order[n]];
    }
  }

  /** Whatever the order: a backend is removed iff its service's new list has none of its name. */
  lemma RemovedAre(order: seq<string>, oldPool: Pool, newPool: Pool, b: Backend)
    requires Enumerates(order, oldPool.Keys)
    ensures b in AllUnmatched(order, oldPool, newPool) <==> exists s :: Dropped(b, s, oldPool, newPool)
  {
    AllUnmatchedAre(order, oldPool, newPool, b);
    if s :| Dropped(b, s, oldPool, newPool) {
      EnumeratesMember(order, oldPool.Keys, s);
    }
  }

  lemma AllUnmatchedSnoc(order: seq<string>, s: string, oldPool: Pool, newPool: Pool)
    ensures AllUnmatched(order + [s], oldPool, newPool) ==
            AllUnmatched(order, oldPool, newPool) + Unmatched(BackendsOf(oldPool, s), BackendsOf(newPool, s))
  {
    assert (order + [s])[..|order|] == order;
  }

  lemma EnumerateNext(order: seq<string>, keys: set<string>, todo: set<string>, s: string)
    requires todo <= keys && s in todo && Enumerates(order, keys - todo)
    ensures Enumerates(order + [s], keys - (todo - {s}))
  {
    EnumerateSnoc(order, keys - todo, s);
    assert keys - todo + {s} == keys - (todo - {s});
  }

  method FindRemovedBackends(oldPool: Pool, newPool: Pool) returns (removed: seq<Backend>, ghost order: seq<string>)
    ensures Enumerates(order, oldPool.Keys) && removed == AllUnmatched(order, oldPool, newPool)
    ensures forall b :: b in removed <==> exists s :: Dropped(b, s, oldPool, newPool)
  {
    removed, order := [], [];
    var todo := oldPool.Keys;
    while todo != {}
      invariant todo <= oldPool.Keys && Enumerates(order, oldPool.Keys - todo)
      invariant removed == AllUnmatched(order, oldPool, newPool)
      decreases todo
    {
      var s :| s in todo;
      EnumerateNext(order, oldPool.Keys, todo, s);
      AllUnmatchedSnoc(order, s, oldPool, newPool);
      var newBackends := if s in newPool then newPool[s] else [];
      var dropped := UnmatchedOf(oldPool[s], newBackends);
      removed := removed + dropped;
      order := order + [s];
      todo := todo - {s};
    }
    assert oldPool.Keys - {} == oldPool.Keys;
    forall b
      ensures b in removed <==> exists s :: Dropped(b, s, oldPool, newPool)
    {
      RemovedAre(order, oldPool, newPool, b);
    }
  }

  /** Backends numbered from 0 without gaps, as an accepted table gives them. */
  ghost predicate Numbered(bs: seq<Backend>, service: string) {
    forall j | 0 <= j < |bs| :: bs[j].name == BackendName(service, j)
  }

  /** The backends beyond the first n. */
  function Beyond(bs: seq<Backend>, n: nat): seq<Backend> {
    if n < |bs| then bs[n..] else []
  }

  lemma BeyondSnoc(bs: seq<Backend>, n: nat)
    requires bs != []
    ensures Beyond(bs, n) == Beyond(bs[..|bs| - 1], n) + if n < |bs| then [bs[|bs| - 1]] else []
  {
  }

  lemma {:induction false} UnmatchedIsSuffix(old_: seq<Backend>, new_: seq<Backend>, service: string)
    requires Numbered(old_, service) && Numbered(new_, service)
    ensures Unmatched(old_, new_) == Beyond(old_, |new_|)
  {
    if old_ != [] {
      var n := |old_| - 1;
      UnmatchedIsSuffix(old_[..n], new_, service);
      assert old_[n].name in NamesOf(new_) <==> n < |new_| by {
        NumberedName(new_, service, n);
      }
      BeyondSnoc(old_, |new_|);
    }
  }

  lemma NumberedName(bs: seq<Backend>, service: string, n: nat)
    requires Numbered(bs, service)
    ensures BackendName(service, n) in NamesOf(bs) <==> n < |bs|
  {
    if n < |bs| {
      assert bs[n].name in NamesOf(bs);
    }
    if j :| 0 <= j < |bs| && bs[j].name == BackendName(service, n) {
      BackendNameInjective(service, j, service, n);
    }
  }

  /** The drops of pools built from accepted tables: per service, the old suffix beyond the new
      length. */
  ghost function Suffixes(order: seq<string>, oldPool: Pool, newPool: Pool): seq<Backend> {
    if order == [] then []
    else
      var s := order[|order| - 1];
      Suffixes(order[..|order| - 1], oldPool, newPool) + Beyond(BackendsOf(oldPool, s), |BackendsOf(newPool, s)|)
  }

  ghost function Excess(order: seq<string>, oldPool: Pool, newPool: Pool): nat {
    if order == [] then 0
    else
      var s := order[|order| - 1];
      var o, n := |BackendsOf(oldPool, s)|, |BackendsOf(newPool, s)|;
      Excess(order[..|order| - 1], oldPool, newPool) + if n < o then o - n else 0
  }

  lemma {:induction false} RemovedAreSuffixes(order: seq<string>, oldPool: Pool, newPool: Pool)
    requires forall s | s in oldPool :: Numbered(oldPool[s], s)
    requires forall s | s in newPool :: Numbered(newPool[s], s)
    ensures AllUnmatched(order, oldPool, newPool) == Suffixes(order, oldPool, newPool)
    ensures |AllUnmatched(order, oldPool, newPool)| == Excess(order, oldPool, newPool)
  {
    if order != [] {
      var s := order[|order| - 1];
      RemovedAreSuffixes(order[..|order| - 1], oldPool, newPool);
      UnmatchedIsSuffix(BackendsOf(oldPool, s), BackendsOf(newPool, s), s);
    }
  }

  lemma AcceptedIsNumbered(bs: seq<Backend>, service: string, endpoints: seq<string>, parse: UrlParser)
    requires EndpointsOk(endpoints) && BuiltFrom(bs, service, endpoints, parse, |endpoints|)
    ensures Numbered(bs, service) && |bs| == |endpoints|
    ensures forall j | 0 <= j < |bs| :: Some(bs[j].target) == parse(WithScheme(endpoints[j]))
  {
    AllKept(endpoints, |endpoints|);
  }

  lemma NumberedIsDistinct(bs: seq<Backend>, service: string)
    requires Numbered(bs, service)
    ensures NamesDistinct(bs)
  {
    forall i, j | 0 <= i < j < |bs|
      ensures bs[i].name != bs[j].name
    {
      if bs[i].name == bs[j].name {
        BackendNameInjective(service, i, service, j);
      }
    }
  }

  // ----- HandleConfig -----

  /** What a config needs to be applied. */
  ghost predicate Acceptable(cfg: Option<Config>, parse: UrlParser) {
    && cfg.Some? && ServicesOk(cfg.value.services) && cfg.value.services != []
    && forall i, j | 0 <= i < |cfg.value.services| && 0 <= j < |cfg.value.services[i].endpoints| ::
         parse(WithScheme(cfg.value.services[i].endpoints[j])).Some?
  }

  /** Backend i of a service targets its endpoint i. */
  ghost predicate Serves(bs: seq<Backend>, s: Service, parse: UrlParser) {
    && Numbered(bs, s.name) && |bs| == |s.endpoints|
    && forall j | 0 <= j < |bs| :: Some(bs[j].target) == parse(WithScheme(s.endpoints[j]))
  }

  ghost predicate PoolServes(p: Pool, ss: seq<Service>, parse: UrlParser) {
    && p.Keys == ServiceNames(ss)
    && forall i | 0 <= i < |ss| :: Serves(p[ss[i].name], ss[i], parse)
  }

  /** Backend j of a service is called after it and j, and goes where its address says, over plain HTTP
      unless the address has a scheme. */
  lemma ServingMeans(bs: seq<Backend>, s: Service, parse: UrlParser)
    requires Serves(bs, s, parse)
    ensures forall j | 0 <= j < |bs| ::
              var address := s.endpoints[j];
              && bs[j].name == s.name + "-" + Decimal(j)
              && Some(bs[j].target) == parse(if "http://" <= address || "https://" <= address then address else "http://" + address)
  {
    forall j | 0 <= j < |bs|
      ensures bs[j].name == s.name + "-" + Decimal(j)
    {
      assert Keyed(s.name, '-', j) == s.name + "-" + Decimal(j);
    }
  }

  /** What makes a service acceptable, written out. */
  predicate AcceptableService(s: Service, parse: UrlParser) {
    && s.name != "" && s.endpoints != [] && s.routes != []
    && (forall j | 0 <= j < |s.endpoints| ::
          var address := s.endpoints[j];
          address != "" && parse(if "http://" <= address || "https://" <= address then address else "http://" + address).Some?)
    && (forall j, k | 0 <= j < k < |s.endpoints| :: s.endpoints[j] != s.endpoints[k])
    && (forall j | 0 <= j < |s.routes| :: s.routes[j].path != "" && exists m :: 0 <= m < |s.routes[j].methods| && s.routes[j].methods[m] != "")
  }

  lemma ServiceOkMeans(s: Service, parse: UrlParser)
    ensures ServiceOk(s) && (forall j | 0 <= j < |s.endpoints| :: parse(WithScheme(s.endpoints[j])).Some?) <==> AcceptableService(s, parse)
  {
  }

  /** HandleConfig's condition: a config with at least one service, all acceptable, no name twice. */
  lemma AcceptableMeans(cfg: Option<Config>, parse: UrlParser)
    ensures Acceptable(cfg, parse) <==>
            && cfg.Some? && cfg.value.services != []
            && (forall i | 0 <= i < |cfg.value.services| :: AcceptableService(cfg.value.services[i], parse))
            && (forall i, j | 0 <= i < j < |cfg.value.services| :: cfg.value.services[i].name != cfg.value.services[j].name)
  {
    if cfg.Some? {
      forall i | 0 <= i < |cfg.value.services|
        ensures ServiceOk(cfg.value.services[i]) &&
                (forall j | 0 <= j < |cfg.value.services[i].endpoints| :: parse(WithScheme(cfg.value.services[i].endpoints[j])).Some?)
                <==> AcceptableService(cfg.value.services[i], parse)
      {
        ServiceOkMeans(cfg.value.services[i], parse);
      }
    }
  }

  lemma TableParses(t: Services, ss: seq<Service>, upper: string -> string, parse: UrlParser)
    requires ServicesOk(ss) && IsTableOf(t, ss, upper)
    ensures AllParse(t, parse) && (exists s :: s in t && Kept(t[s].endpoints, |t[s].endpoints|) != [])
            <==> Acceptable(Some(Config("", ss, None)), parse)
  {
    if AllParse(t, parse) {
      forall i, j | 0 <= i < |ss| && 0 <= j < |ss[i].endpoints|
        ensures parse(WithScheme(ss[i].endpoints[j])).Some?
      {
        assert ss[i].name in ServiceNames(ss);
        assert Parses(t[ss[i].name].endpoints, parse, |ss[i].endpoints|);
      }
    }
    if ss != [] {
      assert ss[0].name in ServiceNames(ss) && ServiceOk(ss[0]);
      AllKept(ss[0].endpoints, |ss[0].endpoints|);
    }
  }

  lemma PoolServesConfig(p: Pool, t: Services, ss: seq<Service>, upper: string -> string, parse: UrlParser)
    requires ServicesOk(ss) && IsTableOf(t, ss, upper) && PoolOf(p, t, t.Keys, parse)
    ensures PoolServes(p, ss, parse)
  {
    forall i | 0 <= i < |ss|
      ensures ss[i].name in p && Serves(p[ss[i].name], ss[i], parse)
    {
      var name := ss[i].name;
      assert name in ServiceNames(ss) && ServiceOk(ss[i]);
      AllKept(ss[i].endpoints, |ss[i].endpoints|);
      AcceptedIsNumbered(p[name], name, ss[i].endpoints, parse);
    }
  }

  lemma ServingPoolIsValid(p: Pool, ss: seq<Service>, parse: UrlParser, s: string)
    requires ServicesOk(ss) && PoolServes(p, ss, parse) && s in p
    ensures NamesDistinct(p[s]) && p[s] != []
  {
    var i :| 0 <= i < |ss| && ss[i].name == s;
    assert ServiceOk(ss[i]);
    NumberedIsDistinct(p[s], s);
  }

  /** For any two applied configs and any iteration order: the removed backends are, service by
      service, the old suffix beyond the new length, and there are as many as the lengths differ. */
  lemma RemovedBetweenConfigs(order: seq<string>, oldPool: Pool, oldServices: seq<Service>, newPool: Pool, newServices: seq<Service>,
                              parse: UrlParser)
    requires PoolServes(oldPool, oldServices, parse) && PoolServes(newPool, newServices, parse) && Enumerates(order, oldPool.Keys)
    ensures AllUnmatched(order, oldPool, newPool) == Suffixes(order, oldPool, newPool)
    ensures |AllUnmatched(order, oldPool, newPool)| == Excess(order, oldPool, newPool)
  {
    ServingIsNumbered(oldPool, oldServices, parse);
    ServingIsNumbered(newPool, newServices, parse);
    RemovedAreSuffixes(order, oldPool, newPool);
  }

  lemma ServingIsNumbered(p: Pool, ss: seq<Service>, parse: UrlParser)
    requires PoolServes(p, ss, parse)
    ensures forall s | s in p :: Numbered(p[s], s)
  {
    forall s | s in p
      ensures Numbered(p[s], s)
    {
      var i :| 0 <= i < |ss| && ss[i].name == s;
      assert Serves(p[s], ss[i], parse);
    }
  }

  /** Backend names carry their service, so no backend is shared between services. */
  lemma ServingIsSeparate(p: Pool, ss: seq<Service>, parse: UrlParser, s: string, t: string, b: Backend)
    requires PoolServes(p, ss, parse) && s in p && t in p && b in p[s] && b in p[t]
    ensures s == t
  {
    ServingIsNumbered(p, ss, parse);
    var i :| 0 <= i < |p[s]| && p[s][i] == b;
    var j :| 0 <= j < |p[t]| && p[t][j] == b;
    BackendNameInjective(s, i, t, j);
  }

  /** Every service in the pool has a backend. */
  predicate NoneEmpty(p: Pool) {
    forall s | s in p :: p[s] != []
  }

  /** The config that is neither applied nor rejected: acceptable, but without proxy_config. */
  lemma AcceptableWithoutProxyConfig() returns (cfg: Config, parse: UrlParser)
    ensures Acceptable(Some(cfg), parse) && cfg.proxyConfig.None?
  {
    var route := RouteSpec("/pay", ["GET"]);
    var service := Service("pay", "10.0.0.1", 80, ["10.1.2.3:8080"], [route]);
    cfg, parse := Config("v1", [service], None), s => Some(s);
    assert route.methods[0] != "" && RouteOk(route);
  }

  /** An interval the health ticker can run at. */
  predicate Survivable(cfg: Config) {
    cfg.proxyConfig.Some? && cfg.proxyConfig.value.healthCheckIntervalSeconds > 0
  }

  /** One that kills the proxy although all of it is applied. */
  lemma AcceptableWithoutInterval() returns (cfg: Config, parse: UrlParser)
    ensures Acceptable(Some(cfg), parse) && cfg.proxyConfig.Some? && !Survivable(cfg)
  {
    cfg, parse := AcceptableWithoutProxyConfig();
    cfg := cfg.(proxyConfig := Some(ProxyConfig(8089, 9090, 0)));
  }

  /** Crashed is the nil dereference half way, TickerPanics the death of the checker's goroutine once
      everything is in place. */
  datatype ApplyOutcome = Rejected | Applied | Crashed | TickerPanics

  class ProxyState {
    var lastAppliedConfig: Option<Config>
    var lastAppliedVersion: string
    var routingTable: Option<RoutingTable>
    var pool: BackendPool?
    var lb: LoadBalancer?
    var health: Health?
    const router: Router

    constructor ()
      ensures Valid() && fresh(router) && pool == null && lb == null && health == null
      ensures lastAppliedConfig == None && lastAppliedVersion == ""
    {
      lastAppliedConfig, lastAppliedVersion, routingTable := None, "", None;
      pool, lb, health := null, null, null;
      router := new Router();
      new;
      EmptyIsIndexed();
    }

    ghost predicate Valid()
      reads this, router, pool, lb, health
    {
      && router.Indexed()
      && (pool != null ==> pool.Valid() && NoneEmpty(pool.backends))
      && (lb != null ==> pool != null && lb.pool == pool)
      && (health != null ==> pool != null && health.pool == pool && health.checkInterval > 0)
    }

    lemma EmptyIsIndexed()
      requires router.routingTable == RoutingTable(map[], map[], None)
      ensures router.Indexed()
    {
      var t := router.routingTable;
      assert Enumerates([], t.services.Keys) && PathIndexFor(t.pathIndex, t.services, []);
    }

    /** Router and pool serve this config, and every service the router can answer with has
        backends. */
    ghost predicate Installed(cfg: Config, upper: string -> string, parse: UrlParser)
      reads this, router, pool
    {
      && IsTableOf(router.routingTable.services, cfg.services, upper) && RoutesConfig(router.routingTable, cfg.services, upper)
      && pool != null && PoolServes(pool.backends, cfg.services, parse)
      && (forall s | s in router.routingTable.services :: s in pool.backends && pool.backends[s] != [])
    }

    /** A config is applied completely or not at all, unless it is acceptable but lacks its
        proxy_config: then router and pool have already been swapped when the health interval is
        read and the process dies on it. The process survives exactly the configs that are not
        acceptable or have an interval to tick at. Every applied config starts all breakers over. */
    method HandleConfig(cfg: Option<Config>, upper: string -> string, parse: UrlParser) returns (outcome: ApplyOutcome)
      requires Valid()
      modifies this, router, pool, health
      ensures outcome.Rejected? <==> !Acceptable(cfg, parse)
      ensures outcome.Applied? <==> Acceptable(cfg, parse) && Survivable(cfg.value)
      ensures outcome.Crashed? <==> Acceptable(cfg, parse) && cfg.value.proxyConfig.None?
      ensures outcome.Rejected? ==> unchanged(this) && unchanged(router) && (pool != null ==> unchanged(pool)) && (health != null ==> unchanged(health))
      ensures !outcome.Rejected? ==>
                Installed(cfg.value, upper, parse) && forall s | s in pool.backends :: AllFresh(pool.backends[s])
      ensures outcome.Crashed? ==> lastAppliedVersion == old(lastAppliedVersion) && lastAppliedConfig == old(lastAppliedConfig)
      ensures outcome.Applied? || outcome.TickerPanics? ==> Recorded(cfg.value)
      ensures outcome.Applied? ==> Valid()
      ensures OwnOrFresh(old(pool), old(health))
    {
      var built := Build(cfg, upper, parse);
      if built.None? {
        return Rejected;
      }
      outcome := Commit(cfg.value, built.value.0, built.value.1, upper, parse);
    }

    /** The last part of the locked section is done. */
    ghost predicate Recorded(cfg: Config)
      reads this, health
    {
      && lastAppliedVersion == cfg.version && lastAppliedConfig == Some(cfg) && pool != null && lb != null && health != null
      && cfg.proxyConfig.Some? && health.checkInterval == cfg.proxyConfig.value.healthCheckIntervalSeconds * SECOND
    }

    /** Pool and checker, once made, are kept. */
    twostate predicate OwnOrFresh(oldPool: BackendPool?, oldHealth: Health?)
      reads this
    {
      && (if oldPool != null then pool == oldPool else pool == null || fresh(pool))
      && (if oldHealth != null then health == oldHealth else health == null || fresh(health))
    }

    /** Everything that can fail, before anything is touched. */
    method Build(cfg: Option<Config>, upper: string -> string, parse: UrlParser) returns (r: Option<(RoutingTable, Pool)>)
      ensures r.Some? <==> Acceptable(cfg, parse)
      ensures r.Some? ==>
                && IsTableOf(r.value.0.services, cfg.value.services, upper)
                && PoolServes(r.value.1, cfg.value.services, parse)
                && forall s | s in r.value.1 :: AllFresh(r.value.1[s])
    {
      var rt := BuildRoutingTable(cfg, upper);
      if rt.Err? {
        return None;
      }
      TableParses(rt.value.services, cfg.value.services, upper, parse);
      var backends := CreateBackends(rt.value.services, parse);
      if backends.Err? {
        return None;
      }
      PoolServesConfig(backends.value, rt.value.services, cfg.value.services, upper, parse);
      return Some((rt.value, backends.value));
    }

    /** The locked section. */
    method Commit(cfg: Config, rt: RoutingTable, p: Pool, ghost upper: string -> string, ghost parse: UrlParser) returns (outcome: ApplyOutcome)
      requires Valid() && ServicesOk(cfg.services) && IsTableOf(rt.services, cfg.services, upper) && PoolServes(p, cfg.services, parse)
      modifies this, router, pool, health
      ensures outcome == if cfg.proxyConfig.None? then Crashed else if Survivable(cfg) then Applied else TickerPanics
      ensures Installed(cfg, upper, parse) && pool.backends == p
      ensures outcome.Crashed? ==> lastAppliedVersion == old(lastAppliedVersion) && lastAppliedConfig == old(lastAppliedConfig)
      ensures !outcome.Crashed? ==> Recorded(cfg)
      ensures outcome.Applied? ==> Valid()
      ensures OwnOrFresh(old(pool), old(health))
    {
      Install(rt, p, cfg.services, upper, parse);
      if cfg.proxyConfig.None? {
        return Crashed;
      }
      var panics := SetHealth(cfg.proxyConfig.value.healthCheckIntervalSeconds * SECOND);
      lastAppliedConfig := Some(cfg);
      lastAppliedVersion := cfg.version;
      routingTable := Some(rt);
      return if panics then TickerPanics else Applied;
    }

    /** The first half of the locked section: router, pool, balancer. */
    method Install(rt: RoutingTable, p: Pool, ghost ss: seq<Service>, ghost upper: string -> string, ghost parse: UrlParser)
      requires Valid() && ServicesOk(ss) && IsTableOf(rt.services, ss, upper) && PoolServes(p, ss, parse)
      modifies this`pool, this`lb, router, pool
      ensures Valid() && pool != null && pool.backends == p && lb != null && health == old(health)
      ensures if old(pool) != null then pool == old(pool) else fresh(pool)
      ensures router.routingTable.services == rt.services && RoutesConfig(router.routingTable, ss, upper)
      ensures old(lb) == null ==> lb.strategy == "round-robin"
      ensures old(lb) != null ==> lb == old(lb)
      ensures forall s | s in rt.services :: s in p && p[s] != []
    {
      forall s | s in p
        ensures NamesDistinct(p[s]) && p[s] != []
      {
        ServingPoolIsValid(p, ss, parse, s);
      }
      InstallRoutes(rt);
      TableRoutesConfig(router.routingTable, ss, upper);
      InstallPool(p);
    }

    /** The second swap. */
    method InstallPool(p: Pool)
      requires Valid() && NoneEmpty(p) && forall s | s in p :: NamesDistinct(p[s])
      modifies this`pool, this`lb, pool
      ensures Valid() && pool != null && pool.backends == p && lb != null && health == old(health)
      ensures if old(pool) != null then pool == old(pool) else fresh(pool)
      ensures old(lb) == null ==> lb.strategy == "round-robin"
      ensures old(lb) != null ==> lb == old(lb)
    {
      if pool == null {
        pool := new BackendPool(p);
      } else {
        pool.UpdateBackends(p);
      }
      if lb == null {
        lb := new LoadBalancer("round-robin", pool);
      }
    }

    /** A request for this service finds backends to choose from. */
    ghost predicate Routable(service: string)
      reads this, pool
    {
      pool != null && service in pool.backends && pool.backends[service] != []
    }

    /** The first of the two swaps. What readers see before the second: the new routes, and a hit has
        backends exactly when its service is in the old pool. */
    method InstallRoutes(rt: RoutingTable)
      requires Valid()
      modifies router
      ensures Valid() && router.routingTable.services == rt.services && router.routingTable.vipIndex.Some?
      ensures PathsSound(router.routingTable.pathIndex, rt.services) && VipsSound(router.routingTable.vipIndex.value, rt.services)
      ensures forall s | s in router.routingTable.services :: Routable(s) <==> pool != null && s in pool.backends
    {
      router.UpdateRoutes(rt);
    }

    method SetHealth(newInterval: int) returns (panics: bool)
      requires Valid() && pool != null
      modifies this`health, health
      ensures panics <==> newInterval <= 0
      ensures !panics ==> Valid()
      ensures health != null && health.checkInterval == newInterval
      ensures if old(health) != null then health == old(health) else fresh(health)
    {
      if health == null {
        health := new Health(pool, newInterval);
        panics := health.StartChecking();
      } else {
        var interval := health.GetHealthCheckInterval();
        panics := false;
        if newInterval != interval {
          panics := health.Restart(newInterval);
        }
      }
    }
  }
}
