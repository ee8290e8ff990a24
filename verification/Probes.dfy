/** Health probes through the sidecar: rewriteProbes, storeProbeAnnotation and getProbePort of
    controlplane/injector/injector.go print, initProbeConfigs and handleAppHealthProxy of
    pkg/proxy/listener.go read back. */
module Probes {
  import opened MachineInts
  import opened Text

  const SIDECAR_ADMIN_PORT := 15021
  const APP_HEALTH: string := "/app-health/"

  type Int32 = n: int | -MAX_INT32 - 1 <= n <= MAX_INT32
  type Int64 = n: int | MIN_INT64 <= n <= MAX_INT64

  datatype IntOrString = IntPort(value: Int32) | Named(text: string)

  datatype HttpGet = HttpGet(path: string, port: IntOrString)

  /** http is None for TCP, exec and gRPC probes; rest stands for every other field. */
  datatype Probe = Probe(http: Option<HttpGet>, rest: int)

  datatype Kind = Liveness | Readiness | Startup

  const KINDS: seq<Kind> := [Liveness, Readiness, Startup]

  datatype ContainerPort = ContainerPort(name: string, port: Int32)

  datatype Container = Container(name: string, ports: seq<ContainerPort>,
                                 liveness: Option<Probe>, readiness: Option<Probe>, startup: Option<Probe>)

  datatype ProbeConfig = ProbeConfig(port: Int64, path: string)

  datatype Annotation = Plain(text: string) | Original(config: ProbeConfig)

  datatype EnvVar = EnvVar(name: string, value: string)

  function KindName(k: Kind): string {
    match k case Liveness => "liveness" case Readiness => "readiness" case Startup => "startup"
  }

  function KindUpper(k: Kind): string {
    match k case Liveness => "LIVENESS" case Readiness => "READINESS" case Startup => "STARTUP"
  }

  function Endpoint(k: Kind): string {
    match k case Liveness => "livez" case Readiness => "readyz" case Startup => "startupz"
  }

  function PortVar(k: Kind): string {
    "ANANSE_" + KindUpper(k) + "_PORT"
  }

  function PathVar(k: Kind): string {
    "ANANSE_" + KindUpper(k) + "_PATH"
  }

  function ProbeOf(c: Container, k: Kind): Option<Probe> {
    match k case Liveness => c.liveness case Readiness => c.readiness case Startup => c.startup
  }

  function WithProbe(c: Container, k: Kind, p: Option<Probe>): Container {
    match k
    case Liveness => c.(liveness := p)
    case Readiness => c.(readiness := p)
    case Startup => c.(startup := p)
  }

  // ----- The injector -----

  predicate Skipped(c: Container) {
    c.name == "ananse-proxy" || c.name == "ananse-init"
  }

  predicate HasHttp(c: Container, k: Kind) {
    ProbeOf(c, k).Some? && ProbeOf(c, k).value.http.Some?
  }

  function Http(c: Container, k: Kind): HttpGet
    requires HasHttp(c, k)
  {
    ProbeOf(c, k).value.http.value
  }

  /** The first container port of that name. */
  function FindPort(ports: seq<ContainerPort>, name: string): Option<Int32> {
    if ports == [] then None
    else if ports[0].name == name then Some(ports[0].port)
    else FindPort(ports[1..], name)
  }

  function AtoiRange(s: string): Int64
    requires IsInt(s)
  {
    Atoi(s)
  }

  function ResolvedPort(port: IntOrString, ports: seq<ContainerPort>): Int64 {
    match port
    case IntPort(v) => v
    case Named(text) =>
      if FindPort(ports, text).Some? then FindPort(ports, text).value
      else if IsInt(text) then AtoiRange(text)
      else 8080
  }

  method GetProbePort(port: IntOrString, c: Container) returns (r: Int64)
    ensures r == ResolvedPort(port, c.ports)
    ensures port.IntPort? ==> r == port.value
    ensures port.Named? ==>
              if exists i :: 0 <= i < |c.ports| && c.ports[i].name == port.text
              then exists i :: 0 <= i < |c.ports| && c.ports[i].name == port.text && c.ports[i].port == r &&
                               forall j | 0 <= j < i :: c.ports[j].name != port.text
              else r == if IsInt(port.text) then Atoi(port.text) else 8080
  {
    if port.IntPort? {
      return port.value;
    }
    for i := 0 to |c.ports|
      invariant forall j | 0 <= j < i :: c.ports[j].name != port.text
      invariant FindPort(c.ports, port.text) == FindPort(c.ports[i..], port.text)
    {
      if c.ports[i].name == port.text {
        return c.ports[i].port;
      }
    }
    if IsInt(port.text) {
      return AtoiRange(port.text);
    }
    return 8080;
  }

  /** What a probe was before it is rewritten. */
  function OriginalOf(c: Container, k: Kind): ProbeConfig
    requires HasHttp(c, k)
  {
    var h := Http(c, k);
    ProbeConfig(ResolvedPort(h.port, c.ports), if h.path == "" then "/" else h.path)
  }

  function RewrittenPath(name: string, k: Kind): string {
    APP_HEALTH + name + "/" + Endpoint(k)
  }

  /** The port turned to the sidecar, the path to its handler; probes that are not HTTP as they were. */
  function RewrittenProbe(c: Container, k: Kind): Option<Probe> {
    if HasHttp(c, k)
    then Some(ProbeOf(c, k).value.(http := Some(HttpGet(RewrittenPath(c.name, k), IntPort(SIDECAR_ADMIN_PORT)))))
    else ProbeOf(c, k)
  }

  function Rewritten(c: Container): (r: Container)
    ensures r.name == c.name && r.ports == c.ports
    ensures forall k: Kind :: ProbeOf(r, k) == if Skipped(c) then ProbeOf(c, k) else RewrittenProbe(c, k)
  {
    if Skipped(c) then c
    else c.(liveness := RewrittenProbe(c, Liveness), readiness := RewrittenProbe(c, Readiness), startup := RewrittenProbe(c, Startup))
  }

  /** One rewritten probe: whose, which, and what it was. */
  datatype Saved = Saved(name: string, kind: Kind, config: ProbeConfig)

  function SavedOne(c: Container, k: Kind): seq<Saved> {
    if !Skipped(c) && HasHttp(c, k) then [Saved(c.name, k, OriginalOf(c, k))] else []
  }

  function SavedFor(c: Container): seq<Saved> {
    SavedOne(c, Liveness) + SavedOne(c, Readiness) + SavedOne(c, Startup)
  }

  function SavedAll(cs: seq<Container>): seq<Saved> {
    if cs == [] then [] else SavedAll(cs[..|cs| - 1]) + SavedFor(cs[|cs| - 1])
  }

  function EnvFor(s: Saved): seq<EnvVar> {
    [EnvVar(PortVar(s.kind), Decimal(s.config.port)), EnvVar(PathVar(s.kind), s.config.path)]
  }

  function EnvOf(saved: seq<Saved>): seq<EnvVar> {
    if saved == [] then [] else EnvOf(saved[..|saved| - 1]) + EnvFor(saved[|saved| - 1])
  }

  function AnnotationKey(k: Kind, name: string): string {
    "ananse.io/original-" + KindName(k) + "-probe-" + name
  }

  function Annotated(before: map<string, Annotation>, saved: seq<Saved>): map<string, Annotation> {
    if saved == [] then before
    else
      var s := saved[|saved| - 1];
      Annotated(before, saved[..|saved| - 1])[AnnotationKey(s.kind, s.name) := Original(s.config)]
  }

  lemma SavedSnoc(saved: seq<Saved>, s: Saved, before: map<string, Annotation>)
    ensures EnvOf(saved + [s]) == EnvOf(saved) + EnvFor(s)
    ensures Annotated(before, saved + [s]) == Annotated(before, saved)[AnnotationKey(s.kind, s.name) := Original(s.config)]
  {
    assert (saved + [s])[..|saved|] == saved;
  }

  /** What a rewritten container looks like: its HTTP probes lead to the sidecar, everything else about
      it and every other probe is as it was, and so are the sidecar's own containers. */
  lemma RewrittenMeans(c: Container, k: Kind)
    ensures var r := Rewritten(c);
            var endpoint := match k case Liveness => "livez" case Readiness => "readyz" case Startup => "startupz";
            && r.name == c.name && r.ports == c.ports
            && (c.name == "ananse-proxy" || c.name == "ananse-init" || !HasHttp(c, k) ==> ProbeOf(r, k) == ProbeOf(c, k))
            && (c.name != "ananse-proxy" && c.name != "ananse-init" && HasHttp(c, k) ==>
                  && HasHttp(r, k) && Http(r, k).port == IntPort(15021)
                  && Http(r, k).path == "/app-health/" + c.name + "/" + endpoint
                  && ProbeOf(r, k).value.rest == ProbeOf(c, k).value.rest)
  {
  }

  /** What is kept of an HTTP probe. */
  lemma OriginalMeans(c: Container, k: Kind)
    requires HasHttp(c, k)
    ensures OriginalOf(c, k).path == if Http(c, k).path == "" then "/" else Http(c, k).path
    ensures OriginalOf(c, k).port == ResolvedPort(Http(c, k).port, c.ports)
  {
  }

  /** The names both ends agree on. */
  lemma PortVarMeans(k: Kind)
    ensures PortVar(k) == match k
                          case Liveness => "ANANSE_LIVENESS_PORT"
                          case Readiness => "ANANSE_READINESS_PORT"
                          case Startup => "ANANSE_STARTUP_PORT"
  {
  }

  lemma PathVarMeans(k: Kind)
    ensures PathVar(k) == match k
                          case Liveness => "ANANSE_LIVENESS_PATH"
                          case Readiness => "ANANSE_READINESS_PATH"
                          case Startup => "ANANSE_STARTUP_PATH"
  {
  }

  lemma KeysMean(k: Kind, name: string)
    ensures var kind := match k case Liveness => "liveness" case Readiness => "readiness" case Startup => "startup";
            AnnotationKey(k, name) == "ananse.io/original-" + kind + "-probe-" + name && CacheKey(name, k) == name + "-" + kind
  {
  }

  /** Rewriting one kind of probe leaves the others to be rewritten. */
  lemma KindsAreIndependent(c: Container, j: Kind, p: Option<Probe>, k: Kind)
    requires j != k
    ensures var c' := WithProbe(c, j, p);
            SavedOne(c', k) == SavedOne(c, k) && RewrittenProbe(c', k) == RewrittenProbe(c, k)
  {
  }

  class Pod {
    var containers: seq<Container>
    var annotations: map<string, Annotation>

    method StoreProbeAnnotation(name: string, k: Kind, config: ProbeConfig)
      modifies this`annotations
      ensures annotations == old(annotations)[AnnotationKey(k, name) := Original(config)]
    {
      annotations := annotations[AnnotationKey(k, name) := Original(config)];
    }

    /** One of the three blocks of the loop's body, for the container c it has at hand. saved is what
        has been rewritten so far. */
    method RewriteProbe(c: Container, k: Kind, env: seq<EnvVar>, ghost saved: seq<Saved>, ghost before: map<string, Annotation>)
        returns (c': Container, env': seq<EnvVar>)
      requires !Skipped(c) && env == EnvOf(saved) && annotations == Annotated(before, saved)
      modifies this`annotations
      ensures c' == WithProbe(c, k, RewrittenProbe(c, k))
      ensures env' == EnvOf(saved + SavedOne(c, k)) && annotations == Annotated(before, saved + SavedOne(c, k))
    {
      c', env' := c, env;
      if HasHttp(c, k) {
        var http := Http(c, k);
        var port := GetProbePort(http.port, c);
        var path := http.path;
        if path == "" {
          path := "/";
        }
        StoreProbeAnnotation(c.name, k, ProbeConfig(port, path));
        env' := env' + [EnvVar(PortVar(k), Decimal(port)), EnvVar(PathVar(k), path)];
        SavedSnoc(saved, Saved(c.name, k, ProbeConfig(port, path)), before);
        var rewritten := HttpGet(APP_HEALTH + c.name + "/" + Endpoint(k), IntPort(SIDECAR_ADMIN_PORT));
        c' := WithProbe(c, k, Some(ProbeOf(c, k).value.(http := Some(rewritten))));
      } else {
        assert saved + SavedOne(c, k) == saved;
      }
    }

    method RewriteContainer(c: Container, env: seq<EnvVar>, ghost saved: seq<Saved>, ghost before: map<string, Annotation>)
        returns (c': Container, env': seq<EnvVar>)
      requires !Skipped(c) && env == EnvOf(saved) && annotations == Annotated(before, saved)
      modifies this`annotations
      ensures c' == Rewritten(c)
      ensures env' == EnvOf(saved + SavedFor(c)) && annotations == Annotated(before, saved + SavedFor(c))
    {
      ghost var c1 := WithProbe(c, Liveness, RewrittenProbe(c, Liveness));
      KindsAreIndependent(c, Liveness, RewrittenProbe(c, Liveness), Readiness);
      KindsAreIndependent(c, Liveness, RewrittenProbe(c, Liveness), Startup);
      KindsAreIndependent(c1, Readiness, RewrittenProbe(c, Readiness), Startup);
      ghost var s1 := saved + SavedOne(c, Liveness);
      ghost var s2 := s1 + SavedOne(c, Readiness);
      assert s2 + SavedOne(c, Startup) == saved + SavedFor(c);
      c', env' := RewriteProbe(c, Liveness, env, saved, before);
      c', env' := RewriteProbe(c', Readiness, env', s1, before);
      c', env' := RewriteProbe(c', Startup, env', s2, before);
    }

    method RewriteProbes() returns (env: seq<EnvVar>)
      modifies this
      ensures |containers| == |old(containers)|
      ensures forall i | 0 <= i < |containers| :: containers[i] == Rewritten(old(containers)[i])
      ensures env == EnvOf(SavedAll(old(containers)))
      ensures annotations == Annotated(old(annotations), SavedAll(old(containers)))
    {
      env := [];
      ghost var cs, before, saved := containers, annotations, [];
      assert cs[..0] == [];
      for i := 0 to |containers|
        invariant RewrittenTo(containers, cs, i)
        invariant saved == SavedAll(cs[..i]) && env == EnvOf(saved) && annotations == Annotated(before, saved)
      {
        SavedAllSnoc(cs, i);
        if !Skipped(containers[i]) {
          var c;
          c, env := RewriteContainer(containers[i], env, saved, before);
          RewriteNext(containers, cs, i, c);
          containers := containers[i := c];
        } else {
          RewriteNext(containers, cs, i, containers[i]);
          assert saved + SavedFor(cs[i]) == saved;
        }
        saved := saved + SavedFor(cs[i]);
      }
      assert cs[..|cs|] == cs;
    }
  }

  /** The first n containers are done, the others as they were. */
  predicate RewrittenTo(now: seq<Container>, cs: seq<Container>, n: nat) {
    && |now| == |cs| && n <= |cs|
    && (forall j | 0 <= j < n :: now[j] == Rewritten(cs[j]))
    && (forall j | n <= j < |cs| :: now[j] == cs[j])
  }

  lemma RewriteNext(now: seq<Container>, cs: seq<Container>, i: nat, c: Container)
    requires RewrittenTo(now, cs, i) && i < |cs| && c == Rewritten(cs[i])
    ensures RewrittenTo(now[i := c], cs, i + 1)
    ensures Skipped(cs[i]) ==> now[i := c] == now
  {
  }

  lemma SavedAllSnoc(cs: seq<Container>, i: nat)
    requires i < |cs|
    ensures SavedAll(cs[..i + 1]) == SavedAll(cs[..i]) + SavedFor(cs[i])
  {
    assert cs[..i + 1][..i] == cs[..i];
  }

  // ----- The sidecar -----

  /** os.Getenv in a container whose spec lists these variables: of several of one name the kubelet
      passes on only the last, and a missing one is empty. */
  function Getenv(env: seq<EnvVar>, name: string): string {
    if env == [] then ""
    else if env[|env| - 1].name == name then env[|env| - 1].value
    else Getenv(env[..|env| - 1], name)
  }

  function CacheKey(name: string, k: Kind): string {
    name + "-" + KindName(k)
  }

  function ServiceName(env: seq<EnvVar>): string {
    if Getenv(env, "SERVICE_NAME") == "" then "app" else Getenv(env, "SERVICE_NAME")
  }

  /** What the environment says about one kind of probe. */
  function EnvConfig(env: seq<EnvVar>, k: Kind): Option<(int, string)> {
    if Getenv(env, PortVar(k)) == "" then None
    else Some((Atoi(Getenv(env, PortVar(k))), if Getenv(env, PathVar(k)) == "" then "/health" else Getenv(env, PathVar(k))))
  }

  datatype HealthReply = Forward(port: int, path: string) | BadRequest | NotFound

  function TrimPrefix(s: string, prefix: string): string {
    if prefix <= s then s[|prefix|..] else s
  }

  /** Where the first slash is, or the length. */
  function FirstSlash(s: string): (r: nat)
    ensures r <= |s| && (forall i | 0 <= i < r :: s[i] != '/') && (r < |s| ==> s[r] == '/')
  {
    if s == [] || s[0] == '/' then 0 else 1 + FirstSlash(s[1..])
  }

  function KindOf(endpoint: string): Option<Kind> {
    if endpoint == "livez" then Some(Liveness)
    else if endpoint == "readyz" then Some(Readiness)
    else if endpoint == "startupz" then Some(Startup)
    else None
  }

  /** The container and the kind of probe a path asks for. */
  function ParsePath(path: string): Option<(string, Kind)> {
    var rest := TrimPrefix(path, APP_HEALTH);
    var n := FirstSlash(rest);
    if n == |rest| || KindOf(rest[n + 1..]).None? then None else Some((rest[..n], KindOf(rest[n + 1..]).value))
  }

  /** The cache after the first n kinds. */
  function CacheAfter(cache: map<string, (int, string)>, env: seq<EnvVar>, n: nat): map<string, (int, string)>
    requires n <= |KINDS|
  {
    if n == 0 then cache
    else
      var k, before := KINDS[n - 1], CacheAfter(cache, env, n - 1);
      if EnvConfig(env, k).Some? then before[CacheKey(ServiceName(env), k) := EnvConfig(env, k).value] else before
  }

  /** What the handler does with a path and the query parameters port and path. */
  function Resolve(cache: map<string, (int, string)>, path: string, queryPort: string, queryPath: string): HealthReply {
    match ParsePath(path)
    case None => BadRequest
    case Some((name, k)) =>
      if CacheKey(name, k) in cache then Forward(cache[CacheKey(name, k)].0, cache[CacheKey(name, k)].1)
      else if queryPort == "" then NotFound
      else Forward(Atoi(queryPort), if queryPath == "" then "/health" else queryPath)
  }

  class Sidecar {
    var probeConfigCache: map<string, (int, string)>

    constructor ()
      ensures probeConfigCache == map[]
    {
      probeConfigCache := map[];
    }

    method InitProbeConfigs(env: seq<EnvVar>)
      modifies this
      ensures probeConfigCache == CacheAfter(old(probeConfigCache), env, 3)
    {
      var service := Getenv(env, "SERVICE_NAME");
      if service == "" {
        service := "app";
      }
      for i := 0 to |KINDS|
        invariant probeConfigCache == CacheAfter(old(probeConfigCache), env, i)
      {
        var port := Getenv(env, PortVar(KINDS[i]));
        if port != "" {
          var path := Getenv(env, PathVar(KINDS[i]));
          if path == "" {
            path := "/health";
          }
          probeConfigCache := probeConfigCache[CacheKey(service, KINDS[i]) := (Atoi(port), path)];
        }
      }
    }

    method HandleAppHealthProxy(path: string, queryPort: string, queryPath: string) returns (reply: HealthReply)
      ensures reply == Resolve(probeConfigCache, path, queryPort, queryPath)
      ensures match ParsePath(path)
              case None => reply == BadRequest
              case Some((name, k)) =>
                var key := CacheKey(name, k);
                && (key in probeConfigCache ==> reply == Forward(probeConfigCache[key].0, probeConfigCache[key].1))
                && (key !in probeConfigCache && queryPort == "" ==> reply == NotFound)
                && (key !in probeConfigCache && queryPort != "" ==>
                      reply == Forward(Atoi(queryPort), if queryPath == "" then "/health" else queryPath))
    {
      var rest := TrimPrefix(path, APP_HEALTH);
      var n := FirstSlash(rest);
      if n == |rest| {
        return BadRequest;
      }
      var k := KindOf(rest[n + 1..]);
      if k.None? {
        return BadRequest;
      }
      var key := CacheKey(rest[..n], k.value);
      if key in probeConfigCache {
        return Forward(probeConfigCache[key].0, probeConfigCache[key].1);
      }
      if queryPort == "" {
        return NotFound;
      }
      return Forward(Atoi(queryPort), if queryPath == "" then "/health" else queryPath);
    }
  }

  // ----- Paths parse back -----

  lemma NoSlashInEndpoint(k: Kind)
    ensures '/' !in Endpoint(k) && KindOf(Endpoint(k)) == Some(k)
  {
    assert Endpoint(k)[0] == (match k case Liveness => 'l' case Readiness => 'r' case Startup => 's');
  }

  lemma KnownEndpoints(e: string)
    requires KindOf(e).Some?
    ensures e == Endpoint(KindOf(e).value) && '/' !in e
  {
    NoSlashInEndpoint(KindOf(e).value);
  }

  lemma RestOfPath(name: string, k: Kind)
    ensures TrimPrefix(RewrittenPath(name, k), APP_HEALTH) == name + "/" + Endpoint(k)
  {
    var path := RewrittenPath(name, k);
    assert path == APP_HEALTH + (name + "/" + Endpoint(k));
  }

  lemma SlashInName(name: string, k: Kind)
    requires '/' in name
    ensures var rest := name + "/" + Endpoint(k);
            var n := FirstSlash(rest);
            n < |rest| && KindOf(rest[n + 1..]).None?
  {
    var rest := name + "/" + Endpoint(k);
    var n := FirstSlash(rest);
    var i :| 0 <= i < |name| && name[i] == '/';
    assert rest[i] == '/' && n <= i;
    var tail := rest[n + 1..];
    assert tail[|name| - n - 1] == '/';
    if KindOf(tail).Some? {
      KnownEndpoints(tail);
    }
  }

  lemma NoSlashInName(name: string, k: Kind)
    requires '/' !in name
    ensures var rest := name + "/" + Endpoint(k);
            FirstSlash(rest) == |name| && rest[..|name|] == name && rest[|name| + 1..] == Endpoint(k)
  {
    var rest := name + "/" + Endpoint(k);
    assert rest[|name|] == '/' && forall i | 0 <= i < |name| :: rest[i] == name[i];
  }

  lemma EndpointMeans(k: Kind)
    ensures Endpoint(k) == match k case Liveness => "livez" case Readiness => "readyz" case Startup => "startupz"
  {
  }

  lemma PrefixGone(path: string, rest: string)
    ensures TrimPrefix(path, APP_HEALTH) == rest <==> path == "/app-health/" + rest || (path == rest && !("/app-health/" <= path))
  {
    if APP_HEALTH <= path {
      assert path == APP_HEALTH + path[|APP_HEALTH|..];
    }
    if path == APP_HEALTH + rest {
      assert APP_HEALTH <= path && path[|APP_HEALTH|..] == rest;
    }
  }

  lemma SplitAt(rest: string, n: nat)
    requires n < |rest| && rest[n] == '/'
    ensures rest == rest[..n] + "/" + rest[n + 1..]
  {
    var joined := rest[..n] + "/" + rest[n + 1..];
    assert |joined| == |rest|;
    assert forall i | 0 <= i < |rest| :: joined[i] == rest[i];
  }

  lemma ParsedIsPrinted(rest: string, n: nat, k: Kind)
    requires n == FirstSlash(rest) < |rest| && KindOf(rest[n + 1..]) == Some(k)
    ensures '/' !in rest[..n] && rest == rest[..n] + "/" + Endpoint(k)
  {
    var e := rest[n + 1..];
    assert e == Endpoint(k) by {
      KnownEndpoints(e);
    }
    SplitAt(rest, n);
  }

  lemma RestParsedExactly(rest: string, name: string, k: Kind)
    ensures (var n := FirstSlash(rest); n < |rest| && rest[..n] == name && KindOf(rest[n + 1..]) == Some(k))
            <==> '/' !in name && rest == name + "/" + Endpoint(k)
  {
    var n := FirstSlash(rest);
    if n < |rest| && rest[..n] == name && KindOf(rest[n + 1..]) == Some(k) {
      ParsedIsPrinted(rest, n, k);
    } else if '/' !in name && rest == name + "/" + Endpoint(k) {
      NoSlashInName(name, k);
      NoSlashInEndpoint(k);
    }
  }

  /** The paths the handler takes: container without a slash, one of three endpoints, with the prefix
      or, for lack of one, without. */
  lemma ParsedExactly(path: string, name: string, k: Kind)
    ensures ParsePath(path) == Some((name, k)) <==>
            && '/' !in name
            && var rest := name + "/" + (match k case Liveness => "livez" case Readiness => "readyz" case Startup => "startupz");
               path == "/app-health/" + rest || (path == rest && !("/app-health/" <= path))
  {
    EndpointMeans(k);
    PrefixGone(path, name + "/" + Endpoint(k));
    RestParsedExactly(TrimPrefix(path, APP_HEALTH), name, k);
  }

  /** Exactly the names without a slash come back. */
  lemma PathsParseBack(name: string, k: Kind)
    ensures ParsePath(RewrittenPath(name, k)) == if '/' in name then None else Some((name, k))
  {
    RestOfPath(name, k);
    if '/' in name {
      SlashInName(name, k);
    } else {
      NoSlashInName(name, k);
      NoSlashInEndpoint(k);
    }
  }

  // ----- Keys and names tell probes apart -----

  lemma CacheKeyInjective(p: string, q: string, j: Kind, k: Kind)
    requires CacheKey(p, j) == CacheKey(q, k)
    ensures p == q && j == k
  {
    var key := CacheKey(p, j);
    assert key[|key| - 1] == KindName(j)[|KindName(j)| - 1] == KindName(k)[|KindName(k)| - 1];
    assert key[|key| - 5] == KindName(j)[|KindName(j)| - 5] == KindName(k)[|KindName(k)| - 5];
    assert j == k;
    assert key[..|p|] == p && key[..|q|] == q;
  }

  lemma AnnotationKeyInjective(p: string, q: string, j: Kind, k: Kind)
    requires AnnotationKey(j, p) == AnnotationKey(k, q)
    ensures p == q && j == k
  {
    var key := AnnotationKey(j, p);
    var prefix: string := "ananse.io/original-";
    assert key[|prefix|] == KindName(j)[0] == KindName(k)[0];
    assert j == k;
    var n := |prefix| + |KindName(j)| + |"-probe-"|;
    assert key[n..] == p && key[n..] == q;
  }

  lemma EnvNamesDiffer(j: Kind, k: Kind)
    ensures PortVar(j) != PathVar(k) && PortVar(j) != "SERVICE_NAME" && PathVar(j) != "SERVICE_NAME"
    ensures PortVar(j) == PortVar(k) || PathVar(j) == PathVar(k) ==> j == k
  {
    assert PortVar(j)[|PortVar(j)| - 1] == 'T' && PathVar(k)[|PathVar(k)| - 1] == 'H';
    assert PortVar(j)[0] == PathVar(j)[0] == 'A' && "SERVICE_NAME"[0] == 'S';
    assert PortVar(j)[7] == PathVar(j)[7] == KindUpper(j)[0];
    assert PortVar(k)[7] == PathVar(k)[7] == KindUpper(k)[0];
  }

  // ----- The environment carries the last probe of each kind -----

  /** The last probe of that kind that was saved. */
  function Winner(saved: seq<Saved>, k: Kind): Option<ProbeConfig> {
    if saved == [] then None
    else if saved[|saved| - 1].kind == k then Some(saved[|saved| - 1].config)
    else Winner(saved[..|saved| - 1], k)
  }

  /** None of the variables in question. */
  predicate NoProbeVars(env: seq<EnvVar>) {
    forall k: Kind :: Getenv(env, PortVar(k)) == "" && Getenv(env, PathVar(k)) == ""
  }

  lemma GetenvSnoc(env: seq<EnvVar>, s: Saved, name: string)
    ensures Getenv(env + EnvFor(s), name) ==
              if name == PathVar(s.kind) then s.config.path
              else if name == PortVar(s.kind) then Decimal(s.config.port)
              else Getenv(env, name)
  {
    var e := env + EnvFor(s);
    assert e[..|e| - 1] == env + [EnvFor(s)[0]];
    assert e[..|e| - 1][..|env|] == env;
  }

  lemma {:induction false} EnvCarriesWinner(others: seq<EnvVar>, saved: seq<Saved>, k: Kind)
    requires NoProbeVars(others)
    ensures var env := others + EnvOf(saved);
            && Getenv(env, PortVar(k)) == (if Winner(saved, k).Some? then Decimal(Winner(saved, k).value.port) else "")
            && Getenv(env, PathVar(k)) == (if Winner(saved, k).Some? then Winner(saved, k).value.path else "")
            && Getenv(env, "SERVICE_NAME") == Getenv(others, "SERVICE_NAME")
  {
    if saved == [] {
      assert others + EnvOf(saved) == others;
    } else {
      var s, init := saved[|saved| - 1], saved[..|saved| - 1];
      EnvCarriesWinner(others, init, k);
      assert others + EnvOf(saved) == (others + EnvOf(init)) + EnvFor(s);
      GetenvSnoc(others + EnvOf(init), s, PortVar(k));
      GetenvSnoc(others + EnvOf(init), s, PathVar(k));
      GetenvSnoc(others + EnvOf(init), s, "SERVICE_NAME");
      EnvNamesDiffer(s.kind, k);
      EnvNamesDiffer(k, s.kind);
    }
  }

  /** What the last container with such a probe had. */
  function LastProbed(cs: seq<Container>, k: Kind): Option<ProbeConfig> {
    if cs == [] then None
    else
      var c := cs[|cs| - 1];
      if !Skipped(c) && HasHttp(c, k) then Some(OriginalOf(c, k)) else LastProbed(cs[..|cs| - 1], k)
  }

  lemma {:induction false} WinnerOfAppend(a: seq<Saved>, b: seq<Saved>, k: Kind)
    ensures Winner(a + b, k) == if Winner(b, k).Some? then Winner(b, k) else Winner(a, k)
    decreases |b|
  {
    if b == [] {
      assert a + b == a;
    } else {
      assert (a + b)[..|a + b| - 1] == a + b[..|b| - 1];
      WinnerOfAppend(a, b[..|b| - 1], k);
    }
  }

  lemma WinnerOfContainer(c: Container, k: Kind)
    ensures Winner(SavedFor(c), k) == if !Skipped(c) && HasHttp(c, k) then Some(OriginalOf(c, k)) else None
  {
    WinnerOfAppend(SavedOne(c, Liveness) + SavedOne(c, Readiness), SavedOne(c, Startup), k);
    WinnerOfAppend(SavedOne(c, Liveness), SavedOne(c, Readiness), k);
  }

  lemma {:induction false} WinnerIsLastProbed(cs: seq<Container>, k: Kind)
    ensures Winner(SavedAll(cs), k) == LastProbed(cs, k)
    ensures LastProbed(cs, k).Some? ==> LastProbed(cs, k).value.path != ""
  {
    if cs != [] {
      var c := cs[|cs| - 1];
      WinnerIsLastProbed(cs[..|cs| - 1], k);
      WinnerOfAppend(SavedAll(cs[..|cs| - 1]), SavedFor(c), k);
      WinnerOfContainer(c, k);
    }
  }

  // ----- The round trip -----

  lemma EnvConfigMeans(env: seq<EnvVar>, k: Kind)
    ensures EnvConfig(env, k).Some? <==> Getenv(env, PortVar(k)) != ""
    ensures EnvConfig(env, k).Some? ==>
              && EnvConfig(env, k).value.0 == Atoi(Getenv(env, PortVar(k)))
              && EnvConfig(env, k).value.1 == if Getenv(env, PathVar(k)) == "" then "/health" else Getenv(env, PathVar(k))
  {
  }

  lemma {:induction false} CacheHolds(env: seq<EnvVar>, n: nat, name: string, k: Kind)
    requires n <= |KINDS|
    ensures var cache := CacheAfter(map[], env, n);
            && (CacheKey(name, k) in cache <==> name == ServiceName(env) && EnvConfig(env, k).Some? && k in KINDS[..n])
            && (CacheKey(name, k) in cache ==> cache[CacheKey(name, k)] == EnvConfig(env, k).value)
  {
    if n > 0 {
      CacheHolds(env, n - 1, name, k);
      assert KINDS[..n] == KINDS[..n - 1] + [KINDS[n - 1]];
      if CacheKey(name, k) == CacheKey(ServiceName(env), KINDS[n - 1]) {
        CacheKeyInjective(name, ServiceName(env), k, KINDS[n - 1]);
      }
    }
  }

  /** For every pod, every name and kind: what the sidecar answers to the rewritten path. */
  lemma AnswerToRewrittenPath(cs: seq<Container>, others: seq<EnvVar>, name: string, k: Kind)
    requires NoProbeVars(others)
    ensures var cache := CacheAfter(map[], others + EnvOf(SavedAll(cs)), 3);
            Resolve(cache, RewrittenPath(name, k), "", "") ==
              if '/' in name then BadRequest
              else if name != (if Getenv(others, "SERVICE_NAME") == "" then "app" else Getenv(others, "SERVICE_NAME")) then NotFound
              else if LastProbed(cs, k).None? then NotFound
              else Forward(LastProbed(cs, k).value.port, LastProbed(cs, k).value.path)
  {
    var env := others + EnvOf(SavedAll(cs));
    EnvCarriesWinner(others, SavedAll(cs), k);
    WinnerIsLastProbed(cs, k);
    PathsParseBack(name, k);
    CacheHolds(env, 3, name, k);
    assert KINDS[..3] == [Liveness, Readiness, Startup];
    if LastProbed(cs, k).Some? {
      AtoiDecimal(LastProbed(cs, k).value.port);
    }
  }

  /** A container's probe is answered from its own port and path if and only if its name has no
      slash and is the service name, and no later container asked for something else. */
  lemma ProbeRoundTripIff(cs: seq<Container>, i: nat, others: seq<EnvVar>, k: Kind)
    requires NoProbeVars(others) && i < |cs| && !Skipped(cs[i]) && HasHttp(cs[i], k)
    ensures var cache, original := CacheAfter(map[], others + EnvOf(SavedAll(cs)), 3), OriginalOf(cs[i], k);
            Resolve(cache, Http(Rewritten(cs[i]), k).path, "", "") == Forward(original.port, original.path)
            <==> '/' !in cs[i].name && cs[i].name == ServiceName(others) && LastProbed(cs, k) == Some(original)
  {
    AnswerToRewrittenPath(cs, others, cs[i].name, k);
    SomeoneIsProbed(cs, i, k);
  }

  lemma {:induction false} SomeoneIsProbed(cs: seq<Container>, i: nat, k: Kind)
    requires i < |cs| && !Skipped(cs[i]) && HasHttp(cs[i], k)
    ensures LastProbed(cs, k).Some?
    ensures (forall j | i < j < |cs| :: Skipped(cs[j]) || !HasHttp(cs[j], k)) ==> LastProbed(cs, k) == Some(OriginalOf(cs[i], k))
  {
    if i < |cs| - 1 {
      SomeoneIsProbed(cs[..|cs| - 1], i, k);
    }
  }

  /** The pod the injector is for: one app container, named like the service. */
  lemma OneAppContainerRoundTrips(cs: seq<Container>, i: nat, others: seq<EnvVar>, k: Kind)
    requires NoProbeVars(others) && i < |cs| && HasHttp(cs[i], k)
    requires forall j | 0 <= j < |cs| :: Skipped(cs[j]) <==> j != i
    requires '/' !in cs[i].name && cs[i].name == ServiceName(others)
    ensures var cache, original := CacheAfter(map[], others + EnvOf(SavedAll(cs)), 3), OriginalOf(cs[i], k);
            Resolve(cache, Http(Rewritten(cs[i]), k).path, "", "") == Forward(original.port, original.path)
  {
    SomeoneIsProbed(cs, i, k);
    ProbeRoundTripIff(cs, i, others, k);
  }

  // ----- The annotations keep every original -----

  function LastFor(saved: seq<Saved>, k: Kind, name: string): Option<ProbeConfig> {
    if saved == [] then None
    else
      var s := saved[|saved| - 1];
      if s.kind == k && s.name == name then Some(s.config) else LastFor(saved[..|saved| - 1], k, name)
  }

  lemma {:induction false} AnnotatedAt(before: map<string, Annotation>, saved: seq<Saved>, k: Kind, name: string)
    ensures var key, last := AnnotationKey(k, name), LastFor(saved, k, name);
            if last.Some? then key in Annotated(before, saved) && Annotated(before, saved)[key] == Original(last.value)
            else (key in Annotated(before, saved) <==> key in before) && (key in before ==> Annotated(before, saved)[key] == before[key])
  {
    if saved != [] {
      var s := saved[|saved| - 1];
      AnnotatedAt(before, saved[..|saved| - 1], k, name);
      if AnnotationKey(k, name) == AnnotationKey(s.kind, s.name) {
        AnnotationKeyInjective(name, s.name, k, s.kind);
      }
    }
  }

  lemma {:induction false} LastForAppend(a: seq<Saved>, b: seq<Saved>, k: Kind, name: string)
    ensures LastFor(a + b, k, name) == if LastFor(b, k, name).Some? then LastFor(b, k, name) else LastFor(a, k, name)
    decreases |b|
  {
    if b == [] {
      assert a + b == a;
    } else {
      assert (a + b)[..|a + b| - 1] == a + b[..|b| - 1];
      LastForAppend(a, b[..|b| - 1], k, name);
    }
  }

  lemma LastForContainer(c: Container, k: Kind, name: string)
    ensures LastFor(SavedFor(c), k, name) ==
              if c.name == name && !Skipped(c) && HasHttp(c, k) then Some(OriginalOf(c, k)) else None
  {
    LastForAppend(SavedOne(c, Liveness) + SavedOne(c, Readiness), SavedOne(c, Startup), k, name);
    LastForAppend(SavedOne(c, Liveness), SavedOne(c, Readiness), k, name);
  }

  lemma {:induction false} LastForAll(cs: seq<Container>, i: nat, k: Kind)
    requires i < |cs| && !Skipped(cs[i]) && HasHttp(cs[i], k)
    requires forall j | i < j < |cs| :: cs[j].name != cs[i].name
    ensures LastFor(SavedAll(cs), k, cs[i].name) == Some(OriginalOf(cs[i], k))
  {
    var init, c := cs[..|cs| - 1], cs[|cs| - 1];
    LastForAppend(SavedAll(init), SavedFor(c), k, cs[i].name);
    LastForContainer(c, k, cs[i].name);
    if i < |cs| - 1 {
      LastForAll(init, i, k);
    }
  }

  /** With container names distinct, as Kubernetes has them, the pod's annotations hold the port and
      path of every rewritten probe, including those the environment has lost. */
  lemma AnnotationsKeepOriginals(before: map<string, Annotation>, cs: seq<Container>, i: nat, k: Kind)
    requires i < |cs| && !Skipped(cs[i]) && HasHttp(cs[i], k)
    requires forall j | i < j < |cs| :: cs[j].name != cs[i].name
    ensures var annotations := Annotated(before, SavedAll(cs));
            && AnnotationKey(k, cs[i].name) in annotations
            && annotations[AnnotationKey(k, cs[i].name)] == Original(OriginalOf(cs[i], k))
  {
    LastForAll(cs, i, k);
    AnnotatedAt(before, SavedAll(cs), k, cs[i].name);
  }
}
