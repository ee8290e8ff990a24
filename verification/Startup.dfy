/** How a proxy process starts: proxy/main.go waits for the first config to be received and then builds
    its handler from what ProxyState holds, in pkg/proxy/gateway.go or pkg/proxy/listener.go. */
module Startup {
  import opened Text
  import opened Routing
  import opened Dataplane
  import opened Requests
  import opened Outbound

  /** The config a server without a snapshot sends first. */
  const EMPTY_CONFIG := Config("0", [], Some(ProxyConfig(8089, 9090, 10)))

  lemma EmptyConfigIsRejected(parse: UrlParser)
    ensures !Acceptable(Some(EMPTY_CONFIG), parse)
  {
  }

  /** Some config received so far could be applied. */
  ghost predicate AnyAcceptable(cfgs: seq<Option<Config>>, parse: UrlParser) {
    exists i :: 0 <= i < |cfgs| && Acceptable(cfgs[i], parse)
  }

  /** No config received so far kills the process. */
  ghost predicate AllSurvivable(cfgs: seq<Option<Config>>, parse: UrlParser) {
    forall i | 0 <= i < |cfgs| && Acceptable(cfgs[i], parse) :: Survivable(cfgs[i].value)
  }

  lemma AnyAcceptableSnoc(cfgs: seq<Option<Config>>, i: nat, parse: UrlParser)
    requires i < |cfgs|
    ensures AnyAcceptable(cfgs[..i + 1], parse) <==> AnyAcceptable(cfgs[..i], parse) || Acceptable(cfgs[i], parse)
  {
    if j :| 0 <= j < |cfgs[..i]| && Acceptable(cfgs[..i][j], parse) {
      assert cfgs[..i + 1][j] == cfgs[..i][j];
    }
    if Acceptable(cfgs[i], parse) {
      assert cfgs[..i + 1][i] == cfgs[i];
    }
  }

  /** The pointers a handler captures are there, all or none. */
  ghost predicate Wired(state: ProxyState)
    reads state
  {
    state.pool != null && state.lb != null && state.health != null
  }

  ghost predicate Bare(state: ProxyState)
    reads state
  {
    state.pool == null && state.lb == null && state.health == null
  }

  /** The configs that are received until the handler is built. The process lives through them exactly
      if each that is acceptable has an interval to tick at. */
  method ReceiveAll(cfgs: seq<Option<Config>>, upper: string -> string, parse: UrlParser) returns (state: ProxyState, alive: bool)
    ensures alive <==> AllSurvivable(cfgs, parse)
    ensures alive ==> state.Valid() && if AnyAcceptable(cfgs, parse) then Wired(state) else Bare(state)
  {
    state := new ProxyState();
    for i := 0 to |cfgs|
      invariant state.Valid() && fresh(state) && fresh(state.router)
      invariant (state.pool != null ==> fresh(state.pool)) && (state.health != null ==> fresh(state.health))
      invariant AllSurvivable(cfgs[..i], parse)
      invariant if AnyAcceptable(cfgs[..i], parse) then Wired(state) else Bare(state)
    {
      var outcome := state.HandleConfig(cfgs[i], upper, parse);
      if outcome.Crashed? || outcome.TickerPanics? {
        return state, false;
      }
      AnyAcceptableSnoc(cfgs, i, parse);
    }
    assert cfgs[..|cfgs|] == cfgs;
    alive := true;
  }

  /** StartGateway. Without the pointers the handler panics on every request it has a route for, since
      the router is shared and later configs reach it. */
  method StartGateway(state: ProxyState) returns (handler: ProxyHandler?)
    ensures handler != null <==> Wired(state)
    ensures handler != null ==>
              handler.router == state.router && handler.lb == state.lb && handler.pool == state.pool && handler.health == state.health
  {
    if state.lb == null || state.pool == null || state.health == null {
      return null;
    }
    handler := new ProxyHandler(state.router, state.lb, state.pool, state.health);
  }

  /** StartSidecarProxy, likewise. */
  method StartSidecar(state: ProxyState) returns (proxy: SidecarProxy?)
    ensures proxy != null <==> Wired(state)
    ensures proxy != null ==> proxy.lb == state.lb && proxy.pool == state.pool && proxy.health == state.health
  {
    if state.lb == null || state.pool == null || state.health == null {
      return null;
    }
    proxy := new SidecarProxy(state.lb, state.pool, state.health);
  }

  /** A gateway that is up can serve if and only if one of the configs it had received when its handler
      was built was acceptable; the empty config alone leaves it without backends for good. */
  method RunGateway(cfgs: seq<Option<Config>>, upper: string -> string, parse: UrlParser) returns (alive: bool, handler: ProxyHandler?)
    ensures alive <==> AllSurvivable(cfgs, parse)
    ensures alive ==> (handler != null <==> AnyAcceptable(cfgs, parse))
    ensures alive && handler != null ==> handler.lb.pool == handler.pool && handler.health.pool == handler.pool
  {
    var state;
    state, alive := ReceiveAll(cfgs, upper, parse);
    handler := null;
    if alive {
      handler := StartGateway(state);
    }
  }
}
