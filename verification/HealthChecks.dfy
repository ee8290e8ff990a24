/** The health checker that drives the breakers: pkg/proxy/health.go. A tick queries every breaker
    and launches a check of each backend that is not denied; a check reports its probe's outcome some
    time later. Probes are an oracle. */
module HealthChecks {
  import opened CircuitBreaker
  import opened Backends

  datatype ProbeResult = ProbeError | Status(code: int)

  /** Only a 2xx answer counts as healthy. */
  predicate Alive(p: ProbeResult) {
    p.Status? && 200 <= p.code < 300
  }

  ghost function Names(bs: seq<Backend>): (ns: seq<string>)
    ensures |ns| == |bs| && forall i | 0 <= i < |bs| :: ns[i] == bs[i].name
  {
    seq(|bs|, i requires 0 <= i < |bs| => bs[i].name)
  }

  // ----- What a tick does at once -----

  /** The first n backends of a service have been queried. */
  function Asked(ss: seq<Snap>, n: nat, interval: int): (r: seq<Snap>)
    requires n <= |ss|
    ensures |r| == |ss|
  {
    if n == 0 then ss else Querying(Asked(ss, n - 1, interval), n - 1, interval)
  }

  lemma {:induction false} AskedPointwise(ss: seq<Snap>, n: nat, interval: int)
    requires n <= |ss|
    ensures var r := Asked(ss, n, interval);
            forall i | 0 <= i < |ss| :: r[i] == if i < n then ss[i].(breaker := Query(Int64, ss[i].breaker, interval)) else ss[i]
  {
    if n > 0 {
      AskedPointwise(ss, n - 1, interval);
    }
  }

  /** Which of the first n get a check. */
  function Launched(ss: seq<Snap>, n: nat, interval: int): (r: seq<nat>)
    requires n <= |ss|
    ensures forall j | 0 <= j < |r| :: r[j] < n
  {
    if n == 0 then []
    else if Denied(ss[n - 1].breaker, interval) then Launched(ss, n - 1, interval)
    else Launched(ss, n - 1, interval) + [n - 1]
  }

  lemma {:induction false} LaunchedExactly(ss: seq<Snap>, n: nat, interval: int, i: nat)
    requires n <= |ss|
    ensures i in Launched(ss, n, interval) <==> i < n && !Denied(ss[i].breaker, interval)
  {
    if n > 0 {
      LaunchedExactly(ss, n - 1, interval, i);
    }
  }

  // ----- What the checks do later -----

  /** The checks in this order have reported. */
  function Delivered(ss: seq<Snap>, names: seq<string>, order: seq<nat>, interval: int, probe: string -> ProbeResult): (r: seq<Snap>)
    requires |ss| == |names| && forall j | 0 <= j < |order| :: order[j] < |ss|
    ensures |r| == |ss|
  {
    if order == [] then ss
    else
      var i := order[|order| - 1];
      Reporting(Delivered(ss, names, order[..|order| - 1], interval, probe), i, Alive(probe(names[i])), interval)
  }

  predicate Once(order: seq<nat>) {
    forall i, j | 0 <= i < j < |order| :: order[i] != order[j]
  }

  lemma {:induction false} DeliveredPointwise(ss: seq<Snap>, names: seq<string>, order: seq<nat>, interval: int,
                                              probe: string -> ProbeResult, i: nat)
    requires |ss| == |names| && i < |ss| && Once(order) && forall j | 0 <= j < |order| :: order[j] < |ss|
    ensures Delivered(ss, names, order, interval, probe)[i] ==
              if i in order then ss[i].(breaker := Report(Int64, ss[i].breaker, Alive(probe(names[i])), interval)) else ss[i]
  {
    if order != [] {
      var n := |order| - 1;
      DeliveredPointwise(ss, names, order[..n], interval, probe, i);
      assert order == order[..n] + [order[n]];
    }
  }

  // ----- A tick whose checks have all reported -----

  /** The first n backends of a service have had their tick, check included. */
  function Ticked(ss: seq<Snap>, names: seq<string>, n: nat, interval: int, probe: string -> ProbeResult): (r: seq<Snap>)
    requires n <= |ss| == |names|
    ensures |r| == |ss|
  {
    if n == 0 then ss
    else Ticking(Ticked(ss, names, n - 1, interval, probe), n - 1, interval, Alive(probe(names[n - 1])))
  }

  /** One tick reaches every backend of the service once, whatever happens to the others. */
  lemma {:induction false} TickedPointwise(ss: seq<Snap>, names: seq<string>, n: nat, interval: int, probe: string -> ProbeResult)
    requires n <= |ss| == |names|
    ensures var r := Ticked(ss, names, n, interval, probe);
            forall i | 0 <= i < |ss| ::
              r[i] == if i < n then ss[i].(breaker := Tick(Int64, ss[i].breaker, interval, Alive(probe(names[i])))) else ss[i]
  {
    if n > 0 {
      TickedPointwise(ss, names, n - 1, interval, probe);
    }
  }

  /** The order in which the checks of a tick report does not matter: once each has, every backend
      has had exactly one query and, unless denied, one report. */
  lemma AnyOrderIsATick(ss: seq<Snap>, names: seq<string>, order: seq<nat>, interval: int, probe: string -> ProbeResult)
    requires |ss| == |names| && Once(order)
    requires forall i :: i in order <==> i in Launched(ss, |ss|, interval)
    requires forall j | 0 <= j < |order| :: order[j] < |ss|
    ensures Delivered(Asked(ss, |ss|, interval), names, order, interval, probe) == Ticked(ss, names, |ss|, interval, probe)
  {
    var asked := Asked(ss, |ss|, interval);
    AskedPointwise(ss, |ss|, interval);
    TickedPointwise(ss, names, |ss|, interval, probe);
    forall i | 0 <= i < |ss|
      ensures Delivered(asked, names, order, interval, probe)[i] == Ticked(ss, names, |ss|, interval, probe)[i]
    {
      DeliveredPointwise(asked, names, order, interval, probe, i);
      LaunchedExactly(ss, |ss|, interval, i);
    }
  }

  // ----- Checks that report whenever they like -----

  datatype Activity = TickStarts(interval: int) | CheckReports(k: nat, alive: bool, interval: int)

  function Play(ss: seq<Snap>, acts: seq<Activity>): (r: seq<Snap>)
    ensures |r| == |ss|
  {
    if acts == [] then ss
    else
      var now := Play(ss, acts[..|acts| - 1]);
      match acts[|acts| - 1]
      case TickStarts(interval) => Asked(now, |now|, interval)
      case CheckReports(k, alive, interval) => if k < |now| then Reporting(now, k, alive, interval) else now
  }

  /** What backend i sees of them. */
  function EventsOf(acts: seq<Activity>, i: nat): seq<Event> {
    if acts == [] then []
    else
      EventsOf(acts[..|acts| - 1], i) +
      match acts[|acts| - 1]
      case TickStarts(interval) => [Queried(interval)]
      case CheckReports(k, alive, interval) => if k == i then [Reported(alive, interval)] else []
  }

  /** Ticks and late reports in any interleaving: each breaker goes through the run of its own events,
      so all that holds of every run of reports and queries holds of it. */
  lemma {:induction false} LateReportsAreRuns(ss: seq<Snap>, acts: seq<Activity>, i: nat)
    requires i < |ss|
    ensures Play(ss, acts)[i] == ss[i].(breaker := Run(Int64, ss[i].breaker, EventsOf(acts, i)))
  {
    if acts != [] {
      var n := |acts| - 1;
      LateReportsAreRuns(ss, acts[..n], i);
      var now, es := Play(ss, acts[..n]), EventsOf(acts[..n], i);
      match acts[n]
      case TickStarts(interval) =>
        AskedPointwise(now, |now|, interval);
        RunSnoc(Int64, ss[i].breaker, es, Queried(interval));
      case CheckReports(k, alive, interval) =>
        if k == i {
          RunSnoc(Int64, ss[i].breaker, es, Reported(alive, interval));
        } else {
          assert es + [] == es;
        }
    }
  }

  class Health {
    const pool: BackendPool
    var checkInterval: int

    constructor (pool: BackendPool, checkInterval: int)
      ensures this.pool == pool && this.checkInterval == checkInterval
    {
      this.pool, this.checkInterval := pool, checkInterval;
    }

    method GetHealthCheckInterval() returns (i: int)
      ensures i == checkInterval
    {
      i := checkInterval;
    }

    /** The goroutine of Check comes up, or NewTicker panics in it and takes the process down. */
    method StartChecking() returns (panics: bool)
      ensures panics <==> checkInterval <= 0
    {
      panics := checkInterval <= 0;
    }

    /** Restart as far as the breakers can tell: the interval changes and a new goroutine starts. */
    method Restart(newInterval: int) returns (panics: bool)
      modifies this`checkInterval
      ensures checkInterval == newInterval && (panics <==> newInterval <= 0)
    {
      checkInterval := newInterval;
      panics := StartChecking();
    }

    /** checkBackend, whenever it runs: the outcome of the probe goes to the backend that has the name
        in the pool by then, if there is one. */
    method CheckBackend(service: string, backend: Backend, p: ProbeResult, ghost now: seq<Snap>)
      requires pool.Valid() && Shows(pool.Members(service), now)
      modifies pool.Members(service)
      ensures var bs := pool.Members(service);
              var k := FindName(bs, backend.name);
              Shows(bs, if k < |bs| then Reporting(now, k, Alive(p), checkInterval) else now)
      ensures Alive(p) <==> p.Status? && 200 <= p.code <= 299
    {
      if p.Status? && 200 <= p.code < 300 {
        pool.UpdateBackendStatus(service, backend.name, true, checkInterval, now);
      } else {
        pool.UpdateBackendStatus(service, backend.name, false, checkInterval, now);
      }
    }

    /** One backend's share of a tick: a check unless denied. */
    method AskBackend(service: string, bs: seq<Backend>, i: nat, ghost now: seq<Snap>) returns (shouldCheck: bool)
      requires pool.Valid() && bs == pool.Members(service) && i < |bs| && Shows(bs, now)
      modifies bs
      ensures Shows(bs, Querying(now, i, checkInterval)) && shouldCheck == !Denied(now[i].breaker, checkInterval)
    {
      FindNameAt(bs, i);
      var state;
      shouldCheck, state := pool.GetCircuitState(service, bs[i].name, checkInterval, now);
    }

    /** The loop over one service's backends. */
    method TickService(service: string, ghost before: seq<Snap>) returns (checks: seq<Backend>)
      requires pool.Valid() && Shows(pool.Members(service), before)
      modifies pool.Members(service)
      ensures IsAsked(pool.Members(service), before, Asked(before, |before|, checkInterval), checkInterval, checks)
      ensures Shows(pool.Members(service), Asked(before, |before|, checkInterval))
    {
      var bs, exist := pool.GetBackendsForService(service);
      checks := [];
      ghost var now := before;
      for i := 0 to |bs|
        invariant now == Asked(before, i, checkInterval) && Shows(bs, now)
        invariant checks == Picked(bs, Launched(before, i, checkInterval))
      {
        AskedAhead(before, i, checkInterval);
        PickedSnoc(bs, Launched(before, i, checkInterval), i);
        var shouldCheck := AskBackend(service, bs, i, now);
        now := Querying(now, i, checkInterval);
        if shouldCheck {
          checks := checks + [bs[i]];
        }
      }
    }

    /** The heap shows these values, service by service. */
    ghost predicate AllShow(now: map<string, seq<Snap>>)
      reads this, pool, pool.AllBackends()
    {
      now.Keys == pool.backends.Keys && forall s | s in pool.backends :: Shows(pool.backends[s], now[s])
    }

    /** One service's share of a tick leaves the other services alone. */
    method TickNext(service: string, ghost bs: seq<Backend>, ghost interval: int, ghost now: map<string, seq<Snap>>,
                    ghost was: seq<Snap>, ghost asked: seq<Snap>)
        returns (checks: seq<Backend>)
      requires pool.Valid() && pool.Separate() && service in pool.backends && AllShow(now) && now[service] == was
      requires bs == pool.backends[service] && interval == checkInterval && asked == Asked(was, |was|, interval)
      modifies pool.Members(service)
      ensures AllShow(now[service := asked])
      ensures IsAsked(bs, was, asked, interval, checks)
    {
      ghost var p := pool.backends;
      checks := TickService(service, now[service]);
      forall t | t in p && t != service
        ensures Shows(p[t], now[t])
      {
        assert old(Shows(p[t], now[t]));
        forall i | 0 <= i < |p[t]|
          ensures now[t][i] == Snap(p[t][i].View(), p[t][i].activeRequest)
        {
          var b := p[t][i];
          assert b in p[t] && b !in p[service];
          assert unchanged(b);
        }
      }
    }

    /** The loop's body. p and interval are the pool's map and the interval, which do not change. */
    method TickOne(service: string, checks: map<string, seq<Backend>>, ghost p: map<string, seq<Backend>>, ghost interval: int,
                   ghost now: map<string, seq<Snap>>, ghost before: map<string, seq<Snap>>, ghost after: map<string, seq<Snap>>,
                   ghost todo: set<string>)
        returns (checks': map<string, seq<Backend>>, ghost now': map<string, seq<Snap>>)
      requires pool.Valid() && pool.Separate() && p == pool.backends && interval == checkInterval && service in todo && service in p
      requires AreAsked(before, after, interval) && AllShow(now) && Midway(p, interval, now, before, after, checks, todo)
      modifies pool.Members(service)
      ensures AllShow(now') && Midway(p, interval, now', before, after, checks', todo - {service})
    {
      var more := TickNext(service, p[service], interval, now, before[service], after[service]);
      checks', now' := checks[service := more], now[service := after[service]];
      MidwayStep(p, interval, now, before, after, checks, todo, service, more);
    }

    /** The loop over the services, in whatever order the map gives them. */
    method TickAll(ghost before: map<string, seq<Snap>>, ghost after: map<string, seq<Snap>>) returns (checks: map<string, seq<Backend>>)
      requires pool.Valid() && pool.Separate() && AllShow(before) && AreAsked(before, after, checkInterval)
      modifies pool.AllBackends()
      ensures AllShow(after) && AllAsked(pool.backends, before, after, checkInterval, checks, {})
    {
      ghost var p, now := pool.backends, before;
      var todo := pool.backends.Keys;
      checks := map[];
      while todo != {}
        invariant todo <= p.Keys && AllShow(now) && Midway(p, checkInterval, now, before, after, checks, todo)
        decreases todo
      {
        var service :| service in todo;
        pool.MembersAreBackends(service);
        checks, now := TickOne(service, checks, p, checkInterval, now, before, after, todo);
        todo := todo - {service};
      }
      MidwayEnds(p, checkInterval, now, before, after, checks);
    }

    /** One tick: every backend of every service is queried once, and exactly those that are not denied
        get a check. */
    method Tick(ghost before: map<string, seq<Snap>>) returns (checks: map<string, seq<Backend>>, ghost after: map<string, seq<Snap>>)
      requires pool.Valid() && pool.Separate() && AllShow(before)
      modifies pool.AllBackends()
      ensures AllShow(after) && AllAsked(pool.backends, before, after, checkInterval, checks, {})
    {
      after := map s | s in before :: Asked(before[s], |before[s]|, checkInterval);
      checks := TickAll(before, after);
    }
  }

  lemma AskedAhead(ss: seq<Snap>, i: nat, interval: int)
    requires i < |ss|
    ensures Asked(ss, i, interval)[i] == ss[i]
  {
    AskedPointwise(ss, i, interval);
  }

  lemma PickedSnoc(bs: seq<Backend>, ks: seq<nat>, k: nat)
    requires k < |bs| && forall j | 0 <= j < |ks| :: ks[j] < |bs|
    ensures Picked(bs, ks + [k]) == Picked(bs, ks) + [bs[k]]
  {
  }

  ghost predicate AreAsked(before: map<string, seq<Snap>>, after: map<string, seq<Snap>>, interval: int) {
    before.Keys == after.Keys && forall s | s in before :: after[s] == Asked(before[s], |before[s]|, interval)
  }

  function Picked(bs: seq<Backend>, ks: seq<nat>): (r: seq<Backend>)
    requires forall j | 0 <= j < |ks| :: ks[j] < |bs|
    ensures |r| == |ks| && forall j | 0 <= j < |ks| :: r[j] == bs[ks[j]]
  {
    seq(|ks|, j requires 0 <= j < |ks| => bs[ks[j]])
  }

  /** One service before and after its share of a tick, and the checks that were launched. */
  ghost predicate IsAsked(bs: seq<Backend>, before: seq<Snap>, after: seq<Snap>, interval: int, checks: seq<Backend>) {
    && |before| == |bs| && after == Asked(before, |before|, interval)
    && checks == Picked(bs, Launched(before, |before|, interval))
  }

  /** All services but those in todo. */
  ghost predicate AllAsked(p: map<string, seq<Backend>>, before: map<string, seq<Snap>>, after: map<string, seq<Snap>>,
                           interval: int, checks: map<string, seq<Backend>>, todo: set<string>) {
    && p.Keys == before.Keys == after.Keys && checks.Keys == p.Keys - todo
    && forall s | s in checks :: IsAsked(p[s], before[s], after[s], interval, checks[s])
  }

  /** The services in todo are as before, the others as after. */
  ghost predicate Between(now: map<string, seq<Snap>>, before: map<string, seq<Snap>>, after: map<string, seq<Snap>>, todo: set<string>) {
    && now.Keys == before.Keys == after.Keys
    && forall s | s in now :: now[s] == if s in todo then before[s] else after[s]
  }

  /** Part of the way through a tick: the services in todo are still to come. */
  ghost predicate Midway(p: map<string, seq<Backend>>, interval: int, now: map<string, seq<Snap>>, before: map<string, seq<Snap>>,
                         after: map<string, seq<Snap>>, checks: map<string, seq<Backend>>, todo: set<string>) {
    Between(now, before, after, todo) && AllAsked(p, before, after, interval, checks, todo)
  }

  lemma BetweenStep(now: map<string, seq<Snap>>, before: map<string, seq<Snap>>, after: map<string, seq<Snap>>, todo: set<string>, s: string)
    requires Between(now, before, after, todo) && s in now
    ensures Between(now[s := after[s]], before, after, todo - {s})
  {
  }

  lemma AllAskedStep(p: map<string, seq<Backend>>, before: map<string, seq<Snap>>, after: map<string, seq<Snap>>,
                     interval: int, checks: map<string, seq<Backend>>, todo: set<string>, s: string, more: seq<Backend>)
    requires AllAsked(p, before, after, interval, checks, todo) && s in todo && s in p
    requires IsAsked(p[s], before[s], after[s], interval, more)
    ensures AllAsked(p, before, after, interval, checks[s := more], todo - {s})
  {
  }

  lemma MidwayStep(p: map<string, seq<Backend>>, interval: int, now: map<string, seq<Snap>>, before: map<string, seq<Snap>>,
                   after: map<string, seq<Snap>>, checks: map<string, seq<Backend>>, todo: set<string>, s: string, more: seq<Backend>)
    requires Midway(p, interval, now, before, after, checks, todo) && s in todo && s in p
    requires IsAsked(p[s], before[s], after[s], interval, more)
    ensures Midway(p, interval, now[s := after[s]], before, after, checks[s := more], todo - {s})
  {
    BetweenStep(now, before, after, todo, s);
    AllAskedStep(p, before, after, interval, checks, todo, s, more);
  }

  lemma MidwayEnds(p: map<string, seq<Backend>>, interval: int, now: map<string, seq<Snap>>, before: map<string, seq<Snap>>,
                   after: map<string, seq<Snap>>, checks: map<string, seq<Backend>>)
    requires Midway(p, interval, now, before, after, checks, {})
    ensures now == after && AllAsked(p, before, after, interval, checks, {})
  {
  }

  // ----- A backend that never answers -----

  /** n ticks of one service, the checks of each over before the next. */
  function Repeated(ss: seq<Snap>, names: seq<string>, interval: int, probe: string -> ProbeResult, n: nat): (r: seq<Snap>)
    requires |ss| == |names|
    ensures |r| == |ss|
  {
    if n == 0 then ss
    else
      var r := Repeated(ss, names, interval, probe, n - 1);
      Ticked(r, names, |r|, interval, probe)
  }

  /** A backend whose probe always fails goes through exactly the breaker's failing-tick run,
      whatever the other backends of its service do. */
  lemma {:induction false} DeadBackendFollowsSchedule(ss: seq<Snap>, names: seq<string>, interval: int,
                                                      probe: string -> ProbeResult, n: nat, i: nat)
    requires i < |ss| == |names| && !Alive(probe(names[i]))
    ensures Repeated(ss, names, interval, probe, n)[i].breaker == Ticks(Int64, ss[i].breaker, interval, n)
  {
    if n > 0 {
      DeadBackendFollowsSchedule(ss, names, interval, probe, n - 1, i);
      TickedPointwise(Repeated(ss, names, interval, probe, n - 1), names, |ss|, interval, probe);
    }
  }
}
