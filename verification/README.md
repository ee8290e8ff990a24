# Ananse, verified

A Dafny model of the service mesh Ananse and proofs about it: the control plane's config fan-out and
watch loop, the proxies' config application, routing, circuit breakers, health ticks, load balancing
and request retries, the in-flight counters, and the probe rewriting shared by injector and sidecar.

Check everything with `dafny verify dfyconfig.toml`.

## What is proved

**Config fan-out** (`FanOut`, `FanOutDelivery`, `FanOutClients`, `ConfigServer`). A transition system
whose steps are single lock regions and single channel operations: publishers, consumers, subscribers,
cleanups, disconnects and reconnects interleave in every way. In every run, whatever ids the proxies
use, no channel is closed twice or sent on after its close, and `UpdateConfig` can always take its next
step, so a publish never blocks and ends. A subscriber that the map leads to has in its queue exactly
the block of at most ten versions ending at the current one; a live subscriber has or will get the
current config *if and only if* the map led to its channel at the last publish, that is, if and only if
since its own registration no other stream of its id had registered or been cleaned up; with one live
stream per id that always holds. Versions applied by a proxy never go back across reconnects, strictly
increase within a stream, and reach the server's version once a stream is drained. A concrete run shows
one proxy losing its entry by reconnecting before its old stream is cleaned up. `ConfigServer` is the
same server as an object, and its send is the uninterrupted form of the publisher's steps.

**Circuit breaker** (`CircuitBreaker`, `BreakerTimers`, `Backends`, `HealthChecks`). The reachable-state
invariant over every interleaving of reports and queries, the denial budget of an open window for any
mix of callers, the half-open balance, and the exact schedule of ticks against a dead backend. A tick
queries all backends of all services and launches checks; the order in which these report does not
matter, and however late they do each breaker goes through a run of its own events. The invariant's
second half, countdown and backoff, fails in the int64 nanoseconds the code uses. It holds throughout a
run *if and only if* no prefix counts more than 32 failures at count 5 or more since the last success
and the countdown fits; with intervals of up to a year the count alone decides, and as long as it holds
the run is the one unbounded arithmetic makes. Two witnesses: 37 failures at once make the backoff
negative, and after the next failed trial the breaker denies nothing; with the longest interval a config
can express, nine failures overflow the countdown.

**Selection and retries** (`Balancer`, `Preference`, `Requests`, `Outbound`, `InFlight`). Both
strategies tick every breaker they look at and still return what a scan without side effects returns.
Under either strategy a request makes the passes of a specification with breakers and counters erased:
the healthy backends in the order the strategy prefers them, by index or by load and then index.
Transport failures use that order up from the front; the first live one of the first three answers, else
502 or 503 (sections 15.6.3 and 15.6.4 of RFC 9110); no other service's backends are touched. One reply
is written and every counter given back, *if and only if* the answer's status can be written: on a
status below 100 the gateway panics between increment and decrement, writes nothing and leaves the
counter up. The sidecar's loop refines the same specification and has no such exit. Under any
interleaving of both kinds of request each counter is the number of attempts in flight plus the answers
lost that way, so all return to zero if and only if there were none.

**Config application** (`Routing`, `Dataplane`, `Discovery`, `Startup`). A table is built exactly from
acceptable configs and an error names a fault of the first bad service. The indexes answer as scans for
every map iteration order, and independently of it exactly where claims do not overlap. A rejected
config changes nothing; an applied one leaves router, pool and config in agreement; between the two
swaps a new route has backends exactly when its service was in the old pool. An acceptable config
without `proxy_config` is neither rejected nor applied: router and pool are swapped before the nil
dereference. That is an input of `HandleConfig`, not of a whole mesh: `validate` of the Kubernetes,
Consul and file clients refuses such a config and `NewServer` fills one in. A health interval that is
not positive does reach a mesh, from a file that does not set it, and kills the proxy in its ticker; it
survives an acceptable config if and only if the interval is there and positive. What discovery builds
is applied exactly when it validates, its addresses parse, and names and ready addresses do not repeat;
its routes never compete. A proxy builds its handler once a config has been received, applied or not: it
can serve if and only if an acceptable one was among those received by then, and the empty config the
server starts with is not.

**Watch loop and probes** (`Debouncer`, `Probes`). No wakeup is lost, quiet means the last build was of
the present cache, and the debouncer's configs are in build order. With the initial config of `Watch`
the order can fail in two ways, each shown by a run: a newer config went before it, or the debouncer was
at a build begun on an older cache and emits it afterwards. All continuations of the send are in order
exactly when neither is the case. The rewritten probe path leads back to the original port and path
exactly when the container is named like the service, without a slash, and no later container's probe of
the same kind says otherwise; the annotations keep every original.

## Conventions

- Durations are nanoseconds. Breaker arithmetic takes a width: `Int64` wraps as Go does and is what the
  classes use, `Exact` is unbounded. Intervals are non-negative where the timers matter: they come from
  an int32 of seconds, and the ticker does not start on one that is not positive.
- The mutable part of a list of backends is a `seq<Snap>`; `Shows(bs, ss)` says the heap holds it.
  Contracts name the values before a call in a ghost parameter.
- Map iteration is an arbitrary choice; where the order matters it is a ghost result.
- `url.Parse`, `strings.ToUpper`, probes, transports and the cluster's caches are parameters.
- Where code and documentation differ the code counts: the "round-robin" start index never advances; a
  path comment in `listener.go` speaks of ports where the code parses container names; the variables
  `ANANSE_PROBE_...` mentioned there are not read; the call of `rewriteProbes` is commented out in
  `injector.go`, lines 361 to 364, so the round trip is about the two ends as they stand.

## Model

| member | source | states |
|---|---|---|
| `FanOut.StepKeepsServer` | controlplane/cmd/server.go:46-124 | every step, from any proxy id, keeps the server invariant: no panic, queues of at most ten in version order, only live open channels in the map, room in the channel the publisher is about to force |
| `FanOut.EveryStateIsOk` | controlplane/cmd/server.go:46-124 | every state of every run satisfies it; so no double close and no send on a closed channel |
| `FanOut.PublishNeverBlocks` | controlplane/cmd/server.go:104-123 | in every reachable state a publish under way has an enabled step; the final send after a drop finds room whatever consumers did meanwhile |
| `FanOut.PublishTerminates` | controlplane/cmd/server.go:94-124 | each publisher step lowers a bound linear in the remaining subscribers, nobody else's step touches it |
| `FanOut.EveryExitWaits` | controlplane/cmd/server.go:72-88 | a failed send, a closed channel and a done context end a subscription with its channel and map entry as they are |
| `FanOut.OnlyCleanupEnds` | controlplane/cmd/server.go:62-66 | and only the deferred cleanup takes it from there |
| `FanOutDelivery.StepKeepsDelivery` | controlplane/cmd/server.go:53-122 | each step keeps queues contiguous up to the last version given, drained queues current, and every version since the snapshot taken, dropped or queued |
| `FanOutDelivery.EveryStateDelivers` | controlplane/cmd/server.go:53-122 | the same in every state of every run |
| `FanOutDelivery.QueueIsTheNewestBlock` | controlplane/cmd/server.go:53-124 | between publishes a registered queue is the block of at most ten versions ending at the current one, snapshot plus sent plus queued strictly increase, none is unaccounted for, and an empty queue means the last config taken is the current one |
| `FanOutDelivery.RoomForTen` | controlplane/cmd/server.go:53-110 | in every run a send that finds fewer than ten queued adds its version and discards nothing, and one that finds ten decides to discard |
| `FanOutDelivery.DiscardFoundTen` | controlplane/cmd/server.go:104-117 | in every run an entry is discarded only as part of a send to that channel that found ten queued |
| `FanOutDelivery.OnlyDropDiscards` | controlplane/cmd/server.go:113-116 | no other step discards anything |
| `FanOutDelivery.LiveIsRegistered` | controlplane/cmd/server.go:56-66 | with at most one live stream per id throughout, the map leads to every live stream |
| `FanOutDelivery.OrphanStays` | controlplane/cmd/server.go:62-66 | a live stream that lost its map entry never regains it and is given nothing more |
| `FanOutDelivery.CurrentIffRegistered` | controlplane/cmd/server.go:56-124 | in every run, a live subscriber has got or will get the current version iff the map led to its channel at the last publish |
| `FanOutDelivery.RegisteredIffUndisturbed` | controlplane/cmd/server.go:56-66 | the map leads to a live stream iff, since it registered, no other stream of its id registered or was cleaned up |
| `FanOutDelivery.CurrentIffUndisturbed` | controlplane/cmd/server.go:56-124 | a live subscriber has got or will get the current version iff nothing of that kind happened between its registration and the publish |
| `FanOutDelivery.ReconnectingTooSoon` | controlplane/cmd/server.go:57-66 | a run in which one proxy reconnects before cleanup and ends drained on an open stream with an outdated config |
| `FanOutClients.StepKeepsClients` | pkg/proxy/dataplane.go:90-164 | every step keeps each client's applied versions in order and equal to the acceptable ones received |
| `FanOutClients.HistoryExtends` | pkg/proxy/dataplane.go:104-163 | over every run what a proxy has applied only grows at its end, across disconnects and reconnects |
| `FanOutClients.AppliedNeverGoesBack` | pkg/proxy/dataplane.go:90-164 | applied versions never decrease across reconnects, never exceed the server's, strictly increase within a stream and are exactly the acceptable ones received |
| `FanOutClients.DrainedProxyIsCurrent` | pkg/proxy/dataplane.go:104-130 | with one live stream per id, a drained stream and an acceptable current config, the version applied last is the server's |
| `ConfigServer.Server.Register` | controlplane/cmd/server.go:53-59 | a fresh empty channel replaces the id's entry and the snapshot is the current config, in one lock region |
| `ConfigServer.Server.Cleanup` | controlplane/cmd/server.go:62-66 | the id's entry goes whoever holds it, the channel is closed, the map keeps only open channels |
| `ConfigServer.Server.UpdateConfig` | controlplane/cmd/server.go:94-124 | the version advances, the config is stamped "v" and the version, and every queue of fewer than ten gains it at the end while a queue of ten loses its oldest entry for it |
| `ConfigServer.SendAll` | controlplane/cmd/server.go:104-123 | in any map order each subscriber is served once and no other channel changes |
| `ConfigServer.Send` | controlplane/cmd/server.go:105-117 | a queue of fewer than ten gains the config at the end, a queue of ten loses its oldest entry for it |
| `ConfigServer.VersionLabelsDiffer` | controlplane/cmd/server.go:99-100 | labels of different updates differ from each other and from the initial label |
| `ConfigServer.UninterruptedSend` | controlplane/cmd/server.go:105-117 | the transition system's publisher steps at one channel, without a consumer in between, amount to the object's send |
| `Debouncer.EveryStateIsOk` | controlplane/k8s-client.go:86-153 | every state of every run keeps the wakeup, build order and channel invariants |
| `Debouncer.StepKeepsWakeups` | controlplane/k8s-client.go:118-138 | no step lets a change go without a pending call, a token or the timer |
| `Debouncer.ChangesAreBuilt` | controlplane/k8s-client.go:118-146 | a cache changed since the last build began has a handler call, token or timer to come; when all is quiet the last build was of exactly the present cache |
| `Debouncer.EmittedInBuildOrder` | controlplane/k8s-client.go:134-146 | the debouncer's configs enter the channel in build order, each build over before the next began, and leave in that order |
| `Debouncer.OnlyValidAndFive` | controlplane/k8s-client.go:110-146 | in every run only valid configs are emitted, at most five wait, and the debouncer's gets in iff fewer than five do |
| `Debouncer.BuildWaitsForQuiet` | controlplane/k8s-client.go:131-135 | in every run a build starts only after the timer has run out with no token taken since |
| `Debouncer.TowardsQuiet` | controlplane/k8s-client.go:125-153 | until all is quiet an internal step is possible, and each lowers a bound that only changes and resyncs raise |
| `Debouncer.InitialConfigInOrderIff` | controlplane/k8s-client.go:108-146 | whatever follows the send of Watch, all configs emitted are in build order iff at the send none emitted was built from a newer cache and the debouncer is at no build begun on an older one |
| `Debouncer.InitialConfigArrivesLate` | controlplane/k8s-client.go:108-146 | a run that ends quiet with the outdated initial config delivered last |
| `Debouncer.OlderBuildArrivesLate` | controlplane/k8s-client.go:108-146 | a run in which nothing newer preceded the initial config and an older build follows it |
| `CircuitBreaker.StepKeepsSound` | pkg/proxy/backend.go:45-102 | one report or query keeps: healthy iff closed with count 0, closed has count 0 to 4 and zero timers, open has count at least 5; unbounded, also non-negative countdown and positive backoff |
| `CircuitBreaker.ReachableIsSound` | pkg/proxy/backend.go:45-102 | over every interleaving from a fresh breaker, in either width the first part, unbounded also the timers' part; BreakerTimers.TimersStaySoundIff has the timers in int64 |
| `CircuitBreaker.HealthyIff` | pkg/proxy/backend.go:49-62 | over every run the backend is healthy iff the last report was a success or there was none, and right after a success it is closed and healthy with count and timers 0 |
| `CircuitBreaker.DenialBudget` | pkg/proxy/backend.go:85-95 | denied intervals plus the remaining countdown add up to the window's countdown |
| `CircuitBreaker.DeniedIffFits` | pkg/proxy/backend.go:85-95 | the next query is denied iff its interval fits what is left |
| `CircuitBreaker.OpenWindowEnds` | pkg/proxy/backend.go:85-95 | with intervals of at least m the breaker leaves Open within floor(R/m)+1 queries |
| `CircuitBreaker.HalfOpenBalance` | pkg/proxy/backend.go:64-99 | without a success the count is start minus grants plus failures, and the breaker reopens at exactly the first failure that brings it to 5 |
| `CircuitBreaker.OpenBalance` | pkg/proxy/backend.go:64-99 | the same from the query that leaves Open, which is itself a grant |
| `CircuitBreaker.WindowStarts` | pkg/proxy/backend.go:63-95 | with every probe failing the k-th open window starts at its computed tick with R_1 = 3s+ci, R_k = 3s·2^(k-2)+3s+2ci and backoff 3s·2^(k-1) |
| `CircuitBreaker.FailingTickSchedule` | pkg/proxy/health.go:36-52 | the first open window starts after 5 ticks; the k-th has countdown 3s+ci for k = 1 and 3s·2^(k-2)+3s+2ci after, backoff 3s·2^(k-1), skips exactly floor(countdown/ci) ticks and then grants one; for every k unbounded, for k up to 32 in int64 |
| `BreakerTimers.BackoffIs` | pkg/proxy/backend.go:64-76 | after any mix of reports and queries the backoff is 3s·2^(c-1) for c failures landed at count 5 or more since the last success, 0 for none; in int64 while no prefix has more than 32 |
| `BreakerTimers.BackoffWraps` | pkg/proxy/backend.go:72-73 | the 33rd makes it negative, in every such run |
| `BreakerTimers.Int64IsExact` | pkg/proxy/backend.go:45-102 | as long as counts and countdown fit, the int64 run equals the unbounded one |
| `BreakerTimers.TimersStaySoundIff` | pkg/proxy/backend.go:45-102 | for every run with intervals a config can express, countdown and backoff are sound after every prefix in int64 iff no prefix counts more than 32 and the countdown fits |
| `BreakerTimers.TimersStaySoundIffAtMost32` | pkg/proxy/backend.go:45-102 | with intervals of up to a year, iff no prefix counts more than 32 |
| `BreakerTimers.BackoffExactIff` | pkg/proxy/backend.go:72-76 | for a burst of reports int64 and unbounded backoff agree iff at most 32 landed |
| `BreakerTimers.LongIntervalOverflows` | pkg/proxy/backend.go:68-70 | with the longest expressible interval the fifth failure that lands makes the countdown negative and no query is denied |
| `BreakerTimers.OverflowDisablesTheBreaker` | pkg/proxy/backend.go:64-95 | after 37 reports, the balancer's own queries up to the next trial and its failure, the open breaker denies no query |
| `Backends.Backend.UpdateStatus` | pkg/proxy/backend.go:45-79 | a success makes it healthy and closed with count and timers 0; a failure adds one and from 5 on opens it with 3s and the check interval on top of the countdown, or of the backoff and twice the interval if half-open, and doubles the backoff; in int64, and as a report changes the breaker value |
| `Backends.Backend.GetCircuitState` | pkg/proxy/backend.go:81-102 | no iff open with the interval within the countdown, which it then shortens; otherwise an open or half-open breaker is half-open with one failure less and a closed one as it was; as a query changes the breaker value |
| `Backends.BackendPool.GetBackendsForService` | pkg/proxy/backend.go:186-198 | the service's list, and whether the service is known |
| `Backends.BackendPool.GetCircuitState` | pkg/proxy/backend.go:244-257 | queries the first backend of that name in the current pool and no other; no if there is none |
| `Backends.BackendPool.UpdateBackendStatus` | pkg/proxy/backend.go:259-274 | reports to the first backend of that name in the current pool and no other |
| `Balancer.FewestIsLeast` | pkg/proxy/loadbalancer.go:89-106 | the scan keeps the first healthy backend with the fewest requests, or none iff none is healthy |
| `Balancer.ScannedKeeps` | pkg/proxy/loadbalancer.go:62-101 | ticking any prefix of sound breakers changes nobody's health flag or load |
| `Balancer.ScannedPointwise` | pkg/proxy/loadbalancer.go:62-66 | every breaker a scan looks at has been queried once with ten seconds, and no other |
| `Balancer.LoadBalancer.Examine` | pkg/proxy/loadbalancer.go:66-77 | the query ticks one breaker, and the backend counts as usable iff it was healthy before |
| `Balancer.LoadBalancer.ScanInOrder` | pkg/proxy/loadbalancer.go:61-80 | the first healthy backend, and the breakers up to and including it, all if there is none, have been queried once with ten seconds |
| `Balancer.LoadBalancer.GetNextRoundRobin` | pkg/proxy/loadbalancer.go:48-81 | the first healthy backend from index 0, null iff none; the start index stays 0 |
| `Balancer.LoadBalancer.GetNextLeastConnection` | pkg/proxy/loadbalancer.go:83-107 | the first minimum of active requests over the healthy ones as they were before the scan, null iff none |
| `Balancer.LoadBalancer.GetNextPeer` | pkg/proxy/loadbalancer.go:25-46 | the choice of the strategy, any unknown name meaning round-robin; queried with ten seconds are the backends up to and including the chosen one for round-robin, all if none is, and every backend for least-connections |
| `Balancer.ChoiceIsHealthy` | pkg/proxy/loadbalancer.go:25-107 | a peer is found iff one is healthy; it is closed, never open or half-open, and first or least as the strategy says |
| `Preference.PreferredRanks` | pkg/proxy/loadbalancer.go:48-107 | choosing, taking the choice down and choosing again lists exactly the healthy backends, each once, by index for round-robin and by load and then index for least-connections |
| `Preference.PreferredSame` | pkg/proxy/loadbalancer.go:48-107 | that list depends on health flags and loads alone |
| `Preference.PreferredAfterFailure` | pkg/proxy/loadbalancer.go:48-107 | when the chosen backend goes down the rest of the list stands |
| `HealthChecks.TickedPointwise` | pkg/proxy/health.go:38-51 | a tick with its checks reaches every backend of a service exactly once, whatever its neighbours do |
| `HealthChecks.Health.CheckBackend` | pkg/proxy/health.go:60-104 | whenever it runs, only a 2xx answer is reported healthy, to the backend that has the name in the pool by then, and to nobody if there is none |
| `HealthChecks.Health.AskBackend` | pkg/proxy/health.go:42-45 | one query; a check is due iff it is not denied |
| `HealthChecks.Health.TickService` | pkg/proxy/health.go:39-52 | every backend of a service is queried once and exactly those not denied get a check |
| `HealthChecks.Health.TickNext` | pkg/proxy/health.go:38-53 | that leaves the backends of every other service alone |
| `HealthChecks.Health.Tick` | pkg/proxy/health.go:36-53 | the same for all services, in any map order |
| `HealthChecks.AnyOrderIsATick` | pkg/proxy/health.go:42-50 | in whatever order the checks of a tick report, once all have, every backend has had one query and, unless denied, one report |
| `HealthChecks.LateReportsAreRuns` | pkg/proxy/health.go:36-104 | with ticks and reports interleaved in any way, each breaker goes through the run of its own queries and reports |
| `HealthChecks.Health.StartChecking` | pkg/proxy/health.go:30-31 | the goroutine panics iff the interval is not positive |
| `HealthChecks.Health.Restart` | pkg/proxy/health.go:118-137 | the interval changes, and the new goroutine panics iff it is not positive |
| `HealthChecks.DeadBackendFollowsSchedule` | pkg/proxy/health.go:36-52 | a backend whose probe always fails follows the failing-tick run beside arbitrary neighbours |
| `Requests.FailuresFollowPreference` | pkg/proxy/handler.go:87-183 | transport failures of one request hit pairwise distinct healthy backends in the order of the strategy, which for round-robin is increasing index |
| `Requests.TraceShape` | pkg/proxy/handler.go:87-253 | one to three passes, only the last an answer, three if there is none |
| `Requests.TraceExplained` | pkg/proxy/handler.go:87-253 | with f transport failures so far a pass tries the backend preferred at place f, none if there is none, and its outcome is the network's; so a failed modification keeps the backend in play |
| `Requests.RequestExplained` | pkg/proxy/handler.go:87-253 | one to three passes, fewer only after an answer; the last decides: 503 without a backend, 502 on a transport failure, 500 on a failed modification, the answer itself if its status is from 100 to 999 and nothing otherwise |
| `Requests.ReplyIsFirstLive` | pkg/proxy/handler.go:87-253 | absent modify failures the first live one of the first three healthy backends answers, with nothing written if its status is below 100 or above 999; else 502 after three failures or 503 when they ran out |
| `Requests.PassKeeps` | pkg/proxy/handler.go:95-164 | a pass keeps breakers sound and loads equal, and takes exactly the failed backend out of play |
| `Requests.AfterPassPointwise` | pkg/proxy/handler.go:95-164 | what a pass does to each breaker: the scan's ten-second query if the scan came by, then a failure report if it failed there |
| `Requests.ProxyHandler.Forward` | pkg/proxy/handler.go:123-234 | the counter is given back on every outcome but an answer that cannot be written, and only a transport failure is reported |
| `Requests.RestoredIff` | pkg/proxy/handler.go:231-234 | after an answer from 100 to 999 exactly it is written and all counters are back; after any other answer nothing is written and that backend's counter alone is one up; without an answer all are back |
| `Requests.LowStatusLeaks` | pkg/proxy/handler.go:231-234 | a backend answering 99: nothing is written and its counter stays at one |
| `Requests.ProxyHandler.PassOnce` | pkg/proxy/handler.go:95-183 | a pass of the code is a pass of the specification |
| `Requests.ProxyHandler.Round` | pkg/proxy/handler.go:97-252 | which pass ends the request, with what reply, and which with a panic |
| `Requests.ProxyHandler.Advance` | pkg/proxy/handler.go:87-252 | a pass moves the request along the specified trace, or ends it with the reply of its last pass |
| `Requests.ProxyHandler.RetryLoop` | pkg/proxy/handler.go:84-253 | the loop ends with the reply of the last specified pass, or a panic iff that answer cannot be written |
| `Requests.ProxyHandler.Serve` | pkg/proxy/handler.go:84-253 | under either strategy the loop makes the specified passes, leaves the breakers as these passes do, takes out of play exactly the failed backends, writes exactly the one reply called for and gives all counters back, except on an answer that cannot be written |
| `Requests.ProxyHandler.ServeRoute` | pkg/proxy/handler.go:84-253 | the same for the service a route leads to, no other service's backends touched |
| `Requests.ProxyHandler.ServeHTTP` | pkg/proxy/handler.go:41-254 | 404 iff no service declares path and method, otherwise the loop for one that does; one reply unless it panics, and no other service's backends touched |
| `Outbound.SidecarProxy.DialAndForward` | pkg/proxy/listener.go:515-654 | each failing leg gives the counter back and reports the backend; success keeps the counter |
| `Outbound.SentIsFirstLive` | pkg/proxy/listener.go:467-700 | the client gets the answer, whatever its status, of the first of the first three preferred backends whose dial, write and read succeed, and nothing if there is none |
| `Outbound.SidecarProxy.PassOnce` | pkg/proxy/listener.go:483-654 | a pass of the gateway's specification, the answering backend still held |
| `Outbound.SidecarProxy.Advance` | pkg/proxy/listener.go:475-680 | a pass moves the request along the specified trace, or ends it |
| `Outbound.SidecarProxy.RetryLoop` | pkg/proxy/listener.go:467-680 | the loop makes the gateway's passes and yields the answer of the last |
| `Outbound.SidecarProxy.HandleOutbound` | pkg/proxy/listener.go:467-700 | the client gets the answer or nothing, and every counter is restored |
| `InFlight.StepKeepsBalance` | pkg/proxy/handler.go:123-234 | each counter operation of any request keeps counter and holders in step |
| `InFlight.EveryStateIsBalanced` | pkg/proxy/listener.go:515-693 | so does every run of gateway and sidecar requests |
| `InFlight.CountersAreExact` | pkg/proxy/handler.go:123-234 | in every run a counter equals the attempts between increment and decrement plus the gateway answers that could not be written, iff these are at most 2^31-1; so when all requests are over it is zero iff there was no such answer |
| `InFlight.OnlyGatewaysLose` | pkg/proxy/listener.go:692-693 | a decrement is lost only by a gateway request on a status below 100 or above 999, never by a sidecar request |
| `InFlight.SuchAnswersLose` | pkg/proxy/handler.go:231-234 | a gateway answer loses its decrement iff its status is below 100 or above 999 |
| `InFlight.LowStatusLeaks` | pkg/proxy/handler.go:231-234 | a run of one request after which all is over and a counter is at one |
| `Routing.BuildEndpoints` | pkg/proxy/dataplane.go:246-263 | endpoints are accepted iff present, non-empty and distinct; an error names a fault |
| `Routing.BuildRoutes` | pkg/proxy/dataplane.go:266-289 | routes are accepted iff present, each with a path and a non-empty method; methods in upper case |
| `Routing.BuildService` | pkg/proxy/dataplane.go:240-301 | a service compiles iff acceptable |
| `Routing.BuildServices` | pkg/proxy/dataplane.go:239-303 | the table of all services iff all are acceptable and no name repeats; otherwise an error about the first bad one |
| `Routing.BuildRoutingTable` | pkg/proxy/dataplane.go:230-306 | accepted iff the config exists and its services are acceptable; the table has one compiled entry per service and a path index that answers as a scan; an error describes a real fault |
| `Routing.BlameRejects` | pkg/proxy/dataplane.go:241-293 | an error that describes a fault implies the services are not acceptable |
| `Routing.BuildPathIndex` | pkg/proxy/dataplane.go:308-321 | a hit names a service that declares path and method and a miss means none does; which one, if several do, is the last in the iteration order |
| `Routing.BuildVipIndex` | pkg/proxy/Router.go:60-66 | the same for "ip:port", over services with an address and a positive port |
| `Routing.PathsAreSound` | pkg/proxy/Router.go:47-57 | whatever the order, the path index answers as a scan of the services |
| `Routing.VipsAreSound` | pkg/proxy/Router.go:60-66 | whatever the order, the VIP index answers as a scan of the services |
| `Routing.TableRoutesConfig` | pkg/proxy/Router.go:42-69 | every lookup in an installed table names a config service with a route of that path and method, or with that cluster IP and port, and misses iff no config service has it |
| `Routing.LookupSound` | pkg/proxy/Router.go:46-66 | for every iteration order a hit names a claimant and a miss means there is none |
| `Routing.OrderIndependentIff` | pkg/proxy/Router.go:46-66 | the lookup is the same for all orders iff at most one service claims the key |
| `Routing.VipKeyInjective` | pkg/proxy/Router.go:62-64 | two services share a VIP key iff they share address and port, IPv6 included |
| `Routing.VipOrderIndependentIff` | pkg/proxy/Router.go:60-66 | the whole VIP index is order-independent iff no two services share a VIP |
| `Routing.PathIndexesAgree` | pkg/proxy/dataplane.go:308-321 | two builds of the path index agree wherever at most one service declares the route |
| `Routing.Router.UpdateRoutes` | pkg/proxy/Router.go:42-69 | the installed services are the table's, and both indexes answer as scans of them |
| `Routing.Router.FindService` | pkg/proxy/Router.go:30-40 | a service that declares path and method, none iff none does |
| `Routing.Router.FindServiceByVIP` | pkg/proxy/Router.go:15-27 | a service that owns the VIP, none iff none does or no index exists |
| `Dataplane.BackendNameInjective` | pkg/proxy/dataplane.go:357-357 | backend names determine service and index across all services |
| `Dataplane.BackendsFor` | pkg/proxy/dataplane.go:337-362 | fresh backends, numbered by endpoint index, targeting the parsed addresses; fails iff one does not parse |
| `Dataplane.CreateBackends` | pkg/proxy/dataplane.go:323-374 | a pool with the backends of every service iff all addresses parse and there is one |
| `Dataplane.UnmatchedOf` | pkg/proxy/backend.go:163-173 | the old backends whose names are not among the new, in order |
| `Dataplane.FindRemovedBackends` | pkg/proxy/backend.go:158-176 | a backend is removed iff its service's new list has none of its name, each service's in order |
| `Dataplane.RemovedAre` | pkg/proxy/backend.go:158-176 | that holds whatever the iteration order |
| `Dataplane.UnmatchedIsSuffix` | pkg/proxy/backend.go:158-176 | for numbered pools the removed backends of a service are the old suffix beyond the new length |
| `Dataplane.RemovedAreSuffixes` | pkg/proxy/backend.go:158-176 | over all services, and in number the sum of max(0, old−new) |
| `Dataplane.RemovedBetweenConfigs` | pkg/proxy/backend.go:158-176 | the same for the pools of any two applied configs and any iteration order |
| `Dataplane.AcceptedIsNumbered` | pkg/proxy/dataplane.go:339-361 | backends built from accepted endpoints are numbered without gaps and backend i targets endpoint i |
| `Dataplane.PoolServesConfig` | pkg/proxy/dataplane.go:323-374 | pool keys and config service names coincide and each backend list matches its endpoints |
| `Dataplane.ServingPoolIsValid` | pkg/proxy/dataplane.go:339-366 | such lists are non-empty with distinct names, as lookups by name need |
| `Dataplane.ServingMeans` | pkg/proxy/dataplane.go:346-360 | backend j of a service is called after it and j and goes to its address j, with http:// in front unless it has a scheme |
| `Dataplane.AcceptableMeans` | pkg/proxy/dataplane.go:230-303 | acceptable means at least one service, no name twice, and each with a name, distinct non-empty addresses that parse, and routes with a path and a non-empty method |
| `Dataplane.ServingIsSeparate` | pkg/proxy/dataplane.go:356-361 | no backend of such a pool is shared between services |
| `Dataplane.AcceptableWithoutProxyConfig` | pkg/proxy/dataplane.go:202-202 | a config that is acceptable and lacks proxy_config exists |
| `Dataplane.AcceptableWithoutInterval` | pkg/proxy/health.go:31-31 | a config that is acceptable and whose interval is zero exists |
| `Dataplane.ProxyState.HandleConfig` | pkg/proxy/dataplane.go:166-220 | rejected iff not acceptable, and then nothing changes; otherwise every route and VIP lookup names a config service that serves it and misses iff none does, backends match endpoints, every routable service has backends and all breakers start over; the process survives iff proxy_config is there with a positive interval, dies half way without it, and dies in the ticker with everything in place otherwise |
| `Dataplane.ProxyState.Build` | pkg/proxy/dataplane.go:167-177 | everything that can fail happens before anything is touched, and succeeds iff the config is acceptable |
| `Dataplane.ProxyState.Commit` | pkg/proxy/dataplane.go:179-213 | the locked section installs all of it, up to the health interval of a missing proxy_config, and starts a checker that panics iff the interval is not positive |
| `Dataplane.ProxyState.Install` | pkg/proxy/dataplane.go:182-199 | router, pool and balancer refer to the new table and to one and the same pool |
| `Dataplane.ProxyState.InstallRoutes` | pkg/proxy/dataplane.go:186-192 | between the two swaps the new routes are in force and a hit has backends iff its service is in the old pool |
| `Dataplane.ProxyState.InstallPool` | pkg/proxy/dataplane.go:188-198 | the second swap; pool and balancer, once made, are kept, and the balancer is made with "round-robin" |
| `Dataplane.ProxyState.SetHealth` | pkg/proxy/dataplane.go:202-208 | a health checker with the new interval on the same pool, whose goroutine panics iff the interval is not positive |
| `Discovery.TargetsExactly` | controlplane/k8s-client.go:203-232 | a service's targets are exactly the ready addresses of its slices with the slice's first port or 8080 |
| `Discovery.PrintedExactly` | controlplane/k8s-client.go:203-232 | the endpoints of a service are exactly the ready addresses its slices list, each printed with its slice's first port or 8080 |
| `Discovery.ExportedMeans` | controlplane/k8s-client.go:180-197 | a service is exported under its name with its cluster IP, first port or 0, these endpoints and one route "/name" for five methods |
| `Discovery.SelectedExactly` | controlplane/k8s-client.go:165-178 | exported are exactly the services with a selector, the mesh label "enabled" and a ready address |
| `Discovery.BuildEndpoints` | controlplane/k8s-client.go:203-232 | the printed targets, in slice order |
| `Discovery.BuildConfig` | controlplane/k8s-client.go:155-201 | one service with one route per selected cluster service, in listing order, under the fixed proxy config |
| `Discovery.PrintedDistinct` | controlplane/k8s-client.go:223-226 | printed endpoints are distinct iff targets are |
| `Discovery.AcceptedIff` | controlplane/k8s-client.go:155-242 | the routing table accepts what discovery builds iff the selected services have distinct non-empty names and list no ready address and port twice |
| `Discovery.AppliedIff` | controlplane/k8s-client.go:234-242 | HandleConfig's condition on a discovered config holds iff it validates, is well formed in that sense and its printed addresses parse; proxy_config is never missing |
| `Discovery.DiscoveredPathsAgree` | controlplane/k8s-client.go:186-197 | for a well-formed cache the path index of the discovered services does not depend on the iteration order |
| `Startup.EmptyConfigIsRejected` | controlplane/cmd/server.go:24-36 | the config of a server without a snapshot is not acceptable |
| `Startup.ReceiveAll` | proxy/main.go:48-77 | the process lives through the configs it receives iff each acceptable one has a positive interval; pool, balancer and checker exist iff one was acceptable |
| `Startup.StartGateway` | pkg/proxy/gateway.go:26-32 | a handler that can serve iff all it captures exists |
| `Startup.StartSidecar` | pkg/proxy/listener.go:267-268 | the same for the sidecar |
| `Startup.RunGateway` | proxy/main.go:45-94 | a live gateway can serve iff one of the configs received when its handler was built was acceptable |
| `Text.AtoiDecimal` | pkg/proxy/listener.go:153-153 | reading a printed int64 gives it back |
| `Text.KeyedInjective` | pkg/proxy/Router.go:63-63 | text, separator and number are determined by the key, even if the text contains the separator |
| `Probes.GetProbePort` | controlplane/injector/injector.go:519-538 | the number itself, else the first container port of that name, else the number the text is, else 8080 |
| `Probes.Pod.RewriteProbe` | controlplane/injector/injector.go:421-443 | an HTTP probe is turned to the sidecar and its original saved in annotation and environment; any other probe stays |
| `Probes.Pod.RewriteContainer` | controlplane/injector/injector.go:420-493 | the three kinds one after the other, independently |
| `Probes.Pod.RewriteProbes` | controlplane/injector/injector.go:408-500 | every container is rewritten in place or skipped, and annotations and variables record all originals in order |
| `Probes.RewrittenMeans` | controlplane/injector/injector.go:412-497 | an HTTP probe of an app container goes to port 15021 and /app-health/name/endpoint; its other fields, all other probes, and the two containers of the sidecar stay as they were |
| `Probes.OriginalMeans` | controlplane/injector/injector.go:422-432 | kept are the resolved port and the path, "/" if it was empty |
| `Probes.KeysMean` | controlplane/injector/injector.go:514-514 | annotation and cache keys as they read |
| `Probes.PortVarMeans` | pkg/proxy/listener.go:149-149 | the port variables as they read |
| `Probes.PathVarMeans` | pkg/proxy/listener.go:150-150 | the path variables as they read |
| `Probes.AnnotationsKeepOriginals` | controlplane/injector/injector.go:502-516 | with distinct container names the annotations hold the original of every rewritten probe |
| `Probes.Sidecar.InitProbeConfigs` | pkg/proxy/listener.go:133-167 | the cache after the three kinds |
| `Probes.Sidecar.HandleAppHealthProxy` | pkg/proxy/listener.go:173-218 | what a path and query parameters resolve to, with the error cases |
| `Probes.PathsParseBack` | pkg/proxy/listener.go:175-198 | a rewritten path parses back to name and kind iff the name has no slash, and is refused otherwise |
| `Probes.ParsedExactly` | pkg/proxy/listener.go:175-198 | a path is taken for a container and a kind iff the name has no slash and the path is name and endpoint, after the prefix or, for lack of one, without |
| `Probes.CacheKeyInjective` | pkg/proxy/listener.go:201-201 | cache keys determine name and kind |
| `Probes.CacheHolds` | pkg/proxy/listener.go:147-166 | a key is cached iff it is the service's and its kind is in the environment, with that config |
| `Probes.EnvCarriesWinner` | controlplane/injector/injector.go:435-438 | the environment carries the last saved probe of each kind |
| `Probes.AnswerToRewrittenPath` | pkg/proxy/listener.go:173-218 | for every pod, name and kind: 400 for a slash, 404 for another name or an unprobed kind, else the last container's original |
| `Probes.ProbeRoundTripIff` | controlplane/injector/injector.go:408-500 | a probe resolves to its own original iff its container has no slash, is named like the service, and no later container's probe of the kind differs |
| `Probes.OneAppContainerRoundTrips` | pkg/proxy/listener.go:133-218 | in a pod with one app container named like the service every probe kind round-trips |

## Left out

- `Server.Shutdown`: its close and the deferred cleanup close the same channel, so runs end before it; gRPC serving and generated protobuf code are taken as a reliable FIFO stream.
- Sends on a stream whose client is gone may fail or succeed at any time; a lost connection is a disconnect, and what was sent but not received is lost.
- Version numbers and failure counts are unbounded; `uint64` and `int` would need centuries to wrap.
- `ConfigClient.lastVersion` is not modelled: the server ignores it.
- `Health.Restart` is its effect on the interval and the start of a new goroutine; that a busy checker can continue on the new channel is not modelled.
- HealthChecks.DeadBackendFollowsSchedule: is about ticks whose checks report before the next tick; later reports are covered by LateReportsAreRuns and the breaker's run lemmas, which allow any interleaving.
- The cap of twenty checks at a time, which only delays reports.
- Requests.ProxyHandler.ServeHTTP: states a request running alone, because concurrent reports change which backends are healthy.
- Outbound.SidecarProxy.HandleOutbound: like ServeHTTP, and from the retry loop on; original-destination lookup, passthrough, TLS, raw TCP and connection upgrades are not modelled.
- A body that breaks off while it is copied to the client is not modelled; the status line has been written by then. Informational statuses other than 101 do not come out of the transport.
- `drainRemovedBackends`, its timers and `Backend.Close`: the diff it works from is modelled, the polling is not.
- Dataplane.ProxyState.HandleConfig: states the call as a whole; what readers can see between its two swaps is stated by InstallRoutes.
- Round-robin fairness, delivery from the debouncer and liveness under constant updates: the code does not provide them. The debouncer drops a config when the channel is full, so coverage by a build is claimed, not delivery.
- Cancellation of the watch loop, including the close of the config channel while Watch may still be sending.
- `consul-client.go` repeats the debouncer around opaque calls; `file-client.go` is file watching with easy checks.
- The JSON text of an annotation is a structured value, and the other fields of a probe are one opaque number.
- URL cleaning by the admin server's mux and percent-decoding before the health handler sees the path; container names are DNS labels, which neither touches.
- The forwarded health request itself and its reply.
- `injectSidecar`, `injectRequired` and JSON patch creation are literal construction.
- Metrics, tracing, logging, header rewriting, certificates, iptables, dashboards and demo services.
