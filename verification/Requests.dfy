/** One gateway request from routing to reply: the retry loop of pkg/proxy/handler.go. What the
    network does is an oracle; everything the loop does to breakers and counters is kept. */
module Requests {
  import opened MachineInts
  import opened Retries
  import opened CircuitBreaker
  import opened Backends
  import opened Balancer
  import opened Preference
  import opened Text
  import opened Routing
  import opened HealthChecks

  /** How a forwarded attempt ends. */
  datatype Outcome = TransportError | ModifyError | Response(status: int)

  /** The oracle: attempt number and backend name. */
  type Network = (nat, string) -> Outcome

  /** What one pass of the loop amounted to; k is the backend's index. */
  datatype Attempt = NoPeer | Failed(k: nat) | Unmodified(k: nat) | Answered(k: nat, status: int)

  /** What a client is sent: a status of the proxy's own, or a backend's answer. */
  datatype Reply = Refused(status: int) | Forwarded(backend: string, status: int)

  // ----- The specification: the loop with breakers and counters erased -----
  // left are the indices of the backends in play, in the order the balancer prefers them

  /** The pass the loop makes when these backends are left. */
  function Pass(left: seq<nat>, names: seq<string>, attempt: nat, network: Network): Attempt
    requires forall i | 0 <= i < |left| :: left[i] < |names|
  {
    if left == [] then NoPeer
    else AttemptAt(left[0], network(attempt, names[left[0]]))
  }

  function AttemptAt(k: nat, o: Outcome): Attempt {
    match o
    case TransportError => Failed(k)
    case ModifyError => Unmodified(k)
    case Response(status) => Answered(k, status)
  }

  /** A transport failure takes its backend out of play; nothing else does. */
  function Remaining(left: seq<nat>, a: Attempt): seq<nat> {
    if a.Failed? && left != [] then left[1..] else left
  }

  /** The passes of a whole request, from this attempt on. */
  function Trace(left: seq<nat>, names: seq<string>, attempt: nat, network: Network): seq<Attempt>
    requires forall i | 0 <= i < |left| :: left[i] < |names|
    decreases MAX_RETRIES - attempt
  {
    if attempt >= MAX_RETRIES then []
    else
      var a := Pass(left, names, attempt, network);
      if a.Answered? then [a] else [a] + Trace(Remaining(left, a), names, attempt + 1, network)
  }

  /** The reply is decided by the last pass. */
  function ReplyFor(a: Attempt, names: seq<string>): Reply
    requires a.Answered? ==> a.k < |names|
  {
    match a
    case NoPeer => Refused(503)
    case Failed(_) => Refused(502)
    case Unmodified(_) => Refused(500)
    case Answered(k, status) => Forwarded(names[k], status)
  }

  /** The handler panics on the answer: the server recovers, nothing has been written, and the
      decrement that follows the copying is never reached. */
  predicate Panics(a: Attempt) {
    a.Answered? && Unwritable(a.status)
  }

  /** What is written. */
  function Replies(a: Attempt, names: seq<string>): seq<Reply>
    requires a.Answered? ==> a.k < |names|
  {
    if Panics(a) then [] else [ReplyFor(a, names)]
  }

  // ----- Theorems about the trace -----

  /** The backend indices of the passes that failed in transport. */
  function FailedAt(trace: seq<Attempt>): seq<nat> {
    if trace == [] then []
    else if trace[0].Failed? then [trace[0].k] + FailedAt(trace[1..])
    else FailedAt(trace[1..])
  }

  lemma FailedAtCons(a: Attempt, rest: seq<Attempt>)
    ensures FailedAt([a] + rest) == if a.Failed? then [a.k] + FailedAt(rest) else FailedAt(rest)
  {
    assert ([a] + rest)[1..] == rest;
  }

  /** Transport failures use the backends in play up from the front. */
  lemma {:induction false} FailuresUseUpThePrefix(left: seq<nat>, names: seq<string>, attempt: nat, network: Network)
    requires forall i | 0 <= i < |left| :: left[i] < |names|
    ensures var f := FailedAt(Trace(left, names, attempt, network));
            |f| <= |left| && f == left[..|f|]
    decreases MAX_RETRIES - attempt
  {
    if attempt < MAX_RETRIES {
      var a := Pass(left, names, attempt, network);
      if !a.Answered? {
        var rest := Trace(Remaining(left, a), names, attempt + 1, network);
        FailuresUseUpThePrefix(Remaining(left, a), names, attempt + 1, network);
        FailedAtCons(a, rest);
        var f := FailedAt(rest);
        if a.Failed? {
          assert left[..1 + |f|] == [left[0]] + left[1..][..|f|];
        }
      } else {
        FailedAtCons(a, []);
      }
    }
  }

  /** Whatever the strategy, transport failures hit pairwise distinct healthy backends in the order
      of the strategy: by index, or by load and then index. */
  lemma FailuresFollowPreference(strategy: string, ss: seq<Snap>, names: seq<string>, network: Network)
    requires |ss| == |names|
    ensures var f := FailedAt(Trace(Preferred(strategy, ss), names, 0, network));
            && (forall i | 0 <= i < |f| :: f[i] < |ss| && ss[f[i]].breaker.healthy)
            && (forall i, j | 0 <= i < j < |f| :: f[i] != f[j] && Preference.Better(strategy, ss, f[i], f[j]))
  {
    PreferredRanks(strategy, ss);
    FailuresUseUpThePrefix(Preferred(strategy, ss), names, 0, network);
  }

  /** A request makes at least one pass and at most three, and only the last can be an answer. */
  lemma {:induction false} TraceShape(left: seq<nat>, names: seq<string>, attempt: nat, network: Network)
    requires attempt < MAX_RETRIES && forall i | 0 <= i < |left| :: left[i] < |names|
    ensures var t := Trace(left, names, attempt, network);
            && 1 <= |t| <= MAX_RETRIES - attempt
            && (forall i | 0 <= i < |t| - 1 :: !t[i].Answered?)
            && (!t[|t| - 1].Answered? ==> |t| == MAX_RETRIES - attempt)
    decreases MAX_RETRIES - attempt
  {
    var a := Pass(left, names, attempt, network);
    if !a.Answered? && attempt + 1 < MAX_RETRIES {
      TraceShape(Remaining(left, a), names, attempt + 1, network);
    }
  }

  /** The pass made with f transport failures behind it. */
  function PassAfter(left: seq<nat>, names: seq<string>, f: nat, attempt: nat, network: Network): Attempt
    requires forall j | 0 <= j < |left| :: left[j] < |names|
  {
    if f >= |left| then NoPeer else AttemptAt(left[f], network(attempt, names[left[f]]))
  }

  lemma PassAfterOneMore(left: seq<nat>, names: seq<string>, f: nat, attempt: nat, network: Network)
    requires left != [] && forall j | 0 <= j < |left| :: left[j] < |names|
    ensures PassAfter(left[1..], names, f, attempt, network) == PassAfter(left, names, f + 1, attempt, network)
  {
  }

  lemma {:induction false} TracePass(left: seq<nat>, names: seq<string>, attempt: nat, network: Network, t: seq<Attempt>, i: nat)
    requires forall j | 0 <= j < |left| :: left[j] < |names|
    requires t == Trace(left, names, attempt, network) && i < |t|
    ensures t[i] == PassAfter(left, names, |FailedAt(t[..i])|, attempt + i, network)
    decreases i
  {
    var a := Pass(left, names, attempt, network);
    assert t[0] == a && (i > 0 ==> attempt + 1 < MAX_RETRIES && t == [a] + Trace(Remaining(left, a), names, attempt + 1, network)) by {
      TraceHead(left, names, attempt, network);
    }
    if i == 0 {
      assert t[..0] == [];
    } else {
      var rest := t[1..];
      assert rest == Trace(Remaining(left, a), names, attempt + 1, network);
      assert t[..i] == [a] + rest[..i - 1];
      TracePass(Remaining(left, a), names, attempt + 1, network, rest, i - 1);
      FailedAtCons(a, rest[..i - 1]);
      if a.Failed? {
        PassAfterOneMore(left, names, |FailedAt(rest[..i - 1])|, attempt + i, network);
      }
    }
  }

  /** Pass by pass, whatever the network does: with f transport failures so far the backend tried is
      the one preferred at place f, and none if there is none; the outcome is the network's word. */
  lemma TraceExplained(left: seq<nat>, names: seq<string>, network: Network, i: nat)
    requires forall j | 0 <= j < |left| :: left[j] < |names|
    requires i < |Trace(left, names, 0, network)|
    ensures var t := Trace(left, names, 0, network);
            var f := |FailedAt(t[..i])|;
            if f >= |left| then t[i] == NoPeer
            else t[i] == match network(i, names[left[f]])
                         case TransportError => Failed(left[f])
                         case ModifyError => Unmodified(left[f])
                         case Response(status) => Answered(left[f], status)
  {
    TracePass(left, names, 0, network, Trace(left, names, 0, network), i);
  }

  /** A whole request in numbers: one to three passes, fewer than three only if the last is an answer
      and never two answers; 503 if the last found no backend, 502 if it failed in transport, 500 if
      its response could not be modified, and the answer itself if its status can be written. */
  lemma RequestExplained(left: seq<nat>, names: seq<string>, network: Network)
    requires forall j | 0 <= j < |left| :: left[j] < |names|
    ensures var t := Trace(left, names, 0, network);
            && 1 <= |t| <= 3 && (forall i | 0 <= i < |t| - 1 :: !t[i].Answered?)
            && var last := t[|t| - 1];
               && (last.Answered? ==> last.k < |names|) && (|t| < 3 ==> last.Answered?)
               && Replies(last, names) ==
                  match last
                  case NoPeer => [Refused(503)]
                  case Failed(_) => [Refused(502)]
                  case Unmodified(_) => [Refused(500)]
                  case Answered(k, status) => if 100 <= status <= 999 then [Forwarded(names[k], status)] else []
  {
    var t := Trace(left, names, 0, network);
    TraceShape(left, names, 0, network);
    TraceExplained(left, names, network, |t| - 1);
  }

  /** The first j of the healthy backends all fail. */
  ghost predicate FirstFail(left: seq<nat>, names: seq<string>, j: nat, network: Network)
    requires j <= |left| && forall i | 0 <= i < |left| :: left[i] < |names|
  {
    forall i | 0 <= i < j :: network(i, names[left[i]]).TransportError?
  }

  /** The trace of a request whose first j attempts fail in transport. */
  lemma {:induction false} TraceSkips(left: seq<nat>, names: seq<string>, j: nat, network: Network)
    requires j <= |left| && j <= MAX_RETRIES && forall i | 0 <= i < |left| :: left[i] < |names|
    requires FirstFail(left, names, j, network)
    ensures var t := Trace(left, names, 0, network);
            && |t| >= j && (forall i | 0 <= i < j :: t[i] == Failed(left[i]))
            && t[j..] == Trace(left[j..], names, j, network)
  {
    if j == 0 {
      assert left[0..] == left;
    } else {
      TraceSkips(left, names, j - 1, network);
      var t := Trace(left, names, 0, network);
      var tail := Trace(left[j - 1..], names, j - 1, network);
      assert left[j - 1..][1..] == left[j..];
      assert tail == [Failed(left[j - 1])] + Trace(left[j..], names, j, network);
      assert t[j - 1..][0] == t[j - 1] && t[j - 1..][1..] == t[j..];
    }
  }

  /** The answer comes from the first live one among the first three healthy backends. */
  lemma FirstLiveAnswers(left: seq<nat>, names: seq<string>, j: nat, network: Network)
    requires j < |left| && j < MAX_RETRIES && forall i | 0 <= i < |left| :: left[i] < |names|
    requires FirstFail(left, names, j, network) && network(j, names[left[j]]).Response?
    ensures var t := Trace(left, names, 0, network);
            |t| == j + 1 && t[j] == Answered(left[j], network(j, names[left[j]]).status)
  {
    TraceSkips(left, names, j, network);
  }

  /** With none live among them, the reply is 502 if there were three to try and 503 if not. */
  lemma NoneLiveFails(left: seq<nat>, names: seq<string>, network: Network)
    requires forall i | 0 <= i < |left| :: left[i] < |names|
    requires FirstFail(left, names, if |left| < MAX_RETRIES then |left| else MAX_RETRIES, network)
    ensures var t := Trace(left, names, 0, network);
            && |t| == MAX_RETRIES
            && !t[2].Answered? && ReplyFor(t[2], names) == if |left| >= 3 then Refused(502) else Refused(503)
  {
    var n := if |left| < MAX_RETRIES then |left| else MAX_RETRIES;
    TraceSkips(left, names, n, network);
    TraceShape(left, names, 0, network);
    var t := Trace(left, names, 0, network);
    if |left| < MAX_RETRIES {
      assert left[n..] == [];
      OnlyNoPeer(names, n, network);
      assert t[2] == t[n..][2 - n];
    }
  }

  lemma {:induction false} OnlyNoPeer(names: seq<string>, attempt: nat, network: Network)
    requires attempt <= MAX_RETRIES
    ensures var t := Trace([], names, attempt, network);
            |t| == MAX_RETRIES - attempt && forall i | 0 <= i < |t| :: t[i] == NoPeer
    decreases MAX_RETRIES - attempt
  {
    if attempt < MAX_RETRIES {
      OnlyNoPeer(names, attempt + 1, network);
    }
  }

  /** How many backends a request can try. */
  function Limit(left: seq<nat>): (n: nat)
    ensures n == if |left| < 3 then |left| else 3
  {
    if |left| < MAX_RETRIES then |left| else MAX_RETRIES
  }

  /** The first of the first three healthy backends, from j on, whose attempt gets a response. */
  function FirstLive(left: seq<nat>, names: seq<string>, j: nat, network: Network): (k: nat)
    requires j <= Limit(left) && forall i | 0 <= i < |left| :: left[i] < |names|
    ensures j <= k <= Limit(left)
    ensures k < Limit(left) ==> network(k, names[left[k]]).Response?
    ensures forall i | j <= i < k :: !network(i, names[left[i]]).Response?
    decreases Limit(left) - j
  {
    if j == Limit(left) || network(j, names[left[j]]).Response? then j else FirstLive(left, names, j + 1, network)
  }

  /** The reply to a request, as long as no response fails to be modified: the first live one of
      the first three healthy backends answers, unless its status cannot be written; if none is live,
      502 after three failures and 503 when the healthy backends ran out first. */
  lemma ReplyIsFirstLive(left: seq<nat>, names: seq<string>, network: Network)
    requires forall i | 0 <= i < |left| :: left[i] < |names|
    requires forall a, n :: !network(a, n).ModifyError?
    ensures var t := Trace(left, names, 0, network);
            var k := FirstLive(left, names, 0, network);
            && |t| >= 1 && (t[|t| - 1].Answered? ==> t[|t| - 1].k < |names|)
            && Replies(t[|t| - 1], names) ==
               if k < Limit(left) then
                 var status := network(k, names[left[k]]).status;
                 if 100 <= status <= 999 then [Forwarded(names[left[k]], status)] else []
               else if |left| >= 3 then [Refused(502)]
               else [Refused(503)]
  {
    var k := FirstLive(left, names, 0, network);
    forall i | 0 <= i < k
      ensures network(i, names[left[i]]).TransportError?
    {
      assert !network(i, names[left[i]]).Response? && !network(i, names[left[i]]).ModifyError?;
    }
    if k < Limit(left) {
      FirstLiveAnswers(left, names, k, network);
    } else {
      NoneLiveFails(left, names, network);
    }
  }

  // ----- The handler -----

  predicate LoadsFit(ss: seq<Snap>) {
    forall i | 0 <= i < |ss| :: -MAX_INT32 - 1 <= ss[i].active <= MAX_INT32
  }

  /** After an attempt at k: up and down again, and a failure report if it failed in transport. */
  function AfterAttempt(ss: seq<Snap>, a: Attempt, interval: int): (r: seq<Snap>)
    ensures |r| == |ss|
  {
    if a.Failed? && a.k < |ss| then Reporting(ss, a.k, false, interval) else ss
  }

  lemma UpAndDown(ss: seq<Snap>, k: nat)
    requires k < |ss| && LoadsFit(ss)
    ensures Adding(Adding(ss, k, 1), k, -1) == ss
  {
    assert WrapInt32(WrapInt32(ss[k].active + 1) - 1) == ss[k].active;
  }

  /** What one pass does to the breakers: the balancer's scan, then the report of a failure. */
  function AfterPass(strategy: string, ss: seq<Snap>, a: Attempt, interval: int): (r: seq<Snap>)
    ensures |r| == |ss|
  {
    AfterAttempt(Scanned(ss, ChoiceScan(strategy, ss)), a, interval)
  }

  /** A pass leaves sound breakers and the same loads, and takes out of play exactly the backend
      that failed in transport. */
  lemma PassKeeps(strategy: string, ss: seq<Snap>, names: seq<string>, attempt: nat, network: Network, interval: int)
    requires |ss| == |names| && AllSound(ss)
    ensures var left := Preferred(strategy, ss);
            var a := Pass(left, names, attempt, network);
            var r := AfterPass(strategy, ss, a, interval);
            AllSound(r) && SameLoads(ss, r) && Preferred(strategy, r) == Remaining(left, a)
  {
    var left := Preferred(strategy, ss);
    var a := Pass(left, names, attempt, network);
    var n := ChoiceScan(strategy, ss);
    ScannedKeeps(ss, n);
    if a.Failed? {
      FailureReportKeeps(Scanned(ss, n), a.k, interval);
      PreferredAfterFailure(strategy, ss, AfterPass(strategy, ss, a, interval), a.k);
    } else {
      PreferredSame(strategy, ss, Scanned(ss, n));
    }
  }

  /** What the passes of a trace do to the breakers, one after the other. */
  function AfterTrace(strategy: string, before: seq<Snap>, trace: seq<Attempt>, interval: int): (r: seq<Snap>)
    ensures |r| == |before|
  {
    if trace == [] then before
    else AfterPass(strategy, AfterTrace(strategy, before, trace[..|trace| - 1], interval), trace[|trace| - 1], interval)
  }

  lemma AfterTraceSnoc(strategy: string, before: seq<Snap>, trace: seq<Attempt>, a: Attempt, interval: int)
    ensures AfterTrace(strategy, before, trace + [a], interval) ==
            AfterPass(strategy, AfterTrace(strategy, before, trace, interval), a, interval)
  {
    assert (trace + [a])[..|trace|] == trace;
  }

  /** The counter that a panic leaves up. */
  function Leaked(ss: seq<Snap>, a: Attempt): (r: seq<Snap>)
    ensures |r| == |ss|
  {
    if Panics(a) && a.k < |ss| then Adding(ss, a.k, 1) else ss
  }

  lemma LeakedKeeps(ss: seq<Snap>, a: Attempt)
    requires AllSound(ss) && LoadsFit(ss)
    ensures AllSound(Leaked(ss, a)) && LoadsFit(Leaked(ss, a))
  {
  }

  /** After an answer with a status from 100 to 999 exactly that answer has been written and every
      counter is back; after any other answer nothing has been written and that backend's counter is
      one up; after a request without an answer every counter is back. */
  lemma RestoredIff(before: seq<Snap>, after: seq<Snap>, a: Attempt, names: seq<string>)
    requires SameLoads(before, after) && LoadsFit(before) && |names| == |before| && (a.Answered? ==> a.k < |before|)
    ensures SameLoads(before, Leaked(after, a)) <==> !(a.Answered? && !(100 <= a.status <= 999))
    ensures a.Answered? && 100 <= a.status <= 999 ==> Replies(a, names) == [Forwarded(names[a.k], a.status)]
    ensures a.Answered? && !(100 <= a.status <= 999) ==>
              && Replies(a, names) == [] && Leaked(after, a)[a.k].active == WrapInt32(before[a.k].active + 1)
              && forall i | 0 <= i < |before| && i != a.k :: Leaked(after, a)[i].active == before[i].active
    ensures !a.Answered? ==> |Replies(a, names)| == 1
  {
    if Panics(a) {
      assert Leaked(after, a)[a.k].active == WrapInt32(before[a.k].active + 1) != before[a.k].active;
    }
  }

  /** What one pass does to each breaker: the scan's query with ten seconds if the scan came by, then a
      failure report if the pass failed in transport there. */
  lemma AfterPassPointwise(strategy: string, ss: seq<Snap>, a: Attempt, interval: int, i: nat)
    requires i < |ss|
    ensures var scanned := i < if strategy == "least-connections" || Choice(strategy, ss) == |ss| then |ss| else Choice(strategy, ss) + 1;
            var b := if scanned then Query(Int64, ss[i].breaker, 10_000_000_000) else ss[i].breaker;
            AfterPass(strategy, ss, a, interval)[i] ==
              ss[i].(breaker := if a == Failed(i) then Report(Int64, b, false, interval) else b)
  {
    ScannedPointwise(ss, ChoiceScan(strategy, ss));
  }

  lemma FailureReportKeeps(ss: seq<Snap>, k: nat, interval: int)
    requires k < |ss| && AllSound(ss)
    ensures var r := Reporting(ss, k, false, interval);
            AllSound(r) && SameLoads(ss, r) && Flags(r) == Flags(ss)[k := false]
  {
    StepKeepsSound(Int64, ss[k].breaker, Reported(false, interval));
  }

  /** IncrementActiveRequests and DecrementActiveRequests on the backend at index k. */
  method Acquire(bs: seq<Backend>, peer: Backend, ghost k: nat, ghost now: seq<Snap>)
    requires NamesDistinct(bs) && k < |bs| && peer == bs[k] && Shows(bs, now)
    modifies peer`activeRequest
    ensures Shows(bs, Adding(now, k, 1))
  {
    peer.IncrementActiveRequests();
  }

  method Release(bs: seq<Backend>, peer: Backend, ghost k: nat, ghost now: seq<Snap>)
    requires NamesDistinct(bs) && k < |bs| && peer == bs[k] && |now| == |bs| && LoadsFit(now)
    requires Shows(bs, Adding(now, k, 1))
    modifies peer`activeRequest
    ensures Shows(bs, now)
  {
    UpAndDown(now, k);
    peer.DecrementActiveRequests();
  }

  /** A failed attempt: the counter comes down, and the pool is told by name. */
  method ReleaseAndReport(pool: BackendPool, service: string, bs: seq<Backend>, peer: Backend, interval: int,
                          ghost k: nat, ghost now: seq<Snap>)
    requires pool.Valid() && bs == pool.Members(service) && k < |bs| && peer == bs[k] && |now| == |bs| && LoadsFit(now)
    requires Shows(bs, Adding(now, k, 1))
    modifies bs
    ensures Shows(bs, Reporting(now, k, false, interval))
  {
    FindNameAt(bs, k);
    Release(bs, peer, k, now);
    pool.UpdateBackendStatus(service, peer.name, false, interval, now);
  }

  /** How a round ends. */
  datatype Verdict = Retry | Finish(reply: Reply) | Panic

  /** A final reply is the one the last pass calls for. */
  predicate Concludes(v: Verdict, trace: seq<Attempt>, names: seq<string>) {
    v.Finish? ==>
      && trace != [] && (trace[|trace| - 1].Answered? ==> trace[|trace| - 1].k < |names|)
      && v.reply == ReplyFor(trace[|trace| - 1], names)
  }

  class ResponseWriter {
    var written: seq<Reply>

    constructor ()
      ensures written == []
    {
      written := [];
    }

    method Write(r: Reply)
      modifies this
      ensures written == old(written) + [r]
    {
      written := written + [r];
    }
  }

  class ProxyHandler {
    const router: Router
    const lb: LoadBalancer
    const pool: BackendPool
    const health: Health

    constructor (router: Router, lb: LoadBalancer, pool: BackendPool, health: Health)
      ensures this.router == router && this.lb == lb && this.pool == pool && this.health == health
    {
      this.router, this.lb, this.pool, this.health := router, lb, pool, health;
    }

    /** One forwarded attempt: the counter goes up and comes down on every path but the panic, and a
        transport failure is reported by name to the pool. */
    method Forward(service: string, bs: seq<Backend>, peer: Backend, attempt: nat, network: Network,
                   ghost k: nat, ghost now: seq<Snap>)
      returns (o: Outcome)
      requires pool.Valid() && bs == pool.Members(service) && k < |bs| && peer == bs[k]
      requires Shows(bs, now) && LoadsFit(now)
      modifies bs
      ensures o == network(attempt, peer.name)
      ensures Shows(bs, if o.TransportError? then Reporting(now, k, false, health.checkInterval) else Leaked(now, AttemptAt(k, o)))
    {
      Acquire(bs, peer, k, now);
      o := network(attempt, peer.name);
      match o
      case TransportError =>
        ReleaseAndReport(pool, service, bs, peer, health.checkInterval, k, now);
      case ModifyError =>
        Release(bs, peer, k, now);
      case Response(status) =>
        if !Unwritable(status) {
          Release(bs, peer, k, now);
        }
    }

    ghost predicate Ready(service: string, now: seq<Snap>)
      reads this, lb, pool, pool.Members(service)
    {
      lb.pool == pool && lb.Ready(service, now) && LoadsFit(now)
    }

    /** The balancer's part of a pass. */
    method Pick(service: string, bs: seq<Backend>, attempt: nat, ghost network: Network, ghost names: seq<string>, ghost now: seq<Snap>)
      returns (peer: Backend?, ghost scanned: seq<Snap>, ghost a: Attempt, ghost after: seq<Snap>)
      requires bs == pool.Members(service) && names == Names(bs) && Ready(service, now)
      modifies lb`rrIndices, bs
      ensures Ready(service, scanned) && AllSound(after) && LoadsFit(after)
      ensures IsPass(lb.strategy, now, after, names, attempt, network, health.checkInterval, a)
      ensures if peer == null then a.NoPeer? && after == scanned
              else !a.NoPeer? && a.k < |bs| && peer == bs[a.k] && Forwards(network(attempt, names[a.k]), scanned, after, a, health.checkInterval)
    {
      ghost var k;
      peer, k, scanned := lb.GetNextPeer(service, now);
      ScanFits(now, scanned, lb.strategy);
      a, after := PassFacts(lb.strategy, now, names, attempt, network, health.checkInterval, k, scanned);
    }

    /** One pass of the loop: pick a backend, forward, report. */
    method PassOnce(service: string, bs: seq<Backend>, attempt: nat, network: Network, ghost names: seq<string>, ghost now: seq<Snap>)
      returns (peer: Backend?, o: Outcome, ghost a: Attempt, ghost after: seq<Snap>)
      requires bs == pool.Members(service) && names == Names(bs) && Ready(service, now)
      modifies lb`rrIndices, bs
      ensures Ready(service, Leaked(after, a)) && IsPass(lb.strategy, now, after, names, attempt, network, health.checkInterval, a)
      ensures if peer == null then a.NoPeer?
              else !a.NoPeer? && a.k < |bs| && peer == bs[a.k] && a == AttemptAt(a.k, o)
    {
      ghost var scanned;
      peer, scanned, a, after := Pick(service, bs, attempt, network, names, now);
      o := TransportError;
      if peer != null {
        o := TryPeer(service, bs, peer, attempt, network, names, scanned, a, after);
      }
    }

    /** The rest of it, once there is a backend. */
    method TryPeer(service: string, bs: seq<Backend>, peer: Backend, attempt: nat, network: Network, ghost names: seq<string>,
                   ghost scanned: seq<Snap>, ghost a: Attempt, ghost after: seq<Snap>) returns (o: Outcome)
      requires bs == pool.Members(service) && names == Names(bs) && Ready(service, scanned) && AllSound(after) && LoadsFit(after)
      requires !a.NoPeer? && a.k < |bs| && peer == bs[a.k] && Forwards(network(attempt, names[a.k]), scanned, after, a, health.checkInterval)
      modifies bs
      ensures Ready(service, Leaked(after, a)) && a == AttemptAt(a.k, o)
    {
      LeakedKeeps(after, a);
      o := Forward(service, bs, peer, attempt, network, a.k, scanned);
    }

    /** A pass and its verdict: a reply, a panic, or another try while there are tries left. */
    method Round(service: string, bs: seq<Backend>, attempt: nat, network: Network, ghost names: seq<string>, ghost now: seq<Snap>)
      returns (verdict: Verdict, ghost a: Attempt, ghost after: seq<Snap>)
      requires bs == pool.Members(service) && names == Names(bs) && Ready(service, now)
      modifies lb`rrIndices, bs
      ensures Ready(service, Leaked(after, a)) && IsPass(lb.strategy, now, after, names, attempt, network, health.checkInterval, a)
      ensures verdict.Retry? <==> !a.Answered? && attempt < MAX_RETRIES - 1
      ensures verdict.Panic? <==> a.Answered? && !(100 <= a.status <= 999)
      ensures verdict.Finish? ==> (a.Answered? ==> a.k < |names|) && verdict.reply == ReplyFor(a, names)
    {
      var peer, o;
      peer, o, a, after := PassOnce(service, bs, attempt, network, names, now);
      if peer == null {
        if attempt < 3 - 1 {
          return Retry, a, after;
        }
        return Finish(Refused(503)), a, after;
      }
      match o
      case TransportError =>
        if attempt < 3 - 1 {
          return Retry, a, after;
        }
        return Finish(Refused(502)), a, after;
      case ModifyError =>
        if attempt < 3 - 1 {
          return Retry, a, after;
        }
        return Finish(Refused(500)), a, after;
      case Response(status) =>
        if Unwritable(status) {
          return Panic, a, after;
        }
        return Finish(Forwarded(peer.name, status)), a, after;
    }

    /** How a request for this service ended: the specified passes, the breakers they leave, and a
        panic exactly if the last answer cannot be written. Every counter is back where it was, except
        that a panic leaves the answering backend's up. */
    ghost predicate Ended(service: string, before: seq<Snap>, after: seq<Snap>, names: seq<string>, network: Network,
                          panicked: bool, trace: seq<Attempt>)
      reads this, lb, pool, pool.Members(service), health
    {
      && Served(lb.strategy, before, after, names, network, health.checkInterval, trace)
      && Ready(service, Leaked(after, trace[|trace| - 1]))
      && (panicked <==> trace[|trace| - 1].Answered? && !(100 <= trace[|trace| - 1].status <= 999))
    }

    /** The request is about to make this attempt. */
    ghost predicate InLoop(service: string, before: seq<Snap>, now: seq<Snap>, names: seq<string>, network: Network,
                           done: seq<Attempt>, attempt: nat)
      reads this, lb, pool, pool.Members(service), health
    {
      && attempt < MAX_RETRIES && Ready(service, now)
      && Serving(lb.strategy, before, now, names, network, health.checkInterval, done, attempt)
    }

    /** A round as a step of the whole request. */
    method Advance(service: string, bs: seq<Backend>, attempt: nat, network: Network, ghost names: seq<string>, ghost before: seq<Snap>,
                   ghost now: seq<Snap>, ghost done: seq<Attempt>)
      returns (verdict: Verdict, ghost trace: seq<Attempt>, ghost after: seq<Snap>)
      requires bs == pool.Members(service) && names == Names(bs) && InLoop(service, before, now, names, network, done, attempt)
      modifies lb`rrIndices, bs
      ensures verdict.Retry? ==> InLoop(service, before, after, names, network, trace, attempt + 1)
      ensures !verdict.Retry? ==> Ended(service, before, after, names, network, verdict.Panic?, trace)
      ensures Concludes(verdict, trace, names)
    {
      ghost var a;
      verdict, a, after := Round(service, bs, attempt, network, names, now);
      trace := ServingStep(lb.strategy, before, now, after, names, network, done, attempt, a, health.checkInterval);
    }

    /** The retry loop. */
    method RetryLoop(service: string, bs: seq<Backend>, network: Network, ghost names: seq<string>, ghost before: seq<Snap>)
      returns (verdict: Verdict, ghost trace: seq<Attempt>, ghost after: seq<Snap>)
      requires bs == pool.Members(service) && names == Names(bs) && Ready(service, before)
      modifies lb`rrIndices, bs
      ensures Ended(service, before, after, names, network, verdict.Panic?, trace)
      ensures !verdict.Retry? && Concludes(verdict, trace, names)
    {
      trace, after := [], before;
      ServingStarts(lb.strategy, before, names, network, health.checkInterval);
      for attempt := 0 to 3
        invariant InLoop(service, before, after, names, network, trace, attempt)
      {
        verdict, trace, after := Advance(service, bs, attempt, network, names, before, after, trace);
        if !verdict.Retry? {
          return;
        }
      }
      assert false;
    }

    /** The loop and its one reply. It makes the passes of the specification, writes the reply they call
        for, gives every counter back, and takes out of play exactly the backends that failed; if the
        last answer cannot be written it writes nothing and leaves that backend's counter up. */
    method Serve(w: ResponseWriter, service: string, bs: seq<Backend>, network: Network, ghost names: seq<string>, ghost before: seq<Snap>)
      returns (panicked: bool, ghost trace: seq<Attempt>, ghost after: seq<Snap>)
      requires bs == pool.Members(service) && names == Names(bs) && Ready(service, before)
      modifies w, lb`rrIndices, bs
      ensures Ended(service, before, after, names, network, panicked, trace)
      ensures w.written == old(w.written) + Replies(trace[|trace| - 1], names)
    {
      var verdict;
      verdict, trace, after := RetryLoop(service, bs, network, names, before);
      panicked := verdict.Panic?;
      if !panicked {
        Conclude(w, verdict.reply, service, before, after, names, network, trace);
      }
    }

    /** Writing a reply does not touch backends or balancer. */
    method Conclude(w: ResponseWriter, r: Reply, service: string, ghost before: seq<Snap>, ghost after: seq<Snap>, ghost names: seq<string>,
                    ghost network: Network, ghost trace: seq<Attempt>)
      requires Ended(service, before, after, names, network, false, trace)
      modifies w
      ensures Ended(service, before, after, names, network, false, trace) && w.written == old(w.written) + [r]
    {
      w.Write(r);
    }

    /** The backends a request for this service has no business with. */
    ghost function Others(service: Option<string>): set<Backend>
      reads pool
    {
      set b | b in pool.AllBackends() && (service.Some? ==> b !in pool.Members(service.value))
    }

    /** The handler once the route is known. It touches no other service's backends. */
    method ServeRoute(w: ResponseWriter, service: string, network: Network, ghost before: seq<Snap>)
      returns (panicked: bool, ghost trace: seq<Attempt>, ghost after: seq<Snap>)
      requires Ready(service, before)
      modifies w, lb`rrIndices, pool.AllBackends()
      ensures Ended(service, before, after, Names(pool.Members(service)), network, panicked, trace)
      ensures w.written == old(w.written) + Replies(trace[|trace| - 1], Names(pool.Members(service)))
      ensures unchanged(old(Others(Some(service))))
    {
      var bs, _ := pool.GetBackendsForService(service);
      pool.MembersAreBackends(service);
      panicked, trace, after := Serve(w, service, bs, network, Names(bs), before);
    }

    /** The whole handler: 404 when no service declares the route, otherwise the retry loop for one
        that does. Either way exactly one reply is written unless it panics, and no other service's
        backends are touched. */
    method ServeHTTP(w: ResponseWriter, path: string, verb: string, network: Network, ghost snaps: map<string, seq<Snap>>)
      returns (panicked: bool, ghost service: Option<string>, ghost trace: seq<Attempt>, ghost after: seq<Snap>)
      requires router.Indexed()
      requires forall s | s in router.routingTable.services :: s in snaps && Ready(s, snaps[s])
      modifies w, lb`rrIndices, pool.AllBackends()
      ensures match service
              case None =>
                && !panicked && w.written == old(w.written) + [Refused(404)]
                && forall s | s in router.routingTable.services :: !Declares(router.routingTable.services[s], path, verb)
              case Some(s) =>
                && s in router.routingTable.services && Declares(router.routingTable.services[s], path, verb)
                && Ended(s, snaps[s], after, Names(pool.Members(s)), network, panicked, trace)
                && w.written == old(w.written) + Replies(trace[|trace| - 1], Names(pool.Members(s)))
      ensures unchanged(old(Others(service)))
    {
      var found := router.FindService(path, verb);
      panicked, service, trace, after := false, found, [], [];
      match found
      case None => w.Write(Refused(404));
      case Some(s) =>
        assert s in snaps && Ready(s, snaps[s]);
        panicked, trace, after := ServeRoute(w, s, network, snaps[s]);
    }
  }

  /** What forwarding to the backend at index a.k amounts to. */
  ghost predicate Forwards(o: Outcome, scanned: seq<Snap>, after: seq<Snap>, a: Attempt, interval: int) {
    && !a.NoPeer? && a.k < |scanned| && a == AttemptAt(a.k, o)
    && after == if o.TransportError? then Reporting(scanned, a.k, false, interval) else scanned
  }

  /** One pass of the specification, and what it leaves. */
  ghost predicate IsPass(strategy: string, now: seq<Snap>, after: seq<Snap>, names: seq<string>, attempt: nat, network: Network,
                         interval: int, a: Attempt) {
    && |now| == |names|
    && a == Pass(Preferred(strategy, now), names, attempt, network)
    && after == AfterPass(strategy, now, a, interval)
  }

  /** A request has made its passes: they are the specification's, the breakers are as these passes
      leave them, no load has changed, and exactly the failed backends are out of play. */
  ghost predicate Served(strategy: string, before: seq<Snap>, after: seq<Snap>, names: seq<string>, network: Network, interval: int,
                         trace: seq<Attempt>) {
    && |before| == |names|
    && var left := Preferred(strategy, before);
       && trace == Trace(left, names, 0, network)
       && |trace| >= 1 && (trace[|trace| - 1].Answered? ==> trace[|trace| - 1].k < |names|)
       && after == AfterTrace(strategy, before, trace, interval) && SameLoads(before, after)
       && |FailedAt(trace)| <= |left| && Preferred(strategy, after) == left[|FailedAt(trace)|..]
  }

  /** The same, part of the way through: these passes are done and those backends are left. */
  ghost predicate Ongoing(whole: seq<nat>, left: seq<nat>, names: seq<string>, network: Network, done: seq<Attempt>, attempt: nat) {
    && (forall i | 0 <= i < |whole| :: whole[i] < |names|) && (forall i | 0 <= i < |left| :: left[i] < |names|)
    && Trace(whole, names, 0, network) == done + Trace(left, names, attempt, network)
    && |FailedAt(done)| <= |whole| && left == whole[|FailedAt(done)|..]
  }

  lemma OngoingStep(whole: seq<nat>, left: seq<nat>, names: seq<string>, network: Network, done: seq<Attempt>, attempt: nat, a: Attempt)
    requires attempt < MAX_RETRIES && Ongoing(whole, left, names, network, done, attempt)
    requires a == Pass(left, names, attempt, network)
    ensures |FailedAt(done + [a])| <= |whole| && Remaining(left, a) == whole[|FailedAt(done + [a])|..]
    ensures if a.Answered? || attempt + 1 == MAX_RETRIES then Trace(whole, names, 0, network) == done + [a]
            else Ongoing(whole, Remaining(left, a), names, network, done + [a], attempt + 1)
  {
    var n, n' := |FailedAt(done)|, |FailedAt(done + [a])|;
    assert n' == if a.Failed? then n + 1 else n by {
      FailedAtSnoc(done, a);
    }
    assert a.Failed? ==> left != [];
    assert n' <= |whole| && Remaining(left, a) == whole[n'..] by {
      RemainingIsSuffix(whole, left, n, a);
    }
    var trace := Trace(whole, names, 0, network);
    assert trace == if a.Answered? || attempt + 1 == MAX_RETRIES then done + [a]
                    else done + [a] + Trace(Remaining(left, a), names, attempt + 1, network) by {
      TraceSnoc(trace, left, names, network, done, attempt, a);
    }
  }

  lemma TraceSnoc(whole: seq<Attempt>, left: seq<nat>, names: seq<string>, network: Network, done: seq<Attempt>, attempt: nat, a: Attempt)
    requires attempt < MAX_RETRIES && forall i | 0 <= i < |left| :: left[i] < |names|
    requires whole == done + Trace(left, names, attempt, network) && a == Pass(left, names, attempt, network)
    ensures whole == if a.Answered? || attempt + 1 == MAX_RETRIES then done + [a]
                     else done + [a] + Trace(Remaining(left, a), names, attempt + 1, network)
  {
    TraceHead(left, names, attempt, network);
  }

  lemma RemainingIsSuffix(whole: seq<nat>, left: seq<nat>, n: nat, a: Attempt)
    requires n <= |whole| && left == whole[n..] && (a.Failed? ==> left != [])
    ensures var n' := if a.Failed? then n + 1 else n;
            n' <= |whole| && Remaining(left, a) == whole[n'..]
  {
  }

  lemma TraceHead(left: seq<nat>, names: seq<string>, attempt: nat, network: Network)
    requires attempt < MAX_RETRIES && forall i | 0 <= i < |left| :: left[i] < |names|
    ensures var a := Pass(left, names, attempt, network);
            Trace(left, names, attempt, network) ==
            if a.Answered? || attempt + 1 == MAX_RETRIES then [a]
            else [a] + Trace(Remaining(left, a), names, attempt + 1, network)
  {
  }

  ghost predicate Serving(strategy: string, before: seq<Snap>, now: seq<Snap>, names: seq<string>, network: Network, interval: int,
                          done: seq<Attempt>, attempt: nat) {
    && |before| == |names| && SameLoads(before, now) && now == AfterTrace(strategy, before, done, interval)
    && Ongoing(Preferred(strategy, before), Preferred(strategy, now), names, network, done, attempt)
  }

  lemma ServingStarts(strategy: string, before: seq<Snap>, names: seq<string>, network: Network, interval: int)
    requires |before| == |names|
    ensures Serving(strategy, before, before, names, network, interval, [], 0)
  {
    var whole := Preferred(strategy, before);
    assert whole[0..] == whole;
    assert [] + Trace(whole, names, 0, network) == Trace(whole, names, 0, network);
  }

  lemma {:induction false} FailedAtSnoc(done: seq<Attempt>, a: Attempt)
    ensures FailedAt(done + [a]) == FailedAt(done) + if a.Failed? then [a.k] else []
  {
    if done == [] {
      FailedAtCons(a, []);
      assert [] + [a] == [a] + [];
    } else {
      FailedAtSnoc(done[1..], a);
      FailedAtCons(done[0], done[1..] + [a]);
      assert [done[0]] + (done[1..] + [a]) == done + [a];
    }
  }

  lemma ServingStep(strategy: string, before: seq<Snap>, now: seq<Snap>, after: seq<Snap>, names: seq<string>, network: Network,
                    done: seq<Attempt>, attempt: nat, a: Attempt, interval: int)
    returns (trace: seq<Attempt>)
    requires attempt < MAX_RETRIES && AllSound(now) && Serving(strategy, before, now, names, network, interval, done, attempt)
    requires IsPass(strategy, now, after, names, attempt, network, interval, a)
    ensures trace == done + [a]
    ensures if a.Answered? || attempt + 1 == MAX_RETRIES then Served(strategy, before, after, names, network, interval, trace)
            else Serving(strategy, before, after, names, network, interval, trace, attempt + 1)
  {
    trace := done + [a];
    assert a.Answered? ==> a.k < |names|;
    AfterTraceSnoc(strategy, before, done, a, interval);
    PassKeeps(strategy, now, names, attempt, network, interval);
    OngoingStep(Preferred(strategy, before), Preferred(strategy, now), names, network, done, attempt, a);
  }

  lemma ScanFits(ss: seq<Snap>, scanned: seq<Snap>, strategy: string)
    requires AllSound(ss) && LoadsFit(ss) && scanned == Scanned(ss, ChoiceScan(strategy, ss))
    ensures LoadsFit(scanned)
  {
    ScannedKeeps(ss, ChoiceScan(strategy, ss));
  }

  /** The pass the specification makes is the one the balancer's choice makes. */
  lemma PassFacts(strategy: string, ss: seq<Snap>, names: seq<string>, attempt: nat, network: Network, interval: int,
                  k: nat, scanned: seq<Snap>)
    returns (a: Attempt, after: seq<Snap>)
    requires |ss| == |names| && AllSound(ss) && LoadsFit(ss)
    requires k == Choice(strategy, ss) && scanned == Scanned(ss, ChoiceScan(strategy, ss))
    ensures a == Pass(Preferred(strategy, ss), names, attempt, network) && after == AfterPass(strategy, ss, a, interval)
    ensures AllSound(after) && LoadsFit(after)
    ensures if k == |ss| then a.NoPeer? && after == scanned
            else !a.NoPeer? && a.k == k && a == AttemptAt(k, network(attempt, names[k])) &&
                 after == if network(attempt, names[k]).TransportError? then Reporting(scanned, k, false, interval) else scanned
  {
    PassKeeps(strategy, ss, names, attempt, network, interval);
    a := Pass(Preferred(strategy, ss), names, attempt, network);
    after := AfterPass(strategy, ss, a, interval);
  }

  /** One backend, answering with status 99: the request ends in a panic, nothing is written, and the
      backend's counter stays at one. */
  lemma LowStatusLeaks(strategy: string, interval: int) returns (before: seq<Snap>, after: seq<Snap>, trace: seq<Attempt>)
    ensures var network: Network := (a, n) => Response(99);
            && before == [Snap(FRESH, 0)] && Served(strategy, before, after, ["pay-0"], network, interval, trace)
            && trace == [Answered(0, 99)] && Replies(trace[0], ["pay-0"]) == []
            && Leaked(after, trace[0])[0].active == 1
  {
    before := [Snap(FRESH, 0)];
    var network: Network := (a, n) => Response(99);
    var names := ["pay-0"];
    var left := OnlyOne(strategy, before);
    trace := Trace(left, names, 0, network);
    after := AfterTrace(strategy, before, trace, interval);
    PassKeeps(strategy, before, names, 0, network, interval);
    AfterTraceSnoc(strategy, before, [], trace[0], interval);
    FailedAtCons(trace[0], []);
    assert [] + [trace[0]] == trace == [trace[0]] + [];
    assert left[0..] == left;
  }

  lemma OnlyOne(strategy: string, ss: seq<Snap>) returns (left: seq<nat>)
    requires |ss| == 1 && ss[0].breaker.healthy
    ensures left == Preferred(strategy, ss) == [0]
  {
    left := Preferred(strategy, ss);
    PreferredRanks(strategy, ss);
    assert 0 in left;
    assert forall i | 0 <= i < |left| :: left[i] == 0;
    assert |left| > 1 ==> Preference.Better(strategy, ss, left[0], left[1]);
  }
}
