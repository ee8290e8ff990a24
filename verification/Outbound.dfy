/** The sidecar's outbound HTTP path: the retry loop of handleOutboundConnection in
    pkg/proxy/listener.go. It dials, writes and reads by hand, holds the in-flight counter of the
    answering backend until the connection is done, and sends the client nothing on failure;
    its passes are nevertheless those of the gateway's loop. */
module Outbound {
  import opened Backends
  import opened Balancer
  import opened HealthChecks
  import opened Text
  import opened Requests

  /** How the three legs of an attempt end. */
  datatype Leg = DialError | WriteError | ReadError | Response(status: int)

  type Legs = (nat, string) -> Leg

  /** Any failing leg is a transport failure; the sidecar modifies no response. */
  function AsOutcome(l: Leg): Outcome {
    if l.Response? then Outcome.Response(l.status) else TransportError
  }

  /** The network as the gateway's specification sees it. */
  ghost predicate Matches(network: Network, legs: Legs) {
    forall attempt, name :: network(attempt, name) == AsOutcome(legs(attempt, name))
  }

  function AsNetwork(legs: Legs): Network {
    (attempt: nat, name: string) => AsOutcome(legs(attempt, name))
  }

  /** The replies a request sends its client. */
  function Sent(a: Attempt, names: seq<string>): seq<Reply>
    requires a.Answered? ==> a.k < |names|
  {
    if a.Answered? then [ReplyFor(a, names)] else []
  }

  /** What the client gets: the answer of the first backend, of the first three the balancer prefers,
      whose dial, write and read all succeed, whatever its status; nothing if there is none. */
  lemma SentIsFirstLive(left: seq<nat>, names: seq<string>, legs: Legs)
    requires forall i | 0 <= i < |left| :: left[i] < |names|
    ensures var t := Trace(left, names, 0, AsNetwork(legs));
            && |t| >= 1 && (t[|t| - 1].Answered? ==> t[|t| - 1].k < |names|)
            && var m, k := if |left| < 3 then |left| else 3, FirstLive(left, names, 0, AsNetwork(legs));
               && k <= m && (forall i | 0 <= i < k :: !legs(i, names[left[i]]).Response?)
               && (k < m ==> legs(k, names[left[k]]).Response? &&
                             Sent(t[|t| - 1], names) == [Forwarded(names[left[k]], legs(k, names[left[k]]).status)])
               && (k == m ==> Sent(t[|t| - 1], names) == [])
  {
    var network := AsNetwork(legs);
    var k := FirstLive(left, names, 0, network);
    forall i | 0 <= i < k
      ensures network(i, names[left[i]]).TransportError? && !legs(i, names[left[i]]).Response?
    {
      assert network(i, names[left[i]]) == AsOutcome(legs(i, names[left[i]]));
      assert !network(i, names[left[i]]).Response?;
    }
    if k < Limit(left) {
      FirstLiveAnswers(left, names, k, network);
    } else {
      NoneLiveFails(left, names, network);
    }
  }

  /** The answer of a pass, with the backend that gave it. */
  predicate Answers(bs: seq<Backend>, a: Attempt, answer: Option<(Backend, int)>) {
    if a.Answered? then a.k < |bs| && answer == Some((bs[a.k], a.status)) else answer == None
  }

  class SidecarProxy {
    const lb: LoadBalancer
    const pool: BackendPool
    const health: Health

    constructor (lb: LoadBalancer, pool: BackendPool, health: Health)
      ensures this.lb == lb && this.pool == pool && this.health == health
    {
      this.lb, this.pool, this.health := lb, pool, health;
    }

    ghost predicate Ready(service: string, now: seq<Snap>)
      reads this, lb, pool, pool.Members(service)
    {
      lb.pool == pool && lb.Ready(service, now) && LoadsFit(now)
    }

    /** Dial, forward, read. Every failing leg gives the counter back and reports the backend;
        success keeps the counter. */
    method DialAndForward(service: string, bs: seq<Backend>, peer: Backend, attempt: nat, legs: Legs,
                          ghost k: nat, ghost now: seq<Snap>)
      returns (l: Leg)
      requires pool.Valid() && bs == pool.Members(service) && k < |bs| && peer == bs[k]
      requires Shows(bs, now) && LoadsFit(now)
      modifies bs
      ensures l == legs(attempt, peer.name)
      ensures Shows(bs, if l.Response? then Adding(now, k, 1) else Reporting(now, k, false, health.checkInterval))
    {
      Acquire(bs, peer, k, now);
      l := legs(attempt, peer.name);
      match l
      case DialError =>
        ReleaseAndReport(pool, service, bs, peer, health.checkInterval, k, now);
      case WriteError =>
        ReleaseAndReport(pool, service, bs, peer, health.checkInterval, k, now);
      case ReadError =>
        ReleaseAndReport(pool, service, bs, peer, health.checkInterval, k, now);
      case Response(_) =>
    }

    /** The heap after a pass: the answering backend, if any, still holds its counter. */
    ghost predicate Left(bs: seq<Backend>, after: seq<Snap>, a: Attempt)
      reads bs
    {
      && |after| == |bs| && AllSound(after) && LoadsFit(after)
      && (a.Answered? ==> a.k < |bs|)
      && Shows(bs, if a.Answered? then Adding(after, a.k, 1) else after)
    }

    /** The balancer's part of a pass. */
    method Pick(service: string, bs: seq<Backend>, attempt: nat, ghost network: Network, ghost names: seq<string>, ghost now: seq<Snap>)
      returns (peer: Backend?, ghost scanned: seq<Snap>, ghost a: Attempt, ghost after: seq<Snap>)
      requires bs == pool.Members(service) && names == Names(bs) && Ready(service, now)
      modifies lb`rrIndices, bs
      ensures Ready(service, scanned) && AllSound(after) && LoadsFit(after)
      ensures IsPass(lb.strategy, now, after, names, attempt, network, health.checkInterval, a)
      ensures if peer == null then a.NoPeer? && after == scanned
              else !a.NoPeer? && a.k < |bs| && peer == bs[a.k] && Forwards(network(attempt, names[a.k]), scanned, after, a, health.checkInterval)
    {
      ghost var k;
      peer, k, scanned := lb.GetNextPeer(service, now);
      ScanFits(now, scanned, lb.strategy);
      a, after := PassFacts(lb.strategy, now, names, attempt, network, health.checkInterval, k, scanned);
    }

    /** One pass. An answering backend is returned with its counter still held. */
    method PassOnce(service: string, bs: seq<Backend>, attempt: nat, legs: Legs, ghost network: Network,
                    ghost names: seq<string>, ghost now: seq<Snap>)
      returns (answer: Option<(Backend, int)>, ghost a: Attempt, ghost after: seq<Snap>)
      requires Matches(network, legs) && bs == pool.Members(service) && names == Names(bs) && Ready(service, now)
      modifies lb`rrIndices, bs
      ensures IsPass(lb.strategy, now, after, names, attempt, network, health.checkInterval, a)
      ensures Left(bs, after, a) && (!a.Answered? ==> Ready(service, after))
      ensures answer == if a.Answered? then Some((bs[a.k], a.status)) else None
    {
      ghost var scanned;
      var peer;
      peer, scanned, a, after := Pick(service, bs, attempt, network, names, now);
      answer := None;
      if peer != null {
        answer := TryPeer(service, bs, peer, attempt, legs, network, names, scanned, a, after);
      }
    }

    /** The rest of it, once there is a backend. */
    method TryPeer(service: string, bs: seq<Backend>, peer: Backend, attempt: nat, legs: Legs, ghost network: Network,
                   ghost names: seq<string>, ghost scanned: seq<Snap>, ghost a: Attempt, ghost after: seq<Snap>)
      returns (answer: Option<(Backend, int)>)
      requires Matches(network, legs) && bs == pool.Members(service) && names == Names(bs) && Ready(service, scanned)
      requires !a.NoPeer? && a.k < |bs| && peer == bs[a.k] && AllSound(after) && LoadsFit(after)
      requires Forwards(network(attempt, names[a.k]), scanned, after, a, health.checkInterval)
      modifies bs
      ensures Left(bs, after, a) && (!a.Answered? ==> Ready(service, after))
      ensures answer == if a.Answered? then Some((bs[a.k], a.status)) else None
    {
      answer := None;
      var l := DialAndForward(service, bs, peer, attempt, legs, a.k, scanned);
      assert network(attempt, names[a.k]) == AsOutcome(l);
      if l.Response? {
        answer := Some((peer, l.status));
      }
    }

    /** The request is about to make this attempt. */
    ghost predicate InLoop(service: string, before: seq<Snap>, now: seq<Snap>, names: seq<string>, network: Network,
                           done: seq<Attempt>, attempt: nat)
      reads this, lb, pool, pool.Members(service), health
    {
      attempt < 3 && Ready(service, now) && Serving(lb.strategy, before, now, names, network, health.checkInterval, done, attempt)
    }

    /** The loop is over: the passes are the specification's and the answering backend is still held. */
    ghost predicate Ended(bs: seq<Backend>, before: seq<Snap>, after: seq<Snap>, names: seq<string>, network: Network,
                          trace: seq<Attempt>, a: Attempt)
      reads this, lb, health, bs
    {
      && Served(lb.strategy, before, after, names, network, health.checkInterval, trace)
      && a == trace[|trace| - 1] && Left(bs, after, a)
    }

    /** A pass as a step of the whole request. */
    method Advance(service: string, bs: seq<Backend>, attempt: nat, legs: Legs, ghost network: Network, ghost names: seq<string>,
                   ghost before: seq<Snap>, ghost now: seq<Snap>, ghost done: seq<Attempt>)
      returns (answer: Option<(Backend, int)>, ghost a: Attempt, ghost trace: seq<Attempt>, ghost after: seq<Snap>)
      requires Matches(network, legs) && bs == pool.Members(service) && names == Names(bs)
      requires InLoop(service, before, now, names, network, done, attempt)
      modifies lb`rrIndices, bs
      ensures if answer.Some? || attempt == 3 - 1 then Ended(bs, before, after, names, network, trace, a)
              else InLoop(service, before, after, names, network, trace, attempt + 1)
      ensures Answers(bs, a, answer)
    {
      answer, a, after := PassOnce(service, bs, attempt, legs, network, names, now);
      trace := ServingStep(lb.strategy, before, now, after, names, network, done, attempt, a, health.checkInterval);
    }

    /** Section D: the retry loop, up to the response it breaks out with. */
    method RetryLoop(service: string, bs: seq<Backend>, legs: Legs, ghost network: Network,
                     ghost names: seq<string>, ghost before: seq<Snap>)
      returns (answer: Option<(Backend, int)>, ghost a: Attempt, ghost trace: seq<Attempt>, ghost after: seq<Snap>)
      requires Matches(network, legs) && bs == pool.Members(service) && names == Names(bs) && Ready(service, before)
      modifies lb`rrIndices, bs
      ensures Ended(bs, before, after, names, network, trace, a) && Answers(bs, a, answer)
    {
      trace, after := [], before;
      ServingStarts(lb.strategy, before, names, network, health.checkInterval);
      for attempt := 0 to 3
        invariant InLoop(service, before, after, names, network, trace, attempt)
      {
        answer, a, trace, after := Advance(service, bs, attempt, legs, network, names, before, after, trace);
        if answer.Some? || attempt == 3 - 1 {
          return;
        }
      }
      assert false;
    }

    /** The loop and what follows it. */
    method HandleOutbound(client: ResponseWriter, service: string, bs: seq<Backend>, legs: Legs,
                          ghost names: seq<string>, ghost before: seq<Snap>)
      returns (ghost trace: seq<Attempt>, ghost after: seq<Snap>)
      requires bs == pool.Members(service) && names == Names(bs) && Ready(service, before)
      modifies client, lb`rrIndices, bs
      ensures Served(lb.strategy, before, after, names, AsNetwork(legs), health.checkInterval, trace)
      ensures Shows(bs, after) && AllSound(after)
      ensures client.written == old(client.written) + Sent(trace[|trace| - 1], names)
    {
      ghost var network, interval := AsNetwork(legs), health.checkInterval;
      var answer;
      ghost var a;
      answer, a, trace, after := RetryLoop(service, bs, legs, network, names, before);
      assert Served(lb.strategy, before, after, names, network, interval, trace);
      Conclude(client, bs, answer, names, after, a);
      assert health.checkInterval == interval;
    }

    /** What follows the loop. */
    method Conclude(client: ResponseWriter, bs: seq<Backend>, answer: Option<(Backend, int)>, ghost names: seq<string>,
                    ghost after: seq<Snap>, ghost a: Attempt)
      requires NamesDistinct(bs) && names == Names(bs) && Left(bs, after, a) && Answers(bs, a, answer)
      modifies client, bs
      ensures Shows(bs, after) && client.written == old(client.written) + Sent(a, names)
    {
      if answer.Some? {
        Finish(client, bs, answer.value.0, answer.value.1, a.k, after);
      }
    }

    /** Section E: the response goes to the client, and the deferred decrement runs. */
    method Finish(client: ResponseWriter, bs: seq<Backend>, peer: Backend, status: int, ghost k: nat, ghost now: seq<Snap>)
      requires NamesDistinct(bs) && k < |bs| && peer == bs[k] && |now| == |bs| && LoadsFit(now)
      requires Shows(bs, Adding(now, k, 1))
      modifies client, bs
      ensures Shows(bs, now) && client.written == old(client.written) + [Forwarded(peer.name, status)]
    {
      client.Write(Forwarded(peer.name, status));
      Release(bs, peer, k, now);
    }
  }
}
