/** Choosing a backend: pkg/proxy/loadbalancer.go. Both strategies query every breaker they look
    at, which ticks it; the results are nevertheless those of a scan with no side effects. */
module Balancer {
  import opened CircuitBreaker
  import opened Backends

  // ----- The side-effect-free specifications -----

  function Flags(ss: seq<Snap>): (fs: seq<bool>)
    ensures |fs| == |ss| && forall i | 0 <= i < |ss| :: fs[i] == ss[i].breaker.healthy
  {
    seq(|ss|, i requires 0 <= i < |ss| => ss[i].breaker.healthy)
  }

  /** The first true flag, or the length. */
  function FirstTrue(flags: seq<bool>): (k: nat)
    ensures k <= |flags| && (k < |flags| ==> flags[k])
    ensures forall i | 0 <= i < k :: !flags[i]
  {
    if flags == [] then 0 else if flags[0] then 0 else 1 + FirstTrue(flags[1..])
  }

  lemma FirstTrueIs(flags: seq<bool>, k: nat)
    requires k <= |flags| && (k < |flags| ==> flags[k])
    requires forall i | 0 <= i < k :: !flags[i]
    ensures FirstTrue(flags) == k
  {
  }

  /** k is the first index with the fewest requests among the healthy ones below n. */
  predicate IsLeast(ss: seq<Snap>, n: nat, k: nat) {
    && k < n <= |ss| && ss[k].breaker.healthy
    && (forall i | 0 <= i < k :: ss[i].breaker.healthy ==> ss[k].active < ss[i].active)
    && (forall i | k <= i < n :: ss[i].breaker.healthy ==> ss[k].active <= ss[i].active)
  }

  /** The backend a left-to-right scan of the first n keeps, or the length if none is healthy. */
  function Fewest(ss: seq<Snap>, n: nat): (k: nat)
    requires n <= |ss|
    ensures (k < n && ss[k].breaker.healthy) || k == |ss|
  {
    if n == 0 then |ss|
    else
      var k := Fewest(ss, n - 1);
      if ss[n - 1].breaker.healthy && (k == |ss| || ss[n - 1].active < ss[k].active) then n - 1 else k
  }

  lemma {:induction false} FewestIsLeast(ss: seq<Snap>, n: nat)
    requires n <= |ss|
    ensures var k := Fewest(ss, n);
            if k < |ss| then IsLeast(ss, n, k) else forall i | 0 <= i < n :: !ss[i].breaker.healthy
  {
    if n > 0 {
      FewestIsLeast(ss, n - 1);
    }
  }

  /** Where step i of a scan from `start` looks. */
  method RingIndex(start: nat, i: nat, n: nat) returns (idx: nat)
    requires i < n
    ensures idx < n
    ensures start == 0 ==> idx == i
  {
    idx := (start + i) % n;
  }

  /** What querying the first n breakers, one after the other, leaves behind. */
  function Scanned(ss: seq<Snap>, n: nat): (r: seq<Snap>)
    requires n <= |ss|
    ensures |r| == |ss|
  {
    if n == 0 then ss else Querying(Scanned(ss, n - 1), n - 1, BALANCER_INTERVAL)
  }

  /** A scan keeps every breaker sound and changes nobody's health or load: only closed breakers
      are healthy, and a query leaves a closed breaker alone. */
  lemma {:induction false} ScannedKeeps(ss: seq<Snap>, n: nat)
    requires n <= |ss| && AllSound(ss)
    ensures AllSound(Scanned(ss, n)) && Flags(Scanned(ss, n)) == Flags(ss)
    ensures forall i | 0 <= i < |ss| :: Scanned(ss, n)[i].active == ss[i].active
    ensures forall i | n <= i < |ss| :: Scanned(ss, n)[i] == ss[i]
  {
    if n > 0 {
      ScannedKeeps(ss, n - 1);
      QueryKeeps(Scanned(ss, n - 1), n - 1);
    }
  }

  /** Every breaker a scan looks at has been queried once, with ten seconds, and no other has. */
  lemma {:induction false} ScannedPointwise(ss: seq<Snap>, n: nat)
    requires n <= |ss|
    ensures forall i | 0 <= i < |ss| ::
              Scanned(ss, n)[i] == if i < n then ss[i].(breaker := Query(Int64, ss[i].breaker, 10_000_000_000)) else ss[i]
  {
    if n > 0 {
      ScannedPointwise(ss, n - 1);
    }
  }

  /** What a choice leaves: with round-robin the breakers up to and including the chosen one have been
      queried, all if none was chosen; with least-connections all of them have. */
  predicate QueriedUpTo(before: seq<Snap>, after: seq<Snap>, n: nat) {
    && |after| == |before|
    && forall i | 0 <= i < |before| ::
         after[i] == if i < n then before[i].(breaker := Query(Int64, before[i].breaker, 10_000_000_000)) else before[i]
  }

  lemma ScannedAhead(ss: seq<Snap>, n: nat)
    requires n < |ss| && AllSound(ss)
    ensures AllSound(Scanned(ss, n)) && Scanned(ss, n)[n] == ss[n]
  {
    ScannedKeeps(ss, n);
  }

  lemma ScannedLoad(ss: seq<Snap>, n: nat, i: nat)
    requires n <= |ss| && i < |ss| && AllSound(ss)
    ensures Scanned(ss, n)[i].active == ss[i].active
  {
    ScannedKeeps(ss, n);
  }

  lemma QueryKeeps(ss: seq<Snap>, k: nat)
    requires k < |ss| && AllSound(ss)
    ensures var r := Querying(ss, k, BALANCER_INTERVAL);
            && AllSound(r) && Flags(r) == Flags(ss) && r[k].active == ss[k].active
            && (ss[k].breaker.healthy ==> !Denied(ss[k].breaker, BALANCER_INTERVAL))
  {
    StepKeepsSound(Int64, ss[k].breaker, Queried(BALANCER_INTERVAL));
  }

  /** How far a scan in index order goes: through the first healthy backend, or to the end. */
  function ScanLength(flags: seq<bool>): nat {
    var k := FirstTrue(flags);
    if k < |flags| then k + 1 else k
  }

  predicate NoneHealthy(ss: seq<Snap>, n: nat)
    requires n <= |ss|
  {
    forall i | 0 <= i < n :: !ss[i].breaker.healthy
  }

  lemma ScanStops(ss: seq<Snap>, k: nat)
    requires k <= |ss| && NoneHealthy(ss, k) && (k < |ss| ==> ss[k].breaker.healthy)
    ensures FirstTrue(Flags(ss)) == k && ScanLength(Flags(ss)) == if k < |ss| then k + 1 else k
  {
    FirstTrueIs(Flags(ss), k);
  }

  class LoadBalancer {
    const strategy: string
    const pool: BackendPool
    var rrIndices: map<string, int>

    constructor (strategy: string, pool: BackendPool)
      ensures this.strategy == strategy && this.pool == pool && rrIndices == map[]
    {
      this.strategy, this.pool, rrIndices := strategy, pool, map[];
    }

    /** No start index ever leaves 0: the code initialises it and never advances it. */
    ghost predicate StartsAtZero()
      reads this
    {
      forall s | s in rrIndices :: rrIndices[s] == 0
    }

    ghost predicate Ready(service: string, before: seq<Snap>)
      reads this, pool, pool.Members(service)
    {
      StartsAtZero() && pool.Valid() && Shows(pool.Members(service), before) && AllSound(before)
    }

    /** What both scans do with the backend at index i: query its breaker by name, then read its
        health flag. The backend is usable exactly when it was healthy before. */
    method Examine(service: string, bs: seq<Backend>, i: nat, ghost now: seq<Snap>) returns (usable: bool)
      requires pool.Valid() && bs == pool.Members(service) && i < |bs|
      requires Shows(bs, now) && AllSound(now)
      modifies bs
      ensures Shows(bs, Querying(now, i, BALANCER_INTERVAL))
      ensures usable == now[i].breaker.healthy
    {
      FindNameAt(bs, i);
      QueryKeeps(now, i);
      var shouldCheck, state := pool.GetCircuitState(service, bs[i].name, 10 * SECOND, now);
      var h := bs[i].IsHealthy();
      usable := h && shouldCheck;
    }

    /** The scan that stops at the first usable backend, which is the one at index k. */
    method ScanInOrder(service: string, bs: seq<Backend>, start: nat, ghost before: seq<Snap>)
      returns (r: Backend?, ghost k: nat, ghost now: seq<Snap>)
      requires start == 0 && pool.Valid() && bs == pool.Members(service)
      requires Shows(bs, before) && AllSound(before)
      modifies bs
      ensures k <= |bs| && NoneHealthy(before, k)
      ensures k == |bs| ==> r == null && now == Scanned(before, k)
      ensures k < |bs| ==> before[k].breaker.healthy && r == bs[k] && now == Scanned(before, k + 1)
      ensures Shows(bs, now) && QueriedUpTo(before, now, if k == |bs| then |bs| else k + 1)
    {
      now := before;
      for i := 0 to |bs|
        invariant Shows(bs, now) && now == Scanned(before, i)
        invariant NoneHealthy(before, i)
      {
        var idx := RingIndex(start, i, |bs|);
        var usable;
        usable, now := ExamineAt(service, bs, idx, before, now);
        if usable {
          ScannedPointwise(before, i + 1);
          return bs[idx], i, now;
        }
      }
      ScannedPointwise(before, |bs|);
      return null, |bs|, now;
    }

    /** Index i of a scan that has examined those below. */
    method ExamineAt(service: string, bs: seq<Backend>, i: nat, ghost before: seq<Snap>, ghost now: seq<Snap>)
      returns (usable: bool, ghost next: seq<Snap>)
      requires pool.Valid() && bs == pool.Members(service) && i < |bs|
      requires |before| == |bs| && AllSound(before) && Shows(bs, now) && now == Scanned(before, i)
      modifies bs
      ensures usable == before[i].breaker.healthy && Shows(bs, next) && next == Scanned(before, i + 1)
    {
      ScannedAhead(before, i);
      usable := Examine(service, bs, i, now);
      next := Querying(now, i, BALANCER_INTERVAL);
    }

    method GetNextRoundRobin(service: string, ghost before: seq<Snap>) returns (r: Backend?)
      requires Ready(service, before)
      modifies this`rrIndices, pool.Members(service)
      ensures Ready(service, Scanned(before, ScanLength(Flags(before))))
      ensures var bs := pool.Members(service);
              var k := FirstTrue(Flags(before));
              r == if k < |bs| then bs[k] else null
    {
      var bs, ok := pool.GetBackendsForService(service);
      ScannedKeeps(before, ScanLength(Flags(before)));
      if !ok || |bs| == 0 {
        return null;
      }
      if service !in rrIndices {
        rrIndices := rrIndices[service := 0];
      }
      ghost var k: nat, now: seq<Snap>;
      r, k, now := ScanInOrder(service, bs, rrIndices[service], before);
      ScanStops(before, k);
    }

    /** The better of the best so far and the usable backend at index i. */
    method Better(bs: seq<Backend>, least: Backend?, i: nat, ghost before: seq<Snap>, ghost now: seq<Snap>, ghost k: nat)
      returns (r: Backend?)
      requires i < |bs| == |before| && before[i].breaker.healthy && AllSound(before)
      requires k == Fewest(before, i) && least == if k < |bs| then bs[k] else null
      requires now == Scanned(before, i + 1) && Shows(bs, now)
      ensures var k' := Fewest(before, i + 1);
              k' < |bs| && r == bs[k']
    {
      if least == null {
        return bs[i];
      }
      ScannedLoad(before, i + 1, i);
      ScannedLoad(before, i + 1, k);
      var mine := bs[i].GetActiveRequests();
      var fewest := least.GetActiveRequests();
      if mine < fewest {
        return bs[i];
      }
      return least;
    }

    method ScanForFewest(service: string, bs: seq<Backend>, ghost before: seq<Snap>) returns (least: Backend?)
      requires pool.Valid() && bs == pool.Members(service)
      requires Shows(bs, before) && AllSound(before)
      modifies bs
      ensures Shows(bs, Scanned(before, |before|))
      ensures var k := Fewest(before, |before|);
              least == if k < |bs| then bs[k] else null
    {
      least := null;
      ghost var now := before;
      for i := 0 to |bs|
        invariant Shows(bs, now) && now == Scanned(before, i)
        invariant var k := Fewest(before, i);
                  least == if k < |bs| then bs[k] else null
      {
        var usable;
        usable, now := ExamineAt(service, bs, i, before, now);
        if usable {
          least := Better(bs, least, i, before, now, Fewest(before, i));
        }
      }
    }

    method GetNextLeastConnection(service: string, ghost before: seq<Snap>) returns (r: Backend?)
      requires Ready(service, before)
      modifies pool.Members(service)
      ensures Ready(service, Scanned(before, |before|))
      ensures var bs := pool.Members(service);
              var k := Fewest(before, |before|);
              r == if k < |bs| then bs[k] else null
    {
      var bs, ok := pool.GetBackendsForService(service);
      ScannedKeeps(before, |before|);
      if !ok || |bs| == 0 {
        return null;
      }
      r := ScanForFewest(service, bs, before);
    }

    /** Any strategy name but "least-connections" means round-robin. */
    method GetNextPeer(service: string, ghost before: seq<Snap>) returns (r: Backend?, ghost k: nat, ghost after: seq<Snap>)
      requires Ready(service, before)
      modifies this`rrIndices, pool.Members(service)
      ensures k == Choice(strategy, before) && after == Scanned(before, ChoiceScan(strategy, before))
      ensures Ready(service, after)
      ensures r == if k < |pool.Members(service)| then pool.Members(service)[k] else null
      ensures QueriedUpTo(before, after, if strategy == "least-connections" || k == |before| then |before| else k + 1)
    {
      k, after := Choice(strategy, before), Scanned(before, ChoiceScan(strategy, before));
      ScannedPointwise(before, ChoiceScan(strategy, before));
      if strategy == "least-connections" {
        r := GetNextLeastConnection(service, before);
      } else {
        r := GetNextRoundRobin(service, before);
      }
    }
  }

  /** The index GetNextPeer picks and how many breakers it queries on the way. */
  function Choice(strategy: string, ss: seq<Snap>): (k: nat)
    ensures k <= |ss| && (k < |ss| ==> ss[k].breaker.healthy)
  {
    if strategy == "least-connections" then Fewest(ss, |ss|) else FirstTrue(Flags(ss))
  }

  function ChoiceScan(strategy: string, ss: seq<Snap>): (n: nat)
    ensures n <= |ss|
  {
    if strategy == "least-connections" then |ss| else ScanLength(Flags(ss))
  }

  /** Whatever the strategy: a backend is found exactly when one is healthy, and it is a closed
      one, the first healthy one or the first of the least loaded healthy ones. */
  lemma ChoiceIsHealthy(strategy: string, ss: seq<Snap>)
    requires AllSound(ss)
    ensures var k := Choice(strategy, ss);
            && (k < |ss| <==> exists i :: 0 <= i < |ss| && ss[i].breaker.healthy)
            && (k < |ss| ==> ss[k].breaker.healthy && ss[k].breaker.state.Closed?)
            && (k < |ss| && strategy == "least-connections" ==> IsLeast(ss, |ss|, k))
            && (k < |ss| && strategy != "least-connections" ==> forall i | 0 <= i < k :: !ss[i].breaker.healthy)
  {
    FewestIsLeast(ss, |ss|);
    var fs, k := Flags(ss), FirstTrue(Flags(ss));
    assert forall i | 0 <= i < k :: !fs[i] && fs[i] == ss[i].breaker.healthy;
  }
}
