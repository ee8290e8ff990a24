/** Backends and the pool that holds them: pkg/proxy/backend.go. */
module Backends {
  import opened CircuitBreaker
  import opened MachineInts

  class Backend {
    const name: string
    const target: string
    var healthy: bool
    var activeRequest: int
    var failureCount: int
    var resetTimeOut: int
    var backoffDuration: int
    var state: State

    /** The breaker the fields encode. */
    ghost function View(): Breaker
      reads this
    {
      Breaker(healthy, failureCount, resetTimeOut, backoffDuration, state)
    }

    /** A backend as CreateBackends makes it. */
    constructor (name: string, target: string)
      ensures this.name == name && this.target == target
      ensures View() == FRESH && activeRequest == 0
      ensures healthy && failureCount == 0 && resetTimeOut == 0 && backoffDuration == 0 && state == Closed
    {
      this.name, this.target := name, target;
      healthy, activeRequest, failureCount, resetTimeOut, backoffDuration := true, 0, 0, 0, 0;
      state := Closed;
    }

    method IsHealthy() returns (h: bool)
      ensures h == healthy
    {
      h := healthy;
    }

    method GetActiveRequests() returns (n: int)
      ensures n == activeRequest
    {
      n := activeRequest;
    }

    method IncrementActiveRequests()
      modifies this`activeRequest
      ensures activeRequest == WrapInt32(old(activeRequest) + 1)
    {
      activeRequest := WrapInt32(activeRequest + 1);
    }

    method DecrementActiveRequests()
      modifies this`activeRequest
      ensures activeRequest == WrapInt32(old(activeRequest) - 1)
    {
      activeRequest := WrapInt32(activeRequest - 1);
    }

    method UpdateStatus(isHealthy: bool, checkInterval: int)
      modifies this`healthy, this`failureCount, this`resetTimeOut, this`backoffDuration, this`state
      ensures View() == Report(Int64, old(View()), isHealthy, checkInterval)
      ensures isHealthy ==> healthy && failureCount == 0 && state == Closed && resetTimeOut == 0 && backoffDuration == 0
      ensures !isHealthy ==> !healthy && failureCount == old(failureCount) + 1
      ensures !isHealthy && failureCount < 5 ==>
                state == old(state) && resetTimeOut == old(resetTimeOut) && backoffDuration == old(backoffDuration)
      ensures !isHealthy && failureCount >= 5 ==>
                && state == Open
                && resetTimeOut == WrapInt64(if old(state) == HalfOpen then old(backoffDuration) + 3_000_000_000 + 2 * checkInterval
                                             else old(resetTimeOut) + 3_000_000_000 + checkInterval)
                && backoffDuration == if old(backoffDuration) == 0 then 3_000_000_000 else WrapInt64(2 * old(backoffDuration))
    {
      healthy := isHealthy;
      if !isHealthy {
        failureCount := failureCount + 1;
      } else {
        failureCount := 0;
        backoffDuration := 0;
        state := Closed;
        resetTimeOut := 0;
      }
      if failureCount >= 5 {
        if state == HalfOpen {
          resetTimeOut := WrapInt64(backoffDuration + 3 * SECOND + checkInterval * 2);
          state := Open;
        } else {
          state := Open;
          resetTimeOut := WrapInt64(resetTimeOut + 3 * SECOND + checkInterval);
        }
        if backoffDuration != 0 {
          backoffDuration := WrapInt64(backoffDuration * 2);
        } else {
          backoffDuration := 3 * SECOND;
        }
      }
    }

    method GetCircuitState(checkInterval: int) returns (shouldCheck: bool, s: State)
      modifies this`failureCount, this`resetTimeOut, this`state
      ensures View() == Query(Int64, old(View()), checkInterval)
      ensures shouldCheck == !Denied(old(View()), checkInterval) && s == state
      ensures shouldCheck <==> !(old(state) == Open && old(resetTimeOut) >= checkInterval)
      ensures !shouldCheck ==>
                state == Open && failureCount == old(failureCount) && resetTimeOut == WrapInt64(old(resetTimeOut) - checkInterval)
      ensures shouldCheck ==>
                && resetTimeOut == old(resetTimeOut) && state == (if old(state) == Closed then Closed else HalfOpen)
                && failureCount == old(failureCount) - if old(state) == Closed then 0 else 1
    {
      if state == Open {
        if resetTimeOut >= checkInterval {
          resetTimeOut := WrapInt64(resetTimeOut - checkInterval);
          return false, Open;
        } else {
          state := HalfOpen;
          failureCount := failureCount - 1;
          return true, HalfOpen;
        }
      }
      if state == HalfOpen {
        failureCount := failureCount - 1;
      }
      return true, state;
    }
  }

  // ----- Lists of backends -----

  /** Names tell the backends of one service apart, so a lookup by name finds the very object. */
  ghost predicate NamesDistinct(bs: seq<Backend>) {
    forall i, j | 0 <= i < j < |bs| :: bs[i].name != bs[j].name
  }

  /** One backend's mutable part, as a value. */
  datatype Snap = Snap(breaker: Breaker, active: int)

  /** The heap holds these values. Contracts name the values before a call and say what the heap
      shows after it. */
  ghost predicate Shows(bs: seq<Backend>, ss: seq<Snap>)
    reads bs
  {
    && |ss| == |bs|
    && forall i | 0 <= i < |bs| :: ss[i] == Snap(bs[i].View(), bs[i].activeRequest)
  }

  predicate AllSound(ss: seq<Snap>) {
    forall i | 0 <= i < |ss| :: Sound(ss[i].breaker)
  }

  /** One report, one query and one counter change, at index k of a list. */
  function Reporting(ss: seq<Snap>, k: nat, isHealthy: bool, interval: int): seq<Snap>
    requires k < |ss|
  {
    ss[k := ss[k].(breaker := Report(Int64, ss[k].breaker, isHealthy, interval))]
  }

  function Querying(ss: seq<Snap>, k: nat, interval: int): seq<Snap>
    requires k < |ss|
  {
    ss[k := ss[k].(breaker := Query(Int64, ss[k].breaker, interval))]
  }

  function Ticking(ss: seq<Snap>, k: nat, interval: int, probeOk: bool): (r: seq<Snap>)
    requires k < |ss|
    ensures |r| == |ss|
  {
    ss[k := ss[k].(breaker := Tick(Int64, ss[k].breaker, interval, probeOk))]
  }

  function Adding(ss: seq<Snap>, k: nat, delta: int): seq<Snap>
    requires k < |ss|
  {
    ss[k := ss[k].(active := WrapInt32(ss[k].active + delta))]
  }

  /** The index a lookup by name stops at: the first match, or the length. */
  function FindName(bs: seq<Backend>, name: string): (k: nat)
    ensures k <= |bs| && (k < |bs| ==> bs[k].name == name)
    ensures forall i | 0 <= i < k :: bs[i].name != name
  {
    if bs == [] then 0 else if bs[0].name == name then 0 else 1 + FindName(bs[1..], name)
  }

  lemma FindNameAt(bs: seq<Backend>, k: nat)
    requires NamesDistinct(bs) && k < |bs|
    ensures FindName(bs, bs[k].name) == k
  {
  }

  class BackendPool {
    var backends: map<string, seq<Backend>>

    constructor (backends: map<string, seq<Backend>>)
      ensures this.backends == backends
    {
      this.backends := backends;
    }

    /** Backends of one service have different names, as CreateBackends gives them out. */
    ghost predicate Valid()
      reads this
    {
      forall s | s in backends :: NamesDistinct(backends[s])
    }

    /** No backend serves two services. */
    ghost predicate Separate()
      reads this
    {
      forall s, t, b | s in backends && t in backends && b in backends[s] && b in backends[t] :: s == t
    }

    /** The backends of a service, none for a service the pool does not know. */
    ghost function Members(service: string): seq<Backend>
      reads this
    {
      if service in backends then backends[service] else []
    }

    /** The swap; draining the backends that were dropped happens in the background. */
    method UpdateBackends(newBackends: map<string, seq<Backend>>)
      modifies this
      ensures backends == newBackends
    {
      backends := newBackends;
    }

    ghost function AllBackends(): set<Backend>
      reads this
    {
      set s, i | s in backends && 0 <= i < |backends[s]| :: backends[s][i]
    }

    lemma MembersAreBackends(service: string)
      ensures forall b | b in Members(service) :: b in AllBackends()
    {
    }

    method GetBackendsForService(service: string) returns (bs: seq<Backend>, ok: bool)
      ensures ok == (service in backends) && bs == Members(service)
    {
      if service in backends {
        bs, ok := backends[service], true;
      } else {
        bs, ok := [], false;
      }
    }

    /** Queries the first backend of the service with that name, and touches no other. */
    method GetCircuitState(service: string, backendName: string, checkInterval: int, ghost before: seq<Snap>)
      returns (shouldCheck: bool, s: State)
      requires Valid() && Shows(Members(service), before)
      modifies Members(service)
      ensures var bs := Members(service);
              var k := FindName(bs, backendName);
              && Shows(bs, if k < |bs| then Querying(before, k, checkInterval) else before)
              && shouldCheck == (k < |bs| && !Denied(before[k].breaker, checkInterval))
    {
      var bs, ok := GetBackendsForService(service);
      if !ok {
        return false, Closed;
      }
      for i := 0 to |bs|
        invariant forall j | 0 <= j < i :: bs[j].name != backendName
        invariant Shows(bs, before)
      {
        if bs[i].name == backendName {
          assert FindName(bs, backendName) == i;
          shouldCheck, s := bs[i].GetCircuitState(checkInterval);
          return;
        }
      }
      return false, Closed;
    }

    /** Reports to the first backend of the service with that name, and touches no other. */
    method UpdateBackendStatus(service: string, backendName: string, isHealthy: bool, checkInterval: int,
                               ghost before: seq<Snap>)
      requires Valid() && Shows(Members(service), before)
      modifies Members(service)
      ensures var bs := Members(service);
              var k := FindName(bs, backendName);
              Shows(bs, if k < |bs| then Reporting(before, k, isHealthy, checkInterval) else before)
    {
      var bs, ok := GetBackendsForService(service);
      if !ok {
        return;
      }
      for i := 0 to |bs|
        invariant forall j | 0 <= j < i :: bs[j].name != backendName
        invariant Shows(bs, before)
      {
        if bs[i].name == backendName {
          assert FindName(bs, backendName) == i;
          bs[i].UpdateStatus(isHealthy, checkInterval);
          return;
        }
      }
    }
  }
}
