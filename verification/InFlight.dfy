/** The in-flight counters under concurrency: any number of gateway and sidecar requests interleave
    at the granularity of single counter operations (pkg/proxy/handler.go, pkg/proxy/listener.go).
    A request works on the backend object it was given, so config swaps do not matter here. */
module InFlight {
  import opened MachineInts
  import opened Retries
  import opened Runs

  type RequestId = nat
  type BackendId = nat

  datatype Kind = Gateway | Sidecar

  /** Where a request stands in its retry loop. */
  datatype Phase =
    | Choosing(attempt: nat)
    | Forwarding(attempt: nat, backend: BackendId)
    | Answering(backend: BackendId)
    | Finished
    | Panicked(backend: BackendId)

  datatype Request = Request(kind: Kind, phase: Phase)

  datatype State = State(requests: map<RequestId, Request>, counters: map<BackendId, int>)

  const INITIAL := State(map[], map[])

  datatype Step =
    | Arrive(r: RequestId, kind: Kind)
    | NoPeer(r: RequestId)
    | Pick(r: RequestId, backend: BackendId)
    | Fail(r: RequestId)
    | FailModify(r: RequestId)
    | Answer(r: RequestId, status: int)
    | Finish(r: RequestId)

  function Counter(s: State, b: BackendId): int {
    if b in s.counters then s.counters[b] else 0
  }

  /** The atomic add on ActiveRequest. */
  function Add(s: State, b: BackendId, delta: int): State {
    s.(counters := s.counters[b := WrapInt32(Counter(s, b) + delta)])
  }

  function Move(s: State, r: RequestId, phase: Phase): State
    requires r in s.requests
  {
    s.(requests := s.requests[r := s.requests[r].(phase := phase)])
  }

  /** After a failed attempt: the next one, or the error exit. */
  function Retry(attempt: nat): Phase {
    if attempt < MAX_RETRIES - 1 then Choosing(attempt + 1) else Finished
  }

  predicate Enabled(s: State, step: Step) {
    match step
    case Arrive(r, _) => r !in s.requests
    case NoPeer(r) => r in s.requests && s.requests[r].phase.Choosing?
    case Pick(r, _) => r in s.requests && s.requests[r].phase.Choosing?
    case Fail(r) => r in s.requests && s.requests[r].phase.Forwarding?
    case FailModify(r) => r in s.requests && s.requests[r].phase.Forwarding? && s.requests[r].kind.Gateway?
    case Answer(r, _) => r in s.requests && s.requests[r].phase.Forwarding?
    case Finish(r) => r in s.requests && s.requests[r].phase.Answering?
  }

  function Apply(s: State, step: Step): State
    requires Enabled(s, step)
  {
    match step
    case Arrive(r, kind) => s.(requests := s.requests[r := Request(kind, Choosing(0))])
    case NoPeer(r) => Move(s, r, Retry(s.requests[r].phase.attempt))
    case Pick(r, b) => Move(Add(s, b, 1), r, Forwarding(s.requests[r].phase.attempt, b))
    case Fail(r) =>
      var p := s.requests[r].phase;
      Move(Add(s, p.backend, -1), r, Retry(p.attempt))
    case FailModify(r) =>
      var p := s.requests[r].phase;
      Move(Add(s, p.backend, -1), r, Retry(p.attempt))
    case Answer(r, status) =>
      var b := s.requests[r].phase.backend;
      Move(s, r, if s.requests[r].kind.Gateway? && Unwritable(status) then Panicked(b) else Answering(b))
    case Finish(r) => Move(Add(s, s.requests[r].phase.backend, -1), r, Finished)
  }

  /** Incremented b and not decremented it, whether or not that is still to come. */
  predicate Holds(p: Phase, b: BackendId) {
    (p.Forwarding? || p.Answering? || p.Panicked?) && p.backend == b
  }

  ghost function Holders(s: State, b: BackendId): set<RequestId> {
    set r | r in s.requests && Holds(s.requests[r].phase, b)
  }

  /** The attempts between increment and decrement on b. */
  ghost function InFlightOn(s: State, b: BackendId): set<RequestId> {
    set r | r in s.requests && Holds(s.requests[r].phase, b) && !s.requests[r].phase.Panicked?
  }

  /** The requests whose decrement on b is lost. */
  ghost function LostOn(s: State, b: BackendId): set<RequestId> {
    set r | r in s.requests && s.requests[r].phase == Panicked(b)
  }

  /** Every request is over. */
  ghost predicate AllOver(s: State) {
    forall r | r in s.requests :: s.requests[r].phase.Finished? || s.requests[r].phase.Panicked?
  }

  ghost predicate Balanced(s: State) {
    forall b :: Counter(s, b) == WrapInt32(|Holders(s, b)|)
  }

  ghost predicate AttemptsBounded(s: State) {
    forall r | r in s.requests ::
      var p := s.requests[r].phase;
      p.Choosing? || p.Forwarding? ==> p.attempt < MAX_RETRIES
  }

  lemma WrapAdd(n: int, delta: int)
    ensures WrapInt32(WrapInt32(n) + delta) == WrapInt32(n + delta)
  {
  }

  /** Moving one request changes at most its own membership. */
  lemma HoldersMove(s: State, r: RequestId, phase: Phase, b: BackendId)
    requires r in s.requests
    ensures Holders(Move(s, r, phase), b) == if Holds(phase, b) then Holders(s, b) + {r} else Holders(s, b) - {r}
  {
  }

  /** One phase change and the counter change that goes with it. */
  lemma MoveKeepsBalance(s: State, r: RequestId, phase: Phase, s': State)
    requires Balanced(s) && r in s.requests
    requires s'.requests == Move(s, r, phase).requests
    requires forall b :: Counter(s', b) == WrapInt32(Counter(s, b) + (if Holds(phase, b) then 1 else 0)
                                                                  - (if Holds(s.requests[r].phase, b) then 1 else 0))
    ensures Balanced(s')
  {
    forall b
      ensures Counter(s', b) == WrapInt32(|Holders(s', b)|)
    {
      HoldersMove(s, r, phase, b);
      assert Holders(s', b) == Holders(Move(s, r, phase), b);
      var was, now := Holders(s, b), Holders(s', b);
      assert r in was <==> Holds(s.requests[r].phase, b);
      assert |now| == |was| + (if Holds(phase, b) then 1 else 0) - (if Holds(s.requests[r].phase, b) then 1 else 0);
      WrapAdd(|was|, |now| - |was|);
    }
  }

  lemma StepKeepsBalance(s: State, step: Step)
    requires Balanced(s) && AttemptsBounded(s) && Enabled(s, step)
    ensures Balanced(Apply(s, step)) && AttemptsBounded(Apply(s, step))
  {
    var s' := Apply(s, step);
    CounterInt32(s);
    match step
    case Arrive(r, kind) =>
      forall b
        ensures Counter(s', b) == WrapInt32(|Holders(s', b)|)
      {
        assert Holders(s', b) == Holders(s, b);
      }
    case NoPeer(r) => MoveKeepsBalance(s, r, s'.requests[r].phase, s');
    case Pick(r, _) => MoveKeepsBalance(s, r, s'.requests[r].phase, s');
    case Fail(r) => MoveKeepsBalance(s, r, s'.requests[r].phase, s');
    case FailModify(r) => MoveKeepsBalance(s, r, s'.requests[r].phase, s');
    case Answer(r, _) => MoveKeepsBalance(s, r, s'.requests[r].phase, s');
    case Finish(r) => MoveKeepsBalance(s, r, s'.requests[r].phase, s');
  }

  lemma CounterInt32(s: State)
    requires Balanced(s)
    ensures forall b :: WrapInt32(Counter(s, b)) == Counter(s, b)
  {
  }

  // ----- Whole runs -----

  ghost predicate IsRun(states: seq<State>, steps: seq<Step>) {
    && |states| == |steps| + 1 && states[0] == INITIAL
    && forall i | 0 <= i < |steps| :: Enabled(states[i], steps[i]) && states[i + 1] == Apply(states[i], steps[i])
  }

  lemma InitialIsBalanced()
    ensures Balanced(INITIAL) && AttemptsBounded(INITIAL)
  {
    forall b
      ensures Counter(INITIAL, b) == WrapInt32(|Holders(INITIAL, b)|)
    {
      assert Holders(INITIAL, b) == {};
    }
  }

  lemma {:induction false} EveryStateIsBalanced(states: seq<State>, steps: seq<Step>, n: nat)
    requires IsRun(states, steps) && n < |states|
    ensures Balanced(states[n]) && AttemptsBounded(states[n])
    ensures forall r | r in states[n].requests ::
              var p := states[n].requests[r].phase;
              p.Choosing? || p.Forwarding? ==> p.attempt < 3
  {
    if n == 0 {
      InitialIsBalanced();
    } else {
      EveryStateIsBalanced(states, steps, n - 1);
      StepKeepsBalance(states[n - 1], steps[n - 1]);
    }
  }

  lemma HoldersSplit(s: State, b: BackendId)
    ensures |Holders(s, b)| == |InFlightOn(s, b)| + |LostOn(s, b)|
  {
    assert Holders(s, b) == InFlightOn(s, b) + LostOn(s, b);
  }

  /** In every state of every run a backend's counter is the number of attempts between increment
      and decrement on it plus the number of gateway answers it gave that could not be written, up to
      2^31 - 1, which is all an int32 can count. So when every request is over the counter is back at
      zero if and only if there was no such answer. */
  lemma CountersAreExact(states: seq<State>, steps: seq<Step>, n: nat, b: BackendId)
    requires IsRun(states, steps) && n < |states|
    ensures var held := |InFlightOn(states[n], b)| + |LostOn(states[n], b)|;
            && (Counter(states[n], b) == held <==> held <= MAX_INT32)
            && (AllOver(states[n]) && held <= MAX_INT32 ==> (Counter(states[n], b) == 0 <==> LostOn(states[n], b) == {}))
  {
    EveryStateIsBalanced(states, steps, n);
    HoldersSplit(states[n], b);
    if AllOver(states[n]) {
      assert InFlightOn(states[n], b) == {};
    }
  }

  /** No sidecar request ever loses a decrement, and a gateway request only by such an answer. */
  lemma OnlyGatewaysLose(s: State, step: Step, r: RequestId, b: BackendId)
    requires Enabled(s, step) && r in LostOn(Apply(s, step), b) && r !in LostOn(s, b)
    ensures step.Answer? && step.r == r && !(100 <= step.status <= 999) && s.requests[r].kind.Gateway? && Holds(s.requests[r].phase, b)
  {
  }

  /** And every such answer loses one. */
  lemma SuchAnswersLose(s: State, r: RequestId, status: int)
    requires Enabled(s, Answer(r, status)) && s.requests[r].kind.Gateway?
    ensures var b := s.requests[r].phase.backend;
            r in LostOn(Apply(s, Answer(r, status)), b) <==> !(100 <= status <= 999)
  {
  }

  /** One request, one answer with status 99: it is over and the counter is at one. */
  lemma LowStatusLeaks(b: BackendId) returns (states: seq<State>, steps: seq<Step>)
    ensures IsRun(states, steps) && AllOver(Last(states)) && Counter(Last(states), b) == 1
  {
    var s1 := Apply(INITIAL, Arrive(0, Gateway));
    var s2 := Apply(s1, Pick(0, b));
    var s3 := Apply(s2, Answer(0, 99));
    states, steps := [INITIAL, s1, s2, s3], [Arrive(0, Gateway), Pick(0, b), Answer(0, 99)];
  }
}
