/** The circuit breaker of pkg/proxy/backend.go as a value: what one status report and one
    state query do to it, and what holds over every run of reports and queries.

    Durations are nanoseconds. The source keeps them in int64, so every operation takes a Width:
    Int64 wraps as Go does, Exact is the arithmetic the design has in mind. */
module CircuitBreaker {
  import opened MachineInts

  const SECOND: int := 1_000_000_000
  const THRESHOLD: int := 5
  const PENALTY: int := 3 * SECOND
  const BALANCER_INTERVAL: int := 10 * SECOND

  datatype Width = Exact | Int64

  function Fit(w: Width, x: int): (r: int)
    ensures MIN_INT64 <= x <= MAX_INT64 ==> r == x
    ensures w.Int64? ==> MIN_INT64 <= r <= MAX_INT64
    ensures w.Exact? ==> r == x
  {
    match w
    case Exact => x
    case Int64 => WrapInt64(x)
  }

  datatype State = Closed | HalfOpen | Open

  datatype Breaker = Breaker(healthy: bool, failures: int, resetTimeout: int, backoff: int, state: State)

  const FRESH := Breaker(true, 0, 0, 0, Closed)

  /** Backend.UpdateStatus. */
  function Report(w: Width, b: Breaker, healthy: bool, interval: int): Breaker {
    if healthy then
      Breaker(true, 0, 0, 0, Closed)
    else if b.failures + 1 < THRESHOLD then
      b.(healthy := false, failures := b.failures + 1)
    else
      Breaker(false, b.failures + 1,
              if b.state.HalfOpen? then Fit(w, b.backoff + PENALTY + interval * 2)
              else Fit(w, b.resetTimeout + PENALTY + interval),
              if b.backoff != 0 then Fit(w, b.backoff * 2) else PENALTY,
              Open)
  }

  /** A query at an open breaker is denied while its interval fits the countdown. */
  predicate Denied(b: Breaker, interval: int) {
    b.state.Open? && b.resetTimeout >= interval
  }

  /** Backend.GetCircuitState; the answer shouldCheck is !Denied(b, interval). */
  function Query(w: Width, b: Breaker, interval: int): Breaker {
    match b.state
    case Closed => b
    case HalfOpen => b.(failures := b.failures - 1)
    case Open =>
      if Denied(b, interval) then b.(resetTimeout := Fit(w, b.resetTimeout - interval))
      else b.(state := HalfOpen, failures := b.failures - 1)
  }

  // ----- Runs -----

  datatype Event = Reported(healthy: bool, interval: int) | Queried(interval: int)

  function Step(w: Width, b: Breaker, e: Event): Breaker {
    match e
    case Reported(healthy, interval) => Report(w, b, healthy, interval)
    case Queried(interval) => Query(w, b, interval)
  }

  function Run(w: Width, b: Breaker, es: seq<Event>): Breaker {
    if es == [] then b else Step(w, Run(w, b, es[..|es| - 1]), es[|es| - 1])
  }

  lemma RunSnoc(w: Width, b: Breaker, es: seq<Event>, e: Event)
    ensures Run(w, b, es + [e]) == Step(w, Run(w, b, es), e)
  {
    assert (es + [e])[..|es|] == es;
  }

  lemma {:induction false} RunAppend(w: Width, b: Breaker, es: seq<Event>, fs: seq<Event>)
    ensures Run(w, b, es + fs) == Run(w, Run(w, b, es), fs)
    decreases |fs|
  {
    if fs == [] {
      assert es + fs == es;
    } else {
      var n := |fs| - 1;
      RunAppend(w, b, es, fs[..n]);
      assert es + fs == (es + fs[..n]) + [fs[n]];
      RunSnoc(w, b, es + fs[..n], fs[n]);
    }
  }

  /** The part of the invariant that survives any arithmetic. */
  predicate Sound(b: Breaker) {
    && (b.healthy <==> b.state.Closed? && b.failures == 0)
    && (b.state.Closed? ==> 0 <= b.failures < THRESHOLD && b.resetTimeout == 0 && b.backoff == 0)
    && (b.state.Open? ==> b.failures >= THRESHOLD)
  }

  /** The part that int64 overflow can break; BreakerTimers says exactly when. */
  predicate TimersSound(b: Breaker) {
    && b.resetTimeout >= 0
    && (!b.state.Closed? ==> b.backoff > 0)
  }

  predicate NonNegativeIntervals(es: seq<Event>) {
    forall i | 0 <= i < |es| :: es[i].interval >= 0
  }

  lemma StepKeepsSound(w: Width, b: Breaker, e: Event)
    requires Sound(b)
    ensures Sound(Step(w, b, e))
    ensures w.Exact? && TimersSound(b) && e.interval >= 0 ==> TimersSound(Step(w, b, e))
  {
  }

  /** Every interleaving of reports and queries, from any reporter, with any intervals. */
  lemma {:induction false} ReachableIsSound(w: Width, es: seq<Event>)
    ensures Sound(Run(w, FRESH, es))
    ensures w.Exact? && NonNegativeIntervals(es) ==> TimersSound(Run(w, FRESH, es))
  {
    if es != [] {
      var n := |es| - 1;
      ReachableIsSound(w, es[..n]);
      StepKeepsSound(w, Run(w, FRESH, es[..n]), es[n]);
    }
  }

  /** The last report was a success, or there was none. */
  predicate LastReportGood(es: seq<Event>) {
    es == [] || (if es[|es| - 1].Reported? then es[|es| - 1].healthy else LastReportGood(es[..|es| - 1]))
  }

  /** Over every run a backend is healthy exactly when the last word about it was good, and a success
      starts it over at once, whatever came before. */
  lemma {:induction false} HealthyIff(w: Width, es: seq<Event>)
    ensures Run(w, FRESH, es).healthy <==> LastReportGood(es)
    ensures es != [] && es[|es| - 1].Reported? && es[|es| - 1].healthy ==> Run(w, FRESH, es) == Breaker(true, 0, 0, 0, Closed)
    ensures es == [] ==> Run(w, FRESH, es) == Breaker(true, 0, 0, 0, Closed)
  {
    if es != [] {
      HealthyIff(w, es[..|es| - 1]);
    }
  }

  // ----- Denial budget of an open window -----

  function Queries(intervals: seq<int>): (es: seq<Event>)
    ensures |es| == |intervals|
  {
    seq(|intervals|, i requires 0 <= i < |intervals| => Queried(intervals[i]))
  }

  function Sum(xs: seq<int>): int {
    if xs == [] then 0 else Sum(xs[..|xs| - 1]) + xs[|xs| - 1]
  }

  /** Every query of the run was denied. */
  ghost predicate AllDenied(w: Width, b: Breaker, intervals: seq<int>) {
    intervals != [] ==>
      var n := |intervals| - 1;
      AllDenied(w, b, intervals[..n]) && Denied(Run(w, b, Queries(intervals[..n])), intervals[n])
  }

  lemma QueriesSnoc(w: Width, b: Breaker, intervals: seq<int>)
    requires intervals != []
    ensures var n := |intervals| - 1;
            Run(w, b, Queries(intervals)) == Query(w, Run(w, b, Queries(intervals[..n])), intervals[n])
  {
    var n := |intervals| - 1;
    assert Queries(intervals) == Queries(intervals[..n]) + [Queried(intervals[n])];
    RunSnoc(w, b, Queries(intervals[..n]), Queried(intervals[n]));
  }

  /** While every query is denied the breaker only counts down: the denied intervals and what
      is left of the countdown add up to the countdown the window started with. */
  lemma {:induction false} DenialBudget(w: Width, b: Breaker, intervals: seq<int>)
    requires b.state.Open? && 0 <= b.resetTimeout <= MAX_INT64
    requires forall i | 0 <= i < |intervals| :: intervals[i] >= 0
    requires AllDenied(w, b, intervals)
    ensures Run(w, b, Queries(intervals)) == b.(resetTimeout := b.resetTimeout - Sum(intervals))
    ensures 0 <= Sum(intervals) <= b.resetTimeout
  {
    if intervals != [] {
      var n := |intervals| - 1;
      DenialBudget(w, b, intervals[..n]);
      QueriesSnoc(w, b, intervals);
    }
  }

  /** The next query is denied exactly when it fits what the denied ones have left over. */
  lemma DeniedIffFits(w: Width, b: Breaker, intervals: seq<int>, next: int)
    requires b.state.Open? && 0 <= b.resetTimeout <= MAX_INT64
    requires forall i | 0 <= i < |intervals| :: intervals[i] >= 0
    requires AllDenied(w, b, intervals)
    ensures Denied(Run(w, b, Queries(intervals)), next) <==> Sum(intervals) + next <= b.resetTimeout
  {
    DenialBudget(w, b, intervals);
  }

  lemma {:induction false} SumAtLeast(xs: seq<int>, least: int)
    requires forall i | 0 <= i < |xs| :: xs[i] >= least
    ensures Sum(xs) >= |xs| * least
  {
    if xs != [] {
      SumAtLeast(xs[..|xs| - 1], least);
      assert |xs| * least == (|xs| - 1) * least + least;
    }
  }

  lemma {:induction false} OpenMeansAllDenied(w: Width, b: Breaker, intervals: seq<int>)
    requires b.state.Open?
    ensures var r := Run(w, b, Queries(intervals));
            !r.state.Closed? && (r.state.Open? ==> AllDenied(w, b, intervals))
  {
    if intervals != [] {
      var n := |intervals| - 1;
      OpenMeansAllDenied(w, b, intervals[..n]);
      QueriesSnoc(w, b, intervals);
    }
  }

  /** Any mix of callers: with intervals of at least `least`, the breaker has left Open after
      resetTimeout / least + 1 of their queries. */
  lemma OpenWindowEnds(w: Width, b: Breaker, intervals: seq<int>, least: int)
    requires b.state.Open? && 0 <= b.resetTimeout <= MAX_INT64
    requires least > 0 && forall i | 0 <= i < |intervals| :: intervals[i] >= least
    requires |intervals| >= b.resetTimeout / least + 1
    ensures Run(w, b, Queries(intervals)).state.HalfOpen?
  {
    OpenMeansAllDenied(w, b, intervals);
    SumAtLeast(intervals, least);
    if AllDenied(w, b, intervals) {
      DenialBudget(w, b, intervals);
      QuotientIsLargest(|intervals|, least, b.resetTimeout);
    }
  }

  // ----- Half-open balance -----

  function Grants(es: seq<Event>): nat {
    if es == [] then 0 else Grants(es[..|es| - 1]) + if es[|es| - 1].Queried? then 1 else 0
  }

  function Failures(es: seq<Event>): nat {
    if es == [] then 0 else Failures(es[..|es| - 1]) + if es[|es| - 1].Reported? then 1 else 0
  }

  predicate NoSuccess(es: seq<Event>) {
    forall i | 0 <= i < |es| :: es[i].Reported? ==> !es[i].healthy
  }

  /** Trials granted take one off the failure count and failures put one back. */
  function Balance(start: int, es: seq<Event>): int {
    start - Grants(es) + Failures(es)
  }

  /** Half-open after every prefix of the run. */
  ghost predicate StaysHalfOpen(w: Width, b: Breaker, es: seq<Event>) {
    Run(w, b, es).state.HalfOpen? && (es == [] || StaysHalfOpen(w, b, es[..|es| - 1]))
  }

  /** No failure of the run brings the balance to the threshold. */
  ghost predicate FailuresStayBelow(start: int, es: seq<Event>) {
    es != [] ==>
      && FailuresStayBelow(start, es[..|es| - 1])
      && (es[|es| - 1].Reported? ==> Balance(start, es) < THRESHOLD)
  }

  /** Without a success, a half-open breaker's count is its balance, and it stays half-open until
      exactly the first failure that brings the balance to the threshold. */
  lemma {:induction false} HalfOpenBalance(w: Width, b: Breaker, es: seq<Event>)
    requires b.state.HalfOpen? && NoSuccess(es)
    ensures StaysHalfOpen(w, b, es) <==> FailuresStayBelow(b.failures, es)
    ensures StaysHalfOpen(w, b, es) ==> Run(w, b, es).failures == Balance(b.failures, es)
  {
    if es != [] {
      HalfOpenBalance(w, b, es[..|es| - 1]);
    }
  }

  /** Leaving Open with count F: the query that leaves counts as the first grant. */
  lemma OpenBalance(w: Width, b: Breaker, first: int, es: seq<Event>)
    requires b.state.Open? && !Denied(b, first) && NoSuccess(es)
    ensures var h := Query(w, b, first);
            && (StaysHalfOpen(w, h, es) <==> FailuresStayBelow(b.failures - 1, es))
            && (StaysHalfOpen(w, h, es) ==> Run(w, h, es).failures == b.failures - (1 + Grants(es)) + Failures(es))
  {
    HalfOpenBalance(w, Query(w, b, first), es);
  }

  // ----- Health ticks against a backend that never answers -----

  /** One tick of Health.Check for one backend: nothing but the query if it is denied, otherwise
      the query and the report of the probe. */
  function Tick(w: Width, b: Breaker, interval: int, probeOk: bool): Breaker {
    if Denied(b, interval) then Query(w, b, interval)
    else Report(w, Query(w, b, interval), probeOk, interval)
  }

  function FailingTick(w: Width, b: Breaker, interval: int): Breaker {
    Tick(w, b, interval, false)
  }

  function Ticks(w: Width, b: Breaker, interval: int, n: nat): Breaker {
    if n == 0 then b else FailingTick(w, Ticks(w, b, interval, n - 1), interval)
  }

  /** The countdown the k-th open window starts with. */
  function WindowCountdown(k: nat, interval: int): int
    requires k >= 1
  {
    if k == 1 then PENALTY + interval else PENALTY * Pow2(k - 2) + PENALTY + 2 * interval
  }

  /** The breaker as the k-th open window starts. */
  function WindowStart(k: nat, interval: int): Breaker
    requires k >= 1
  {
    Breaker(false, THRESHOLD, WindowCountdown(k, interval), PENALTY * Pow2(k - 1), Open)
  }

  function Skipped(k: nat, interval: int): (n: nat)
    requires k >= 1 && interval > 0
  {
    assert WindowCountdown(k, interval) >= 0;
    WindowCountdown(k, interval) / interval
  }

  /** The number of ticks before the k-th window opens. */
  function WindowTick(k: nat, interval: int): nat
    requires k >= 1 && interval > 0
  {
    if k == 1 then THRESHOLD else WindowTick(k - 1, interval) + Skipped(k - 1, interval) + 1
  }

  /** 32 doublings fit int64 nanoseconds, with any interval an int32 of seconds can express. */
  predicate InRange(w: Width, k: nat, interval: int) {
    w.Exact? || (k <= 32 && interval <= MAX_INT32 * SECOND)
  }

  lemma WindowFits(w: Width, k: nat, interval: int)
    requires k >= 1 && interval > 0 && w.Int64? && InRange(w, k, interval)
    ensures 0 <= WindowCountdown(k, interval) <= MAX_INT64
    ensures 0 <= PENALTY * Pow2(k - 1) <= MAX_INT64
  {
    Pow2Monotone(k - 1, 31);
    Pow2Values();
    if k >= 2 {
      Pow2Monotone(k - 2, 30);
      Pow2Values();
    }
  }

  lemma {:induction false} TicksAdd(w: Width, b: Breaker, interval: int, m: nat, n: nat)
    ensures Ticks(w, b, interval, m + n) == Ticks(w, Ticks(w, b, interval, m), interval, n)
  {
    if n > 0 {
      TicksAdd(w, b, interval, m, n - 1);
    }
  }

  /** A denied tick only takes its interval off the countdown. */
  lemma DeniedTick(w: Width, b: Breaker, interval: int)
    requires b.state.Open? && 0 < interval <= b.resetTimeout && (w.Exact? || b.resetTimeout <= MAX_INT64)
    ensures FailingTick(w, b, interval) == b.(resetTimeout := b.resetTimeout - interval)
  {
  }

  lemma OneMore(j: nat, interval: int)
    requires j > 0 && interval > 0
    ensures 0 <= (j - 1) * interval && j * interval == (j - 1) * interval + interval
  {
  }

  /** As long as the countdown lasts, tick by tick. */
  lemma {:induction false} CountsDown(w: Width, b: Breaker, interval: int, j: nat, total: int)
    requires b.state.Open? && interval > 0 && (w.Exact? || b.resetTimeout <= MAX_INT64)
    requires total == j * interval && total <= b.resetTimeout
    ensures Ticks(w, b, interval, j) == b.(resetTimeout := b.resetTimeout - total)
  {
    if j > 0 {
      OneMore(j, interval);
      CountsDown(w, b, interval, j - 1, total - interval);
      DeniedTick(w, b.(resetTimeout := b.resetTimeout - (total - interval)), interval);
    }
  }

  /** Inside a window, tick by tick. */
  lemma WindowCountsDown(w: Width, k: nat, interval: int, j: nat)
    requires k >= 1 && interval > 0 && InRange(w, k, interval)
    requires j <= Skipped(k, interval)
    ensures j * interval <= WindowCountdown(k, interval)
    ensures Ticks(w, WindowStart(k, interval), interval, j) ==
            WindowStart(k, interval).(resetTimeout := WindowCountdown(k, interval) - j * interval)
  {
    var r := WindowCountdown(k, interval);
    assert j * interval <= r by {
      QuotientIsLargest(j, interval, r);
    }
    assert w.Exact? || r <= MAX_INT64 by {
      if w.Int64? {
        WindowFits(w, k, interval);
      }
    }
    CountsDown(w, WindowStart(k, interval), interval, j, j * interval);
  }

  lemma ExpiredTickReopens(w: Width, b: Breaker, interval: int)
    requires b.state.Open? && b.failures == THRESHOLD && b.backoff != 0 && b.resetTimeout < interval
    ensures FailingTick(w, b, interval) ==
            Breaker(false, THRESHOLD, Fit(w, b.backoff + PENALTY + interval * 2), Fit(w, b.backoff * 2), Open)
  {
  }

  lemma Doubling(k: nat)
    requires k >= 1
    ensures (PENALTY * Pow2(k - 1)) * 2 == PENALTY * Pow2(k)
  {
  }

  lemma WindowRunsOut(w: Width, k: nat, interval: int, last: Breaker)
    requires k >= 1 && interval > 0 && InRange(w, k, interval)
    requires last == Ticks(w, WindowStart(k, interval), interval, Skipped(k, interval))
    ensures last == WindowStart(k, interval).(resetTimeout := last.resetTimeout)
    ensures last.resetTimeout < interval
  {
    WindowCountsDown(w, k, interval, Skipped(k, interval));
    Floor(WindowCountdown(k, interval), interval);
  }

  lemma NextWindow(w: Width, k: nat, interval: int)
    requires k >= 1 && interval > 0 && InRange(w, k + 1, interval)
    ensures var backoff := WindowStart(k, interval).backoff;
            && Fit(w, backoff + PENALTY + interval * 2) == WindowCountdown(k + 1, interval)
            && Fit(w, backoff * 2) == WindowStart(k + 1, interval).backoff
            && backoff > 0
  {
    Doubling(k);
    if w.Int64? {
      WindowFits(w, k + 1, interval);
    }
  }

  /** The tick after the skipped ones is granted, fails, and opens the next window. */
  lemma WindowReopens(w: Width, k: nat, interval: int)
    requires k >= 1 && interval > 0 && InRange(w, k + 1, interval)
    ensures Ticks(w, WindowStart(k, interval), interval, Skipped(k, interval) + 1) == WindowStart(k + 1, interval)
  {
    var last := Ticks(w, WindowStart(k, interval), interval, Skipped(k, interval));
    WindowRunsOut(w, k, interval, last);
    NextWindow(w, k, interval);
    ExpiredTickReopens(w, last, interval);
  }

  /** Tick t of a fresh breaker (counting from 0) is skipped. */
  predicate SkippedAt(w: Width, interval: int, t: nat) {
    Denied(Ticks(w, FRESH, interval, t), interval)
  }

  lemma WindowAfter(w: Width, k: nat, interval: int, t: nat, next: nat)
    requires k >= 1 && interval > 0 && InRange(w, k + 1, interval)
    requires Ticks(w, FRESH, interval, t) == WindowStart(k, interval) && next == t + Skipped(k, interval) + 1
    ensures Ticks(w, FRESH, interval, next) == WindowStart(k + 1, interval)
  {
    WindowReopens(w, k, interval);
    TicksAdd(w, FRESH, interval, t, Skipped(k, interval) + 1);
  }

  lemma FirstWindow(w: Width, interval: int)
    requires interval > 0 && InRange(w, 1, interval)
    ensures Ticks(w, FRESH, interval, THRESHOLD) == WindowStart(1, interval)
  {
    FourTicks(w, interval);
    if w.Int64? {
      WindowFits(w, 1, interval);
    }
  }

  lemma WindowTickNext(k: nat, interval: int)
    requires k >= 1 && interval > 0
    ensures WindowTick(k + 1, interval) == WindowTick(k, interval) + Skipped(k, interval) + 1
  {
  }

  lemma {:induction false} WindowStarts(w: Width, k: nat, interval: int)
    requires k >= 1 && interval > 0 && InRange(w, k, interval)
    ensures Ticks(w, FRESH, interval, WindowTick(k, interval)) == WindowStart(k, interval)
  {
    if k == 1 {
      FirstWindow(w, interval);
    } else {
      var j := k - 1;
      WindowStarts(w, j, interval);
      assert WindowTick(k, interval) == WindowTick(j, interval) + Skipped(j, interval) + 1 by {
        WindowTickNext(j, interval);
      }
      WindowAfter(w, j, interval, WindowTick(j, interval), WindowTick(k, interval));
    }
  }

  lemma FourTicks(w: Width, interval: int)
    ensures Ticks(w, FRESH, interval, 4) == Breaker(false, 4, 0, 0, Closed)
  {
    assert Ticks(w, FRESH, interval, 1) == Breaker(false, 1, 0, 0, Closed);
    assert Ticks(w, FRESH, interval, 2) == Breaker(false, 2, 0, 0, Closed);
    assert Ticks(w, FRESH, interval, 3) == Breaker(false, 3, 0, 0, Closed);
  }

  /** On tick-only runs with every probe failing, the k-th open window starts at tick
      WindowTick(k), skips exactly floor(R_k / interval) ticks, and then grants one. */
  lemma FailingTickSchedule(w: Width, k: nat, interval: int)
    requires k >= 1 && interval > 0 && InRange(w, k, interval)
    ensures var b := Ticks(w, FRESH, interval, WindowTick(k, interval));
            && b.state.Open? && !b.healthy && b.failures == 5 && b.backoff == 3_000_000_000 * Pow2(k - 1)
            && b.resetTimeout == (if k == 1 then 3_000_000_000 + interval
                                  else 3_000_000_000 * Pow2(k - 2) + 3_000_000_000 + 2 * interval)
            && Skipped(k, interval) == b.resetTimeout / interval
    ensures WindowTick(1, interval) == 5
    ensures var t0 := WindowTick(k, interval);
            && (forall t | t0 <= t < t0 + Skipped(k, interval) :: SkippedAt(w, interval, t))
            && !SkippedAt(w, interval, t0 + Skipped(k, interval))
  {
    WindowStarts(w, k, interval);
    var t0 := WindowTick(k, interval);
    forall t | t0 <= t <= t0 + Skipped(k, interval)
      ensures SkippedAt(w, interval, t) <==> t < t0 + Skipped(k, interval)
    {
      WindowTickSkips(w, k, interval, t - t0);
    }
  }

  lemma WindowTickSkips(w: Width, k: nat, interval: int, j: nat)
    requires k >= 1 && interval > 0 && InRange(w, k, interval)
    requires j <= Skipped(k, interval)
    ensures SkippedAt(w, interval, WindowTick(k, interval) + j) <==> j < Skipped(k, interval)
  {
    var t0, start, r := WindowTick(k, interval), WindowStart(k, interval), WindowCountdown(k, interval);
    var b := Ticks(w, start, interval, j);
    assert Ticks(w, FRESH, interval, t0 + j) == b by {
      WindowStarts(w, k, interval);
      TicksAdd(w, FRESH, interval, t0, j);
    }
    assert b.state.Open? && b.resetTimeout == r - j * interval by {
      WindowCountsDown(w, k, interval, j);
    }
    assert Denied(b, interval) <==> j < r / interval by {
      CountdownDenies(r, interval, j);
    }
  }

  lemma CountdownDenies(r: int, interval: int, j: nat)
    requires interval > 0
    ensures r - j * interval >= interval <==> j < r / interval
  {
    QuotientIsLargest(j + 1, interval, r);
    assert (j + 1) * interval == j * interval + interval;
  }
}
