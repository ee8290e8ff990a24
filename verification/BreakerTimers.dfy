/** The breaker's timers in int64: over every run of reports and queries, what the backoff is, and
    exactly when countdown and backoff stay sound. */
module BreakerTimers {
  import opened MachineInts
  import opened CircuitBreaker

  /** A failure report that lands at the threshold or above. */
  predicate Lands(b: Breaker, e: Event) {
    e.Reported? && !e.healthy && b.failures + 1 >= THRESHOLD
  }

  /** How many have landed since the last success. */
  function Counted(w: Width, es: seq<Event>): nat {
    if es == [] then 0
    else
      var before, e := es[..|es| - 1], es[|es| - 1];
      if e.Reported? && e.healthy then 0
      else Counted(w, before) + if Lands(Run(w, FRESH, before), e) then 1 else 0
  }

  /** No prefix counts more than 32. */
  ghost predicate AtMost32(w: Width, es: seq<Event>) {
    Counted(w, es) <= 32 && (es != [] ==> AtMost32(w, es[..|es| - 1]))
  }

  // ----- The backoff -----

  function BackoffFor(c: nat): int {
    if c == 0 then 0 else PENALTY * Pow2(c - 1)
  }

  lemma BackoffDoubles(c: nat)
    ensures BackoffFor(c + 1) == if BackoffFor(c) != 0 then BackoffFor(c) * 2 else PENALTY
  {
    if c > 0 {
      Doubling(c);
    }
  }

  lemma BackoffFits(c: nat)
    requires c <= 32
    ensures 0 <= BackoffFor(c) <= PENALTY * 0x8000_0000 <= MAX_INT64
  {
    if c > 0 {
      Pow2Monotone(c - 1, 31);
    }
    Pow2Values();
  }

  /** Over every mix of reports and queries the backoff is 3s doubled by every report that landed
      after the first: always in unbounded arithmetic, and in int64 while no prefix counts more
      than 32. */
  lemma {:induction false} BackoffIs(w: Width, es: seq<Event>)
    requires w.Exact? || AtMost32(w, es)
    ensures Run(w, FRESH, es).backoff == BackoffFor(Counted(w, es))
    ensures Counted(w, es) > 0 ==> Run(w, FRESH, es).backoff == 3_000_000_000 * Pow2(Counted(w, es) - 1)
  {
    if es != [] {
      var before := es[..|es| - 1];
      BackoffIs(w, before);
      BackoffDoubles(Counted(w, before));
      if w.Int64? {
        BackoffFits(Counted(w, es));
      }
    }
  }

  lemma LastThatFits()
    ensures BackoffFor(32) == PENALTY * 0x8000_0000
  {
    Pow2Values();
  }

  lemma DoubledOnceMore(b: Breaker, e: Event)
    requires Lands(b, e) && b.backoff == PENALTY * 0x8000_0000
    ensures Step(Int64, b, e).state.Open?
    ensures Step(Int64, b, e).backoff == PENALTY * 0x1_0000_0000 - 0x1_0000_0000_0000_0000 < 0
  {
  }

  /** The 33rd makes it negative. */
  lemma BackoffWraps(es: seq<Event>)
    requires es != [] && AtMost32(Int64, es[..|es| - 1]) && Counted(Int64, es) == 33
    ensures var b := Run(Int64, FRESH, es);
            b.state.Open? && b.backoff == PENALTY * 0x1_0000_0000 - 0x1_0000_0000_0000_0000 < 0
  {
    BackoffIs(Int64, es[..|es| - 1]);
    LastThatFits();
    DoubledOnceMore(Run(Int64, FRESH, es[..|es| - 1]), es[|es| - 1]);
  }

  // ----- Exactly when the timers stay sound -----

  /** Intervals that a config's int32 of seconds can express; the balancer's ten seconds are one. */
  predicate Expressible(es: seq<Event>) {
    forall i | 0 <= i < |es| :: 0 <= es[i].interval <= MAX_INT32 * SECOND
  }

  /** The timers are sound after every prefix of the run the code makes. */
  ghost predicate StaySound(es: seq<Event>) {
    TimersSound(Run(Int64, FRESH, es)) && (es != [] ==> StaySound(es[..|es| - 1]))
  }

  /** No prefix counts more than 32, and the countdown the design has in mind fits int64. */
  ghost predicate Fits(es: seq<Event>) {
    && Counted(Exact, es) <= 32 && Run(Exact, FRESH, es).resetTimeout <= MAX_INT64
    && (es != [] ==> Fits(es[..|es| - 1]))
  }

  lemma StepAgrees(b: Breaker, e: Event)
    requires var r := Step(Exact, b, e);
             MIN_INT64 <= r.resetTimeout <= MAX_INT64 && MIN_INT64 <= r.backoff <= MAX_INT64
    ensures Step(Int64, b, e) == Step(Exact, b, e)
  {
  }

  lemma BeforeLast(es: seq<Event>)
    requires es != [] && Expressible(es)
    ensures Expressible(es[..|es| - 1]) && 0 <= es[|es| - 1].interval <= MAX_INT32 * SECOND
  {
  }

  lemma ExactIsSound(es: seq<Event>)
    requires Expressible(es)
    ensures Sound(Run(Exact, FRESH, es)) && TimersSound(Run(Exact, FRESH, es))
    ensures Run(Exact, FRESH, es).backoff == BackoffFor(Counted(Exact, es))
  {
    ReachableIsSound(Exact, es);
    BackoffIs(Exact, es);
  }

  /** As long as it fits, the code's run is the design's. */
  lemma {:induction false} Int64IsExact(es: seq<Event>)
    requires Expressible(es) && Fits(es)
    ensures Run(Int64, FRESH, es) == Run(Exact, FRESH, es)
  {
    if es != [] {
      var n := |es| - 1;
      BeforeLast(es);
      Int64IsExact(es[..n]);
      ExactIsSound(es);
      BackoffFits(Counted(Exact, es));
      StepAgrees(Run(Exact, FRESH, es[..n]), es[n]);
    }
  }

  /** The first step that does not fit leaves a timer below zero. */
  lemma OverflowShows(b: Breaker, e: Event, c: nat)
    requires Sound(b) && TimersSound(b) && b.resetTimeout <= MAX_INT64
    requires c <= 32 && b.backoff == BackoffFor(c) && 0 <= e.interval <= MAX_INT32 * SECOND
    requires (Lands(b, e) && c == 32) || Step(Exact, b, e).resetTimeout > MAX_INT64
    ensures !TimersSound(Step(Int64, b, e))
  {
    BackoffFits(c);
    if Lands(b, e) && c == 32 {
      LastThatFits();
      DoubledOnceMore(b, e);
    }
  }

  lemma {:induction false} SoundMeansFits(es: seq<Event>)
    requires Expressible(es) && StaySound(es)
    ensures Fits(es)
  {
    if es != [] {
      var n := |es| - 1;
      BeforeLast(es);
      SoundMeansFits(es[..n]);
      Int64IsExact(es[..n]);
      ExactIsSound(es[..n]);
      var b := Run(Exact, FRESH, es[..n]);
      if Counted(Exact, es) > 32 || Step(Exact, b, es[n]).resetTimeout > MAX_INT64 {
        OverflowShows(b, es[n], Counted(Exact, es[..n]));
      }
    }
  }

  lemma {:induction false} FitsMeansSound(es: seq<Event>)
    requires Expressible(es) && Fits(es)
    ensures StaySound(es)
  {
    Int64IsExact(es);
    ExactIsSound(es);
    if es != [] {
      BeforeLast(es);
      FitsMeansSound(es[..|es| - 1]);
    }
  }

  /** For every run with intervals a config can express: countdown and backoff are sound throughout
      in int64 if and only if no prefix counts more than 32 failures and the countdown fits, and then
      the run is the one unbounded arithmetic makes. */
  lemma TimersStaySoundIff(es: seq<Event>)
    requires Expressible(es)
    ensures StaySound(es) <==> Fits(es)
    ensures StaySound(es) ==> Run(Int64, FRESH, es) == Run(Exact, FRESH, es)
  {
    if StaySound(es) {
      SoundMeansFits(es);
      Int64IsExact(es);
    } else if Fits(es) {
      FitsMeansSound(es);
    }
  }

  // ----- Intervals of up to a year -----

  const YEAR: int := 365 * 86400 * SECOND

  predicate WithinYear(es: seq<Event>) {
    forall i | 0 <= i < |es| :: 0 <= es[i].interval <= YEAR
  }

  /** A countdown is at most the backoff and what the reports that landed put on top. */
  lemma {:induction false} CountdownBound(es: seq<Event>)
    requires WithinYear(es)
    ensures var b := Run(Exact, FRESH, es);
            b.resetTimeout <= b.backoff + Counted(Exact, es) * (PENALTY + 2 * YEAR)
  {
    if es != [] {
      var n := |es| - 1;
      CountdownBound(es[..n]);
      assert Expressible(es[..n]);
      ExactIsSound(es[..n]);
      CountdownStep(Run(Exact, FRESH, es[..n]), es[n], Counted(Exact, es[..n]));
    }
  }

  lemma CountdownStep(b: Breaker, e: Event, c: nat)
    requires TimersSound(b) && b.backoff >= 0 && 0 <= e.interval <= YEAR
    requires b.resetTimeout <= b.backoff + c * (PENALTY + 2 * YEAR)
    ensures var b' := Step(Exact, b, e);
            var c' := if e.Reported? && e.healthy then 0 else c + if Lands(b, e) then 1 else 0;
            b'.resetTimeout <= b'.backoff + c' * (PENALTY + 2 * YEAR)
  {
  }

  lemma {:induction false} YearFits(es: seq<Event>)
    requires WithinYear(es) && AtMost32(Exact, es)
    ensures Fits(es)
  {
    CountdownBound(es);
    assert Expressible(es);
    ExactIsSound(es);
    BackoffFits(Counted(Exact, es));
    if es != [] {
      YearFits(es[..|es| - 1]);
    }
  }

  lemma {:induction false} FitsCounts(es: seq<Event>)
    requires Fits(es)
    ensures AtMost32(Exact, es)
  {
    if es != [] {
      FitsCounts(es[..|es| - 1]);
    }
  }

  /** With intervals of up to a year the count alone decides: the timers stay sound if and only if
      no prefix counts more than 32 failures since the last success. */
  lemma TimersStaySoundIffAtMost32(es: seq<Event>)
    requires WithinYear(es)
    ensures StaySound(es) <==> AtMost32(Exact, es)
  {
    assert Expressible(es);
    TimersStaySoundIff(es);
    if AtMost32(Exact, es) {
      YearFits(es);
    } else if Fits(es) {
      FitsCounts(es);
    }
  }

  // ----- A burst of failure reports -----

  function Reports(interval: int, n: nat): (es: seq<Event>)
    ensures |es| == n && forall i | 0 <= i < n :: es[i] == Reported(false, interval)
  {
    seq(n, i => Reported(false, interval))
  }

  function Burst(w: Width, interval: int, n: nat): Breaker {
    Run(w, FRESH, Reports(interval, n))
  }

  lemma {:induction false} BurstCounts(w: Width, interval: int, n: nat)
    ensures Burst(w, interval, n).failures == n && Burst(w, interval, n).state == if n < THRESHOLD then Closed else Open
    ensures Counted(w, Reports(interval, n)) == if n < THRESHOLD then 0 else n - THRESHOLD + 1
    ensures n <= 36 ==> AtMost32(w, Reports(interval, n))
  {
    if n > 0 {
      BurstCounts(w, interval, n - 1);
      assert Reports(interval, n)[..n - 1] == Reports(interval, n - 1);
    }
  }

  /** In int64 a burst's backoff is right for exactly the first 32 reports that land. */
  lemma BackoffExactIff(interval: int, k: nat)
    requires k >= 1
    ensures Burst(Int64, interval, THRESHOLD - 1 + k).backoff == Burst(Exact, interval, THRESHOLD - 1 + k).backoff
            <==> k <= 32
  {
    var n := THRESHOLD - 1 + k;
    BurstCounts(Exact, interval, n);
    BackoffIs(Exact, Reports(interval, n));
    if k <= 32 {
      BurstCounts(Int64, interval, n);
      BackoffIs(Int64, Reports(interval, n));
    } else {
      BackoffIsInt64(Reports(interval, n));
      Pow2Monotone(32, k - 1);
      Pow2Values();
    }
  }

  lemma {:induction false} BackoffIsInt64(es: seq<Event>)
    ensures MIN_INT64 <= Run(Int64, FRESH, es).backoff <= MAX_INT64
  {
    if es != [] {
      BackoffIsInt64(es[..|es| - 1]);
    }
  }

  /** The count is not enough for longer intervals: the longest one a config can express overflows
      the countdown at the fifth report that lands, and then no query is denied. */
  lemma LongIntervalOverflows()
    ensures var b := Burst(Int64, MAX_INT32 * SECOND, 9);
            b.state.Open? && b.resetTimeout < 0 && forall q | q >= 0 :: !Denied(b, q)
  {
    var i := MAX_INT32 * SECOND;
    BurstCounts(Int64, i, 4);
    ReachableIsSound(Int64, Reports(i, 4));
    for n := 4 to 8
      invariant Burst(Int64, i, n).resetTimeout == (n - 4) * (PENALTY + i)
    {
      BurstAddsUp(i, n);
    }
    BurstAddsUp(i, 8);
  }

  lemma BurstAddsUp(interval: int, n: nat)
    requires n >= 4
    ensures Burst(Int64, interval, n + 1).resetTimeout == WrapInt64(Burst(Int64, interval, n).resetTimeout + PENALTY + interval)
    ensures Burst(Int64, interval, n + 1).state.Open?
  {
    BurstCounts(Int64, interval, n);
    assert Reports(interval, n + 1)[..n] == Reports(interval, n);
  }

  // ----- What an overflow does -----

  /** Queries at one interval lead an open breaker to half-open, with one failure less. */
  lemma LeaveOpen(w: Width, b: Breaker, interval: int) returns (qs: seq<int>)
    requires b.state.Open? && b.resetTimeout <= MAX_INT64 && 0 < interval <= MAX_INT64
    ensures forall i | 0 <= i < |qs| :: qs[i] == interval
    ensures var h := Run(w, b, Queries(qs));
            h == b.(state := HalfOpen, failures := b.failures - 1, resetTimeout := h.resetTimeout)
  {
    qs := [];
    var now := b;
    while now.resetTimeout >= interval
      invariant forall i | 0 <= i < |qs| :: qs[i] == interval
      invariant now == Run(w, b, Queries(qs)) && now == b.(resetTimeout := now.resetTimeout)
      invariant now.resetTimeout <= MAX_INT64
      decreases now.resetTimeout
    {
      now := Query(w, now, interval);
      QueriesSnoc(w, b, qs + [interval]);
      assert (qs + [interval])[..|qs|] == qs;
      qs := qs + [interval];
    }
    QueriesSnoc(w, b, qs + [interval]);
    assert (qs + [interval])[..|qs|] == qs;
    qs := qs + [interval];
  }

  /** 37 failures in flight at once are enough: the backoff is negative and, once the balancer's own
      queries have brought the breaker to its next trial and that fails, the window it opens denies no
      query at all. */
  lemma OverflowDisablesTheBreaker(interval: int) returns (qs: seq<int>)
    requires 0 <= interval <= MAX_INT32 * SECOND
    ensures forall i | 0 <= i < |qs| :: qs[i] == BALANCER_INTERVAL
    ensures var b := Run(Int64, FRESH, Reports(interval, 37) + Queries(qs) + [Reported(false, interval)]);
            b.state.Open? && forall q | q >= 0 :: !Denied(b, q)
  {
    var es := Reports(interval, 37);
    BurstCounts(Int64, interval, 36);
    BurstCounts(Int64, interval, 37);
    assert es[..36] == Reports(interval, 36);
    BackoffWraps(es);
    CountdownIsInt64(es);
    var b := Run(Int64, FRESH, es);
    qs := LeaveOpen(Int64, b, BALANCER_INTERVAL);
    RunAppend(Int64, FRESH, es, Queries(qs));
    RunSnoc(Int64, FRESH, es + Queries(qs), Reported(false, interval));
  }

  lemma {:induction false} CountdownIsInt64(es: seq<Event>)
    requires NonNegativeIntervals(es)
    ensures MIN_INT64 <= Run(Int64, FRESH, es).resetTimeout <= MAX_INT64
  {
    if es != [] {
      CountdownIsInt64(es[..|es| - 1]);
    }
  }
}
