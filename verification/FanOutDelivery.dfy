/** What reaches a subscriber of controlplane/cmd/server.go: the channel holds the newest versions
    without a gap, and a drained subscriber has the current config, exactly when its channel was
    still in the subscriber map at the last publish. */
module FanOutDelivery {
  import opened FanOut
  import opened Runs

  /** The subscriber map leads to this stream's channel. */
  predicate Registered(st: State, s: StreamId)
    requires s in st.streams
  {
    var p := st.streams[s].proxy;
    p in st.subs && st.subs[p] == s
  }

  /** The versions up to hi, one after the other. */
  predicate Contiguous(queue: seq<Version>, hi: Version) {
    forall i | 0 <= i < |queue| :: queue[i] == hi - |queue| + 1 + i
  }

  /** UpdateConfig has discarded an entry of this channel and not yet sent. */
  predicate Emptied(st: State, s: StreamId)
    requires s in st.streams
  {
    st.pub.Forcing? && st.pub.p == st.streams[s].proxy && Registered(st, s)
  }

  /** Nothing given to the subscriber has vanished: every version since its snapshot was taken,
      discarded by the publisher, or is still queued, and only in one of these ways. */
  predicate Accounted(x: Stream) {
    && x.taken != []
    && |x.taken| + |x.dropped| + |x.queue| == x.given - x.taken[0] + 1
    && forall v: Version | x.taken[0] <= v <= x.given :: v in x.taken || v in x.dropped || v in x.queue
  }

  predicate Tight(x: Stream, emptied: bool) {
    && Accounted(x) && Contiguous(x.queue, x.given)
    && (x.queue == [] && !emptied ==> x.taken[|x.taken| - 1] == x.given)
  }

  predicate StreamTight(st: State, s: StreamId)
    requires s in st.streams
  {
    var x := st.streams[s];
    && (x.phase.Requested? ==> x.dropped == [])
    && (Live(x) ==> Tight(x, Emptied(st, s)))
    && (Live(x) && Registered(st, s) ==> x.given == Horizon(st, s))
  }

  ghost predicate DeliveryOk(st: State) {
    forall s | s in st.streams :: StreamTight(st, s)
  }

  // ----- Kept by every step, whatever ids the proxies use -----

  lemma PushTight(x: Stream, v: Version)
    requires Tight(x, true) && v == x.given + 1
    ensures Tight(x.(queue := x.queue + [v], given := v), false)
  {
  }

  lemma DropTight(x: Stream)
    requires Tight(x, false) && x.queue != []
    ensures Tight(x.(queue := x.queue[1..], dropped := x.dropped + [x.queue[0]]), true)
  {
    assert x.queue == [x.queue[0]] + x.queue[1..];
  }

  lemma TakeTight(x: Stream, emptied: bool)
    requires Tight(x, emptied) && x.queue != []
    ensures Tight(x.(phase := Sending(x.queue[0]), queue := x.queue[1..], taken := x.taken + [x.queue[0]]), emptied)
  {
    assert x.queue == [x.queue[0]] + x.queue[1..];
  }

  /** What Tight looks at has not changed. */
  predicate SameContents(x: Stream, y: Stream) {
    x.taken == y.taken && x.dropped == y.dropped && x.queue == y.queue && x.given == y.given
  }

  lemma SameTight(x: Stream, y: Stream, emptied: bool)
    requires SameContents(x, y)
    ensures Tight(x, emptied) ==> Tight(y, emptied)
  {
  }

  lemma PushKeepsDelivery(st: State, p: ProxyId, s: StreamId)
    requires ServerOk(st) && s in st.streams && StreamTight(st, s)
    requires !st.pub.Idle? && p in st.pub.todo && HasChannel(st, p) && !Channel(st, p).closed
    requires st.pub.Forcing? ==> st.pub.p == p
    ensures StreamTight(Push(st, p, st.pub.todo), s)
  {
    OneStream(st, s);
    if s == st.subs[p] {
      PushTight(st.streams[s], st.version);
    }
  }

  lemma PublisherKeepsDelivery(st: State, step: Step, ok: Version -> bool, s: StreamId)
    requires ServerOk(st) && Enabled(st, step) && PublisherStep(step) && s in st.streams && StreamTight(st, s)
    ensures s in Apply(st, step, ok).streams && StreamTight(Apply(st, step, ok), s)
  {
    match step
    case TrySend(p) =>
      OneStream(st, st.subs[p]);
      if |Channel(st, p).queue| < CAPACITY {
        PushKeepsDelivery(st, p, s);
      }
    case DropOldest => DropKeepsDelivery(st, ok, s);
    case ForceSend =>
      OneStream(st, st.subs[st.pub.p]);
      PushKeepsDelivery(st, st.pub.p, s);
    case _ =>
  }

  lemma DropShape(st: State, ok: Version -> bool)
    requires Enabled(st, DropOldest)
    ensures var st', s := Apply(st, DropOldest, ok), st.subs[st.pub.p];
            var x := st.streams[s];
            && st'.subs == st.subs && st'.version == st.version && st'.pub == Forcing(st.pub.todo, st.pub.p)
            && st'.streams == if x.queue == [] then st.streams
                              else st.streams[s := x.(queue := x.queue[1..], dropped := x.dropped + [x.queue[0]])]
  {
  }

  lemma DropKeepsDelivery(st: State, ok: Version -> bool, s: StreamId)
    requires ServerOk(st) && Enabled(st, DropOldest) && s in st.streams && StreamTight(st, s)
    ensures s in Apply(st, DropOldest, ok).streams && StreamTight(Apply(st, DropOldest, ok), s)
  {
    var x, st' := st.streams[s], Apply(st, DropOldest, ok);
    DropShape(st, ok);
    if s == st.subs[st.pub.p] && x.queue != [] {
      DropTight(x);
    } else {
      SameTight(x, st'.streams[s], Emptied(st', s));
    }
  }

  lemma RegisterKeepsDelivery(st: State, r: StreamId, ok: Version -> bool, s: StreamId)
    requires ServerOk(st) && Enabled(st, Register(r)) && s in st.streams && StreamTight(st, s)
    ensures s in Apply(st, Register(r), ok).streams && StreamTight(Apply(st, Register(r), ok), s)
  {
    if s == r {
      OneStream(st, s);
      SnapshotTight(st.streams[s], st.version);
    } else {
      SameTight(st.streams[s], Apply(st, Register(r), ok).streams[s], false);
    }
  }

  lemma SnapshotTight(x: Stream, v: Version)
    requires x.queue == [] && x.dropped == []
    ensures Tight(x.(phase := Sending(v), taken := [v], given := v), false)
  {
  }

  lemma TakeKeepsDelivery(st: State, ok: Version -> bool, s: StreamId)
    requires Enabled(st, Take(s)) && StreamTight(st, s)
    ensures StreamTight(Apply(st, Take(s), ok), s)
  {
    TakeTight(st.streams[s], Emptied(st, s));
  }

  /** A step that leaves version, publisher and this channel alone, and perhaps unregisters it. */
  lemma QuietKeepsDelivery(st: State, st': State, s: StreamId)
    requires s in st.streams && s in st'.streams && StreamTight(st, s)
    requires st'.version == st.version && st'.pub == st.pub
    requires st'.subs == st.subs || (st.pub.Idle? && forall p | p in st'.subs :: p in st.subs && st'.subs[p] == st.subs[p])
    requires var x, x' := st.streams[s], st'.streams[s];
             && SameContents(x, x') && x'.proxy == x.proxy
             && (x'.phase.Requested? ==> x.phase.Requested?) && (Live(x') ==> Live(x))
    ensures StreamTight(st', s)
  {
    SameTight(st.streams[s], st'.streams[s], Emptied(st', s));
  }

  lemma OthersKeepDelivery(st: State, step: Step, ok: Version -> bool, s: StreamId)
    requires ServerOk(st) && Enabled(st, step) && !PublisherStep(step) && s in st.streams && StreamTight(st, s)
    ensures s in Apply(st, step, ok).streams && StreamTight(Apply(st, step, ok), s)
  {
    if step.Register? {
      RegisterKeepsDelivery(st, step.s, ok, s);
    } else if step == Take(s) {
      TakeKeepsDelivery(st, ok, s);
    } else {
      OneStream(st, s);
      QuietKeepsDelivery(st, Apply(st, step, ok), s);
    }
  }

  lemma StepKeepsDelivery(st: State, step: Step, ok: Version -> bool)
    requires ServerOk(st) && DeliveryOk(st) && Enabled(st, step)
    ensures DeliveryOk(Apply(st, step, ok))
  {
    var st' := Apply(st, step, ok);
    forall s | s in st'.streams
      ensures StreamTight(st', s)
    {
      if s in st.streams {
        if PublisherStep(step) {
          PublisherKeepsDelivery(st, step, ok, s);
        } else {
          OthersKeepDelivery(st, step, ok, s);
        }
      }
    }
  }

  lemma {:induction false} EveryStateDelivers(states: seq<State>, steps: seq<Step>, ok: Version -> bool, n: nat)
    requires IsRun(states, steps, ok) && n < |states|
    ensures ServerOk(states[n]) && DeliveryOk(states[n])
  {
    EveryStateIsOk(states, steps, ok, n);
    if n > 0 {
      EveryStateDelivers(states, steps, ok, n - 1);
      assert StepAt(states, steps, ok, n - 1);
      StepKeepsDelivery(states[n - 1], steps[n - 1], ok);
    }
  }

  // ----- What a step can change -----

  lemma OnlyTheseChangeTheMap(st: State, step: Step, ok: Version -> bool)
    requires Enabled(st, step) && !step.Register? && !step.Cleanup?
    ensures Apply(st, step, ok).subs == st.subs
  {
  }

  lemma StreamGoesOn(st: State, step: Step, ok: Version -> bool, s: StreamId)
    requires Enabled(st, step) && s in st.streams
    ensures var st' := Apply(st, step, ok);
            && s in st'.streams && st'.streams[s].proxy == st.streams[s].proxy
            && (!st.streams[s].phase.Requested? ==> !st'.streams[s].phase.Requested?)
            && (Live(st'.streams[s]) ==> Live(st.streams[s]) || step == Register(s))
  {
  }

  lemma OnlyPushesAreGiven(st: State, step: Step, ok: Version -> bool, s: StreamId)
    requires Enabled(st, step) && s in st.streams
    requires !step.TrySend? && !step.ForceSend? && step != Register(s)
    ensures s in Apply(st, step, ok).streams && Apply(st, step, ok).streams[s].given == st.streams[s].given
  {
  }

  lemma PushIsGiven(st: State, p: ProxyId, s: StreamId)
    requires ServerOk(st) && HasChannel(st, p) && !st.pub.Idle? && s in st.streams
    requires st.subs[p] in st.streams && !Channel(st, p).closed
    ensures var st' := Push(st, p, st.pub.todo);
            && s in st'.streams && st'.streams[s].proxy == st.streams[s].proxy && st'.version == st.version && st'.subs == st.subs
            && st'.streams[s].given == (if s == st.subs[p] then st.version else st.streams[s].given)
            && st'.pub == Choosing(st.pub.todo - {p})
  {
  }

  // ----- What a registered subscriber has -----

  /** Everything it has got or will get from the channel as it stands, oldest first. */
  function Owed(x: Stream): seq<Version> {
    x.taken + x.queue
  }

  lemma OwedIncreases(x: Stream)
    requires Ordered(x)
    ensures Increasing(Owed(x))
  {
    assert x.taken != [] ==> forall i | 0 <= i < |x.taken| :: x.taken[i] <= x.taken[|x.taken| - 1];
    assert x.queue != [] ==> forall i | 0 <= i < |x.queue| :: x.queue[0] <= x.queue[i];
  }

  lemma LastOwed(x: Stream)
    requires Tight(x, false)
    ensures Owed(x) != [] && Owed(x)[|Owed(x)| - 1] == x.given
  {
  }

  /** In every run, between publishes: the queue of a subscriber in the map is the block of at most
      ten versions ending at the current one, it continues what was taken, nothing is unaccounted
      for, and once it is empty the last config taken is the current one. */
  lemma QueueIsTheNewestBlock(states: seq<State>, steps: seq<Step>, ok: Version -> bool, n: nat, s: StreamId)
    requires IsRun(states, steps, ok) && n < |states| && states[n].pub.Idle?
    requires s in states[n].streams && Registered(states[n], s)
    ensures var x := states[n].streams[s];
            && |x.queue| <= 10 && Contiguous(x.queue, states[n].version) && Increasing(Owed(x))
            && Accounted(x) && x.given == states[n].version
            && (x.queue == [] ==> x.taken[|x.taken| - 1] == states[n].version)
  {
    EveryStateDelivers(states, steps, ok, n);
    OneStream(states[n], s);
    assert StreamTight(states[n], s);
    OwedIncreases(states[n].streams[s]);
  }

  // ----- At most one live stream per proxy id: every live stream is in the map -----

  ghost predicate OneLivePerId(st: State) {
    forall s, t | s in st.streams && t in st.streams && Live(st.streams[s]) && Live(st.streams[t])
                  && st.streams[s].proxy == st.streams[t].proxy :: s == t
  }

  ghost predicate LiveAreRegistered(st: State) {
    forall s | s in st.streams && Live(st.streams[s]) :: Registered(st, s)
  }

  lemma StepKeepsRegistered(st: State, step: Step, ok: Version -> bool, s: StreamId)
    requires ServerOk(st) && Enabled(st, step) && LiveAreRegistered(st)
    requires OneLivePerId(st) && OneLivePerId(Apply(st, step, ok))
    requires s in Apply(st, step, ok).streams && Live(Apply(st, step, ok).streams[s])
    ensures Registered(Apply(st, step, ok), s)
  {
    if step.Cleanup? {
      CleanupKeepsRegistered(st, step.s, ok, s);
    } else if step.Register? {
      RegisterKeepsRegistered(st, step.s, ok, s);
    } else if s in st.streams {
      OnlyTheseChangeTheMap(st, step, ok);
      StreamGoesOn(st, step, ok, s);
    }
  }

  lemma RegisterKeepsRegistered(st: State, t: StreamId, ok: Version -> bool, s: StreamId)
    requires Enabled(st, Register(t)) && LiveAreRegistered(st) && OneLivePerId(Apply(st, Register(t), ok))
    requires s in Apply(st, Register(t), ok).streams && Live(Apply(st, Register(t), ok).streams[s])
    ensures Registered(Apply(st, Register(t), ok), s)
  {
    var st' := Apply(st, Register(t), ok);
    assert Live(st'.streams[t]);
  }

  lemma CleanupKeepsRegistered(st: State, t: StreamId, ok: Version -> bool, s: StreamId)
    requires ServerOk(st) && Enabled(st, Cleanup(t)) && LiveAreRegistered(st) && OneLivePerId(st)
    requires s in Apply(st, Cleanup(t), ok).streams && Live(Apply(st, Cleanup(t), ok).streams[s])
    ensures Registered(Apply(st, Cleanup(t), ok), s)
  {
    OneStream(st, t);
  }

  lemma {:induction false} LiveIsRegistered(states: seq<State>, steps: seq<Step>, ok: Version -> bool, n: nat)
    requires IsRun(states, steps, ok) && n < |states|
    requires forall i | 0 <= i <= n :: OneLivePerId(states[i])
    ensures LiveAreRegistered(states[n])
  {
    if n > 0 {
      LiveIsRegistered(states, steps, ok, n - 1);
      EveryStateIsOk(states, steps, ok, n - 1);
      forall s | s in states[n].streams && Live(states[n].streams[s])
        ensures Registered(states[n], s)
      {
        assert StepAt(states, steps, ok, n - 1);
        StepKeepsRegistered(states[n - 1], steps[n - 1], ok, s);
      }
    }
  }

  // ----- Exactly when a live subscriber has the last publish -----

  /** The publish under way or just over has reached the channel, or is about to. */
  predicate Reached(st: State, s: StreamId)
    requires s in st.streams
  {
    st.streams[s].given == st.version || Pending(st, s)
  }

  lemma ReachedStays(st: State, step: Step, ok: Version -> bool, s: StreamId)
    requires ServerOk(st) && Enabled(st, step) && !step.Publish?
    requires s in st.streams && !st.streams[s].phase.Requested? && Reached(st, s)
    ensures s in Apply(st, step, ok).streams && Reached(Apply(st, step, ok), s)
  {
    if step.TrySend? {
      OneStream(st, st.subs[step.p]);
      if |Channel(st, step.p).queue| < CAPACITY {
        PushIsGiven(st, step.p, s);
      }
    } else if step.ForceSend? {
      OneStream(st, st.subs[st.pub.p]);
      PushIsGiven(st, st.pub.p, s);
    } else {
      OnlyPushesAreGiven(st, step, ok, s);
      if !st.pub.Idle? {
        OnlyTheseChangeTheMap(st, step, ok);
        StreamGoesOn(st, step, ok, s);
      }
    }
  }

  /** A subscriber that has lost its entry never gets it back, and gets nothing more. */
  lemma OrphanStays(st: State, step: Step, ok: Version -> bool, s: StreamId)
    requires ServerOk(st) && Enabled(st, step)
    requires s in st.streams && !st.streams[s].phase.Requested? && !Registered(st, s)
    ensures var st' := Apply(st, step, ok);
            s in st'.streams && !Registered(st', s) && st'.streams[s].given == st.streams[s].given
  {
    StreamGoesOn(st, step, ok, s);
    if step.TrySend? {
      OneStream(st, st.subs[step.p]);
      if |Channel(st, step.p).queue| < CAPACITY {
        PushIsGiven(st, step.p, s);
      }
    } else if step.ForceSend? {
      OneStream(st, st.subs[st.pub.p]);
      PushIsGiven(st, st.pub.p, s);
    } else {
      OnlyPushesAreGiven(st, step, ok, s);
      if !step.Register? && !step.Cleanup? {
        OnlyTheseChangeTheMap(st, step, ok);
      }
    }
  }

  lemma OnlyPublishCounts(st: State, step: Step, ok: Version -> bool)
    requires Enabled(st, step)
    ensures Apply(st, step, ok).version == st.version + if step.Publish? then 1 else 0
  {
  }

  /** From the publish at k on, until the next one. */
  lemma {:induction false} AfterPublish(states: seq<State>, steps: seq<Step>, ok: Version -> bool, k: nat, j: nat, s: StreamId)
    requires IsRun(states, steps, ok) && k < j < |states| && steps[k] == Publish
    requires forall i | k < i < j :: steps[i] != Publish
    requires s in states[k].streams && Live(states[k].streams[s])
    ensures s in states[j].streams && !states[j].streams[s].phase.Requested? && states[j].version == states[k].version + 1
    ensures if Registered(states[k], s) then Reached(states[j], s)
            else !Registered(states[j], s) && states[j].streams[s].given == states[k].streams[s].given
  {
    if j > k + 1 {
      AfterPublish(states, steps, ok, k, j - 1, s);
      EveryStateIsOk(states, steps, ok, j - 1);
      assert StepAt(states, steps, ok, j - 1);
      StreamGoesOn(states[j - 1], steps[j - 1], ok, s);
      OnlyPublishCounts(states[j - 1], steps[j - 1], ok);
      if Registered(states[k], s) {
        ReachedStays(states[j - 1], steps[j - 1], ok, s);
      } else {
        OrphanStays(states[j - 1], steps[j - 1], ok, s);
      }
    } else {
      assert StepAt(states, steps, ok, k);
    }
  }

  /** In every run, repeated ids or not: between publishes a live subscriber has got or will get the
      current config if and only if the map led to its channel when that config was published. */
  lemma CurrentIffRegistered(states: seq<State>, steps: seq<Step>, ok: Version -> bool, k: nat, j: nat, s: StreamId)
    requires IsRun(states, steps, ok) && k < j < |states| && steps[k] == Publish
    requires forall i | k < i < j :: steps[i] != Publish
    requires s in states[k].streams && Live(states[k].streams[s])
    requires states[j].pub.Idle? && s in states[j].streams && Live(states[j].streams[s])
    ensures var owed := Owed(states[j].streams[s]);
            owed != [] && (owed[|owed| - 1] == states[j].version <==> Registered(states[k], s))
  {
    AfterPublish(states, steps, ok, k, j, s);
    EveryStateDelivers(states, steps, ok, j);
    EveryStateDelivers(states, steps, ok, k);
    assert StreamTight(states[j], s) && StreamTight(states[k], s);
    LastOwed(states[j].streams[s]);
    if !Registered(states[k], s) {
      OneStream(states[k], s);
      LastOwed(states[k].streams[s]);
    }
  }

  // ----- What is discarded, and when -----

  /** With room for it, which means fewer than ten queued, a publish adds its version at once and
      discards nothing. */
  lemma RoomForTen(states: seq<State>, steps: seq<Step>, ok: Version -> bool, n: nat, p: ProxyId)
    requires IsRun(states, steps, ok) && n < |steps| && steps[n] == TrySend(p)
    ensures states[n].pub.Choosing? && HasChannel(states[n], p) && HasChannel(states[n + 1], p)
    ensures var x, x' := Channel(states[n], p), Channel(states[n + 1], p);
            && (|x.queue| < 10 ==> x'.queue == x.queue + [states[n].version] && x'.dropped == x.dropped)
            && (|x.queue| >= 10 ==> x' == x && states[n + 1].pub == Dropping(states[n].pub.todo, p))
  {
    EveryStateIsOk(states, steps, ok, n);
    assert StepAt(states, steps, ok, n);
    OneStream(states[n], states[n].subs[p]);
  }

  /** Only the step after a full channel was found discards anything. */
  lemma OnlyDropDiscards(st: State, step: Step, ok: Version -> bool, s: StreamId)
    requires Enabled(st, step) && s in st.streams && step != DropOldest && step != Register(s)
    ensures s in Apply(st, step, ok).streams && Apply(st, step, ok).streams[s].dropped == st.streams[s].dropped
  {
  }

  lemma OnlyTrySendDecidesToDrop(st: State, step: Step, ok: Version -> bool, p: ProxyId)
    requires ServerOk(st) && Enabled(st, step) && Apply(st, step, ok).pub.Dropping? && Apply(st, step, ok).pub.p == p
    ensures if PublisherStep(step) then step == TrySend(p) && |Channel(st, p).queue| == 10 else st.pub == Apply(st, step, ok).pub
  {
    if !PublisherStep(step) {
      OthersLeaveThePublisher(st, step, ok);
    } else if step.TrySend? {
      OneStream(st, st.subs[step.p]);
    }
  }

  lemma DropDecidedAt(states: seq<State>, steps: seq<Step>, ok: Version -> bool, n: nat)
    requires IsRun(states, steps, ok) && n + 1 < |states| && states[n + 1].pub.Dropping?
    ensures if PublisherStep(steps[n]) then FoundTen(states[n], steps[n], states[n + 1].pub.p) else states[n].pub == states[n + 1].pub
  {
    EveryStateIsOk(states, steps, ok, n);
    assert StepAt(states, steps, ok, n);
    OnlyTrySendDecidesToDrop(states[n], steps[n], ok, states[n + 1].pub.p);
  }

  /** A send to p that finds ten queued. */
  predicate FoundTen(st: State, step: Step, p: ProxyId) {
    step == TrySend(p) && HasChannel(st, p) && |Channel(st, p).queue| == 10
  }

  lemma InitialIsIdle(states: seq<State>, steps: seq<Step>, ok: Version -> bool, n: nat)
    requires IsRun(states, steps, ok) && n < |states| && states[n].pub.Dropping?
    ensures n > 0
  {
  }

  /** In every run: an entry is discarded only as part of a send to that channel that found ten
      queued, with none of the publisher's own steps in between. */
  lemma {:induction false} DiscardFoundTen(states: seq<State>, steps: seq<Step>, ok: Version -> bool, n: nat) returns (m: nat)
    requires IsRun(states, steps, ok) && n < |states| && states[n].pub.Dropping?
    ensures m < n && FoundTen(states[m], steps[m], states[n].pub.p)
    ensures forall i | m < i < n :: !PublisherStep(steps[i])
  {
    InitialIsIdle(states, steps, ok, n);
    m := n - 1;
    DropDecidedAt(states, steps, ok, m);
    if !PublisherStep(steps[m]) {
      m := DiscardFoundTen(states, steps, ok, m);
    }
  }

  // ----- The same condition in terms of what the proxies do -----

  /** Another stream of the same id registers or is cleaned up. */
  predicate Disturbs(st: State, step: Step, s: StreamId) {
    && s in st.streams && (step.Register? || step.Cleanup?) && step.s != s
    && step.s in st.streams && st.streams[step.s].proxy == st.streams[s].proxy
  }

  lemma StillLive(st: State, step: Step, ok: Version -> bool, s: StreamId)
    requires Enabled(st, step) && s in st.streams && !st.streams[s].phase.Requested?
    requires s in Apply(st, step, ok).streams && Live(Apply(st, step, ok).streams[s])
    ensures Live(st.streams[s])
  {
    StreamGoesOn(st, step, ok, s);
  }

  lemma EntryKept(st: State, step: Step, ok: Version -> bool, st': State, s: StreamId)
    requires ServerOk(st) && Enabled(st, step) && st' == Apply(st, step, ok)
    requires s in st.streams && Live(st.streams[s]) && s in st'.streams && Live(st'.streams[s])
    ensures Registered(st', s) <==> Registered(st, s) && !Disturbs(st, step, s)
  {
    StreamGoesOn(st, step, ok, s);
    if step.Cleanup? {
      OneStream(st, step.s);
    } else if !step.Register? {
      OnlyTheseChangeTheMap(st, step, ok);
    }
  }

  lemma {:induction false} StartedSince(states: seq<State>, steps: seq<Step>, ok: Version -> bool, r: nat, n: nat, s: StreamId)
    requires IsRun(states, steps, ok) && r < n < |states| && steps[r] == Register(s)
    ensures s in states[n].streams && !states[n].streams[s].phase.Requested?
  {
    assert StepAt(states, steps, ok, n - 1);
    if n == r + 1 {
      JustRegistered(states[r], ok, s);
    } else {
      StartedSince(states, steps, ok, r, n - 1, s);
      StreamGoesOn(states[n - 1], steps[n - 1], ok, s);
    }
  }

  /** After step r and before step n no other stream of the id registered or was cleaned up. */
  ghost predicate Undisturbed(states: seq<State>, steps: seq<Step>, r: nat, n: nat, s: StreamId)
    requires n <= |states| && n <= |steps|
  {
    forall i | r < i < n :: !Disturbs(states[i], steps[i], s)
  }

  lemma JustRegistered(st: State, ok: Version -> bool, s: StreamId)
    requires Enabled(st, Register(s))
    ensures s in Apply(st, Register(s), ok).streams && Registered(Apply(st, Register(s), ok), s)
    ensures !Apply(st, Register(s), ok).streams[s].phase.Requested?
  {
  }

  lemma EntryKeptAt(states: seq<State>, steps: seq<Step>, ok: Version -> bool, n: nat, s: StreamId)
    requires IsRun(states, steps, ok) && n < |steps| && s in states[n].streams && s in states[n + 1].streams
    requires Live(states[n].streams[s]) && Live(states[n + 1].streams[s])
    ensures Registered(states[n + 1], s) <==> Registered(states[n], s) && !Disturbs(states[n], steps[n], s)
  {
    EveryStateIsOk(states, steps, ok, n);
    assert StepAt(states, steps, ok, n);
    EntryKept(states[n], steps[n], ok, states[n + 1], s);
  }

  lemma LiveEarlier(states: seq<State>, steps: seq<Step>, ok: Version -> bool, r: nat, n: nat, s: StreamId)
    requires IsRun(states, steps, ok) && r < n - 1 && n < |states| && steps[r] == Register(s)
    requires s in states[n].streams && Live(states[n].streams[s])
    ensures s in states[n - 1].streams && Live(states[n - 1].streams[s])
  {
    StartedSince(states, steps, ok, r, n - 1, s);
    assert StepAt(states, steps, ok, n - 1);
    StillLive(states[n - 1], steps[n - 1], ok, s);
  }

  predicate LiveAt(states: seq<State>, i: nat, s: StreamId) {
    i < |states| && s in states[i].streams && Live(states[i].streams[s])
  }

  lemma {:induction false} LiveBackTo(states: seq<State>, i: nat, n: nat, s: StreamId)
    requires i <= n && LiveAt(states, n, s)
    requires forall j: nat | i < j <= n && LiveAt(states, j, s) :: LiveAt(states, j - 1, s)
    ensures LiveAt(states, i, s)
    decreases n - i
  {
    if i < n {
      LiveBackTo(states, i + 1, n, s);
    }
  }

  lemma LiveThroughout(states: seq<State>, steps: seq<Step>, ok: Version -> bool, r: nat, i: nat, n: nat, s: StreamId)
    requires IsRun(states, steps, ok) && r < i <= n < |states| && steps[r] == Register(s) && LiveAt(states, n, s)
    ensures LiveAt(states, i, s)
  {
    forall j: nat | i < j <= n && LiveAt(states, j, s)
      ensures LiveAt(states, j - 1, s)
    {
      LiveEarlier(states, steps, ok, r, j, s);
    }
    LiveBackTo(states, i, n, s);
  }

  /** An entry that each step keeps unless it disturbs is there exactly if no step disturbed. */
  lemma {:induction false} KeptStepByStep(states: seq<State>, steps: seq<Step>, r: nat, n: nat, s: StreamId)
    requires |states| == |steps| + 1 && r < n < |states| && (forall i | r < i <= n :: s in states[i].streams)
    requires Registered(states[r + 1], s)
    requires forall i | r < i < n :: Registered(states[i + 1], s) <==> Registered(states[i], s) && !Disturbs(states[i], steps[i], s)
    ensures Registered(states[n], s) <==> Undisturbed(states, steps, r, n, s)
  {
    if n > r + 1 {
      KeptStepByStep(states, steps, r, n - 1, s);
      var i := n - 1;
      assert Registered(states[i + 1], s) <==> Registered(states[i], s) && !Disturbs(states[i], steps[i], s);
    }
  }

  /** The map leads to a live stream if and only if, since it registered, no other stream of its id
      has registered or been cleaned up. */
  lemma RegisteredIffUndisturbed(states: seq<State>, steps: seq<Step>, ok: Version -> bool, r: nat, n: nat, s: StreamId)
    requires IsRun(states, steps, ok) && r < n < |states| && steps[r] == Register(s)
    requires s in states[n].streams && Live(states[n].streams[s])
    ensures Registered(states[n], s) <==> Undisturbed(states, steps, r, n, s)
  {
    assert StepAt(states, steps, ok, r);
    JustRegistered(states[r], ok, s);
    forall i | r < i <= n
      ensures s in states[i].streams && Live(states[i].streams[s])
    {
      LiveThroughout(states, steps, ok, r, i, n, s);
    }
    forall i | r < i < n
      ensures Registered(states[i + 1], s) <==> Registered(states[i], s) && !Disturbs(states[i], steps[i], s)
    {
      LiveThroughout(states, steps, ok, r, i, n, s);
      LiveThroughout(states, steps, ok, r, i + 1, n, s);
      EntryKeptAt(states, steps, ok, i, s);
    }
    KeptStepByStep(states, steps, r, n, s);
  }

  lemma {:induction false} LiveHasRegistered(states: seq<State>, steps: seq<Step>, ok: Version -> bool, n: nat, s: StreamId) returns (r: nat)
    requires IsRun(states, steps, ok) && n < |states| && s in states[n].streams && Live(states[n].streams[s])
    ensures r < n && steps[r] == Register(s)
  {
    r := n - 1;
    if steps[r] != Register(s) {
      assert StepAt(states, steps, ok, r);
      NewStreamsAreRequested(states[r], steps[r], ok, s);
      StreamGoesOn(states[r], steps[r], ok, s);
      r := LiveHasRegistered(states, steps, ok, r, s);
    }
  }

  lemma NewStreamsAreRequested(st: State, step: Step, ok: Version -> bool, s: StreamId)
    requires Enabled(st, step) && s in Apply(st, step, ok).streams
    ensures s in st.streams || Apply(st, step, ok).streams[s].phase.Requested?
  {
  }

  /** A live subscriber has got or will get the current config if and only if, between its own
      registration and the publish, no other stream of its id registered or was cleaned up. */
  lemma CurrentIffUndisturbed(states: seq<State>, steps: seq<Step>, ok: Version -> bool, k: nat, j: nat, s: StreamId) returns (r: nat)
    requires IsRun(states, steps, ok) && k < j < |states| && steps[k] == Publish
    requires forall i | k < i < j :: steps[i] != Publish
    requires s in states[k].streams && Live(states[k].streams[s])
    requires states[j].pub.Idle? && s in states[j].streams && Live(states[j].streams[s])
    ensures r < k && steps[r] == Register(s)
    ensures var owed := Owed(states[j].streams[s]);
            owed != [] && (owed[|owed| - 1] == states[j].version <==> Undisturbed(states, steps, r, k, s))
  {
    r := LiveHasRegistered(states, steps, ok, k, s);
    RegisteredIffUndisturbed(states, steps, ok, r, k, s);
    CurrentIffRegistered(states, steps, ok, k, j, s);
  }

  lemma Extend(states: seq<State>, steps: seq<Step>, step: Step, ok: Version -> bool)
      returns (states': seq<State>, steps': seq<Step>)
    requires IsRun(states, steps, ok) && Enabled(Last(states), step)
    ensures IsRun(states', steps', ok) && Last(states') == Apply(Last(states), step, ok)
  {
    states', steps' := states + [Apply(Last(states), step, ok)], steps + [step];
    forall i: nat | i < |steps'|
      ensures StepAt(states', steps', ok, i)
    {
      assert i < |steps| ==> StepAt(states, steps, ok, i);
    }
  }

  const FIRST := Stream(7, "p", [], false, Exiting, [0], [], [], 0, 0)

  lemma FirstStreamFails(ok: Version -> bool) returns (states: seq<State>, steps: seq<Step>)
    ensures IsRun(states, steps, ok)
    ensures var st := Last(states);
            && st.version == 0 && st.streams == map[0 := FIRST] && st.subs == map["p" := 0]
            && st.pub == Idle && ClientOf(st, 7).conn.None? && !st.panicked
  {
    states, steps := [INITIAL], [];
    states, steps := Extend(states, steps, Connect(7, "p", 0), ok);
    states, steps := Extend(states, steps, Register(0), ok);
    states, steps := Extend(states, steps, SendFail(0), ok);
    assert Last(states).streams[0] == FIRST;
    states, steps := Extend(states, steps, Disconnect(7), ok);
  }

  /** One proxy suffices to lose its entry: it reconnects before the server has cleaned up its
      previous stream, and that cleanup deletes by proxy id. The new stream stays open, drained and
      out of date. */
  lemma ReconnectingTooSoon(ok: Version -> bool) returns (states: seq<State>, steps: seq<Step>)
    ensures IsRun(states, steps, ok)
    ensures var st := Last(states);
            && st.pub.Idle? && 1 in st.streams && st.streams[1].phase.Draining? && st.streams[1].queue == []
            && st.streams[1].taken == [0] && st.version == 1 && st.subs == map[]
  {
    states, steps := FirstStreamFails(ok);
    states, steps := Extend(states, steps, Connect(7, "p", 1), ok);
    states, steps := Extend(states, steps, Register(1), ok);
    assert Last(states).subs == map["p" := 1];
    states, steps := Extend(states, steps, Cleanup(0), ok);
    states, steps := Extend(states, steps, SendOk(1), ok);
    states, steps := Extend(states, steps, Publish, ok);
    states, steps := Extend(states, steps, EndPublish, ok);
  }
}
