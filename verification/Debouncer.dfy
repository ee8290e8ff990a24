/** The debounced watch loop: Watch, signalUpdate and runDebouncer of controlplane/k8s-client.go,
    up to cancellation.

    A transition system over the informer caches, their event handlers, the one-token update channel,
    the timer, the debouncer, and Watch itself with its initial config. The cache is a number that
    grows with every change; a build is the span of cache numbers it ran over. */
module Debouncer {
  import opened Runs

  const CONFIG_CAPACITY: nat := 5

  datatype Timer = Stopped | Armed | Fired

  /** A run of buildConfig: the cache when it started and when it ended, and whether validate passed
      what came out. With equal ends it saw exactly that cache. */
  datatype Build = Build(from: nat, to: nat, valid: bool)

  datatype Loop = NotStarted | Selecting | Building(started: nat) | Offering(config: Build)

  datatype Watcher = Syncing | WatchStarting | WatchBuilding(started: nat) | WatchSending(config: Build) | Returned

  datatype Sender = ByDebouncer | ByWatch

  /** lastStart, builds, offered, emitted and delivered are history: where the debouncer's last build
      started, its builds, those it got into the config channel, all that went into the channel, and
      all that came out. */
  datatype State = State(cache: nat, pending: nat, token: bool, timer: Timer, loop: Loop, watch: Watcher,
                         channel: seq<(Sender, Build)>,
                         lastStart: nat, builds: seq<Build>, offered: seq<Build>,
                         emitted: seq<(Sender, Build)>, delivered: seq<(Sender, Build)>)

  const INITIAL := State(0, 0, false, Stopped, NotStarted, Syncing, [], 0, [], [], [], [])

  datatype Step =
    // the informers and the runtime
    | Change          // a cache changes; its handler call is on the way
    | Resync          // a handler call without a change
    | Deliver         // a handler calls signalUpdate
    | Fire            // the timer expires
    // Watch
    | Synced          // starts the debouncer
    | WatchBuild      // begins the initial build
    | WatchBuilt(valid: bool)
    | WatchSend
    // the debouncer
    | TakeToken
    | StartBuild
    | EndBuild(valid: bool)
    | Offer
    // the reader of the config channel
    | Consume

  /** Watch's send blocks while the channel is full; the debouncer's does not. */
  predicate Enabled(st: State, step: Step) {
    match step
    case Change => true
    case Resync => true
    case Deliver => st.pending > 0
    case Fire => st.timer.Armed?
    case Synced => st.watch.Syncing?
    case WatchBuild => st.watch.WatchStarting?
    case WatchBuilt(_) => st.watch.WatchBuilding?
    case WatchSend => st.watch.WatchSending? && |st.channel| < CONFIG_CAPACITY
    case TakeToken => st.loop.Selecting? && st.token
    case StartBuild => st.loop.Selecting? && st.timer.Fired?
    case EndBuild(_) => st.loop.Building?
    case Offer => st.loop.Offering?
    case Consume => st.channel != []
  }

  function Emit(st: State, sender: Sender, config: Build): State {
    st.(channel := st.channel + [(sender, config)], emitted := st.emitted + [(sender, config)])
  }

  function Apply(st: State, step: Step): State
    requires Enabled(st, step)
  {
    match step
    case Change => st.(cache := st.cache + 1, pending := st.pending + 1)
    case Resync => st.(pending := st.pending + 1)
    case Deliver => st.(pending := st.pending - 1, token := true)
    case Fire => st.(timer := Fired)
    case Synced => st.(loop := Selecting, watch := WatchStarting)
    case WatchBuild => st.(watch := WatchBuilding(st.cache))
    case WatchBuilt(valid) =>
      st.(watch := if valid then WatchSending(Build(st.watch.started, st.cache, true)) else Returned)
    case WatchSend => Emit(st, ByWatch, st.watch.config).(watch := Returned)
    case TakeToken => st.(token := false, timer := Armed)
    case StartBuild => st.(timer := Stopped, loop := Building(st.cache), lastStart := st.cache)
    case EndBuild(valid) =>
      var build := Build(st.loop.started, st.cache, valid);
      st.(loop := if valid then Offering(build) else Selecting, builds := st.builds + [build])
    case Offer =>
      if |st.channel| < CONFIG_CAPACITY
      then Emit(st, ByDebouncer, st.loop.config).(loop := Selecting, offered := st.offered + [st.loop.config])
      else st.(loop := Selecting)
    case Consume => st.(channel := st.channel[1..], delivered := st.delivered + [st.channel[0]])
  }

  /** Step i of a run leads from state i to the next. */
  ghost predicate StepAt(states: seq<State>, steps: seq<Step>, i: nat) {
    i < |steps| && i + 1 < |states| && Enabled(states[i], steps[i]) && states[i + 1] == Apply(states[i], steps[i])
  }

  ghost predicate IsRun(states: seq<State>, steps: seq<Step>) {
    |states| == |steps| + 1 && states[0] == INITIAL && forall i: nat | i < |steps| :: StepAt(states, steps, i)
  }

  // ----- No lost wakeup -----

  /** Another build is on its way. */
  predicate Signalled(st: State) {
    st.pending > 0 || st.token || !st.timer.Stopped?
  }

  predicate NoLostWakeup(st: State) {
    && st.lastStart <= st.cache
    && (st.cache > st.lastStart ==> Signalled(st))
    && (st.loop.NotStarted? ==> st.timer.Stopped?)
    && (st.loop.NotStarted? <==> st.watch.Syncing?)
  }

  // ----- The debouncer's configs are in build order -----

  predicate InOrder(builds: seq<Build>) {
    && (forall i | 0 <= i < |builds| :: builds[i].from <= builds[i].to)
    && (forall i, j | 0 <= i < j < |builds| :: builds[i].to <= builds[j].from)
  }

  predicate Before(builds: seq<Build>, n: nat) {
    forall i | 0 <= i < |builds| :: builds[i].to <= n
  }

  /** The last build is the one that started at lastStart, once it has ended. */
  predicate BuildsOk(st: State) {
    && InOrder(st.builds) && Before(st.builds, st.cache)
    && match st.loop
       case NotStarted => st.builds == [] && st.lastStart == 0
       case Building(s) => s == st.lastStart && Before(st.builds, s)
       case Selecting => if st.builds == [] then st.lastStart == 0 else st.builds[|st.builds| - 1].from == st.lastStart
       case Offering(c) => st.builds != [] && c == st.builds[|st.builds| - 1] && c.from == st.lastStart
  }

  predicate OfferedOk(st: State) {
    && InOrder(st.offered) && Before(st.offered, st.cache)
    && match st.loop
       case Building(s) => Before(st.offered, s) && s <= st.cache
       case Offering(c) => Before(st.offered, c.from) && c.from <= c.to <= st.cache
       case _ => true
  }

  function FromDebouncer(emitted: seq<(Sender, Build)>): seq<Build> {
    if emitted == [] then []
    else
      var x := emitted[|emitted| - 1];
      FromDebouncer(emitted[..|emitted| - 1]) + if x.0.ByDebouncer? then [x.1] else []
  }

  /** The channel is first in, first out, and nothing else writes to it. */
  predicate ChannelOk(st: State) {
    && st.emitted == st.delivered + st.channel && |st.channel| <= CONFIG_CAPACITY
    && FromDebouncer(st.emitted) == st.offered
  }

  predicate AllValid(emitted: seq<(Sender, Build)>) {
    forall i | 0 <= i < |emitted| :: emitted[i].1.valid
  }

  /** What validate refuses goes no further. */
  predicate ValidOk(st: State) {
    && AllValid(st.emitted)
    && (st.loop.Offering? ==> st.loop.config.valid)
    && (st.watch.WatchSending? ==> st.watch.config.valid)
  }

  predicate Ok(st: State) {
    NoLostWakeup(st) && BuildsOk(st) && OfferedOk(st) && ChannelOk(st) && ValidOk(st)
  }

  lemma StepKeepsValid(st: State, step: Step)
    requires ValidOk(st) && Enabled(st, step)
    ensures ValidOk(Apply(st, step))
  {
    if step.Offer? && |st.channel| < CONFIG_CAPACITY {
      assert Apply(st, step).emitted == st.emitted + [(ByDebouncer, st.loop.config)];
    } else if step.WatchSend? {
      assert Apply(st, step).emitted == st.emitted + [(ByWatch, st.watch.config)];
    } else {
      assert Apply(st, step).emitted == st.emitted;
    }
  }

  lemma StepKeepsWakeups(st: State, step: Step)
    requires NoLostWakeup(st) && Enabled(st, step)
    ensures NoLostWakeup(Apply(st, step))
  {
  }

  lemma InOrderSnoc(builds: seq<Build>, b: Build, n: nat)
    requires InOrder(builds) && Before(builds, b.from) && b.from <= b.to <= n
    ensures InOrder(builds + [b]) && Before(builds + [b], n)
  {
    var longer := builds + [b];
    assert forall i | 0 <= i < |longer| :: longer[i] == if i < |builds| then builds[i] else b;
  }

  lemma BeforeLater(builds: seq<Build>, m: nat, n: nat)
    requires Before(builds, m) && m <= n
    ensures Before(builds, n)
  {
  }

  lemma StepKeepsBuilds(st: State, step: Step)
    requires NoLostWakeup(st) && BuildsOk(st) && Enabled(st, step)
    ensures BuildsOk(Apply(st, step))
  {
    if step.EndBuild? {
      InOrderSnoc(st.builds, Build(st.loop.started, st.cache, step.valid), st.cache);
    } else if step.Change? {
      BeforeLater(st.builds, st.cache, st.cache + 1);
    } else {
      assert Apply(st, step).builds == st.builds && Apply(st, step).cache == st.cache;
    }
  }

  lemma StepKeepsOffered(st: State, step: Step)
    requires OfferedOk(st) && Enabled(st, step)
    ensures OfferedOk(Apply(st, step))
  {
    if step.Offer? {
      InOrderSnoc(st.offered, st.loop.config, st.cache);
    } else if step.Change? {
      BeforeLater(st.offered, st.cache, st.cache + 1);
    } else {
      assert Apply(st, step).offered == st.offered && Apply(st, step).cache == st.cache;
    }
  }

  lemma EmitKeepsChannel(st: State, sender: Sender, config: Build)
    requires ChannelOk(st) && |st.channel| < CONFIG_CAPACITY
    ensures var st' := Emit(st, sender, config);
            && st'.emitted == st'.delivered + st'.channel
            && FromDebouncer(st'.emitted) == st.offered + if sender.ByDebouncer? then [config] else []
  {
    var x := (sender, config);
    assert (st.emitted + [x])[..|st.emitted|] == st.emitted;
    assert st.delivered + (st.channel + [x]) == (st.delivered + st.channel) + [x];
  }

  lemma StepKeepsChannel(st: State, step: Step)
    requires ChannelOk(st) && Enabled(st, step)
    ensures ChannelOk(Apply(st, step))
  {
    if step.Consume? {
      assert st.channel == [st.channel[0]] + st.channel[1..];
      assert st.delivered + [st.channel[0]] + st.channel[1..] == st.emitted;
    } else if step.WatchSend? {
      EmitKeepsChannel(st, ByWatch, st.watch.config);
    } else if step.Offer? && |st.channel| < CONFIG_CAPACITY {
      EmitKeepsChannel(st, ByDebouncer, st.loop.config);
    }
  }

  lemma StepKeepsOk(st: State, step: Step)
    requires Ok(st) && Enabled(st, step)
    ensures Ok(Apply(st, step))
  {
    StepKeepsWakeups(st, step);
    StepKeepsBuilds(st, step);
    StepKeepsOffered(st, step);
    StepKeepsChannel(st, step);
    StepKeepsValid(st, step);
  }

  lemma {:induction false} EveryStateIsOk(states: seq<State>, steps: seq<Step>, n: nat)
    requires IsRun(states, steps) && n < |states|
    ensures Ok(states[n])
  {
    if n > 0 {
      EveryStateIsOk(states, steps, n - 1);
      assert StepAt(states, steps, n - 1);
      StepKeepsOk(states[n - 1], steps[n - 1]);
    }
  }

  // ----- The results -----

  /** Nothing is left to do without a further change. */
  predicate Quiescent(st: State) {
    !Signalled(st) && st.loop.Selecting?
  }

  /** In every run: a cache that has changed since the debouncer's last build started has a handler
      call, a token or the timer still to come. Hence when all is quiet the last build was of the
      cache as it is. */
  lemma ChangesAreBuilt(states: seq<State>, steps: seq<Step>, n: nat)
    requires IsRun(states, steps) && n < |states|
    ensures states[n].cache > states[n].lastStart ==> Signalled(states[n])
    ensures Quiescent(states[n]) && states[n].cache > 0 ==>
              var builds := states[n].builds;
              builds != [] && builds[|builds| - 1].from == builds[|builds| - 1].to == states[n].cache
  {
    EveryStateIsOk(states, steps, n);
  }

  /** In every run: what the debouncer has put into the channel is in build order, each build over
      before the next one began, and the reader gets the channel's contents in that order. */
  lemma EmittedInBuildOrder(states: seq<State>, steps: seq<Step>, n: nat)
    requires IsRun(states, steps) && n < |states|
    ensures InOrder(FromDebouncer(states[n].emitted)) && states[n].delivered <= states[n].emitted
  {
    EveryStateIsOk(states, steps, n);
  }

  /** In every run: only valid configs are ever emitted, the channel holds at most five, and the
      debouncer's config gets in exactly when fewer than five are waiting; otherwise it is gone. */
  lemma OnlyValidAndFive(states: seq<State>, steps: seq<Step>, n: nat)
    requires IsRun(states, steps) && n < |steps|
    ensures forall i | 0 <= i < |states[n].emitted| :: states[n].emitted[i].1.valid
    ensures |states[n].channel| <= 5
    ensures steps[n] == Offer ==>
              var st, st' := states[n], states[n + 1];
              && st.loop.Offering? && st.loop.config.valid && st'.loop == Selecting
              && st'.emitted == (if |st.channel| < 5 then st.emitted + [(ByDebouncer, st.loop.config)] else st.emitted)
              && st'.channel == (if |st.channel| < 5 then st.channel + [(ByDebouncer, st.loop.config)] else st.channel)
    ensures steps[n] == WatchSend ==> |states[n].channel| < 5
  {
    EveryStateIsOk(states, steps, n);
    assert StepAt(states, steps, n);
  }

  /** In every run: a build starts only after the timer has run its full window, that is, since it last
      expired no token has been taken and no build started. */
  lemma {:induction false} BuildWaitsForQuiet(states: seq<State>, steps: seq<Step>, n: nat) returns (m: nat)
    requires IsRun(states, steps) && n < |states| && states[n].timer.Fired?
    ensures m < n && steps[m] == Fire && forall i | m < i < n :: steps[i] != TakeToken && steps[i] != StartBuild
  {
    m := n - 1;
    assert StepAt(states, steps, m);
    if steps[m] != Fire {
      m := BuildWaitsForQuiet(states, steps, m);
    }
  }

  predicate Internal(step: Step) {
    step.Deliver? || step.Fire? || step.TakeToken? || step.StartBuild? || step.EndBuild? || step.Offer?
  }

  /** How many internal steps are left without a further change or resync. */
  function Effort(st: State): nat {
    6 * st.pending + (if st.token then 5 else 0)
    + (match st.timer case Stopped => 0 case Armed => 4 case Fired => 3)
    + (match st.loop case Building(_) => 2 case Offering(_) => 1 case _ => 0)
  }

  lemma EffortFalls(st: State, step: Step)
    requires Enabled(st, step) && !step.Change? && !step.Resync?
    ensures Effort(Apply(st, step)) <= Effort(st) - if Internal(step) then 1 else 0
  {
  }

  lemma StillToDo(st: State) returns (next: Step)
    requires !st.loop.NotStarted? && !Quiescent(st)
    ensures Internal(next) && Enabled(st, next)
  {
    if st.pending > 0 {
      next := Deliver;
    } else if st.timer.Armed? {
      next := Fire;
    } else {
      match st.loop
      case Building(_) => next := EndBuild(true);
      case Offering(_) => next := Offer;
      case Selecting => next := if st.token then TakeToken else StartBuild;
    }
  }

  /** Until all is quiet some internal step is possible, and each brings the end nearer: without
      changes or resyncs a build that covers the cache comes within Effort internal steps. */
  lemma TowardsQuiet(st: State, step: Step)
    requires Ok(st) && !st.loop.NotStarted? && Enabled(st, step) && !step.Change? && !step.Resync?
    ensures Effort(Apply(st, step)) <= Effort(st) - if Internal(step) then 1 else 0
    ensures !Quiescent(st) ==> exists next :: Internal(next) && Enabled(st, next)
  {
    EffortFalls(st, step);
    if !Quiescent(st) {
      var next := StillToDo(st);
    }
  }

  // ----- Watch's own config -----

  /** Each config in the sequence was built from no older a cache than those before it. */
  predicate Ascending(emitted: seq<(Sender, Build)>) {
    forall i, j | 0 <= i < j < |emitted| :: emitted[i].1.from <= emitted[j].1.from
  }

  predicate StartedBy(emitted: seq<(Sender, Build)>, n: nat) {
    forall i | 0 <= i < |emitted| :: emitted[i].1.from <= n
  }

  /** Where the debouncer's present build started, or its next one may start. */
  function NextStart(st: State): nat {
    match st.loop
    case Building(s) => s
    case Offering(c) => c.from
    case _ => st.cache
  }

  /** Until Watch has sent its config only the debouncer's are in the channel. */
  predicate WatchOk(st: State) {
    && (match st.watch
        case Syncing => st.loop.NotStarted?
        case WatchBuilding(s) => s <= st.cache
        case WatchSending(c) => c.from <= st.cache
        case _ => true)
    && (!st.watch.Returned? ==> Ascending(st.emitted) && StartedBy(st.emitted, NextStart(st)))
  }

  /** Appending a config that is no older than the others keeps the order. */
  lemma EmittedSnoc(emitted: seq<(Sender, Build)>, x: (Sender, Build))
    requires StartedBy(emitted, x.1.from)
    ensures StartedBy(emitted + [x], x.1.from) && (Ascending(emitted + [x]) <==> Ascending(emitted))
  {
    var longer := emitted + [x];
    assert forall i | 0 <= i < |longer| :: longer[i] == if i < |emitted| then emitted[i] else x;
  }

  lemma StartedLater(emitted: seq<(Sender, Build)>, m: nat, n: nat)
    requires StartedBy(emitted, m) && m <= n
    ensures StartedBy(emitted, n)
  {
  }

  /** The debouncer emits what it began at NextStart. */
  lemma OfferKeepsOrder(st: State)
    requires Ok(st) && Enabled(st, Offer) && StartedBy(st.emitted, NextStart(st))
    ensures var st' := Apply(st, Offer);
            StartedBy(st'.emitted, NextStart(st')) && (Ascending(st'.emitted) <==> Ascending(st.emitted))
  {
    var c := st.loop.config;
    EmittedSnoc(st.emitted, (ByDebouncer, c));
    StartedLater(Apply(st, Offer).emitted, c.from, st.cache);
  }

  /** What anybody but Watch does keeps emitted configs in order, or out of it. */
  lemma OthersKeepOrder(st: State, step: Step)
    requires Ok(st) && Enabled(st, step) && !step.WatchSend? && StartedBy(st.emitted, NextStart(st))
    ensures var st' := Apply(st, step);
            StartedBy(st'.emitted, NextStart(st')) && (Ascending(st'.emitted) <==> Ascending(st.emitted))
  {
    if step.Offer? {
      OfferKeepsOrder(st);
    } else {
      var st' := Apply(st, step);
      assert st'.emitted == st.emitted && NextStart(st') >= NextStart(st);
      StartedLater(st.emitted, NextStart(st), NextStart(st'));
    }
  }

  lemma StepKeepsWatch(st: State, step: Step)
    requires Ok(st) && WatchOk(st) && Enabled(st, step)
    ensures WatchOk(Apply(st, step))
  {
    if !st.watch.Returned? && !step.WatchSend? {
      OthersKeepOrder(st, step);
    }
  }

  lemma {:induction false} EveryStateWatches(states: seq<State>, steps: seq<Step>, n: nat)
    requires IsRun(states, steps) && n < |states|
    ensures Ok(states[n]) && WatchOk(states[n])
  {
    EveryStateIsOk(states, steps, n);
    if n > 0 {
      EveryStateWatches(states, steps, n - 1);
      assert StepAt(states, steps, n - 1);
      StepKeepsWatch(states[n - 1], steps[n - 1]);
    }
  }

  /** After Watch has sent, nothing puts the sequence in order or out of it. */
  lemma {:induction false} OrderIsSettled(states: seq<State>, steps: seq<Step>, n: nat, m: nat)
    requires IsRun(states, steps) && n <= m < |states|
    requires states[n].watch.Returned? && StartedBy(states[n].emitted, NextStart(states[n]))
    ensures states[m].watch.Returned? && StartedBy(states[m].emitted, NextStart(states[m]))
    ensures Ascending(states[m].emitted) <==> Ascending(states[n].emitted)
  {
    if m > n {
      OrderIsSettled(states, steps, n, m - 1);
      EveryStateIsOk(states, steps, m - 1);
      assert StepAt(states, steps, m - 1);
      OthersKeepOrder(states[m - 1], steps[m - 1]);
    }
  }

  lemma Extend(states: seq<State>, steps: seq<Step>, step: Step) returns (states': seq<State>, steps': seq<Step>)
    requires IsRun(states, steps) && Enabled(Last(states), step)
    ensures IsRun(states', steps') && Last(states') == Apply(Last(states), step)
    ensures states <= states' && steps <= steps'
  {
    states', steps' := states + [Apply(Last(states), step)], steps + [step];
    forall i: nat | i < |steps'|
      ensures StepAt(states', steps', i)
    {
      assert i < |steps| ==> StepAt(states, steps, i);
    }
  }

  /** Where Watch's send is safe: nothing before it was built from a newer cache, and no build that
      the debouncer is at began on an older one. */
  predicate SafeToSend(st: State) {
    st.watch.WatchSending? && StartedBy(st.emitted, st.watch.config.from) && st.watch.config.from <= NextStart(st)
  }

  /** A run that goes on from this one. */
  ghost predicate Prolongs(states: seq<State>, steps: seq<Step>, states': seq<State>, steps': seq<Step>) {
    IsRun(states', steps') && states <= states' && steps <= steps'
  }

  lemma GoOn(base: seq<State>, baseSteps: seq<Step>, states: seq<State>, steps: seq<Step>, step: Step)
      returns (states': seq<State>, steps': seq<Step>)
    requires Prolongs(base, baseSteps, states, steps) && Enabled(Last(states), step)
    ensures Prolongs(base, baseSteps, states', steps') && Last(states') == Apply(Last(states), step)
  {
    states', steps' := Extend(states, steps, step);
  }

  /** Make room in the channel if there is none. */
  lemma MakeRoom(base: seq<State>, baseSteps: seq<Step>, states: seq<State>, steps: seq<Step>)
      returns (states': seq<State>, steps': seq<Step>)
    requires Prolongs(base, baseSteps, states, steps)
    ensures Prolongs(base, baseSteps, states', steps') && |Last(states').channel| < CONFIG_CAPACITY
    ensures Last(states').emitted == Last(states).emitted && Last(states').loop == Last(states).loop
  {
    EveryStateIsOk(states, steps, |states| - 1);
    states', steps' := states, steps;
    if |Last(states).channel| == CONFIG_CAPACITY {
      states', steps' := GoOn(base, baseSteps, states, steps, Consume);
    }
  }

  /** What the debouncer began before Watch's send it can emit after it. */
  lemma OlderBuildFollows(states: seq<State>, steps: seq<Step>) returns (states': seq<State>, steps': seq<Step>)
    requires IsRun(states, steps) && (Last(states).loop.Building? || Last(states).loop.Offering?)
    ensures Prolongs(states, steps, states', steps')
    ensures exists b: Build :: b.from == NextStart(Last(states)) && Last(states').emitted == Last(states).emitted + [(ByDebouncer, b)]
  {
    states', steps' := states, steps;
    if Last(states').loop.Building? {
      states', steps' := GoOn(states, steps, states', steps', EndBuild(true));
    }
    states', steps' := MakeRoom(states, steps, states', steps');
    states', steps' := GoOn(states, steps, states', steps', Offer);
  }

  lemma OutOfOrder(emitted: seq<(Sender, Build)>, i: nat, j: nat)
    requires i < j < |emitted| && emitted[i].1.from > emitted[j].1.from
    ensures !Ascending(emitted)
  {
  }

  lemma UnsafeGoesWrong(states: seq<State>, steps: seq<Step>) returns (states': seq<State>, steps': seq<Step>)
    requires IsRun(states, steps) && steps != [] && steps[|steps| - 1] == WatchSend && !SafeToSend(states[|steps| - 1])
    ensures Prolongs(states, steps, states', steps') && !Ascending(Last(states').emitted)
  {
    var n := |steps| - 1;
    EveryStateWatches(states, steps, n);
    assert StepAt(states, steps, n);
    var st, sent := states[n], Last(states).emitted;
    assert Last(states) == Apply(st, WatchSend);
    if !StartedBy(st.emitted, st.watch.config.from) {
      var i :| 0 <= i < |st.emitted| && st.emitted[i].1.from > st.watch.config.from;
      OutOfOrder(sent, i, |st.emitted|);
      states', steps' := states, steps;
    } else {
      states', steps' := OlderBuildFollows(states, steps);
      OutOfOrder(Last(states').emitted, |st.emitted|, |sent|);
    }
  }

  /** In every run that ends with Watch's send: all configs ever emitted, however the run goes on,
      are in the order of their builds if and only if the send was safe. */
  lemma InitialConfigInOrderIff(states: seq<State>, steps: seq<Step>)
    requires IsRun(states, steps) && steps != [] && steps[|steps| - 1] == WatchSend
    ensures (forall states', steps' | Prolongs(states, steps, states', steps') :: Ascending(Last(states').emitted))
            <==> SafeToSend(states[|steps| - 1])
  {
    if SafeToSend(states[|steps| - 1]) {
      forall states', steps' | Prolongs(states, steps, states', steps')
        ensures Ascending(Last(states').emitted)
      {
        SafeStaysInOrder(states', steps', |steps| - 1, |states'| - 1);
      }
    } else {
      var states', steps' := UnsafeGoesWrong(states, steps);
      assert Prolongs(states, steps, states', steps');
    }
  }

  lemma SafeStaysInOrder(states: seq<State>, steps: seq<Step>, n: nat, m: nat)
    requires IsRun(states, steps) && n < m < |states| && steps[n] == WatchSend && SafeToSend(states[n])
    ensures Ascending(states[m].emitted)
  {
    EveryStateWatches(states, steps, n);
    assert StepAt(states, steps, n);
    EmittedSnoc(states[n].emitted, (ByWatch, states[n].watch.config));
    StartedLater(states[n + 1].emitted, states[n].watch.config.from, NextStart(states[n + 1]));
    assert states[n + 1].emitted == states[n].emitted + [(ByWatch, states[n].watch.config)];
    OrderIsSettled(states, steps, n + 1, m);
  }

  lemma ChangeWhileWatchSends() returns (states: seq<State>, steps: seq<Step>)
    ensures IsRun(states, steps)
    ensures Last(states) == INITIAL.(cache := 1, timer := Armed, loop := Selecting, watch := WatchSending(Build(0, 0, true)))
  {
    states, steps := [INITIAL], [];
    states, steps := Extend(states, steps, Synced);
    states, steps := Extend(states, steps, WatchBuild);
    states, steps := Extend(states, steps, WatchBuilt(true));
    assert Last(states) == INITIAL.(loop := Selecting, watch := WatchSending(Build(0, 0, true)));
    states, steps := Extend(states, steps, Change);
    states, steps := Extend(states, steps, Deliver);
    states, steps := Extend(states, steps, TakeToken);
  }

  lemma DebouncerOvertakes() returns (states: seq<State>, steps: seq<Step>)
    ensures IsRun(states, steps)
    ensures Last(states) == State(1, 0, false, Stopped, Selecting, WatchSending(Build(0, 0, true)), [(ByDebouncer, Build(1, 1, true))],
                                  1, [Build(1, 1, true)], [Build(1, 1, true)], [(ByDebouncer, Build(1, 1, true))], [])
  {
    states, steps := ChangeWhileWatchSends();
    states, steps := Extend(states, steps, Fire);
    states, steps := Extend(states, steps, StartBuild);
    states, steps := Extend(states, steps, EndBuild(true));
    states, steps := Extend(states, steps, Offer);
  }

  /** Build order stops at the debouncer. Watch builds the initial config and sends it in two steps,
      and a change in between can be built and emitted first: all is quiet, the reader has everything,
      and the config it got last is out of date. */
  lemma InitialConfigArrivesLate() returns (states: seq<State>, steps: seq<Step>)
    ensures IsRun(states, steps)
    ensures var st := Last(states);
            && Quiescent(st) && st.watch.Returned? && st.channel == [] && st.cache == 1
            && st.delivered == [(ByDebouncer, Build(1, 1, true)), (ByWatch, Build(0, 0, true))]
  {
    states, steps := DebouncerOvertakes();
    states, steps := Extend(states, steps, WatchSend);
    states, steps := Extend(states, steps, Consume);
    states, steps := Extend(states, steps, Consume);
  }

  lemma DebouncerAtBuild() returns (states: seq<State>, steps: seq<Step>)
    ensures IsRun(states, steps)
    ensures Last(states) == INITIAL.(cache := 1, loop := Building(1), watch := WatchStarting, lastStart := 1)
  {
    states, steps := [INITIAL], [];
    states, steps := Extend(states, steps, Synced);
    states, steps := Extend(states, steps, Change);
    states, steps := Extend(states, steps, Deliver);
    states, steps := Extend(states, steps, TakeToken);
    states, steps := Extend(states, steps, Fire);
    states, steps := Extend(states, steps, StartBuild);
  }

  /** The other way to lose the order: nothing newer went before Watch's config, but the debouncer
      was at a build begun on an older cache and emits it afterwards. */
  lemma OlderBuildArrivesLate() returns (states: seq<State>, steps: seq<Step>)
    ensures IsRun(states, steps)
    ensures Last(states).emitted == [(ByWatch, Build(2, 2, true)), (ByDebouncer, Build(1, 2, true))] && !Ascending(Last(states).emitted)
  {
    states, steps := DebouncerAtBuild();
    states, steps := Extend(states, steps, Change);
    states, steps := Extend(states, steps, WatchBuild);
    states, steps := Extend(states, steps, WatchBuilt(true));
    states, steps := Extend(states, steps, WatchSend);
    states, steps := Extend(states, steps, EndBuild(true));
    states, steps := Extend(states, steps, Offer);
    assert Last(states).emitted[0].1.from > Last(states).emitted[1].1.from;
  }
}
