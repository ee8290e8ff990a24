/** The config fan-out: Server of controlplane/cmd/server.go with the subscribing proxies of
    pkg/proxy/dataplane.go, up to Shutdown.

    A transition system. Its steps are single lock regions and single channel operations, so
    publishing, consuming, subscribing, disconnecting and reconnecting interleave in every way the
    code allows. Versions are numbers; version 0 is the config the server starts with. The gRPC
    stream is a reliable FIFO. */
module FanOut {
  import opened Text

  const CAPACITY: nat := 10

  type ProxyId = string
  type ClientId = nat
  type StreamId = nat
  type Version = nat

  /** Where one call of Server.Subscribe stands. */
  datatype Phase =
    | Requested             // the RPC has been issued, the server has not registered it
    | Sending(v: Version)   // about to stream.Send the snapshot or a dequeued config
    | Draining              // in the select
    | Exiting               // returned, the deferred cleanup has not run
    | Gone                  // cleaned up

  /** One subscription and its channel. taken, dropped, sent and given are history: what the
      subscriber got (the snapshot first), what the publisher discarded, what went out on the stream,
      and the last version put into the channel or taken as the snapshot. The client has received the
      first `received` of sent. */
  datatype Stream = Stream(client: ClientId, proxy: ProxyId, queue: seq<Version>, closed: bool, phase: Phase,
                           taken: seq<Version>, dropped: seq<Version>, sent: seq<Version>, given: Version,
                           received: nat)

  /** Where UpdateConfig stands while it holds the lock; todo are the subscribers not yet served. */
  datatype Publisher =
    | Idle
    | Choosing(todo: set<ProxyId>)
    | Dropping(todo: set<ProxyId>, p: ProxyId)
    | Forcing(todo: set<ProxyId>, p: ProxyId)

  /** A proxy process: its stream, the versions it applied on earlier streams, and on this one.
      Several processes may call themselves by the same proxy id. */
  datatype Client = Client(conn: Option<StreamId>, earlier: seq<Version>, applied: seq<Version>)

  datatype State = State(version: Version, streams: map<StreamId, Stream>, subs: map<ProxyId, StreamId>,
                         pub: Publisher, clients: map<ClientId, Client>, panicked: bool)

  const INITIAL := State(0, map[], map[], Idle, map[], false)

  datatype Step =
    // the publisher
    | Publish
    | TrySend(p: ProxyId)
    | DropOldest
    | ForceSend
    | EndPublish
    // one Subscribe call
    | Register(s: StreamId)
    | SendOk(s: StreamId)
    | SendFail(s: StreamId)
    | Take(s: StreamId)
    | TakeClosed(s: StreamId)
    | ContextDone(s: StreamId)
    | Cleanup(s: StreamId)
    // a proxy
    | Connect(c: ClientId, p: ProxyId, s: StreamId)
    | Receive(c: ClientId)
    | Disconnect(c: ClientId)

  function ClientOf(st: State, c: ClientId): Client {
    if c in st.clients then st.clients[c] else Client(None, [], [])
  }

  /** The channel the publisher has for p. */
  predicate HasChannel(st: State, p: ProxyId) {
    p in st.subs && st.subs[p] in st.streams
  }

  function Channel(st: State, p: ProxyId): Stream
    requires HasChannel(st, p)
  {
    st.streams[st.subs[p]]
  }

  /** The lock is free exactly when no publish is under way; the other two lock regions are single
      steps. A blocking send waits for room, but a send on a closed channel panics at once. */
  predicate Enabled(st: State, step: Step) {
    !st.panicked &&
    match step
    case Publish => st.pub.Idle?
    case TrySend(p) => st.pub.Choosing? && p in st.pub.todo && HasChannel(st, p)
    case DropOldest => st.pub.Dropping? && HasChannel(st, st.pub.p)
    case ForceSend => st.pub.Forcing? && HasChannel(st, st.pub.p) &&
                      (|Channel(st, st.pub.p).queue| < CAPACITY || Channel(st, st.pub.p).closed)
    case EndPublish => st.pub.Choosing? && st.pub.todo == {}
    case Register(s) => st.pub.Idle? && s in st.streams && st.streams[s].phase.Requested?
    case SendOk(s) => s in st.streams && st.streams[s].phase.Sending?
    case SendFail(s) => s in st.streams && st.streams[s].phase.Sending?
    case Take(s) => s in st.streams && st.streams[s].phase.Draining? && st.streams[s].queue != []
    case TakeClosed(s) => s in st.streams && st.streams[s].phase.Draining? && st.streams[s].queue == [] && st.streams[s].closed
    case ContextDone(s) => s in st.streams && st.streams[s].phase.Draining?
    case Cleanup(s) => st.pub.Idle? && s in st.streams && st.streams[s].phase.Exiting?
    case Connect(c, _, s) => ClientOf(st, c).conn.None? && s !in st.streams
    case Receive(c) => c in st.clients && st.clients[c].conn.Some? && st.clients[c].conn.value in st.streams &&
                       var x := st.streams[st.clients[c].conn.value]; x.received < |x.sent|
    case Disconnect(c) => c in st.clients && st.clients[c].conn.Some?
  }

  function SetStream(st: State, s: StreamId, x: Stream): State {
    st.(streams := st.streams[s := x])
  }

  /** Send the current version to p's channel, and go on. */
  function Push(st: State, p: ProxyId, todo: set<ProxyId>): State
    requires HasChannel(st, p)
  {
    var x := Channel(st, p);
    if x.closed then st.(panicked := true)
    else SetStream(st, st.subs[p], x.(queue := x.queue + [st.version], given := st.version)).(pub := Choosing(todo - {p}))
  }

  /** ok says which versions HandleConfig accepts. */
  function Apply(st: State, step: Step, ok: Version -> bool): State
    requires Enabled(st, step)
  {
    match step
    case Publish => st.(version := st.version + 1, pub := Choosing(st.subs.Keys))
    case TrySend(p) =>
      if |Channel(st, p).queue| < CAPACITY || Channel(st, p).closed then Push(st, p, st.pub.todo)
      else st.(pub := Dropping(st.pub.todo, p))
    case DropOldest =>
      var x := Channel(st, st.pub.p);
      var st' := st.(pub := Forcing(st.pub.todo, st.pub.p));
      if x.queue == [] then st'
      else SetStream(st', st.subs[st.pub.p], x.(queue := x.queue[1..], dropped := x.dropped + [x.queue[0]]))
    case ForceSend => Push(st, st.pub.p, st.pub.todo)
    case EndPublish => st.(pub := Idle)
    case Register(s) =>
      var x := st.streams[s];
      SetStream(st, s, x.(phase := Sending(st.version), taken := [st.version], given := st.version))
      .(subs := st.subs[x.proxy := s])
    case SendOk(s) =>
      var x := st.streams[s];
      SetStream(st, s, x.(phase := Draining, sent := x.sent + [x.phase.v]))
    case SendFail(s) => SetStream(st, s, st.streams[s].(phase := Exiting))
    case Take(s) =>
      var x := st.streams[s];
      SetStream(st, s, x.(phase := Sending(x.queue[0]), queue := x.queue[1..], taken := x.taken + [x.queue[0]]))
    case TakeClosed(s) => SetStream(st, s, st.streams[s].(phase := Exiting))
    case ContextDone(s) => SetStream(st, s, st.streams[s].(phase := Exiting))
    case Cleanup(s) =>
      var x := st.streams[s];
      if x.closed then st.(panicked := true)
      else SetStream(st, s, x.(phase := Gone, closed := true)).(subs := st.subs - {x.proxy})
    case Connect(c, p, s) =>
      var client := ClientOf(st, c);
      SetStream(st, s, Stream(c, p, [], false, Requested, [], [], [], 0, 0))
      .(clients := st.clients[c := Client(Some(s), client.earlier + client.applied, [])])
    case Receive(c) =>
      var client := st.clients[c];
      var s := client.conn.value;
      var x := st.streams[s];
      var v := x.sent[x.received];
      SetStream(st, s, x.(received := x.received + 1))
      .(clients := st.clients[c := if ok(v) then client.(applied := client.applied + [v]) else client])
    case Disconnect(c) => st.(clients := st.clients[c := st.clients[c].(conn := None)])
  }

  // ----- Runs -----

  /** Step i of a run leads from state i to the next. */
  ghost predicate StepAt(states: seq<State>, steps: seq<Step>, ok: Version -> bool, i: nat) {
    i < |steps| && i + 1 < |states| && Enabled(states[i], steps[i]) && states[i + 1] == Apply(states[i], steps[i], ok)
  }

  ghost predicate IsRun(states: seq<State>, steps: seq<Step>, ok: Version -> bool) {
    |states| == |steps| + 1 && states[0] == INITIAL && forall i: nat | i < |steps| :: StepAt(states, steps, ok, i)
  }

  // ----- The invariant of every run -----

  predicate Increasing(xs: seq<Version>) {
    forall i, j | 0 <= i < j < |xs| :: xs[i] < xs[j]
  }

  predicate NonDecreasing(xs: seq<Version>) {
    forall i, j | 0 <= i < j < |xs| :: xs[i] <= xs[j]
  }

  predicate AtMost(xs: seq<Version>, v: Version) {
    forall i | 0 <= i < |xs| :: xs[i] <= v
  }

  /** Registered and not cleaned up. */
  predicate Live(x: Stream) {
    x.phase.Sending? || x.phase.Draining? || x.phase.Exiting?
  }

  /** The publish under way has yet to reach this channel. */
  predicate Pending(st: State, s: StreamId)
    requires s in st.streams
  {
    var p := st.streams[s].proxy;
    !st.pub.Idle? && p in st.pub.todo && p in st.subs && st.subs[p] == s
  }

  /** The newest version this channel can have been given. */
  function Horizon(st: State, s: StreamId): int
    requires s in st.streams
  {
    if Pending(st, s) then st.version - 1 else st.version
  }

  predicate SentIsPrefix(x: Stream) {
    match x.phase
    case Requested => x.sent == [] && x.taken == []
    case Sending(v) => x.taken == x.sent + [v]
    case Draining => x.taken == x.sent
    case _ => x.sent <= x.taken
  }

  /** The subscriber's history and what is queued for it, in version order. */
  predicate Ordered(x: Stream) {
    && Increasing(x.taken) && Increasing(x.queue)
    && (x.taken != [] && x.queue != [] ==> x.taken[|x.taken| - 1] < x.queue[0])
  }

  predicate UpTo(x: Stream, horizon: int) {
    && (x.taken != [] ==> x.taken[|x.taken| - 1] <= horizon)
    && (x.queue != [] ==> x.queue[|x.queue| - 1] <= horizon)
  }

  predicate StreamOk(x: Stream, horizon: int) {
    && |x.queue| <= CAPACITY && (x.closed <==> x.phase.Gone?)
    && Ordered(x) && UpTo(x, horizon)
    && SentIsPrefix(x) && x.received <= |x.sent|
    && (x.phase.Requested? ==> x.queue == [])
    && (!x.phase.Requested? ==> x.taken != [])
  }

  ghost predicate StreamsOk(st: State) {
    forall s | s in st.streams :: StreamOk(st.streams[s], Horizon(st, s))
  }

  ghost predicate SubsOk(st: State) {
    forall p | p in st.subs :: st.subs[p] in st.streams && st.streams[st.subs[p]].proxy == p && Live(st.streams[st.subs[p]])
  }

  ghost predicate PublisherOk(st: State) {
    && (!st.pub.Idle? ==> st.version > 0 && st.pub.todo <= st.subs.Keys)
    && (st.pub.Dropping? || st.pub.Forcing? ==> st.pub.p in st.pub.todo)
    && (st.pub.Forcing? && HasChannel(st, st.pub.p) ==> |Channel(st, st.pub.p).queue| < CAPACITY)
  }

  ghost predicate ServerOk(st: State) {
    !st.panicked && StreamsOk(st) && SubsOk(st) && PublisherOk(st)
  }

  // ----- It is kept by every step -----

  /** One stream moves on and nothing else changes. */
  lemma StreamChangeKeeps(st: State, s: StreamId, x: Stream)
    requires ServerOk(st) && s in st.streams && x.proxy == st.streams[s].proxy
    requires StreamOk(x, Horizon(st, s)) && (Live(st.streams[s]) ==> Live(x))
    requires |x.queue| <= |st.streams[s].queue|
    ensures ServerOk(SetStream(st, s, x))
  {
    SetStreamStreams(st, s, x);
    SetStreamSubs(st, s, x);
  }

  lemma SetStreamStreams(st: State, s: StreamId, x: Stream)
    requires StreamsOk(st) && s in st.streams && x.proxy == st.streams[s].proxy && StreamOk(x, Horizon(st, s))
    ensures StreamsOk(SetStream(st, s, x))
  {
    var st' := SetStream(st, s, x);
    forall t | t in st'.streams
      ensures StreamOk(st'.streams[t], Horizon(st', t))
    {
      assert Horizon(st', t) == Horizon(st, t);
      OneStream(st, t);
    }
  }

  lemma SetStreamSubs(st: State, s: StreamId, x: Stream)
    requires SubsOk(st) && PublisherOk(st) && s in st.streams && x.proxy == st.streams[s].proxy
    requires (Live(st.streams[s]) ==> Live(x)) && |x.queue| <= |st.streams[s].queue|
    ensures SubsOk(SetStream(st, s, x)) && PublisherOk(SetStream(st, s, x))
  {
  }

  lemma OneStream(st: State, s: StreamId)
    requires StreamsOk(st) && s in st.streams
    ensures StreamOk(st.streams[s], Horizon(st, s))
  {
  }

  /** The publisher's send, with room in the channel. */
  lemma PushKeeps(st: State, p: ProxyId)
    requires ServerOk(st) && !st.pub.Idle? && p in st.pub.todo && HasChannel(st, p)
    requires |Channel(st, p).queue| < CAPACITY
    ensures ServerOk(Push(st, p, st.pub.todo))
  {
    OneStream(st, st.subs[p]);
    PushStreams(st, p);
    PushSubs(st, p);
  }

  lemma PushShape(st: State, p: ProxyId)
    requires !st.pub.Idle? && HasChannel(st, p) && !Channel(st, p).closed
    ensures var st' := Push(st, p, st.pub.todo);
            && st'.streams == st.streams[st.subs[p] := Channel(st, p).(queue := Channel(st, p).queue + [st.version], given := st.version)]
            && st'.subs == st.subs && st'.version == st.version && st'.pub == Choosing(st.pub.todo - {p})
            && st'.panicked == st.panicked
  {
  }

  lemma PushStreams(st: State, p: ProxyId)
    requires ServerOk(st) && !st.pub.Idle? && p in st.pub.todo && HasChannel(st, p)
    requires |Channel(st, p).queue| < CAPACITY && !Channel(st, p).closed
    ensures StreamsOk(Push(st, p, st.pub.todo))
  {
    var st', s := Push(st, p, st.pub.todo), st.subs[p];
    PushShape(st, p);
    assert Pending(st, s) && Horizon(st', s) == st.version;
    OneStream(st, s);
    AppendOk(st.streams[s], st.version);
    forall t | t in st'.streams && t != s
      ensures StreamOk(st'.streams[t], Horizon(st', t))
    {
      OneStream(st, t);
      assert Horizon(st', t) == Horizon(st, t);
    }
  }

  lemma PushSubs(st: State, p: ProxyId)
    requires SubsOk(st) && PublisherOk(st) && !st.pub.Idle? && HasChannel(st, p) && !Channel(st, p).closed
    ensures var st' := Push(st, p, st.pub.todo);
            SubsOk(st') && PublisherOk(st')
  {
  }

  lemma AppendOk(x: Stream, v: Version)
    requires v > 0 && StreamOk(x, v - 1) && !x.phase.Requested? && |x.queue| < CAPACITY
    ensures StreamOk(x.(queue := x.queue + [v], given := v), v)
  {
    var x' := x.(queue := x.queue + [v], given := v);
    assert forall i | 0 <= i < |x.queue| :: x'.queue[i] == x.queue[i] && x.queue[i] <= x.queue[|x.queue| - 1];
  }

  lemma DropOk(x: Stream, horizon: int)
    requires StreamOk(x, horizon) && x.queue != []
    ensures StreamOk(x.(queue := x.queue[1..], dropped := x.dropped + [x.queue[0]]), horizon)
  {
  }

  lemma TakeOk(x: Stream, horizon: int)
    requires StreamOk(x, horizon) && x.phase.Draining? && x.queue != []
    ensures StreamOk(x.(phase := Sending(x.queue[0]), queue := x.queue[1..], taken := x.taken + [x.queue[0]]), horizon)
  {
    var x' := x.(phase := Sending(x.queue[0]), queue := x.queue[1..], taken := x.taken + [x.queue[0]]);
    assert forall i | 0 <= i < |x.taken| :: x'.taken[i] == x.taken[i] && x.taken[i] <= x.taken[|x.taken| - 1];
    assert x.queue[0] <= x.queue[|x.queue| - 1];
  }

  lemma DropKeeps(st: State, ok: Version -> bool)
    requires ServerOk(st) && Enabled(st, DropOldest)
    ensures ServerOk(Apply(st, DropOldest, ok))
  {
    var st' := Apply(st, DropOldest, ok);
    var s := st.subs[st.pub.p];
    assert StreamOk(st.streams[s], Horizon(st, s));
    forall t | t in st'.streams
      ensures StreamOk(st'.streams[t], Horizon(st', t))
    {
      assert Horizon(st', t) == Horizon(st, t);
      if t == s && st.streams[s].queue != [] {
        DropOk(st.streams[s], Horizon(st, s));
      }
    }
  }

  lemma PublishKeeps(st: State, ok: Version -> bool)
    requires ServerOk(st) && st.pub.Idle?
    ensures ServerOk(Apply(st, Publish, ok))
  {
    var st' := Apply(st, Publish, ok);
    assert forall t | t in st'.streams :: Horizon(st', t) >= Horizon(st, t);
  }

  lemma ReadyToDrop(st: State, p: ProxyId, ok: Version -> bool)
    requires ServerOk(st) && Enabled(st, TrySend(p)) && |Channel(st, p).queue| >= CAPACITY
    ensures ServerOk(Apply(st, TrySend(p), ok))
  {
    var st' := Apply(st, TrySend(p), ok);
    assert StreamOk(Channel(st, p), Horizon(st, st.subs[p])) && !Channel(st, p).closed;
    assert forall t | t in st'.streams :: Horizon(st', t) == Horizon(st, t);
  }

  lemma EndKeeps(st: State, ok: Version -> bool)
    requires ServerOk(st) && Enabled(st, EndPublish)
    ensures ServerOk(Apply(st, EndPublish, ok))
  {
    var st' := Apply(st, EndPublish, ok);
    assert forall t | t in st'.streams :: Horizon(st', t) == Horizon(st, t);
  }

  lemma RegisterKeeps(st: State, s: StreamId, ok: Version -> bool)
    requires ServerOk(st) && Enabled(st, Register(s))
    ensures ServerOk(Apply(st, Register(s), ok))
  {
    var st' := Apply(st, Register(s), ok);
    forall t | t in st'.streams
      ensures StreamOk(st'.streams[t], Horizon(st', t))
    {
      assert Horizon(st', t) == st.version == Horizon(st, t);
      OneStream(st, t);
    }
    assert SubsOk(st');
  }

  lemma CleanupKeeps(st: State, s: StreamId, ok: Version -> bool)
    requires ServerOk(st) && Enabled(st, Cleanup(s))
    ensures ServerOk(Apply(st, Cleanup(s), ok))
  {
    OneStream(st, s);
    CleanupStreams(st, s, ok);
    CleanupSubs(st, s, ok);
  }

  /** Between publishes every channel may hold up to the current version. */
  lemma StreamsOkWhenIdle(st: State)
    requires st.pub.Idle?
    ensures StreamsOk(st) <==> forall t | t in st.streams :: StreamOk(st.streams[t], st.version)
  {
  }

  lemma GoneOk(x: Stream, horizon: int)
    requires StreamOk(x, horizon) && x.phase.Exiting?
    ensures StreamOk(x.(phase := Gone, closed := true), horizon)
  {
  }

  lemma CleanupShape(st: State, s: StreamId, ok: Version -> bool)
    requires Enabled(st, Cleanup(s)) && !st.streams[s].closed
    ensures var st' := Apply(st, Cleanup(s), ok);
            && st'.streams == st.streams[s := st.streams[s].(phase := Gone, closed := true)] && st'.subs == st.subs - {st.streams[s].proxy}
            && st'.version == st.version && st'.pub.Idle? && !st'.panicked
  {
  }

  lemma CleanupStreams(st: State, s: StreamId, ok: Version -> bool)
    requires StreamsOk(st) && Enabled(st, Cleanup(s)) && !st.streams[s].closed
    ensures StreamsOk(Apply(st, Cleanup(s), ok))
  {
    var st' := Apply(st, Cleanup(s), ok);
    CleanupShape(st, s, ok);
    StreamsOkWhenIdle(st);
    StreamsOkWhenIdle(st');
    GoneOk(st.streams[s], st.version);
  }

  /** Cleanup deletes by proxy id, whoever holds the entry: a closed channel is never left behind. */
  lemma CleanupSubs(st: State, s: StreamId, ok: Version -> bool)
    requires SubsOk(st) && Enabled(st, Cleanup(s)) && !st.streams[s].closed
    ensures SubsOk(Apply(st, Cleanup(s), ok))
  {
  }

  lemma ConnectKeeps(st: State, c: ClientId, p: ProxyId, s: StreamId, ok: Version -> bool)
    requires ServerOk(st) && Enabled(st, Connect(c, p, s))
    ensures ServerOk(Apply(st, Connect(c, p, s), ok))
  {
    var x := Stream(c, p, [], false, Requested, [], [], [], 0, 0);
    NewStreamStreams(st, s, x);
    NewStreamSubs(st, s, x);
    ClientsDoNotMatter(SetStream(st, s, x), Apply(st, Connect(c, p, s), ok));
  }

  /** A stream that has not registered yet. */
  lemma NewStreamStreams(st: State, s: StreamId, x: Stream)
    requires StreamsOk(st) && SubsOk(st) && s !in st.streams && x == Stream(x.client, x.proxy, [], false, Requested, [], [], [], 0, 0)
    ensures StreamsOk(SetStream(st, s, x))
  {
    var st' := SetStream(st, s, x);
    forall t | t in st'.streams
      ensures StreamOk(st'.streams[t], Horizon(st', t))
    {
      if t in st.streams {
        assert Horizon(st', t) == Horizon(st, t);
        OneStream(st, t);
      }
    }
  }

  lemma NewStreamSubs(st: State, s: StreamId, x: Stream)
    requires SubsOk(st) && PublisherOk(st) && s !in st.streams
    ensures SubsOk(SetStream(st, s, x)) && PublisherOk(SetStream(st, s, x))
  {
  }

  /** What the proxies do to themselves does not concern the server. */
  predicate SameServer(st: State, st': State) {
    && st'.version == st.version && st'.streams == st.streams && st'.subs == st.subs && st'.pub == st.pub
    && st'.panicked == st.panicked
  }

  lemma ClientsDoNotMatter(st: State, st': State)
    requires ServerOk(st) && SameServer(st, st')
    ensures ServerOk(st')
  {
    forall t | t in st'.streams
      ensures StreamOk(st'.streams[t], Horizon(st', t))
    {
      assert Horizon(st', t) == Horizon(st, t);
      OneStream(st, t);
    }
  }

  lemma ReceivedOk(x: Stream, horizon: int)
    requires StreamOk(x, horizon) && x.received < |x.sent|
    ensures StreamOk(x.(received := x.received + 1), horizon)
  {
  }

  lemma OneReceived(st: State, s: StreamId)
    requires ServerOk(st) && s in st.streams && st.streams[s].received < |st.streams[s].sent|
    ensures ServerOk(SetStream(st, s, st.streams[s].(received := st.streams[s].received + 1)))
  {
    OneStream(st, s);
    ReceivedOk(st.streams[s], Horizon(st, s));
    StreamChangeKeeps(st, s, st.streams[s].(received := st.streams[s].received + 1));
  }

  /** The server's part of a step of a proxy. */
  lemma ReceiveShape(st: State, c: ClientId, ok: Version -> bool, s: StreamId)
    requires Enabled(st, Receive(c)) && s == st.clients[c].conn.value
    ensures SameServer(SetStream(st, s, st.streams[s].(received := st.streams[s].received + 1)), Apply(st, Receive(c), ok))
  {
  }

  lemma ReceiveKeeps(st: State, c: ClientId, ok: Version -> bool)
    requires ServerOk(st) && Enabled(st, Receive(c))
    ensures ServerOk(Apply(st, Receive(c), ok))
  {
    var s := st.clients[c].conn.value;
    var st1, st' := SetStream(st, s, st.streams[s].(received := st.streams[s].received + 1)), Apply(st, Receive(c), ok);
    assert ServerOk(st1) by {
      OneReceived(st, s);
    }
    assert SameServer(st1, st') by {
      ReceiveShape(st, c, ok, s);
    }
    ClientsDoNotMatter(st1, st');
  }

  lemma StepKeepsServer(st: State, step: Step, ok: Version -> bool)
    requires ServerOk(st) && Enabled(st, step)
    ensures ServerOk(Apply(st, step, ok))
  {
    match step
    case Publish => PublishKeeps(st, ok);
    case TrySend(p) =>
      if |Channel(st, p).queue| < CAPACITY {
        PushKeeps(st, p);
      } else {
        ReadyToDrop(st, p, ok);
      }
    case DropOldest => DropKeeps(st, ok);
    case ForceSend => PushKeeps(st, st.pub.p);
    case EndPublish => EndKeeps(st, ok);
    case Register(s) => RegisterKeeps(st, s, ok);
    case Cleanup(s) => CleanupKeeps(st, s, ok);
    case SendOk(s) => SubscriberKeeps(st, s, step, ok);
    case SendFail(s) => SubscriberKeeps(st, s, step, ok);
    case Take(s) => SubscriberKeeps(st, s, step, ok);
    case TakeClosed(s) => SubscriberKeeps(st, s, step, ok);
    case ContextDone(s) => SubscriberKeeps(st, s, step, ok);
    case Connect(c, p, s) => ConnectKeeps(st, c, p, s, ok);
    case Receive(c) => ReceiveKeeps(st, c, ok);
    case Disconnect(_) => ClientsDoNotMatter(st, Apply(st, step, ok));
  }

  lemma SubscriberKeeps(st: State, s: StreamId, step: Step, ok: Version -> bool)
    requires ServerOk(st) && Enabled(st, step) && s in st.streams
    requires step == SendOk(s) || step == SendFail(s) || step == Take(s) || step == TakeClosed(s) || step == ContextDone(s)
    ensures ServerOk(Apply(st, step, ok))
  {
    var x, x' := st.streams[s], Apply(st, step, ok).streams[s];
    assert StreamOk(x, Horizon(st, s));
    if step.Take? {
      TakeOk(x, Horizon(st, s));
    }
    StreamChangeKeeps(st, s, x');
  }

  // ----- Every run: no panic, and a publish that cannot block -----

  /** No channel is closed twice or sent on after its close, whatever ids the proxies use. */
  lemma {:induction false} EveryStateIsOk(states: seq<State>, steps: seq<Step>, ok: Version -> bool, n: nat)
    requires IsRun(states, steps, ok) && n < |states|
    ensures ServerOk(states[n])
  {
    if n > 0 {
      EveryStateIsOk(states, steps, ok, n - 1);
      assert StepAt(states, steps, ok, n - 1);
      StepKeepsServer(states[n - 1], steps[n - 1], ok);
    }
  }

  predicate PublisherStep(step: Step) {
    step.Publish? || step.TrySend? || step.DropOldest? || step.ForceSend? || step.EndPublish?
  }

  /** How many steps UpdateConfig may still take before it releases the lock. */
  function StepsLeft(pub: Publisher): nat {
    match pub
    case Idle => 0
    case Choosing(todo) => 3 * |todo| + 1
    case Dropping(todo, _) => 3 * |todo|
    case Forcing(todo, _) => if todo == {} then 0 else 3 * |todo| - 1
  }

  /** While UpdateConfig runs, its next channel operation can always be taken at once, whatever the
      consumers have done to the channel since it looked: in particular the final send has room. */
  lemma PublishNeverBlocks(states: seq<State>, steps: seq<Step>, ok: Version -> bool, n: nat) returns (step: Step)
    requires IsRun(states, steps, ok) && n < |states| && !states[n].pub.Idle?
    ensures PublisherStep(step) && Enabled(states[n], step)
    ensures states[n].pub.Forcing? ==> step == ForceSend && |Channel(states[n], states[n].pub.p).queue| < CAPACITY
    ensures forall p | states[n].pub.Choosing? && p in states[n].pub.todo :: Enabled(states[n], TrySend(p))
  {
    EveryStateIsOk(states, steps, ok, n);
    var pub := states[n].pub;
    match pub
    case Choosing(todo) =>
      if todo == {} {
        step := EndPublish;
      } else {
        var p :| p in todo;
        step := TrySend(p);
      }
    case Dropping(_, _) => step := DropOldest;
    case Forcing(_, _) => step := ForceSend;
  }

  lemma OthersLeaveThePublisher(st: State, step: Step, ok: Version -> bool)
    requires Enabled(st, step) && !PublisherStep(step)
    ensures Apply(st, step, ok).pub == st.pub
  {
  }

  lemma SentToOneMore(st: State, p: ProxyId)
    requires !st.pub.Idle? && p in st.pub.todo && HasChannel(st, p) && !Channel(st, p).closed
    ensures StepsLeft(Push(st, p, st.pub.todo).pub) == 3 * |st.pub.todo| - 2
  {
    PushShape(st, p);
    RemoveOne(st.pub.todo, p);
  }

  lemma TrySendAdvances(st: State, p: ProxyId, ok: Version -> bool)
    requires StreamsOk(st) && SubsOk(st) && Enabled(st, TrySend(p))
    ensures StepsLeft(Apply(st, TrySend(p), ok).pub) < StepsLeft(st.pub)
  {
    OneStream(st, st.subs[p]);
    if |Channel(st, p).queue| < CAPACITY {
      SentToOneMore(st, p);
    } else {
      assert Apply(st, TrySend(p), ok).pub == Dropping(st.pub.todo, p);
    }
  }

  lemma ForceSendAdvances(st: State, ok: Version -> bool)
    requires StreamsOk(st) && SubsOk(st) && Enabled(st, ForceSend) && st.pub.p in st.pub.todo
    ensures StepsLeft(Apply(st, ForceSend, ok).pub) < StepsLeft(st.pub)
  {
    OneStream(st, st.subs[st.pub.p]);
    SentToOneMore(st, st.pub.p);
  }

  lemma DropAdvances(st: State, ok: Version -> bool)
    requires Enabled(st, DropOldest) && st.pub.p in st.pub.todo
    ensures StepsLeft(Apply(st, DropOldest, ok).pub) < StepsLeft(st.pub)
  {
    assert Apply(st, DropOldest, ok).pub == Forcing(st.pub.todo, st.pub.p);
  }

  /** A publish ends after at most StepsLeft of its own steps, and nobody else's step delays it. */
  lemma PublishTerminates(st: State, step: Step, ok: Version -> bool)
    requires ServerOk(st) && Enabled(st, step) && !step.Publish?
    ensures var st' := Apply(st, step, ok);
            if PublisherStep(step) then StepsLeft(st'.pub) < StepsLeft(st.pub) else st'.pub == st.pub
  {
    match step
    case TrySend(p) => TrySendAdvances(st, p, ok);
    case DropOldest => DropAdvances(st, ok);
    case ForceSend => ForceSendAdvances(st, ok);
    case EndPublish => assert Apply(st, step, ok).pub == Idle;
    case _ => OthersLeaveThePublisher(st, step, ok);
  }

  lemma RemoveOne(todo: set<ProxyId>, p: ProxyId)
    requires p in todo
    ensures |todo - {p}| == |todo| - 1
  {
  }

  /** However a subscription ends, it goes to its cleanup with channel and map entry as they are. */
  lemma EveryExitWaits(st: State, step: Step, ok: Version -> bool, s: StreamId)
    requires Enabled(st, step) && (step == SendFail(s) || step == TakeClosed(s) || step == ContextDone(s))
    ensures Apply(st, step, ok) == SetStream(st, s, st.streams[s].(phase := Exiting))
  {
  }

  /** And only the cleanup takes it from there. */
  lemma OnlyCleanupEnds(st: State, step: Step, ok: Version -> bool, s: StreamId)
    requires Enabled(st, step) && s in st.streams && st.streams[s].phase.Exiting? && step != Cleanup(s)
    ensures s in Apply(st, step, ok).streams && Apply(st, step, ok).streams[s].phase.Exiting?
  {
  }
}
