/** The proxies' end of the config stream: ConfigClient.Subscribe and SubscribeWithRetry of
    pkg/proxy/dataplane.go against the server. Versions are applied in order within a stream and
    never go back across reconnects, and a drained stream leaves the current config applied. */
module FanOutClients {
  import opened FanOut
  import opened FanOutDelivery

  /** The versions HandleConfig accepts, in order. */
  function Accepted(vs: seq<Version>, ok: Version -> bool): seq<Version> {
    if vs == [] then []
    else Accepted(vs[..|vs| - 1], ok) + if ok(vs[|vs| - 1]) then [vs[|vs| - 1]] else []
  }

  lemma {:induction false} AcceptedIncreases(vs: seq<Version>, ok: Version -> bool)
    requires Increasing(vs)
    ensures Increasing(Accepted(vs, ok))
    ensures vs != [] ==> AtMost(Accepted(vs, ok), vs[|vs| - 1])
    ensures forall i | 0 <= i < |Accepted(vs, ok)| :: Accepted(vs, ok)[i] in vs
  {
    if vs != [] {
      AcceptedIncreases(vs[..|vs| - 1], ok);
    }
  }

  lemma AcceptedLast(vs: seq<Version>, ok: Version -> bool)
    requires vs != [] && ok(vs[|vs| - 1])
    ensures Accepted(vs, ok) != [] && Accepted(vs, ok)[|Accepted(vs, ok)| - 1] == vs[|vs| - 1]
  {
  }

  function History(c: Client): seq<Version> {
    c.earlier + c.applied
  }

  /** Relation of a client to the stream it is on. */
  predicate FedBy(c: Client, x: Stream, ok: Version -> bool) {
    && x.received <= |x.sent|
    && c.applied == Accepted(x.sent[..x.received], ok)
    && (x.taken != [] ==> AtMost(c.earlier, x.taken[0]))
  }

  predicate ClientOk(st: State, id: ClientId, ok: Version -> bool) {
    var c := ClientOf(st, id);
    && NonDecreasing(History(c)) && AtMost(History(c), st.version)
    && (c.conn.Some? ==> c.conn.value in st.streams && st.streams[c.conn.value].client == id
                         && FedBy(c, st.streams[c.conn.value], ok))
  }

  ghost predicate ClientsOk(st: State, ok: Version -> bool) {
    forall id: ClientId :: ClientOk(st, id, ok)
  }

  /** What the server does to a stream, as far as its client can tell. */
  predicate Continues(x: Stream, x': Stream, version: Version) {
    && x'.client == x.client && x'.received == x.received && x.sent <= x'.sent
    && (x.taken != [] ==> x'.taken != [] && x'.taken[0] == x.taken[0])
    && (x.taken == [] && x'.taken != [] ==> x'.taken[0] == version)
  }

  predicate ClientStep(step: Step) {
    step.Connect? || step.Receive? || step.Disconnect?
  }

  lemma PublisherContinues(st: State, step: Step, ok: Version -> bool, s: StreamId)
    requires Enabled(st, step) && PublisherStep(step) && s in st.streams
    ensures s in Apply(st, step, ok).streams && Continues(st.streams[s], Apply(st, step, ok).streams[s], st.version)
  {
  }

  lemma RegisterContinues(st: State, r: StreamId, ok: Version -> bool, s: StreamId)
    requires ServerOk(st) && Enabled(st, Register(r)) && s in st.streams
    ensures s in Apply(st, Register(r), ok).streams && Continues(st.streams[s], Apply(st, Register(r), ok).streams[s], st.version)
  {
    OneStream(st, s);
  }

  lemma ServerContinues(st: State, step: Step, ok: Version -> bool, s: StreamId)
    requires ServerOk(st) && Enabled(st, step) && !PublisherStep(step) && !ClientStep(step) && s in st.streams
    ensures s in Apply(st, step, ok).streams && Continues(st.streams[s], Apply(st, step, ok).streams[s], st.version)
  {
    if step.Register? {
      RegisterContinues(st, step.s, ok, s);
    } else if step.Cleanup? {
      OneStream(st, step.s);
      CleanupShape(st, step.s, ok);
    } else {
      OneStream(st, s);
    }
  }

  lemma ServerStepKeepsClient(st: State, step: Step, ok: Version -> bool, id: ClientId)
    requires ServerOk(st) && Enabled(st, step) && !ClientStep(step) && ClientOk(st, id, ok)
    ensures ClientOk(Apply(st, step, ok), id, ok)
  {
    OnlyPublishCounts(st, step, ok);
    OnlyClientsChangeClients(st, step, ok);
    var c := ClientOf(st, id);
    if c.conn.Some? {
      var s := c.conn.value;
      if PublisherStep(step) {
        PublisherContinues(st, step, ok, s);
      } else {
        ServerContinues(st, step, ok, s);
      }
      StillFed(c, st.streams[s], Apply(st, step, ok).streams[s], st.version, ok);
    }
  }

  lemma OnlyClientsChangeClients(st: State, step: Step, ok: Version -> bool)
    requires Enabled(st, step) && !ClientStep(step)
    ensures Apply(st, step, ok).clients == st.clients
  {
  }

  lemma StillFed(c: Client, x: Stream, x': Stream, version: Version, ok: Version -> bool)
    requires FedBy(c, x, ok) && Continues(x, x', version) && AtMost(History(c), version)
    ensures FedBy(c, x', ok)
  {
    assert x'.sent[..x'.received] == x.sent[..x.received];
    assert forall i | 0 <= i < |c.earlier| :: c.earlier[i] == History(c)[i];
  }

  /** The next version received is at least everything applied before, and newer than anything
      applied on this stream. */
  lemma NextIsNewer(c: Client, x: Stream, horizon: int, ok: Version -> bool)
    requires StreamOk(x, horizon) && FedBy(c, x, ok) && x.received < |x.sent| && NonDecreasing(History(c))
    ensures x.sent[x.received] <= horizon
    ensures AtMost(History(c), x.sent[x.received]) && NonDecreasing(History(c) + [x.sent[x.received]])
  {
    var v := x.sent[x.received];
    SentOrdered(x, horizon);
    var got := x.sent[..x.received];
    AcceptedIncreases(got, ok);
    forall i | 0 <= i < |History(c)|
      ensures History(c)[i] <= v
    {
      if i >= |c.earlier| {
        assert c.applied[i - |c.earlier|] in got;
      } else {
        assert History(c)[i] == c.earlier[i];
      }
    }
  }

  lemma SentOrdered(x: Stream, horizon: int)
    requires StreamOk(x, horizon)
    ensures x.sent <= x.taken && Increasing(x.sent)
    ensures x.sent != [] ==> x.sent[0] == x.taken[0] && forall i | 0 <= i < |x.sent| :: x.sent[i] <= horizon
  {
    assert forall i | 0 <= i < |x.taken| :: x.taken[i] <= x.taken[|x.taken| - 1];
    assert forall i | 0 <= i < |x.sent| :: x.sent[i] == x.taken[i];
  }

  lemma ReceiveFeeds(c: Client, x: Stream, horizon: int, ok: Version -> bool)
    requires StreamOk(x, horizon) && FedBy(c, x, ok) && x.received < |x.sent| && NonDecreasing(History(c)) && AtMost(History(c), horizon)
    ensures var v := x.sent[x.received];
            var c' := if ok(v) then c.(applied := c.applied + [v]) else c;
            FedBy(c', x.(received := x.received + 1), ok) && NonDecreasing(History(c')) && AtMost(History(c'), horizon)
  {
    NextIsNewer(c, x, horizon, ok);
    var got := x.sent[..x.received + 1];
    assert got[..|got| - 1] == x.sent[..x.received];
    assert c.earlier + (c.applied + [x.sent[x.received]]) == History(c) + [x.sent[x.received]];
  }

  lemma ReceiveKeepsClient(st: State, c: ClientId, ok: Version -> bool, id: ClientId)
    requires ServerOk(st) && Enabled(st, Receive(c)) && ClientOk(st, id, ok) && ClientOk(st, c, ok)
    ensures ClientOk(Apply(st, Receive(c), ok), id, ok)
  {
    if id == c {
      var s := st.clients[c].conn.value;
      OneStream(st, s);
      var x, client := st.streams[s], st.clients[c];
      NextIsNewer(client, x, Horizon(st, s), ok);
      ReceiveFeeds(client, x, st.version, ok);
    }
  }

  lemma ClientStepKeepsClient(st: State, step: Step, ok: Version -> bool, id: ClientId)
    requires ServerOk(st) && Enabled(st, step) && ClientStep(step) && ClientsOk(st, ok)
    ensures ClientOk(Apply(st, step, ok), id, ok)
  {
    assert ClientOk(st, id, ok);
    match step
    case Receive(c) =>
      assert ClientOk(st, c, ok);
      ReceiveKeepsClient(st, c, ok, id);
    case Connect(c, p, s) => ConnectKeepsClient(st, c, p, s, ok, id);
    case Disconnect(_) =>
  }

  lemma ConnectKeepsClient(st: State, c: ClientId, p: ProxyId, s: StreamId, ok: Version -> bool, id: ClientId)
    requires Enabled(st, Connect(c, p, s)) && ClientOk(st, id, ok)
    ensures ClientOk(Apply(st, Connect(c, p, s), ok), id, ok)
  {
    if id == c {
      assert History(Apply(st, Connect(c, p, s), ok).clients[c]) == History(ClientOf(st, c));
    }
  }

  lemma StepKeepsClients(st: State, step: Step, ok: Version -> bool)
    requires ServerOk(st) && Enabled(st, step) && ClientsOk(st, ok)
    ensures ClientsOk(Apply(st, step, ok), ok)
  {
    forall id: ClientId
      ensures ClientOk(Apply(st, step, ok), id, ok)
    {
      assert ClientOk(st, id, ok);
      if ClientStep(step) {
        ClientStepKeepsClient(st, step, ok, id);
      } else {
        ServerStepKeepsClient(st, step, ok, id);
      }
    }
  }

  lemma {:induction false} EveryClientIsOk(states: seq<State>, steps: seq<Step>, ok: Version -> bool, n: nat)
    requires IsRun(states, steps, ok) && n < |states|
    ensures ClientsOk(states[n], ok)
  {
    if n > 0 {
      EveryClientIsOk(states, steps, ok, n - 1);
      EveryStateIsOk(states, steps, ok, n - 1);
      assert StepAt(states, steps, ok, n - 1);
      StepKeepsClients(states[n - 1], steps[n - 1], ok);
    }
  }

  // ----- What a proxy has applied stays applied -----

  lemma HistoryKept(st: State, step: Step, ok: Version -> bool, id: ClientId)
    requires Enabled(st, step) && step != Receive(id)
    ensures History(ClientOf(Apply(st, step, ok), id)) == History(ClientOf(st, id))
  {
    if step.Connect? && step.c == id {
      var c := ClientOf(st, id);
      var c' := Apply(st, step, ok).clients[id];
      assert c'.earlier == c.earlier + c.applied && c'.applied == [];
    } else if !ClientStep(step) {
      OnlyClientsChangeClients(st, step, ok);
    }
  }

  lemma HistoryGrows(st: State, ok: Version -> bool, id: ClientId)
    requires Enabled(st, Receive(id))
    ensures var x := st.streams[st.clients[id].conn.value];
            var v := x.sent[x.received];
            History(ClientOf(Apply(st, Receive(id), ok), id)) == History(ClientOf(st, id)) + if ok(v) then [v] else []
  {
    var c := st.clients[id];
    var x := st.streams[c.conn.value];
    assert c.earlier + (c.applied + [x.sent[x.received]]) == c.earlier + c.applied + [x.sent[x.received]];
  }

  /** Over every run a proxy's history only grows at its end, whatever becomes of its streams: by the
      received version if it is acceptable. */
  lemma {:induction false} HistoryExtends(states: seq<State>, steps: seq<Step>, ok: Version -> bool, n: nat, m: nat, id: ClientId)
    requires IsRun(states, steps, ok) && n <= m < |states|
    ensures History(ClientOf(states[n], id)) <= History(ClientOf(states[m], id))
  {
    if n < m {
      HistoryExtends(states, steps, ok, n, m - 1, id);
      assert StepAt(states, steps, ok, m - 1);
      if steps[m - 1] == Receive(id) {
        HistoryGrows(states[m - 1], ok, id);
      } else {
        HistoryKept(states[m - 1], steps[m - 1], ok, id);
      }
    }
  }

  // ----- The results -----

  /** In every run, for every proxy: the versions it has applied never go back over all its streams,
      none is ahead of the server, and on the stream it is on they strictly increase and are exactly
      the acceptable ones among those it has received. */
  lemma AppliedNeverGoesBack(states: seq<State>, steps: seq<Step>, ok: Version -> bool, n: nat, id: ClientId)
    requires IsRun(states, steps, ok) && n < |states|
    ensures var c := ClientOf(states[n], id);
            && NonDecreasing(History(c)) && AtMost(History(c), states[n].version)
            && (c.conn.Some? ==>
                  && c.conn.value in states[n].streams && Increasing(c.applied)
                  && var x := states[n].streams[c.conn.value];
                     x.received <= |x.sent| && c.applied == Accepted(x.sent[..x.received], ok))
  {
    EveryClientIsOk(states, steps, ok, n);
    EveryStateIsOk(states, steps, ok, n);
    assert ClientOk(states[n], id, ok);
    var c := ClientOf(states[n], id);
    if c.conn.Some? {
      OneStream(states[n], c.conn.value);
      var x := states[n].streams[c.conn.value];
      SentOrdered(x, Horizon(states[n], c.conn.value));
      AcceptedIncreases(x.sent[..x.received], ok);
    }
  }

  /** End to end: in every run with at most one live stream per proxy id, once no publish is under
      way and a proxy's stream has been drained and received, an acceptable current config is the one
      the proxy applied last. */
  lemma DrainedProxyIsCurrent(states: seq<State>, steps: seq<Step>, ok: Version -> bool, n: nat, id: ClientId)
    requires IsRun(states, steps, ok) && n < |states|
    requires forall i | 0 <= i <= n :: OneLivePerId(states[i])
    requires var st := states[n];
             st.pub.Idle? && ok(st.version) &&
             var c := ClientOf(st, id);
             c.conn.Some? && c.conn.value in st.streams &&
             var x := st.streams[c.conn.value];
             x.phase.Draining? && x.queue == [] && x.received == |x.sent|
    ensures var applied := ClientOf(states[n], id).applied;
            applied != [] && applied[|applied| - 1] == states[n].version
  {
    LiveIsRegistered(states, steps, ok, n);
    EveryClientIsOk(states, steps, ok, n);
    EveryStateIsOk(states, steps, ok, n);
    assert ClientOk(states[n], id, ok);
    var s := ClientOf(states[n], id).conn.value;
    var x := states[n].streams[s];
    QueueIsTheNewestBlock(states, steps, ok, n, s);
    OneStream(states[n], s);
    assert x.sent[..x.received] == x.sent == x.taken;
    AcceptedLast(x.sent, ok);
  }
}
