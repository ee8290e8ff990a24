/** Server of controlplane/cmd/server.go as the object it is: a version, the current config and a
    map of bounded channels, each method one lock region with nobody else at the channels. FanOut
    has the same operations with consumers at work in between. */
module ConfigServer {
  import opened Text
  import opened FanOut

  /** A config as UpdateConfig stamps it. */
  datatype Stamped<C> = Stamped(version: string, config: C)

  /** The label of the n-th update. */
  function VersionLabel(n: nat): string {
    "v" + Decimal(n)
  }

  /** A subscriber's channel, made by one call of Subscribe for one proxy. */
  class ConfigChan<C> {
    const proxy: ProxyId
    var queue: seq<Stamped<C>>
    var closed: bool

    constructor (proxy: ProxyId)
      ensures this.proxy == proxy && queue == [] && !closed
    {
      this.proxy := proxy;
      queue := [];
      closed := false;
    }
  }

  /** Send v, giving up the oldest entry where there is no room. */
  function Overwritten<T>(queue: seq<T>, v: T): (r: seq<T>)
    ensures r != [] && r[|r| - 1] == v
    ensures |queue| <= CAPACITY ==> |r| <= CAPACITY
  {
    if |queue| < CAPACITY then queue + [v] else queue[1..] + [v]
  }

  class Server<C> {
    var version: nat
    var current: Stamped<C>
    var subscribers: map<ProxyId, ConfigChan<C>>

    ghost predicate Valid()
      reads this, subscribers.Values
    {
      AllOpen(subscribers)
    }

    constructor (initial: C)
      ensures Valid() && version == 0 && current == Stamped("0", initial) && subscribers == map[]
    {
      version := 0;
      current := Stamped("0", initial);
      subscribers := map[];
    }

    /** The first lock region of Subscribe: channel and snapshot in one. */
    method Register(proxy: ProxyId) returns (channel: ConfigChan<C>, snapshot: Stamped<C>)
      requires Valid()
      modifies this`subscribers
      ensures Valid() && fresh(channel) && channel.proxy == proxy && channel.queue == []
      ensures subscribers == old(subscribers)[proxy := channel] && snapshot == current
    {
      channel := new ConfigChan(proxy);
      subscribers := subscribers[proxy := channel];
      snapshot := current;
    }

    /** The deferred lock region of Subscribe. It deletes whatever channel the id leads to, so that
        another stream's channel may lose its entry; it never leaves the closed one behind. */
    method Cleanup(channel: ConfigChan<C>)
      requires Valid() && !channel.closed
      modifies this`subscribers, channel`closed
      ensures Valid() && channel.closed && subscribers == old(subscribers) - {channel.proxy}
    {
      subscribers := subscribers - {channel.proxy};
      channel.closed := true;
    }

    method UpdateConfig(config: C)
      requires Valid()
      modifies this`version, this`current, subscribers.Values
      ensures Valid() && version == old(version) + 1 && current == Stamped(VersionLabel(version), config)
      ensures current.version == "v" + Decimal(old(version) + 1) && current.config == config && subscribers == old(subscribers)
      ensures forall p | p in subscribers ::
                var before := old(subscribers[p].queue);
                && (|before| < 10 ==> subscribers[p].queue == before + [current])
                && (|before| == 10 ==> subscribers[p].queue == before[1..] + [current])
    {
      version := version + 1;
      current := Stamped(VersionLabel(version), config);
      SendAll(subscribers, current);
    }
  }

  ghost predicate AllOpen<C>(chans: map<ProxyId, ConfigChan<C>>)
    reads chans.Values
  {
    forall p | p in chans :: chans[p].proxy == p && !chans[p].closed && |chans[p].queue| <= CAPACITY
  }

  /** The loop over the subscribers, in any order. */
  method SendAll<C>(chans: map<ProxyId, ConfigChan<C>>, v: Stamped<C>)
    requires AllOpen(chans)
    modifies chans.Values
    ensures AllOpen(chans)
    ensures forall p | p in chans :: chans[p].queue == Overwritten(old(chans[p].queue), v)
  {
    ghost var before := map p | p in chans :: chans[p].queue;
    var todo := chans.Keys;
    while todo != {}
      invariant todo <= chans.Keys && AllOpen(chans)
      invariant forall p | p in chans ::
                  chans[p].queue == if p in todo then before[p] else Overwritten(before[p], v)
      decreases |todo|
    {
      var p :| p in todo;
      Send(chans[p], v);
      todo := todo - {p};
    }
  }

  /** The selects around one channel. */
  method Send<C>(channel: ConfigChan<C>, v: Stamped<C>)
    requires !channel.closed && |channel.queue| <= CAPACITY
    modifies channel`queue
    ensures channel.queue == Overwritten(old(channel.queue), v)
    ensures |old(channel.queue)| < 10 ==> channel.queue == old(channel.queue) + [v]
    ensures |old(channel.queue)| == 10 ==> channel.queue == old(channel.queue)[1..] + [v]
  {
    if |channel.queue| < CAPACITY {
      channel.queue := channel.queue + [v];
    } else {
      if channel.queue != [] {
        channel.queue := channel.queue[1..];
      }
      channel.queue := channel.queue + [v];
    }
  }

  /** Labels tell updates apart, and none is the label of the initial config. */
  lemma VersionLabelsDiffer(m: nat, n: nat)
    ensures VersionLabel(m) != "0"
    ensures VersionLabel(m) == VersionLabel(n) ==> m == n
  {
    assert VersionLabel(m)[0] == 'v' != "0"[0];
    if VersionLabel(m) == VersionLabel(n) {
      assert VersionLabel(m)[1..] == Decimal(m) && VersionLabel(n)[1..] == Decimal(n);
      DecimalInjective(m, n);
    }
  }

  /** Taking the steps one after the other leads from st to st'. */
  ghost predicate Leads(st: State, steps: seq<Step>, st': State, ok: Version -> bool)
    decreases |steps|
  {
    if steps == [] then st' == st
    else Enabled(st, steps[0]) && Leads(Apply(st, steps[0], ok), steps[1..], st', ok)
  }

  /** The publisher's steps at one channel, with no consumer in between, amount to Send. */
  lemma UninterruptedSend(st: State, p: ProxyId, ok: Version -> bool) returns (steps: seq<Step>, st': State)
    requires ServerOk(st) && Enabled(st, TrySend(p))
    ensures Leads(st, steps, st', ok) && (forall i | 0 <= i < |steps| :: PublisherStep(steps[i]))
    ensures st'.pub == Choosing(st.pub.todo - {p}) && HasChannel(st', p)
    ensures Channel(st', p) == Channel(st, p).(queue := Overwritten(Channel(st, p).queue, st.version), given := st.version,
                                               dropped := Channel(st', p).dropped)
  {
    OneStream(st, st.subs[p]);
    st' := Apply(st, TrySend(p), ok);
    if |Channel(st, p).queue| < CAPACITY {
      steps := [TrySend(p)];
      assert Leads(st', [], st', ok);
    } else {
      var s1 := st';
      var s2 := Apply(s1, DropOldest, ok);
      st' := Apply(s2, ForceSend, ok);
      steps := [TrySend(p), DropOldest, ForceSend];
      assert Leads(s2, [ForceSend], st', ok);
      assert steps[1..] == [DropOldest, ForceSend] && steps[1..][1..] == [ForceSend];
    }
  }
}
