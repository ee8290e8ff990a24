/** The order in which a request that fails tries the backends: the one the balancer of
    pkg/proxy/loadbalancer.go chooses, then the one it chooses with that one down, and so on. */
module Preference {
  import opened Backends
  import opened Balancer

  predicate SameLoads(ss: seq<Snap>, ss': seq<Snap>) {
    |ss| == |ss'| && forall i | 0 <= i < |ss| :: ss[i].active == ss'[i].active
  }

  /** The balancer can tell these apart by nothing but time. */
  predicate SameView(ss: seq<Snap>, ss': seq<Snap>) {
    SameLoads(ss, ss') && Flags(ss) == Flags(ss')
  }

  ghost function HealthySet(ss: seq<Snap>): set<nat> {
    set i: nat | i < |ss| && ss[i].breaker.healthy
  }

  function Down(ss: seq<Snap>, k: nat): (r: seq<Snap>)
    requires k < |ss|
    ensures SameLoads(ss, r) && Flags(r) == Flags(ss)[k := false]
  {
    ss[k := ss[k].(breaker := ss[k].breaker.(healthy := false))]
  }

  ghost function Preferred(strategy: string, ss: seq<Snap>): (h: seq<nat>)
    ensures forall i | 0 <= i < |h| :: h[i] < |ss|
    decreases HealthySet(ss)
  {
    var k := Choice(strategy, ss);
    if k == |ss| then []
    else
      assert k in HealthySet(ss) && k !in HealthySet(Down(ss, k));
      [k] + Preferred(strategy, Down(ss, k))
  }

  // ----- It depends on health and load only -----

  lemma {:induction false} FewestSame(ss: seq<Snap>, ss': seq<Snap>, n: nat)
    requires SameView(ss, ss') && n <= |ss|
    ensures Fewest(ss, n) == Fewest(ss', n)
  {
    if n > 0 {
      FewestSame(ss, ss', n - 1);
      assert Flags(ss)[n - 1] == Flags(ss')[n - 1];
    }
  }

  lemma ChoiceSame(strategy: string, ss: seq<Snap>, ss': seq<Snap>)
    requires SameView(ss, ss')
    ensures Choice(strategy, ss) == Choice(strategy, ss')
  {
    FewestSame(ss, ss', |ss|);
  }

  lemma {:induction false} PreferredSame(strategy: string, ss: seq<Snap>, ss': seq<Snap>)
    requires SameView(ss, ss')
    ensures Preferred(strategy, ss) == Preferred(strategy, ss')
    decreases HealthySet(ss)
  {
    ChoiceSame(strategy, ss, ss');
    var k := Choice(strategy, ss);
    if k < |ss| {
      assert k in HealthySet(ss) && k !in HealthySet(Down(ss, k));
      PreferredSame(strategy, Down(ss, k), Down(ss', k));
    }
  }

  /** A backend that goes down leaves the others in the same order. */
  lemma PreferredAfterFailure(strategy: string, ss: seq<Snap>, ss': seq<Snap>, k: nat)
    requires k < |ss| && k == Choice(strategy, ss) && SameLoads(ss, ss') && Flags(ss') == Flags(ss)[k := false]
    ensures Preferred(strategy, ss) == [k] + Preferred(strategy, ss')
  {
    PreferredSame(strategy, Down(ss, k), ss');
  }

  // ----- It is the healthy backends, best first -----

  /** What the strategy likes better. */
  predicate Better(strategy: string, ss: seq<Snap>, i: nat, j: nat)
    requires i < |ss| && j < |ss|
  {
    if strategy == "least-connections" then ss[i].active < ss[j].active || (ss[i].active == ss[j].active && i < j)
    else i < j
  }

  /** Exactly the healthy backends, each once, in the order of the strategy. */
  ghost predicate Ranks(strategy: string, ss: seq<Snap>, h: seq<nat>) {
    && (forall i | 0 <= i < |h| :: h[i] < |ss| && ss[h[i]].breaker.healthy)
    && (forall i, j | 0 <= i < j < |h| :: Better(strategy, ss, h[i], h[j]))
    && (forall k: nat | k < |ss| && ss[k].breaker.healthy :: k in h)
  }

  lemma ChoiceIsBest(strategy: string, ss: seq<Snap>, j: nat)
    requires j < |ss| && ss[j].breaker.healthy && j != Choice(strategy, ss)
    ensures Choice(strategy, ss) < |ss| && Better(strategy, ss, Choice(strategy, ss), j)
  {
    FewestIsLeast(ss, |ss|);
    var fs, k := Flags(ss), FirstTrue(Flags(ss));
    assert fs[j];
    assert forall i | 0 <= i < k :: !fs[i];
  }

  lemma {:induction false} PreferredRanks(strategy: string, ss: seq<Snap>)
    ensures Ranks(strategy, ss, Preferred(strategy, ss))
    decreases HealthySet(ss)
  {
    var k := Choice(strategy, ss);
    if k < |ss| {
      var down := Down(ss, k);
      assert k in HealthySet(ss) && k !in HealthySet(down);
      PreferredRanks(strategy, down);
      RanksCons(strategy, ss, k, Preferred(strategy, down));
    } else {
      forall j: nat | j < |ss|
        ensures !ss[j].breaker.healthy
      {
        if ss[j].breaker.healthy {
          ChoiceIsBest(strategy, ss, j);
        }
      }
    }
  }

  lemma RanksCons(strategy: string, ss: seq<Snap>, k: nat, rest: seq<nat>)
    requires k < |ss| && k == Choice(strategy, ss) && Ranks(strategy, Down(ss, k), rest)
    ensures Ranks(strategy, ss, [k] + rest)
  {
    var down, h := Down(ss, k), [k] + rest;
    forall i | 0 <= i < |rest|
      ensures rest[i] < |ss| && ss[rest[i]].breaker.healthy && Better(strategy, ss, k, rest[i])
    {
      assert down[rest[i]].breaker.healthy;
      ChoiceIsBest(strategy, ss, rest[i]);
    }
    forall j: nat | j < |ss| && ss[j].breaker.healthy
      ensures j in h
    {
      if j != k {
        assert down[j].breaker.healthy;
      }
    }
    forall i, j | 0 <= i < j < |h|
      ensures Better(strategy, ss, h[i], h[j])
    {
      if i > 0 {
        assert Better(strategy, down, rest[i - 1], rest[j - 1]);
      }
    }
  }
}
