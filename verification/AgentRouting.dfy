/** Adaptive provider chains: per agent and provider an exponentially smoothed
    latency with counts and a sliding window, and the reordering of a chain by
    smoothed latency once there is enough data. */
module AgentRouting {
  import opened Options
  import opened RealMath
  import opened Sorting
  import InferenceBreaker

  const ALPHA := 0.2
  const FAILURE_LATENCY_MS := 30000.0
  const MIN_SAMPLES := 10
  const MIN_SAMPLES_FAST := 5
  const WINDOW_LIMIT := 50
  const WINDOW_KEPT := 25

  datatype Observation = Observation(latency: real, success: bool)

  datatype Perf = Perf(ema: real, samples: nat, successes: nat, failures: nat, p50: real, raw: seq<real>)

  const NO_PERF := Perf(0.0, 0, 0, 0, 0.0, [])

  // A failure counts as thirty seconds at least.
  function Effective(o: Observation): real
  {
    if o.success then o.latency else Max(o.latency, FAILURE_LATENCY_MS)
  }

  function Smooth(ema: real, x: real): real { ALPHA * x + (1.0 - ALPHA) * ema }

  function Slide(raw: seq<real>, x: real): seq<real>
  {
    var longer := raw + [x];
    if |longer| > WINDOW_LIMIT then longer[|longer| - WINDOW_KEPT..] else longer
  }

  function UpperMedian(raw: seq<real>): real
    requires raw != []
  {
    SortLength(raw, Itself);
    Sort(raw, Itself)[|raw| / 2]
  }

  function Record(p: Perf, o: Observation): Perf
  {
    var x := Effective(o);
    var raw := Slide(p.raw, x);
    Perf(if p.samples == 0 then x else Smooth(p.ema, x),
         p.samples + 1,
         if o.success then p.successes + 1 else p.successes,
         if o.success then p.failures else p.failures + 1,
         if |raw| >= 3 then UpperMedian(raw) else p.p50,
         raw)
  }

  // The record after a history of observations, oldest first.
  function After(history: seq<Observation>): Perf
  {
    if history == [] then NO_PERF else Record(After(history[..|history| - 1]), history[|history| - 1])
  }

  // ---------- what the record holds ----------

  function Effectives(history: seq<Observation>): (r: seq<real>)
    ensures |r| == |history|
  {
    if history == [] then []
    else Effectives(history[..|history| - 1]) + [Effective(history[|history| - 1])]
  }

  // The latency that an observation counts with: its own, but for a failure
  // at least thirty seconds.
  lemma {:induction false} EffectivesAre(history: seq<Observation>, i: nat)
    requires i < |history|
    ensures Effectives(history)[i]
         == if !history[i].success && history[i].latency < 30000.0 then 30000.0 else history[i].latency
  {
    if i < |history| - 1 { EffectivesAre(history[..|history| - 1], i); }
  }

  function Successes(history: seq<Observation>): nat
  {
    if history == [] then 0
    else Successes(history[..|history| - 1]) + (if history[|history| - 1].success then 1 else 0)
  }

  lemma {:induction false} Counts(history: seq<Observation>)
    ensures var p := After(history);
      p.samples == |history| && p.successes == Successes(history) && p.samples == p.successes + p.failures
  {
    hide UpperMedian, Slide, Smooth;
    if history != [] { Counts(history[..|history| - 1]); }
  }

  lemma SmoothBetween(ema: real, x: real, lo: real, hi: real)
    requires lo <= ema <= hi && lo <= x <= hi
    ensures lo <= Smooth(ema, x) <= hi
  {
  }

  // The smoothed latency stays between any bounds of the effective ones.
  lemma {:induction false} EmaWithin(history: seq<Observation>, lo: real, hi: real)
    requires history != []
    requires forall o :: o in history ==> lo <= Effective(o) <= hi
    ensures lo <= After(history).ema <= hi
  {
    hide UpperMedian, Slide, Smooth, Effective;
    var init := history[..|history| - 1];
    Counts(init);
    assert history[|history| - 1] in history;
    if init != [] {
      assert forall o :: o in init ==> o in history;
      EmaWithin(init, lo, hi);
      SmoothBetween(After(init).ema, Effective(history[|history| - 1]), lo, hi);
    }
  }

  function Repeated(o: Observation, k: nat): seq<Observation>
  {
    if k == 0 then [] else Repeated(o, k - 1) + [o]
  }

  // Each repetition of one latency takes away a fifth of the distance to it.
  lemma {:induction false} EmaDecays(history: seq<Observation>, o: Observation, k: nat)
    requires history != []
    ensures After(history + Repeated(o, k)).ema - Effective(o)
         == Pow(0.8, k) * (After(history).ema - Effective(o))
  {
    hide After, Smooth, Effective;
    if k == 0 {
      assert history + Repeated(o, 0) == history;
    } else {
      var longer := history + Repeated(o, k - 1);
      assert history + Repeated(o, k) == longer + [o];
      EmaDecays(history, o, k - 1);
      EmaStep(longer, o);
      OneDecay(After(longer).ema, Effective(o), Pow(0.8, k - 1), After(history).ema - Effective(o),
               Pow(0.8, k));
    }
  }

  lemma EmaStep(history: seq<Observation>, o: Observation)
    requires history != []
    ensures After(history + [o]).ema == Smooth(After(history).ema, Effective(o))
  {
    hide UpperMedian, Slide, Effective, Smooth;
    assert (history + [o])[..|history|] == history;
    Counts(history);
  }

  lemma OneDecay(ema: real, x: real, pow: real, d: real, pow': real)
    requires ema - x == pow * d && pow' == 0.8 * pow
    ensures Smooth(ema, x) - x == pow' * d
  {
    assert pow' * d == 0.8 * (pow * d);
  }

  // The window grows to fifty, then falls back to twenty-five, over and over.
  ghost function WindowLength(n: nat): nat { if n <= 50 then n else 25 + (n - 51) % 26 }

  lemma {:induction false} WindowIsSuffix(history: seq<Observation>)
    ensures var n := |history|;
      && WindowLength(n) <= n
      && After(history).raw == Effectives(history)[n - WindowLength(n)..]
  {
    hide UpperMedian, Smooth, Effective;
    if history != [] {
      var init, n := history[..|history| - 1], |history|;
      WindowIsSuffix(init);
      LengthStep(n);
      var e, x := Effectives(init), Effective(history[n - 1]);
      assert Effectives(history) == e + [x];
      var w := WindowLength(n - 1);
      assert e[n - 1 - w..] + [x] == (e + [x])[n - 1 - w..];
    }
  }

  lemma LengthStep(n: nat)
    requires n >= 1
    ensures WindowLength(n - 1) <= WINDOW_LIMIT && WindowLength(n) <= n
    ensures WindowLength(n) == if WindowLength(n - 1) + 1 > WINDOW_LIMIT then WINDOW_KEPT else WindowLength(n - 1) + 1
  {
    if n > 51 {
      var a := (n - 1 - 51) % 26;
      assert (n - 51) % 26 == if a == 25 then 0 else a + 1;
    }
  }

  // From the third observation on the P50 is the upper median of the window:
  // a value of it that at most half the values are below, and more than half
  // are not above.
  lemma {:induction false} P50IsMedian(history: seq<Observation>)
    requires |history| >= 3
    ensures var p := After(history);
      && p.p50 in p.raw
      && |Filter(p.raw, x => x < p.p50)| <= |p.raw| / 2 < |Filter(p.raw, x => x <= p.p50)|
  {
    WindowIsSuffix(history);
    hide Smooth, Effective, Slide, After, Sort, Filter;
    var p := After(history);
    assert |p.raw| == WindowLength(|history|) >= 3;
    LastMedian(history);
    RankOf(p.raw, |p.raw| / 2);
  }

  // Before the third observation there is no P50, and before the first no
  // smoothed latency.
  lemma TooFew(history: seq<Observation>)
    requires |history| < 3
    ensures After(history).p50 == 0.0 && (history == [] ==> After(history).ema == 0.0)
  {
    hide Smooth, Effective, UpperMedian;
    var n := |history|;
    if n >= 1 {
      assert history[..n - 1][..0] == [];
      WindowIsSuffix(history);
    }
    if n == 2 { WindowIsSuffix(history[..1]); }
  }

  lemma LastMedian(history: seq<Observation>)
    requires history != [] && |After(history).raw| >= 3
    ensures After(history).p50 == UpperMedian(After(history).raw)
  {
    hide UpperMedian, Smooth, Effective, Slide;
  }

  // ---------- the adaptive chain ----------

  predicate Enough(chain: seq<string>, perf: map<string, Perf>, minimum: nat)
  {
    forall p :: p in chain ==> p in perf && perf[p].samples >= minimum
  }

  // Only a chain whose providers all have data is sorted, so the case of a
  // missing provider never decides an order.
  function ByEma(perf: map<string, Perf>): string -> real
  {
    p => if p in perf then perf[p].ema else 0.0
  }

  function OptimalChain(chain: seq<string>, perf: map<string, Perf>, minimum: nat): seq<string>
  {
    if Enough(chain, perf, minimum) then Sort(chain, ByEma(perf)) else chain
  }

  // With enough data for every provider: the same providers, fastest first,
  // those of equal latency in their old order, and no other arrangement has
  // these properties. Without: the chain as it was.
  lemma ChainIsStableSort(chain: seq<string>, perf: map<string, Perf>, minimum: nat)
    ensures var r, key := OptimalChain(chain, perf, minimum), ByEma(perf);
      && multiset(r) == multiset(chain)
      && (if forall p :: p in chain ==> p in perf && perf[p].samples >= minimum
          then (forall i, j :: 0 <= i < j < |r| ==>
                 r[i] in perf && r[j] in perf && perf[r[i]].ema <= perf[r[j]].ema)
               && SameOrderPerKey(r, chain, key)
               && forall other: seq<string> ::
                    SortedBy(other, key) && SameOrderPerKey(other, chain, key) ==> other == r
          else r == chain)
  {
    hide Sort, Filter, OfKey;
    var key := ByEma(perf);
    var r := Sort(chain, key);
    SortSorts(chain, key);
    SortIsStable(chain, key);
    if Enough(chain, perf, minimum) {
      forall i, j | 0 <= i < j < |r| ensures r[i] in perf && r[j] in perf && perf[r[i]].ema <= perf[r[j]].ema {
        assert r[i] in multiset(r) && r[j] in multiset(r);
        assert r[i] in chain && r[j] in chain;
        assert key(r[i]) <= key(r[j]);
      }
    }
    forall other: seq<string> | SortedBy(other, key) && SameOrderPerKey(other, chain, key)
      ensures other == r
    {
      StableSortIsUnique(other, r, key);
    }
  }

  function ByP50(perf: map<string, Perf>): string -> real
  {
    p => if p in perf then perf[p].p50 else 0.0
  }

  // The documented order, by P50: an adaptive chain is in it exactly if
  // smoothed latency and P50 agree on every pair of the base chain.
  lemma ChainInP50OrderIff(chain: seq<string>, perf: map<string, Perf>, minimum: nat)
    requires Enough(chain, perf, minimum)
    ensures SortedBy(OptimalChain(chain, perf, minimum), ByP50(perf))
      <==> forall i, j :: 0 <= i < j < |chain| ==>
             var x, y := perf[chain[i]], perf[chain[j]];
             if x.ema <= y.ema then x.p50 <= y.p50 else y.p50 <= x.p50
  {
    SortOrderedIff(chain, ByEma(perf), ByP50(perf));
    forall i, j | 0 <= i < j < |chain|
      ensures PairAgrees(chain[i], chain[j], ByEma(perf), ByP50(perf))
        <==> var x, y := perf[chain[i]], perf[chain[j]];
             if x.ema <= y.ema then x.p50 <= y.p50 else y.p50 <= x.p50
    {
      assert chain[i] in chain && chain[j] in chain;
    }
    hide Sort;
  }

  // Nine answers in a tenth of a second and a slow one.
  function Spiky(): seq<Observation> { Repeated(Observation(100.0, true), 9) + [Observation(1000.0, true)] }

  // Ten answers in two tenths of a second.
  function Steady(): seq<Observation> { Repeated(Observation(200.0, true), 10) }

  lemma {:induction false} RepeatedIs(o: Observation, k: nat)
    ensures |Repeated(o, k)| == |Effectives(Repeated(o, k))| == k
    ensures forall x :: x in Repeated(o, k) ==> x == o
    ensures forall x :: x in Effectives(Repeated(o, k)) ==> x == Effective(o)
  {
    if k > 0 {
      RepeatedIs(o, k - 1);
      assert Repeated(o, k)[..k - 1] == Repeated(o, k - 1);
    }
  }

  lemma SteadyPerf()
    ensures var p := After(Steady()); p.samples == 10 && p.ema == 200.0 && p.p50 == 200.0
  {
    hide After, Sort, Filter, Repeated;
    RepeatedIs(Observation(200.0, true), 10);
    Counts(Steady());
    EmaWithin(Steady(), 200.0, 200.0);
    WindowIsSuffix(Steady());
    P50IsMedian(Steady());
  }

  lemma SpikyPerf()
    ensures var p := After(Spiky()); p.samples == 10 && p.ema == 280.0 && p.p50 == 100.0
  {
    hide After, Sort, Filter, Repeated;
    var fast, slow := Repeated(Observation(100.0, true), 9), Observation(1000.0, true);
    RepeatedIs(Observation(100.0, true), 9);
    Counts(Spiky());
    EmaWithin(fast, 100.0, 100.0);
    EmaStep(fast, slow);
    WindowIsSuffix(Spiky());
    P50IsMedian(Spiky());
    assert Spiky()[..9] == fast;
    var raw := Effectives(fast) + [1000.0];
    assert After(Spiky()).raw == raw;
    var below := (x: real) => x < 1000.0;
    FilterConcat(Effectives(fast), [1000.0], below);
    FilterAll(Effectives(fast), below);
  }

  function SpikyAndSteady(): map<string, Perf> { map["a" := After(Spiky()), "b" := After(Steady())] }

  // Smoothed latency puts the steady provider first, P50 the spiky one.
  lemma P50OrderWitness()
    ensures Enough(["a", "b"], SpikyAndSteady(), MIN_SAMPLES)
    ensures !SortedBy(OptimalChain(["a", "b"], SpikyAndSteady(), MIN_SAMPLES), ByP50(SpikyAndSteady()))
  {
    SpikyPerf();
    SteadyPerf();
    hide After, Sort, Spiky, Steady, SortedBy;
    var chain, perf := ["a", "b"], SpikyAndSteady();
    ChainInP50OrderIff(chain, perf, MIN_SAMPLES);
    assert perf[chain[0]].p50 == 100.0 && perf[chain[1]].p50 == 200.0;
    assert perf[chain[0]].ema == 280.0 && perf[chain[1]].ema == 200.0;
  }

  // What the failover uses of an adaptive chain: its registered providers, in
  // the order that sorting them alone would give.
  lemma RegisteredChain(chain: seq<string>, perf: map<string, Perf>, minimum: nat, registered: set<string>)
    ensures InferenceBreaker.Registered(OptimalChain(chain, perf, minimum), registered)
         == (var own := InferenceBreaker.Registered(chain, registered);
             if Enough(chain, perf, minimum) then Sort(own, ByEma(perf)) else own)
  {
    SortCommutesWithFilter(chain, ByEma(perf), p => p in registered);
  }

  lemma FewerIsEnough(chain: seq<string>, perf: map<string, Perf>, minimum: nat, registered: set<string>)
    requires Enough(chain, perf, minimum)
    ensures Enough(InferenceBreaker.Registered(chain, registered), perf, minimum)
  {
    FilterIn(chain, p => p in registered);
  }

  // Adapting the chain and then keeping the registered providers gives the
  // same as the other way round, unless an unregistered provider without data
  // is what keeps the chain from adapting.
  lemma AdaptCommutesIff(chain: seq<string>, perf: map<string, Perf>, minimum: nat, registered: set<string>)
    ensures var own := InferenceBreaker.Registered(chain, registered);
      InferenceBreaker.Registered(OptimalChain(chain, perf, minimum), registered) == OptimalChain(own, perf, minimum)
      <==> Enough(chain, perf, minimum) || !Enough(own, perf, minimum) || SortedBy(own, ByEma(perf))
  {
    RegisteredChain(chain, perf, minimum, registered);
    var own, key := InferenceBreaker.Registered(chain, registered), ByEma(perf);
    if Enough(chain, perf, minimum) { FewerIsEnough(chain, perf, minimum, registered); }
    SortSorts(own, key);
    SortIsStable(own, key);
    if SortedBy(own, key) { StableSortIsUnique(own, Sort(own, key), key); }
  }

  // The request that carries an adaptive chain as its override is tried on
  // exactly these providers.
  lemma OverrideIsAdaptive(chain: seq<string>, perf: map<string, Perf>, minimum: nat, registered: set<string>,
                           preferred: Option<string>, priority: seq<string>)
    requires chain != []
    ensures InferenceBreaker.ProviderChain(registered, OptimalChain(chain, perf, minimum), preferred, priority)
         == (var own := InferenceBreaker.Registered(chain, registered);
             if Enough(chain, perf, minimum) then Sort(own, ByEma(perf)) else own)
  {
    RegisteredChain(chain, perf, minimum, registered);
    SortLength(chain, ByEma(perf));
    assert |OptimalChain(chain, perf, minimum)| == |chain|;
  }

  // ---------- the table over a whole run ----------

  datatype Call = Call(agent: string, provider: string, seen: Observation)

  type Table = map<string, map<string, Perf>>

  function PerfOf(t: Table, agent: string): map<string, Perf> { if agent in t then t[agent] else map[] }

  function Lookup(t: Table, agent: string, provider: string): Perf
  {
    var perf := PerfOf(t, agent);
    if provider in perf then perf[provider] else NO_PERF
  }

  function RecordCall(t: Table, c: Call): Table
  {
    t[c.agent := PerfOf(t, c.agent)[c.provider := Record(Lookup(t, c.agent, c.provider), c.seen)]]
  }

  function TableOf(calls: seq<Call>): Table
  {
    if calls == [] then map[] else RecordCall(TableOf(calls[..|calls| - 1]), calls[|calls| - 1])
  }

  // What one agent saw of one provider.
  function Seen(calls: seq<Call>, agent: string, provider: string): seq<Observation>
  {
    if calls == [] then []
    else
      var c := calls[|calls| - 1];
      Seen(calls[..|calls| - 1], agent, provider)
      + (if c.agent == agent && c.provider == provider then [c.seen] else [])
  }

  // Pairs do not influence each other: an entry is the record of its own
  // observations, and is there exactly if there are any.
  lemma {:induction false} EntryIsOwnHistory(calls: seq<Call>, agent: string, provider: string)
    ensures var t, own := TableOf(calls), Seen(calls, agent, provider);
      && (provider in PerfOf(t, agent) <==> own != [])
      && Lookup(t, agent, provider) == After(own)
  {
    hide Record;
    if calls != [] {
      var init, c := calls[..|calls| - 1], calls[|calls| - 1];
      EntryIsOwnHistory(init, agent, provider);
      var own := Seen(init, agent, provider);
      if c.agent == agent && c.provider == provider {
        assert (own + [c.seen])[..|own|] == own;
      } else {
        assert own + [] == own;
      }
    }
  }

  // ---------- the router object ----------

  class AgentModelRouter {
    const chains: map<string, seq<string>>
    const sensitive: set<string>
    var perf: Table

    constructor (chains: map<string, seq<string>>, sensitive: set<string>)
      requires "default" in chains
      ensures this.chains == chains && this.sensitive == sensitive && perf == TableOf([])
    {
      this.chains, this.sensitive, perf := chains, sensitive, map[];
    }

    method RecordProviderLatency(agent: string, provider: string, latency: real, success: bool)
      modifies this
      ensures perf == RecordCall(old(perf), Call(agent, provider, Observation(latency, success)))
    {
      hide Record;
      if agent !in perf {
        perf := perf[agent := map[]];
      }
      if provider !in perf[agent] {
        perf := perf[agent := perf[agent][provider := NO_PERF]];
      }
      var p := Observe(perf[agent][provider], latency, success);
      perf := perf[agent := perf[agent][provider := p]];
      assert perf[agent] == PerfOf(old(perf), agent)[provider := p];
      assert perf == old(perf)[agent := perf[agent]];
    }

    method Observe(before: Perf, latency: real, success: bool) returns (p: Perf)
      ensures p == Record(before, Observation(latency, success))
    {
      hide UpperMedian, Smooth;
      p := before;
      var x := if success then latency else Max(latency, FAILURE_LATENCY_MS);
      if p.samples == 0 {
        p := p.(ema := x);
      } else {
        p := p.(ema := Smooth(p.ema, x));
      }
      p := p.(samples := p.samples + 1);
      if success {
        p := p.(successes := p.successes + 1);
      } else {
        p := p.(failures := p.failures + 1);
      }
      p := p.(raw := p.raw + [x]);
      if |p.raw| > WINDOW_LIMIT {
        p := p.(raw := p.raw[|p.raw| - WINDOW_KEPT..]);
      }
      if |p.raw| >= 3 {
        p := p.(p50 := UpperMedian(p.raw));
      }
    }

    method GetOptimalProviderChain(agent: string, base: Option<seq<string>>) returns (chain: seq<string>)
      requires "default" in chains
      ensures chain == OptimalChain(
        if base.Some? then base.value else if agent in chains then chains[agent] else chains["default"],
        PerfOf(perf, agent), if agent in sensitive then 5 else 10)
    {
      chain := if base.Some? then base.value else if agent in chains then chains[agent] else chains["default"];
      var seen := if agent in perf then perf[agent] else map[];
      var minimum := if agent in sensitive then MIN_SAMPLES_FAST else MIN_SAMPLES;
      var i, enough := 0, true;
      while i < |chain| && enough
        invariant 0 <= i <= |chain|
        invariant enough ==> forall j :: 0 <= j < i ==> chain[j] in seen && seen[chain[j]].samples >= minimum
        invariant !enough ==> !Enough(chain, seen, minimum)
      {
        enough := chain[i] in seen && seen[chain[i]].samples >= minimum;
        i := i + 1;
      }
      if enough {
        chain := Sort(chain, ByEma(seen));
      }
    }
  }
}
