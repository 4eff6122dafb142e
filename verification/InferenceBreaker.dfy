/** Failover between inference providers behind a circuit breaker that all
    requests share. Requests interleave at their awaits: a request that has
    passed the breaker check may still be waiting while others fail, so the
    failure counter can pass its threshold. `CounterBound` says by how much at
    most, and `CounterBoundReached` that this much does happen. */
module InferenceBreaker {
  import opened Options
  import opened Sorting

  // ---------- requests as interleaved tasks ----------

  // Where a request stands. infer and infer_stream share these states: a
  // streaming request stays in Calling until its last chunk.
  datatype Pc =
    | Choosing(chain: seq<string>)
    | Probing(provider: string, rest: seq<string>)
    | Calling(provider: string, rest: seq<string>)
    | Served(server: string)
    | Raised
    | Stopped

  // Failed is one of the three provider errors that infer catches; Aborted is
  // any other exception, which escapes and leaves the breaker alone.
  datatype Outcome = Ok | Failed | Aborted

  datatype Config = Config(limit: int, registered: set<string>)

  datatype System = System(counters: map<string, nat>, tasks: map<nat, Pc>)

  datatype Act =
    | Spawn(id: nat, chain: seq<string>)
    | Choose(id: nat)
    | Probed(id: nat, available: bool)
    | Answered(id: nat, outcome: Outcome)
    | Cancel(id: nat)
    | Reset(provider: string)
    | ResetAll

  function Count(counters: map<string, nat>, p: string): nat
  {
    if p in counters then counters[p] else 0
  }

  function ChooseNext(cfg: Config, counters: map<string, nat>, chain: seq<string>): Pc
  {
    if chain == [] then Raised
    else if Count(counters, chain[0]) >= cfg.limit then Choosing(chain[1..])
    else if chain[0] !in cfg.registered then Choosing(chain[1..])
    else Probing(chain[0], chain[1..])
  }

  function AfterAnswer(outcome: Outcome, p: string, rest: seq<string>): Pc
  {
    match outcome
    case Ok => Served(p)
    case Failed => Choosing(rest)
    case Aborted => Stopped
  }

  function CountAnswer(counters: map<string, nat>, outcome: Outcome, p: string): map<string, nat>
  {
    match outcome
    case Ok => counters[p := 0]
    case Failed => counters[p := Count(counters, p) + 1]
    case Aborted => counters
  }

  // An action whose request is not at the matching state changes nothing.
  function Step(cfg: Config, s: System, a: Act): System
  {
    match a
    case Spawn(id, chain) =>
      if id in s.tasks then s else s.(tasks := s.tasks[id := Choosing(chain)])
    case Choose(id) =>
      if id in s.tasks && s.tasks[id].Choosing?
      then s.(tasks := s.tasks[id := ChooseNext(cfg, s.counters, s.tasks[id].chain)])
      else s
    case Probed(id, available) =>
      if id in s.tasks && s.tasks[id].Probing?
      then
        var pc := s.tasks[id];
        s.(tasks := s.tasks[id := if available then Calling(pc.provider, pc.rest) else Choosing(pc.rest)])
      else s
    case Answered(id, outcome) =>
      if id in s.tasks && s.tasks[id].Calling?
      then
        var pc := s.tasks[id];
        System(CountAnswer(s.counters, outcome, pc.provider),
               s.tasks[id := AfterAnswer(outcome, pc.provider, pc.rest)])
      else s
    case Cancel(id) =>
      if id in s.tasks && !s.tasks[id].Served? && !s.tasks[id].Raised?
      then s.(tasks := s.tasks[id := Stopped])
      else s
    case Reset(p) => s.(counters := s.counters[p := 0])
    case ResetAll => s.(counters := map p | p in cfg.registered :: 0)
  }

  function Run(cfg: Config, s: System, acts: seq<Act>): System
  {
    if acts == [] then s else Step(cfg, Run(cfg, s, acts[..|acts| - 1]), acts[|acts| - 1])
  }

  const IDLE := System(map[], map[])

  // ---------- attempts in flight ----------

  predicate Attempting(pc: Pc, p: string)
  {
    (pc.Probing? || pc.Calling?) && pc.provider == p
  }

  // The requests that have passed the breaker check for p and not yet reported.
  function InFlight(tasks: map<nat, Pc>, p: string): set<nat>
  {
    set id | id in tasks && Attempting(tasks[id], p)
  }

  // The highest value that counter and attempts can reach together when at
  // most k requests are in flight at a provider.
  function Cap(cfg: Config, k: nat): nat
  {
    if cfg.limit <= 0 then 0 else cfg.limit - 1 + k
  }

  predicate Bounded(cfg: Config, s: System, p: string, k: nat)
  {
    Count(s.counters, p) + |InFlight(s.tasks, p)| <= Cap(cfg, k)
  }

  lemma InFlightUpdate(tasks: map<nat, Pc>, id: nat, pc: Pc, p: string)
    ensures |InFlight(tasks[id := pc], p)|
         == |InFlight(tasks, p) - {id}| + (if Attempting(pc, p) then 1 else 0)
  {
    var now := InFlight(tasks[id := pc], p);
    assert now == (InFlight(tasks, p) - {id}) + (if Attempting(pc, p) then {id} else {});
  }

  lemma InFlightWithout(tasks: map<nat, Pc>, id: nat, p: string)
    requires id in tasks
    ensures |InFlight(tasks, p)| == |InFlight(tasks, p) - {id}| + (if Attempting(tasks[id], p) then 1 else 0)
  {
    var before := InFlight(tasks, p);
    if Attempting(tasks[id], p) {
      assert before == (before - {id}) + {id};
    } else {
      assert before == before - {id};
    }
  }

  // A request moves from one state to another.
  lemma TaskMoves(tasks: map<nat, Pc>, id: nat, pc: Pc, p: string)
    requires id in tasks
    ensures |InFlight(tasks[id := pc], p)| - |InFlight(tasks, p)|
         == (if Attempting(pc, p) then 1 else 0) - (if Attempting(tasks[id], p) then 1 else 0)
  {
    InFlightUpdate(tasks, id, pc, p);
    InFlightWithout(tasks, id, p);
  }

  lemma ChooseKeepsBound(cfg: Config, s: System, id: nat, p: string, k: nat)
    requires Bounded(cfg, s, p, k) && id in s.tasks && s.tasks[id].Choosing?
    requires |InFlight(Step(cfg, s, Choose(id)).tasks, p)| <= k
    ensures Bounded(cfg, Step(cfg, s, Choose(id)), p, k)
  {
    TaskMoves(s.tasks, id, ChooseNext(cfg, s.counters, s.tasks[id].chain), p);
  }

  lemma AnswerKeepsBound(cfg: Config, s: System, id: nat, outcome: Outcome, p: string, k: nat)
    requires Bounded(cfg, s, p, k) && id in s.tasks && s.tasks[id].Calling?
    ensures Bounded(cfg, Step(cfg, s, Answered(id, outcome)), p, k)
  {
    var pc := s.tasks[id];
    TaskMoves(s.tasks, id, AfterAnswer(outcome, pc.provider, pc.rest), p);
  }

  lemma OthersKeepBound(cfg: Config, s: System, a: Act, p: string, k: nat)
    requires Bounded(cfg, s, p, k) && !a.Choose? && !a.Answered?
    ensures Bounded(cfg, Step(cfg, s, a), p, k)
  {
    match a
    case Reset(_) =>
    case ResetAll =>
    case Spawn(id, chain) =>
      InFlightUpdate(s.tasks, id, Choosing(chain), p);
      assert id !in s.tasks ==> InFlight(s.tasks, p) - {id} == InFlight(s.tasks, p);
    case Probed(id, available) =>
      if id in s.tasks && s.tasks[id].Probing? {
        var pc := s.tasks[id];
        TaskMoves(s.tasks, id, if available then Calling(pc.provider, pc.rest) else Choosing(pc.rest), p);
      }
    case Cancel(id) =>
      if id in s.tasks { TaskMoves(s.tasks, id, Stopped, p); }
  }

  // Each check, probe, failure, success, cancellation and reset keeps the bound.
  lemma StepKeepsBound(cfg: Config, s: System, a: Act, p: string, k: nat)
    requires Bounded(cfg, s, p, k)
    requires |InFlight(Step(cfg, s, a).tasks, p)| <= k
    ensures Bounded(cfg, Step(cfg, s, a), p, k)
  {
    if a.Choose? && a.id in s.tasks && s.tasks[a.id].Choosing? {
      ChooseKeepsBound(cfg, s, a.id, p, k);
    } else if a.Answered? && a.id in s.tasks && s.tasks[a.id].Calling? {
      AnswerKeepsBound(cfg, s, a.id, a.outcome, p, k);
    } else if !a.Choose? && !a.Answered? {
      OthersKeepBound(cfg, s, a, p, k);
    }
  }

  // At every moment of the run, at most k requests are in flight at p.
  ghost predicate AtMost(cfg: Config, s: System, acts: seq<Act>, p: string, k: nat)
  {
    |InFlight(Run(cfg, s, acts).tasks, p)| <= k
    && (acts != [] ==> AtMost(cfg, s, acts[..|acts| - 1], p, k))
  }

  // The breaker's overshoot is bounded: for every provider and interleaving,
  // counter plus attempts in flight stay within limit - 1 + k.
  lemma {:induction false} CounterBound(cfg: Config, acts: seq<Act>, p: string, k: nat)
    requires AtMost(cfg, IDLE, acts, p, k)
    ensures Bounded(cfg, Run(cfg, IDLE, acts), p, k)
  {
    if acts != [] {
      var init := acts[..|acts| - 1];
      CounterBound(cfg, init, p, k);
      StepKeepsBound(cfg, Run(cfg, IDLE, init), acts[|acts| - 1], p, k);
    }
  }

  // One request at a time: the counter never exceeds the threshold.
  lemma SequentialCounter(cfg: Config, acts: seq<Act>, p: string)
    requires cfg.limit >= 0
    requires AtMost(cfg, IDLE, acts, p, 1)
    ensures Count(Run(cfg, IDLE, acts).counters, p) <= cfg.limit
  {
    CounterBound(cfg, acts, p, 1);
  }

  // ---------- an open breaker ----------

  predicate Resets(a: Act, p: string)
  {
    a.ResetAll? || (a.Reset? && a.provider == p)
  }

  // The action is the success of a request that is among the given ones.
  predicate Succeeds(a: Act, ids: set<nat>)
  {
    a.Answered? && a.outcome.Ok? && a.id in ids
  }

  // While a breaker is open, no interleaving starts another attempt at the
  // provider; and until a reset, or the success of an attempt that was in
  // flight when it opened, the counter never falls.
  lemma {:induction false} OpenWhileDraining(cfg: Config, s: System, acts: seq<Act>, p: string)
    requires Count(s.counters, p) >= cfg.limit
    requires forall i :: 0 <= i < |acts| ==> !Resets(acts[i], p) && !Succeeds(acts[i], InFlight(s.tasks, p))
    ensures var s' := Run(cfg, s, acts);
      Count(s'.counters, p) >= Count(s.counters, p) && InFlight(s'.tasks, p) <= InFlight(s.tasks, p)
  {
    if acts != [] {
      var n := |acts| - 1;
      OpenWhileDraining(cfg, s, acts[..n], p);
      OpenOneStep(cfg, Run(cfg, s, acts[..n]), acts[n], p);
    }
  }

  lemma OpenOneStep(cfg: Config, s: System, a: Act, p: string)
    requires Count(s.counters, p) >= cfg.limit && !Resets(a, p) && !Succeeds(a, InFlight(s.tasks, p))
    ensures var s' := Step(cfg, s, a);
      Count(s'.counters, p) >= Count(s.counters, p) && InFlight(s'.tasks, p) <= InFlight(s.tasks, p)
  {
    var s' := Step(cfg, s, a);
    forall id | id in InFlight(s'.tasks, p) ensures id in InFlight(s.tasks, p) {
      assert id in s'.tasks && Attempting(s'.tasks[id], p);
    }
  }

  // With nothing in flight an open breaker stays as it is until a reset.
  lemma {:induction false} OpenUntilReset(cfg: Config, s: System, acts: seq<Act>, p: string)
    requires Count(s.counters, p) >= cfg.limit && InFlight(s.tasks, p) == {}
    requires forall i :: 0 <= i < |acts| ==> !Resets(acts[i], p)
    ensures var s' := Run(cfg, s, acts);
      Count(s'.counters, p) == Count(s.counters, p) && InFlight(s'.tasks, p) == {}
  {
    if acts != [] {
      var n := |acts| - 1;
      OpenUntilReset(cfg, s, acts[..n], p);
      var m := Run(cfg, s, acts[..n]);
      OpenOneStep(cfg, m, acts[n], p);
      NobodyAnswers(cfg, m, acts[n], p);
    }
  }

  lemma NobodyAnswers(cfg: Config, s: System, a: Act, p: string)
    requires InFlight(s.tasks, p) == {} && !Resets(a, p)
    ensures Count(Step(cfg, s, a).counters, p) == Count(s.counters, p)
  {
    assert forall id :: id in s.tasks && Attempting(s.tasks[id], p) ==> id in InFlight(s.tasks, p);
  }

  // ---------- resets ----------

  // What a reset does to the counters: zero for the provider or for all, and
  // nothing else moves.
  lemma ResetZeroes(cfg: Config, s: System, p: string, q: string)
    ensures Count(Step(cfg, s, Reset(p)).counters, q) == (if q == p then 0 else Count(s.counters, q))
    ensures Count(Step(cfg, s, ResetAll).counters, q) == 0
    ensures Step(cfg, s, Reset(p)).tasks == s.tasks && Step(cfg, s, ResetAll).tasks == s.tasks
  {
  }

  // Right after its reset a registered provider is tried by the next request
  // that names it first: the request goes on to ask it whether it is
  // available, and if it is, the request ends with what it answers or moves on
  // after one failure.
  lemma TriedAfterReset(cfg: Config, s: System, all: bool, id: nat, chain: seq<string>, available: seq<bool>,
                        outcomes: seq<Outcome>)
    requires cfg.limit >= 1 && chain != [] && chain[0] in cfg.registered
    requires |available| == |outcomes| == |chain| && available[0]
    ensures var s' := Step(cfg, s, if all then ResetAll else Reset(chain[0]));
      var r := Infer(cfg, s'.counters, chain, available, outcomes);
      && (id in s.tasks && s.tasks[id] == Choosing(chain) ==>
            Step(cfg, s', Choose(id)).tasks[id] == Probing(chain[0], chain[1..]))
      && (outcomes[0].Ok? ==> r.end == Served(chain[0]) && Count(r.counters, chain[0]) == 0)
      && (outcomes[0].Aborted? ==> r.end == Stopped)
      && (outcomes[0].Failed? ==>
            r == Infer(cfg, s'.counters[chain[0] := 1], chain[1..], available[1..], outcomes[1..]))
  {
  }

  // ---------- the end of a request ----------

  predicate Ended(pc: Pc) { pc.Served? || pc.Raised? || pc.Stopped? }

  // A request that has ended never moves again.
  lemma {:induction false} EndedStays(cfg: Config, s: System, id: nat, acts: seq<Act>)
    requires id in s.tasks && Ended(s.tasks[id])
    ensures var tasks := Run(cfg, s, acts).tasks; id in tasks && tasks[id] == s.tasks[id]
  {
    if acts != [] { EndedStays(cfg, s, id, acts[..|acts| - 1]); }
  }

  // A cancelled request has ended, wherever it was: it makes no attempt
  // whatever happens next. Counters and other requests do not notice.
  lemma CancelEnds(cfg: Config, s: System, id: nat, acts: seq<Act>)
    requires id in s.tasks
    ensures var s' := Step(cfg, s, Cancel(id));
      && s'.counters == s.counters && s'.tasks.Keys == s.tasks.Keys
      && (forall j :: j in s.tasks && j != id ==> s'.tasks[j] == s.tasks[j])
      && s'.tasks[id] == (if Ended(s.tasks[id]) then s.tasks[id] else Stopped)
      && id in Run(cfg, s', acts).tasks && Run(cfg, s', acts).tasks[id] == s'.tasks[id]
  {
    EndedStays(cfg, Step(cfg, s, Cancel(id)), id, acts);
  }

  // ---------- the bound is reached ----------

  lemma {:induction false} RunConcat(cfg: Config, s: System, a: seq<Act>, b: seq<Act>)
    ensures Run(cfg, s, a + b) == Run(cfg, Run(cfg, s, a), b)
    decreases |b|
  {
    if b == [] {
      assert a + b == a;
    } else {
      RunConcat(cfg, s, a, b[..|b| - 1]);
      assert (a + b)[..|a + b| - 1] == a + b[..|b| - 1];
    }
  }

  lemma RunOne(cfg: Config, s: System, a: Act)
    ensures Run(cfg, s, [a]) == Step(cfg, s, a)
  {
    assert [a][..0] == [];
  }

  lemma RunTwo(cfg: Config, s: System, a: Act, b: Act)
    ensures Run(cfg, s, [a, b]) == Step(cfg, Step(cfg, s, a), b)
  {
    RunOne(cfg, s, a);
    assert [a, b][..1] == [a];
  }

  lemma RunThree(cfg: Config, s: System, a: Act, b: Act, c: Act)
    ensures Run(cfg, s, [a, b, c]) == Step(cfg, Step(cfg, Step(cfg, s, a), b), c)
  {
    RunTwo(cfg, s, a, b);
    assert [a, b, c][..2] == [a, b];
  }

  // A request arrives for p, passes the check and is answered only later.
  function Arrival(p: string, id: nat): seq<Act> { [Spawn(id, [p]), Choose(id), Probed(id, true)] }

  function Arrivals(p: string, first: nat, n: nat): seq<Act>
  {
    if n == 0 then [] else Arrivals(p, first, n - 1) + Arrival(p, first + n - 1)
  }

  function Failures(first: nat, n: nat): seq<Act>
  {
    if n == 0 then [] else Failures(first, n - 1) + [Answered(first + n - 1, Failed)]
  }

  // n requests, each of which fails before the next one arrives.
  function Singles(p: string, n: nat): seq<Act>
  {
    if n == 0 then [] else Singles(p, n - 1) + (Arrivals(p, n - 1, 1) + Failures(n - 1, 1))
  }

  // Of the requests below hi, those from lo on await their answer from p, no
  // other one is in flight there, and p has failed c times.
  ghost predicate Pending(s: System, p: string, lo: nat, hi: nat, c: nat)
  {
    && Count(s.counters, p) == c
    && (forall id: nat :: id in s.tasks ==> id < hi)
    && (forall id: nat :: lo <= id < hi ==> id in s.tasks && s.tasks[id] == Calling(p, []))
    && (forall id: nat :: id in s.tasks && Attempting(s.tasks[id], p) ==> lo <= id)
  }

  function Range(lo: nat, hi: nat): (r: set<nat>)
    requires lo <= hi
    ensures |r| == hi - lo && forall id: nat :: id in r <==> lo <= id < hi
    decreases hi
  {
    if lo == hi then {} else Range(lo, hi - 1) + {hi - 1}
  }

  lemma InFlightWithin(tasks: map<nat, Pc>, p: string, lo: nat, hi: nat)
    requires lo <= hi
    requires forall id: nat :: id in tasks && Attempting(tasks[id], p) ==> lo <= id < hi
    ensures |InFlight(tasks, p)| <= hi - lo
  {
    var a, r := InFlight(tasks, p), Range(lo, hi);
    assert a <= r;
    assert r == a + (r - a);
  }

  lemma {:induction false} AtMostConcat(cfg: Config, s: System, a: seq<Act>, b: seq<Act>, p: string, k: nat)
    requires AtMost(cfg, s, a, p, k) && AtMost(cfg, Run(cfg, s, a), b, p, k)
    ensures AtMost(cfg, s, a + b, p, k)
    decreases |b|
  {
    RunConcat(cfg, s, a, b);
    if b == [] {
      assert a + b == a;
    } else {
      AtMostConcat(cfg, s, a, b[..|b| - 1], p, k);
      assert (a + b)[..|a + b| - 1] == a + b[..|b| - 1];
    }
  }

  lemma AtMostOne(cfg: Config, s: System, a: Act, p: string, k: nat)
    requires |InFlight(s.tasks, p)| <= k && |InFlight(Step(cfg, s, a).tasks, p)| <= k
    ensures AtMost(cfg, s, [a], p, k)
  {
    RunOne(cfg, s, a);
    assert [a][..0] == [];
    assert AtMost(cfg, s, [], p, k);
  }

  // The actions lead from s to such a state, with at most k in flight.
  ghost predicate Reaches(cfg: Config, s: System, acts: seq<Act>, p: string, lo: nat, hi: nat, c: nat, k: nat)
  {
    AtMost(cfg, s, acts, p, k) && Pending(Run(cfg, s, acts), p, lo, hi, c)
  }

  lemma ReachesConcat(cfg: Config, s: System, a: seq<Act>, b: seq<Act>, p: string, lo: nat, hi: nat, c: nat, k: nat)
    requires AtMost(cfg, s, a, p, k) && Reaches(cfg, Run(cfg, s, a), b, p, lo, hi, c, k)
    ensures Reaches(cfg, s, a + b, p, lo, hi, c, k)
  {
    hide AtMost, Run, Pending;
    RunConcat(cfg, s, a, b);
    AtMostConcat(cfg, s, a, b, p, k);
  }

  lemma ReachesNothing(cfg: Config, s: System, p: string, lo: nat, hi: nat, c: nat, k: nat)
    requires Pending(s, p, lo, hi, c) && lo <= hi <= lo + k
    ensures Reaches(cfg, s, [], p, lo, hi, c, k)
  {
    InFlightWithin(s.tasks, p, lo, hi);
  }

  // One more request arrives and waits.
  lemma OneArrives(cfg: Config, s: System, p: string, lo: nat, hi: nat, c: nat, k: nat)
    requires Pending(s, p, lo, hi, c) && lo <= hi < lo + k && c < cfg.limit && p in cfg.registered
    ensures Reaches(cfg, s, Arrival(p, hi), p, lo, hi + 1, c, k)
  {
    var a, b, d := Spawn(hi, [p]), Choose(hi), Probed(hi, true);
    var s1 := s.(tasks := s.tasks[hi := Choosing([p])]);
    var s2 := s.(tasks := s.tasks[hi := Probing(p, [])]);
    var s3 := s.(tasks := s.tasks[hi := Calling(p, [])]);
    ArrivalSteps(cfg, s, p, hi);
    InFlightWithin(s.tasks, p, lo, hi);
    InFlightWithin(s1.tasks, p, lo, hi + 1);
    InFlightWithin(s2.tasks, p, lo, hi + 1);
    InFlightWithin(s3.tasks, p, lo, hi + 1);
    assert Pending(s3, p, lo, hi + 1, c);
    hide Step, InFlight, Pending, Run, AtMost;
    ThreeSteps(cfg, s, a, b, d, p, k);
  }

  lemma ArrivalSteps(cfg: Config, s: System, p: string, id: nat)
    requires id !in s.tasks && Count(s.counters, p) < cfg.limit && p in cfg.registered
    ensures var s1 := s.(tasks := s.tasks[id := Choosing([p])]);
      var s2 := s.(tasks := s.tasks[id := Probing(p, [])]);
      && Step(cfg, s, Spawn(id, [p])) == s1 && Step(cfg, s1, Choose(id)) == s2
      && Step(cfg, s2, Probed(id, true)) == s.(tasks := s.tasks[id := Calling(p, [])])
  {
    assert [p][1..] == [];
    var s1 := s.(tasks := s.tasks[id := Choosing([p])]);
    var s2 := s.(tasks := s.tasks[id := Probing(p, [])]);
    assert s1.tasks[id := Probing(p, [])] == s2.tasks;
    assert s2.tasks[id := Calling(p, [])] == s.tasks[id := Calling(p, [])];
  }

  lemma ThreeSteps(cfg: Config, s: System, a: Act, b: Act, c: Act, p: string, k: nat)
    requires var s1 := Step(cfg, s, a);
      var s2 := Step(cfg, s1, b);
      |InFlight(s.tasks, p)| <= k && |InFlight(s1.tasks, p)| <= k && |InFlight(s2.tasks, p)| <= k
      && |InFlight(Step(cfg, s2, c).tasks, p)| <= k
    ensures Run(cfg, s, [a, b, c]) == Step(cfg, Step(cfg, Step(cfg, s, a), b), c)
    ensures AtMost(cfg, s, [a, b, c], p, k)
  {
    hide Step, InFlight, AtMost;
    RunThree(cfg, s, a, b, c);
    RunOne(cfg, s, a);
    RunTwo(cfg, s, a, b);
    AtMostOne(cfg, s, a, p, k);
    AtMostOne(cfg, Step(cfg, s, a), b, p, k);
    AtMostOne(cfg, Step(cfg, Step(cfg, s, a), b), c, p, k);
    AtMostConcat(cfg, s, [a], [b], p, k);
    assert [a] + [b] == [a, b] && [a, b] + [c] == [a, b, c];
    AtMostConcat(cfg, s, [a, b], [c], p, k);
  }

  lemma OneFails(cfg: Config, s: System, p: string, lo: nat, hi: nat, c: nat, k: nat)
    requires Pending(s, p, lo, hi, c) && lo < hi <= lo + k
    ensures Reaches(cfg, s, [Answered(lo, Failed)], p, lo + 1, hi, c + 1, k)
  {
    var a := Answered(lo, Failed);
    RunOne(cfg, s, a);
    assert Pending(Step(cfg, s, a), p, lo + 1, hi, c + 1);
    InFlightWithin(s.tasks, p, lo, hi);
    InFlightWithin(Step(cfg, s, a).tasks, p, lo + 1, hi);
    hide AtMost, Run, Step;
    AtMostOne(cfg, s, a, p, k);
  }

  lemma {:induction false} AllArrive(cfg: Config, s: System, p: string, lo: nat, c: nat, n: nat, k: nat)
    requires Pending(s, p, lo, lo, c) && n <= k && c < cfg.limit && p in cfg.registered
    ensures Reaches(cfg, s, Arrivals(p, lo, n), p, lo, lo + n, c, k)
  {
    hide Pending, AtMost, Run;
    if n == 0 {
      ReachesNothing(cfg, s, p, lo, lo, c, k);
    } else {
      AllArrive(cfg, s, p, lo, c, n - 1, k);
      var before := Arrivals(p, lo, n - 1);
      OneArrives(cfg, Run(cfg, s, before), p, lo, lo + n - 1, c, k);
      ReachesConcat(cfg, s, before, Arrival(p, lo + n - 1), p, lo, lo + n, c, k);
    }
  }

  lemma {:induction false} AllFail(cfg: Config, s: System, p: string, lo: nat, hi: nat, c: nat, n: nat, k: nat)
    requires Pending(s, p, lo, hi, c) && lo + n <= hi <= lo + k
    ensures Reaches(cfg, s, Failures(lo, n), p, lo + n, hi, c + n, k)
  {
    hide Pending, AtMost, Run;
    if n == 0 {
      ReachesNothing(cfg, s, p, lo, hi, c, k);
    } else {
      AllFail(cfg, s, p, lo, hi, c, n - 1, k);
      var before := Failures(lo, n - 1);
      OneFails(cfg, Run(cfg, s, before), p, lo + n - 1, hi, c + n - 1, k);
      ReachesConcat(cfg, s, before, [Answered(lo + n - 1, Failed)], p, lo + n, hi, c + n, k);
    }
  }

  // n requests arrive together and all fail.
  lemma Burst(cfg: Config, s: System, p: string, lo: nat, c: nat, n: nat, k: nat)
    requires Pending(s, p, lo, lo, c) && n <= k && c < cfg.limit && p in cfg.registered
    ensures Reaches(cfg, s, Arrivals(p, lo, n) + Failures(lo, n), p, lo + n, lo + n, c + n, k)
  {
    hide Pending, AtMost, Run, Arrivals, Failures;
    var arrivals, failures := Arrivals(p, lo, n), Failures(lo, n);
    AllArrive(cfg, s, p, lo, c, n, k);
    AllFail(cfg, Run(cfg, s, arrivals), p, lo, lo + n, c, n, k);
    ReachesConcat(cfg, s, arrivals, failures, p, lo + n, lo + n, c + n, k);
  }

  lemma {:induction false} SinglesFail(cfg: Config, p: string, n: nat, k: nat)
    requires n <= cfg.limit && p in cfg.registered && k >= 1
    ensures Reaches(cfg, IDLE, Singles(p, n), p, n, n, n, k)
  {
    if n == 0 {
      ReachesNothing(cfg, IDLE, p, 0, 0, 0, k);
    } else {
      hide Pending, AtMost, Run, Arrivals, Failures;
      SinglesFail(cfg, p, n - 1, k);
      var before, one := Singles(p, n - 1), Arrivals(p, n - 1, 1) + Failures(n - 1, 1);
      Burst(cfg, Run(cfg, IDLE, before), p, n - 1, n - 1, 1, k);
      ReachesConcat(cfg, IDLE, before, one, p, n, n, n, k);
    }
  }

  // The bound of CounterBound is reached under its own hypotheses: from the
  // idle system, after one failure less than the threshold, k requests pass
  // the check together and all fail.
  lemma CounterBoundReached(cfg: Config, p: string, k: nat) returns (acts: seq<Act>)
    requires cfg.limit >= 1 && p in cfg.registered && k >= 1
    ensures AtMost(cfg, IDLE, acts, p, k)
    ensures Count(Run(cfg, IDLE, acts).counters, p) == Cap(cfg, k)
  {
    hide AtMost, Run, Arrivals, Failures, Singles;
    var m := cfg.limit - 1;
    var singles, burst := Singles(p, m), Arrivals(p, m, k) + Failures(m, k);
    acts := singles + burst;
    SinglesFail(cfg, p, m, k);
    Burst(cfg, Run(cfg, IDLE, singles), p, m, m, k, k);
    ReachesConcat(cfg, IDLE, singles, burst, p, m + k, m + k, m + k, k);
  }

  // The exception is real: two requests pass the check together, the failure
  // of the first opens the breaker, and the success of the second closes it
  // again without a reset.
  lemma LateSuccessCloses(cfg: Config, p: string) returns (acts: seq<Act>, late: nat)
    requires cfg.limit >= 1 && p in cfg.registered
    ensures AtMost(cfg, IDLE, acts, p, 2)
    ensures Count(Run(cfg, IDLE, acts).counters, p) == cfg.limit
    ensures Count(Run(cfg, IDLE, acts + [Answered(late, Ok)]).counters, p) == 0
  {
    hide AtMost, Run, Arrivals, Singles, Step;
    var m := cfg.limit - 1;
    late := m + 1;
    var singles, pair := Singles(p, m), Arrivals(p, m, 2) + [Answered(m, Failed)];
    acts := singles + pair;
    SinglesFail(cfg, p, m, 2);
    PairOpens(cfg, Run(cfg, IDLE, singles), p, m);
    ReachesConcat(cfg, IDLE, singles, pair, p, m + 1, m + 2, m + 1, 2);
    RunConcat(cfg, IDLE, acts, [Answered(late, Ok)]);
    RunOne(cfg, Run(cfg, IDLE, acts), Answered(late, Ok));
    SuccessZeroes(cfg, Run(cfg, IDLE, acts), p, late);
  }

  lemma PairOpens(cfg: Config, s: System, p: string, m: nat)
    requires Pending(s, p, m, m, m) && m < cfg.limit && p in cfg.registered
    ensures Reaches(cfg, s, Arrivals(p, m, 2) + [Answered(m, Failed)], p, m + 1, m + 2, m + 1, 2)
  {
    hide AtMost, Run, Arrivals, Pending;
    AllArrive(cfg, s, p, m, m, 2, 2);
    OneFails(cfg, Run(cfg, s, Arrivals(p, m, 2)), p, m, m + 2, m, 2);
    ReachesConcat(cfg, s, Arrivals(p, m, 2), [Answered(m, Failed)], p, m + 1, m + 2, m + 1, 2);
  }

  lemma SuccessZeroes(cfg: Config, s: System, p: string, id: nat)
    requires id in s.tasks && s.tasks[id] == Calling(p, [])
    ensures Count(Step(cfg, s, Answered(id, Ok)).counters, p) == 0
  {
  }

  // ---------- one request, start to end ----------

  datatype Reply = Reply(counters: map<string, nat>, end: Pc)

  // The provider is tried: its breaker is closed and it is registered and available.
  predicate Tried(cfg: Config, counters: map<string, nat>, p: string, available: bool)
  {
    Count(counters, p) < cfg.limit && p in cfg.registered && available
  }

  function HeadCounters(cfg: Config, counters: map<string, nat>, p: string, available: bool, outcome: Outcome)
    : map<string, nat>
  {
    if Tried(cfg, counters, p, available) then CountAnswer(counters, outcome, p) else counters
  }

  // infer with the answers of the providers given: whether position i of the
  // chain is available, and how its call ends.
  function Infer(cfg: Config, counters: map<string, nat>, chain: seq<string>,
                 available: seq<bool>, outcomes: seq<Outcome>): Reply
    requires |available| == |outcomes| == |chain|
    decreases |chain|
  {
    if chain == [] then Reply(counters, Raised)
    else
      var p := chain[0];
      var c' := HeadCounters(cfg, counters, p, available[0], outcomes[0]);
      if Tried(cfg, counters, p, available[0]) && !outcomes[0].Failed?
      then Reply(c', AfterAnswer(outcomes[0], p, []))
      else Infer(cfg, c', chain[1..], available[1..], outcomes[1..])
  }

  // The actions that a request takes in the interleaved system at one provider.
  function HeadActs(cfg: Config, counters: map<string, nat>, p: string, available: bool, outcome: Outcome,
                    id: nat): seq<Act>
  {
    if Count(counters, p) >= cfg.limit || p !in cfg.registered then [Choose(id)]
    else if !available then [Choose(id), Probed(id, false)]
    else [Choose(id), Probed(id, true), Answered(id, outcome)]
  }

  function InferActs(cfg: Config, counters: map<string, nat>, chain: seq<string>,
                     available: seq<bool>, outcomes: seq<Outcome>, id: nat): seq<Act>
    requires |available| == |outcomes| == |chain|
    decreases |chain|
  {
    if chain == [] then [Choose(id)]
    else
      var p := chain[0];
      HeadActs(cfg, counters, p, available[0], outcomes[0], id)
      + (if Tried(cfg, counters, p, available[0]) && !outcomes[0].Failed? then []
         else InferActs(cfg, HeadCounters(cfg, counters, p, available[0], outcomes[0]),
                        chain[1..], available[1..], outcomes[1..], id))
  }

  lemma HeadRuns(cfg: Config, counters: map<string, nat>, tasks: map<nat, Pc>, id: nat,
                 chain: seq<string>, available: bool, outcome: Outcome)
    requires chain != []
    ensures var p, rest := chain[0], chain[1..];
      Run(cfg, System(counters, tasks[id := Choosing(chain)]), HeadActs(cfg, counters, p, available, outcome, id))
      == System(HeadCounters(cfg, counters, p, available, outcome),
                tasks[id := if Tried(cfg, counters, p, available) then AfterAnswer(outcome, p, rest)
                            else Choosing(rest)])
  {
    var p, rest := chain[0], chain[1..];
    var s := System(counters, tasks[id := Choosing(chain)]);
    if Count(counters, p) >= cfg.limit || p !in cfg.registered {
      RunOne(cfg, s, Choose(id));
    } else {
      var s1 := System(counters, tasks[id := Probing(p, rest)]);
      assert Step(cfg, s, Choose(id)) == s1;
      if !available {
        RunTwo(cfg, s, Choose(id), Probed(id, false));
        assert Step(cfg, s1, Probed(id, false)).tasks == tasks[id := Choosing(rest)];
      } else {
        RunThree(cfg, s, Choose(id), Probed(id, true), Answered(id, outcome));
        AnswerRuns(cfg, counters, tasks, id, p, rest, outcome);
      }
    }
  }

  lemma AnswerRuns(cfg: Config, counters: map<string, nat>, tasks: map<nat, Pc>, id: nat,
                   p: string, rest: seq<string>, outcome: Outcome)
    ensures Step(cfg, Step(cfg, System(counters, tasks[id := Probing(p, rest)]), Probed(id, true)),
                 Answered(id, outcome))
         == System(CountAnswer(counters, outcome, p), tasks[id := AfterAnswer(outcome, p, rest)])
  {
  }

  // The same request as a task among others, run without interruption, ends
  // in the same state with the same counters and leaves the others alone.
  lemma {:induction false} InferIsATask(cfg: Config, counters: map<string, nat>, tasks: map<nat, Pc>, id: nat,
                                        chain: seq<string>, available: seq<bool>, outcomes: seq<Outcome>)
    requires |available| == |outcomes| == |chain|
    ensures var r := Infer(cfg, counters, chain, available, outcomes);
      var acts := InferActs(cfg, counters, chain, available, outcomes, id);
      Run(cfg, System(counters, tasks[id := Choosing(chain)]), acts) == System(r.counters, tasks[id := r.end])
    decreases |chain|
  {
    var s := System(counters, tasks[id := Choosing(chain)]);
    if chain == [] {
      RunOne(cfg, s, Choose(id));
    } else {
      var p := chain[0];
      HeadRuns(cfg, counters, tasks, id, chain, available[0], outcomes[0]);
      var head := HeadActs(cfg, counters, p, available[0], outcomes[0], id);
      var c' := HeadCounters(cfg, counters, p, available[0], outcomes[0]);
      if Tried(cfg, counters, p, available[0]) && !outcomes[0].Failed? {
        assert head + [] == head;
      } else {
        InferIsATask(cfg, c', tasks, id, chain[1..], available[1..], outcomes[1..]);
        RunConcat(cfg, s, head, InferActs(cfg, c', chain[1..], available[1..], outcomes[1..], id));
      }
    }
  }

  // How often the first n positions of a chain name p while it is available.
  function Chances(chain: seq<string>, available: seq<bool>, n: nat, p: string): nat
    requires n <= |chain| == |available|
  {
    if n == 0 then 0
    else (if chain[0] == p && available[0] then 1 else 0) + Chances(chain[1..], available[1..], n - 1, p)
  }

  // Position i is where the request ends: its provider is available and
  // registered, the failures before it leave the breaker closed, and the call
  // does not fail.
  predicate Ends(cfg: Config, counters: map<string, nat>, chain: seq<string>, available: seq<bool>,
                 outcomes: seq<Outcome>, i: nat)
    requires i < |chain| == |available| == |outcomes|
  {
    && chain[i] in cfg.registered && available[i] && !outcomes[i].Failed?
    && Count(counters, chain[i]) + Chances(chain, available, i, chain[i]) < cfg.limit
  }

  // The failures that a request adds when it fails at each of its chances:
  // no more than the breaker lets through.
  function FailuresOf(cfg: Config, counters: map<string, nat>, p: string, chances: nat): nat
  {
    if p !in cfg.registered || Count(counters, p) >= cfg.limit then 0
    else if Count(counters, p) + chances <= cfg.limit then chances
    else cfg.limit - Count(counters, p)
  }

  // The counter of one provider after a request that ends at position n: zero
  // where it was served, and otherwise a failure more for each time that it
  // was tried before.
  function CounterAfter(cfg: Config, counters: map<string, nat>, chain: seq<string>, available: seq<bool>,
                        outcomes: seq<Outcome>, n: nat, p: string): nat
    requires n <= |chain| == |available| == |outcomes|
  {
    if n < |chain| && outcomes[n].Ok? && chain[n] == p then 0
    else Count(counters, p) + FailuresOf(cfg, counters, p, Chances(chain, available, n, p))
  }

  lemma HeadFails(cfg: Config, counters: map<string, nat>, p: string, available: bool, outcome: Outcome, q: string)
    requires !(Tried(cfg, counters, p, available) && !outcome.Failed?)
    ensures Count(HeadCounters(cfg, counters, p, available, outcome), q)
         == Count(counters, q) + (if q == p && Tried(cfg, counters, p, available) then 1 else 0)
  {
  }

  // Past a head that does not end the request, positions end as before.
  lemma EndsShift(cfg: Config, counters: map<string, nat>, chain: seq<string>, available: seq<bool>,
                  outcomes: seq<Outcome>, i: nat)
    requires |available| == |outcomes| == |chain| && i + 1 < |chain|
    requires !Ends(cfg, counters, chain, available, outcomes, 0)
    ensures var c' := HeadCounters(cfg, counters, chain[0], available[0], outcomes[0]);
      Ends(cfg, c', chain[1..], available[1..], outcomes[1..], i)
      == Ends(cfg, counters, chain, available, outcomes, i + 1)
  {
    HeadFails(cfg, counters, chain[0], available[0], outcomes[0], chain[i + 1]);
    hide HeadCounters;
  }

  lemma CounterShift(cfg: Config, counters: map<string, nat>, chain: seq<string>, available: seq<bool>,
                     outcomes: seq<Outcome>, n: nat, q: string)
    requires |available| == |outcomes| == |chain| && 0 < n <= |chain|
    requires !Ends(cfg, counters, chain, available, outcomes, 0)
    ensures var c' := HeadCounters(cfg, counters, chain[0], available[0], outcomes[0]);
      CounterAfter(cfg, c', chain[1..], available[1..], outcomes[1..], n - 1, q)
      == CounterAfter(cfg, counters, chain, available, outcomes, n, q)
  {
    HeadFails(cfg, counters, chain[0], available[0], outcomes[0], q);
    hide HeadCounters;
  }

  // For any chain, one that names a provider more than once included: the
  // request ends at the first position that can end it, and every provider's
  // counter is the one that the failures up to there leave.
  lemma {:induction false} InferEndsAt(cfg: Config, counters: map<string, nat>, chain: seq<string>,
                                       available: seq<bool>, outcomes: seq<Outcome>, n: nat, q: string)
    requires |available| == |outcomes| == |chain| && n <= |chain|
    requires forall i :: 0 <= i < n ==> !Ends(cfg, counters, chain, available, outcomes, i)
    requires n < |chain| ==> Ends(cfg, counters, chain, available, outcomes, n)
    ensures var r := Infer(cfg, counters, chain, available, outcomes);
      && r.end == (if n == |chain| then Raised else if outcomes[n].Ok? then Served(chain[n]) else Stopped)
      && Count(r.counters, q) == CounterAfter(cfg, counters, chain, available, outcomes, n, q)
    decreases |chain|
  {
    if n != 0 {
      var c' := HeadCounters(cfg, counters, chain[0], available[0], outcomes[0]);
      assert !Ends(cfg, counters, chain, available, outcomes, 0);
      assert !(Tried(cfg, counters, chain[0], available[0]) && !outcomes[0].Failed?);
      hide Ends, CounterAfter, HeadCounters, Tried;
      forall i | 0 <= i < |chain| - 1
        ensures Ends(cfg, c', chain[1..], available[1..], outcomes[1..], i)
             == Ends(cfg, counters, chain, available, outcomes, i + 1)
      {
        EndsShift(cfg, counters, chain, available, outcomes, i);
      }
      InferEndsAt(cfg, c', chain[1..], available[1..], outcomes[1..], n - 1, q);
      CounterShift(cfg, counters, chain, available, outcomes, n, q);
    }
  }

  // ---------- the order of providers ----------

  function Registered(names: seq<string>, registered: set<string>): seq<string>
  {
    Filter(names, name => name in registered)
  }

  function Without(names: seq<string>, p: string): seq<string>
  {
    Filter(names, name => name != p)
  }

  // `preferred` is the registered provider that the model hint points at.
  function ProviderChain(registered: set<string>, override: seq<string>, preferred: Option<string>,
                         priority: seq<string>): seq<string>
  {
    if override != [] then Registered(override, registered)
    else if preferred.Some? then Registered([preferred.value] + Without(priority, preferred.value), registered)
    else Registered(priority, registered)
  }

  // Who can be tried: registered providers only; of them the override's, or
  // else the preferred one and those of the priority list.
  lemma ChainMembers(registered: set<string>, override: seq<string>, preferred: Option<string>,
                     priority: seq<string>, p: string)
    ensures p in ProviderChain(registered, override, preferred, priority) <==>
      && p in registered
      && (if override != [] then p in override else p in priority || preferred == Some(p))
  {
    FilterIn(override, name => name in registered);
    FilterIn(priority, name => name in registered);
    if preferred.Some? {
      FilterIn(priority, name => name != preferred.value);
      FilterIn([preferred.value] + Without(priority, preferred.value), name => name in registered);
    }
  }

  // The chain runs through a list of names in order and leaves out, of all
  // positions, exactly those of a name that may not be tried.
  ghost predicate RunsThrough(chain: seq<string>, names: seq<string>, allowed: set<string>, at: seq<nat>)
  {
    && |at| == |chain|
    && (forall k :: 0 <= k < |at| ==> at[k] < |names| && chain[k] == names[at[k]])
    && (forall j, k :: 0 <= j < k < |at| ==> at[j] < at[k])
    && (forall i: nat :: i < |names| ==> (i in at <==> names[i] in allowed))
  }

  // Without a preferred provider: the registered names of the override, or of
  // the priority list if there is none, in their order.
  lemma KeepsOrder(registered: set<string>, override: seq<string>, priority: seq<string>,
                   preferred: Option<string>) returns (at: seq<nat>)
    requires override != [] || preferred.None?
    ensures RunsThrough(ProviderChain(registered, override, preferred, priority),
                        if override != [] then override else priority, registered, at)
  {
    at := FilterPositions(if override != [] then override else priority, name => name in registered);
  }

  // A preferred provider comes first, once, and the other registered ones
  // follow in the order of the priority list.
  lemma PreferredFirst(registered: set<string>, preferred: string, priority: seq<string>) returns (at: seq<nat>)
    requires preferred in registered
    ensures var chain := ProviderChain(registered, [], Some(preferred), priority);
      && chain != [] && chain[0] == preferred && preferred !in chain[1..]
      && RunsThrough(chain[1..], priority, registered - {preferred}, at)
  {
    var rest := Without(priority, preferred);
    FilterConcat([preferred], rest, name => name in registered);
    FilterAll([preferred], name => name in registered);
    FilterIn(priority, name => name != preferred);
    FilterIn(rest, name => name in registered);
    var others := (name: string) => name != preferred && name in registered;
    FilterTwice(priority, name => name != preferred, name => name in registered, others);
    at := FilterPositions(priority, others);
  }

  // ---------- the router object ----------

  class InferenceRouter {
    const config: Config
    var circuitBreaker: map<string, nat>

    constructor (config: Config)
      ensures this.config == config
      ensures circuitBreaker == Step(config, IDLE, ResetAll).counters
    {
      this.config := config;
      circuitBreaker := map p | p in config.registered :: 0;
    }

    // One request, with what the providers answer given in advance.
    method InferOnce(chain: seq<string>, available: seq<bool>, outcomes: seq<Outcome>) returns (end: Pc)
      requires |available| == |outcomes| == |chain|
      modifies this
      ensures Reply(circuitBreaker, end) == Infer(config, old(circuitBreaker), chain, available, outcomes)
    {
      var i := 0;
      while i < |chain|
        invariant 0 <= i <= |chain|
        invariant Infer(config, old(circuitBreaker), chain, available, outcomes)
               == Infer(config, circuitBreaker, chain[i..], available[i..], outcomes[i..])
      {
        var name := chain[i];
        assert chain[i..][1..] == chain[i + 1..] && available[i..][1..] == available[i + 1..]
            && outcomes[i..][1..] == outcomes[i + 1..];
        var failures := if name in circuitBreaker then circuitBreaker[name] else 0;
        if failures >= config.limit || name !in config.registered || !available[i] {
          i := i + 1;
          continue;
        }
        match outcomes[i] {
          case Ok =>
            circuitBreaker := circuitBreaker[name := 0];
            return Served(name);
          case Failed =>
            circuitBreaker := circuitBreaker[name := failures + 1];
          case Aborted =>
            return Stopped;
        }
        i := i + 1;
      }
      end := Raised;
    }

    // The empty name counts as no name. A named provider starts again at zero
    // and no other one moves; without a name all registered ones start again.
    method ResetCircuitBreaker(provider: Option<string>)
      modifies this
      ensures var a := if provider.Some? && provider.value != "" then Reset(provider.value) else ResetAll;
        circuitBreaker == Step(config, System(old(circuitBreaker), map[]), a).counters
      ensures provider.Some? && provider.value != "" ==>
        && provider.value in circuitBreaker && circuitBreaker[provider.value] == 0
        && (forall q :: q != provider.value ==> (q in circuitBreaker <==> q in old(circuitBreaker)))
        && (forall q :: q != provider.value && q in circuitBreaker ==> circuitBreaker[q] == old(circuitBreaker)[q])
      ensures provider.None? || provider.value == "" ==>
        circuitBreaker.Keys == config.registered && forall q :: q in circuitBreaker ==> circuitBreaker[q] == 0
    {
      if provider.Some? && provider.value != "" {
        circuitBreaker := circuitBreaker[provider.value := 0];
      } else {
        circuitBreaker := map p | p in config.registered :: 0;
      }
    }
  }
}
