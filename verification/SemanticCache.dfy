/** The response cache on its in-memory path: expired entries are deleted when
    a lookup meets them, and swept when the cache outgrows its limit. A log
    that only ever grows gives the same answers. */
module SemanticCache {
  import opened Options

  const MAX_ENTRIES := 1000

  // The cache is keyed by a hash of the query, taken to be injective.
  datatype Entry = Entry(query: string, response: string, model: string, provider: string,
                         createdAt: real, expiresAt: real, hitCount: nat)

  datatype Store = Store(entries: map<string, Entry>, hits: nat, misses: nat, callsSaved: nat)

  datatype Op =
    | Get(query: string, now: real)
    | Put(query: string, response: string, model: string, provider: string, ttl: Option<int>,
          now: real, later: real)  // later is the clock when pruning
    | ClearExpired(now: real)

  // ---------- the cache ----------

  function Live(entries: map<string, Entry>, now: real): map<string, Entry>
  {
    map q | q in entries && entries[q].expiresAt > now :: entries[q]
  }

  datatype Answer = Answer(store: Store, reply: Option<string>)

  function Lookup(s: Store, query: string, now: real): Answer
  {
    if query == "" then Answer(s, None)
    else if query in s.entries && s.entries[query].expiresAt > now then
      var e := s.entries[query];
      Answer(Store(s.entries[query := e.(hitCount := e.hitCount + 1)], s.hits + 1, s.misses, s.callsSaved + 1),
             Some(e.response))
    else Answer(Store(s.entries - {query}, s.hits, s.misses + 1, s.callsSaved), None)
  }

  // No time to live, or zero, means the default.
  function Ttl(ttl: Option<int>, defaultTtl: int): int
  {
    if ttl.Some? && ttl.value != 0 then ttl.value else defaultTtl
  }

  function Insert(s: Store, defaultTtl: int, op: Op): Store
    requires op.Put?
  {
    if op.query == "" || op.response == "" then s
    else
      var expiry := op.now + Ttl(op.ttl, defaultTtl) as real;
      var entries := s.entries[op.query := Entry(op.query, op.response, op.model, op.provider, op.now, expiry, 0)];
      s.(entries := if |entries| > MAX_ENTRIES then Live(entries, op.later) else entries)
  }

  function Apply(s: Store, defaultTtl: int, op: Op): Answer
  {
    match op
    case Get(q, now) => Lookup(s, q, now)
    case Put(_, _, _, _, _, _, _) => Answer(Insert(s, defaultTtl, op), None)
    case ClearExpired(now) => Answer(s.(entries := Live(s.entries, now)), None)
  }

  const EMPTY := Store(map[], 0, 0, 0)

  function Run(defaultTtl: int, ops: seq<Op>): Store
  {
    if ops == [] then EMPTY
    else Apply(Run(defaultTtl, ops[..|ops| - 1]), defaultTtl, ops[|ops| - 1]).store
  }

  // ---------- the log ----------

  datatype Stored = Stored(query: string, response: string, expiresAt: real)

  function Logged(log: seq<Stored>, defaultTtl: int, op: Op): seq<Stored>
  {
    if op.Put? && op.query != "" && op.response != ""
    then log + [Stored(op.query, op.response, op.now + Ttl(op.ttl, defaultTtl) as real)]
    else log
  }

  // Every effective put, in order; nothing is ever removed.
  function Log(defaultTtl: int, ops: seq<Op>): seq<Stored>
  {
    if ops == [] then []
    else Logged(Log(defaultTtl, ops[..|ops| - 1]), defaultTtl, ops[|ops| - 1])
  }

  function Latest(log: seq<Stored>, query: string): Option<Stored>
  {
    if log == [] then None
    else if log[|log| - 1].query == query then Some(log[|log| - 1])
    else Latest(log[..|log| - 1], query)
  }

  function LogReply(log: seq<Stored>, query: string, now: real): Option<string>
  {
    var e := Latest(log, query);
    if query != "" && e.Some? && e.value.expiresAt > now then Some(e.value.response) else None
  }

  // ---------- the two agree ----------

  function StartOf(op: Op): real { op.now }

  function EndOf(op: Op): real { if op.Put? then op.later else op.now }

  // The operations so far are over by the given time.
  predicate DoneBy(ops: seq<Op>, now: real)
  {
    ops == [] || EndOf(ops[|ops| - 1]) <= now
  }

  // The clock never runs backwards, within an operation or between two.
  predicate Clocked(ops: seq<Op>)
  {
    ops == []
    || (var n := |ops| - 1;
        Clocked(ops[..n]) && DoneBy(ops[..n], StartOf(ops[n])) && StartOf(ops[n]) <= EndOf(ops[n]))
  }

  // A stored entry is the latest of its query in the log; what is missing was
  // never put or has expired by now.
  ghost predicate AgreesOn(entries: map<string, Entry>, log: seq<Stored>, now: real, q: string)
  {
    var e := Latest(log, q);
    && (q in entries ==> e == Some(Stored(q, entries[q].response, entries[q].expiresAt)))
    && (q !in entries && e.Some? ==> e.value.expiresAt <= now)
  }

  ghost predicate Agrees(entries: map<string, Entry>, log: seq<Stored>, now: real)
  {
    forall q: string {:trigger AgreesOn(entries, log, now, q)} :: AgreesOn(entries, log, now, q)
  }

  lemma LiveAgrees(entries: map<string, Entry>, log: seq<Stored>, now: real, later: real)
    requires Agrees(entries, log, now) && now <= later
    ensures Agrees(Live(entries, later), log, later)
  {
    forall q ensures AgreesOn(Live(entries, later), log, later, q) {
      assert AgreesOn(entries, log, now, q);
    }
  }

  lemma PutAgrees(entries: map<string, Entry>, log: seq<Stored>, now: real, e: Entry)
    requires Agrees(entries, log, now)
    ensures Agrees(entries[e.query := e], log + [Stored(e.query, e.response, e.expiresAt)], now)
  {
    var entries', log' := entries[e.query := e], log + [Stored(e.query, e.response, e.expiresAt)];
    assert log'[..|log|] == log;
    forall q ensures AgreesOn(entries', log', now, q) {
      assert AgreesOn(entries, log, now, q);
    }
  }

  lemma LookupAgrees(s: Store, log: seq<Stored>, before: real, query: string, now: real)
    requires Agrees(s.entries, log, before) && before <= now
    ensures Agrees(Lookup(s, query, now).store.entries, log, now)
    ensures Lookup(s, query, now).reply == LogReply(log, query, now)
  {
    assert AgreesOn(s.entries, log, before, query);
    forall q ensures AgreesOn(Lookup(s, query, now).store.entries, log, now, q) {
      assert AgreesOn(s.entries, log, before, q);
    }
  }

  lemma ApplyAgrees(s: Store, log: seq<Stored>, before: real, defaultTtl: int, op: Op)
    requires Agrees(s.entries, log, before) && before <= StartOf(op) <= EndOf(op)
    ensures Agrees(Apply(s, defaultTtl, op).store.entries, Logged(log, defaultTtl, op), EndOf(op))
  {
    match op
    case Get(q, now) => LookupAgrees(s, log, before, q, now);
    case ClearExpired(now) => LiveAgrees(s.entries, log, before, now);
    case Put(q, r, m, p, ttl, now, later) =>
      if q == "" || r == "" {
        StaysAgreed(s.entries, log, before, later);
      } else {
        var e := Entry(q, r, m, p, now, now + Ttl(ttl, defaultTtl) as real, 0);
        PutAgrees(s.entries, log, before, e);
        var log' := log + [Stored(q, r, e.expiresAt)];
        StaysAgreed(s.entries[q := e], log', before, later);
        LiveAgrees(s.entries[q := e], log', before, later);
      }
  }

  lemma StaysAgreed(entries: map<string, Entry>, log: seq<Stored>, now: real, later: real)
    requires Agrees(entries, log, now) && now <= later
    ensures Agrees(entries, log, later)
  {
    forall q ensures AgreesOn(entries, log, later, q) {
      assert AgreesOn(entries, log, now, q);
    }
  }

  lemma {:induction false} RunAgrees(defaultTtl: int, ops: seq<Op>, now: real)
    requires Clocked(ops) && DoneBy(ops, now)
    ensures Agrees(Run(defaultTtl, ops).entries, Log(defaultTtl, ops), now)
  {
    if ops == [] {
      assert forall q :: AgreesOn(EMPTY.entries, [], now, q);
    } else {
      var init, op := ops[..|ops| - 1], ops[|ops| - 1];
      RunAgrees(defaultTtl, init, StartOf(op));
      var s, log := Run(defaultTtl, init), Log(defaultTtl, init);
      ApplyAgrees(s, log, StartOf(op), defaultTtl, op);
      StaysAgreed(Apply(s, defaultTtl, op).store.entries, Logged(log, defaultTtl, op), EndOf(op), now);
    }
  }

  // After any run, a lookup answers what the log says: the response of the
  // latest put of that query, if it has not expired.
  lemma CacheIsTheLog(defaultTtl: int, ops: seq<Op>, query: string, now: real)
    requires Clocked(ops) && DoneBy(ops, now)
    ensures Lookup(Run(defaultTtl, ops), query, now).reply == LogReply(Log(defaultTtl, ops), query, now)
  {
    RunAgrees(defaultTtl, ops, now);
    LookupAgrees(Run(defaultTtl, ops), Log(defaultTtl, ops), now, query, now);
  }

  // An operation that stores a response for the query.
  ghost predicate Stores(op: Op, query: string)
  {
    op.Put? && op.query == query && query != "" && op.response != ""
  }

  // Operation k is the last one that stores a response for the query.
  ghost predicate LastStore(ops: seq<Op>, query: string, k: nat)
  {
    k < |ops| && Stores(ops[k], query) && forall i :: k < i < |ops| ==> !Stores(ops[i], query)
  }

  // When the response that a put stores expires.
  ghost function Expiry(defaultTtl: int, op: Op): real
    requires op.Put?
  {
    op.now + (if op.ttl == None || op.ttl == Some(0) then defaultTtl else op.ttl.value) as real
  }

  lemma {:induction false} LatestIs(defaultTtl: int, ops: seq<Op>, query: string, k: nat)
    requires LastStore(ops, query, k)
    ensures Latest(Log(defaultTtl, ops), query)
         == Some(Stored(query, ops[k].response, Expiry(defaultTtl, ops[k])))
  {
    var n := |ops| - 1;
    var log := Log(defaultTtl, ops[..n]);
    assert forall e: Stored :: (log + [e])[..|log|] == log;
    if k < n {
      LatestIs(defaultTtl, ops[..n], query, k);
      assert !Stores(ops[n], query);
    }
  }

  lemma {:induction false} LatestNone(defaultTtl: int, ops: seq<Op>, query: string)
    requires query != "" && forall i :: 0 <= i < |ops| ==> !Stores(ops[i], query)
    ensures Latest(Log(defaultTtl, ops), query) == None
  {
    if ops != [] {
      var n := |ops| - 1;
      var log := Log(defaultTtl, ops[..n]);
      assert forall e: Stored :: (log + [e])[..|log|] == log;
      LatestNone(defaultTtl, ops[..n], query);
      assert !Stores(ops[n], query);
    }
  }

  // In terms of the operations alone. With ops[k] the last one to store a
  // response for the query, that is the answer for as long as its time to
  // live - the default, if none or zero was given; without such a k, there is
  // no answer.
  lemma AnsweredForItsTime(defaultTtl: int, ops: seq<Op>, query: string, now: real, k: nat)
    requires Clocked(ops) && DoneBy(ops, now)
    requires LastStore(ops, query, k)
    ensures Lookup(Run(defaultTtl, ops), query, now).reply
         == if now < Expiry(defaultTtl, ops[k]) then Some(ops[k].response) else None
  {
    hide Lookup, Run, Log, Latest;
    LatestIs(defaultTtl, ops, query, k);
    CacheIsTheLog(defaultTtl, ops, query, now);
  }

  lemma UnknownWithoutPut(defaultTtl: int, ops: seq<Op>, query: string, now: real)
    requires Clocked(ops) && DoneBy(ops, now) && forall i :: 0 <= i < |ops| ==> !Stores(ops[i], query)
    ensures Lookup(Run(defaultTtl, ops), query, now).reply == None
  {
    hide Run, Log, Latest;
    if query != "" {
      LatestNone(defaultTtl, ops, query);
      CacheIsTheLog(defaultTtl, ops, query, now);
    }
  }

  // ---------- statistics and size ----------

  function Lookups(ops: seq<Op>): nat
  {
    if ops == [] then 0
    else Lookups(ops[..|ops| - 1]) + (if ops[|ops| - 1].Get? && ops[|ops| - 1].query != "" then 1 else 0)
  }

  function Answered(defaultTtl: int, ops: seq<Op>): nat
  {
    if ops == [] then 0
    else
      var n := |ops| - 1;
      Answered(defaultTtl, ops[..n])
      + (if ops[n].Get? && LogReply(Log(defaultTtl, ops[..n]), ops[n].query, ops[n].now).Some? then 1 else 0)
  }

  // Hits are the lookups that the log answers, misses the other ones.
  lemma {:induction false} StatsCount(defaultTtl: int, ops: seq<Op>)
    requires Clocked(ops)
    ensures var s := Run(defaultTtl, ops);
      s.hits == Answered(defaultTtl, ops) && s.hits + s.misses == Lookups(ops) && s.callsSaved == s.hits
  {
    if ops != [] {
      var n := |ops| - 1;
      StatsCount(defaultTtl, ops[..n]);
      if ops[n].Get? {
        CacheIsTheLog(defaultTtl, ops[..n], ops[n].query, ops[n].now);
      } else {
        OnlyLookupsCount(Run(defaultTtl, ops[..n]), defaultTtl, ops[n]);
      }
    }
  }

  lemma OnlyLookupsCount(s: Store, defaultTtl: int, op: Op)
    requires !op.Get?
    ensures var s' := Apply(s, defaultTtl, op).store;
      s'.hits == s.hits && s'.misses == s.misses && s'.callsSaved == s.callsSaved
  {
  }

  // How often the response in the cache for the query has been the answer.
  function HitsSince(defaultTtl: int, ops: seq<Op>, query: string): nat
  {
    if ops == [] then 0
    else
      var init, op := ops[..|ops| - 1], ops[|ops| - 1];
      if op.Put? && op.query == query && op.response != "" then 0
      else
        HitsSince(defaultTtl, init, query)
        + (if op.Get? && op.query == query && LogReply(Log(defaultTtl, init), query, op.now).Some? then 1 else 0)
  }

  // The hit count of a stored entry is the number of lookups that it has
  // answered since its put.
  lemma {:induction false} HitCountIs(defaultTtl: int, ops: seq<Op>, query: string)
    requires Clocked(ops) && query in Run(defaultTtl, ops).entries
    ensures Run(defaultTtl, ops).entries[query].hitCount == HitsSince(defaultTtl, ops, query)
  {
    if ops != [] {
      var n := |ops| - 1;
      if ops[n].Get? { CacheIsTheLog(defaultTtl, ops[..n], ops[n].query, ops[n].now); }
      NoQuery(defaultTtl, ops[..n]);
      if query in Run(defaultTtl, ops[..n]).entries { HitCountIs(defaultTtl, ops[..n], query); }
    }
  }

  lemma {:induction false} NoQuery(defaultTtl: int, ops: seq<Op>)
    ensures "" !in Run(defaultTtl, ops).entries
  {
    if ops != [] { NoQuery(defaultTtl, ops[..|ops| - 1]); }
  }

  // A lookup that is answered counts as a hit of the entry and deletes
  // nothing; one that is not deletes what has expired.
  lemma LookupLeaves(s: Store, query: string, now: real)
    requires query != ""
    ensures var r, before := Lookup(s, query, now), s.entries;
      var after := r.store.entries;
      && (forall q :: q != query ==> (q in after <==> q in before) && (q in before ==> after[q] == before[q]))
      && (if query in before && before[query].expiresAt > now
          then query in after && after[query] == before[query].(hitCount := before[query].hitCount + 1)
               && r.reply == Some(before[query].response)
          else query !in after && r.reply == None)
  {
  }

  // Up to a thousand entries a put drops nothing; beyond, it drops exactly
  // what has expired when it prunes.
  lemma PutPrunes(s: Store, defaultTtl: int, op: Op)
    requires op.Put? && op.query != "" && op.response != ""
    ensures var before, after := s.entries.Keys + {op.query}, Insert(s, defaultTtl, op).entries;
      && after.Keys <= before
      && (|before| <= 1000 ==> after.Keys == before)
      && (|before| > 1000 ==> forall q :: q in after ==> after[q].expiresAt > op.later)
      && (forall q :: q in s.entries && q != op.query ==>
           if q in after then after[q] == s.entries[q] else s.entries[q].expiresAt <= op.later)
      && (op.query in after ==>
           var e := after[op.query];
           e == Entry(op.query, op.response, op.model, op.provider, op.now, e.expiresAt, 0))
  {
    var expiry := op.now + Ttl(op.ttl, defaultTtl) as real;
    var all := s.entries[op.query := Entry(op.query, op.response, op.model, op.provider, op.now, expiry, 0)];
    assert all.Keys == s.entries.Keys + {op.query};
    assert |all| == |all.Keys|;
  }

  // ---------- the cache object ----------

  class Cache {
    const defaultTtl: int
    var localFallback: map<string, Entry>
    var hits: nat
    var misses: nat
    var callsSaved: nat

    constructor (defaultTtl: int)
      ensures this.defaultTtl == defaultTtl && Model() == EMPTY
    {
      this.defaultTtl := defaultTtl;
      localFallback, hits, misses, callsSaved := map[], 0, 0, 0;
    }

    ghost function Model(): Store
      reads this
    {
      Store(localFallback, hits, misses, callsSaved)
    }

    method Fetch(query: string, now: real) returns (reply: Option<string>)
      modifies this
      ensures Answer(Model(), reply) == Apply(old(Model()), defaultTtl, Get(query, now))
    {
      if query == "" {
        return None;
      }
      var exact := GetExact(query, now);
      if exact.Some? {
        hits := hits + 1;
        callsSaved := callsSaved + 1;
        localFallback := localFallback[query := exact.value.(hitCount := exact.value.hitCount + 1)];
        return Some(exact.value.response);
      }
      misses := misses + 1;
      return None;
    }

    // Returns a live entry; an expired one is deleted.
    method GetExact(query: string, now: real) returns (found: Option<Entry>)
      modifies this`localFallback
      ensures query in old(localFallback) && old(localFallback)[query].expiresAt > now
              ==> found == Some(old(localFallback)[query]) && localFallback == old(localFallback)
      ensures !(query in old(localFallback) && old(localFallback)[query].expiresAt > now) ==> found == None
      ensures found == None ==> localFallback == old(localFallback) - {query}
    {
      if query in localFallback {
        if localFallback[query].expiresAt > now {
          return Some(localFallback[query]);
        }
        localFallback := localFallback - {query};
      }
      return None;
    }

    method Save(query: string, response: string, model: string, provider: string, ttl: Option<int>,
                now: real, later: real)
      modifies this
      ensures Model() == Apply(old(Model()), defaultTtl, Put(query, response, model, provider, ttl, now, later)).store
    {
      if query == "" || response == "" {
        return;
      }
      var t := if ttl.Some? && ttl.value != 0 then ttl.value else defaultTtl;
      localFallback := localFallback[query := Entry(query, response, model, provider, now, now + t as real, 0)];
      if |localFallback| > 1000 {
        SweepExpired(later);
      }
    }

    method SweepExpired(now: real)
      modifies this`localFallback
      ensures Model() == Apply(old(Model()), defaultTtl, ClearExpired(now)).store
    {
      localFallback := map q | q in localFallback && localFallback[q].expiresAt > now :: localFallback[q];
    }
  }
}
