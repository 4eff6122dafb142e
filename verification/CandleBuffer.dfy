/** The in-memory candle buffer: per symbol the most recent candles, where a
    candle with the timestamp of the last one takes its place. */
module CandleBuffer {
  import opened Options
  import opened Windows

  datatype Bar = Bar(open: real, high: real, low: real, close: real, volume: real)

  datatype Candle = Candle(timestamp: int, bar: Bar)

  // A candle that comes without a timestamp gets the current time.
  datatype Incoming = Incoming(timestamp: Option<int>, bar: Bar)

  function Stamp(c: Incoming, now: int): Candle
  {
    Candle(if c.timestamp.Some? then c.timestamp.value else now, c.bar)
  }

  function Store(buf: seq<Candle>, c: Candle, max: nat): seq<Candle>
  {
    if buf != [] && buf[|buf| - 1].timestamp == c.timestamp then buf[..|buf| - 1] + [c]
    else Windows.Push(buf, c, max)
  }

  function Buffered(history: seq<Candle>, max: nat): seq<Candle>
  {
    if history == [] then [] else Store(Buffered(history[..|history| - 1], max), history[|history| - 1], max)
  }

  // ---------- what is buffered ----------

  // The newest candle of every run of equal timestamps.
  function Collapse(history: seq<Candle>): seq<Candle>
  {
    if history == [] then []
    else if |history| > 1 && history[0].timestamp == history[1].timestamp then Collapse(history[1..])
    else [history[0]] + Collapse(history[1..])
  }

  lemma {:induction false} CollapseAppend(history: seq<Candle>, c: Candle)
    ensures history != [] ==>
      Collapse(history) != [] && Collapse(history)[|Collapse(history)| - 1] == history[|history| - 1]
    ensures var k := Collapse(history);
      Collapse(history + [c])
      == (if history != [] && history[|history| - 1].timestamp == c.timestamp then k[..|k| - 1] else k) + [c]
    decreases |history|
  {
    if history == [] {
      assert history + [c] == [c];
    } else if |history| == 1 {
      assert (history + [c])[1..] == [c] && Collapse([c]) == [c];
      assert Collapse(history) == history;
    } else {
      CollapseAppend(history[1..], c);
      assert (history + [c])[1..] == history[1..] + [c];
    }
  }

  // The buffer is exactly the last candles of the history without repeats,
  // for any capacity, zero included.
  lemma {:induction false} BufferIsTail(history: seq<Candle>, max: nat)
    ensures Buffered(history, max) == Last(Collapse(history), max)
  {
    if history != [] {
      var init, c := history[..|history| - 1], history[|history| - 1];
      BufferIsTail(init, max);
      CollapseAppend(init, c);
      assert init + [c] == history;
      var k := Collapse(init);
      if init != [] && max > 0 && init[|init| - 1].timestamp == c.timestamp {
        LastOfReplace(k, c, max);
      } else {
        PushIsLast(k, c, max);
      }
    }
  }

  ghost predicate NonDecreasing(s: seq<Candle>)
  {
    forall i :: 0 < i < |s| ==> s[i - 1].timestamp <= s[i].timestamp
  }

  ghost predicate Increasing(s: seq<Candle>)
  {
    forall i, j :: 0 <= i < j < |s| ==> s[i].timestamp < s[j].timestamp
  }

  // Without repeats the timestamps increase strictly exactly if the pushed
  // ones never decrease.
  lemma {:induction false} IncreasingIff(history: seq<Candle>)
    ensures Increasing(Collapse(history)) <==> NonDecreasing(history)
    ensures history != [] ==> Collapse(history) != [] && Collapse(history)[0].timestamp == history[0].timestamp
    decreases |history|
  {
    if |history| > 1 {
      var rest := history[1..];
      IncreasingIff(rest);
      NonDecreasingTail(history);
      if history[0].timestamp != history[1].timestamp {
        IncreasingCons(history[0], Collapse(rest));
      }
    }
  }

  lemma {:induction false} NonDecreasingTail(s: seq<Candle>)
    requires |s| > 1
    ensures NonDecreasing(s) <==> s[0].timestamp <= s[1].timestamp && NonDecreasing(s[1..])
  {
    if s[0].timestamp <= s[1].timestamp && NonDecreasing(s[1..]) {
      forall i | 0 < i < |s| ensures s[i - 1].timestamp <= s[i].timestamp {
        if i > 1 { assert s[1..][i - 2].timestamp <= s[1..][i - 1].timestamp; }
      }
    }
  }

  lemma IncreasingCons(c: Candle, s: seq<Candle>)
    requires s != []
    ensures Increasing([c] + s) <==> c.timestamp < s[0].timestamp && Increasing(s)
  {
    var t := [c] + s;
    if Increasing(t) {
      assert t[0].timestamp < t[1].timestamp;
      forall i, j | 0 <= i < j < |s| ensures s[i].timestamp < s[j].timestamp {
        assert t[i + 1].timestamp < t[j + 1].timestamp;
      }
    }
    if c.timestamp < s[0].timestamp && Increasing(s) {
      forall i, j | 0 <= i < j < |t| ensures t[i].timestamp < t[j].timestamp {
        if i == 0 && j > 1 { assert s[0].timestamp < s[j - 1].timestamp; }
      }
    }
  }

  // Pushed timestamps that never decrease are buffered strictly increasing.
  lemma {:induction false} BufferIncreases(history: seq<Candle>, max: nat)
    requires NonDecreasing(history)
    ensures Increasing(Buffered(history, max)) && |Buffered(history, max)| <= max
  {
    BufferIsTail(history, max);
    IncreasingIff(history);
  }

  // ---------- reading ----------

  // Python's items[start:].
  function From<T>(items: seq<T>, start: int): seq<T>
  {
    var i := if start >= 0 then start else |items| + start;
    if i <= 0 then items else if i > |items| then [] else items[i..]
  }

  function Latest(items: seq<Candle>, limit: int): seq<Candle>
  {
    if |items| > limit then From(items, -limit) else items
  }

  // The result always ends where the buffer ends.
  lemma LatestIsSuffix(items: seq<Candle>, limit: int)
    ensures exists k: nat :: k <= |items| && Latest(items, limit) == items[k..]
    ensures limit >= 1 ==> Latest(items, limit) == Last(items, limit)
    ensures limit < 1 ==> Latest(items, limit) == items[if -limit <= |items| then -limit else |items|..]
  {
    var k: nat := if |items| <= limit then 0
                  else if limit > 0 then |items| - limit
                  else if -limit > |items| then |items| else -limit;
    assert Latest(items, limit) == items[k..];
  }

  // A limit of zero does not limit, and a negative one drops the oldest
  // candles: the limit is kept exactly if it is positive or nothing is there.
  lemma LimitKeptIff(items: seq<Candle>, limit: int)
    ensures |Latest(items, limit)| <= limit <==> limit >= 1 || (limit == 0 && items == [])
  {
  }

  // ---------- all symbols over a run ----------

  datatype PushCall = PushCall(symbol: string, candle: Candle)

  type Memory = map<string, seq<Candle>>

  function Of(m: Memory, symbol: string): seq<Candle> { if symbol in m then m[symbol] else [] }

  function PushStep(m: Memory, p: PushCall, max: nat): Memory
  {
    m[p.symbol := Store(Of(m, p.symbol), p.candle, max)]
  }

  function MemoryOf(calls: seq<PushCall>, max: nat): Memory
  {
    if calls == [] then map[] else PushStep(MemoryOf(calls[..|calls| - 1], max), calls[|calls| - 1], max)
  }

  function Pushed(calls: seq<PushCall>, symbol: string): seq<Candle>
  {
    if calls == [] then []
    else
      Pushed(calls[..|calls| - 1], symbol)
      + (if calls[|calls| - 1].symbol == symbol then [calls[|calls| - 1].candle] else [])
  }

  // Symbols do not influence each other: a symbol's buffer is the tail of
  // what was pushed for it.
  lemma {:induction false} MemoryIsTails(calls: seq<PushCall>, max: nat, symbol: string)
    ensures Of(MemoryOf(calls, max), symbol) == Last(Collapse(Pushed(calls, symbol)), max)
  {
    MemoryIsBuffered(calls, max, symbol);
    BufferIsTail(Pushed(calls, symbol), max);
  }

  lemma {:induction false} MemoryIsBuffered(calls: seq<PushCall>, max: nat, symbol: string)
    ensures Of(MemoryOf(calls, max), symbol) == Buffered(Pushed(calls, symbol), max)
  {
    hide Store;
    if calls != [] {
      var init, p := calls[..|calls| - 1], calls[|calls| - 1];
      MemoryIsBuffered(init, max, symbol);
      var own := Pushed(init, symbol);
      if p.symbol == symbol {
        assert (own + [p.candle])[..|own|] == own;
      } else {
        assert own + [] == own;
      }
    }
  }

  class CandleBuffer {
    const maxCandles: nat
    var memory: Memory

    constructor (maxCandles: nat)
      ensures this.maxCandles == maxCandles && memory == MemoryOf([], maxCandles)
    {
      this.maxCandles, memory := maxCandles, map[];
    }

    method Push(symbol: string, incoming: Incoming, now: int)
      modifies this
      ensures memory == PushStep(old(memory), PushCall(symbol, Stamp(incoming, now)), maxCandles)
    {
      var candle := Stamp(incoming, now);
      if symbol !in memory {
        memory := memory[symbol := []];
      }
      var buf := memory[symbol];
      if buf != [] && buf[|buf| - 1].timestamp == candle.timestamp {
        buf := buf[|buf| - 1 := candle];
        assert buf == old(memory)[symbol][..|buf| - 1] + [candle];
      } else {
        buf := buf + [candle];
        if |buf| > maxCandles { buf := buf[|buf| - maxCandles..]; }
      }
      memory := memory[symbol := buf];
    }

    method Get(symbol: string, limit: int) returns (items: seq<Candle>)
      ensures items == Latest(Of(memory, symbol), limit)
    {
      items := if symbol in memory then memory[symbol] else [];
      if |items| > limit {
        items := From(items, -limit);
      }
    }
  }
}
