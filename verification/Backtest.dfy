/** The strategy backtest: one position at a time with a stop and two targets,
    driven by the signals of an arbitrary strategy, and its metrics. */
module Backtest {
  import opened Options
  import opened RealMath
  import opened Drawdown

  datatype Direction = Long | Short | Flat

  datatype Signal = Signal(direction: Direction, confidence: real, stopLoss: real, takeProfits: seq<real>)

  datatype Candle = Candle(high: real, low: real, close: real)

  datatype Config = Config(initialBalance: real, takerFee: real, slippageBps: real, leverage: int)

  datatype Position = Position(direction: Direction, entryPrice: real, entryTime: nat, qty: real, sl: real,
                               tp1: Option<real>, tp2: Option<real>, tp1Hit: bool)

  datatype Reason = StopLoss | Target | EndOfData

  datatype Trade = Trade(direction: Direction, entryTime: nat, exitTime: nat, entryPrice: real, exitPrice: real,
                         quantity: real, pnl: real, fees: real, reason: Reason)

  datatype Sim = Sim(equity: real, position: Option<Position>, trades: seq<Trade>, curve: seq<real>)

  // ---------- one candle ----------

  predicate StopTouched(direction: Direction, sl: real, c: Candle)
  {
    (direction.Long? && c.low <= sl) || (direction.Short? && c.high >= sl)
  }

  predicate TargetTouched(direction: Direction, tp: real, c: Candle)
  {
    (direction.Long? && c.high >= tp) || (direction.Short? && c.low <= tp)
  }

  // Leveraged profit of a quantity at a price, before fees.
  function Profit(cfg: Config, p: Position, price: real, qty: real): real
  {
    (if p.direction.Long? then price - p.entryPrice else p.entryPrice - price) * qty * cfg.leverage as real
  }

  function StopExit(cfg: Config, p: Position): real
  {
    p.sl * (if p.direction.Long? then 1.0 - cfg.slippageBps / 10000.0 else 1.0 + cfg.slippageBps / 10000.0)
  }

  // The fee of a stopped short is taken on the absolute value.
  function StopFee(cfg: Config, p: Position): real
  {
    (if p.direction.Long? then StopExit(cfg, p) * p.qty else Abs(StopExit(cfg, p) * p.qty)) * cfg.takerFee
  }

  function StopTrade(cfg: Config, p: Position, now: nat): Trade
  {
    Trade(p.direction, p.entryTime, now, p.entryPrice, StopExit(cfg, p), p.qty,
          Profit(cfg, p, StopExit(cfg, p), p.qty) - StopFee(cfg, p), StopFee(cfg, p), StopLoss)
  }

  function TargetFee(cfg: Config, p: Position, price: real): real { Abs(price * p.qty) * cfg.takerFee }

  // The second target closes half of the quantity and pays the fee of all.
  function TargetTrade(cfg: Config, p: Position, price: real, now: nat): Trade
  {
    Trade(p.direction, p.entryTime, now, p.entryPrice, price, p.qty * 0.5,
          Profit(cfg, p, price, p.qty * 0.5) - TargetFee(cfg, p, price), TargetFee(cfg, p, price), Target)
  }

  function FinalTrade(cfg: Config, p: Position, price: real, now: nat): Trade
  {
    Trade(p.direction, p.entryTime, now, p.entryPrice, price, p.qty, Profit(cfg, p, price, p.qty), 0.0, EndOfData)
  }

  // What the candle does to an open position: a stop comes first; until the
  // first target is reached, the second one is not looked at.
  datatype Outcome = Keeps(position: Position) | Closes(trade: Trade)

  function ManagePosition(cfg: Config, p: Position, c: Candle, now: nat): Outcome
  {
    if StopTouched(p.direction, p.sl, c) then Closes(StopTrade(cfg, p, now))
    else if !p.tp1Hit && p.tp1.Some? then
      Keeps(if TargetTouched(p.direction, p.tp1.value, c) then p.(tp1Hit := true) else p)
    else if p.tp2.Some? && TargetTouched(p.direction, p.tp2.value, c) then
      Closes(TargetTrade(cfg, p, p.tp2.value, now))
    else Keeps(p)
  }

  function Manage(cfg: Config, s: Sim, c: Candle, now: nat): Sim
  {
    if s.position.None? then s
    else
      match ManagePosition(cfg, s.position.value, c, now)
      case Keeps(p) => s.(position := Some(p))
      case Closes(t) => s.(equity := s.equity + t.pnl, trades := s.trades + [t], position := None)
  }

  predicate Tradable(signal: Option<Signal>)
  {
    signal.Some? && !signal.value.direction.Flat? && signal.value.confidence >= 0.4
  }

  function EntryPrice(cfg: Config, direction: Direction, close: real): real
  {
    close * (1.0 + cfg.slippageBps / 10000.0 * (if direction.Long? then 1.0 else -1.0))
  }

  function EntryQty(cfg: Config, entryPrice: real): real
    requires entryPrice * cfg.slippageBps / 10000.0 != 0.0
  {
    cfg.initialBalance * 0.01 / (entryPrice * cfg.slippageBps / 10000.0)
  }

  // The size divides by the slippage and by the entry price: there must be
  // some slippage, and not one that takes the entry price to zero.
  predicate Sane(cfg: Config)
  {
    cfg.slippageBps != 0.0 && cfg.slippageBps != 10000.0 && cfg.slippageBps != -10000.0
  }

  lemma SizeDefined(cfg: Config, direction: Direction, close: real)
    requires Sane(cfg) && close != 0.0
    ensures EntryPrice(cfg, direction, close) * cfg.slippageBps / 10000.0 != 0.0
  {
    var f := 1.0 + cfg.slippageBps / 10000.0 * (if direction.Long? then 1.0 else -1.0);
    assert f != 0.0;
    ProductNonZero(close, f);
    ProductNonZero(close * f, cfg.slippageBps);
  }

  lemma ProductNonZero(x: real, y: real)
    requires x != 0.0 && y != 0.0
    ensures x * y != 0.0
  {
    if x * y == 0.0 { QuotientIs(x * y, y, x); QuotientIs(0.0, y, 0.0); }
  }

  function Open(cfg: Config, g: Signal, c: Candle, now: nat): Position
    requires Sane(cfg) && c.close != 0.0
  {
    SizeDefined(cfg, g.direction, c.close);
    var entry := EntryPrice(cfg, g.direction, c.close);
    Position(g.direction, entry, now, EntryQty(cfg, entry), g.stopLoss,
             if |g.takeProfits| > 0 then Some(g.takeProfits[0]) else None,
             if |g.takeProfits| > 1 then Some(g.takeProfits[1]) else None, false)
  }

  function Enter(cfg: Config, s: Sim, c: Candle, signal: Option<Signal>, now: nat): Sim
    requires Sane(cfg) && c.close != 0.0
  {
    if s.position.None? && Tradable(signal) then s.(position := Some(Open(cfg, signal.value, c, now))) else s
  }

  function Marked(cfg: Config, s: Sim, price: real): real
  {
    s.equity + (if s.position.Some? then Profit(cfg, s.position.value, price, s.position.value.qty) else 0.0)
  }

  function OneCandle(cfg: Config, s: Sim, c: Candle, signal: Option<Signal>, now: nat): Sim
    requires Sane(cfg) && c.close != 0.0
  {
    var s' := Enter(cfg, Manage(cfg, s, c, now), c, signal, now);
    s'.(curve := s'.curve + [Marked(cfg, s', c.close)])
  }

  // ---------- the run ----------

  const MIN_HISTORY: nat := 51

  ghost predicate NonZeroCloses(candles: seq<Candle>)
  {
    forall i :: 0 <= i < |candles| ==> candles[i].close != 0.0
  }

  // The signal computed at row k, which needs more than 50 rows of history;
  // it is traded at the next row.
  function SignalAt(strategy: seq<Option<Signal>>, k: nat): Option<Signal>
    requires k < |strategy|
  {
    if k + 1 >= MIN_HISTORY then strategy[k] else None
  }

  function Start(cfg: Config): Sim { Sim(cfg.initialBalance, None, [], [cfg.initialBalance]) }

  function SimTo(cfg: Config, candles: seq<Candle>, strategy: seq<Option<Signal>>, n: nat): Sim
    requires Sane(cfg) && NonZeroCloses(candles) && n <= |candles| == |strategy|
  {
    if n <= 1 then Start(cfg)
    else OneCandle(cfg, SimTo(cfg, candles, strategy, n - 1), candles[n - 1], SignalAt(strategy, n - 2), n - 1)
  }

  datatype Result = Result(equity: real, trades: seq<Trade>, curve: seq<real>)

  function Simulate(cfg: Config, candles: seq<Candle>, strategy: seq<Option<Signal>>): Result
    requires Sane(cfg) && NonZeroCloses(candles) && |candles| == |strategy|
  {
    var n := |candles|;
    var s := SimTo(cfg, candles, strategy, n);
    if s.position.Some? && n > 0 then
      var t := FinalTrade(cfg, s.position.value, candles[n - 1].close, n - 1);
      Result(s.equity + t.pnl, s.trades + [t], s.curve)
    else Result(s.equity, s.trades, s.curve)
  }

  // ---------- accounting ----------

  function SumPnl(trades: seq<Trade>): real
  {
    if trades == [] then 0.0 else SumPnl(trades[..|trades| - 1]) + trades[|trades| - 1].pnl
  }

  lemma SumPnlAppend(trades: seq<Trade>, t: Trade)
    ensures SumPnl(trades + [t]) == SumPnl(trades) + t.pnl
  {
    assert (trades + [t])[..|trades|] == trades;
  }

  // Managing a position books exactly the profits of the trades it makes.
  lemma ManageBooks(cfg: Config, s: Sim, c: Candle, now: nat)
    ensures var s' := Manage(cfg, s, c, now);
      s'.equity - SumPnl(s'.trades) == s.equity - SumPnl(s.trades) && s'.curve == s.curve
  {
    hide ManagePosition;
    if s.position.Some? {
      var o := ManagePosition(cfg, s.position.value, c, now);
      if o.Closes? { SumPnlAppend(s.trades, o.trade); }
    }
  }

  lemma {:induction false} EquityIsSum(cfg: Config, candles: seq<Candle>, strategy: seq<Option<Signal>>, n: nat)
    requires Sane(cfg) && NonZeroCloses(candles) && n <= |candles| == |strategy|
    ensures var s := SimTo(cfg, candles, strategy, n);
      && s.equity == cfg.initialBalance + SumPnl(s.trades)
      && s.curve != []
      && s.curve[|s.curve| - 1] == (if n <= 1 then cfg.initialBalance else Marked(cfg, s, candles[n - 1].close))
  {
    hide Manage, Open, Profit, Tradable;
    if n > 1 {
      EquityIsSum(cfg, candles, strategy, n - 1);
      ManageBooks(cfg, SimTo(cfg, candles, strategy, n - 1), candles[n - 1], n - 1);
    }
  }

  // For every strategy and any candles: the final equity is the initial one
  // plus the profits of all trades, and it is the last point of the curve,
  // also when the end of the data forces a close.
  lemma Accounting(cfg: Config, candles: seq<Candle>, strategy: seq<Option<Signal>>)
    requires Sane(cfg) && NonZeroCloses(candles) && |candles| == |strategy|
    ensures var r := Simulate(cfg, candles, strategy);
      && r.equity == cfg.initialBalance + SumPnl(r.trades)
      && r.curve != [] && r.equity == r.curve[|r.curve| - 1]
  {
    hide Profit, OneCandle, SimTo, SumPnl;
    var n := |candles|;
    var s := SimTo(cfg, candles, strategy, n);
    EquityIsSum(cfg, candles, strategy, n);
    if s.position.Some? {
      OpenOnlyLater(cfg, candles, strategy, n);
      SumPnlAppend(s.trades, FinalTrade(cfg, s.position.value, candles[n - 1].close, n - 1));
    } else if n <= 1 {
      NothingYet(cfg, candles, strategy, n);
    }
  }

  lemma OpenOnlyLater(cfg: Config, candles: seq<Candle>, strategy: seq<Option<Signal>>, n: nat)
    requires Sane(cfg) && NonZeroCloses(candles) && n <= |candles| == |strategy|
    requires SimTo(cfg, candles, strategy, n).position.Some?
    ensures n > 1
  {
  }

  lemma NothingYet(cfg: Config, candles: seq<Candle>, strategy: seq<Option<Signal>>, n: nat)
    requires Sane(cfg) && NonZeroCloses(candles) && n <= |candles| == |strategy| && n <= 1
    ensures SimTo(cfg, candles, strategy, n) == Start(cfg)
  {
  }

  // ---------- what an exit leaves out ----------

  lemma HalfProfit(cfg: Config, p: Position, price: real)
    ensures Profit(cfg, p, price, p.qty * 0.5) == 0.5 * Profit(cfg, p, price, p.qty)
  {
    var move := if p.direction.Long? then price - p.entryPrice else p.entryPrice - price;
    var q, lev := p.qty, cfg.leverage as real;
    assert move * (q * 0.5) == 0.5 * (move * q);
    assert 0.5 * (move * q) * lev == 0.5 * (move * q * lev);
  }

  // What equity misses, after an exit, of the value that the position was
  // marked at for the exit price: the fee, and at the second target also half
  // of the profit, which is never booked.
  function Shortfall(cfg: Config, p: Position, t: Trade): real
  {
    t.fees + (if t.reason.Target? then 0.5 * Profit(cfg, p, t.exitPrice, p.qty) else 0.0)
  }

  lemma ExitShortfall(cfg: Config, s: Sim, c: Candle, now: nat)
    requires s.position.Some? && ManagePosition(cfg, s.position.value, c, now).Closes?
    ensures var t, s' := ManagePosition(cfg, s.position.value, c, now).trade, Manage(cfg, s, c, now);
      && s'.position.None? && s'.trades == s.trades + [t]
      && s'.equity == Marked(cfg, s, t.exitPrice) - Shortfall(cfg, s.position.value, t)
  {
    var p := s.position.value;
    if p.tp2.Some? { HalfProfit(cfg, p, p.tp2.value); }
    hide Profit, StopExit, StopFee, TargetFee;
  }

  // The candle closes the position at its second target.
  predicate SecondTarget(p: Position, c: Candle)
  {
    && !StopTouched(p.direction, p.sl, c) && (p.tp1Hit || p.tp1.None?)
    && p.tp2.Some? && TargetTouched(p.direction, p.tp2.value, c)
  }

  // Exactly when an exit books the marked value less the fee: if it is not
  // one at the second target, or there is nothing to halve.
  lemma ExitBooksMarkedIff(cfg: Config, s: Sim, c: Candle, now: nat)
    requires s.position.Some? && ManagePosition(cfg, s.position.value, c, now).Closes?
    ensures var p, t := s.position.value, ManagePosition(cfg, s.position.value, c, now).trade;
      Manage(cfg, s, c, now).equity == Marked(cfg, s, t.exitPrice) - t.fees
      <==> (SecondTarget(p, c) ==> p.tp2.value == p.entryPrice || p.qty == 0.0 || cfg.leverage == 0)
  {
    var p := s.position.value;
    ExitShortfall(cfg, s, c, now);
    if SecondTarget(p, c) { ProfitIsZeroIff(cfg, p, p.tp2.value); }
    hide Profit, Marked, Manage, StopExit, StopFee, TargetFee;
  }

  lemma ProfitIsZeroIff(cfg: Config, p: Position, price: real)
    ensures Profit(cfg, p, price, p.qty) == 0.0 <==> price == p.entryPrice || p.qty == 0.0 || cfg.leverage == 0
  {
    var move := if p.direction.Long? then price - p.entryPrice else p.entryPrice - price;
    var lev := cfg.leverage as real;
    if move != 0.0 && p.qty != 0.0 && lev != 0.0 {
      ProductNonZero(move, p.qty);
      ProductNonZero(move * p.qty, lev);
    } else if move == 0.0 || p.qty == 0.0 {
      assert move * p.qty == 0.0;
    }
  }

  // A long from 100 that has reached its first target is marked 10 up when
  // the second one, 110, is reached; the exit books 5.
  lemma SecondTargetWitness(equity: real, now: nat)
    ensures var cfg := Config(10.0, 0.0, 0.5, 1);
      var p := Position(Long, 100.0, 0, 1.0, 90.0, Some(105.0), Some(110.0), true);
      var s, c := Sim(equity, Some(p), [], []), Candle(111.0, 108.0, 110.0);
      && Marked(cfg, s, 110.0) == equity + 10.0
      && Manage(cfg, s, c, now).position.None? && Manage(cfg, s, c, now).equity == equity + 5.0
  {
    var p := Position(Long, 100.0, 0, 1.0, 90.0, Some(105.0), Some(110.0), true);
    assert Profit(Config(10.0, 0.0, 0.5, 1), p, 110.0, 1.0) == 10.0;
    assert Profit(Config(10.0, 0.0, 0.5, 1), p, 110.0, 1.0 * 0.5) == 5.0;
  }

  // ---------- the history behind every trade ----------

  // The signal that a position or trade of this direction was entered on: the
  // strategy's for the row before, directed and confident, and traded at the
  // close plus slippage against the trade.
  ghost predicate EnteredOn(cfg: Config, candles: seq<Candle>, strategy: seq<Option<Signal>>,
                            direction: Direction, entryTime: nat, entryPrice: real, g: Signal)
  {
    && 51 <= entryTime < |candles| == |strategy|
    && strategy[entryTime - 1] == Some(g) && g.direction == direction && direction != Flat
    && g.confidence >= 0.4
    && var close, slip := candles[entryTime].close, cfg.slippageBps / 10000.0;
       entryPrice == if direction.Long? then close * (1.0 + slip) else close * (1.0 - slip)
  }

  // The candle reaches the signal's stop, or its target number w.
  ghost predicate MeetsStop(g: Signal, c: Candle)
  {
    match g.direction
    case Long => c.low <= g.stopLoss
    case Short => g.stopLoss <= c.high
    case Flat => false
  }

  ghost predicate MeetsTarget(g: Signal, w: nat, c: Candle)
    requires w < |g.takeProfits|
  {
    match g.direction
    case Long => g.takeProfits[w] <= c.high
    case Short => c.low <= g.takeProfits[w]
    case Flat => false
  }

  // The stop is met nowhere after row a and up to row b.
  ghost predicate NoStop(candles: seq<Candle>, g: Signal, a: nat, b: nat)
    requires b < |candles|
  {
    forall j :: a < j <= b ==> !MeetsStop(g, candles[j])
  }

  // The target number w is met nowhere after row a and before row b.
  ghost predicate NoTarget(candles: seq<Candle>, g: Signal, w: nat, a: nat, b: nat)
    requires b <= |candles| && w < |g.takeProfits|
  {
    forall j :: a < j < b ==> !MeetsTarget(g, w, candles[j])
  }

  // Row k is the first one after the entry to meet the first target.
  ghost predicate FirstTarget(candles: seq<Candle>, g: Signal, entry: nat, k: nat)
    requires k < |candles| && |g.takeProfits| > 0
  {
    entry < k && MeetsTarget(g, 0, candles[k]) && NoTarget(candles, g, 0, entry, k)
  }

  // The size of a position, for its entry price: what a hundredth of the
  // initial balance buys of the slippage.
  ghost predicate FullSize(cfg: Config, entryPrice: real, qty: real)
  {
    qty * (entryPrice * cfg.slippageBps / 10000.0) == cfg.initialBalance * 0.01
  }

  // An open position after row i: its levels are its signal's, no stop has
  // been met, and the first target counts as hit exactly when it has been
  // met; since then the second one has not.
  ghost predicate OpenSince(cfg: Config, candles: seq<Candle>, strategy: seq<Option<Signal>>, p: Position, i: nat)
    requires i < |candles|
  {
    exists g :: EnteredOn(cfg, candles, strategy, p.direction, p.entryTime, p.entryPrice, g)
      && Follows(cfg, candles, p, g, i)
  }

  ghost predicate Follows(cfg: Config, candles: seq<Candle>, p: Position, g: Signal, i: nat)
    requires i < |candles|
  {
    && p.direction == g.direction && p.sl == g.stopLoss && p.entryTime <= i && FullSize(cfg, p.entryPrice, p.qty)
    && p.tp1 == (if |g.takeProfits| > 0 then Some(g.takeProfits[0]) else None)
    && p.tp2 == (if |g.takeProfits| > 1 then Some(g.takeProfits[1]) else None)
    && NoStop(candles, g, p.entryTime, i)
    && (p.tp1Hit ==> |g.takeProfits| > 0 && exists k: nat :: k <= i && TargetsSince(candles, g, p.entryTime, k, i))
    && (!p.tp1Hit && |g.takeProfits| > 0 ==> NoTarget(candles, g, 0, p.entryTime, i + 1))
  }

  ghost predicate TargetsSince(candles: seq<Candle>, g: Signal, entry: nat, k: nat, i: nat)
    requires k <= i < |candles| && |g.takeProfits| > 0
  {
    FirstTarget(candles, g, entry, k) && (|g.takeProfits| > 1 ==> NoTarget(candles, g, 1, k, i + 1))
  }

  ghost predicate ReachedBefore(candles: seq<Candle>, g: Signal, entry: nat, k: nat, exit: nat)
    requires exit < |candles| && |g.takeProfits| > 0
  {
    k < exit && TargetsSince(candles, g, entry, k, exit - 1)
  }

  // The leveraged move from entry to a price, for a quantity.
  ghost predicate Earns(cfg: Config, d: Direction, entryPrice: real, price: real, qty: real, profit: real)
  {
    match d
    case Long => profit == (price - entryPrice) * qty * cfg.leverage as real
    case Short => profit == (entryPrice - price) * qty * cfg.leverage as real
    case Flat => false
  }

  // What a trade books, from its own fields: the move of its quantity less
  // its fee. A stop-out trades the whole size at the stop with slippage
  // against it, a target exit half the size but pays the fee of all, and the
  // close at the end of the data is free.
  ghost predicate Booked(cfg: Config, t: Trade, g: Signal)
  {
    && Earns(cfg, t.direction, t.entryPrice, t.exitPrice, t.quantity, t.pnl + t.fees)
    && match t.reason
       case StopLoss =>
         && FullSize(cfg, t.entryPrice, t.quantity)
         && (if t.direction.Long?
             then t.exitPrice == g.stopLoss * (1.0 - cfg.slippageBps / 10000.0)
                  && t.fees == t.exitPrice * t.quantity * cfg.takerFee
             else t.exitPrice == g.stopLoss * (1.0 + cfg.slippageBps / 10000.0)
                  && t.fees == Abs(t.exitPrice * t.quantity) * cfg.takerFee)
       case Target =>
         exists size :: FullSize(cfg, t.entryPrice, size) && t.quantity == size * 0.5
           && t.fees == Abs(t.exitPrice * size) * cfg.takerFee
       case EndOfData => FullSize(cfg, t.entryPrice, t.quantity) && t.fees == 0.0
  }

  // A closed trade: a stop-out is the first touch of the stop; a target exit
  // is the first touch of the second target strictly after the first touch of
  // the first one, with no stop in between.
  ghost predicate Explained(cfg: Config, candles: seq<Candle>, strategy: seq<Option<Signal>>, t: Trade)
  {
    exists g :: EnteredOn(cfg, candles, strategy, t.direction, t.entryTime, t.entryPrice, g)
      && Justified(candles, t, g) && Booked(cfg, t, g)
  }

  ghost predicate Justified(candles: seq<Candle>, t: Trade, g: Signal)
  {
    && t.exitTime < |candles|
    && match t.reason
       case StopLoss =>
         t.entryTime < t.exitTime
         && MeetsStop(g, candles[t.exitTime])
         && NoStop(candles, g, t.entryTime, t.exitTime - 1)
       case Target =>
         |g.takeProfits| > 1 && t.exitPrice == g.takeProfits[1]
         && t.entryTime < t.exitTime
         && MeetsTarget(g, 1, candles[t.exitTime])
         && NoStop(candles, g, t.entryTime, t.exitTime)
         && (exists k: nat :: ReachedBefore(candles, g, t.entryTime, k, t.exitTime))
       case EndOfData =>
         t.exitTime == |candles| - 1 && t.entryTime <= t.exitTime
         && t.exitPrice == candles[t.exitTime].close && NoStop(candles, g, t.entryTime, t.exitTime)
  }

  lemma ManageFollows(cfg: Config, candles: seq<Candle>, p: Position, g: Signal, i: nat)
    requires 0 < i < |candles| && p.direction != Flat && Follows(cfg, candles, p, g, i - 1)
    ensures match ManagePosition(cfg, p, candles[i], i)
      case Keeps(p') => p'.entryTime == p.entryTime && p'.entryPrice == p.entryPrice
                        && Follows(cfg, candles, p', g, i)
      case Closes(t) => t.direction == p.direction && t.entryTime == p.entryTime && t.entryPrice == p.entryPrice
                        && t.entryTime <= t.exitTime == i && Justified(candles, t, g)
  {
    hide Profit, StopExit, StopFee, TargetFee, FullSize;
    var c := candles[i];
    if StopTouched(p.direction, p.sl, c) {
    } else if !p.tp1Hit && p.tp1.Some? {
      if TargetTouched(p.direction, p.tp1.value, c) {
        assert TargetsSince(candles, g, p.entryTime, i, i);
      }
    } else if p.tp1Hit {
      var k: nat :| k <= i - 1 && TargetsSince(candles, g, p.entryTime, k, i - 1);
      if p.tp2.Some? && TargetTouched(p.direction, p.tp2.value, c) {
        assert ReachedBefore(candles, g, p.entryTime, k, i);
      } else {
        assert TargetsSince(candles, g, p.entryTime, k, i);
      }
    }
  }

  lemma ManageBooked(cfg: Config, p: Position, g: Signal, c: Candle, now: nat)
    requires ManagePosition(cfg, p, c, now).Closes? && p.direction != Flat
    requires FullSize(cfg, p.entryPrice, p.qty) && p.sl == g.stopLoss
    ensures Booked(cfg, ManagePosition(cfg, p, c, now).trade, g)
  {
    hide FullSize;
    if StopTouched(p.direction, p.sl, c) {
      StopBooked(cfg, p, g, now);
    } else {
      TargetBooked(cfg, p, g, p.tp2.value, now);
    }
  }

  lemma ProfitEarns(cfg: Config, p: Position, price: real, qty: real)
    requires p.direction != Flat
    ensures Earns(cfg, p.direction, p.entryPrice, price, qty, Profit(cfg, p, price, qty))
  {
  }

  lemma StopBooked(cfg: Config, p: Position, g: Signal, now: nat)
    requires p.direction != Flat && FullSize(cfg, p.entryPrice, p.qty) && p.sl == g.stopLoss
    ensures Booked(cfg, StopTrade(cfg, p, now), g)
  {
    ProfitEarns(cfg, p, StopExit(cfg, p), p.qty);
    hide Profit, Earns, FullSize;
  }

  lemma TargetBooked(cfg: Config, p: Position, g: Signal, price: real, now: nat)
    requires p.direction != Flat && FullSize(cfg, p.entryPrice, p.qty)
    ensures Booked(cfg, TargetTrade(cfg, p, price, now), g)
  {
    ProfitEarns(cfg, p, price, p.qty * 0.5);
    hide Profit, Earns, FullSize;
  }

  lemma FinalBooked(cfg: Config, p: Position, g: Signal, price: real, now: nat)
    requires p.direction != Flat && FullSize(cfg, p.entryPrice, p.qty)
    ensures Booked(cfg, FinalTrade(cfg, p, price, now), g)
  {
    ProfitEarns(cfg, p, price, p.qty);
    hide Profit, Earns, FullSize;
  }

  lemma OpenFollows(cfg: Config, candles: seq<Candle>, strategy: seq<Option<Signal>>, i: nat)
    requires Sane(cfg) && NonZeroCloses(candles) && 1 <= i < |candles| == |strategy|
    requires Tradable(SignalAt(strategy, i - 1))
    ensures OpenSince(cfg, candles, strategy, Open(cfg, SignalAt(strategy, i - 1).value, candles[i], i), i)
  {
    var g := SignalAt(strategy, i - 1).value;
    var p := Open(cfg, g, candles[i], i);
    OpenIsFullSize(cfg, g, candles[i], i);
    EntryPriceIs(cfg, g.direction, candles[i].close);
    hide EntryQty, EntryPrice, FullSize;
    assert EnteredOn(cfg, candles, strategy, p.direction, p.entryTime, p.entryPrice, g);
    assert Follows(cfg, candles, p, g, i);
  }

  lemma EntryPriceIs(cfg: Config, d: Direction, close: real)
    ensures EntryPrice(cfg, d, close)
         == var slip := cfg.slippageBps / 10000.0;
            if d.Long? then close * (1.0 + slip) else close * (1.0 - slip)
  {
  }

  lemma OpenIsFullSize(cfg: Config, g: Signal, c: Candle, now: nat)
    requires Sane(cfg) && c.close != 0.0
    ensures var p := Open(cfg, g, c, now); FullSize(cfg, p.entryPrice, p.qty)
  {
    SizeDefined(cfg, g.direction, c.close);
    hide EntryPrice;
    var entry := EntryPrice(cfg, g.direction, c.close);
    var w := entry * cfg.slippageBps / 10000.0;
    assert cfg.initialBalance * 0.01 / w * w == cfg.initialBalance * 0.01;
  }

  ghost predicate AllExplained(cfg: Config, candles: seq<Candle>, strategy: seq<Option<Signal>>, trades: seq<Trade>)
  {
    forall k :: 0 <= k < |trades| ==> Explained(cfg, candles, strategy, trades[k])
  }

  // Trades follow each other: none overlaps the next, and none starts before
  // the one ahead of it has ended.
  ghost predicate Ordered(trades: seq<Trade>, end: nat)
  {
    && (forall k :: 0 <= k < |trades| ==> trades[k].entryTime <= trades[k].exitTime <= end)
    && (forall k :: 0 < k < |trades| ==> trades[k - 1].exitTime <= trades[k].entryTime)
  }

  ghost predicate Consistent(cfg: Config, candles: seq<Candle>, strategy: seq<Option<Signal>>, s: Sim, i: nat)
    requires i < |candles|
  {
    && AllExplained(cfg, candles, strategy, s.trades) && Ordered(s.trades, i)
    && (s.position.Some? ==>
          OpenSince(cfg, candles, strategy, s.position.value, i)
          && s.position.value.entryTime <= i
          && (s.trades != [] ==> s.trades[|s.trades| - 1].exitTime <= s.position.value.entryTime))
  }

  lemma ManageConsistent(cfg: Config, candles: seq<Candle>, strategy: seq<Option<Signal>>, s: Sim, i: nat)
    requires 0 < i < |candles| && Consistent(cfg, candles, strategy, s, i - 1)
    ensures Consistent(cfg, candles, strategy, Manage(cfg, s, candles[i], i), i)
  {
    hide EnteredOn, Justified, Booked, ManagePosition, FullSize, NoStop, NoTarget, TargetsSince;
    if s.position.Some? {
      var p := s.position.value;
      var g :| EnteredOn(cfg, candles, strategy, p.direction, p.entryTime, p.entryPrice, g)
               && Follows(cfg, candles, p, g, i - 1);
      EnteredNotFlat(cfg, candles, strategy, p.direction, p.entryTime, p.entryPrice, g);
      ManageFollows(cfg, candles, p, g, i);
      var o := ManagePosition(cfg, p, candles[i], i);
      if o.Closes? {
        ManageBooked(cfg, p, g, candles[i], i);
        assert Explained(cfg, candles, strategy, o.trade);
      } else {
        ManageKeepsDirection(cfg, p, candles[i], i);
        assert OpenSince(cfg, candles, strategy, o.position, i);
      }
    }
  }

  lemma EnteredNotFlat(cfg: Config, candles: seq<Candle>, strategy: seq<Option<Signal>>,
                       direction: Direction, entryTime: nat, entryPrice: real, g: Signal)
    requires EnteredOn(cfg, candles, strategy, direction, entryTime, entryPrice, g)
    ensures direction != Flat
  {
    hide EntryPrice;
  }

  lemma ManageKeepsDirection(cfg: Config, p: Position, c: Candle, now: nat)
    requires ManagePosition(cfg, p, c, now).Keeps?
    ensures ManagePosition(cfg, p, c, now).position.direction == p.direction
  {
    hide StopTrade, TargetTrade;
  }

  // Every run: trades are ordered and each one, like the open position, is
  // explained by its signal and the candles since; and there is no position
  // after a candle only if its signal was not one to trade.
  lemma {:induction false} RunConsistent(cfg: Config, candles: seq<Candle>, strategy: seq<Option<Signal>>, n: nat)
    requires Sane(cfg) && NonZeroCloses(candles) && 0 < n <= |candles| == |strategy|
    ensures Consistent(cfg, candles, strategy, SimTo(cfg, candles, strategy, n), n - 1)
    ensures n > 51 && SimTo(cfg, candles, strategy, n).position.None? ==>
      match strategy[n - 2] case None => true case Some(g) => g.direction.Flat? || g.confidence < 0.4
  {
    hide Manage, Open, OpenSince, Explained, Profit;
    if n > 1 {
      RunConsistent(cfg, candles, strategy, n - 1);
      var s := SimTo(cfg, candles, strategy, n - 1);
      ManageConsistent(cfg, candles, strategy, s, n - 1);
      var g := SignalAt(strategy, n - 2);
      if Tradable(g) {
        OpenFollows(cfg, candles, strategy, n - 1);
        OpenAt(cfg, g.value, candles[n - 1], n - 1);
      }
    }
  }

  lemma OpenAt(cfg: Config, g: Signal, c: Candle, now: nat)
    requires Sane(cfg) && c.close != 0.0
    ensures Open(cfg, g, c, now).entryTime == now
  {
    hide EntryQty, EntryPrice;
  }

  lemma TradesExplained(cfg: Config, candles: seq<Candle>, strategy: seq<Option<Signal>>)
    requires Sane(cfg) && NonZeroCloses(candles) && |candles| == |strategy|
    ensures var r := Simulate(cfg, candles, strategy);
      && AllExplained(cfg, candles, strategy, r.trades)
      && (candles != [] ==> Ordered(r.trades, |candles| - 1))
  {
    hide EnteredOn, Profit, OneCandle;
    var n := |candles|;
    if n > 0 {
      RunConsistent(cfg, candles, strategy, n);
      var s := SimTo(cfg, candles, strategy, n);
      if s.position.Some? {
        var p := s.position.value;
        var g :| EnteredOn(cfg, candles, strategy, p.direction, p.entryTime, p.entryPrice, g)
                 && Follows(cfg, candles, p, g, n - 1);
        var t := FinalTrade(cfg, p, candles[n - 1].close, n - 1);
        EnteredNotFlat(cfg, candles, strategy, p.direction, p.entryTime, p.entryPrice, g);
        FinalBooked(cfg, p, g, candles[n - 1].close, n - 1);
        assert Justified(candles, t, g) && Booked(cfg, t, g);
        assert Explained(cfg, candles, strategy, t);
      }
    }
  }

  // Once a trade is booked or a point of the curve recorded it stays.
  lemma {:induction false} RunGrows(cfg: Config, candles: seq<Candle>, strategy: seq<Option<Signal>>, m: nat, n: nat)
    requires Sane(cfg) && NonZeroCloses(candles) && 1 <= m <= n <= |candles| == |strategy|
    ensures var a, b := SimTo(cfg, candles, strategy, m), SimTo(cfg, candles, strategy, n);
      |a.curve| == m && |b.curve| == n && a.curve <= b.curve && a.trades <= b.trades
  {
    hide ManagePosition, Open, Marked, Tradable;
    if m < n {
      RunGrows(cfg, candles, strategy, m, n - 1);
    } else if 1 < n {
      RunGrows(cfg, candles, strategy, n - 1, n - 1);
    }
  }

  // The point of the curve for row i: the initial balance, the profits of the
  // trades closed up to there, and the leveraged move of the position that is
  // open there, a position that its signal and the candles explain.
  lemma CurvePoint(cfg: Config, candles: seq<Candle>, strategy: seq<Option<Signal>>, i: nat)
    returns (closed: nat, open: Option<Position>, move: real)
    requires Sane(cfg) && NonZeroCloses(candles) && 1 <= i < |candles| == |strategy|
    ensures var r := Simulate(cfg, candles, strategy);
      && |r.curve| == |candles| && closed <= |r.trades|
      && r.curve[i] == cfg.initialBalance + SumPnl(r.trades[..closed]) + move
    ensures open.None? ==> move == 0.0
    ensures open.Some? ==>
      OpenSince(cfg, candles, strategy, open.value, i)
      && Earns(cfg, open.value.direction, open.value.entryPrice, candles[i].close, open.value.qty, move)
  {
    hide SimTo, ManagePosition, Open, OpenSince, EnteredOn, Follows, Earns, Profit, SumPnl, FinalTrade;
    var s := SimTo(cfg, candles, strategy, i + 1);
    RunGrows(cfg, candles, strategy, i + 1, |candles|);
    EquityIsSum(cfg, candles, strategy, i + 1);
    RunConsistent(cfg, candles, strategy, i + 1);
    closed, open, move := |s.trades|, s.position, 0.0;
    if open.Some? {
      move := Profit(cfg, open.value, candles[i].close, open.value.qty);
      OpenEarns(cfg, candles, strategy, open.value, i);
    }
    assert Simulate(cfg, candles, strategy).trades[..closed] == s.trades;
  }

  lemma OpenEarns(cfg: Config, candles: seq<Candle>, strategy: seq<Option<Signal>>, p: Position, i: nat)
    requires i < |candles| && OpenSince(cfg, candles, strategy, p, i)
    ensures var price := candles[i].close;
      Earns(cfg, p.direction, p.entryPrice, price, p.qty, Profit(cfg, p, price, p.qty))
  {
    hide Earns, Profit;
    ProfitEarns(cfg, p, candles[i].close, p.qty);
  }

  // ---------- metrics ----------

  function Wins(trades: seq<Trade>): nat
  {
    if trades == [] then 0
    else Wins(trades[..|trades| - 1]) + (if trades[|trades| - 1].pnl > 0.0 then 1 else 0)
  }

  // The profits of the winning trades added up, or those of the other ones.
  function Gross(trades: seq<Trade>, winning: bool): real
  {
    if trades == [] then 0.0
    else
      var pnl := trades[|trades| - 1].pnl;
      Gross(trades[..|trades| - 1], winning) + (if (pnl > 0.0) == winning then pnl else 0.0)
  }

  // A profit factor of None is infinite. Averages and expectancy are taken
  // before they are rounded for display.
  datatype Metrics = Metrics(totalTrades: nat, winning: nat, losing: nat, winRate: real, totalPnl: real,
                             maxDrawdown: real, profitFactor: Option<real>, avgWin: real, avgLoss: real,
                             expectancy: real)

  function Mean(total: real, count: nat): real { if count == 0 then 0.0 else total / count as real }

  function Expectancy(winRate: real, avgWin: real, avgLoss: real): real
  {
    winRate * avgWin - (1.0 - winRate) * Abs(avgLoss)
  }

  function ProfitFactor(grossProfit: real, grossLoss: real): Option<real>
  {
    if grossLoss > 0.0 then Some(grossProfit / grossLoss)
    else if grossProfit > 0.0 then None
    else Some(0.0)
  }

  function ComputeMetrics(trades: seq<Trade>, curve: seq<real>): Metrics
    requires curve != []
  {
    var n, w := |trades|, Wins(trades);
    if n == 0 then Metrics(0, 0, 0, 0.0, 0.0, 0.0, Some(0.0), 0.0, 0.0, 0.0)
    else
      WinsBounded(trades);
      var winRate := w as real / n as real;
      var avgWin, avgLoss := Mean(Gross(trades, true), w), Mean(Gross(trades, false), n - w);
      Metrics(n, w, n - w, winRate, SumPnl(trades), TrackAll(curve).worst,
              ProfitFactor(Gross(trades, true), Abs(Gross(trades, false))), avgWin, avgLoss,
              Expectancy(winRate, avgWin, avgLoss))
  }

  // The indices of the trades with a profit; one of exactly zero is no win.
  ghost function Winners(trades: seq<Trade>): set<nat>
  {
    set k: nat | k < |trades| && trades[k].pnl > 0.0
  }

  lemma {:induction false} WinsAre(trades: seq<Trade>)
    ensures Wins(trades) == |Winners(trades)|
  {
    if trades != [] {
      var n: nat := |trades| - 1;
      WinsAre(trades[..n]);
      if trades[n].pnl > 0.0 {
        assert Winners(trades) == Winners(trades[..n]) + {n};
      } else {
        assert Winners(trades) == Winners(trades[..n]);
      }
    }
  }

  lemma {:induction false} WinsBounded(trades: seq<Trade>)
    ensures Wins(trades) <= |trades|
  {
    if trades != [] { WinsBounded(trades[..|trades| - 1]); }
  }

  lemma {:induction false} GrossSplits(trades: seq<Trade>)
    ensures Gross(trades, true) + Gross(trades, false) == SumPnl(trades)
    ensures Gross(trades, true) >= 0.0 >= Gross(trades, false)
    ensures Wins(trades) == 0 ==> Gross(trades, true) == 0.0
    ensures Wins(trades) == |trades| ==> Gross(trades, false) == 0.0
    ensures Wins(trades) <= |trades|
  {
    if trades != [] { GrossSplits(trades[..|trades| - 1]); }
  }

  // The share k/n of a mean over k items is the total over n.
  lemma ShareOfMean(total: real, k: nat, n: nat, share: real)
    requires n > 0 && (k == 0 ==> total == 0.0) && share == k as real / n as real
    ensures share * Mean(total, k) == total / n as real
  {
    if k > 0 {
      var kr, nr, m := k as real, n as real, total / k as real;
      assert m * kr == total && share * nr == kr;
      assert share * m * nr == m * (share * nr);
      QuotientIs(total, nr, share * m);
    }
  }

  lemma ExpectancyOf(gp: real, gl: real, w: nat, n: nat)
    requires 0 < n && w <= n && gl <= 0.0
    requires (w == 0 ==> gp == 0.0) && (w == n ==> gl == 0.0)
    ensures Expectancy(w as real / n as real, Mean(gp, w), Mean(gl, n - w)) == (gp + gl) / n as real
  {
    hide Expectancy, Mean;
    var winRate := w as real / n as real;
    RateOfOthers(w, n);
    ShareOfMean(gp, w, n, winRate);
    ShareOfMean(-gl, n - w, n, 1.0 - winRate);
    MeanOfLosses(gl, n - w);
    Recombine(winRate, Mean(gp, w), Mean(gl, n - w), gp, gl, n as real);
  }

  // Win rate, average win and average loss recombine to the mean profit per
  // trade; and the profit factor beats one exactly when there is a profit.
  lemma ExpectancyIsMeanPnl(trades: seq<Trade>, curve: seq<real>)
    requires trades != [] && curve != []
    ensures var m := ComputeMetrics(trades, curve);
      && m.expectancy == SumPnl(trades) / |trades| as real
      && m.winning + m.losing == m.totalTrades == |trades| && m.winning == |Winners(trades)|
      && (m.profitFactor == None || m.profitFactor.value > 1.0 <==> m.totalPnl > 0.0)
  {
    hide Expectancy, ProfitFactor, Mean, TrackAll, Gross, SumPnl, Wins;
    GrossSplits(trades);
    WinsAre(trades);
    ExpectancyOf(Gross(trades, true), Gross(trades, false), Wins(trades), |trades|);
    FactorBeatsOne(Gross(trades, true), Abs(Gross(trades, false)));
  }

  lemma RateOfOthers(w: nat, n: nat)
    requires w <= n && n > 0
    ensures (n - w) as real / n as real == 1.0 - w as real / n as real
  {
    var q := w as real / n as real;
    assert q * n as real == w as real;
    assert (1.0 - q) * n as real == n as real - w as real;
    QuotientIs((n - w) as real, n as real, 1.0 - q);
  }

  lemma MeanOfLosses(gl: real, k: nat)
    requires gl <= 0.0
    ensures Abs(Mean(gl, k)) == Mean(-gl, k)
  {
    if k > 0 {
      var q := gl / k as real;
      assert q * k as real == gl;
      QuotientIs(-gl, k as real, -q);
      QuotientAtMost(gl, k as real, 0.0);
    }
  }

  lemma Recombine(rate: real, win: real, loss: real, gp: real, gl: real, n: real)
    requires n > 0.0
    requires rate * win == gp / n && (1.0 - rate) * Abs(loss) == -gl / n
    ensures Expectancy(rate, win, loss) == (gp + gl) / n
  {
    var a, b := gp / n, -gl / n;
    assert a * n == gp && b * n == -gl;
    assert (a - b) * n == gp + gl;
    QuotientIs(gp + gl, n, a - b);
  }

  lemma FactorBeatsOne(gp: real, gl: real)
    requires gp >= 0.0 && gl >= 0.0
    ensures ProfitFactor(gp, gl) == None || ProfitFactor(gp, gl).value > 1.0 <==> gp > gl
  {
    if gl > 0.0 {
      if gp <= gl {
        QuotientAtMost(gp, gl, 1.0);
      } else {
        var d := (gp - gl) / gl;
        assert d * gl == gp - gl;
        assert d > 0.0;
        QuotientIs(gp, gl, 1.0 + d);
      }
    }
  }

  // What each trade gained, and what it lost.
  ghost predicate GainsAndLosses(trades: seq<Trade>, gains: seq<real>, losses: seq<real>)
  {
    |gains| == |losses| == |trades| && forall k :: 0 <= k < |trades| ==>
      && gains[k] == (if trades[k].pnl > 0.0 then trades[k].pnl else 0.0)
      && losses[k] == (if trades[k].pnl < 0.0 then -trades[k].pnl else 0.0)
  }

  lemma {:induction false} GrossIs(trades: seq<Trade>, gains: seq<real>, losses: seq<real>)
    requires GainsAndLosses(trades, gains, losses)
    ensures Gross(trades, true) == Sum(gains) && Gross(trades, false) == -Sum(losses)
  {
    if trades != [] {
      var n := |trades| - 1;
      GrossIs(trades[..n], gains[..n], losses[..n]);
    }
  }

  // The other metrics, from the totals gained and lost; a profit factor
  // without losses is infinite, or 0 without gains either.
  lemma MetricsAre(trades: seq<Trade>, curve: seq<real>, gains: seq<real>, losses: seq<real>, g: real, l: real)
    requires trades != [] && curve != [] && GainsAndLosses(trades, gains, losses)
    requires g == Sum(gains) && l == Sum(losses)
    ensures var m, n, w := ComputeMetrics(trades, curve), |trades|, |Winners(trades)|;
      && w <= n && m.winRate == w as real / n as real && m.totalPnl == g - l
      && m.avgWin == (if w > 0 then g / w as real else 0.0)
      && m.avgLoss == (if n > w then -l / (n - w) as real else 0.0)
      && m.profitFactor == if l > 0.0 then Some(g / l) else if g > 0.0 then None else Some(0.0)
  {
    WinsAre(trades);
    WinsBounded(trades);
    GrossIs(trades, gains, losses);
    GrossSplits(trades);
    hide Winners, Wins, Gross, Sum, SumPnl, TrackAll, Expectancy;
  }

  // The metrics of a whole run report its true profit and drawdown.
  lemma MetricsOfRun(cfg: Config, candles: seq<Candle>, strategy: seq<Option<Signal>>)
    requires Sane(cfg) && NonZeroCloses(candles) && |candles| == |strategy|
    requires Simulate(cfg, candles, strategy).trades != []
    ensures var r := Simulate(cfg, candles, strategy);
      && r.curve != []
      && var m := ComputeMetrics(r.trades, r.curve);
      && m.totalPnl == r.equity - cfg.initialBalance
      && (Positive(r.curve) ==> IsMaxDrawdown(r.curve, m.maxDrawdown))
  {
    hide Simulate, Expectancy, ProfitFactor, Mean;
    Accounting(cfg, candles, strategy);
    var r := Simulate(cfg, candles, strategy);
    if Positive(r.curve) { OnePassIsMaxDrawdown(r.curve); }
  }

  // ---------- the engine ----------

  class BacktestEngine {
    const config: Config

    constructor (config: Config)
      ensures this.config == config
    {
      this.config := config;
    }

    // Signals are computed for the whole series before the walk starts.
    method PrecomputeSignals(strategy: seq<Option<Signal>>) returns (signals: seq<Option<Signal>>)
      ensures |signals| == |strategy|
      ensures forall k :: 0 <= k < |signals| ==> signals[k] == SignalAt(strategy, k)
    {
      signals := [];
      for i := 0 to |strategy|
        invariant |signals| == i
        invariant forall k :: 0 <= k < i ==> signals[k] == SignalAt(strategy, k)
      {
        if i + 1 > 50 {
          signals := signals + [strategy[i]];
        } else {
          signals := signals + [None];
        }
      }
    }

    // The trade that the candle closes the position with, or the position
    // that stays open, its first target perhaps marked as hit.
    method ManageOpen(p: Position, current: Candle, now: nat) returns (stays: Position, trade: Option<Trade>)
      requires p.direction != Flat
      ensures ManagePosition(config, p, current, now)
           == if trade.Some? then Closes(trade.value) else Keeps(stays)
    {
      stays, trade := p, None;
      if p.direction == Long && current.low <= p.sl {
        trade := Some(StopTrade(config, p, now));
      } else if p.direction == Short && current.high >= p.sl {
        trade := Some(StopTrade(config, p, now));
      } else if !p.tp1Hit && p.tp1.Some? {
        if p.direction == Long && current.high >= p.tp1.value {
          stays := p.(tp1Hit := true);
        } else if p.direction == Short && current.low <= p.tp1.value {
          stays := p.(tp1Hit := true);
        }
      } else if p.tp2.Some? {
        if p.direction == Long && current.high >= p.tp2.value {
          trade := Some(TargetTrade(config, p, p.tp2.value, now));
        } else if p.direction == Short && current.low <= p.tp2.value {
          trade := Some(TargetTrade(config, p, p.tp2.value, now));
        }
      }
    }

    method ManageStage(equity: real, position: Option<Position>, trades: seq<Trade>, ghost curve: seq<real>,
                       current: Candle, now: nat)
      returns (equity': real, position': Option<Position>, trades': seq<Trade>)
      requires position.Some? ==> position.value.direction != Flat
      ensures Sim(equity', position', trades', curve)
           == Manage(config, Sim(equity, position, trades, curve), current, now)
      ensures position'.Some? ==> position'.value.direction != Flat
    {
      hide ManagePosition;
      equity', position', trades' := equity, position, trades;
      if position.Some? {
        KeepsDirection(config, position.value, current, now);
        var stays, trade := ManageOpen(position.value, current, now);
        if trade.Some? {
          equity' := equity + trade.value.pnl;
          trades' := trades + [trade.value];
          position' := None;
        } else {
          position' := Some(stays);
        }
      }
    }

    method Run(candles: seq<Candle>, strategy: seq<Option<Signal>>) returns (r: Result, metrics: Metrics)
      requires Sane(config) && NonZeroCloses(candles) && |candles| == |strategy|
      ensures r == Simulate(config, candles, strategy)
      ensures r.curve != [] && metrics == ComputeMetrics(r.trades, r.curve)
      ensures r.trades == [] ==> metrics == Metrics(0, 0, 0, 0.0, 0.0, 0.0, Some(0.0), 0.0, 0.0, 0.0)
    {
      hide Manage, Profit, Open, Tradable;
      var equity := config.initialBalance;
      var position: Option<Position> := None;
      var trades: seq<Trade> := [];
      var curve := [equity];
      var signals := PrecomputeSignals(strategy);
      var i := 1;
      while i < |candles|
        invariant 1 <= i
        invariant i <= |candles| ==> Sim(equity, position, trades, curve) == SimTo(config, candles, strategy, i)
        invariant i == 1 ==> Sim(equity, position, trades, curve) == Start(config)
        invariant i > |candles| ==> i == 1
        invariant position.Some? ==> position.value.direction != Flat
        invariant curve != []
      {
        var current := candles[i];
        equity, position, trades := ManageStage(equity, position, trades, curve, current, i);
        var signal := signals[i - 1];
        var tradable := IsTradable(signal);
        if position.None? && tradable {
          OpensDirected(config, signal.value, current, i);
          position := Some(Open(config, signal.value, current, i));
        }
        var currentEquity := equity;
        if position.Some? {
          currentEquity := equity + Profit(config, position.value, current.close, position.value.qty);
        }
        curve := curve + [currentEquity];
        i := i + 1;
      }
      if position.Some? {
        var p, last := position.value, candles[|candles| - 1];
        var t := FinalTrade(config, p, last.close, |candles| - 1);
        equity := equity + t.pnl;
        trades := trades + [t];
      }
      r := Result(equity, trades, curve);
      metrics := ComputeMetrics(trades, curve);
    }

    method IsTradable(signal: Option<Signal>) returns (yes: bool)
      ensures yes == Tradable(signal) && (yes ==> signal.Some?)
    {
      yes := signal.Some? && (signal.value.direction == Long || signal.value.direction == Short)
             && signal.value.confidence >= 0.4;
    }
  }

  lemma KeepsDirection(cfg: Config, p: Position, c: Candle, now: nat)
    ensures ManagePosition(cfg, p, c, now).Keeps? ==> ManagePosition(cfg, p, c, now).position.direction == p.direction
  {
    hide StopTrade, TargetTrade;
  }

  lemma OpensDirected(cfg: Config, g: Signal, c: Candle, now: nat)
    requires Sane(cfg) && c.close != 0.0 && Tradable(Some(g))
    ensures Open(cfg, g, c, now).direction != Flat
  {
    hide EntryQty, EntryPrice;
  }
}
