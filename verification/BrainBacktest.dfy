/** The brain backtest: weighted aggregation of brain scores, and a
    one-position trading simulation over candles with a 1.5% stop.

    The stop never moves and profits are only taken at the end of the data, so
    every exit inside the loop multiplies the balance by a constant that does
    not depend on prices. */
module BrainBacktest {
  import opened Options
  import opened RealMath
  import opened Drawdown

  datatype Action = BUY | SELL | HOLD

  // ---------- aggregation of scores ----------

  datatype Score = Score(brain: string, score: real)

  const BRAIN_WEIGHTS := map[
    "timesfm" := 0.25, "freqai" := 0.15, "llm_regime" := 0.15, "finbert_nlp" := 0.07,
    "microstructure" := 0.05, "orderflow_nautilus" := 0.03, "finrl_kelly" := 0.05,
    "statarb_funding" := 0.05, "onchain_whale" := 0.05, "custom_nn" := 0.05,
    "polymarket_alpha" := 0.05, "odoo_erp" := 0.05]

  function Weight(brain: string): (w: real)
    ensures w > 0.0
  {
    if brain in BRAIN_WEIGHTS then BRAIN_WEIGHTS[brain] else 0.05
  }

  function WeightedSum(scores: seq<Score>): real
  {
    if scores == [] then 0.0
    else
      var s := scores[|scores| - 1];
      WeightedSum(scores[..|scores| - 1]) + s.score * Weight(s.brain)
  }

  function TotalWeight(scores: seq<Score>): real
  {
    if scores == [] then 0.0
    else TotalWeight(scores[..|scores| - 1]) + Weight(scores[|scores| - 1].brain)
  }

  lemma {:induction false} TotalWeightPositive(scores: seq<Score>)
    ensures scores != [] ==> TotalWeight(scores) > 0.0
  {
    if scores != [] { TotalWeightPositive(scores[..|scores| - 1]); }
  }

  // The weighted mean of the scores.
  function MeanScore(scores: seq<Score>): real
    requires scores != []
  {
    TotalWeightPositive(scores);
    WeightedSum(scores) / TotalWeight(scores)
  }

  function ActionFor(score: real, buyThreshold: real, sellThreshold: real): Action
  {
    if score > buyThreshold then BUY else if score < sellThreshold then SELL else HOLD
  }

  predicate SumWithin(sum: real, total: real, lo: real, hi: real)
  {
    lo * total <= sum <= hi * total
  }

  lemma OneMoreWithin(sum: real, total: real, x: real, w: real, lo: real, hi: real, sum': real, total': real)
    requires SumWithin(sum, total, lo, hi) && lo <= x <= hi && w >= 0.0
    requires sum' == sum + x * w && total' == total + w
    ensures SumWithin(sum', total', lo, hi)
  {
    TimesMonotone(lo, x, w);
    TimesMonotone(x, hi, w);
    assert lo * (total + w) == lo * total + lo * w;
    assert hi * (total + w) == hi * total + hi * w;
  }

  lemma NothingWithin(lo: real, hi: real)
    ensures SumWithin(0.0, 0.0, lo, hi)
  {
  }

  lemma {:induction false} WeightedSumWithin(scores: seq<Score>, lo: real, hi: real)
    requires forall i :: 0 <= i < |scores| ==> lo <= scores[i].score <= hi
    ensures SumWithin(WeightedSum(scores), TotalWeight(scores), lo, hi)
  {
    hide SumWithin, Weight;
    if |scores| == 0 {
      NothingWithin(lo, hi);
    } else {
      var init, s := scores[..|scores| - 1], scores[|scores| - 1];
      WeightedSumWithin(init, lo, hi);
      OneMoreWithin(WeightedSum(init), TotalWeight(init), s.score, Weight(s.brain), lo, hi,
                    WeightedSum(scores), TotalWeight(scores));
    }
  }

  lemma WeightStep(scores: seq<Score>, i: nat)
    requires i < |scores|
    ensures WeightedSum(scores[..i + 1]) == WeightedSum(scores[..i]) + scores[i].score * Weight(scores[i].brain)
    ensures TotalWeight(scores[..i + 1]) == TotalWeight(scores[..i]) + Weight(scores[i].brain)
  {
    hide Weight;
    assert scores[..i + 1][..i] == scores[..i];
  }

  // The action is decided by where the mean lies.
  lemma ActionIff(scores: seq<Score>, buy: real, sell: real)
    requires scores != []
    ensures var mean, action := MeanScore(scores), ActionFor(MeanScore(scores), buy, sell);
      && (action == BUY <==> buy < mean)
      && (action == SELL <==> mean <= buy && mean < sell)
      && (action == HOLD <==> sell <= mean <= buy)
  {
    hide MeanScore;
  }

  // Scores that agree beyond a threshold decide the action; SELL also needs a
  // sell threshold that is not above the buy threshold.
  lemma AgreementDecides(scores: seq<Score>, buy: real, sell: real)
    requires scores != []
    ensures (forall i :: 0 <= i < |scores| ==> buy < scores[i].score) ==> ActionFor(MeanScore(scores), buy, sell) == BUY
    ensures sell <= buy && (forall i :: 0 <= i < |scores| ==> scores[i].score < sell) ==>
              ActionFor(MeanScore(scores), buy, sell) == SELL
  {
    hide MeanScore;
    var lo, hi := Lowest(scores), Highest(scores);
    MeanScoreWithin(scores, lo, hi, buy, sell);
  }

  function Lowest(scores: seq<Score>): (x: real)
    requires scores != []
    ensures forall i :: 0 <= i < |scores| ==> x <= scores[i].score
    ensures exists i :: 0 <= i < |scores| && x == scores[i].score
  {
    if |scores| == 1 then scores[0].score
    else
      var x, last := Lowest(scores[..|scores| - 1]), scores[|scores| - 1].score;
      assert scores[|scores| - 1].score == last;
      if x <= last then x else last
  }

  function Highest(scores: seq<Score>): (x: real)
    requires scores != []
    ensures forall i :: 0 <= i < |scores| ==> scores[i].score <= x
    ensures exists i :: 0 <= i < |scores| && x == scores[i].score
  {
    if |scores| == 1 then scores[0].score
    else
      var x, last := Highest(scores[..|scores| - 1]), scores[|scores| - 1].score;
      assert scores[|scores| - 1].score == last;
      if x >= last then x else last
  }

  lemma OneMoreScore(scores: seq<Score>, s: Score)
    ensures WeightedSum(scores + [s]) == WeightedSum(scores) + s.score * Weight(s.brain)
    ensures TotalWeight(scores + [s]) == TotalWeight(scores) + Weight(s.brain)
  {
    hide Weight;
    assert (scores + [s])[..|scores|] == scores;
  }

  // One score of every brain that has a weight.
  function AllBrains(s: seq<real>): seq<Score>
    requires |s| == 12
  {
    [Score("timesfm", s[0])] + [Score("freqai", s[1])] + [Score("llm_regime", s[2])]
    + [Score("finbert_nlp", s[3])] + [Score("microstructure", s[4])] + [Score("orderflow_nautilus", s[5])]
    + [Score("finrl_kelly", s[6])] + [Score("statarb_funding", s[7])] + [Score("onchain_whale", s[8])]
    + [Score("custom_nn", s[9])] + [Score("polymarket_alpha", s[10])] + [Score("odoo_erp", s[11])]
  }

  // The weights add up to one, so the mean over all brains is the weighted sum.
  lemma AllBrainsMean(s: seq<real>)
    requires |s| == 12
    ensures MeanScore(AllBrains(s))
         == 0.25 * s[0] + 0.15 * (s[1] + s[2]) + 0.07 * s[3] + 0.03 * s[5]
            + 0.05 * (s[4] + s[6] + s[7] + s[8] + s[9] + s[10] + s[11])
  {
    var names := ["timesfm", "freqai", "llm_regime", "finbert_nlp", "microstructure", "orderflow_nautilus",
                  "finrl_kelly", "statarb_funding", "onchain_whale", "custom_nn", "polymarket_alpha", "odoo_erp"];
    OneMoreScore([], Score(names[0], s[0]));
    assert [] + [Score(names[0], s[0])] == [Score(names[0], s[0])];
    var a1 := [Score(names[0], s[0])];
    OneMoreScore(a1, Score(names[1], s[1]));
    var a2 := a1 + [Score(names[1], s[1])];
    OneMoreScore(a2, Score(names[2], s[2]));
    var a3 := a2 + [Score(names[2], s[2])];
    OneMoreScore(a3, Score(names[3], s[3]));
    var a4 := a3 + [Score(names[3], s[3])];
    OneMoreScore(a4, Score(names[4], s[4]));
    var a5 := a4 + [Score(names[4], s[4])];
    OneMoreScore(a5, Score(names[5], s[5]));
    var a6 := a5 + [Score(names[5], s[5])];
    OneMoreScore(a6, Score(names[6], s[6]));
    var a7 := a6 + [Score(names[6], s[6])];
    OneMoreScore(a7, Score(names[7], s[7]));
    var a8 := a7 + [Score(names[7], s[7])];
    OneMoreScore(a8, Score(names[8], s[8]));
    var a9 := a8 + [Score(names[8], s[8])];
    OneMoreScore(a9, Score(names[9], s[9]));
    var a10 := a9 + [Score(names[9], s[9])];
    OneMoreScore(a10, Score(names[10], s[10]));
    var a11 := a10 + [Score(names[10], s[10])];
    OneMoreScore(a11, Score(names[11], s[11]));
  }

  // A brain without a weight counts a twentieth.
  lemma UnknownBrainMean(brain: string, x: real, y: real)
    requires brain !in BRAIN_WEIGHTS
    ensures MeanScore([Score("timesfm", x), Score(brain, y)]) == (0.25 * x + 0.05 * y) / 0.3
  {
    OneMoreScore([], Score("timesfm", x));
    assert [] + [Score("timesfm", x)] == [Score("timesfm", x)];
    OneMoreScore([Score("timesfm", x)], Score(brain, y));
    assert [Score("timesfm", x)] + [Score(brain, y)] == [Score("timesfm", x), Score(brain, y)];
  }

  // The mean score stays within the scores, so the action needs a score beyond
  // its threshold.
  lemma MeanScoreWithin(scores: seq<Score>, lo: real, hi: real, buy: real, sell: real)
    requires scores != []
    requires forall i :: 0 <= i < |scores| ==> lo <= scores[i].score <= hi
    ensures lo <= MeanScore(scores) <= hi
    ensures hi <= buy ==> ActionFor(MeanScore(scores), buy, sell) != BUY
    ensures sell <= lo ==> ActionFor(MeanScore(scores), buy, sell) != SELL
  {
    hide Weight, WeightedSum, TotalWeight;
    TotalWeightPositive(scores);
    WeightedSumWithin(scores, lo, hi);
    QuotientAtLeast(WeightedSum(scores), TotalWeight(scores), lo);
    QuotientAtMost(WeightedSum(scores), TotalWeight(scores), hi);
  }

  // ---------- the simulation ----------

  datatype Config = Config(initialBalance: real, leverage: int, takerFee: real, slippageBps: real)

  datatype Candle = Candle(high: real, low: real, close: real)

  datatype Direction = Long | Short

  datatype Position = Position(direction: Direction, entryPrice: real, entryTime: nat, qty: real, sl: real)

  datatype Trade = Trade(direction: Direction, entryTime: nat, exitTime: nat, entryPrice: real, exitPrice: real,
                         quantity: real, pnl: real, fees: real)

  datatype Sim = Sim(balance: real, position: Option<Position>, trades: seq<Trade>, curve: seq<real>,
                     tracker: Tracker)

  function StopPrice(p: Position): real
  {
    if p.direction.Long? then Max(p.sl, p.entryPrice * 0.985) else Min(p.sl, p.entryPrice * 1.015)
  }

  predicate Stopped(p: Position, c: Candle)
  {
    if p.direction.Long? then c.low <= StopPrice(p) else c.high >= StopPrice(p)
  }

  // The factor that slippage puts on an exit price.
  function Slip(cfg: Config, d: Direction): real
  {
    if d.Long? then 1.0 - cfg.slippageBps / 10000.0 else 1.0 + cfg.slippageBps / 10000.0
  }

  // Leveraged profit of a position at a price, before fees.
  function Profit(cfg: Config, p: Position, price: real): real
  {
    (if p.direction.Long? then price - p.entryPrice else p.entryPrice - price) * p.qty * cfg.leverage as real
  }

  function StopExit(cfg: Config, p: Position): real { StopPrice(p) * Slip(cfg, p.direction) }

  function StopFee(cfg: Config, p: Position): real { StopExit(cfg, p) * p.qty * cfg.takerFee }

  function StopTrade(cfg: Config, p: Position, now: nat): Trade
  {
    var exitPrice, fee := StopExit(cfg, p), StopFee(cfg, p);
    Trade(p.direction, p.entryTime, now, p.entryPrice, exitPrice, p.qty, Profit(cfg, p, exitPrice) - fee, fee)
  }

  function Exit(cfg: Config, s: Sim, c: Candle, now: nat): Sim
  {
    if s.position.Some? && Stopped(s.position.value, c) then
      var t := StopTrade(cfg, s.position.value, now);
      s.(balance := s.balance + t.pnl, trades := s.trades + [t], position := None)
    else s
  }

  function Open(balance: real, direction: Direction, c: Candle, now: nat): Position
    requires c.close != 0.0
  {
    Position(direction, c.close, now, balance * 0.95 / c.close,
             c.close * (if direction.Long? then 0.97 else 1.03))
  }

  function Enter(s: Sim, c: Candle, action: Action, now: nat): Sim
    requires c.close != 0.0
  {
    if s.position.Some? || action.HOLD? then s
    else s.(position := Some(Open(s.balance, if action.BUY? then Long else Short, c, now)))
  }

  function Equity(cfg: Config, s: Sim, price: real): real
  {
    s.balance + (if s.position.Some? then Profit(cfg, s.position.value, price) else 0.0)
  }

  function Record(cfg: Config, s: Sim, c: Candle): Sim
  {
    var e := Equity(cfg, s, c.close);
    s.(curve := s.curve + [e], tracker := Track(s.tracker, e))
  }

  function OneCandle(cfg: Config, s: Sim, c: Candle, action: Action, now: nat): Sim
    requires c.close != 0.0
  {
    Record(cfg, Enter(Exit(cfg, s, c, now), c, action, now), c)
  }

  const WARMUP: nat := 100

  ghost predicate WellFormed(candles: seq<Candle>)
  {
    forall i :: 0 <= i < |candles| ==> 0.0 < candles[i].low <= candles[i].close <= candles[i].high
  }

  // What the sizes of positions divide by.
  ghost predicate NonZeroCloses(candles: seq<Candle>)
  {
    forall i :: 0 <= i < |candles| ==> candles[i].close != 0.0
  }

  function Start(cfg: Config): Sim
  {
    Sim(cfg.initialBalance, None, [], [cfg.initialBalance], Tracker(cfg.initialBalance, 0.0))
  }

  // The state after the candles before number n; the first 100 only warm up.
  function SimTo(cfg: Config, candles: seq<Candle>, actions: seq<Action>, n: nat): Sim
    requires NonZeroCloses(candles) && n <= |candles| == |actions|
  {
    if n <= WARMUP then Start(cfg)
    else OneCandle(cfg, SimTo(cfg, candles, actions, n - 1), candles[n - 1], actions[n - 1], n - 1)
  }

  datatype Result = Result(balance: real, trades: seq<Trade>, curve: seq<real>, maxDrawdown: real)

  function CloseTrade(cfg: Config, p: Position, price: real, now: nat): Trade
  {
    Trade(p.direction, p.entryTime, now, p.entryPrice, price, p.qty, Profit(cfg, p, price), 0.0)
  }

  function Backtest(cfg: Config, candles: seq<Candle>, actions: seq<Action>): Result
    requires NonZeroCloses(candles) && |candles| == |actions|
  {
    var n := |candles|;
    var s := SimTo(cfg, candles, actions, n);
    if s.position.Some? && n > 0 then
      var t := CloseTrade(cfg, s.position.value, candles[n - 1].close, n - 1);
      Result(s.balance + t.pnl, s.trades + [t], s.curve, s.tracker.worst)
    else Result(s.balance, s.trades, s.curve, s.tracker.worst)
  }

  // ---------- one exit multiplies the balance by a constant ----------

  // What a stop-out leaves of the balance: 95% of it was at stake, the price
  // went 1.5% against it, with leverage, slippage and a fee on the exit.
  function Factor(cfg: Config, d: Direction): real
  {
    var k := (if d.Long? then 0.985 else 1.015) * Slip(cfg, d);
    1.0 + 0.95 * ((if d.Long? then k - 1.0 else 1.0 - k) * cfg.leverage as real - k * cfg.takerFee)
  }

  // What holds of a position opened with a given balance.
  ghost predicate Sized(balance: real, p: Position)
  {
    p.entryPrice > 0.0 && p.entryPrice * p.qty == 0.95 * balance
    && p.sl == p.entryPrice * (if p.direction.Long? then 0.97 else 1.03)
  }

  lemma OpenIsSized(balance: real, d: Direction, c: Candle, now: nat)
    requires c.close > 0.0
    ensures Sized(balance, Open(balance, d, c, now))
  {
    var v := balance * 0.95;
    assert v / c.close * c.close == v;
  }

  lemma StopIsFixed(balance: real, p: Position)
    requires Sized(balance, p)
    ensures StopPrice(p) == p.entryPrice * (if p.direction.Long? then 0.985 else 1.015)
  {
  }

  lemma Assoc(k: real, e: real, q: real)
    ensures k * e * q == k * (e * q)
  {
  }

  // Profit and fee of an exit at k times the entry price, in terms of the
  // amount at stake e * q.
  lemma ExitAt(cfg: Config, p: Position, k: real, price: real)
    requires price == k * p.entryPrice
    ensures Profit(cfg, p, price)
         == (if p.direction.Long? then k - 1.0 else 1.0 - k) * (p.entryPrice * p.qty) * cfg.leverage as real
    ensures price * p.qty * cfg.takerFee == k * (p.entryPrice * p.qty) * cfg.takerFee
  {
    var e, q := p.entryPrice, p.qty;
    Assoc(k, e, q);
    assert price - e == (k - 1.0) * e && e - price == (1.0 - k) * e;
    Assoc(k - 1.0, e, q);
    Assoc(1.0 - k, e, q);
  }

  lemma StopMultiplies(cfg: Config, balance: real, p: Position, now: nat)
    requires Sized(balance, p)
    ensures balance + StopTrade(cfg, p, now).pnl == balance * Factor(cfg, p.direction)
  {
    var k := (if p.direction.Long? then 0.985 else 1.015) * Slip(cfg, p.direction);
    StopIsFixed(balance, p);
    var price := StopPrice(p) * Slip(cfg, p.direction);
    assert price == k * p.entryPrice;
    ExitAt(cfg, p, k, price);
    var g := if p.direction.Long? then k - 1.0 else 1.0 - k;
    FactorOut(balance, g, cfg.leverage as real, k, cfg.takerFee);
  }

  lemma StopTradeOf(cfg: Config, p: Position, now: nat)
    ensures StopTrade(cfg, p, now).direction == p.direction
  {
  }

  lemma FactorOut(b: real, g: real, lev: real, k: real, fee: real)
    ensures g * (0.95 * b) * lev - k * (0.95 * b) * fee == b * (0.95 * (g * lev - k * fee))
  {
    assert g * (0.95 * b) * lev == 0.95 * b * (g * lev);
    assert k * (0.95 * b) * fee == 0.95 * b * (k * fee);
  }

  // ---------- whole runs ----------

  function Count(trades: seq<Trade>, d: Direction): nat
  {
    if trades == [] then 0
    else Count(trades[..|trades| - 1], d) + (if trades[|trades| - 1].direction == d then 1 else 0)
  }

  function SumPnl(trades: seq<Trade>): real
  {
    if trades == [] then 0.0 else SumPnl(trades[..|trades| - 1]) + trades[|trades| - 1].pnl
  }

  ghost predicate Compounded(cfg: Config, s: Sim)
  {
    s.balance == cfg.initialBalance * Pow(Factor(cfg, Long), Count(s.trades, Long))
                                    * Pow(Factor(cfg, Short), Count(s.trades, Short))
  }

  lemma OneMoreFactor(b: real, f: real, g: real, m: nat, n: nat)
    ensures b * Pow(f, m) * Pow(g, n) * f == b * Pow(f, m + 1) * Pow(g, n)
    ensures b * Pow(f, m) * Pow(g, n) * g == b * Pow(f, m) * Pow(g, n + 1)
  {
    var x, y := Pow(f, m), Pow(g, n);
    assert b * x * y * f == b * (f * x) * y;
    assert b * x * y * g == b * x * (g * y);
  }

  lemma ExitCompounds(cfg: Config, s: Sim, c: Candle, now: nat)
    requires Compounded(cfg, s)
    requires s.position.Some? ==> Sized(s.balance, s.position.value)
    ensures Compounded(cfg, Exit(cfg, s, c, now))
  {
    hide Factor, Profit, StopTrade, Pow, Sized, StopPrice;
    if s.position.Some? && Stopped(s.position.value, c) {
      var p := s.position.value;
      var t := StopTrade(cfg, p, now);
      StopTradeOf(cfg, p, now);
      StopMultiplies(cfg, s.balance, p, now);
      assert (s.trades + [t])[..|s.trades|] == s.trades;
      OneMoreFactor(cfg.initialBalance, Factor(cfg, Long), Factor(cfg, Short),
                    Count(s.trades, Long), Count(s.trades, Short));
    }
  }

  lemma StartCompounded(cfg: Config)
    ensures Compounded(cfg, Start(cfg))
  {
    hide Factor;
    assert Pow(Factor(cfg, Long), 0) == 1.0 && Pow(Factor(cfg, Short), 0) == 1.0;
  }

  lemma CompoundedDependsOn(cfg: Config, s: Sim, s': Sim)
    requires Compounded(cfg, s) && s'.balance == s.balance && s'.trades == s.trades
    ensures Compounded(cfg, s')
  {
    hide Factor, Pow, Count;
  }

  // One candle of the loop, field by field.
  lemma CandleShape(cfg: Config, candles: seq<Candle>, actions: seq<Action>, n: nat)
    requires NonZeroCloses(candles) && WARMUP < n <= |candles| == |actions|
    ensures var before, s, c := SimTo(cfg, candles, actions, n - 1), SimTo(cfg, candles, actions, n), candles[n - 1];
      var x := Exit(cfg, before, c, n - 1);
      && s.balance == x.balance && s.trades == x.trades
      && s.position == (if x.position.Some? || actions[n - 1].HOLD? then x.position
                        else Some(Open(x.balance, if actions[n - 1].BUY? then Long else Short, c, n - 1)))
      && s.curve == before.curve + [Equity(cfg, s, c.close)]
      && s.tracker == Track(before.tracker, Equity(cfg, s, c.close))
  {
    hide Profit, StopTrade, Open, Stopped;
  }

  // The open position is sized for the balance, and the balance has been
  // multiplied by one constant per long and one per short stop-out.
  lemma {:induction false} BalanceIsCompounded(cfg: Config, candles: seq<Candle>, actions: seq<Action>, n: nat)
    requires WellFormed(candles) && n <= |candles| == |actions|
    ensures var s := SimTo(cfg, candles, actions, n);
      Compounded(cfg, s) && (s.position.Some? ==> Sized(s.balance, s.position.value))
  {
    hide Open, Sized, Compounded, StopTrade, Profit, OneCandle;
    if n <= WARMUP {
      StartCompounded(cfg);
    } else {
      BalanceIsCompounded(cfg, candles, actions, n - 1);
      CandleShape(cfg, candles, actions, n);
      var s, c := SimTo(cfg, candles, actions, n - 1), candles[n - 1];
      ExitCompounds(cfg, s, c, n - 1);
      OpenIsSized(Exit(cfg, s, c, n - 1).balance, if actions[n - 1].BUY? then Long else Short, c, n - 1);
      CompoundedDependsOn(cfg, Exit(cfg, s, c, n - 1), SimTo(cfg, candles, actions, n));
    }
  }

  // The parameters make every stop-out a loss, but not a ruin.
  ghost predicate Sound(cfg: Config)
  {
    cfg.initialBalance > 0.0 && 0 <= cfg.leverage
    && 0.0 < Factor(cfg, Long) < 1.0 && 0.0 < Factor(cfg, Short) < 1.0
  }

  // The defaults of the engine do.
  lemma DefaultsAreSound()
    ensures Sound(Config(100.0, 3, 0.0004, 0.5))
  {
  }

  lemma FloorPositive(cfg: Config, b: real)
    requires AtRisk(cfg) < 1.0 && b > 0.0
    ensures Floor(cfg, b) > 0.0
  {
    hide AtRisk;
    ProductPositive(1.0 - AtRisk(cfg), b);
  }

  lemma ProductPositive(a: real, b: real)
    requires a > 0.0 && b > 0.0
    ensures a * b > 0.0
  {
  }

  lemma Shrinks(b: real, pnl: real, f: real)
    requires b > 0.0 && 0.0 < f < 1.0 && b + pnl == b * f
    ensures pnl < 0.0 < b + pnl
  {
    assert -pnl == b * (1.0 - f);
    SignOfProduct(b, 1.0 - f);
    SignOfProduct(b, f);
  }

  ghost predicate AllLose(trades: seq<Trade>)
  {
    forall k :: 0 <= k < |trades| ==> trades[k].pnl < 0.0
  }

  lemma ExitLoses(cfg: Config, s: Sim, c: Candle, now: nat)
    requires Sound(cfg) && s.balance > 0.0 && AllLose(s.trades)
    requires s.position.Some? ==> Sized(s.balance, s.position.value)
    ensures Exit(cfg, s, c, now).balance > 0.0 && AllLose(Exit(cfg, s, c, now).trades)
  {
    hide Factor, StopTrade, Sized, Stopped;
    if s.position.Some? && Stopped(s.position.value, c) {
      var d := s.position.value.direction;
      StopMultiplies(cfg, s.balance, s.position.value, now);
      assert d == Long || d == Short;
      Shrinks(s.balance, StopTrade(cfg, s.position.value, now).pnl, Factor(cfg, d));
    }
  }

  lemma {:induction false} EveryStopLoses(cfg: Config, candles: seq<Candle>, actions: seq<Action>, n: nat)
    requires WellFormed(candles) && n <= |candles| == |actions| && Sound(cfg)
    ensures var s := SimTo(cfg, candles, actions, n);
      s.balance > 0.0 && AllLose(s.trades)
  {
    hide Exit, OneCandle, Sized, Open;
    if n > WARMUP {
      EveryStopLoses(cfg, candles, actions, n - 1);
      BalanceIsCompounded(cfg, candles, actions, n - 1);
      CandleShape(cfg, candles, actions, n);
      ExitLoses(cfg, SimTo(cfg, candles, actions, n - 1), candles[n - 1], n - 1);
    }
  }

  // At most one trade of a run makes a profit: the last one, if it is the
  // close that the end of the data forces.
  lemma OnlyForcedCloseWins(cfg: Config, candles: seq<Candle>, actions: seq<Action>, k: nat)
    requires WellFormed(candles) && |candles| == |actions| && Sound(cfg)
    requires k < |Backtest(cfg, candles, actions).trades|
    requires Backtest(cfg, candles, actions).trades[k].pnl >= 0.0
    ensures k == |Backtest(cfg, candles, actions).trades| - 1
    ensures SimTo(cfg, candles, actions, |candles|).position.Some?
  {
    EveryStopLoses(cfg, candles, actions, |candles|);
  }

  // ---------- how far marked equity can fall ----------

  // The share of the balance that an open position can lose before its stop.
  function AtRisk(cfg: Config): real { 0.95 * cfg.leverage as real * 0.015 }

  lemma UnstoppedLoss(cfg: Config, balance: real, p: Position, c: Candle)
    requires Sized(balance, p) && balance > 0.0 && cfg.leverage >= 0
    requires 0.0 < c.low <= c.close <= c.high && !Stopped(p, c)
    ensures Profit(cfg, p, c.close) >= -(AtRisk(cfg) * balance)
  {
    var e, q, lev := p.entryPrice, p.qty, cfg.leverage as real;
    var move := if p.direction.Long? then c.close - e else e - c.close;
    StopIsFixed(balance, p);
    assert move >= -0.015 * e;
    QuantityPositive(e, q, 0.95 * balance);
    LossBounded(move, e, q, lev, balance);
  }

  lemma QuantityPositive(e: real, q: real, v: real)
    requires e > 0.0 && e * q == v && v > 0.0
    ensures q > 0.0
  {
  }

  lemma LossBounded(move: real, e: real, q: real, lev: real, balance: real)
    requires move >= -0.015 * e && q >= 0.0 && lev >= 0.0 && e * q == 0.95 * balance
    ensures move * q * lev >= -(0.95 * lev * 0.015 * balance)
  {
    TimesMonotone(-0.015 * e, move, q);
    Assoc(-0.015, e, q);
    TimesMonotone(-0.015 * (0.95 * balance), move * q, lev);
    assert -0.015 * (0.95 * balance) * lev == -(0.95 * lev * 0.015 * balance);
  }

  function Floor(cfg: Config, balance: real): real { (1.0 - AtRisk(cfg)) * balance }

  lemma MarkedAboveFloor(cfg: Config, candles: seq<Candle>, actions: seq<Action>, n: nat)
    requires WellFormed(candles) && 100 < n <= |candles| == |actions| && Sound(cfg)
    ensures var s := SimTo(cfg, candles, actions, n);
      && |s.curve| >= 2
      && s.curve[|s.curve| - 1] == Equity(cfg, s, candles[n - 1].close)
      && s.curve[|s.curve| - 1] >= Floor(cfg, s.balance)
  {
    hide Profit, StopTrade, Sized, Open, AtRisk, Compounded, Stopped, OneCandle, Factor, Floor;
    CurveLength(cfg, candles, actions, n);
    EveryStopLoses(cfg, candles, actions, n);
    BalanceIsCompounded(cfg, candles, actions, n - 1);
    CandleShape(cfg, candles, actions, n);
    var before, s, c := SimTo(cfg, candles, actions, n - 1), SimTo(cfg, candles, actions, n), candles[n - 1];
    RiskShare(cfg, s.balance);
    if before.position.Some? && !Stopped(before.position.value, c) {
      UnstoppedLoss(cfg, s.balance, s.position.value, c);
    } else if s.position.Some? {
      NoProfitYet(cfg, s.balance, if actions[n - 1].BUY? then Long else Short, c, n - 1);
    }
  }

  // At every candle of the loop, marked equity keeps all but that share of the
  // balance.
  lemma EquityFloor(cfg: Config, candles: seq<Candle>, actions: seq<Action>, n: nat)
    requires WellFormed(candles) && 100 < n <= |candles| == |actions| && Sound(cfg)
    ensures var s := SimTo(cfg, candles, actions, n);
      && |s.curve| >= 2
      && s.curve[|s.curve| - 1] == Equity(cfg, s, candles[n - 1].close)
      && s.curve[|s.curve| - 1] >= (1.0 - 0.95 * cfg.leverage as real * 0.015) * s.balance
  {
    hide SimTo, Equity, Floor;
    MarkedAboveFloor(cfg, candles, actions, n);
    EveryStopLoses(cfg, candles, actions, n);
    RiskShare(cfg, SimTo(cfg, candles, actions, n).balance);
  }

  lemma RiskShare(cfg: Config, b: real)
    requires cfg.leverage >= 0 && b >= 0.0
    ensures Floor(cfg, b) == b - AtRisk(cfg) * b == (1.0 - 0.95 * cfg.leverage as real * 0.015) * b
    ensures AtRisk(cfg) * b >= 0.0
  {
    assert AtRisk(cfg) >= 0.0;
  }

  lemma NoProfitYet(cfg: Config, balance: real, d: Direction, c: Candle, now: nat)
    requires c.close != 0.0
    ensures Profit(cfg, Open(balance, d, c, now), c.close) == 0.0
  {
  }

  lemma {:induction false} CurveLength(cfg: Config, candles: seq<Candle>, actions: seq<Action>, n: nat)
    requires NonZeroCloses(candles) && n <= |candles| == |actions|
    ensures |SimTo(cfg, candles, actions, n).curve| == if n <= WARMUP then 1 else n - WARMUP + 1
  {
    if n > WARMUP { CurveLength(cfg, candles, actions, n - 1); }
  }

  lemma {:induction false} CurvePositive(cfg: Config, candles: seq<Candle>, actions: seq<Action>, n: nat)
    requires WellFormed(candles) && n <= |candles| == |actions| && Sound(cfg) && AtRisk(cfg) < 1.0
    ensures Positive(SimTo(cfg, candles, actions, n).curve)
  {
    if n > WARMUP {
      hide OneCandle, AtRisk, Factor, Equity, Exit, Open, Floor;
      CurvePositive(cfg, candles, actions, n - 1);
      CandleShape(cfg, candles, actions, n);
      MarkedAboveFloor(cfg, candles, actions, n);
      EveryStopLoses(cfg, candles, actions, n);
      FloorPositive(cfg, SimTo(cfg, candles, actions, n).balance);
    }
  }

  lemma {:induction false} TrackerFollows(cfg: Config, candles: seq<Candle>, actions: seq<Action>, n: nat)
    requires NonZeroCloses(candles) && n <= |candles| == |actions|
    ensures var s := SimTo(cfg, candles, actions, n);
      s.curve != [] && s.tracker == TrackAll(s.curve)
  {
    hide OneCandle, Exit, Equity, Track;
    if n > WARMUP {
      TrackerFollows(cfg, candles, actions, n - 1);
      CandleShape(cfg, candles, actions, n);
      var before, s := SimTo(cfg, candles, actions, n - 1), SimTo(cfg, candles, actions, n);
      assert s.curve[..|s.curve| - 1] == before.curve;
    }
  }

  lemma CurveReported(cfg: Config, candles: seq<Candle>, actions: seq<Action>)
    requires NonZeroCloses(candles) && |candles| == |actions|
    ensures var s, r := SimTo(cfg, candles, actions, |candles|), Backtest(cfg, candles, actions);
      r.curve == s.curve && r.maxDrawdown == s.tracker.worst
  {
    hide SimTo, Profit;
  }

  // The reported maximum drawdown is the largest fall between any two points
  // of a positive equity curve; and the curve is positive whenever less than
  // the whole balance is at risk.
  lemma ReportsMaxDrawdown(cfg: Config, candles: seq<Candle>, actions: seq<Action>)
    requires NonZeroCloses(candles) && |candles| == |actions|
    ensures var r := Backtest(cfg, candles, actions);
      && (Positive(r.curve) ==> IsMaxDrawdown(r.curve, r.maxDrawdown))
      && (WellFormed(candles) && Sound(cfg) && 0.95 * cfg.leverage as real * 0.015 < 1.0 ==> Positive(r.curve))
  {
    CurveReported(cfg, candles, actions);
    hide SimTo, Backtest, Positive, IsMaxDrawdown, Sound, TrackAll;
    TrackerFollows(cfg, candles, actions, |candles|);
    var curve := SimTo(cfg, candles, actions, |candles|).curve;
    if Positive(curve) { OnePassIsMaxDrawdown(curve); }
    if WellFormed(candles) && Sound(cfg) && AtRisk(cfg) < 1.0 { CurvePositive(cfg, candles, actions, |candles|); }
  }

  // ---------- the history behind every trade ----------

  // The candle reaches the stop of a position entered at this price, 1.5%
  // against it.
  ghost predicate Touched(d: Direction, entry: real, c: Candle)
  {
    match d
    case Long => c.low <= entry * 0.985
    case Short => entry * 1.015 <= c.high
  }

  ghost predicate NeverTouched(candles: seq<Candle>, d: Direction, entry: real, a: nat, b: nat)
    requires b < |candles|
  {
    forall j :: a < j <= b ==> !Touched(d, entry, candles[j])
  }

  // A position of this direction is entered on the action and at the close of
  // its candle.
  ghost predicate EnteredOn(candles: seq<Candle>, actions: seq<Action>, d: Direction, time: nat, price: real)
  {
    && 100 <= time < |candles| == |actions|
    && actions[time] == (if d.Long? then BUY else SELL)
    && price == candles[time].close
  }

  // The leveraged move from entry to a price, for a quantity.
  ghost predicate Earns(cfg: Config, d: Direction, entry: real, price: real, qty: real, profit: real)
  {
    match d
    case Long => profit == (price - entry) * qty * cfg.leverage as real
    case Short => profit == (entry - price) * qty * cfg.leverage as real
  }

  // A stop-out is the first touch of the stop after the entry. It exits at the
  // stop with slippage against it, and books the move of its quantity less the
  // fee on the exit.
  ghost predicate StoppedOut(cfg: Config, candles: seq<Candle>, actions: seq<Action>, t: Trade)
  {
    && EnteredOn(candles, actions, t.direction, t.entryTime, t.entryPrice)
    && t.entryTime < t.exitTime < |candles|
    && Touched(t.direction, t.entryPrice, candles[t.exitTime])
    && NeverTouched(candles, t.direction, t.entryPrice, t.entryTime, t.exitTime - 1)
    && AtTheStop(cfg, t)
  }

  ghost predicate AtTheStop(cfg: Config, t: Trade)
  {
    && t.exitPrice == (if t.direction.Long? then t.entryPrice * 0.985 * (1.0 - cfg.slippageBps / 10000.0)
                       else t.entryPrice * 1.015 * (1.0 + cfg.slippageBps / 10000.0))
    && t.fees == t.exitPrice * t.quantity * cfg.takerFee
    && Earns(cfg, t.direction, t.entryPrice, t.exitPrice, t.quantity, t.pnl + t.fees)
  }

  ghost predicate HeldSince(candles: seq<Candle>, actions: seq<Action>, p: Position, i: nat)
    requires i < |candles|
  {
    && EnteredOn(candles, actions, p.direction, p.entryTime, p.entryPrice) && p.entryTime <= i
    && p.sl == p.entryPrice * (if p.direction.Long? then 0.97 else 1.03)
    && NeverTouched(candles, p.direction, p.entryPrice, p.entryTime, i)
  }

  ghost predicate Ordered(trades: seq<Trade>, end: nat)
  {
    && (forall k :: 0 <= k < |trades| ==> trades[k].exitTime <= end)
    && (forall k :: 0 < k < |trades| ==> trades[k - 1].exitTime <= trades[k].entryTime)
  }

  ghost predicate AllStoppedOut(cfg: Config, candles: seq<Candle>, actions: seq<Action>, trades: seq<Trade>)
  {
    forall k :: 0 <= k < |trades| ==> StoppedOut(cfg, candles, actions, trades[k])
  }

  ghost predicate Explained(cfg: Config, candles: seq<Candle>, actions: seq<Action>, s: Sim, i: nat)
    requires i < |candles|
  {
    && AllStoppedOut(cfg, candles, actions, s.trades) && Ordered(s.trades, i)
    && (s.position.Some? ==>
          HeldSince(candles, actions, s.position.value, i)
          && (s.trades != [] ==> s.trades[|s.trades| - 1].exitTime <= s.position.value.entryTime))
  }

  lemma StopIsTouch(candles: seq<Candle>, actions: seq<Action>, p: Position, i: nat, c: Candle)
    requires WellFormed(candles) && i < |candles| && HeldSince(candles, actions, p, i)
    ensures Stopped(p, c) <==> Touched(p.direction, p.entryPrice, c)
    ensures StopPrice(p) == p.entryPrice * (if p.direction.Long? then 0.985 else 1.015)
  {
    assert p.entryPrice > 0.0;
  }

  lemma ProfitEarns(cfg: Config, p: Position, price: real)
    ensures Earns(cfg, p.direction, p.entryPrice, price, p.qty, Profit(cfg, p, price))
  {
  }

  lemma StopTradeAtTheStop(cfg: Config, p: Position, now: nat)
    requires StopPrice(p) == p.entryPrice * (if p.direction.Long? then 0.985 else 1.015)
    ensures AtTheStop(cfg, StopTrade(cfg, p, now))
  {
    ExitPriceIs(cfg, p);
    ProfitEarns(cfg, p, StopExit(cfg, p));
    hide Profit, Earns, StopExit;
  }

  lemma ExitPriceIs(cfg: Config, p: Position)
    requires StopPrice(p) == p.entryPrice * (if p.direction.Long? then 0.985 else 1.015)
    ensures StopExit(cfg, p)
         == if p.direction.Long? then p.entryPrice * 0.985 * (1.0 - cfg.slippageBps / 10000.0)
            else p.entryPrice * 1.015 * (1.0 + cfg.slippageBps / 10000.0)
  {
    hide StopPrice;
  }

  lemma ExitExplained(cfg: Config, candles: seq<Candle>, actions: seq<Action>, s: Sim, i: nat)
    requires WellFormed(candles) && |candles| == |actions| && 0 < i < |candles|
    requires Explained(cfg, candles, actions, s, i - 1)
    ensures Explained(cfg, candles, actions, Exit(cfg, s, candles[i], i), i)
  {
    hide Stopped, Profit, StopFee, StopExit, Touched, EnteredOn, AtTheStop, StopPrice, Slip;
    if s.position.Some? {
      var p := s.position.value;
      StopIsTouch(candles, actions, p, i - 1, candles[i]);
      StopTradeAtTheStop(cfg, p, i);
    }
  }

  lemma EntryExplained(cfg: Config, candles: seq<Candle>, actions: seq<Action>, x: Sim, s: Sim, i: nat)
    requires NonZeroCloses(candles) && |candles| == |actions| && WARMUP <= i < |candles|
    requires Explained(cfg, candles, actions, x, i) && s.trades == x.trades
    requires s.position == (if x.position.Some? || actions[i].HOLD? then x.position
                            else Some(Open(x.balance, if actions[i].BUY? then Long else Short, candles[i], i)))
    ensures Explained(cfg, candles, actions, s, i)
  {
    hide Touched, StoppedOut;
  }

  // At every candle past the warm-up: the trades so far are ordered
  // stop-outs, the open position has met no stop since its entry, and there
  // is no position only if the candle's action is HOLD.
  lemma {:induction false} RunExplained(cfg: Config, candles: seq<Candle>, actions: seq<Action>, n: nat)
    requires WellFormed(candles) && 100 < n <= |candles| == |actions|
    ensures var s := SimTo(cfg, candles, actions, n);
      Explained(cfg, candles, actions, s, n - 1) && (s.position.None? ==> actions[n - 1].HOLD?)
  {
    hide Explained, OneCandle, Exit, Open, Equity, Track;
    var before := SimTo(cfg, candles, actions, n - 1);
    if n - 1 > WARMUP {
      RunExplained(cfg, candles, actions, n - 1);
    } else {
      NothingToExplain(cfg, candles, actions, n - 2);
    }
    ExitExplained(cfg, candles, actions, before, n - 1);
    CandleShape(cfg, candles, actions, n);
    EntryExplained(cfg, candles, actions, Exit(cfg, before, candles[n - 1], n - 1),
                   SimTo(cfg, candles, actions, n), n - 1);
  }

  lemma NothingToExplain(cfg: Config, candles: seq<Candle>, actions: seq<Action>, i: nat)
    requires i < |candles|
    ensures Explained(cfg, candles, actions, Start(cfg), i)
  {
  }

  // Every trade of a run but the last is the first touch of its stop; the
  // last one may be the close, free of a fee, that the end of the data forces
  // on a position whose stop was never touched.
  lemma TradesExplained(cfg: Config, candles: seq<Candle>, actions: seq<Action>, k: nat)
    requires WellFormed(candles) && |candles| == |actions|
    requires k < |Backtest(cfg, candles, actions).trades|
    ensures var trades := Backtest(cfg, candles, actions).trades;
      var t := trades[k];
      && (k > 0 ==> trades[k - 1].exitTime <= t.entryTime)
      && (StoppedOut(cfg, candles, actions, t)
          || (k == |trades| - 1 && t.exitTime == |candles| - 1 && t.exitPrice == candles[t.exitTime].close
              && EnteredOn(candles, actions, t.direction, t.entryTime, t.entryPrice)
              && NeverTouched(candles, t.direction, t.entryPrice, t.entryTime, t.exitTime)
              && t.fees == 0.0 && Earns(cfg, t.direction, t.entryPrice, t.exitPrice, t.quantity, t.pnl)))
  {
    var n := |candles|;
    RunExplained(cfg, candles, actions, n);
    var s := SimTo(cfg, candles, actions, n);
    if s.position.Some? { ProfitEarns(cfg, s.position.value, candles[n - 1].close); }
    hide Profit, OneCandle, Touched, Earns, AtTheStop, SimTo;
  }

  // ---------- sizes and the equity curve ----------

  // Position and trades in order: each trade staked 95% of the balance that
  // the trades before it had left.
  ghost predicate Staked(cfg: Config, s: Sim)
  {
    && (forall k :: 0 <= k < |s.trades| ==> TradeStaked(cfg, s.trades, k))
    && (s.position.Some? ==>
          s.position.value.qty * s.position.value.entryPrice == 0.95 * (cfg.initialBalance + SumPnl(s.trades)))
  }

  ghost predicate TradeStaked(cfg: Config, trades: seq<Trade>, k: nat)
    requires k < |trades|
  {
    trades[k].quantity * trades[k].entryPrice == 0.95 * (cfg.initialBalance + SumPnl(trades[..k]))
  }

  lemma OneMoreStaked(cfg: Config, trades: seq<Trade>, t: Trade)
    requires forall k :: 0 <= k < |trades| ==> TradeStaked(cfg, trades, k)
    requires t.quantity * t.entryPrice == 0.95 * (cfg.initialBalance + SumPnl(trades))
    ensures forall k :: 0 <= k < |trades| + 1 ==> TradeStaked(cfg, trades + [t], k)
  {
    hide SumPnl;
    var more := trades + [t];
    assert more[..|trades|] == trades;
    forall k | 0 <= k < |trades| ensures TradeStaked(cfg, more, k) {
      assert more[..k] == trades[..k];
      assert TradeStaked(cfg, trades, k);
    }
  }

  lemma ExitStaked(cfg: Config, s: Sim, c: Candle, now: nat)
    requires Staked(cfg, s)
    ensures Staked(cfg, Exit(cfg, s, c, now))
  {
    hide Stopped, Profit, StopFee, StopExit, TradeStaked;
    if s.position.Some? && Stopped(s.position.value, c) {
      OneMoreStaked(cfg, s.trades, StopTrade(cfg, s.position.value, now));
    }
  }

  lemma OpenStaked(cfg: Config, balance: real, d: Direction, c: Candle, now: nat)
    requires c.close != 0.0
    ensures var p := Open(balance, d, c, now); p.qty * p.entryPrice == 0.95 * balance
  {
    var v := balance * 0.95;
    assert v / c.close * c.close == v;
  }

  lemma EntryStaked(cfg: Config, x: Sim, s: Sim, d: Direction, hold: bool, c: Candle, now: nat)
    requires c.close != 0.0 && Staked(cfg, x) && x.balance == cfg.initialBalance + SumPnl(x.trades)
    requires s.trades == x.trades
    requires s.position == if x.position.Some? || hold then x.position else Some(Open(x.balance, d, c, now))
    ensures Staked(cfg, s)
  {
    OpenStaked(cfg, x.balance, d, c, now);
    hide Open, TradeStaked, SumPnl;
  }

  lemma {:induction false} RunStaked(cfg: Config, candles: seq<Candle>, actions: seq<Action>, n: nat)
    requires NonZeroCloses(candles) && n <= |candles| == |actions|
    ensures Staked(cfg, SimTo(cfg, candles, actions, n))
  {
    hide Staked, OneCandle, Exit, Open, Equity, Track, SumPnl;
    if n <= WARMUP {
      NothingStaked(cfg);
    } else {
      RunStaked(cfg, candles, actions, n - 1);
      BalanceIsSum(cfg, candles, actions, n);
      CandleShape(cfg, candles, actions, n);
      var before, c := SimTo(cfg, candles, actions, n - 1), candles[n - 1];
      ExitStaked(cfg, before, c, n - 1);
      EntryStaked(cfg, Exit(cfg, before, c, n - 1), SimTo(cfg, candles, actions, n),
                  if actions[n - 1].BUY? then Long else Short, actions[n - 1].HOLD?, c, n - 1);
    }
  }

  lemma NothingStaked(cfg: Config)
    ensures Staked(cfg, Start(cfg))
  {
  }

  lemma CloseStaked(cfg: Config, s: Sim, price: real, now: nat)
    requires Staked(cfg, s) && s.position.Some?
    ensures var more := s.trades + [CloseTrade(cfg, s.position.value, price, now)];
      forall k :: 0 <= k < |more| ==> TradeStaked(cfg, more, k)
  {
    hide TradeStaked, SumPnl, Profit;
    OneMoreStaked(cfg, s.trades, CloseTrade(cfg, s.position.value, price, now));
  }

  // Every trade of the result, the forced one included, staked 95% of what
  // the initial balance and the trades before it made.
  lemma EveryTradeStaked(cfg: Config, candles: seq<Candle>, actions: seq<Action>, k: nat)
    requires NonZeroCloses(candles) && |candles| == |actions|
    requires k < |Backtest(cfg, candles, actions).trades|
    ensures TradeStaked(cfg, Backtest(cfg, candles, actions).trades, k)
  {
    hide SimTo, CloseTrade, TradeStaked;
    var n := |candles|;
    RunStaked(cfg, candles, actions, n);
    var s := SimTo(cfg, candles, actions, n);
    if s.position.Some? && n > 0 { CloseStaked(cfg, s, candles[n - 1].close, n - 1); }
  }

  lemma {:induction false} RunGrows(cfg: Config, candles: seq<Candle>, actions: seq<Action>, m: nat, n: nat)
    requires NonZeroCloses(candles) && WARMUP <= m <= n <= |candles| == |actions|
    ensures var a, b := SimTo(cfg, candles, actions, m), SimTo(cfg, candles, actions, n);
      |a.curve| == m - WARMUP + 1 && a.curve <= b.curve && a.trades <= b.trades
  {
    CurveLength(cfg, candles, actions, m);
    if m < n {
      RunGrows(cfg, candles, actions, m, n - 1);
      CandleShape(cfg, candles, actions, n);
      hide SimTo, OneCandle, Open, Equity, Track, Stopped, StopTrade;
    }
  }

  // The point of the curve for row i: the initial balance, the profits of the
  // trades closed up to there, and the leveraged move of the open position.
  lemma CurvePoint(cfg: Config, candles: seq<Candle>, actions: seq<Action>, i: nat)
    returns (closed: nat, open: Option<Position>, move: real)
    requires WellFormed(candles) && 100 <= i < |candles| == |actions|
    ensures var r := Backtest(cfg, candles, actions);
      && i - 99 < |r.curve| && closed <= |r.trades|
      && r.curve[i - 99] == cfg.initialBalance + SumPnl(r.trades[..closed]) + move
    ensures open.None? ==> move == 0.0 && actions[i].HOLD?
    ensures open.Some? ==>
      HeldSince(candles, actions, open.value, i)
      && Earns(cfg, open.value.direction, open.value.entryPrice, candles[i].close, open.value.qty, move)
  {
    hide SimTo, OneCandle, Open, Exit, Profit, Earns, Track, HeldSince, CloseTrade, SumPnl, StoppedOut;
    var s := SimTo(cfg, candles, actions, i + 1);
    RunGrows(cfg, candles, actions, i + 1, |candles|);
    BalanceIsSum(cfg, candles, actions, i + 1);
    RunExplained(cfg, candles, actions, i + 1);
    LastPoint(cfg, candles, actions, i);
    CurveReported(cfg, candles, actions);
    closed, open, move := |s.trades|, s.position, 0.0;
    if open.Some? {
      move := Profit(cfg, open.value, candles[i].close);
      ProfitEarns(cfg, open.value, candles[i].close);
    }
    TradesReported(cfg, candles, actions);
    var r := Backtest(cfg, candles, actions);
    assert s.trades <= r.trades && r.trades[..closed] == s.trades;
    assert s.curve <= r.curve && r.curve[|s.curve| - 1] == s.curve[|s.curve| - 1];
  }

  lemma LastPoint(cfg: Config, candles: seq<Candle>, actions: seq<Action>, i: nat)
    requires NonZeroCloses(candles) && WARMUP <= i < |candles| == |actions|
    ensures var s := SimTo(cfg, candles, actions, i + 1);
      s.curve != [] && s.curve[|s.curve| - 1] == Equity(cfg, s, candles[i].close)
  {
    CandleShape(cfg, candles, actions, i + 1);
    hide SimTo, OneCandle, Exit, Open, Equity, Track;
  }

  lemma TradesReported(cfg: Config, candles: seq<Candle>, actions: seq<Action>)
    requires NonZeroCloses(candles) && |candles| == |actions|
    ensures SimTo(cfg, candles, actions, |candles|).trades <= Backtest(cfg, candles, actions).trades
  {
    hide SimTo, CloseTrade;
  }

  // ---------- the stop does not trail ----------

  // The best close, for a position of this direction, at rows a .. b.
  function BestClose(candles: seq<Candle>, d: Direction, a: nat, b: nat): real
    requires a <= b < |candles|
  {
    if a == b then candles[a].close
    else
      var best := BestClose(candles, d, a, b - 1);
      if d.Long? then Max(best, candles[b].close) else Min(best, candles[b].close)
  }

  // No close at rows a .. b is better than the price.
  ghost predicate NeverBetter(candles: seq<Candle>, d: Direction, price: real, a: nat, b: nat)
    requires b < |candles|
  {
    forall j :: a <= j <= b ==> if d.Long? then candles[j].close <= price else candles[j].close >= price
  }

  lemma {:induction false} BestCloseIs(candles: seq<Candle>, d: Direction, a: nat, b: nat, price: real)
    requires a <= b < |candles| && candles[a].close == price
    ensures BestClose(candles, d, a, b) == price <==> NeverBetter(candles, d, price, a, b)
    ensures if d.Long? then BestClose(candles, d, a, b) >= price else BestClose(candles, d, a, b) <= price
  {
    if a < b {
      BestCloseIs(candles, d, a, b - 1, price);
      assert NeverBetter(candles, d, price, a, b) ==> NeverBetter(candles, d, price, a, b - 1);
    }
  }

  // A stop that trails follows the best close since the entry. The one in
  // force agrees with it exactly as long as no close has been better than the
  // entry.
  lemma TrailsIff(candles: seq<Candle>, actions: seq<Action>, p: Position, i: nat)
    requires WellFormed(candles) && i < |candles| && HeldSince(candles, actions, p, i)
    ensures StopPrice(p) == BestClose(candles, p.direction, p.entryTime, i)
                            * (if p.direction.Long? then 0.985 else 1.015)
      <==> NeverBetter(candles, p.direction, p.entryPrice, p.entryTime, i)
  {
    StopIsTouch(candles, actions, p, i, candles[i]);
    BestCloseIs(candles, p.direction, p.entryTime, i, p.entryPrice);
    hide BestClose, NeverBetter, HeldSince, StopPrice;
  }

  // A long from 100 after a close at 120: the stop is 98.5, not 118.2.
  lemma TrailingWitness(c: Candle, next: Candle, qty: real)
    requires c.close == 100.0 && next.close == 120.0
    ensures StopPrice(Position(Long, 100.0, 0, qty, 97.0)) == 98.5
    ensures BestClose([c, next], Long, 0, 1) * 0.985 == 118.2
  {
    assert BestClose([c, next], Long, 0, 0) == 100.0;
  }

  // ---------- accounting ----------

  lemma {:induction false} BalanceIsSum(cfg: Config, candles: seq<Candle>, actions: seq<Action>, n: nat)
    requires NonZeroCloses(candles) && n <= |candles| == |actions|
    ensures var s := SimTo(cfg, candles, actions, n);
      s.balance == cfg.initialBalance + SumPnl(s.trades)
  {
    hide OneCandle, StopTrade, Equity;
    if n > WARMUP {
      BalanceIsSum(cfg, candles, actions, n - 1);
      CandleShape(cfg, candles, actions, n);
      var before, s := SimTo(cfg, candles, actions, n - 1), SimTo(cfg, candles, actions, n);
      if |s.trades| != |before.trades| {
        assert s.trades[..|s.trades| - 1] == before.trades;
      }
    }
  }

  // The final balance is the initial one plus the profits of all trades; when
  // the loop has run, it is the last point of the equity curve.
  lemma Accounting(cfg: Config, candles: seq<Candle>, actions: seq<Action>)
    requires NonZeroCloses(candles) && |candles| == |actions|
    ensures var r := Backtest(cfg, candles, actions);
      && r.balance == cfg.initialBalance + SumPnl(r.trades)
      && r.curve != []
      && (|candles| > 100 ==> r.balance == r.curve[|r.curve| - 1])
  {
    var n := |candles|;
    BalanceIsSum(cfg, candles, actions, n);
    CurveLength(cfg, candles, actions, n);
    if n > WARMUP { CandleShape(cfg, candles, actions, n); }
    hide Profit, OneCandle;
    var s, r := SimTo(cfg, candles, actions, n), Backtest(cfg, candles, actions);
    if |r.trades| != |s.trades| {
      assert r.trades[..|s.trades|] == s.trades;
    }
  }

  // ---------- the engine ----------

  class BrainBacktestEngine {
    const config: Config
    const buyThreshold: real
    const sellThreshold: real

    constructor (config: Config, buyThreshold: real, sellThreshold: real)
      ensures this.config == config && this.buyThreshold == buyThreshold && this.sellThreshold == sellThreshold
    {
      this.config, this.buyThreshold, this.sellThreshold := config, buyThreshold, sellThreshold;
    }

    // Any confidence but zero gives the same mean, and so the same action.
    method Aggregate(scores: seq<Score>, confidence: Option<real>) returns (score: real, action: Action)
      ensures if scores == [] || confidence == Some(0.0) then score == 0.0 && action == HOLD
              else score == MeanScore(scores)
                   && (action == BUY <==> score > buyThreshold)
                   && (action == SELL <==> score <= buyThreshold && score < sellThreshold)
                   && (action == HOLD <==> sellThreshold <= score <= buyThreshold)
    {
      hide MeanScore, WeightedSum, TotalWeight;
      var conf := if confidence.Some? then confidence.value else 1.0;
      var weightedSum, totalWeight := WeighAll(scores, conf);
      MeanScoreIs(scores);
      if totalWeight == 0.0 {
        ZeroWeight(TotalWeight(scores), conf);
        return 0.0, HOLD;
      }
      CommonFactor(WeightedSum(scores), TotalWeight(scores), conf, totalWeight);
      score := weightedSum / totalWeight;
      action := if score > buyThreshold then BUY else if score < sellThreshold then SELL else HOLD;
    }

    method WeighAll(scores: seq<Score>, conf: real) returns (weightedSum: real, totalWeight: real)
      ensures weightedSum == WeightedSum(scores) * conf && totalWeight == TotalWeight(scores) * conf
    {
      weightedSum, totalWeight := 0.0, 0.0;
      hide WeightedSum, TotalWeight, Weight;
      NothingWeighed(conf);
      var i := 0;
      while i < |scores|
        invariant 0 <= i <= |scores|
        invariant weightedSum == WeightedSum(scores[..i]) * conf
        invariant totalWeight == TotalWeight(scores[..i]) * conf
      {
        var w := Weight(scores[i].brain);
        WeightStep(scores, i);
        MoreWeight(WeightedSum(scores[..i]), scores[i].score * w, conf);
        MoreWeight(TotalWeight(scores[..i]), w, conf);
        weightedSum := weightedSum + scores[i].score * w * conf;
        totalWeight := totalWeight + w * conf;
        i := i + 1;
      }
      assert scores[..i] == scores;
    }

    // The trade that the stop makes of the position, if the candle reaches it.
    method CheckStop(p: Position, current: Candle, now: nat) returns (trade: Option<Trade>)
      ensures trade == if Stopped(p, current) then Some(StopTrade(config, p, now)) else None
    {
      var sl, hit, exitPrice;
      if p.direction == Long {
        sl := Max(p.sl, p.entryPrice * 0.985);
        hit := current.low <= sl;
        exitPrice := sl * (1.0 - config.slippageBps / 10000.0);
      } else {
        sl := Min(p.sl, p.entryPrice * 1.015);
        hit := current.high >= sl;
        exitPrice := sl * (1.0 + config.slippageBps / 10000.0);
      }
      if !hit {
        return None;
      }
      var fee := exitPrice * p.qty * config.takerFee;
      var pnl := Profit(config, p, exitPrice) - fee;
      StopTradeIs(config, p, now, exitPrice, fee);
      return Some(Trade(p.direction, p.entryTime, now, p.entryPrice, exitPrice, p.qty, pnl, fee));
    }

    method Run(candles: seq<Candle>, actions: seq<Action>) returns (r: Result)
      requires NonZeroCloses(candles) && |candles| == |actions|
      ensures r == Backtest(config, candles, actions)
    {
      hide Profit, Open, StopTrade, Stopped;
      var balance := config.initialBalance;
      var peak, maxDd := balance, 0.0;
      var position: Option<Position> := None;
      var trades: seq<Trade> := [];
      var equityCurve := [balance];
      var i := 100;
      while i < |candles|
        invariant 100 <= i
        invariant i > |candles| ==> i == 100
        invariant i <= |candles| ==> Sim(balance, position, trades, equityCurve, Tracker(peak, maxDd))
                                     == SimTo(config, candles, actions, i)
        invariant i == 100 ==> Sim(balance, position, trades, equityCurve, Tracker(peak, maxDd)) == Start(config)
      {
        var current := candles[i];
        if position.Some? {
          var trade := CheckStop(position.value, current, i);
          if trade.Some? {
            balance := balance + trade.value.pnl;
            trades := trades + [trade.value];
            position := None;
          }
        }
        if position.None? {
          if actions[i] == BUY {
            position := Some(Open(balance, Long, current, i));
          } else if actions[i] == SELL {
            position := Some(Open(balance, Short, current, i));
          }
        }
        var equity := balance;
        if position.Some? {
          equity := equity + Profit(config, position.value, current.close);
        }
        equityCurve := equityCurve + [equity];
        peak := Max(peak, equity);
        var dd := if peak > 0.0 then (peak - equity) / peak else 0.0;
        maxDd := Max(maxDd, dd);
        i := i + 1;
      }
      if position.Some? {
        HoldsOnlyAfterWarmup(config, candles, actions, |candles|);
        var p, last := position.value, candles[|candles| - 1].close;
        var pnl := Profit(config, p, last);
        balance := balance + pnl;
        trades := trades + [Trade(p.direction, p.entryTime, |candles| - 1, p.entryPrice, last, p.qty, pnl, 0.0)];
      }
      r := Result(balance, trades, equityCurve, maxDd);
    }
  }

  lemma HoldsOnlyAfterWarmup(cfg: Config, candles: seq<Candle>, actions: seq<Action>, n: nat)
    requires NonZeroCloses(candles) && n <= |candles| == |actions|
    requires SimTo(cfg, candles, actions, n).position.Some?
    ensures n > WARMUP
  {
  }

  lemma NothingWeighed(conf: real)
    ensures WeightedSum([]) * conf == 0.0 && TotalWeight([]) * conf == 0.0
  {
  }

  lemma MeanScoreIs(scores: seq<Score>)
    ensures scores == [] ==> TotalWeight(scores) == 0.0
    ensures scores != [] ==>
      TotalWeight(scores) > 0.0 && MeanScore(scores) == WeightedSum(scores) / TotalWeight(scores)
  {
    TotalWeightPositive(scores);
  }

  lemma StopTradeIs(cfg: Config, p: Position, now: nat, exitPrice: real, fee: real)
    requires exitPrice == StopExit(cfg, p) && fee == StopFee(cfg, p)
    ensures StopTrade(cfg, p, now)
         == Trade(p.direction, p.entryTime, now, p.entryPrice, exitPrice, p.qty, Profit(cfg, p, exitPrice) - fee, fee)
  {
    hide StopExit, StopFee, Profit;
  }

  lemma MoreWeight(sum: real, x: real, conf: real)
    ensures sum * conf + x * conf == (sum + x) * conf
  {
    assert conf * (sum + x) == conf * sum + conf * x;
  }

  lemma ZeroWeight(total: real, conf: real)
    requires total * conf == 0.0
    ensures total == 0.0 || conf == 0.0
  {
  }

  lemma CommonFactor(x: real, y: real, c: real, d: real)
    requires d == y * c && d != 0.0 && y != 0.0
    ensures x * c / d == x / y
  {
    var q := x / y;
    assert q * y == x;
    assert q * (y * c) == q * y * c;
    QuotientIs(x * c, d, q);
  }
}
