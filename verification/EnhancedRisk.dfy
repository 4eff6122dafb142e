/** The enhanced risk engine: a timed circuit breaker, a list of hard limits,
    and fractional-Kelly sizing from the trade results seen so far. The clock
    is a parameter: a validation reads it up to three times, in this order. */
module EnhancedRisk {
  import opened Options
  import opened RealMath

  datatype Config = Config(
    maxPositionPct: real, maxDailyDrawdown: real, maxConcurrent: int, killStreak: int, minConfidence: real,
    atrEnabled: bool, atrBlockMult: real,
    kellyEnabled: bool, kellyFraction: real, defaultWinRate: real, defaultPayoff: real, kellyMaxPct: real,
    cbEnabled: bool, cbLossStreak: int, cbDrawdownPct: real, cbCooldown: real, cbHourlyLimit: int,
    twEnabled: bool, twStartHour: int, twEndHour: int)

  datatype Action = Buy | Sell | Hold

  datatype Signal = Signal(action: Action, confidence: real, sizePct: real)

  datatype Account = Account(equity: real, dailyPnlPct: real, lossStreak: int, openPositions: int,
                             maxDrawdownPct: real)

  // Indicators that were not given are None; no indicators at all is both None.
  datatype Indicators = Indicators(atrPct: Option<real>, atrMeanPct: Option<real>)

  datatype Clock = Clock(check: real, hourly: real, activate: real)

  datatype Reason =
    | BreakerActive | BreakerTriggered | DailyDrawdown | KillStreak | MaxPositions | LowConfidence
    | Volatility | OutsideHours | InvalidSize

  datatype Decision = Decision(allow: bool, reasons: seq<Reason>, adjusted: Option<Signal>, maxSize: real)

  // ---------- the circuit breaker ----------

  datatype Breaker = Breaker(active: bool, until: real, trades: nat, hourStart: real)

  const HOUR := 3600.0

  function Expire(b: Breaker, now: real): Breaker
  {
    if b.active && now >= b.until then b.(active := false) else b
  }

  function HourlyReset(b: Breaker, now: real): Breaker
  {
    if now - b.hourStart >= HOUR then b.(trades := 0, hourStart := now) else b
  }

  function Activate(cfg: Config, b: Breaker, now: real): Breaker
  {
    b.(active := true, until := now + cfg.cbCooldown)
  }

  predicate AccountOver(cfg: Config, a: Account)
  {
    a.lossStreak >= cfg.cbLossStreak || a.maxDrawdownPct >= cfg.cbDrawdownPct
  }

  // The hourly counter is looked at, and reset, only for an account within
  // its own limits.
  function BeforeTrigger(cfg: Config, b: Breaker, a: Account, now: real): Breaker
  {
    if AccountOver(cfg, a) then b else HourlyReset(b, now)
  }

  predicate Triggers(cfg: Config, b: Breaker, a: Account, now: real)
  {
    AccountOver(cfg, a) || HourlyReset(b, now).trades >= cfg.cbHourlyLimit
  }

  // This validation switches the breaker on.
  predicate Activates(cfg: Config, b: Breaker, a: Account, c: Clock)
  {
    cfg.cbEnabled && !Expire(b, c.check).active && Triggers(cfg, Expire(b, c.check), a, c.hourly)
  }

  function BreakerAfter(cfg: Config, b: Breaker, a: Account, c: Clock): Breaker
  {
    var b1 := Expire(b, c.check);
    if !cfg.cbEnabled then b
    else if b1.active then b1
    else
      var b2 := BeforeTrigger(cfg, b1, a, c.hourly);
      if Activates(cfg, b, a, c) then Activate(cfg, b2, c.activate) else b2
  }

  function BreakerReasons(cfg: Config, b: Breaker, a: Account, c: Clock): seq<Reason>
  {
    if !cfg.cbEnabled then []
    else if Expire(b, c.check).active then [BreakerActive]
    else if Activates(cfg, b, a, c) then [BreakerTriggered]
    else []
  }

  // ---------- Kelly sizing ----------

  // Counts and total sizes of the winning and the losing results.
  datatype Stats = Stats(wins: nat, losses: nat, won: real, lost: real)

  datatype TradeResult = TradeResult(pnlPct: real, win: bool)

  function Record(s: Stats, r: TradeResult): Stats
  {
    if r.win then s.(wins := s.wins + 1, won := s.won + Abs(r.pnlPct))
    else s.(losses := s.losses + 1, lost := s.lost + Abs(r.pnlPct))
  }

  const NO_STATS := Stats(0, 0, 0.0, 0.0)

  function StatsOf(results: seq<TradeResult>): Stats
  {
    if results == [] then NO_STATS
    else Record(StatsOf(results[..|results| - 1]), results[|results| - 1])
  }

  const ENOUGH := 20

  function WinRate(cfg: Config, s: Stats): real
  {
    if s.wins + s.losses >= ENOUGH then s.wins as real / (s.wins + s.losses) as real else cfg.defaultWinRate
  }

  function Payoff(cfg: Config, s: Stats): real
  {
    if s.wins + s.losses >= ENOUGH then
      var avgWin := if s.wins > 0 then s.won / s.wins as real else 1.0;
      var avgLoss := if s.losses > 0 then Abs(s.lost / s.losses as real) else 1.0;
      if avgLoss > 0.0 then avgWin / avgLoss else cfg.defaultPayoff
    else cfg.defaultPayoff
  }

  function RawKelly(p: real, b: real): real
    requires b > 0.0
  {
    (b * p - (1.0 - p)) / b
  }

  function KellyFor(cfg: Config, p: real, b: real): real
  {
    if b <= 0.0 || RawKelly(p, b) <= 0.0 then 0.0
    else Min(RawKelly(p, b) * cfg.kellyFraction, cfg.kellyMaxPct)
  }

  // The fraction of equity that Kelly sizing allows; 0 means it has no say.
  function KellyPct(cfg: Config, s: Stats): real { KellyFor(cfg, WinRate(cfg, s), Payoff(cfg, s)) }

  function KellySize(cfg: Config, s: Stats, equity: real): real
  {
    if !cfg.kellyEnabled || equity <= 0.0 then 0.0 else equity * KellyPct(cfg, s)
  }

  // ---------- what the statistics hold ----------

  ghost predicate Consistent(s: Stats)
  {
    s.won >= 0.0 && s.lost >= 0.0 && (s.wins == 0 ==> s.won == 0.0) && (s.losses == 0 ==> s.lost == 0.0)
  }

  lemma {:induction false} StatsAreConsistent(results: seq<TradeResult>)
    ensures Consistent(StatsOf(results))
    ensures StatsOf(results).wins + StatsOf(results).losses == |results|
  {
    if results != [] {
      StatsAreConsistent(results[..|results| - 1]);
    }
  }

  // With p the win rate, W and L the totals won and lost: the Kelly fraction
  // (b * p - q) / b is p * (1 - L / W).
  lemma RawKellyIs(cfg: Config, s: Stats)
    requires s.wins + s.losses >= ENOUGH && Consistent(s) && s.won > 0.0 && s.lost > 0.0
    ensures Payoff(cfg, s) > 0.0
    ensures RawKelly(WinRate(cfg, s), Payoff(cfg, s)) == WinRate(cfg, s) * (1.0 - s.lost / s.won)
  {
    var n, nw, nl := (s.wins + s.losses) as real, s.wins as real, s.losses as real;
    var p, b := WinRate(cfg, s), Payoff(cfg, s);
    var aw, al := s.won / nw, s.lost / nl;
    assert al > 0.0 && aw > 0.0;
    assert b == aw / al > 0.0;
    KellyIdentity(n, nw, nl, s.won, s.lost, p, aw, al, b, s.lost / s.won);
  }

  lemma KellyIdentity(n: real, nw: real, nl: real, won: real, lost: real,
                      p: real, aw: real, al: real, b: real, ratio: real)
    requires n == nw + nl && n > 0.0 && won > 0.0 && b > 0.0
    requires p * n == nw && aw * nw == won && al * nl == lost && b * al == aw && ratio * won == lost
    ensures RawKelly(p, b) == p * (1.0 - ratio)
  {
    var q := 1.0 - p;
    assert q * n == nl;
    Exchange(p, q, n, nw, nl);
    LossShare(p, q, nw, nl, won, lost, aw, al, b);
    CancelWon(p, q, won, lost, b, ratio);
    QuotientIs(b * p - q, b, p * (1.0 - ratio)) by {
      assert p * (1.0 - ratio) * b == b * p - p * ratio * b;
    }
  }

  lemma Exchange(p: real, q: real, n: real, nw: real, nl: real)
    requires p * n == nw && q * n == nl
    ensures p * nl == q * nw
  {
    assert p * nl == p * (q * n) == q * (p * n);
  }

  lemma LossShare(p: real, q: real, nw: real, nl: real, won: real, lost: real, aw: real, al: real, b: real)
    requires p * nl == q * nw && aw * nw == won && al * nl == lost && b * al == aw
    ensures q * won == p * lost * b
  {
    var c := b * al;
    assert q * won == q * (c * nw) == c * (q * nw);
    assert c * (p * nl) == p * (al * nl) * b;
  }

  lemma CancelWon(p: real, q: real, won: real, lost: real, b: real, ratio: real)
    requires q * won == p * lost * b && ratio * won == lost && won > 0.0
    ensures q == p * ratio * b
  {
    var d := q - p * ratio * b;
    assert d * won == q * won - p * (ratio * won) * b;
    assert d * won == 0.0;
  }

  // Kelly sizing, before its cap, for every history of at least twenty
  // results: it has a say exactly when more was won than lost. The one
  // exception is a history whose losses are all of size zero, where the
  // configured payoff takes the place of the observed one.
  lemma KellyPositiveIff(cfg: Config, results: seq<TradeResult>)
    requires |results| >= ENOUGH
    ensures var s := StatsOf(results);
      HasSay(WinRate(cfg, s), Payoff(cfg, s)) <==>
        if s.losses > 0 && s.lost == 0.0 then HasSay(WinRate(cfg, s), cfg.defaultPayoff) else s.won > s.lost
  {
    StatsAreConsistent(results);
    KellySign(cfg, StatsOf(results));
  }

  predicate HasSay(p: real, b: real) { b > 0.0 && RawKelly(p, b) > 0.0 }

  lemma KellySign(cfg: Config, s: Stats)
    requires s.wins + s.losses >= ENOUGH && Consistent(s)
    ensures HasSay(WinRate(cfg, s), Payoff(cfg, s)) <==>
        if s.losses > 0 && s.lost == 0.0 then HasSay(WinRate(cfg, s), cfg.defaultPayoff) else s.won > s.lost
  {
    hide WinRate, Payoff, RawKelly;
    if s.losses > 0 && s.lost == 0.0 {
      ZeroLosses(cfg, s);
    } else if s.losses == 0 {
      OnlyWins(cfg, s);
    } else if s.wins == 0 {
      OnlyLosses(cfg, s);
    } else if s.won == 0.0 {
      ZeroWins(cfg, s);
    } else {
      RawKellyIs(cfg, s);
      SignOfKelly(cfg, s);
    }
  }

  // In terms of the payoff b and the win rate p: b * p exceeds 1 - p.
  lemma HasSayIff(p: real, b: real)
    ensures HasSay(p, b) <==> b > 0.0 && b * p > 1.0 - p
  {
    if b > 0.0 { SignOfQuotient(b * p - (1.0 - p), b); }
  }

  lemma ZeroLosses(cfg: Config, s: Stats)
    requires s.wins + s.losses >= ENOUGH && s.losses > 0 && s.lost == 0.0
    ensures Payoff(cfg, s) == cfg.defaultPayoff
  {
    assert s.lost / s.losses as real == 0.0;
  }

  lemma ZeroWins(cfg: Config, s: Stats)
    requires s.wins + s.losses >= ENOUGH && s.wins > 0 && s.losses > 0 && s.won == 0.0 && s.lost > 0.0
    ensures Payoff(cfg, s) == 0.0
  {
    SignOfQuotient(s.lost, s.losses as real);
    assert s.won / s.wins as real == 0.0;
    assert 0.0 / Abs(s.lost / s.losses as real) == 0.0;
  }

  lemma OnlyWins(cfg: Config, s: Stats)
    requires s.wins >= ENOUGH && s.losses == 0 && Consistent(s)
    ensures HasSay(WinRate(cfg, s), Payoff(cfg, s)) <==> s.won > s.lost
  {
    QuotientIs(s.wins as real, s.wins as real, 1.0);
    SignOfQuotient(s.won, s.wins as real);
    HasSayIff(WinRate(cfg, s), Payoff(cfg, s));
  }

  lemma OnlyLosses(cfg: Config, s: Stats)
    requires s.losses >= ENOUGH && s.wins == 0 && Consistent(s)
    ensures !HasSay(WinRate(cfg, s), Payoff(cfg, s))
  {
    assert WinRate(cfg, s) == 0.0;
    HasSayIff(0.0, Payoff(cfg, s));
  }

  lemma SignOfKelly(cfg: Config, s: Stats)
    requires s.wins + s.losses >= ENOUGH && s.wins > 0 && s.won > 0.0
    ensures WinRate(cfg, s) * (1.0 - s.lost / s.won) > 0.0 <==> s.won > s.lost
  {
    var p, ratio := WinRate(cfg, s), s.lost / s.won;
    SignOfQuotient(s.wins as real, (s.wins + s.losses) as real);
    assert ratio * s.won == s.lost;
    assert 1.0 - ratio == (s.won - s.lost) / s.won by {
      QuotientIs(s.won - s.lost, s.won, 1.0 - ratio);
    }
    SignOfQuotient(s.won - s.lost, s.won);
    SignOfProduct(p, 1.0 - ratio);
  }

  lemma KellyWithinCap(cfg: Config, s: Stats)
    requires cfg.kellyFraction >= 0.0 && cfg.kellyMaxPct >= 0.0
    ensures 0.0 <= KellyPct(cfg, s) <= cfg.kellyMaxPct
  {
    var p, b := WinRate(cfg, s), Payoff(cfg, s);
    hide WinRate, Payoff;
    if b > 0.0 && RawKelly(p, b) > 0.0 {
      TimesMonotone(0.0, RawKelly(p, b), cfg.kellyFraction);
    }
  }

  // ---------- the decision ----------

  function When(yes: bool, r: Reason): seq<Reason> { if yes then [r] else [] }

  predicate TooVolatile(cfg: Config, ind: Indicators)
  {
    cfg.atrEnabled &&
    var atr := if ind.atrPct.Some? then ind.atrPct.value else 0.0;
    var mean := if ind.atrMeanPct.Some? then ind.atrMeanPct.value else atr;
    mean > 0.0 && atr >= mean * cfg.atrBlockMult
  }

  predicate OutOfHours(cfg: Config, hour: int)
  {
    cfg.twEnabled && !(cfg.twStartHour <= hour < cfg.twEndHour)
  }

  // The reasons against a signal that is not HOLD, those of the breaker first.
  function Reasons(cfg: Config, blocked: seq<Reason>, signal: Signal, a: Account, ind: Indicators, hour: int)
    : seq<Reason>
  {
    blocked
    + When(a.dailyPnlPct <= -cfg.maxDailyDrawdown, DailyDrawdown)
    + When(a.lossStreak >= cfg.killStreak, KillStreak)
    + When(a.openPositions >= cfg.maxConcurrent, MaxPositions)
    + When(signal.confidence < cfg.minConfidence, LowConfidence)
    + When(TooVolatile(cfg, ind), Volatility)
    + When(OutOfHours(cfg, hour), OutsideHours)
    + When(signal.sizePct <= 0.0, InvalidSize)
  }

  // Kelly has a say only where it is on and positive.
  function Capped(enabled: bool, kelly: real, cap: real): real
  {
    if enabled && kelly > 0.0 then Min(kelly, cap) else cap
  }

  function AdjustedSize(cfg: Config, s: Stats, signal: Signal, equity: real): real
  {
    Capped(cfg.kellyEnabled, KellySize(cfg, s, equity),
           Min(equity * signal.sizePct, equity * cfg.maxPositionPct))
  }

  function ApprovedPct(cfg: Config, s: Stats, signal: Signal, equity: real): real
  {
    if equity > 0.0 then AdjustedSize(cfg, s, signal, equity) / equity else 0.0
  }

  function Decide(cfg: Config, b: Breaker, s: Stats, signal: Signal, a: Account, ind: Indicators,
                  c: Clock, hour: int): Decision
  {
    if signal.action.Hold? then Decision(true, [], Some(signal), 0.0)
    else
      var reasons := Reasons(cfg, BreakerReasons(cfg, b, a, c), signal, a, ind, hour);
      if reasons != [] then Decision(false, reasons, None, 0.0)
      else
        Decision(true, [], Some(signal.(sizePct := ApprovedPct(cfg, s, signal, a.equity))),
                 a.equity * cfg.maxPositionPct)
  }

  // A signal that is not HOLD is approved exactly when the breaker neither is
  // on nor goes on and every limit is kept.
  lemma ApprovedIff(cfg: Config, b: Breaker, s: Stats, signal: Signal, a: Account, ind: Indicators,
                    c: Clock, hour: int)
    requires !signal.action.Hold?
    ensures Decide(cfg, b, s, signal, a, ind, c, hour).allow <==>
      && (cfg.cbEnabled ==> !(b.active && c.check < b.until)
                            && a.lossStreak < cfg.cbLossStreak && a.maxDrawdownPct < cfg.cbDrawdownPct
                            && (if c.hourly - b.hourStart >= 3600.0 then 0 else b.trades) < cfg.cbHourlyLimit)
      && -cfg.maxDailyDrawdown < a.dailyPnlPct && a.lossStreak < cfg.killStreak
      && a.openPositions < cfg.maxConcurrent && cfg.minConfidence <= signal.confidence
      && !TooVolatile(cfg, ind) && (cfg.twEnabled ==> cfg.twStartHour <= hour < cfg.twEndHour)
      && 0.0 < signal.sizePct
  {
    hide TooVolatile, ApprovedPct;
  }

  // The approved size is the smallest of what was asked for, the position
  // limit, and the Kelly fraction where Kelly has a say.
  lemma ApprovedSize(cfg: Config, b: Breaker, s: Stats, signal: Signal, a: Account, ind: Indicators,
                     c: Clock, hour: int)
    requires !signal.action.Hold? && a.equity > 0.0
    requires Decide(cfg, b, s, signal, a, ind, c, hour).allow
    ensures var d := Decide(cfg, b, s, signal, a, ind, c, hour);
      && d.adjusted.Some? && d.adjusted.value.action == signal.action
      && d.adjusted.value.sizePct
         == Capped(cfg.kellyEnabled, KellyPct(cfg, s), Min(signal.sizePct, cfg.maxPositionPct))
  {
    hide BreakerReasons, Reasons, KellyPct, ApprovedPct, Capped;
    ApprovedPctIs(cfg, s, signal, a.equity);
  }

  lemma ApprovedPctIs(cfg: Config, s: Stats, signal: Signal, e: real)
    requires e > 0.0
    ensures ApprovedPct(cfg, s, signal, e)
         == Capped(cfg.kellyEnabled, KellyPct(cfg, s), Min(signal.sizePct, cfg.maxPositionPct))
  {
    hide AdjustedSize;
    var x := Capped(cfg.kellyEnabled, KellyPct(cfg, s), Min(signal.sizePct, cfg.maxPositionPct));
    AdjustedSizeIs(cfg, s, signal, e, x);
    QuotientIs(AdjustedSize(cfg, s, signal, e), e, x);
  }

  lemma AdjustedSizeIs(cfg: Config, s: Stats, signal: Signal, e: real, x: real)
    requires e > 0.0
    requires x == Capped(cfg.kellyEnabled, KellyPct(cfg, s), Min(signal.sizePct, cfg.maxPositionPct))
    ensures AdjustedSize(cfg, s, signal, e) == x * e
  {
    hide KellyPct;
    ScaledMin(e, signal.sizePct, cfg.maxPositionPct);
    ScaledCap(e, cfg.kellyEnabled, KellyPct(cfg, s), Min(signal.sizePct, cfg.maxPositionPct),
              KellySize(cfg, s, e), Min(e * signal.sizePct, e * cfg.maxPositionPct), x);
  }

  lemma ScaledCap(e: real, enabled: bool, k: real, cap: real, kelly: real, capE: real, x: real)
    requires e > 0.0 && kelly == (if enabled then e * k else 0.0) && capE == e * cap
    requires x == Capped(enabled, k, cap)
    ensures Capped(enabled, kelly, capE) == x * e
  {
    SignOfProduct(e, k);
    ScaledMin(e, k, cap);
  }

  lemma ScaledMin(e: real, x: real, y: real)
    requires e > 0.0
    ensures Min(e * x, e * y) == e * Min(x, y)
  {
    if x <= y { TimesMonotone(x, y, e); } else { TimesMonotone(y, x, e); }
  }

  // ---------- sizes from the results ----------

  // The absolute sizes of the winning, or of the losing, results.
  function Sizes(results: seq<TradeResult>, win: bool): seq<real>
  {
    if results == [] then []
    else
      var r := results[|results| - 1];
      Sizes(results[..|results| - 1], win) + (if r.win == win then [Abs(r.pnlPct)] else [])
  }

  lemma {:induction false} StatsAre(results: seq<TradeResult>)
    ensures var s, wins, losses := StatsOf(results), Sizes(results, true), Sizes(results, false);
      s.wins == |wins| && s.losses == |losses| && s.won == Sum(wins) && s.lost == Sum(losses)
  {
    if results != [] {
      var init, r := results[..|results| - 1], results[|results| - 1];
      StatsAre(init);
      SumAppend(Sizes(init, r.win), Abs(r.pnlPct));
      assert Sizes(init, !r.win) + [] == Sizes(init, !r.win);
    }
  }

  ghost predicate IsMin(k: real, x: real, y: real) { k <= x && k <= y && (k == x || k == y) }

  // The configured fraction of a full Kelly stake, under the cap.
  ghost predicate Fractional(cfg: Config, full: real, k: real)
  {
    IsMin(k, cfg.kellyFraction * full, cfg.kellyMaxPct)
  }

  // Fractional Kelly for a win rate and a payoff, 0 without an edge.
  ghost predicate KellyFromOdds(cfg: Config, p: real, b: real, k: real)
  {
    if b > 0.0 && b * p > 1.0 - p then Fractional(cfg, p - (1.0 - p) / b, k)
    else k == 0.0
  }

  // The full Kelly stake for a win rate and the totals won and lost.
  ghost function FullStake(p: real, won: real, lost: real): real
    requires won > 0.0
  {
    p * (1.0 - lost / won)
  }

  ghost predicate KellyFromTotals(cfg: Config, p: real, won: real, lost: real, k: real)
  {
    if won > lost then won > 0.0 && Fractional(cfg, FullStake(p, won, lost), k) else k == 0.0
  }

  // What Kelly sizing allows after these results: by the configured odds
  // before the twentieth, then by the share of wins and the totals won and
  // lost; losses that are all of size zero leave the configured payoff.
  ghost predicate KellyAllows(cfg: Config, results: seq<TradeResult>, k: real)
  {
    var n, wins := |results|, |Sizes(results, true)|;
    var won, lost := Sum(Sizes(results, true)), Sum(Sizes(results, false));
    if n < 20 then KellyFromOdds(cfg, cfg.defaultWinRate, cfg.defaultPayoff, k)
    else
      var p := wins as real / n as real;
      if |Sizes(results, false)| > 0 && lost == 0.0 then KellyFromOdds(cfg, p, cfg.defaultPayoff, k)
      else KellyFromTotals(cfg, p, won, lost, k)
  }

  lemma OddsAre(cfg: Config, p: real, b: real)
    ensures KellyFromOdds(cfg, p, b, KellyFor(cfg, p, b))
  {
    HasSayIff(p, b);
    if b > 0.0 {
      var q := 1.0 - p;
      var y := q / b;
      assert y * b == q;
      QuotientIs(b * p - q, b, p - y);
    }
  }

  lemma ObservedKelly(cfg: Config, s: Stats, p: real, b: real)
    requires s.wins + s.losses >= 20 && Consistent(s) && p == WinRate(cfg, s) && b == Payoff(cfg, s)
    requires s.losses == 0 || s.lost > 0.0
    ensures s.won > s.lost ==> s.won > 0.0 && HasSay(p, b) && RawKelly(p, b) == FullStake(p, s.won, s.lost)
    ensures s.won <= s.lost ==> !HasSay(p, b)
  {
    hide WinRate, Payoff, HasSay, RawKelly;
    KellySign(cfg, s);
    if s.won > s.lost {
      if s.losses > 0 {
        RawKellyIs(cfg, s);
      } else {
        OnlyWinsKelly(cfg, s, p, b);
      }
    }
  }

  lemma OnlyWinsKelly(cfg: Config, s: Stats, p: real, b: real)
    requires s.wins >= 20 && s.losses == 0 && s.lost == 0.0 && s.won > 0.0 && HasSay(p, b)
    requires p == WinRate(cfg, s)
    ensures RawKelly(p, b) == FullStake(p, s.won, s.lost)
  {
    QuotientIs(s.wins as real, s.wins as real, 1.0);
    QuotientIs(0.0, s.won, 0.0);
    assert p == 1.0;
    QuotientIs(b * p - (1.0 - p), b, 1.0);
  }

  lemma ObservedAllows(cfg: Config, p: real, b: real, x: real)
    requires HasSay(p, b) && RawKelly(p, b) == x
    ensures Fractional(cfg, x, KellyFor(cfg, p, b))
  {
    hide RawKelly;
  }

  lemma TotalsAllow(cfg: Config, s: Stats, p: real, b: real)
    requires s.wins + s.losses >= 20 && Consistent(s) && p == WinRate(cfg, s) && b == Payoff(cfg, s)
    requires s.losses == 0 || s.lost > 0.0
    ensures KellyFromTotals(cfg, p, s.won, s.lost, KellyFor(cfg, p, b))
  {
    hide WinRate, Payoff, RawKelly, Fractional, FullStake, KellyFor;
    ObservedKelly(cfg, s, p, b);
    if s.won > s.lost {
      ObservedAllows(cfg, p, b, FullStake(p, s.won, s.lost));
    } else {
      NoEdge(cfg, p, b);
    }
  }

  lemma KellyIsAllowed(cfg: Config, results: seq<TradeResult>)
    ensures KellyAllows(cfg, results, KellyPct(cfg, StatsOf(results)))
  {
    hide StatsOf, Sizes, Sum, Payoff, KellyFromOdds, KellyFromTotals, KellyFor;
    var s := StatsOf(results);
    var p, b := WinRate(cfg, s), Payoff(cfg, s);
    StatsAre(results);
    StatsAreConsistent(results);
    OddsAre(cfg, p, b);
    if |results| < 20 {
      PayoffBeforeEnough(cfg, s);
    } else {
      assert p == |Sizes(results, true)| as real / |results| as real;
      if s.losses > 0 && s.lost == 0.0 {
        ZeroLosses(cfg, s);
      } else {
        TotalsAllow(cfg, s, p, b);
      }
    }
  }

  lemma PayoffBeforeEnough(cfg: Config, s: Stats)
    requires s.wins + s.losses < 20
    ensures WinRate(cfg, s) == cfg.defaultWinRate && Payoff(cfg, s) == cfg.defaultPayoff
  {
  }

  lemma NoEdge(cfg: Config, p: real, b: real)
    requires !HasSay(p, b)
    ensures KellyFor(cfg, p, b) == 0.0
  {
    hide RawKelly;
  }

  // The approved size, from the results so far: the smallest of what was
  // asked for, the position limit, and what Kelly allows if that is on and
  // positive.
  lemma ApprovedSizeIs(cfg: Config, b: Breaker, results: seq<TradeResult>, signal: Signal, a: Account,
                       ind: Indicators, c: Clock, hour: int) returns (kelly: real)
    requires !signal.action.Hold? && a.equity > 0.0
    requires Decide(cfg, b, StatsOf(results), signal, a, ind, c, hour).allow
    ensures KellyAllows(cfg, results, kelly)
    ensures var d := Decide(cfg, b, StatsOf(results), signal, a, ind, c, hour);
      && d.maxSize == a.equity * cfg.maxPositionPct && d.reasons == []
      && d.adjusted.Some?
      && var size := d.adjusted.value.sizePct;
      && d.adjusted.value == signal.(sizePct := size)
      && size <= signal.sizePct && size <= cfg.maxPositionPct
      && (cfg.kellyEnabled && kelly > 0.0 ==> size <= kelly)
      && (size == signal.sizePct || size == cfg.maxPositionPct || (cfg.kellyEnabled && kelly > 0.0 && size == kelly))
  {
    kelly := KellyPct(cfg, StatsOf(results));
    KellyIsAllowed(cfg, results);
    ApprovedSize(cfg, b, StatsOf(results), signal, a, ind, c, hour);
    hide KellyAllows, KellyPct, StatsOf, ApprovedPct, BreakerReasons, Reasons;
  }

  // A HOLD passes unchanged and trades nothing; a rejected signal trades
  // nothing either, and without equity an approved one has size 0.
  lemma OtherDecisions(cfg: Config, b: Breaker, s: Stats, signal: Signal, a: Account, ind: Indicators,
                       c: Clock, hour: int)
    ensures var d := Decide(cfg, b, s, signal, a, ind, c, hour);
      && (signal.action.Hold? ==> d == Decision(true, [], Some(signal), 0.0))
      && (!d.allow ==> d.reasons != [] && d.adjusted.None? && d.maxSize == 0.0)
      && (d.allow && !signal.action.Hold? && a.equity <= 0.0 ==> d.adjusted == Some(signal.(sizePct := 0.0)))
  {
    hide BreakerReasons, Reasons, AdjustedSize;
  }

  lemma InWhen(rs: seq<Reason>, yes: bool, r: Reason, x: Reason)
    ensures x in rs + When(yes, r) <==> x in rs || (yes && x == r)
  {
  }

  lemma InReasons(cfg: Config, blocked: seq<Reason>, signal: Signal, a: Account, ind: Indicators, hour: int, x: Reason)
    ensures x in Reasons(cfg, blocked, signal, a, ind, hour) <==>
      || x in blocked
      || (a.dailyPnlPct <= -cfg.maxDailyDrawdown && x == DailyDrawdown)
      || (cfg.killStreak <= a.lossStreak && x == KillStreak)
      || (cfg.maxConcurrent <= a.openPositions && x == MaxPositions)
      || (signal.confidence < cfg.minConfidence && x == LowConfidence)
      || (TooVolatile(cfg, ind) && x == Volatility)
      || (OutOfHours(cfg, hour) && x == OutsideHours)
      || (signal.sizePct <= 0.0 && x == InvalidSize)
  {
    hide When, TooVolatile, OutOfHours;
    var r0 := blocked;
    InWhen(r0, a.dailyPnlPct <= -cfg.maxDailyDrawdown, DailyDrawdown, x);
    var r1 := r0 + When(a.dailyPnlPct <= -cfg.maxDailyDrawdown, DailyDrawdown);
    InWhen(r1, a.lossStreak >= cfg.killStreak, KillStreak, x);
    var r2 := r1 + When(a.lossStreak >= cfg.killStreak, KillStreak);
    InWhen(r2, a.openPositions >= cfg.maxConcurrent, MaxPositions, x);
    var r3 := r2 + When(a.openPositions >= cfg.maxConcurrent, MaxPositions);
    InWhen(r3, signal.confidence < cfg.minConfidence, LowConfidence, x);
    var r4 := r3 + When(signal.confidence < cfg.minConfidence, LowConfidence);
    InWhen(r4, TooVolatile(cfg, ind), Volatility, x);
    var r5 := r4 + When(TooVolatile(cfg, ind), Volatility);
    InWhen(r5, OutOfHours(cfg, hour), OutsideHours, x);
    var r6 := r5 + When(OutOfHours(cfg, hour), OutsideHours);
    InWhen(r6, signal.sizePct <= 0.0, InvalidSize, x);
  }

  // Each reason against a signal is given exactly if its condition holds.
  lemma ReasonIff(cfg: Config, b: Breaker, signal: Signal, a: Account, ind: Indicators, c: Clock, hour: int)
    ensures var rs := Reasons(cfg, BreakerReasons(cfg, b, a, c), signal, a, ind, hour);
      && (BreakerActive in rs <==> cfg.cbEnabled && b.active && c.check < b.until)
      && (BreakerTriggered in rs <==>
            cfg.cbEnabled && !(b.active && c.check < b.until)
            && (cfg.cbLossStreak <= a.lossStreak || cfg.cbDrawdownPct <= a.maxDrawdownPct
                || cfg.cbHourlyLimit <= if c.hourly - b.hourStart >= 3600.0 then 0 else b.trades))
      && (DailyDrawdown in rs <==> a.dailyPnlPct <= -cfg.maxDailyDrawdown)
      && (KillStreak in rs <==> cfg.killStreak <= a.lossStreak)
      && (MaxPositions in rs <==> cfg.maxConcurrent <= a.openPositions)
      && (LowConfidence in rs <==> signal.confidence < cfg.minConfidence)
      && (Volatility in rs <==> TooVolatile(cfg, ind))
      && (OutsideHours in rs <==> cfg.twEnabled && (hour < cfg.twStartHour || cfg.twEndHour <= hour))
      && (InvalidSize in rs <==> signal.sizePct <= 0.0)
  {
    hide Reasons, TooVolatile;
    var blocked := BreakerReasons(cfg, b, a, c);
    InReasons(cfg, blocked, signal, a, ind, hour, BreakerActive);
    InReasons(cfg, blocked, signal, a, ind, hour, BreakerTriggered);
    InReasons(cfg, blocked, signal, a, ind, hour, DailyDrawdown);
    InReasons(cfg, blocked, signal, a, ind, hour, KillStreak);
    InReasons(cfg, blocked, signal, a, ind, hour, MaxPositions);
    InReasons(cfg, blocked, signal, a, ind, hour, LowConfidence);
    InReasons(cfg, blocked, signal, a, ind, hour, Volatility);
    InReasons(cfg, blocked, signal, a, ind, hour, OutsideHours);
    InReasons(cfg, blocked, signal, a, ind, hour, InvalidSize);
  }

  // The volatility filter: only with both values positive and the current one
  // at the given multiple of the mean; a missing mean is the current value.
  lemma TooVolatileIff(cfg: Config, atr: real, mean: real)
    ensures TooVolatile(cfg, Indicators(Some(atr), Some(mean)))
      <==> cfg.atrEnabled && 0.0 < mean && mean * cfg.atrBlockMult <= atr
    ensures TooVolatile(cfg, Indicators(Some(atr), None))
      <==> cfg.atrEnabled && 0.0 < atr && atr * cfg.atrBlockMult <= atr
    ensures TooVolatile(cfg, Indicators(None, Some(mean)))
      <==> cfg.atrEnabled && 0.0 < mean && mean * cfg.atrBlockMult <= 0.0
    ensures !TooVolatile(cfg, Indicators(None, None))
  {
  }

  // ---------- runs ----------

  datatype Engine = Engine(lossStreak: int, breaker: Breaker, stats: Stats)

  datatype Event =
    | Validate(signal: Signal, account: Account, indicators: Indicators, clock: Clock, hour: int)
    | Closed(result: TradeResult, at: real)

  function Step(cfg: Config, e: Engine, ev: Event): Engine
  {
    match ev
    case Validate(signal, a, ind, c, hour) =>
      e.(lossStreak := a.lossStreak, breaker := BreakerAfter(cfg, e.breaker, a, c))
    case Closed(r, at) =>
      Engine(if r.win then 0 else e.lossStreak + 1, e.breaker.(trades := e.breaker.trades + 1), Record(e.stats, r))
  }

  function Run(cfg: Config, e: Engine, log: seq<Event>): Engine
  {
    if log == [] then e else Step(cfg, Run(cfg, e, log[..|log| - 1]), log[|log| - 1])
  }

  // The engine as built at time t0.
  function Fresh(t0: real): Engine { Engine(0, Breaker(false, 0.0, 0, t0), NO_STATS) }

  function Begin(ev: Event): real { if ev.Validate? then ev.clock.check else ev.at }

  function End(ev: Event): real { if ev.Validate? then ev.clock.activate else ev.at }

  predicate Ticks(ev: Event) { ev.Validate? ==> ev.clock.check <= ev.clock.hourly <= ev.clock.activate }

  // The clock never goes back.
  ghost predicate Timed(t0: real, log: seq<Event>)
  {
    && (forall i :: 0 <= i < |log| ==> t0 <= Begin(log[i]) && Ticks(log[i]))
    && (forall i, j :: 0 <= i < j < |log| ==> End(log[i]) <= Begin(log[j]))
  }

  // The engine that event i meets.
  function Before(cfg: Config, e: Engine, log: seq<Event>, i: nat): Engine
    requires i <= |log|
  {
    Run(cfg, e, log[..i])
  }

  lemma BeforeNext(cfg: Config, e: Engine, log: seq<Event>, i: nat)
    requires i < |log|
    ensures Before(cfg, e, log, i + 1) == Step(cfg, Before(cfg, e, log, i), log[i])
  {
    assert log[..i + 1][..i] == log[..i];
  }

  ghost predicate ActivatesAt(cfg: Config, e: Engine, log: seq<Event>, i: nat)
  {
    i < |log| && log[i].Validate? && Activates(cfg, Before(cfg, e, log, i).breaker, log[i].account, log[i].clock)
  }

  ghost predicate ApprovedAt(cfg: Config, e: Engine, log: seq<Event>, i: nat)
  {
    i < |log| && log[i].Validate? &&
    var m, ev := Before(cfg, e, log, i), log[i];
    Decide(cfg, m.breaker, m.stats, ev.signal, ev.account, ev.indicators, ev.clock, ev.hour).allow
  }

  // From an activation on, for as long as the cooldown lasts, the breaker
  // stays on and its deadline does not move.
  lemma {:induction false} StaysOn(cfg: Config, e: Engine, t0: real, log: seq<Event>, i: nat, j: nat)
    requires Timed(t0, log) && ActivatesAt(cfg, e, log, i) && i < j < |log|
    requires Begin(log[j]) < log[i].clock.activate + cfg.cbCooldown
    ensures var b := Before(cfg, e, log, j).breaker;
      b.active && b.until == log[i].clock.activate + cfg.cbCooldown
    decreases j
  {
    hide Run;
    BeforeNext(cfg, e, log, j - 1);
    if j > i + 1 {
      assert Begin(log[j - 1]) <= End(log[j - 1]) <= Begin(log[j]);
      StaysOn(cfg, e, t0, log, i, j - 1);
    }
  }

  // After an activation every signal that is not HOLD, the one that caused it
  // included, is rejected until the cooldown has passed.
  lemma QuietPeriod(cfg: Config, e: Engine, t0: real, log: seq<Event>, i: nat, j: nat)
    requires Timed(t0, log) && ActivatesAt(cfg, e, log, i) && i <= j < |log|
    requires log[j].Validate? && !log[j].signal.action.Hold?
    requires j == i || log[j].clock.check < log[i].clock.activate + cfg.cbCooldown
    ensures !ApprovedAt(cfg, e, log, j)
  {
    hide Run;
    if j > i { StaysOn(cfg, e, t0, log, i, j); }
  }

  // Activations are at least a cooldown apart.
  lemma ActivationsApart(cfg: Config, e: Engine, t0: real, log: seq<Event>, i: nat, j: nat)
    requires Timed(t0, log) && i < j && ActivatesAt(cfg, e, log, i) && ActivatesAt(cfg, e, log, j)
    ensures log[j].clock.activate >= log[i].clock.activate + cfg.cbCooldown
  {
    hide Run;
    assert Ticks(log[j]);
    if log[j].clock.check < log[i].clock.activate + cfg.cbCooldown {
      StaysOn(cfg, e, t0, log, i, j);
    }
  }

  // The breaker after a validation. It stays as it is where it is off in the
  // configuration, or on before its deadline. Otherwise an account over its
  // limits switches it on; else the hour is renewed if it is over, and the
  // number of its results decides.
  lemma BreakerLeft(cfg: Config, b: Breaker, a: Account, c: Clock)
    ensures var b', over := BreakerAfter(cfg, b, a, c), c.hourly - b.hourStart >= 3600.0;
      var trades, start := if over then 0 else b.trades, if over then c.hourly else b.hourStart;
      if !cfg.cbEnabled || (b.active && c.check < b.until) then b' == b
      else if cfg.cbLossStreak <= a.lossStreak || cfg.cbDrawdownPct <= a.maxDrawdownPct
      then b' == Breaker(true, c.activate + cfg.cbCooldown, b.trades, b.hourStart)
      else if cfg.cbHourlyLimit <= trades then b' == Breaker(true, c.activate + cfg.cbCooldown, trades, start)
      else b' == Breaker(false, b.until, trades, start)
  {
  }

  // ---------- trades of the current hour ----------

  // The results recorded from t on, or only those strictly after t.
  function Recorded(log: seq<Event>, t: real, strictly: bool): nat
  {
    if log == [] then 0
    else
      var ev := log[|log| - 1];
      Recorded(log[..|log| - 1], t, strictly)
      + (if ev.Closed? && (if strictly then ev.at > t else ev.at >= t) then 1 else 0)
  }

  lemma {:induction false} NoneAfter(log: seq<Event>, t: real)
    requires forall i :: 0 <= i < |log| ==> log[i].Closed? ==> log[i].at <= t
    ensures Recorded(log, t, true) == 0
  {
    if log != [] { NoneAfter(log[..|log| - 1], t); }
  }

  lemma TimedPrefix(t0: real, log: seq<Event>)
    requires Timed(t0, log) && log != []
    ensures Timed(t0, log[..|log| - 1])
  {
  }

  // The counter holds the results recorded since the hour started: all that
  // came later, and none that came earlier.
  lemma {:induction false} TradesOfTheHour(cfg: Config, t0: real, log: seq<Event>)
    requires Timed(t0, log)
    ensures var b := Run(cfg, Fresh(t0), log).breaker;
      && t0 <= b.hourStart
      && (log == [] || b.hourStart <= End(log[|log| - 1]))
      && Recorded(log, b.hourStart, true) <= b.trades <= Recorded(log, b.hourStart, false)
  {
    if log != [] {
      var init, ev := log[..|log| - 1], log[|log| - 1];
      TimedPrefix(t0, log);
      TradesOfTheHour(cfg, t0, init);
      var m := Run(cfg, Fresh(t0), init).breaker;
      assert Ticks(ev) && (init != [] ==> End(init[|init| - 1]) <= Begin(ev));
      assert t0 <= Begin(ev);
      if ev.Validate? {
        var b := BreakerAfter(cfg, m, ev.account, ev.clock);
        BreakerKeepsHour(cfg, m, ev.account, ev.clock);
        if b.hourStart != m.hourStart {
          assert forall i :: 0 <= i < |log| ==> log[i].Closed? ==> log[i].at <= Begin(ev);
          NoneAfter(log, b.hourStart);
        }
      }
    }
  }

  lemma BreakerKeepsHour(cfg: Config, b: Breaker, a: Account, c: Clock)
    ensures var b' := BreakerAfter(cfg, b, a, c);
      (b'.trades == b.trades && b'.hourStart == b.hourStart) || (b'.trades == 0 && b'.hourStart == c.hourly)
  {
  }

  // An approval of a signal that is not HOLD means: loss streak and drawdown
  // below the breaker's limits, an hour that started less than an hour ago,
  // and fewer results since then than the hourly limit.
  lemma ApprovalKeepsLimits(cfg: Config, t0: real, log: seq<Event>, i: nat)
    requires Timed(t0, log) && cfg.cbEnabled && ApprovedAt(cfg, Fresh(t0), log, i)
    requires !log[i].signal.action.Hold?
    ensures log[i].account.lossStreak < cfg.cbLossStreak && log[i].account.maxDrawdownPct < cfg.cbDrawdownPct
    ensures var b := Before(cfg, Fresh(t0), log, i + 1).breaker;
      && !b.active && log[i].clock.hourly - b.hourStart < 3600.0
      && b.trades < cfg.cbHourlyLimit && Recorded(log[..i + 1], b.hourStart, true) < cfg.cbHourlyLimit
  {
    TradesOfTheHour(cfg, t0, log[..i + 1]);
    BeforeNext(cfg, Fresh(t0), log, i);
    hide Run, Recorded, Decide;
    var m, ev := Before(cfg, Fresh(t0), log, i), log[i];
    ApprovedIff(cfg, m.breaker, m.stats, ev.signal, ev.account, ev.indicators, ev.clock, ev.hour);
  }

  // The results of a run.
  function Results(log: seq<Event>): seq<TradeResult>
  {
    if log == [] then []
    else Results(log[..|log| - 1]) + (if log[|log| - 1].Closed? then [log[|log| - 1].result] else [])
  }

  // Sizing is computed from exactly the results recorded so far: validations
  // in between leave no trace in the statistics.
  lemma {:induction false} StatsOfRun(cfg: Config, t0: real, log: seq<Event>)
    ensures Run(cfg, Fresh(t0), log).stats == StatsOf(Results(log))
  {
    hide BreakerAfter, Record;
    if log != [] {
      var init, ev := log[..|log| - 1], log[|log| - 1];
      StatsOfRun(cfg, t0, init);
      if ev.Closed? {
        assert (Results(init) + [ev.result])[..|Results(init)|] == Results(init);
      } else {
        assert Results(init) + [] == Results(init);
      }
    }
  }

  // The loss streak: what the last validation was given, or 0 after a win or
  // at the start, and one more for each loss since.
  lemma {:induction false} LossStreakIs(cfg: Config, t0: real, log: seq<Event>, k: nat)
    requires k <= |log| && forall i :: k <= i < |log| ==> log[i].Closed? && !log[i].result.win
    requires k > 0 ==> log[k - 1].Validate? || log[k - 1].result.win
    ensures Run(cfg, Fresh(t0), log).lossStreak
         == |log| - k + (if k > 0 && log[k - 1].Validate? then log[k - 1].account.lossStreak else 0)
  {
    hide BreakerAfter, Record;
    if k < |log| { LossStreakIs(cfg, t0, log[..|log| - 1], k); }
  }

  // ---------- the engine object ----------

  class EnhancedRiskEngine {
    const cfg: Config
    var lossStreak: int
    var dailyPnlPct: real
    var openPositions: int
    var maxDrawdownPct: real
    var circuitBreakerActive: bool
    var circuitBreakerUntil: real
    var tradesThisHour: nat
    var hourStart: real
    var winCount: nat
    var lossCount: nat
    var totalWinPnl: real
    var totalLossPnl: real

    function BreakerState(): Breaker
      reads this
    {
      Breaker(circuitBreakerActive, circuitBreakerUntil, tradesThisHour, hourStart)
    }

    function TradeStats(): Stats
      reads this
    {
      Stats(winCount, lossCount, totalWinPnl, totalLossPnl)
    }

    function State(): Engine
      reads this
    {
      Engine(lossStreak, BreakerState(), TradeStats())
    }

    constructor (cfg: Config, now: real)
      ensures this.cfg == cfg && State() == Fresh(now)
      ensures !circuitBreakerActive && circuitBreakerUntil == 0.0 && lossStreak == 0
      ensures tradesThisHour == 0 && hourStart == now
      ensures winCount == lossCount == 0 && totalWinPnl == totalLossPnl == 0.0
    {
      this.cfg := cfg;
      lossStreak, dailyPnlPct, openPositions, maxDrawdownPct := 0, 0.0, 0, 0.0;
      circuitBreakerActive, circuitBreakerUntil := false, 0.0;
      tradesThisHour, hourStart := 0, now;
      winCount, lossCount, totalWinPnl, totalLossPnl := 0, 0, 0.0, 0.0;
    }

    method IsCircuitBreakerActive(now: real) returns (active: bool)
      modifies this`circuitBreakerActive
      ensures BreakerState() == Expire(old(BreakerState()), now) && active == circuitBreakerActive
    {
      if !circuitBreakerActive { return false; }
      if now >= circuitBreakerUntil {
        circuitBreakerActive := false;
        return false;
      }
      return true;
    }

    method CheckHourlyReset(now: real)
      modifies this`tradesThisHour, this`hourStart
      ensures BreakerState() == HourlyReset(old(BreakerState()), now)
    {
      if now - hourStart >= HOUR {
        tradesThisHour := 0;
        hourStart := now;
      }
    }

    method ShouldTrigger(a: Account, now: real) returns (yes: bool)
      requires maxDrawdownPct == a.maxDrawdownPct
      modifies this`tradesThisHour, this`hourStart
      ensures BreakerState() == BeforeTrigger(cfg, old(BreakerState()), a, now)
      ensures yes == Triggers(cfg, old(BreakerState()), a, now)
    {
      if a.lossStreak >= cfg.cbLossStreak { return true; }
      if maxDrawdownPct >= cfg.cbDrawdownPct { return true; }
      CheckHourlyReset(now);
      return tradesThisHour >= cfg.cbHourlyLimit;
    }

    method ActivateBreaker(now: real)
      modifies this`circuitBreakerActive, this`circuitBreakerUntil
      ensures BreakerState() == Activate(cfg, old(BreakerState()), now)
    {
      circuitBreakerActive := true;
      circuitBreakerUntil := now + cfg.cbCooldown;
    }

    method UpdateAccountState(a: Account)
      modifies this`lossStreak, this`dailyPnlPct, this`openPositions, this`maxDrawdownPct
      ensures lossStreak == a.lossStreak && dailyPnlPct == a.dailyPnlPct
      ensures openPositions == a.openPositions && maxDrawdownPct == a.maxDrawdownPct
    {
      lossStreak := a.lossStreak;
      dailyPnlPct := a.dailyPnlPct;
      openPositions := a.openPositions;
      maxDrawdownPct := a.maxDrawdownPct;
    }

    // The breaker part of a validation.
    method CheckBreaker(a: Account, c: Clock) returns (reasons: seq<Reason>)
      requires maxDrawdownPct == a.maxDrawdownPct
      modifies this`circuitBreakerActive, this`circuitBreakerUntil, this`tradesThisHour, this`hourStart
      ensures BreakerState() == BreakerAfter(cfg, old(BreakerState()), a, c)
      ensures reasons == BreakerReasons(cfg, old(BreakerState()), a, c)
    {
      reasons := [];
      if cfg.cbEnabled {
        var active := IsCircuitBreakerActive(c.check);
        if active {
          reasons := [BreakerActive];
        } else {
          var triggered := ShouldTrigger(a, c.hourly);
          if triggered {
            ActivateBreaker(c.activate);
            reasons := [BreakerTriggered];
          }
        }
      }
    }

    method Odds() returns (p: real, b: real)
      ensures p == WinRate(cfg, TradeStats()) && b == Payoff(cfg, TradeStats())
    {
      var total := winCount + lossCount;
      if total >= ENOUGH {
        p := winCount as real / total as real;
        var avgWin := if winCount > 0 then totalWinPnl / winCount as real else 1.0;
        var avgLoss := if lossCount > 0 then Abs(totalLossPnl / lossCount as real) else 1.0;
        b := if avgLoss > 0.0 then avgWin / avgLoss else cfg.defaultPayoff;
      } else {
        p, b := cfg.defaultWinRate, cfg.defaultPayoff;
      }
    }

    method CalcKellySize(equity: real) returns (size: real)
      ensures size == KellySize(cfg, TradeStats(), equity)
    {
      hide WinRate, Payoff;
      if !cfg.kellyEnabled || equity <= 0.0 { return 0.0; }
      var p, b := Odds();
      var q := 1.0 - p;
      if b <= 0.0 { return equity * 0.0; }
      var kelly := (b * p - q) / b;
      if kelly <= 0.0 { return equity * 0.0; }
      kelly := kelly * cfg.kellyFraction;
      kelly := Min(kelly, cfg.kellyMaxPct);
      return equity * kelly;
    }

    method Note(reasons: seq<Reason>, yes: bool, r: Reason) returns (noted: seq<Reason>)
      ensures noted == reasons + When(yes, r)
    {
      noted := reasons;
      if yes { noted := noted + [r]; }
    }

    // The limits other than the breaker, in order.
    method CheckLimits(signal: Signal, a: Account, ind: Indicators, hour: int, blocked: seq<Reason>)
      returns (reasons: seq<Reason>)
      ensures reasons == Reasons(cfg, blocked, signal, a, ind, hour)
    {
      hide TooVolatile, OutOfHours, When;
      reasons := Note(blocked, a.dailyPnlPct <= -cfg.maxDailyDrawdown, DailyDrawdown);
      reasons := Note(reasons, a.lossStreak >= cfg.killStreak, KillStreak);
      reasons := Note(reasons, a.openPositions >= cfg.maxConcurrent, MaxPositions);
      reasons := Note(reasons, signal.confidence < cfg.minConfidence, LowConfidence);
      reasons := Note(reasons, TooVolatile(cfg, ind), Volatility);
      reasons := Note(reasons, OutOfHours(cfg, hour), OutsideHours);
      reasons := Note(reasons, signal.sizePct <= 0.0, InvalidSize);
    }

    // The size of an approved signal.
    method Size(signal: Signal, equity: real) returns (pct: real)
      ensures pct == ApprovedPct(cfg, TradeStats(), signal, equity)
    {
      hide KellySize;
      var maxEquityRisk := equity * cfg.maxPositionPct;
      var requested := equity * signal.sizePct;
      var kelly := CalcKellySize(equity);
      var adjusted;
      if cfg.kellyEnabled && kelly > 0.0 {
        adjusted := Min(kelly, Min(requested, maxEquityRisk));
      } else {
        adjusted := Min(requested, maxEquityRisk);
      }
      pct := if equity > 0.0 then adjusted / equity else 0.0;
    }

    method Validate(signal: Signal, a: Account, ind: Indicators, c: Clock, hour: int) returns (d: Decision)
      modifies this
      ensures State() == Step(cfg, old(State()), Event.Validate(signal, a, ind, c, hour))
      ensures d == Decide(cfg, old(BreakerState()), old(TradeStats()), signal, a, ind, c, hour)
    {
      hide BreakerAfter, BreakerReasons, Reasons, ApprovedPct;
      UpdateAccountState(a);
      var blocked := CheckBreaker(a, c);
      if signal.action.Hold? {
        return Decision(true, [], Some(signal), 0.0);
      }
      var reasons := CheckLimits(signal, a, ind, hour, blocked);
      if reasons != [] {
        return Decision(false, reasons, None, 0.0);
      }
      var pct := Size(signal, a.equity);
      return Decision(true, [], Some(signal.(sizePct := pct)), a.equity * cfg.maxPositionPct);
    }

    // The time of the call is not read.
    method OnTradeResult(r: TradeResult, ghost at: real)
      modifies this
      ensures State() == Step(cfg, old(State()), Closed(r, at))
    {
      if r.win {
        lossStreak := 0;
        winCount := winCount + 1;
        totalWinPnl := totalWinPnl + Abs(r.pnlPct);
      } else {
        lossStreak := lossStreak + 1;
        lossCount := lossCount + 1;
        totalLossPnl := totalLossPnl + Abs(r.pnlPct);
      }
      tradesThisHour := tradesThisHour + 1;
    }
  }
}
