/** Incremental technical indicators. Each indicator has a definition over the
    whole history of bars; the extractor keeps bounded windows and running
    values, and `FeatureExtractor.Update` shows that what it returns is what
    the definitions say. */
module Features {
  import opened Options
  import opened RealMath
  import opened Windows

  datatype Bar = Bar(close: real, high: real, low: real, volume: real)

  // ---------- series over the history ----------

  function Each(h: seq<Bar>, f: Bar -> real): (r: seq<real>)
    ensures |r| == |h|
  {
    if h == [] then [] else Each(h[..|h| - 1], f) + [f(h[|h| - 1])]
  }

  // One value for every two consecutive bars.
  function Steps(h: seq<Bar>, f: (Bar, Bar) -> real): (r: seq<real>)
    ensures |r| == if |h| < 2 then 0 else |h| - 1
  {
    if |h| < 2 then [] else Steps(h[..|h| - 1], f) + [f(h[|h| - 2], h[|h| - 1])]
  }

  lemma {:induction false} EachAt(h: seq<Bar>, f: Bar -> real, i: nat)
    requires i < |h|
    ensures Each(h, f)[i] == f(h[i])
  {
    if i < |h| - 1 { EachAt(h[..|h| - 1], f, i); }
  }

  lemma {:induction false} StepsAt(h: seq<Bar>, f: (Bar, Bar) -> real, i: nat)
    requires i + 1 < |h|
    ensures Steps(h, f)[i] == f(h[i], h[i + 1])
  {
    if i + 1 < |h| - 1 { StepsAt(h[..|h| - 1], f, i); }
  }

  function Close(b: Bar): real { b.close }

  function Volume(b: Bar): real { b.volume }

  function High(b: Bar): real { b.high }

  function Low(b: Bar): real { b.low }

  function Gain(a: Bar, b: Bar): real { Max(b.close - a.close, 0.0) }

  function Loss(a: Bar, b: Bar): real { Max(-(b.close - a.close), 0.0) }

  function TrueRange(a: Bar, b: Bar): real
  {
    Max(b.high - b.low, Max(Abs(b.high - a.close), Abs(b.low - a.close)))
  }

  function UpMove(a: Bar, b: Bar): real { b.high - a.high }

  function DownMove(a: Bar, b: Bar): real { a.low - b.low }

  function DmPlus(a: Bar, b: Bar): real
  {
    if UpMove(a, b) > DownMove(a, b) then Max(UpMove(a, b), 0.0) else 0.0
  }

  function DmMinus(a: Bar, b: Bar): real
  {
    if DownMove(a, b) > UpMove(a, b) then Max(DownMove(a, b), 0.0) else 0.0
  }

  function SignedVolume(a: Bar, b: Bar): real
  {
    if b.close > a.close then b.volume else if b.close < a.close then -b.volume else 0.0
  }

  const PERIOD := 14
  const DEPTH := 200

  // The sum over the last fourteen steps.
  function Recent(h: seq<Bar>, f: (Bar, Bar) -> real): real { Sum(Last(Steps(h, f), PERIOD)) }

  // ---------- definitions of the indicators ----------

  // 100 * G / (G + L), or 100 where nothing was lost.
  function RsiOf(gains: real, losses: real): real
    requires gains >= 0.0 && losses >= 0.0
  {
    if losses == 0.0 then 100.0 else 100.0 * gains / (gains + losses)
  }

  lemma {:induction false} StepsNonNegative(h: seq<Bar>, f: (Bar, Bar) -> real)
    requires forall a, b :: f(a, b) >= 0.0
    ensures forall i :: 0 <= i < |Steps(h, f)| ==> Steps(h, f)[i] >= 0.0
  {
    if |h| >= 2 { StepsNonNegative(h[..|h| - 1], f); }
  }

  lemma RecentNonNegative(h: seq<Bar>, f: (Bar, Bar) -> real)
    requires forall a, b :: f(a, b) >= 0.0
    ensures Recent(h, f) >= 0.0
  {
    StepsNonNegative(h, f);
    SumNonNegative(Last(Steps(h, f), PERIOD));
  }

  function Rsi(h: seq<Bar>): Option<real>
  {
    RecentNonNegative(h, Gain);
    RecentNonNegative(h, Loss);
    if |h| > PERIOD then Some(RsiOf(Recent(h, Gain), Recent(h, Loss))) else None
  }

  datatype Adx = Adx(dx: real, diPlus: real, diMinus: real)

  // From the sums of upward and downward movement and of true range.
  function AdxOf(plus: real, minus: real, range: real): Adx
    requires plus >= 0.0 && minus >= 0.0 && range > 0.0
  {
    Adx(if plus + minus > 0.0 then 100.0 * Abs(plus - minus) / (plus + minus) else 0.0,
        100.0 * plus / range, 100.0 * minus / range)
  }

  function AdxAt(h: seq<Bar>): Option<Adx>
  {
    RecentNonNegative(h, DmPlus);
    RecentNonNegative(h, DmMinus);
    if |h| > PERIOD && Recent(h, TrueRange) > 0.0
    then Some(AdxOf(Recent(h, DmPlus), Recent(h, DmMinus), Recent(h, TrueRange)))
    else None
  }

  function Atr(h: seq<Bar>): Option<real>
  {
    if |h| > PERIOD then Some(Recent(h, TrueRange) / PERIOD as real) else None
  }

  function Highest(h: seq<Bar>): real
    requires h != []
  {
    MaxOf(Last(Each(h, High), PERIOD))
  }

  function Lowest(h: seq<Bar>): real
    requires h != []
  {
    MinOf(Last(Each(h, Low), PERIOD))
  }

  // Where the close lies between the lowest low and the highest high; there
  // is no value when these are the same.
  function KOf(close: real, hi: real, lo: real): Option<real>
  {
    if hi != lo then Some(100.0 * (close - lo) / (hi - lo)) else None
  }

  function ROf(close: real, hi: real, lo: real): Option<real>
  {
    if hi != lo then Some(-100.0 * (hi - close) / (hi - lo)) else None
  }

  function StochK(h: seq<Bar>): Option<real>
  {
    if |h| >= PERIOD then KOf(h[|h| - 1].close, Highest(h), Lowest(h)) else None
  }

  function WillR(h: seq<Bar>): Option<real>
  {
    if |h| >= PERIOD then ROf(h[|h| - 1].close, Highest(h), Lowest(h)) else None
  }

  const ALPHA_12 := 0.1538
  const ALPHA_26 := 0.0741
  const ALPHA_SIGNAL := 0.2

  function Blend(x: real, y: real, alpha: real): real { alpha * x + (1.0 - alpha) * y }

  function Ema(h: seq<Bar>, alpha: real): real
    requires h != []
  {
    if |h| == 1 then h[0].close else Blend(h[|h| - 1].close, Ema(h[..|h| - 1], alpha), alpha)
  }

  function Macd(h: seq<Bar>): real
    requires h != []
  {
    Ema(h, ALPHA_12) - Ema(h, ALPHA_26)
  }

  function MacdSignal(h: seq<Bar>): real
    requires h != []
  {
    if |h| == 1 then Macd(h) else Blend(Macd(h), MacdSignal(h[..|h| - 1]), ALPHA_SIGNAL)
  }

  function Obv(h: seq<Bar>): real { Sum(Steps(h, SignedVolume)) }

  // Returns divide by earlier closes.
  ghost predicate NonZeroCloses(h: seq<Bar>)
  {
    forall i :: 0 <= i < |h| ==> h[i].close != 0.0
  }

  function Relative(now: real, past: real): real
    requires past != 0.0
  {
    (now - past) / past
  }

  // The relative change of the close over k bars.
  function Ret(h: seq<Bar>, k: nat): Option<real>
    requires NonZeroCloses(h)
  {
    if |h| > k then
      Some(Relative(h[|h| - 1].close, h[|h| - 1 - k].close))
    else None
  }

  datatype Returns = Returns(ret1: Option<real>, ret5: Option<real>, ret15: Option<real>, ret60: Option<real>)

  function ReturnsOf(h: seq<Bar>): Returns
    requires NonZeroCloses(h)
  {
    Returns(Ret(h, 1), Ret(h, 5), Ret(h, 15), Ret(h, 60))
  }

  function AtrPct(h: seq<Bar>): Option<real>
    requires h != [] && NonZeroCloses(h)
  {
    ShareIn(Atr(h), h[|h| - 1].close)
  }

  // ---------- Bollinger bands ----------

  const BANDS := 20

  datatype Bands = Bands(upper: real, lower: real, mid: real, width: real, pct: real)

  function Mean(xs: seq<real>): real
    requires xs != []
  {
    Sum(xs) / |xs| as real
  }

  function PctOf(close: real, upper: real, lower: real): real
  {
    if upper != lower then (close - lower) / (upper - lower) else 0.5
  }

  function BandsOf(close: real, mid: real, std: real): Bands
  {
    var upper, lower := mid + 2.0 * std, mid - 2.0 * std;
    Bands(upper, lower, mid, if mid > 0.0 then 4.0 * std / mid else 0.0, PctOf(close, upper, lower))
  }

  function BandWindow(h: seq<Bar>): seq<real> { Last(Each(h, Close), BANDS) }

  // std is the standard deviation that the numeric library reports for the window.
  function Bollinger(h: seq<Bar>, std: real): Option<Bands>
  {
    if |h| >= BANDS then Some(BandsOf(h[|h| - 1].close, Mean(BandWindow(h)), std)) else None
  }

  // The volume ratio needs 21 values of a window that holds 20.
  const VOLUMES := 20
  const RATIO_NEEDS := 21

  datatype Averages = Averages(ema12: real, ema26: real, macd: real, macdSignal: real, macdHist: real)

  function AveragesOf(h: seq<Bar>): Averages
    requires h != []
  {
    Averages(Ema(h, ALPHA_12), Ema(h, ALPHA_26), Macd(h), MacdSignal(h), Macd(h) - MacdSignal(h))
  }

  // The indicators that carry state from bar to bar, and those that only read
  // the windows.
  datatype Carried = Carried(rsi: Option<real>, averages: Averages, atr: Option<real>, atrPct: Option<real>,
                             adx: Option<Adx>, obv: real)

  datatype Read = Read(change: Returns, bands: Option<Bands>, volRatio: Option<real>, stochK: Option<real>,
                       willR: Option<real>)

  datatype Indicators = Indicators(carried: Carried, read: Read)

  function CarriedOf(h: seq<Bar>): Carried
    requires h != [] && NonZeroCloses(h)
  {
    Carried(Rsi(h), AveragesOf(h), Atr(h), AtrPct(h), AdxAt(h), Obv(h))
  }

  function ReadOf(h: seq<Bar>, std: real): Read
    requires NonZeroCloses(h)
  {
    Read(ReturnsOf(h), Bollinger(h, std), None, StochK(h), WillR(h))
  }

  function IndicatorsOf(h: seq<Bar>, std: real): Indicators
    requires h != [] && NonZeroCloses(h)
  {
    Indicators(CarriedOf(h), ReadOf(h, std))
  }

  // ---------- what the indicators promise ----------

  predicate WellFormed(b: Bar) { 0.0 < b.low <= b.close <= b.high && b.volume >= 0.0 }

  lemma ShareRange(x: real, y: real)
    requires x >= 0.0 && y >= 0.0 && x + y > 0.0
    ensures 0.0 <= 100.0 * x / (x + y) <= 100.0
    ensures 100.0 * x / (x + y) == 0.0 <==> x == 0.0
    ensures 100.0 * x / (x + y) == 100.0 <==> y == 0.0
  {
    var w, c := x + y, 100.0 * x;
    QuotientAtLeast(c, w, 0.0);
    QuotientAtMost(c, w, 100.0);
    assert c / w * w == c;
  }

  // The RSI lies in 0 .. 100; it is 100 exactly if none of the last fourteen
  // changes is a loss, and 0 exactly if some are and none is a gain.
  lemma RsiRange(h: seq<Bar>)
    requires |h| > PERIOD
    ensures Rsi(h).Some? && 0.0 <= Rsi(h).value <= 100.0
    ensures Rsi(h).value == 100.0 <==> Recent(h, Loss) == 0.0
    ensures Rsi(h).value == 0.0 <==> Recent(h, Loss) > 0.0 && Recent(h, Gain) == 0.0
  {
    RecentNonNegative(h, Gain);
    RecentNonNegative(h, Loss);
    hide Recent;
    var g, l := Recent(h, Gain), Recent(h, Loss);
    if l > 0.0 { ShareRange(g, l); }
  }

  lemma {:induction false} StepsBelow(h: seq<Bar>, f: (Bar, Bar) -> real, g: (Bar, Bar) -> real,
                                      d: (Bar, Bar) -> real)
    requires forall i :: 0 <= i < |h| ==> WellFormed(h[i])
    requires forall a, b :: WellFormed(a) && WellFormed(b) ==> f(a, b) + g(a, b) <= d(a, b)
    ensures forall i :: 0 <= i < |Steps(h, f)| ==> Steps(h, f)[i] + Steps(h, g)[i] <= Steps(h, d)[i]
  {
    if |h| >= 2 { StepsBelow(h[..|h| - 1], f, g, d); }
  }

  lemma {:induction false} SumsBelow(xs: seq<real>, ys: seq<real>, zs: seq<real>)
    requires |xs| == |ys| == |zs|
    requires forall i :: 0 <= i < |xs| ==> xs[i] + ys[i] <= zs[i]
    ensures Sum(xs) + Sum(ys) <= Sum(zs)
  {
    if xs != [] {
      SumsBelow(xs[..|xs| - 1], ys[..|ys| - 1], zs[..|zs| - 1]);
    }
  }

  // In one step at most one of the two movements counts, and it does not
  // exceed the true range.
  lemma MovementWithinRange(a: Bar, b: Bar)
    requires WellFormed(a) && WellFormed(b)
    ensures DmPlus(a, b) + DmMinus(a, b) <= TrueRange(a, b)
  {
  }

  lemma RecentMovement(h: seq<Bar>)
    requires forall i :: 0 <= i < |h| ==> WellFormed(h[i])
    ensures Recent(h, DmPlus) + Recent(h, DmMinus) <= Recent(h, TrueRange)
  {
    forall a, b | WellFormed(a) && WellFormed(b) ensures DmPlus(a, b) + DmMinus(a, b) <= TrueRange(a, b) {
      MovementWithinRange(a, b);
    }
    hide DmPlus, DmMinus, TrueRange;
    StepsBelow(h, DmPlus, DmMinus, TrueRange);
    SumsBelow(Last(Steps(h, DmPlus), PERIOD), Last(Steps(h, DmMinus), PERIOD), Last(Steps(h, TrueRange), PERIOD));
  }

  // DX lies in 0 .. 100, and on well-formed bars the two directional
  // indicators together do not exceed 100.
  lemma AdxRange(h: seq<Bar>)
    requires AdxAt(h).Some?
    ensures var x := AdxAt(h).value;
      && 0.0 <= x.dx <= 100.0 && 0.0 <= x.diPlus && 0.0 <= x.diMinus
      && ((forall i :: 0 <= i < |h| ==> WellFormed(h[i])) ==> x.diPlus + x.diMinus <= 100.0)
  {
    RecentNonNegative(h, DmPlus);
    RecentNonNegative(h, DmMinus);
    var p, m, t := Recent(h, DmPlus), Recent(h, DmMinus), Recent(h, TrueRange);
    AdxOfRange(p, m, t);
    if forall i :: 0 <= i < |h| ==> WellFormed(h[i]) { RecentMovement(h); }
    hide Recent, AdxOf;
  }

  lemma AdxOfRange(p: real, m: real, t: real)
    requires p >= 0.0 && m >= 0.0 && t > 0.0
    ensures var x := AdxOf(p, m, t);
      && 0.0 <= x.dx <= 100.0 && 0.0 <= x.diPlus && 0.0 <= x.diMinus
      && (p + m <= t ==> x.diPlus + x.diMinus <= 100.0)
  {
    QuotientAtLeast(100.0 * p, t, 0.0);
    QuotientAtLeast(100.0 * m, t, 0.0);
    if p + m <= t {
      QuotientAtMost(100.0 * p + 100.0 * m, t, 100.0);
      assert 100.0 * p / t + 100.0 * m / t == (100.0 * p + 100.0 * m) / t;
    }
    if p + m > 0.0 {
      DxRange(p, m, Abs(p - m));
    }
  }

  lemma DxRange(p: real, m: real, d: real)
    requires p + m > 0.0 && 0.0 <= d <= p + m
    ensures 0.0 <= 100.0 * d / (p + m) <= 100.0
  {
    QuotientAtLeast(100.0 * d, p + m, 0.0);
    QuotientAtMost(100.0 * d, p + m, 100.0);
  }

  lemma HighestHolds(h: seq<Bar>)
    requires h != []
    ensures h[|h| - 1].high <= Highest(h) && Lowest(h) <= h[|h| - 1].low
  {
    EachAt(h, High, |h| - 1);
    EachAt(h, Low, |h| - 1);
    LastFromEnd(Each(h, High), PERIOD, 1);
    LastFromEnd(Each(h, Low), PERIOD, 1);
    hide MaxOf, MinOf;
    var his, los := Last(Each(h, High), PERIOD), Last(Each(h, Low), PERIOD);
    assert his[|his| - 1] <= MaxOf(his) && los[|los| - 1] >= MinOf(los);
  }

  // The stochastic lies in 0 .. 100 and Williams %R is always 100 below it.
  lemma StochasticRange(h: seq<Bar>)
    requires StochK(h).Some?
    ensures WillR(h).Some? && StochK(h).value - WillR(h).value == 100.0
    ensures WellFormed(h[|h| - 1]) ==> 0.0 <= StochK(h).value <= 100.0
  {
    HighestHolds(h);
    hide Highest, Lowest;
    StochasticOf(h[|h| - 1].close, Highest(h), Lowest(h));
  }

  lemma Difference(k: real, r: real, w: real, kw: real, rw: real)
    requires w != 0.0 && k * w == kw && r * w == rw && kw - rw == 100.0 * w
    ensures k - r == 100.0
  {
    var d := k - r - 100.0;
    assert d * w == k * w - r * w - 100.0 * w;
    QuotientIs(0.0, w, d);
    QuotientIs(0.0, w, 0.0);
  }

  lemma StochasticOf(c: real, hi: real, lo: real)
    requires hi != lo
    ensures KOf(c, hi, lo).value - ROf(c, hi, lo).value == 100.0
    ensures lo <= c <= hi ==> 0.0 <= KOf(c, hi, lo).value <= 100.0
  {
    var w, k, r := hi - lo, KOf(c, hi, lo).value, ROf(c, hi, lo).value;
    assert k * w == 100.0 * (c - lo) && r * w == -100.0 * (hi - c);
    Difference(k, r, w, 100.0 * (c - lo), -100.0 * (hi - c));
    if lo <= c <= hi {
      QuotientAtLeast(100.0 * (c - lo), w, 0.0);
      QuotientAtMost(100.0 * (c - lo), w, 100.0);
    }
  }

  lemma BlendAbove(x: real, y: real, alpha: real, lo: real)
    requires 0.0 <= alpha <= 1.0 && lo <= x && lo <= y
    ensures lo <= Blend(x, y, alpha)
  {
    var beta, dx, dy := 1.0 - alpha, x - lo, y - lo;
    TimesMonotone(0.0, alpha, dx);
    TimesMonotone(0.0, beta, dy);
    assert Blend(x, y, alpha) == alpha * dx + beta * dy + lo;
  }

  lemma BlendNegated(x: real, y: real, alpha: real)
    ensures Blend(-x, -y, alpha) == -Blend(x, y, alpha)
  {
  }

  lemma BlendWithin(x: real, y: real, alpha: real, lo: real, hi: real)
    requires 0.0 <= alpha <= 1.0 && lo <= x <= hi && lo <= y <= hi
    ensures lo <= Blend(x, y, alpha) <= hi
  {
    hide Blend;
    BlendAbove(x, y, alpha, lo);
    BlendAbove(-x, -y, alpha, -hi);
    BlendNegated(x, y, alpha);
  }

  // An exponential average stays between any bounds of the closes seen.
  lemma {:induction false} EmaWithin(h: seq<Bar>, alpha: real, lo: real, hi: real)
    requires h != [] && 0.0 <= alpha <= 1.0
    requires forall i :: 0 <= i < |h| ==> lo <= h[i].close <= hi
    ensures lo <= Ema(h, alpha) <= hi
  {
    hide Blend;
    if |h| > 1 {
      EmaWithin(h[..|h| - 1], alpha, lo, hi);
      BlendWithin(h[|h| - 1].close, Ema(h[..|h| - 1], alpha), alpha, lo, hi);
    }
  }

  // MACD and its signal line stay within the width of the closes.
  lemma {:induction false} MacdWithin(h: seq<Bar>, lo: real, hi: real)
    requires h != []
    requires forall i :: 0 <= i < |h| ==> lo <= h[i].close <= hi
    ensures Abs(Macd(h)) <= hi - lo && Abs(MacdSignal(h)) <= hi - lo
  {
    hide Blend, Ema;
    EmaWithin(h, ALPHA_12, lo, hi);
    EmaWithin(h, ALPHA_26, lo, hi);
    if |h| > 1 {
      MacdWithin(h[..|h| - 1], lo, hi);
      BlendWithin(Macd(h), MacdSignal(h[..|h| - 1]), ALPHA_SIGNAL, lo - hi, hi - lo);
    }
  }

  // The growth over the last k bars, one bar after the other.
  function Growth(h: seq<Bar>, k: nat): real
    requires k < |h| && NonZeroCloses(h)
  {
    if k == 0 then 1.0 else Growth(h[..|h| - 1], k - 1) * (1.0 + Ret(h, 1).value)
  }

  lemma {:induction false} GrowthSpans(h: seq<Bar>, k: nat)
    requires k < |h| && NonZeroCloses(h)
    ensures Growth(h, k) * h[|h| - 1 - k].close == h[|h| - 1].close
  {
    if k > 0 {
      GrowthSpans(h[..|h| - 1], k - 1);
      OneGrowth(Growth(h[..|h| - 1], k - 1), h[|h| - 1 - k].close, h[|h| - 2].close, h[|h| - 1].close,
                Ret(h, 1).value);
    }
  }

  lemma OneGrowth(g: real, first: real, past: real, now: real, r: real)
    requires g * first == past && past != 0.0 && r == (now - past) / past
    ensures (g * (1.0 + r)) * first == now
  {
    assert r * past == now - past;
    assert (g * (1.0 + r)) * first == (1.0 + r) * (g * first);
  }

  // Returns over several bars compound the returns over one.
  lemma ReturnsCompound(h: seq<Bar>, k: nat)
    requires k < |h| && NonZeroCloses(h)
    ensures Ret(h, k) == Some(Growth(h, k) - 1.0)
  {
    GrowthSpans(h, k);
    hide Growth;
    var now, past, g := h[|h| - 1].close, h[|h| - 1 - k].close, Growth(h, k);
    assert (g - 1.0) * past == now - past;
    QuotientIs(now - past, past, g - 1.0);
  }

  function Square(x: real): real { x * x }

  lemma SquareSign(x: real)
    ensures Square(x) >= 0.0
    ensures Square(x) == 0.0 <==> x == 0.0
  {
    if x > 0.0 {
      PositiveSquare(x, Square(x));
    } else if x < 0.0 {
      assert Square(x) == (-x) * (-x);
      PositiveSquare(-x, Square(x));
    }
  }

  lemma PositiveSquare(y: real, square: real)
    requires y > 0.0 && square == y * y
    ensures square > 0.0
  {
    assert square / y == y;
  }

  function Deviations(xs: seq<real>, mid: real): (r: seq<real>)
    ensures |r| == |xs|
    ensures forall i :: 0 <= i < |xs| ==> r[i] == Square(xs[i] - mid)
  {
    seq(|xs|, i requires 0 <= i < |xs| => Square(xs[i] - mid))
  }

  // The population standard deviation.
  ghost predicate IsStd(std: real, xs: seq<real>)
    requires xs != []
  {
    std >= 0.0 && Square(std) == Mean(Deviations(xs, Mean(xs)))
  }

  ghost predicate AllEqual(xs: seq<real>)
  {
    forall i, j :: 0 <= i < |xs| && 0 <= j < |xs| ==> xs[i] == xs[j]
  }

  lemma {:induction false} SumWithin(xs: seq<real>, lo: real, hi: real)
    requires forall i :: 0 <= i < |xs| ==> lo <= xs[i] <= hi
    ensures Times(|xs|, lo) <= Sum(xs) <= Times(|xs|, hi)
  {
    if xs != [] { SumWithin(xs[..|xs| - 1], lo, hi); }
  }

  lemma MeanWithin(xs: seq<real>, lo: real, hi: real)
    requires xs != [] && forall i :: 0 <= i < |xs| ==> lo <= xs[i] <= hi
    ensures lo <= Mean(xs) <= hi
  {
    var n := |xs|;
    SumWithin(xs, lo, hi);
    TimesIsProduct(n, lo);
    TimesIsProduct(n, hi);
    hide Sum, Times;
    QuotientAtLeast(Sum(xs), n as real, lo);
    QuotientAtMost(Sum(xs), n as real, hi);
  }

  lemma MeanOfZero(xs: seq<real>)
    requires xs != [] && forall i :: 0 <= i < |xs| ==> xs[i] >= 0.0
    ensures Mean(xs) == 0.0 <==> forall i :: 0 <= i < |xs| ==> xs[i] == 0.0
  {
    SumNonNegative(xs);
    hide Sum;
    var n := |xs| as real;
    assert Mean(xs) * n == Sum(xs);
    if forall i :: 0 <= i < |xs| ==> xs[i] == 0.0 { MeanWithin(xs, 0.0, 0.0); }
  }

  // No deviation means that all values are the same.
  lemma FlatIff(std: real, xs: seq<real>)
    requires xs != [] && IsStd(std, xs)
    ensures std == 0.0 <==> AllEqual(xs)
  {
    var mid := Mean(xs);
    var ds := Deviations(xs, mid);
    SquareSign(std);
    forall i | 0 <= i < |xs| ensures ds[i] >= 0.0 && (ds[i] == 0.0 <==> xs[i] == mid) {
      SquareSign(xs[i] - mid);
    }
    MeanOfZero(ds);
    if AllEqual(xs) {
      MeanWithin(xs, xs[0], xs[0]);
      hide Mean, Square;
      forall i | 0 <= i < |xs| ensures ds[i] == 0.0 { assert xs[i] == xs[0]; }
    } else {
      hide Mean, Square;
      var i, j :| 0 <= i < |xs| && 0 <= j < |xs| && xs[i] != xs[j];
      assert ds[i] != 0.0 || ds[j] != 0.0;
    }
  }

  // The bands enclose their middle, which lies within the closes; they meet
  // exactly if the twenty closes are the same; and the position between them
  // is below 0 or above 1 exactly if the close is outside.
  lemma BandsMeaning(h: seq<Bar>, std: real, lo: real, hi: real)
    requires |h| >= BANDS && IsStd(std, BandWindow(h))
    requires forall i :: 0 <= i < |BandWindow(h)| ==> lo <= BandWindow(h)[i] <= hi
    ensures var x, close := Bollinger(h, std).value, h[|h| - 1].close;
      && x.lower <= x.mid <= x.upper && lo <= x.mid <= hi
      && (x.lower == x.upper <==> AllEqual(BandWindow(h)))
      && (x.pct < 0.0 <==> close < x.lower) && (x.pct > 1.0 <==> close > x.upper)
  {
    var w, close := BandWindow(h), h[|h| - 1].close;
    MeanWithin(w, lo, hi);
    FlatIff(std, w);
    NewestInWindow(h);
    if std == 0.0 { MeanWithin(w, close, close); }
    PctMeaning(close, Mean(w) + 2.0 * std, Mean(w) - 2.0 * std);
    hide Mean, BandWindow, IsStd, AllEqual, PctOf;
  }

  lemma NewestInWindow(h: seq<Bar>)
    requires |h| >= BANDS
    ensures |BandWindow(h)| == BANDS && BandWindow(h)[BANDS - 1] == h[|h| - 1].close
  {
    EachAt(h, Close, |h| - 1);
  }

  lemma PctMeaning(close: real, upper: real, lower: real)
    requires lower <= upper && (lower == upper ==> close == lower)
    ensures PctOf(close, upper, lower) < 0.0 <==> close < lower
    ensures PctOf(close, upper, lower) > 1.0 <==> close > upper
  {
    if lower < upper {
      var w := upper - lower;
      SignOfQuotient(lower - close, w);
      SignOfQuotient(close - upper, w);
      assert (lower - close) / w == -PctOf(close, upper, lower) by {
        QuotientIs(lower - close, w, -PctOf(close, upper, lower));
      }
      assert (close - upper) / w == PctOf(close, upper, lower) - 1.0 by {
        QuotientIs(close - upper, w, PctOf(close, upper, lower) - 1.0);
      }
    }
  }

  // ---------- the definitions in terms of bars ----------

  // Fourteen values, one for each of the last fourteen steps.
  ghost predicate OfRecent(h: seq<Bar>, f: (Bar, Bar) -> real, xs: seq<real>)
    requires |h| > 14
  {
    |xs| == 14 && forall i :: 0 <= i < 14 ==> xs[i] == f(h[|h| - 15 + i], h[|h| - 14 + i])
  }

  lemma RecentIs(h: seq<Bar>, f: (Bar, Bar) -> real, xs: seq<real>)
    requires |h| > 14 && OfRecent(h, f, xs)
    ensures Recent(h, f) == Sum(xs)
  {
    var window := Last(Steps(h, f), PERIOD);
    forall i | 0 <= i < 14 ensures window[i] == xs[i] {
      StepsAt(h, f, |h| - 15 + i);
    }
    assert window == xs;
  }

  ghost predicate IsChange(a: Bar, b: Bar, gain: real, loss: real)
  {
    gain >= 0.0 && loss >= 0.0 && gain - loss == b.close - a.close && (gain == 0.0 || loss == 0.0)
  }

  // The RSI from the gains and losses of the last fourteen closes.
  lemma RsiIs(h: seq<Bar>, gains: seq<real>, losses: seq<real>, g: real, l: real)
    requires |h| > 14 && |gains| == |losses| == 14 && g == Sum(gains) && l == Sum(losses)
    requires forall i :: 0 <= i < 14 ==> IsChange(h[|h| - 15 + i], h[|h| - 14 + i], gains[i], losses[i])
    ensures g >= 0.0 && l >= 0.0
    ensures Rsi(h) == Some(if l == 0.0 then 100.0 else 100.0 * g / (g + l))
  {
    hide Rsi, Recent, Sum;
    RecentIs(h, Gain, gains);
    RecentIs(h, Loss, losses);
    RsiFrom(h, g, l);
  }

  lemma RsiFrom(h: seq<Bar>, g: real, l: real)
    requires |h| > 14 && g == Recent(h, Gain) && l == Recent(h, Loss)
    ensures g >= 0.0 && l >= 0.0
    ensures Rsi(h) == Some(if l == 0.0 then 100.0 else 100.0 * g / (g + l))
  {
    RecentNonNegative(h, Gain);
    RecentNonNegative(h, Loss);
    hide Recent, Gain, Loss;
  }

  // The largest of the three distances of a bar that follows another.
  ghost predicate IsRange(a: Bar, b: Bar, r: real)
  {
    var x, y, z := b.high - b.low, b.high - a.close, b.low - a.close;
    x <= r && -r <= y <= r && -r <= z <= r && (r == x || r == y || r == -y || r == z || r == -z)
  }

  // The mean of the last fourteen true ranges, and its share of the close.
  lemma AtrIs(h: seq<Bar>, ranges: seq<real>)
    requires |h| > 14 && NonZeroCloses(h) && |ranges| == 14
    requires forall i :: 0 <= i < 14 ==> IsRange(h[|h| - 15 + i], h[|h| - 14 + i], ranges[i])
    ensures Atr(h) == Some(Sum(ranges) / 14.0)
    ensures AtrPct(h) == Some(Sum(ranges) / 14.0 / h[|h| - 1].close)
  {
    RecentIs(h, TrueRange, ranges);
    hide Recent, Sum;
  }

  // A movement counts if it is upwards, and larger than the other one.
  ghost predicate IsMovement(move: real, other: real, m: real)
  {
    m == if move > other && move > 0.0 then move else 0.0
  }

  ghost predicate AreMovements(h: seq<Bar>, plus: seq<real>, minus: seq<real>, ranges: seq<real>)
    requires |h| > 14
  {
    |plus| == |minus| == |ranges| == 14 && forall i :: 0 <= i < 14 ==>
      var a, b := h[|h| - 15 + i], h[|h| - 14 + i];
      && IsMovement(b.high - a.high, a.low - b.low, plus[i])
      && IsMovement(a.low - b.low, b.high - a.high, minus[i]) && IsRange(a, b, ranges[i])
  }

  // DX and both directional indicators from the movements and true ranges of
  // the last fourteen steps.
  lemma AdxIs(h: seq<Bar>, plus: seq<real>, minus: seq<real>, ranges: seq<real>, p: real, m: real, t: real)
    requires |h| > 14 && AreMovements(h, plus, minus, ranges)
    requires p == Sum(plus) && m == Sum(minus) && t == Sum(ranges)
    ensures p >= 0.0 && m >= 0.0
    ensures AdxAt(h) == if t > 0.0 then Some(Adx(if p + m > 0.0 then 100.0 * Abs(p - m) / (p + m) else 0.0,
                                                 100.0 * p / t, 100.0 * m / t)) else None
  {
    hide *;
    MovementSums(h, plus, minus, ranges);
    AdxFrom(h, p, m, t);
  }

  lemma AdxFrom(h: seq<Bar>, p: real, m: real, t: real)
    requires |h| > 14 && p == Recent(h, DmPlus) && m == Recent(h, DmMinus) && t == Recent(h, TrueRange)
    ensures p >= 0.0 && m >= 0.0
    ensures AdxAt(h) == if t > 0.0 then Some(Adx(if p + m > 0.0 then 100.0 * Abs(p - m) / (p + m) else 0.0,
                                                 100.0 * p / t, 100.0 * m / t)) else None
  {
    RecentNonNegative(h, DmPlus);
    RecentNonNegative(h, DmMinus);
    hide Recent, DmPlus, DmMinus, TrueRange;
  }

  lemma MovementSums(h: seq<Bar>, plus: seq<real>, minus: seq<real>, ranges: seq<real>)
    requires |h| > 14 && AreMovements(h, plus, minus, ranges)
    ensures Recent(h, DmPlus) == Sum(plus) && Recent(h, DmMinus) == Sum(minus)
    ensures Recent(h, TrueRange) == Sum(ranges)
  {
    hide Recent, Sum;
    RecentIs(h, DmPlus, plus) by { hide TrueRange; }
    RecentIs(h, DmMinus, minus) by { hide TrueRange; }
    RecentIs(h, TrueRange, ranges) by { hide DmPlus, DmMinus; }
  }

  // Both oscillators from the extremes of the last fourteen bars.
  lemma StochasticIs(h: seq<Bar>, hi: real, lo: real)
    requires |h| >= 14
    requires forall i :: |h| - 14 <= i < |h| ==> lo <= h[i].low && h[i].high <= hi
    requires exists i :: |h| - 14 <= i < |h| && h[i].high == hi
    requires exists i :: |h| - 14 <= i < |h| && h[i].low == lo
    ensures var close := h[|h| - 1].close;
      && StochK(h) == (if hi != lo then Some(100.0 * (close - lo) / (hi - lo)) else None)
      && WillR(h) == (if hi != lo then Some(-100.0 * (hi - close) / (hi - lo)) else None)
  {
    hide Highest, Lowest;
    HighestIs(h, hi);
    LowestIs(h, lo);
  }

  lemma HighestIs(h: seq<Bar>, hi: real)
    requires |h| >= 14 && forall i :: |h| - 14 <= i < |h| ==> h[i].high <= hi
    requires exists i :: |h| - 14 <= i < |h| && h[i].high == hi
    ensures Highest(h) == hi
  {
    hide Each, MaxOf;
    var n := |h| - 14;
    var his := Last(Each(h, High), PERIOD);
    forall i | 0 <= i < 14 ensures his[i] == h[n + i].high { EachAt(h, High, n + i); }
    var i :| n <= i < |h| && h[i].high == hi;
    assert his[i - n] == hi;
  }

  lemma LowestIs(h: seq<Bar>, lo: real)
    requires |h| >= 14 && forall i :: |h| - 14 <= i < |h| ==> lo <= h[i].low
    requires exists i :: |h| - 14 <= i < |h| && h[i].low == lo
    ensures Lowest(h) == lo
  {
    hide Each, MinOf;
    var n := |h| - 14;
    var los := Last(Each(h, Low), PERIOD);
    forall i | 0 <= i < 14 ensures los[i] == h[n + i].low { EachAt(h, Low, n + i); }
    var i :| n <= i < |h| && h[i].low == lo;
    assert los[i - n] == lo;
  }

  // The volume of a bar counts for a higher close and against a lower one.
  lemma ObvIs(h: seq<Bar>)
    ensures |h| < 2 ==> Obv(h) == 0.0
    ensures |h| >= 2 ==>
      var a, b := h[|h| - 2], h[|h| - 1];
      Obv(h) == Obv(h[..|h| - 1])
                + (if a.close < b.close then b.volume else if b.close < a.close then -b.volume else 0.0)
  {
    if |h| >= 2 { SumAppend(Steps(h[..|h| - 1], SignedVolume), SignedVolume(h[|h| - 2], h[|h| - 1])); }
  }

  // The averages start at the first close and follow each further one.
  lemma AveragesAre(h: seq<Bar>)
    requires h != []
    ensures |h| == 1 ==> AveragesOf(h) == Averages(h[0].close, h[0].close, 0.0, 0.0, 0.0)
    ensures |h| > 1 ==>
      var close, p, a := h[|h| - 1].close, AveragesOf(h[..|h| - 1]), AveragesOf(h);
      && a.ema12 == 0.1538 * close + 0.8462 * p.ema12
      && a.ema26 == 0.0741 * close + 0.9259 * p.ema26
      && a.macd == a.ema12 - a.ema26
      && a.macdSignal == 0.2 * a.macd + 0.8 * p.macdSignal
      && a.macdHist == a.macd - a.macdSignal
  {
  }

  ghost predicate IsReturn(h: seq<Bar>, k: nat, r: Option<real>)
  {
    if |h| <= k then r.None?
    else r.Some? && r.value * h[|h| - 1 - k].close == h[|h| - 1].close - h[|h| - 1 - k].close
  }

  lemma ReturnsAre(h: seq<Bar>)
    requires NonZeroCloses(h)
    ensures var r := ReturnsOf(h);
      IsReturn(h, 1, r.ret1) && IsReturn(h, 5, r.ret5) && IsReturn(h, 15, r.ret15) && IsReturn(h, 60, r.ret60)
  {
    ReturnIs(h, 1);
    ReturnIs(h, 5);
    ReturnIs(h, 15);
    ReturnIs(h, 60);
    hide Ret, IsReturn;
  }

  lemma ReturnIs(h: seq<Bar>, k: nat)
    requires NonZeroCloses(h)
    ensures IsReturn(h, k, Ret(h, k))
  {
  }

  // The bands lie two deviations around the mean of the last twenty closes.
  lemma BandsAre(h: seq<Bar>, std: real, window: seq<real>)
    requires |h| >= 20 && |window| == 20
    requires forall i :: 0 <= i < 20 ==> window[i] == h[|h| - 20 + i].close
    ensures var mid, close := Sum(window) / 20.0, h[|h| - 1].close;
      var upper, lower := mid + 2.0 * std, mid - 2.0 * std;
      Bollinger(h, std) == Some(Bands(upper, lower, mid, if mid > 0.0 then 4.0 * std / mid else 0.0,
                                      if upper != lower then (close - lower) / (upper - lower) else 0.5))
  {
    forall i | 0 <= i < 20 ensures BandWindow(h)[i] == window[i] {
      EachAt(h, Close, |h| - 20 + i);
    }
    assert BandWindow(h) == window;
    hide Sum;
  }

  // Before there is enough of a history there is no value.
  lemma TooShort(h: seq<Bar>, std: real)
    requires h != [] && NonZeroCloses(h)
    ensures |h| <= 14 ==> Rsi(h).None? && Atr(h).None? && AtrPct(h).None? && AdxAt(h).None?
    ensures |h| < 14 ==> StochK(h).None? && WillR(h).None?
    ensures |h| < 20 ==> Bollinger(h, std).None?
  {
    hide Recent;
  }

  // ---------- the arithmetic of the extractor ----------

  lemma RsiFormula(g: real, l: real, ag: real, al: real)
    requires g >= 0.0 && l > 0.0 && ag * 14.0 == g && al * 14.0 == l
    ensures al > 0.0 && 1.0 + ag / al > 0.0
    ensures 100.0 - 100.0 / (1.0 + ag / al) == 100.0 * g / (g + l)
  {
    var rs := ag / al;
    assert rs * al == ag;
    assert rs * l == g;
    QuotientAtLeast(ag, al, 0.0);
    RsiShare(g, l, rs, 100.0 / (1.0 + rs));
  }

  lemma RsiShare(g: real, l: real, rs: real, x: real)
    requires g >= 0.0 && l > 0.0 && rs >= 0.0 && rs * l == g && x * (1.0 + rs) == 100.0
    ensures 100.0 - x == 100.0 * g / (g + l)
  {
    assert (1.0 + rs) * l == l + g;
    assert x * (l + g) == x * (1.0 + rs) * l == 100.0 * l;
    QuotientIs(100.0 * g, g + l, 100.0 - x);
  }

  // A common factor of both terms cancels.
  lemma Cancel(x: real, w: real, k: real, x': real, w': real)
    requires k > 0.0 && w > 0.0 && x' * k == x && w' * k == w
    ensures w' > 0.0 && 100.0 * x' / w' == 100.0 * x / w
  {
    var q := 100.0 * x' / w';
    assert q * w' == 100.0 * x';
    assert q * w == q * w' * k == 100.0 * x' * k == 100.0 * x;
    QuotientIs(100.0 * x, w, q);
  }

  lemma ScaleBack(p: real, t: real, dp: real)
    requires t > 0.0 && dp == 100.0 * p / t
    ensures dp * (t / 100.0) == p
  {
    assert dp * t == 100.0 * p;
  }

  lemma AbsScaled(x: real, y: real, k: real, d: real)
    requires k > 0.0 && d == Abs(x - y)
    ensures d * k == Abs(x * k - y * k)
  {
    if x >= y { TimesMonotone(y, x, k); } else { TimesMonotone(x, y, k); }
  }

  lemma DxFormula(p: real, m: real, t: real, dp: real, dm: real)
    requires p >= 0.0 && m >= 0.0 && t > 0.0 && dp == 100.0 * p / t && dm == 100.0 * m / t
    ensures dp + dm > 0.0 <==> p + m > 0.0
    ensures p + m > 0.0 ==> 100.0 * Abs(dp - dm) / (dp + dm) == 100.0 * Abs(p - m) / (p + m)
  {
    ScaleBack(p, t, dp);
    ScaleBack(m, t, dm);
    SameRatio(p, m, t / 100.0, dp, dm);
  }

  lemma SameRatio(p: real, m: real, k: real, dp: real, dm: real)
    requires p >= 0.0 && m >= 0.0 && k > 0.0 && dp * k == p && dm * k == m
    ensures dp + dm > 0.0 <==> p + m > 0.0
    ensures p + m > 0.0 ==> 100.0 * Abs(dp - dm) / (dp + dm) == 100.0 * Abs(p - m) / (p + m)
  {
    assert (dp + dm) * k == p + m;
    AbsScaled(dp, dm, k, Abs(dp - dm));
    if p + m > 0.0 {
      Cancel(Abs(p - m), p + m, k, Abs(dp - dm), dp + dm);
    }
  }

  // ---------- windows over the series ----------

  lemma SeriesGrow(h: seq<Bar>, b: Bar)
    ensures Each(h + [b], Close) == Each(h, Close) + [b.close]
    ensures Each(h + [b], High) == Each(h, High) + [b.high]
    ensures Each(h + [b], Low) == Each(h, Low) + [b.low]
    ensures Each(h + [b], Volume) == Each(h, Volume) + [b.volume]
  {
    assert (h + [b])[..|h|] == h;
  }

  // What a window of bar values has at its end.
  lemma Newest(h: seq<Bar>, f: Bar -> real)
    requires h != []
    ensures var w := Last(Each(h, f), DEPTH);
      && |w| >= 1 && w[|w| - 1] == f(h[|h| - 1])
      && (|w| >= 2 <==> |h| >= 2)
      && (|h| >= 2 ==> w[|w| - 2] == f(h[|h| - 2]))
  {
    EachAt(h, f, |h| - 1);
    if |h| >= 2 { EachAt(h, f, |h| - 2); }
  }

  // The close k bars back.
  lemma CloseBack(h: seq<Bar>, k: nat)
    requires k < DEPTH
    ensures var w := Last(Each(h, Close), DEPTH);
      (|w| >= k + 1 <==> |h| > k) && (|h| > k ==> w[|w| - 1 - k] == h[|h| - 1 - k].close)
  {
    if |h| > k {
      EachAt(h, Close, |h| - 1 - k);
      LastFromEnd(Each(h, Close), DEPTH, k + 1);
    }
  }

  lemma StepPushed(h: seq<Bar>, f: (Bar, Bar) -> real)
    requires h != []
    ensures Last(Steps(h, f), PERIOD)
         == if |h| == 1 then Last(Steps(h[..|h| - 1], f), PERIOD)
            else Push(Last(Steps(h[..|h| - 1], f), PERIOD), f(h[|h| - 2], h[|h| - 1]), PERIOD)
  {
    if |h| >= 2 { PushIsLast(Steps(h[..|h| - 1], f), f(h[|h| - 2], h[|h| - 1]), PERIOD); }
  }

  lemma FullWindow(h: seq<Bar>, f: (Bar, Bar) -> real)
    ensures |Last(Steps(h, f), PERIOD)| == PERIOD <==> |h| > PERIOD
    ensures Recent(h, f) == Sum(Last(Steps(h, f), PERIOD))
  {
  }

  method RsiValue(gains: seq<real>, losses: seq<real>) returns (rsi: real)
    requires |gains| == |losses| == PERIOD && Sum(gains) >= 0.0 && Sum(losses) >= 0.0
    ensures rsi == RsiOf(Sum(gains), Sum(losses))
  {
    hide Sum;
    var avgGain, avgLoss := Mean(gains), Mean(losses);
    assert avgGain * 14.0 == Sum(gains) && avgLoss * 14.0 == Sum(losses);
    if avgLoss > 0.0 {
      RsiFormula(Sum(gains), Sum(losses), avgGain, avgLoss);
      var rs := avgGain / avgLoss;
      rsi := 100.0 - 100.0 / (1.0 + rs);
    } else {
      rsi := 100.0;
    }
  }

  function ShareIn(x: Option<real>, close: real): Option<real>
    requires close != 0.0
  {
    if x.Some? then Some(x.value / close) else None
  }

  method ShareOf(x: Option<real>, close: real) returns (share: Option<real>)
    requires close != 0.0
    ensures share == ShareIn(x, close)
  {
    share := None;
    if x.Some? {
      share := Some(x.value / close);
    }
  }

  method BandsValue(close: real, sma: real, std: real) returns (bands: Bands)
    ensures bands == BandsOf(close, sma, std)
  {
    var upper := sma + 2.0 * std;
    var lower := sma - 2.0 * std;
    var width := if sma > 0.0 then 4.0 * std / sma else 0.0;
    var pct := if upper != lower then (close - lower) / (upper - lower) else 0.5;
    bands := Bands(upper, lower, sma, width, pct);
  }

  method StochasticValue(close: real, hi: real, lo: real) returns (k: Option<real>, r: Option<real>)
    ensures k == KOf(close, hi, lo) && r == ROf(close, hi, lo)
  {
    k, r := None, None;
    if hi != lo {
      k := Some(100.0 * (close - lo) / (hi - lo));
      r := Some(-100.0 * (hi - close) / (hi - lo));
    }
  }

  method AdxValue(plus: seq<real>, minus: seq<real>, tr: seq<real>) returns (adx: Option<Adx>)
    requires |plus| == |minus| == |tr| == PERIOD && Sum(plus) >= 0.0 && Sum(minus) >= 0.0
    ensures adx == if Sum(tr) > 0.0 then Some(AdxOf(Sum(plus), Sum(minus), Sum(tr))) else None
  {
    hide Sum;
    var atr := Mean(tr);
    var p, m := Mean(plus), Mean(minus);
    assert atr * 14.0 == Sum(tr) && p * 14.0 == Sum(plus) && m * 14.0 == Sum(minus);
    adx := None;
    if atr > 0.0 {
      Cancel(Sum(plus), Sum(tr), 14.0, p, atr);
      Cancel(Sum(minus), Sum(tr), 14.0, m, atr);
      var diPlus := 100.0 * p / atr;
      var diMinus := 100.0 * m / atr;
      DxFormula(Sum(plus), Sum(minus), Sum(tr), diPlus, diMinus);
      var dx := if diPlus + diMinus > 0.0 then 100.0 * Abs(diPlus - diMinus) / (diPlus + diMinus) else 0.0;
      adx := Some(Adx(dx, diPlus, diMinus));
    }
  }

  // ---------- the extractor ----------

  class FeatureExtractor {
    var closes: seq<real>
    var highs: seq<real>
    var lows: seq<real>
    var bbWindow: seq<real>
    var volumeWindow: seq<real>
    var gains: seq<real>
    var losses: seq<real>
    var ema12: Option<real>
    var ema26: Option<real>
    var macdSignal: Option<real>
    var trWindow: seq<real>
    var dmPlus: seq<real>
    var dmMinus: seq<real>
    var trAdx: seq<real>
    var obv: real
    var prevClose: Option<real>

    // The windows hold the newest values of the history h.
    ghost predicate Windows(h: seq<Bar>)
      reads this`closes, this`highs, this`lows, this`bbWindow, this`volumeWindow
    {
      && closes == Last(Each(h, Close), DEPTH)
      && highs == Last(Each(h, High), DEPTH)
      && lows == Last(Each(h, Low), DEPTH)
      && bbWindow == Last(Each(h, Close), BANDS)
      && volumeWindow == Last(Each(h, Volume), VOLUMES)
    }

    ghost predicate StepWindows(h: seq<Bar>)
      reads this`gains, this`losses, this`trWindow, this`dmPlus, this`dmMinus, this`trAdx
    {
      && gains == Last(Steps(h, Gain), PERIOD)
      && losses == Last(Steps(h, Loss), PERIOD)
      && trWindow == Last(Steps(h, TrueRange), PERIOD)
      && dmPlus == Last(Steps(h, DmPlus), PERIOD)
      && dmMinus == Last(Steps(h, DmMinus), PERIOD)
      && trAdx == Last(Steps(h, TrueRange), PERIOD)
    }

    ghost predicate Running(h: seq<Bar>)
      reads this`ema12, this`ema26, this`macdSignal, this`obv, this`prevClose
    {
      && ema12 == (if h == [] then None else Some(Ema(h, ALPHA_12)))
      && ema26 == (if h == [] then None else Some(Ema(h, ALPHA_26)))
      && macdSignal == (if h == [] then None else Some(MacdSignal(h)))
      && obv == Obv(h)
      && prevClose == (if h == [] then None else Some(h[|h| - 1].close))
    }

    // The state is a function of the bars seen so far.
    ghost predicate Follows(h: seq<Bar>)
      reads this
    {
      Windows(h) && StepWindows(h) && Running(h)
    }

    constructor ()
      ensures Follows([])
    {
      closes, highs, lows, bbWindow, volumeWindow, gains, losses := [], [], [], [], [], [], [];
      trWindow, dmPlus, dmMinus, trAdx := [], [], [], [];
      ema12, ema26, macdSignal, obv, prevClose := None, None, None, 0.0, None;
    }

    method PushBar(b: Bar, ghost h: seq<Bar>)
      requires Windows(h)
      modifies this`closes, this`highs, this`lows, this`bbWindow, this`volumeWindow
      ensures Windows(h + [b])
    {
      hide Push, Last, Each;
      SeriesGrow(h, b);
      PushIsLast(Each(h, Close), b.close, DEPTH);
      PushIsLast(Each(h, High), b.high, DEPTH);
      PushIsLast(Each(h, Low), b.low, DEPTH);
      PushIsLast(Each(h, Close), b.close, BANDS);
      PushIsLast(Each(h, Volume), b.volume, VOLUMES);
      closes := Push(closes, b.close, DEPTH);
      highs := Push(highs, b.high, DEPTH);
      lows := Push(lows, b.low, DEPTH);
      volumeWindow := Push(volumeWindow, b.volume, VOLUMES);
      bbWindow := Push(bbWindow, b.close, BANDS);
    }

    method UpdateRsi(ghost h: seq<Bar>) returns (rsi: Option<real>)
      requires h != [] && Windows(h)
      requires gains == Last(Steps(h[..|h| - 1], Gain), PERIOD) && losses == Last(Steps(h[..|h| - 1], Loss), PERIOD)
      modifies this`gains, this`losses
      ensures gains == Last(Steps(h, Gain), PERIOD) && losses == Last(Steps(h, Loss), PERIOD)
      ensures rsi == Rsi(h)
    {
      hide Steps, Each, Last, Push, RsiOf, Recent;
      Newest(h, Close);
      StepPushed(h, Gain);
      StepPushed(h, Loss);
      RecentNonNegative(h, Gain);
      RecentNonNegative(h, Loss);
      rsi := None;
      if |closes| >= 2 {
        var change := closes[|closes| - 1] - closes[|closes| - 2];
        gains := Push(gains, Max(change, 0.0), PERIOD);
        losses := Push(losses, Max(-change, 0.0), PERIOD);
        FullWindow(h, Gain);
        FullWindow(h, Loss);
        if |gains| == PERIOD {
          var r := RsiValue(gains, losses);
          rsi := Some(r);
        }
      }
    }

    method UpdateEmas(ghost h: seq<Bar>) returns (averages: Averages)
      requires h != [] && Windows(h)
      requires ema12 == (if |h| == 1 then None else Some(Ema(h[..|h| - 1], ALPHA_12)))
      requires ema26 == (if |h| == 1 then None else Some(Ema(h[..|h| - 1], ALPHA_26)))
      requires macdSignal == (if |h| == 1 then None else Some(MacdSignal(h[..|h| - 1])))
      modifies this`ema12, this`ema26, this`macdSignal
      ensures averages == AveragesOf(h)
      ensures ema12 == Some(averages.ema12) && ema26 == Some(averages.ema26)
      ensures macdSignal == Some(averages.macdSignal)
    {
      hide Each, Last, Blend;
      Newest(h, Close);
      var current := closes[|closes| - 1];
      if ema12.None? {
        ema12 := Some(current);
        ema26 := Some(current);
      } else {
        ema12 := Some(Blend(current, ema12.value, ALPHA_12));
        ema26 := Some(Blend(current, ema26.value, ALPHA_26));
      }
      var macd := ema12.value - ema26.value;
      if macdSignal.None? {
        macdSignal := Some(macd);
      } else {
        macdSignal := Some(Blend(macd, macdSignal.value, ALPHA_SIGNAL));
      }
      var signal := macdSignal.value;
      averages := Averages(ema12.value, ema26.value, macd, signal, macd - signal);
    }

    // The true range of the newest bar.
    method NewestRange(ghost h: seq<Bar>) returns (tr: real)
      requires |h| >= 2 && Windows(h)
      ensures |closes| >= 2 && |highs| >= 2 && |lows| >= 2
      ensures tr == TrueRange(h[|h| - 2], h[|h| - 1])
    {
      hide Each, Last;
      Newest(h, Close);
      Newest(h, High);
      Newest(h, Low);
      tr := Max(highs[|highs| - 1] - lows[|lows| - 1],
                Max(Abs(highs[|highs| - 1] - closes[|closes| - 2]), Abs(lows[|lows| - 1] - closes[|closes| - 2])));
    }

    method UpdateAtr(ghost h: seq<Bar>) returns (atr: Option<real>)
      requires h != [] && Windows(h) && trWindow == Last(Steps(h[..|h| - 1], TrueRange), PERIOD)
      modifies this`trWindow
      ensures trWindow == Last(Steps(h, TrueRange), PERIOD) && atr == Atr(h)
    {
      hide Steps, Each, Last, Push, TrueRange;
      Newest(h, Close);
      Newest(h, High);
      Newest(h, Low);
      StepPushed(h, TrueRange);
      FullWindow(h, TrueRange);
      atr := None;
      if |highs| >= 2 && |lows| >= 2 && |closes| >= 2 {
        var tr := NewestRange(h);
        trWindow := Push(trWindow, tr, PERIOD);
        if |trWindow| == PERIOD {
          atr := Some(Mean(trWindow));
        }
      }
    }

    method UpdateAdx(ghost h: seq<Bar>) returns (adx: Option<Adx>)
      requires h != [] && Windows(h)
      requires dmPlus == Last(Steps(h[..|h| - 1], DmPlus), PERIOD)
      requires dmMinus == Last(Steps(h[..|h| - 1], DmMinus), PERIOD)
      requires trAdx == Last(Steps(h[..|h| - 1], TrueRange), PERIOD)
      modifies this`dmPlus, this`dmMinus, this`trAdx
      ensures dmPlus == Last(Steps(h, DmPlus), PERIOD) && dmMinus == Last(Steps(h, DmMinus), PERIOD)
      ensures trAdx == Last(Steps(h, TrueRange), PERIOD)
      ensures adx == AdxAt(h)
    {
      hide Steps, Each, Last, Push, TrueRange, AdxOf, Recent;
      Newest(h, Close);
      Newest(h, High);
      Newest(h, Low);
      StepPushed(h, DmPlus);
      StepPushed(h, DmMinus);
      StepPushed(h, TrueRange);
      FullWindow(h, DmPlus);
      FullWindow(h, DmMinus);
      FullWindow(h, TrueRange);
      RecentNonNegative(h, DmPlus);
      RecentNonNegative(h, DmMinus);
      adx := None;
      if |highs| >= 2 && |lows| >= 2 {
        var upMove := highs[|highs| - 1] - highs[|highs| - 2];
        var downMove := lows[|lows| - 2] - lows[|lows| - 1];
        var plus := if upMove > downMove then Max(upMove, 0.0) else 0.0;
        var minus := if downMove > upMove then Max(downMove, 0.0) else 0.0;
        var tr := NewestRange(h);
        dmPlus := Push(dmPlus, plus, PERIOD);
        dmMinus := Push(dmMinus, minus, PERIOD);
        trAdx := Push(trAdx, tr, PERIOD);
        if |dmPlus| == PERIOD {
          adx := AdxValue(dmPlus, dmMinus, trAdx);
        }
      }
    }

    method UpdateObv(b: Bar, ghost h: seq<Bar>)
      requires h != [] && b == h[|h| - 1]
      requires obv == Obv(h[..|h| - 1]) && prevClose == (if |h| == 1 then None else Some(h[|h| - 2].close))
      modifies this`obv, this`prevClose
      ensures obv == Obv(h) && prevClose == Some(b.close)
    {
      if |h| >= 2 { SumAppend(Steps(h[..|h| - 1], SignedVolume), SignedVolume(h[|h| - 2], b)); }
      hide Sum;
      if prevClose.Some? {
        if b.close > prevClose.value {
          obv := obv + b.volume;
        } else if b.close < prevClose.value {
          obv := obv - b.volume;
        }
      }
      prevClose := Some(b.close);
    }

    method Stochastic(b: Bar, ghost h: seq<Bar>) returns (stochK: Option<real>, willR: Option<real>)
      requires h != [] && b == h[|h| - 1] && Windows(h)
      ensures stochK == StochK(h) && willR == WillR(h)
    {
      LastOfLast(Each(h, High), PERIOD, DEPTH);
      LastOfLast(Each(h, Low), PERIOD, DEPTH);
      assert |highs| >= PERIOD <==> |h| >= PERIOD;
      assert |lows| >= PERIOD <==> |h| >= PERIOD;
      hide Each, Last, MaxOf, MinOf, KOf, ROf;
      stochK, willR := None, None;
      if |highs| >= PERIOD && |lows| >= PERIOD {
        var high14 := MaxOf(Last(highs, PERIOD));
        var low14 := MinOf(Last(lows, PERIOD));
        stochK, willR := StochasticValue(b.close, high14, low14);
      }
    }

    method UpdateSteps(b: Bar, ghost h: seq<Bar>)
      returns (rsi: Option<real>, atr: Option<real>, atrPct: Option<real>, adx: Option<Adx>)
      requires h != [] && b == h[|h| - 1] && NonZeroCloses(h) && Windows(h) && StepWindows(h[..|h| - 1])
      modifies this`gains, this`losses, this`trWindow, this`dmPlus, this`dmMinus, this`trAdx
      ensures StepWindows(h)
      ensures rsi == Rsi(h) && atr == Atr(h) && atrPct == AtrPct(h) && adx == AdxAt(h)
    {
      hide Each, Steps, Last, Rsi, Atr, AdxAt, ShareIn;
      rsi := UpdateRsi(h);
      atr := UpdateAtr(h);
      atrPct := ShareOf(atr, b.close);
      adx := UpdateAdx(h);
    }

    method UpdateRunning(b: Bar, ghost h: seq<Bar>) returns (averages: Averages)
      requires h != [] && b == h[|h| - 1] && Windows(h) && Running(h[..|h| - 1])
      modifies this`ema12, this`ema26, this`macdSignal, this`obv, this`prevClose
      ensures Running(h) && obv == Obv(h) && averages == AveragesOf(h)
    {
      hide Each, Last, Ema, MacdSignal, Macd, Obv;
      averages := UpdateEmas(h);
      UpdateObv(b, h);
    }

    method ReturnOver(k: nat, ghost h: seq<Bar>) returns (r: Option<real>)
      requires 1 <= k < DEPTH && h != [] && Windows(h) && NonZeroCloses(h)
      ensures r == Ret(h, k)
    {
      CloseBack(h, 0);
      CloseBack(h, k);
      hide Each, Last, Relative;
      r := None;
      if |closes| >= k + 1 {
        r := Some(Relative(closes[|closes| - 1], closes[|closes| - 1 - k]));
      }
    }

    method SimpleReturns(ghost h: seq<Bar>) returns (r: Returns)
      requires h != [] && Windows(h) && NonZeroCloses(h)
      ensures r == ReturnsOf(h)
    {
      hide Ret, Windows;
      var ret1 := ReturnOver(1, h);
      var ret5 := ReturnOver(5, h);
      var ret15 := ReturnOver(15, h);
      var ret60 := ReturnOver(60, h);
      r := Returns(ret1, ret5, ret15, ret60);
    }

    method BollingerBands(std: real, ghost h: seq<Bar>) returns (bands: Option<Bands>)
      requires h != [] && Windows(h)
      ensures bands == Bollinger(h, std)
    {
      Newest(h, Close);
      assert |bbWindow| == BANDS <==> |h| >= BANDS;
      hide Each, Last, Mean, BandsOf;
      bands := None;
      if |bbWindow| == BANDS {
        var x := BandsValue(closes[|closes| - 1], Mean(bbWindow), std);
        bands := Some(x);
      }
    }

    // It is never there: the window is too short.
    method VolumeRatio(ghost h: seq<Bar>) returns (ratio: Option<real>)
      requires Windows(h)
      ensures |volumeWindow| <= VOLUMES < RATIO_NEEDS
      ensures ratio == None
    {
      ratio := None;
      if |volumeWindow| >= RATIO_NEEDS {
        assert false;
      }
    }

    method ReadWindows(b: Bar, std: real, ghost h: seq<Bar>) returns (read: Read)
      requires h != [] && b == h[|h| - 1] && Windows(h) && NonZeroCloses(h)
      ensures read == ReadOf(h, std)
    {
      hide Windows, NonZeroCloses, ReturnsOf, Bollinger, StochK, WillR;
      var change := SimpleReturns(h);
      var bands := BollingerBands(std, h);
      var volRatio := VolumeRatio(h);
      var stochK, willR := Stochastic(b, h);
      read := Read(change, bands, volRatio, stochK, willR);
    }

    method UpdateState(b: Bar, ghost h: seq<Bar>) returns (carried: Carried)
      requires h != [] && b == h[|h| - 1] && NonZeroCloses(h)
      requires Windows(h) && StepWindows(h[..|h| - 1]) && Running(h[..|h| - 1])
      modifies this`gains, this`losses, this`trWindow, this`dmPlus, this`dmMinus, this`trAdx
      modifies this`ema12, this`ema26, this`macdSignal, this`obv, this`prevClose
      ensures StepWindows(h) && Running(h)
      ensures carried == CarriedOf(h)
    {
      hide Windows, StepWindows, Running, NonZeroCloses, Rsi, Atr, AtrPct, AdxAt, AveragesOf, Obv;
      var rsi, atr, atrPct, adx := UpdateSteps(b, h);
      var averages := UpdateRunning(b, h);
      carried := Carried(rsi, averages, atr, atrPct, adx, obv);
    }

    // One more bar: the state follows the longer history, and the indicators
    // are those that the definitions give for it.
    method Update(b: Bar, std: real, ghost h: seq<Bar>) returns (ind: Indicators)
      requires Follows(h) && NonZeroCloses(h + [b])
      modifies this
      ensures Follows(h + [b])
      ensures ind == IndicatorsOf(h + [b], std)
    {
      ghost var h' := h + [b];
      assert h'[..|h'| - 1] == h;
      hide Windows, StepWindows, Running, NonZeroCloses, CarriedOf, ReadOf;
      PushBar(b, h);
      var carried := UpdateState(b, h');
      var read := ReadWindows(b, std, h');
      ind := Indicators(carried, read);
    }
  }
}
