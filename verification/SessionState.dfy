/** The session part of the incremental candle state: running volume, VWAP and
    range of the current day, reset when the date of a candle changes. */
module SessionState {
  import opened Options
  import opened RealMath

  datatype Candle = Candle(timestamp: int, open: real, high: real, low: real, close: real, volume: real)

  const DAY_MS := 86400000

  function Date(c: Candle): int { c.timestamp / DAY_MS }

  // Dates count the days of 86,400 seconds since the epoch, also before it.
  lemma DateIff(c: Candle, day: int)
    ensures Date(c) == day <==> day * 86400000 <= c.timestamp < (day + 1) * 86400000
  {
  }

  function TypicalPrice(c: Candle): real { (c.high + c.low + c.close) / 3.0 }

  // The price turned over: typical price times volume.
  function VwapComponent(c: Candle): real { TypicalPrice(c) * c.volume }

  predicate WellFormed(c: Candle)
  {
    0.0 < c.low <= c.close <= c.high && c.volume >= 0.0
  }

  // The low starts at infinity, which is None here.
  datatype Session = Session(vwap: real, high: real, low: Option<real>, open: real, volume: real, day: int)

  const INITIAL := Session(0.0, 0.0, None, 0.0, 0.0, 0)

  function CheckNewDay(s: Session, c: Candle): Session
  {
    if s.day != Date(c) then Session(0.0, 0.0, None, c.open, 0.0, Date(c)) else s
  }

  function Vwap(s: Session, c: Candle): real
    requires s.volume >= 0.0 && c.volume >= 0.0
  {
    if s.volume == 0.0 then TypicalPrice(c)
    else (s.vwap * s.volume + VwapComponent(c)) / (s.volume + c.volume)
  }

  function Lower(low: Option<real>, x: real): real { if low.None? then x else Min(low.value, x) }

  function UpdateSession(s: Session, c: Candle): Session
    requires s.volume >= 0.0 && c.volume >= 0.0
  {
    s.(vwap := Vwap(s, c), volume := s.volume + c.volume,
       high := Max(s.high, c.high), low := Some(Lower(s.low, c.low)))
  }

  function OnCandle(s: Session, c: Candle): (r: Session)
    requires s.volume >= 0.0 && c.volume >= 0.0
    ensures r.volume >= 0.0
  {
    UpdateSession(CheckNewDay(s, c), c)
  }

  function After(history: seq<Candle>): (r: Session)
    requires forall c :: c in history ==> WellFormed(c)
    ensures r.volume >= 0.0
  {
    if history == [] then INITIAL
    else
      var init, c := history[..|history| - 1], history[|history| - 1];
      assert WellFormed(c) by { assert c in history; }
      assert forall d :: d in init ==> d in history;
      OnCandle(After(init), c)
  }

  // ---------- the session of a history ----------

  // Where the current session starts.
  function Start(history: seq<Candle>): (i: nat)
    requires history != []
    ensures i < |history|
  {
    var n := |history|;
    if n == 1 || Date(history[n - 2]) != Date(history[n - 1]) then n - 1 else Start(history[..n - 1])
  }

  function Current(history: seq<Candle>): (r: seq<Candle>)
    requires history != []
    ensures r != []
  {
    history[Start(history)..]
  }

  // The session is the longest run of candles of one date at the end.
  lemma {:induction false} SessionIsMaximal(history: seq<Candle>)
    requires history != []
    ensures forall k :: Start(history) <= k < |history| ==> Date(history[k]) == Date(history[|history| - 1])
    ensures Start(history) > 0 ==> Date(history[Start(history) - 1]) != Date(history[|history| - 1])
  {
    var n := |history|;
    if n > 1 && Date(history[n - 2]) == Date(history[n - 1]) {
      SessionIsMaximal(history[..n - 1]);
    }
  }

  // The candles of the session before the newest one.
  function Earlier(history: seq<Candle>): seq<Candle>
    requires history != []
  {
    Current(history)[..|Current(history)| - 1]
  }

  lemma EarlierIs(history: seq<Candle>)
    requires history != []
    ensures var n := |history|;
      Earlier(history) == if n > 1 && Date(history[n - 2]) == Date(history[n - 1])
                          then Current(history[..n - 1]) else []
    ensures Current(history) == Earlier(history) + [history[|history| - 1]]
  {
  }

  ghost function Volumes(cs: seq<Candle>): seq<real>
  {
    if cs == [] then [] else Volumes(cs[..|cs| - 1]) + [cs[|cs| - 1].volume]
  }

  ghost function Turnovers(cs: seq<Candle>): (r: seq<real>)
    ensures |r| == |cs|
  {
    if cs == [] then [] else Turnovers(cs[..|cs| - 1]) + [VwapComponent(cs[|cs| - 1])]
  }

  // Of each candle, the mean of high, low and close times the volume.
  lemma {:induction false} TurnoversAre(cs: seq<Candle>, i: nat)
    requires i < |cs|
    ensures Turnovers(cs)[i] == (cs[i].high + cs[i].low + cs[i].close) / 3.0 * cs[i].volume
  {
    if i < |cs| - 1 {
      hide VwapComponent;
      TurnoversAre(cs[..|cs| - 1], i);
    }
  }

  lemma OneMore(cs: seq<Candle>, c: Candle)
    ensures Sum(Volumes(cs + [c])) == Sum(Volumes(cs)) + c.volume
    ensures Sum(Turnovers(cs + [c])) == Sum(Turnovers(cs)) + VwapComponent(c)
  {
    assert (cs + [c])[..|cs|] == cs;
    SumAppend(Volumes(cs), c.volume);
    SumAppend(Turnovers(cs), VwapComponent(c));
  }

  // The volume and the VWAP are those of the candles cs of one session.
  ghost predicate Totals(s: Session, cs: seq<Candle>)
  {
    s.volume == Sum(Volumes(cs)) && s.volume >= 0.0 && s.vwap * s.volume == Sum(Turnovers(cs))
  }

  // The high and the low are those of the candles, and the VWAP is in between.
  ghost predicate Ranges(s: Session, cs: seq<Candle>)
  {
    if cs == [] then s.high == 0.0 && s.low == None
    else
      && s.low.Some? && s.low.value <= s.vwap <= s.high
      && (forall c :: c in cs ==> c.high <= s.high && s.low.value <= c.low)
      && (exists c :: c in cs && c.high == s.high)
      && (exists c :: c in cs && c.low == s.low.value)
  }

  lemma TypicalWithin(c: Candle)
    requires WellFormed(c)
    ensures c.low <= TypicalPrice(c) <= c.high
  {
  }

  lemma VwapStep(s: Session, c: Candle)
    requires s.volume >= 0.0 && c.volume >= 0.0
    ensures Vwap(s, c) * (s.volume + c.volume)
         == (if s.volume == 0.0 then 0.0 else s.vwap * s.volume) + VwapComponent(c)
  {
    hide TypicalPrice;
    if s.volume != 0.0 {
      var x, w := s.vwap * s.volume + VwapComponent(c), s.volume + c.volume;
      assert x / w * w == x;
    }
  }

  lemma VwapWithin(s: Session, c: Candle, lo: real, hi: real)
    requires s.volume >= 0.0 && c.volume >= 0.0
    requires s.volume > 0.0 ==> lo <= s.vwap <= hi
    requires lo <= TypicalPrice(c) <= hi
    ensures lo <= Vwap(s, c) <= hi
  {
    hide TypicalPrice;
    if s.volume > 0.0 {
      AverageWithin(TypicalPrice(c), c.volume, s.vwap, s.volume, s.volume + c.volume, lo, hi);
    }
  }

  lemma UpdateTotals(s: Session, cs: seq<Candle>, c: Candle)
    requires Totals(s, cs) && c.volume >= 0.0
    ensures Totals(UpdateSession(s, c), cs + [c])
  {
    hide Vwap, Volumes, Turnovers, Sum, VwapComponent;
    OneMore(cs, c);
    VwapStep(s, c);
  }

  lemma UpdateRanges(s: Session, cs: seq<Candle>, c: Candle)
    requires s.volume >= 0.0 && WellFormed(c) && Ranges(s, cs) && (cs == [] ==> s.volume == 0.0)
    ensures Ranges(UpdateSession(s, c), cs + [c])
  {
    hide Vwap, TypicalPrice;
    TypicalWithin(c);
    VwapWithin(s, c, Lower(s.low, c.low), Max(s.high, c.high));
    assert c in cs + [c];
    assert forall d :: d in cs ==> d in cs + [c];
  }

  // Over any history, across day changes and candles without volume: the
  // session's volume is the sum of its candles' volumes, its VWAP times its
  // volume the sum of typical price times volume, its range the range of its
  // candles, and the VWAP lies within the range.
  lemma {:induction false} SessionIsSummary(history: seq<Candle>)
    requires history != [] && forall c :: c in history ==> WellFormed(c)
    ensures Totals(After(history), Current(history)) && Ranges(After(history), Current(history))
    ensures After(history).day == Date(history[|history| - 1])
  {
    var n := |history|;
    var init, c := history[..n - 1], history[n - 1];
    assert c in history && forall d :: d in init ==> d in history;
    EarlierIs(history);
    DayIsDate(history);
    var s := CheckNewDay(After(init), c);
    if n > 1 && Date(history[n - 2]) == Date(c) {
      SessionIsSummary(init);
    } else {
      NewSession(init, c);
    }
    hide Start, Current, Totals, Ranges, UpdateSession, Earlier;
    UpdateTotals(s, Earlier(history), c);
    UpdateRanges(s, Earlier(history), c);
  }

  lemma NewSession(init: seq<Candle>, c: Candle)
    requires forall d :: d in init ==> WellFormed(d)
    requires init == [] || Date(init[|init| - 1]) != Date(c)
    ensures var s := CheckNewDay(After(init), c);
      s.volume == 0.0 && Totals(s, []) && Ranges(s, [])
  {
    if init != [] { DayIsDate(init); }
    hide OnCandle;
    assert Volumes([]) == [] && Turnovers([]) == [];
  }

  lemma DayIsDate(history: seq<Candle>)
    requires history != [] && forall c :: c in history ==> WellFormed(c)
    ensures After(history).day == Date(history[|history| - 1])
  {
    hide Vwap;
  }

  // Once there is volume the VWAP is the volume-weighted average of the
  // session.
  lemma VwapIsAverage(history: seq<Candle>)
    requires history != [] && forall c :: c in history ==> WellFormed(c)
    requires After(history).volume > 0.0
    ensures Sum(Volumes(Current(history))) > 0.0
    ensures After(history).vwap == Sum(Turnovers(Current(history))) / Sum(Volumes(Current(history)))
  {
    SessionIsSummary(history);
    TotalsAverage(After(history), Current(history));
    hide *;
  }

  // Without any volume yet it is the mean of the newest high, low and close.
  lemma VwapWithoutVolume(history: seq<Candle>)
    requires history != [] && forall c :: c in history ==> WellFormed(c)
    requires After(history).volume == 0.0
    ensures var c := history[|history| - 1]; After(history).vwap == (c.high + c.low + c.close) / 3.0
  {
    var init, c := history[..|history| - 1], history[|history| - 1];
    assert c in history && forall d :: d in init ==> d in history;
    var s := CheckNewDay(After(init), c);
    hide After, CheckNewDay, WellFormed;
    assert s.volume >= 0.0;
  }

  lemma TotalsAverage(s: Session, cs: seq<Candle>)
    requires Totals(s, cs) && s.volume > 0.0
    ensures Sum(Volumes(cs)) > 0.0 && s.vwap == Sum(Turnovers(cs)) / Sum(Volumes(cs))
  {
    hide Sum, Volumes, Turnovers;
    AverageIs(s.vwap, s.volume, Sum(Turnovers(cs)), Sum(Volumes(cs)));
  }

  lemma AverageIs(vwap: real, volume: real, turnover: real, total: real)
    requires volume == total && total > 0.0 && vwap * volume == turnover
    ensures vwap == turnover / total
  {
    QuotientIs(turnover, volume, vwap);
  }

  // The opening price is that of the session's first candle, with one
  // exception: a session on day 0 of the epoch that is the first of the
  // history causes no reset and opens at 0.
  lemma {:induction false} OpenIsFirst(history: seq<Candle>)
    requires history != [] && forall c :: c in history ==> WellFormed(c)
    ensures After(history).open
         == if Start(history) == 0 && Date(history[0]) == 0 then 0.0 else history[Start(history)].open
  {
    hide Vwap;
    var n := |history|;
    if n > 1 {
      OpenIsFirst(history[..n - 1]);
      DayIsDate(history[..n - 1]);
    }
  }

  // ---------- the state object ----------

  class IncrementalState {
    var sessionVwap: real
    var sessionHigh: real
    var sessionLow: Option<real>
    var sessionOpen: real
    var sessionVolume: real
    var dayStart: int

    function State(): Session
      reads this
    {
      Session(sessionVwap, sessionHigh, sessionLow, sessionOpen, sessionVolume, dayStart)
    }

    constructor ()
      ensures State() == INITIAL && sessionVwap == sessionHigh == sessionOpen == sessionVolume == 0.0
      ensures sessionLow == None && dayStart == 0
    {
      sessionVwap, sessionHigh, sessionLow, sessionOpen, sessionVolume, dayStart := 0.0, 0.0, None, 0.0, 0.0, 0;
    }

    method CheckDay(c: Candle)
      modifies this
      ensures State() == CheckNewDay(old(State()), c)
      ensures dayStart == c.timestamp / 86400000
      ensures if dayStart == old(dayStart) then unchanged(this)
              else sessionVwap == sessionHigh == sessionVolume == 0.0 && sessionLow == None && sessionOpen == c.open
    {
      if dayStart != Date(c) {
        sessionVwap := 0.0;
        sessionHigh := 0.0;
        sessionLow := None;
        sessionOpen := c.open;
        sessionVolume := 0.0;
        dayStart := c.timestamp / DAY_MS;
      }
    }

    method Update(c: Candle)
      requires sessionVolume >= 0.0 && c.volume >= 0.0
      modifies this
      ensures State() == UpdateSession(old(State()), c)
    {
      if sessionVolume == 0.0 {
        sessionVwap := TypicalPrice(c);
      } else {
        sessionVwap := (sessionVwap * sessionVolume + VwapComponent(c)) / (sessionVolume + c.volume);
      }
      sessionVolume := sessionVolume + c.volume;
      sessionHigh := Max(sessionHigh, c.high);
      sessionLow := Some(Lower(sessionLow, c.low));
    }

    method OnNewCandle(c: Candle)
      requires sessionVolume >= 0.0 && c.volume >= 0.0
      modifies this
      ensures State() == OnCandle(old(State()), c) && sessionVolume >= 0.0
    {
      CheckDay(c);
      Update(c);
    }
  }
}
