/** Balance and positions of the paper-trading exchange as a function of its
    fills, and the accounting law that this function obeys.

    A fill moves one symbol's signed position. Two kinds of fill book a profit
    that is not the one the position made: closing a short exactly leaves the
    profit unsigned, and flipping through zero keeps the old entry price for
    the new position. `Correction` measures both, and `EquityOfReplay` shows
    that nothing else ever goes missing. */
module PaperLedger {
  import opened RealMath

  datatype Side = Buy | Sell

  datatype Position = Position(size: real, entry: real)

  datatype Fill = Fill(id: nat, symbol: string, side: Side, price: real, qty: real)

  datatype Ledger = Ledger(balance: real, positions: map<string, Position>)

  function Signed(side: Side, qty: real): real { if side.Buy? then qty else -qty }

  // A symbol without a position counts as flat, with entry price 0.
  function PositionOf(positions: map<string, Position>, s: string): Position
  {
    if s in positions then positions[s] else Position(0.0, 0.0)
  }

  // The trade of a signed quantity adds to the position, or opens one.
  predicate Adds(held: Position, q: real)
  {
    (held.size >= 0.0 && q > 0.0) || (held.size <= 0.0 && q < 0.0)
  }

  function AverageEntry(held: Position, q: real, price: real): real
    requires held.size + q != 0.0
  {
    (held.entry * Abs(held.size) + price * Abs(q)) / Abs(held.size + q)
  }

  // The profit booked when the whole position closes: not signed by its side.
  function ClosePnl(held: Position, price: real): real
  {
    (price - held.entry) * Abs(held.size)
  }

  function ReducePnl(held: Position, q: real, price: real): real
  {
    (price - held.entry) * Min(Abs(held.size), Abs(q)) * (if held.size > 0.0 then 1.0 else -1.0)
  }

  function ApplyFill(l: Ledger, f: Fill): Ledger
  {
    var q := Signed(f.side, f.qty);
    var held := PositionOf(l.positions, f.symbol);
    var newSize := held.size + q;
    if newSize == 0.0 then
      Ledger(l.balance + ClosePnl(held, f.price), l.positions - {f.symbol})
    else if Adds(held, q) then
      Ledger(l.balance, l.positions[f.symbol := Position(newSize, AverageEntry(held, q, f.price))])
    else
      Ledger(l.balance + ReducePnl(held, q, f.price), l.positions[f.symbol := Position(newSize, held.entry)])
  }

  function Replay(l: Ledger, fills: seq<Fill>): Ledger
  {
    if fills == [] then l else ApplyFill(Replay(l, fills[..|fills| - 1]), fills[|fills| - 1])
  }

  lemma {:induction false} ReplayConcat(l: Ledger, a: seq<Fill>, b: seq<Fill>)
    ensures Replay(l, a + b) == Replay(Replay(l, a), b)
    decreases |b|
  {
    if b == [] {
      assert a + b == a;
    } else {
      var n := |b| - 1;
      ReplayConcat(l, a, b[..n]);
      assert (a + b)[..|a + b| - 1] == a + b[..n];
    }
  }

  // ---------- equity and what a fill does to it ----------

  function Unrealised(p: Position, mark: real): real { (mark - p.entry) * p.size }

  function Marked(positions: map<string, Position>, mark: string -> real): map<string, real>
  {
    map s | s in positions :: Unrealised(positions[s], mark(s))
  }

  // Balance plus unrealised profit at the given mark prices.
  ghost function Equity(l: Ledger, mark: string -> real): real
  {
    l.balance + Total(Marked(l.positions, mark))
  }

  predicate ClosesShort(held: Position, q: real)
  {
    held.size < 0.0 && held.size + q == 0.0
  }

  predicate FlipsThroughZero(held: Position, q: real)
  {
    (held.size > 0.0 && held.size + q < 0.0) || (held.size < 0.0 && held.size + q > 0.0)
  }

  // What a trade adds to equity beyond its own cash flow; no mark price enters.
  function Bias(held: Position, q: real, price: real): real
  {
    if ClosesShort(held, q) then 2.0 * (price - held.entry) * Abs(held.size)
    else if FlipsThroughZero(held, q) then (held.size + q) * (price - held.entry)
    else 0.0
  }

  function Correction(l: Ledger, f: Fill): real
  {
    Bias(PositionOf(l.positions, f.symbol), Signed(f.side, f.qty), f.price)
  }

  function Gain(q: real, price: real, mark: real): real { q * (mark - price) }

  function Flow(f: Fill, mark: string -> real): real
  {
    Gain(Signed(f.side, f.qty), f.price, mark(f.symbol))
  }

  lemma AverageCost(s: real, e: real, q: real, p: real)
    requires (s >= 0.0 && q > 0.0) || (s <= 0.0 && q < 0.0)
    ensures (e * Abs(s) + p * Abs(q)) / Abs(s + q) * (s + q) == e * s + p * q
  {
    var c, w := e * Abs(s) + p * Abs(q), Abs(s + q);
    assert c / w * w == c;
    if s + q < 0.0 {
      assert c / w * (s + q) == -(c / w * w);
      assert e * Abs(s) == -(e * s) && p * Abs(q) == -(p * q);
    }
  }

  lemma AddKeepsValue(held: Position, q: real, p: real, m: real)
    requires Adds(held, q)
    ensures Unrealised(Position(held.size + q, AverageEntry(held, q, p)), m)
         == Unrealised(held, m) + Gain(q, p, m)
  {
    var s, e, a := held.size, held.entry, AverageEntry(held, q, p);
    AverageCost(s, e, q, p);
    assert (m - a) * (s + q) == m * (s + q) - a * (s + q);
    assert m * (s + q) == m * s + m * q;
    assert (m - e) * s == m * s - e * s;
    assert q * (m - p) == m * q - p * q;
  }

  lemma CloseBooksValue(held: Position, q: real, p: real, m: real)
    requires held.size + q == 0.0
    ensures ClosePnl(held, p) == Unrealised(held, m) + Gain(q, p, m) + Bias(held, q, p)
  {
    var s, e := held.size, held.entry;
    assert q * (m - p) == -(s * (m - p));
    assert (m - e) * s - s * (m - p) == (p - e) * s;
    if s < 0.0 {
      assert (p - e) * Abs(s) == -((p - e) * s);
      assert 2.0 * (p - e) * Abs(s) == -2.0 * ((p - e) * s);
    }
  }

  lemma ReducePnlOf(held: Position, q: real, p: real)
    requires held.size != 0.0 && !Adds(held, q)
    ensures ReducePnl(held, q, p) == (p - held.entry) * (if Abs(q) <= Abs(held.size) then -q else held.size)
  {
  }

  lemma ReduceBooksValue(held: Position, q: real, p: real, m: real)
    requires held.size != 0.0 && held.size + q != 0.0 && !Adds(held, q)
    ensures ReducePnl(held, q, p) + Unrealised(Position(held.size + q, held.entry), m)
         == Unrealised(held, m) + Gain(q, p, m) + Bias(held, q, p)
  {
    var s, e := held.size, held.entry;
    ReducePnlOf(held, q, p);
    assert (m - e) * (s + q) == (m - e) * s + (m - e) * q;
    assert (m - e) * q == q * (m - p) + (p - e) * q;
    if Abs(q) <= Abs(s) {
      assert (p - e) * -q == -((p - e) * q);
    } else {
      assert (s + q) * (p - e) == (p - e) * s + (p - e) * q;
    }
  }

  function ValueIn(positions: map<string, Position>, s: string, mark: string -> real): real
  {
    Unrealised(PositionOf(positions, s), mark(s))
  }

  lemma MarkedAt(positions: map<string, Position>, s: string, mark: string -> real)
    ensures Total(Marked(positions, mark))
         == ValueIn(positions, s, mark) + Total(Marked(positions - {s}, mark))
  {
    var m := Marked(positions, mark);
    if s in positions {
      TotalRemove(m, s);
    }
    assert m - {s} == Marked(positions - {s}, mark);
    assert s !in positions ==> m - {s} == m;
  }

  // A change in one symbol moves equity by the balance it books and by the
  // change of that symbol's unrealised profit.
  lemma EquityMoves(l: Ledger, l': Ledger, s: string, mark: string -> real)
    requires l'.positions - {s} == l.positions - {s}
    ensures Equity(l', mark) - Equity(l, mark)
         == l'.balance - l.balance + ValueIn(l'.positions, s, mark) - ValueIn(l.positions, s, mark)
  {
    MarkedAt(l.positions, s, mark);
    MarkedAt(l'.positions, s, mark);
  }

  lemma FillValue(l: Ledger, f: Fill, mark: string -> real)
    requires PositionsOpen(l)
    ensures var l' := ApplyFill(l, f);
      l'.balance - l.balance + ValueIn(l'.positions, f.symbol, mark) - ValueIn(l.positions, f.symbol, mark)
      == Flow(f, mark) + Correction(l, f)
  {
    var m, q := mark(f.symbol), Signed(f.side, f.qty);
    var held := PositionOf(l.positions, f.symbol);
    if held.size + q == 0.0 {
      CloseBooksValue(held, q, f.price, m);
      assert Unrealised(Position(0.0, 0.0), m) == 0.0;
    } else if Adds(held, q) {
      AddKeepsValue(held, q, f.price, m);
    } else {
      ReduceBooksValue(held, q, f.price, m);
    }
  }

  // Equity moves by the fill's own flow plus its correction, at any marks.
  lemma EquityOfFill(l: Ledger, f: Fill, mark: string -> real)
    requires PositionsOpen(l)
    ensures Equity(ApplyFill(l, f), mark) == Equity(l, mark) + Flow(f, mark) + Correction(l, f)
  {
    var l' := ApplyFill(l, f);
    assert l'.positions - {f.symbol} == l.positions - {f.symbol};
    EquityMoves(l, l', f.symbol, mark);
    FillValue(l, f, mark);
  }

  // ---------- whole histories ----------

  // No stored position is flat.
  ghost predicate PositionsOpen(l: Ledger)
  {
    forall s :: s in l.positions ==> l.positions[s].size != 0.0
  }

  lemma {:induction false} ReplayKeepsPositionsOpen(l: Ledger, fills: seq<Fill>)
    requires PositionsOpen(l)
    ensures PositionsOpen(Replay(l, fills))
  {
    if fills != [] {
      ReplayKeepsPositionsOpen(l, fills[..|fills| - 1]);
    }
  }

  function Flows(fills: seq<Fill>, mark: string -> real): real
  {
    if fills == [] then 0.0
    else Flows(fills[..|fills| - 1], mark) + Flow(fills[|fills| - 1], mark)
  }

  function Corrections(l: Ledger, fills: seq<Fill>): real
  {
    if fills == [] then 0.0
    else
      var n := |fills| - 1;
      Corrections(l, fills[..n]) + Correction(Replay(l, fills[..n]), fills[n])
  }

  // The accounting law: after any fills, at any mark prices, equity is the
  // initial equity plus the flow of every fill plus the corrections.
  lemma {:induction false} EquityOfReplay(l: Ledger, fills: seq<Fill>, mark: string -> real)
    requires PositionsOpen(l)
    ensures Equity(Replay(l, fills), mark)
         == Equity(l, mark) + Flows(fills, mark) + Corrections(l, fills)
  {
    if fills != [] {
      var n := |fills| - 1;
      EquityOfReplay(l, fills[..n], mark);
      ReplayKeepsPositionsOpen(l, fills[..n]);
      EquityOfFill(Replay(l, fills[..n]), fills[n], mark);
    }
  }

  // A trade books no bias unless it closes a short exactly or flips through
  // zero, away from the position's own entry price.
  predicate Unbiased(l: Ledger, f: Fill)
  {
    var held, q := PositionOf(l.positions, f.symbol), Signed(f.side, f.qty);
    (ClosesShort(held, q) || FlipsThroughZero(held, q)) ==> f.price == held.entry
  }

  predicate AllUnbiased(l: Ledger, fills: seq<Fill>)
  {
    fills == []
    || (AllUnbiased(l, fills[..|fills| - 1])
        && Unbiased(Replay(l, fills[..|fills| - 1]), fills[|fills| - 1]))
  }

  lemma ProductIsZero(x: real, y: real)
    ensures x * y == 0.0 <==> x == 0.0 || y == 0.0
  {
  }

  lemma UnbiasedIff(l: Ledger, f: Fill)
    ensures Correction(l, f) == 0.0 <==> Unbiased(l, f)
  {
    var held, q := PositionOf(l.positions, f.symbol), Signed(f.side, f.qty);
    ProductIsZero(2.0 * (f.price - held.entry), Abs(held.size));
    ProductIsZero(held.size + q, f.price - held.entry);
  }

  // One fill obeys the plain law - equity moves by the fill's own flow - at
  // some mark prices, and then at all of them, exactly when it is unbiased.
  lemma PlainFillIff(l: Ledger, f: Fill, mark: string -> real)
    requires PositionsOpen(l)
    ensures Equity(ApplyFill(l, f), mark) == Equity(l, mark) + Flow(f, mark) <==> Unbiased(l, f)
  {
    EquityOfFill(l, f, mark);
    UnbiasedIff(l, f);
  }

  lemma {:induction false} UnbiasedCorrections(l: Ledger, fills: seq<Fill>)
    requires AllUnbiased(l, fills)
    ensures Corrections(l, fills) == 0.0
  {
    if fills != [] {
      var n := |fills| - 1;
      UnbiasedCorrections(l, fills[..n]);
      UnbiasedIff(Replay(l, fills[..n]), fills[n]);
    }
  }

  // The law a trader expects: equity is what went in plus what every fill has
  // made since it traded. It holds on every history of unbiased fills.
  lemma PlainConservation(l: Ledger, fills: seq<Fill>, mark: string -> real)
    requires PositionsOpen(l) && AllUnbiased(l, fills)
    ensures Equity(Replay(l, fills), mark) == Equity(l, mark) + Flows(fills, mark)
  {
    EquityOfReplay(l, fills, mark);
    UnbiasedCorrections(l, fills);
  }

  // Equity has followed the plain law at every point of a history.
  ghost predicate PlainThroughout(l: Ledger, fills: seq<Fill>, mark: string -> real)
  {
    forall k :: 0 <= k <= |fills| ==> Equity(Replay(l, fills[..k]), mark) == Equity(l, mark) + Flows(fills[..k], mark)
  }

  lemma PlainPrefix(l: Ledger, fills: seq<Fill>, mark: string -> real)
    requires fills != []
    ensures var init := fills[..|fills| - 1];
      PlainThroughout(l, fills, mark) <==>
        PlainThroughout(l, init, mark) && Equity(Replay(l, fills), mark) == Equity(l, mark) + Flows(fills, mark)
  {
    hide Equity, Replay, Flows;
    var n := |fills| - 1;
    var init := fills[..n];
    assert fills[..n + 1] == fills;
    assert forall k :: 0 <= k <= n ==> init[..k] == fills[..k];
    if PlainThroughout(l, fills, mark) {
      forall k | 0 <= k <= n
        ensures Equity(Replay(l, init[..k]), mark) == Equity(l, mark) + Flows(init[..k], mark)
      {
        assert init[..k] == fills[..k];
      }
    }
    if PlainThroughout(l, init, mark) && Equity(Replay(l, fills), mark) == Equity(l, mark) + Flows(fills, mark) {
      forall k | 0 <= k <= n + 1
        ensures Equity(Replay(l, fills[..k]), mark) == Equity(l, mark) + Flows(fills[..k], mark)
      {
        if k <= n { assert init[..k] == fills[..k]; }
      }
    }
  }

  // The plain law holds all along a history exactly if every fill of it is
  // unbiased; later corrections can cancel earlier ones, but only later.
  lemma {:induction false} PlainConservationIff(l: Ledger, fills: seq<Fill>, mark: string -> real)
    requires PositionsOpen(l)
    ensures PlainThroughout(l, fills, mark) <==> AllUnbiased(l, fills)
  {
    if fills == [] {
      assert fills[..0] == [];
    } else {
      var n := |fills| - 1;
      var init := fills[..n];
      PlainConservationIff(l, init, mark);
      PlainPrefix(l, fills, mark);
      ReplayKeepsPositionsOpen(l, init);
      PlainFillIff(Replay(l, init), fills[n], mark);
      assert init[..n] == init;
      assert PlainThroughout(l, init, mark) ==>
        Equity(Replay(l, init[..n]), mark) == Equity(l, mark) + Flows(init[..n], mark);
    }
  }

  // Selling one at 100 and buying it back at 90 makes 10; the ledger books a
  // loss of 10.
  lemma ShortCloseWitness(symbol: string, mark: string -> real)
    ensures var sell, buy := Fill(1, symbol, Sell, 100.0, 1.0), Fill(2, symbol, Buy, 90.0, 1.0);
      && Flow(sell, mark) + Flow(buy, mark) == 10.0
      && ApplyFill(ApplyFill(Ledger(1000.0, map[]), sell), buy) == Ledger(990.0, map[])
  {
    var sell, buy := Fill(1, symbol, Sell, 100.0, 1.0), Fill(2, symbol, Buy, 90.0, 1.0);
    var short := map[symbol := Position(-1.0, 100.0)];
    assert AverageEntry(Position(0.0, 0.0), -1.0, 100.0) == 100.0;
    assert ApplyFill(Ledger(1000.0, map[]), sell) == Ledger(1000.0, short);
    assert ClosePnl(short[symbol], 90.0) == -10.0;
    assert short - {symbol} == map[];
  }

  // Buying one at 100 and selling two at 110 makes 10 at a mark of 110; the
  // short that is left keeps the entry price of 100, and equity is 10 too low.
  lemma FlipWitness(symbol: string)
    ensures var buy, sell := Fill(1, symbol, Buy, 100.0, 1.0), Fill(2, symbol, Sell, 110.0, 2.0);
      var l := ApplyFill(ApplyFill(Ledger(1000.0, map[]), buy), sell);
      && l == Ledger(1010.0, map[symbol := Position(-1.0, 100.0)])
      && Flow(buy, s => 110.0) + Flow(sell, s => 110.0) == 10.0
      && Equity(l, s => 110.0) == 1000.0
  {
    var buy, sell := Fill(1, symbol, Buy, 100.0, 1.0), Fill(2, symbol, Sell, 110.0, 2.0);
    var long, short := map[symbol := Position(1.0, 100.0)], map[symbol := Position(-1.0, 100.0)];
    assert AverageEntry(Position(0.0, 0.0), 1.0, 100.0) == 100.0;
    assert ApplyFill(Ledger(1000.0, map[]), buy) == Ledger(1000.0, long);
    assert ReducePnl(long[symbol], -2.0, 110.0) == 10.0;
    assert ApplyFill(Ledger(1000.0, long), sell) == Ledger(1010.0, short);
    var m := Marked(short, s => 110.0);
    assert m == map[symbol := -10.0];
    TotalRemove(m, symbol);
    assert m - {symbol} == map[];
  }

  // ---------- the ledger against the raw fills ----------

  function NetQty(fills: seq<Fill>, s: string): real
  {
    if fills == [] then 0.0
    else
      var f := fills[|fills| - 1];
      NetQty(fills[..|fills| - 1], s) + (if f.symbol == s then Signed(f.side, f.qty) else 0.0)
  }

  lemma MoveIsNet(l: Ledger, f: Fill, s: string)
    requires PositionsOpen(l)
    ensures PositionOf(ApplyFill(l, f).positions, s).size
         == PositionOf(l.positions, s).size + (if f.symbol == s then Signed(f.side, f.qty) else 0.0)
  {
  }

  lemma AverageEntryWithin(held: Position, q: real, price: real, lo: real, hi: real)
    requires Adds(held, q) && lo <= price <= hi
    requires held.size != 0.0 ==> lo <= held.entry <= hi
    ensures lo <= AverageEntry(held, q, price) <= hi
  {
    AverageWithin(held.entry, Abs(held.size), price, Abs(q), Abs(held.size + q), lo, hi);
  }

  lemma MoveKeepsEntryWithin(l: Ledger, f: Fill, s: string, lo: real, hi: real)
    requires PositionsOpen(l)
    requires s in l.positions ==> lo <= l.positions[s].entry <= hi
    requires f.symbol == s ==> lo <= f.price <= hi
    ensures var ps := ApplyFill(l, f).positions; s in ps ==> lo <= ps[s].entry <= hi
  {
    var held, q := PositionOf(l.positions, s), Signed(f.side, f.qty);
    if f.symbol == s && Adds(held, q) {
      AverageEntryWithin(held, q, f.price, lo, hi);
    }
  }

  // Every position has the net signed quantity of its symbol's fills, and its
  // entry price stays within any range that holds those fills' prices.
  lemma {:induction false} PositionIsNetQty(b: real, fills: seq<Fill>, s: string, lo: real, hi: real)
    requires forall k :: 0 <= k < |fills| && fills[k].symbol == s ==> lo <= fills[k].price <= hi
    ensures var ps := Replay(Ledger(b, map[]), fills).positions;
      && PositionOf(ps, s).size == NetQty(fills, s)
      && (s in ps <==> NetQty(fills, s) != 0.0)
      && (s in ps ==> lo <= ps[s].entry <= hi)
  {
    ReplayKeepsPositionsOpen(Ledger(b, map[]), fills);
    if fills != [] {
      var n := |fills| - 1;
      PositionIsNetQty(b, fills[..n], s, lo, hi);
      var l := Replay(Ledger(b, map[]), fills[..n]);
      ReplayKeepsPositionsOpen(Ledger(b, map[]), fills[..n]);
      MoveIsNet(l, fills[n], s);
      MoveKeepsEntryWithin(l, fills[n], s, lo, hi);
    }
  }
}
