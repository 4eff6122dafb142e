/** The paper-trading client, with the fields it updates in place. Each method
    is proved to take the step of `PaperExchange` that carries its name. */
module PaperTrading {
  import opened Options
  import opened RealMath
  import opened PaperLedger
  import opened PaperExchange

  // An order as the book and the caller who placed it share it: filling or
  // cancelling it changes the object that the caller holds.
  class OrderResponse {
    const id: nat
    const symbol: string
    const side: Side
    const kind: Kind
    const quantity: real
    const price: real
    var status: Status
    var filledQty: real
    var avgPrice: real

    constructor (r: Request, id: nat)
      ensures View() == NewOrder(r, id) && this.id == id
    {
      this.id, symbol, side, kind, quantity := id, r.symbol, r.side, r.kind, r.quantity;
      price := if r.price.Some? then r.price.value else 0.0;
      status, filledQty, avgPrice := New, 0.0, 0.0;
    }

    ghost function View(): (o: Order)
      reads this
      ensures o.id == id
    {
      Order(id, symbol, side, kind, quantity, price, status, filledQty, avgPrice)
    }
  }

  ghost function Views(os: seq<OrderResponse>): (vs: seq<Order>)
    reads os
    ensures |vs| == |os|
    ensures forall i :: 0 <= i < |os| ==> vs[i] == os[i].View()
  {
    seq(|os|, i requires 0 <= i < |os| reads os => os[i].View())
  }

  // An order as a price leaves it: filled, a limit order at its limit, if it
  // is a new one of the symbol that the price reaches.
  ghost function AfterFill(o: Order, symbol: string, price: real): Order
  {
    if o.symbol == symbol && o.status == New
       && (o.kind.Market? || if o.side.Buy? then price <= o.price else o.price <= price)
    then o.(status := Filled, filledQty := o.quantity, avgPrice := if o.kind.Market? then price else o.price)
    else o
  }

  function WithoutId(os: seq<OrderResponse>, id: nat): seq<OrderResponse>
  {
    if os == [] then []
    else WithoutId(os[..|os| - 1], id) + (if os[|os| - 1].id == id then [] else [os[|os| - 1]])
  }

  ghost function Without(os: seq<OrderResponse>, ids: set<nat>): seq<OrderResponse>
  {
    if os == [] then []
    else Without(os[..|os| - 1], ids) + (if os[|os| - 1].id in ids then [] else [os[|os| - 1]])
  }

  lemma {:induction false} WithoutMore(os: seq<OrderResponse>, ids: set<nat>, id: nat)
    ensures WithoutId(Without(os, ids), id) == Without(os, ids + {id})
  {
    if os != [] {
      var n := |os| - 1;
      WithoutMore(os[..n], ids, id);
      var w := Without(os[..n], ids);
      assert (w + [os[n]])[..|w|] == w;
      assert w + [] == w;
    }
  }

  lemma {:induction false} WithoutNone(os: seq<OrderResponse>)
    ensures Without(os, {}) == os
  {
    if os != [] { WithoutNone(os[..|os| - 1]); }
  }

  lemma {:induction false} WithoutIn(os: seq<OrderResponse>, ids: set<nat>)
    ensures forall o :: o in Without(os, ids) ==> o in os
  {
    if os != [] {
      WithoutIn(os[..|os| - 1], ids);
      assert os == os[..|os| - 1] + [os[|os| - 1]];
    }
  }

  // Taking the filled orders out leaves what the book keeps.
  lemma {:induction false} WithoutIsKept(os: seq<OrderResponse>, was: seq<Order>, ids: set<nat>,
                                         symbol: string, price: real)
    requires |was| == |os|
    requires forall i :: 0 <= i < |os| ==>
      os[i].View() == AfterFill(was[i], symbol, price)
      && (os[i].id in ids <==> FillPrice(was[i], symbol, price).Some?)
    ensures Views(Without(os, ids)) == Kept(was, symbol, price)
  {
    if os != [] {
      var n := |os| - 1;
      WithoutIsKept(os[..n], was[..n], ids, symbol, price);
      var w := Without(os[..n], ids);
      assert os[n].View() == AfterFill(was[n], symbol, price);
      assert (w + [os[n]])[..|w|] == w;
      assert w + [] == w;
    }
  }

  lemma {:induction false} NewFillIds(was: seq<Order>, symbol: string, price: real, i: nat)
    requires i < |was| && Ascending(was)
    ensures was[i].id in FillIds(NewFills(was, symbol, price)) <==> FillPrice(was[i], symbol, price).Some?
  {
    NewFillMeaning(was, symbol, price);
    var fs := NewFills(was, symbol, price);
    if FillPrice(was[i], symbol, price).Some? {
      assert FillOf(was[i], symbol, price) in fs;
    }
    if was[i].id in FillIds(fs) {
      var f :| f in fs && f.id == was[i].id;
      var o :| o in was && FillPrice(o, symbol, price).Some? && f == FillOf(o, symbol, price);
      var j :| 0 <= j < |was| && was[j] == o;
      assert was[j].id == was[i].id;
    }
  }

  function IdSet(ids: seq<nat>): set<nat> { set id | id in ids }

  // Where a sweep stands after i orders: the fills it made, the ledger they
  // led to, and the ids to take out of the book.
  ghost predicate SweptSoFar(was: seq<Order>, i: nat, symbol: string, price: real,
                             start: Ledger, now: Ledger, fs: seq<Fill>, ids: seq<nat>)
  {
    && i <= |was|
    && fs == NewFills(was[..i], symbol, price)
    && now == Replay(start, fs)
    && IdSet(ids) == FillIds(fs)
  }

  lemma SweepStart(was: seq<Order>, symbol: string, price: real, start: Ledger)
    ensures SweptSoFar(was, 0, symbol, price, start, start, [], [])
  {
  }

  lemma SweepOne(was: seq<Order>, i: nat, symbol: string, price: real,
                 start: Ledger, now: Ledger, fs: seq<Fill>, ids: seq<nat>)
    requires i < |was| && SweptSoFar(was, i, symbol, price, start, now, fs, ids)
    ensures if FillPrice(was[i], symbol, price).Some? then
              var f := FillOf(was[i], symbol, price);
              f.id == was[i].id &&
              SweptSoFar(was, i + 1, symbol, price, start, ApplyFill(now, f), fs + [f], ids + [f.id])
            else SweptSoFar(was, i + 1, symbol, price, start, now, fs, ids)
  {
    assert was[..i + 1][..i] == was[..i];
    if FillPrice(was[i], symbol, price).Some? {
      var f := FillOf(was[i], symbol, price);
      assert (fs + [f])[..|fs|] == fs;
      assert IdSet(ids + [f.id]) == IdSet(ids) + {f.id};
      assert FillIds(fs + [f]) == FillIds(fs) + {f.id};
    }
  }

  // The book without the filled orders: what it shows, and that it is in order.
  lemma SweptBook(os: seq<OrderResponse>, was: seq<Order>, ids: set<nat>, symbol: string, price: real)
    requires |was| == |os| && Ascending(was)
    requires forall i :: 0 <= i < |os| ==> os[i].View() == AfterFill(was[i], symbol, price)
    requires ids == FillIds(NewFills(was, symbol, price))
    ensures var left := Without(os, ids);
      && Views(left) == Kept(was, symbol, price)
      && (forall i :: 0 <= i < |left| ==> left[i] in os)
      && (forall i, j :: 0 <= i < j < |left| ==> left[i].id < left[j].id)
  {
    forall k | 0 <= k < |was|
      ensures os[k].id in ids <==> FillPrice(was[k], symbol, price).Some?
    {
      assert os[k].View().id == was[k].id;
      NewFillIds(was, symbol, price, k);
    }
    WithoutIsKept(os, was, ids, symbol, price);
    WithoutIn(os, ids);
    SweepSplits(was, symbol, price);
    var left := Without(os, ids);
    assert forall k :: 0 <= k < |left| ==> left[k].id == Views(left)[k].id;
  }

  ghost function Restrict(m: map<string, real>, keys: set<string>): map<string, real>
  {
    map k | k in m && k in keys :: m[k]
  }

  lemma RestrictStep(m: map<string, real>, keys: set<string>, s: string)
    requires s in keys && s in m
    ensures Total(Restrict(m, keys)) == m[s] + Total(Restrict(m, keys - {s}))
  {
    TotalRemove(Restrict(m, keys), s);
    assert Restrict(m, keys) - {s} == Restrict(m, keys - {s});
  }

  datatype PositionSide = LongSide | ShortSide

  datatype PositionReport = PositionReport(side: PositionSide, size: real, entry: real, unrealised: real)

  // A report from which the signed position can be read back.
  ghost predicate ReportsPosition(r: PositionReport, p: Position, mark: real)
  {
    && r.size >= 0.0 && p.size == (if r.side.LongSide? then r.size else -r.size)
    && (r.side.LongSide? <==> p.size > 0.0) && r.entry == p.entry
    && r.unrealised == (mark - p.entry) * p.size
  }

  method Report(p: Position, mark: real) returns (r: PositionReport)
    ensures ReportsPosition(r, p, mark) && r.unrealised == Unrealised(p, mark)
  {
    r := PositionReport(if p.size > 0.0 then LongSide else ShortSide, Abs(p.size), p.entry, Unrealised(p, mark));
  }

  class PaperClient {
    var balance: real
    var positions: map<string, Position>
    var orders: seq<OrderResponse>
    var orderCounter: nat
    var fills: seq<Fill>
    var currentPrices: map<string, real>

    ghost predicate Valid()
      reads this
    {
      && (forall i, j :: 0 <= i < j < |orders| ==> orders[i].id < orders[j].id)
      && (forall i :: 0 <= i < |orders| ==> orders[i].id <= orderCounter)
    }

    ghost function Book(): Ledger
      reads this
    {
      Ledger(balance, positions)
    }

    ghost function Model(): Exchange
      reads this, orders
    {
      Exchange(Book(), Views(orders), orderCounter, fills, currentPrices)
    }

    constructor (initialBalance: real)
      ensures Valid() && Model() == Start(initialBalance)
      ensures balance == initialBalance && positions == map[] && orders == [] && orderCounter == 0
      ensures fills == [] && currentPrices == map[]
    {
      balance, positions, orders, orderCounter, fills, currentPrices := initialBalance, map[], [], 0, [], map[];
    }

    method UpdatePosition(order: OrderResponse, fillPrice: real)
      modifies this`balance, this`positions
      ensures Book() == ApplyFill(old(Book()),
                                  Fill(order.id, order.symbol, order.side, fillPrice, order.quantity))
    {
      var symbol := order.symbol;
      var qty := if order.side == Buy then order.quantity else -order.quantity;
      if symbol !in positions {
        positions := positions[symbol := Position(0.0, 0.0)];
      }
      var pos := positions[symbol];
      var newSize := pos.size + qty;
      if newSize == 0.0 {
        balance := balance + ClosePnl(pos, fillPrice);
        positions := positions - {symbol};
        assert positions == old(positions) - {symbol};
      } else if Adds(pos, qty) {
        positions := positions[symbol := Position(newSize, AverageEntry(pos, qty, fillPrice))];
        assert positions == old(positions)[symbol := positions[symbol]];
      } else {
        // newSize is not zero here, so the position stays.
        balance := balance + ReducePnl(pos, qty, fillPrice);
        positions := positions[symbol := pos.(size := newSize)];
        assert positions == old(positions)[symbol := positions[symbol]];
      }
    }

    // Marks one order filled, moves the position and records the fill.
    method FillOrder(order: OrderResponse, fillPrice: real)
      modifies this`balance, this`positions, this`fills, order
      ensures order.View() == old(order.View()).(status := Filled, filledQty := order.quantity, avgPrice := fillPrice)
      ensures var f := Fill(order.id, order.symbol, order.side, fillPrice, order.quantity);
        Book() == ApplyFill(old(Book()), f) && fills == old(fills) + [f]
    {
      order.status := Filled;
      order.filledQty := order.quantity;
      order.avgPrice := fillPrice;
      UpdatePosition(order, fillPrice);
      fills := fills + [Fill(order.id, order.symbol, order.side, fillPrice, order.quantity)];
    }

    method DecideFill(order: OrderResponse, symbol: string, price: real) returns (filled: bool, fillPrice: real)
      ensures FillPrice(order.View(), symbol, price) == if filled then Some(fillPrice) else None
    {
      filled, fillPrice := false, 0.0;
      if order.symbol != symbol || order.status != New {
        return;
      }
      if order.kind == Market {
        filled, fillPrice := true, price;
      } else if order.kind == Limit {
        if order.side == Buy && price <= order.price {
          filled, fillPrice := true, order.price;
        } else if order.side == Sell && price >= order.price {
          filled, fillPrice := true, order.price;
        }
      }
    }

    method FillIfReached(order: OrderResponse, symbol: string, price: real) returns (filled: bool)
      modifies this`balance, this`positions, this`fills, order
      ensures order.View() == AfterFill(old(order.View()), symbol, price)
      ensures filled <==> FillPrice(old(order.View()), symbol, price).Some?
      ensures filled ==>
        var f := FillOf(old(order.View()), symbol, price);
        Book() == ApplyFill(old(Book()), f) && fills == old(fills) + [f]
      ensures !filled ==> Book() == old(Book()) && fills == old(fills)
    {
      var fillPrice;
      filled, fillPrice := DecideFill(order, symbol, price);
      if filled {
        FillOrder(order, fillPrice);
      }
    }

    // Walks the book once and fills what the price reaches.
    method FillReached(symbol: string, price: real) returns (toRemove: seq<nat>)
      requires Valid()
      modifies this`balance, this`positions, this`fills, orders
      ensures forall k :: 0 <= k < |orders| ==>
        orders[k].View() == AfterFill(old(Views(orders))[k], symbol, price)
      ensures old(fills) <= fills
      ensures SweptSoFar(old(Views(orders)), |orders|, symbol, price, old(Book()), Book(),
                         fills[|old(fills)|..], toRemove)
    {
      ghost var was, fs := Views(orders), [];
      hide SweptSoFar, AfterFill, FillPrice, FillOf, ApplyFill, Views;
      SweepStart(was, symbol, price, Book());
      toRemove := [];
      var i := 0;
      while i < |orders|
        invariant 0 <= i <= |orders|
        invariant forall k :: 0 <= k < i ==> orders[k].View() == AfterFill(was[k], symbol, price)
        invariant forall k :: i <= k < |orders| ==> orders[k].View() == was[k]
        invariant fills == old(fills) + fs
        invariant SweptSoFar(was, i, symbol, price, old(Book()), Book(), fs, toRemove)
      {
        SweepOne(was, i, symbol, price, old(Book()), Book(), fs, toRemove);
        var order := orders[i];
        var filled := FillIfReached(order, symbol, price);
        if filled {
          toRemove := toRemove + [order.id];
          fs := fs + [FillOf(was[i], symbol, price)];
        }
        i := i + 1;
      }
      assert fills[|old(fills)|..] == fs;
    }

    method RemoveOrders(toRemove: seq<nat>)
      modifies this`orders
      ensures orders == Without(old(orders), IdSet(toRemove))
    {
      WithoutNone(orders);
      ghost var ids: set<nat> := {};
      var j := 0;
      while j < |toRemove|
        invariant 0 <= j <= |toRemove|
        invariant ids == IdSet(toRemove[..j])
        invariant orders == Without(old(orders), ids)
      {
        WithoutMore(old(orders), ids, toRemove[j]);
        assert IdSet(toRemove[..j + 1]) == IdSet(toRemove[..j]) + {toRemove[j]} by {
          assert toRemove[..j + 1] == toRemove[..j] + [toRemove[j]];
        }
        orders := WithoutId(orders, toRemove[j]);
        ids := ids + {toRemove[j]};
        j := j + 1;
      }
      assert toRemove[..j] == toRemove;
    }

    // Takes the filled orders out of a book that FillReached has walked.
    method RemoveFilled(toRemove: seq<nat>, ghost was: seq<Order>, ghost symbol: string, ghost price: real)
      requires Valid() && |was| == |orders| && Ascending(was)
      requires forall i :: 0 <= i < |orders| ==> orders[i].View() == AfterFill(was[i], symbol, price)
      requires IdSet(toRemove) == FillIds(NewFills(was, symbol, price))
      modifies this`orders
      ensures Valid() && Views(orders) == Kept(was, symbol, price)
      ensures forall i :: 0 <= i < |orders| ==> orders[i] in old(orders)
    {
      RemoveOrders(toRemove);
      SweptBook(old(orders), was, IdSet(toRemove), symbol, price);
    }

    method CheckFills(symbol: string, price: real)
      requires Valid()
      modifies this`balance, this`positions, this`orders, this`fills, orders
      ensures Valid()
      ensures var was, fs := old(Views(orders)), NewFills(old(Views(orders)), symbol, price);
        && Book() == Replay(old(Book()), fs)
        && Views(orders) == Kept(was, symbol, price)
        && fills == old(fills) + fs
      ensures forall k :: 0 <= k < |old(orders)| ==>
        old(orders)[k].View() == AfterFill(old(Views(orders))[k], symbol, price)
      ensures forall i :: 0 <= i < |orders| ==> orders[i] in old(orders)
    {
      ghost var was := Views(orders);
      hide ApplyFill, FillPrice, AfterFill, Replay, NewFills, Kept;
      assert forall k :: 0 <= k < |was| ==> was[k].id == orders[k].id;
      var toRemove := FillReached(symbol, price);
      assert was[..|orders|] == was;
      RemoveFilled(toRemove, was, symbol, price);
    }

    method UpdatePrice(symbol: string, price: real)
      requires Valid()
      modifies this, orders
      ensures Valid() && Model() == Step(old(Model()), Priced(symbol, price))
      ensures forall k :: 0 <= k < |old(orders)| ==>
        old(orders)[k].View() == AfterFill(old(Views(orders))[k], symbol, price)
      ensures forall i :: 0 <= i < |orders| ==> orders[i] in old(orders)
    {
      hide NewFills, Kept, Replay, AfterFill, Views;
      currentPrices := currentPrices[symbol := price];
      CheckFills(symbol, price);
    }

    method Enqueue(order: Request) returns (response: OrderResponse)
      requires Valid()
      modifies this`orderCounter, this`orders
      ensures Valid() && fresh(response)
      ensures orderCounter == old(orderCounter) + 1 && orders == old(orders) + [response]
      ensures response.View() == NewOrder(order, orderCounter)
      ensures Views(orders) == old(Views(orders)) + [NewOrder(order, orderCounter)]
    {
      orderCounter := orderCounter + 1;
      response := new OrderResponse(order, orderCounter);
      orders := orders + [response];
      assert orders[..|orders| - 1] == old(orders);
    }

    // The caller gets the very order that the book holds; a market order that
    // trades at once comes back filled.
    method PlaceOrder(order: Request) returns (response: OrderResponse)
      requires Valid()
      modifies this, orders
      ensures Valid() && Model() == Step(old(Model()), Placed(order))
      ensures fresh(response) && response.id == orderCounter == old(orderCounter) + 1
      ensures response.symbol == order.symbol && response.side == order.side && response.kind == order.kind
      ensures response.quantity == order.quantity
      ensures response.price == if order.price.Some? then order.price.value else 0.0
      ensures var p := if order.symbol in old(currentPrices) then old(currentPrices)[order.symbol] else response.price;
        if order.kind == Market && p != 0.0
        then response.status == Filled && response.filledQty == order.quantity && response.avgPrice == p
        else response.status == New && response.filledQty == 0.0 && response.avgPrice == 0.0
    {
      hide NewFills, Kept, Replay, Views;
      response := Enqueue(order);
      ghost var at := |orders| - 1;
      assert orders[at] == response && Views(orders)[at] == NewOrder(order, orderCounter);
      if order.kind == Market {
        var currentPrice := if order.symbol in currentPrices then Some(currentPrices[order.symbol]) else order.price;
        if currentPrice.Some? && currentPrice.value != 0.0 {
          UpdatePrice(order.symbol, currentPrice.value);
        }
      }
    }

    // The key of the book is the order id; a filled or unknown id is not found.
    method CancelOrder(id: nat) returns (found: bool)
      requires Valid()
      modifies orders
      ensures Valid() && Model() == Step(old(Model()), Cancelled(id))
      ensures found <==> id in OrderIds(old(Views(orders)))
      ensures found <==> exists k :: 0 <= k < |orders| && orders[k].id == id
      ensures forall k :: 0 <= k < |orders| ==>
        && orders[k].status == (if orders[k].id == id then Canceled else old(orders[k].status))
        && orders[k].filledQty == old(orders[k].filledQty) && orders[k].avgPrice == old(orders[k].avgPrice)
    {
      found := false;
      var i := 0;
      while i < |orders|
        invariant 0 <= i <= |orders|
        invariant forall k :: 0 <= k < i ==> orders[k].id != id
        invariant !found
        invariant forall k :: 0 <= k < |orders| ==> orders[k].View() == old(orders[k].View())
      {
        if orders[i].id == id {
          orders[i].status := Canceled;
          assert old(Views(orders))[i] in old(Views(orders));
          found := true;
          break;
        }
        i := i + 1;
      }
      assert Views(orders) == CancelWhere(old(Views(orders)), (o: Order) => o.id == id);
    }

    // The engine's cancel_all_orders, which works on this client's book.
    method CancelAllOrders(symbol: string)
      requires Valid()
      modifies orders
      ensures Valid() && Model() == Step(old(Model()), AllCancelled(symbol))
      ensures forall k :: 0 <= k < |orders| ==>
        && orders[k].status == (if orders[k].symbol == symbol && old(orders[k].status) == New
                                then Canceled else old(orders[k].status))
        && orders[k].filledQty == old(orders[k].filledQty) && orders[k].avgPrice == old(orders[k].avgPrice)
    {
      var i := 0;
      while i < |orders|
        invariant 0 <= i <= |orders|
        invariant forall k :: i <= k < |orders| ==> orders[k].View() == old(orders[k].View())
        invariant forall k :: 0 <= k < i ==>
          orders[k].View() == (if orders[k].symbol == symbol && old(orders[k].status) == New
                               then old(orders[k].View()).(status := Canceled) else old(orders[k].View()))
      {
        if orders[i].symbol == symbol && orders[i].status == New {
          orders[i].status := Canceled;
        }
        i := i + 1;
      }
      assert Views(orders)
          == CancelWhere(old(Views(orders)), (o: Order) => o.symbol == symbol && o.status == New);
    }

    // What get_account reports: each position is marked at the current price,
    // or at its own entry price while none is known.
    function MarkOf(): string -> real
      reads this
    {
      var cp, ps := currentPrices, positions;
      (s: string) => if s in cp then cp[s] else PositionOf(ps, s).entry
    }

    method GetAccount()
      returns (accountBalance: real, equity: real, unrealised: real, listed: map<string, PositionReport>)
      ensures accountBalance == balance
      ensures unrealised == Total(Marked(positions, MarkOf()))
      ensures equity == Equity(Book(), MarkOf())
      ensures forall s :: s in positions ==>
        MarkOf()(s) == if s in currentPrices then currentPrices[s] else positions[s].entry
      ensures listed.Keys == positions.Keys
      ensures forall s :: s in positions ==> ReportsPosition(listed[s], positions[s], MarkOf()(s))
    {
      unrealised, listed := 0.0, map[];
      ghost var m := Marked(positions, MarkOf());
      assert Restrict(m, positions.Keys) == m;
      hide ReportsPosition;
      var rest := positions.Keys;
      while rest != {}
        invariant rest <= positions.Keys
        invariant unrealised + Total(Restrict(m, rest)) == Total(m)
        invariant listed.Keys == positions.Keys - rest
        invariant forall s :: s in listed ==> ReportsPosition(listed[s], positions[s], MarkOf()(s))
        decreases rest
      {
        var s :| s in rest;
        var p := positions[s];
        var mark := if s in currentPrices then currentPrices[s] else p.entry;
        RestrictStep(m, rest, s);
        assert MarkOf()(s) == mark;
        var report := Report(p, mark);
        unrealised := unrealised + report.unrealised;
        listed := listed[s := report];
        rest := rest - {s};
      }
      assert Restrict(m, {}) == map[];
      return balance, balance + unrealised, unrealised, listed;
    }
  }
}
