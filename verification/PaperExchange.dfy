/** The paper exchange as a state machine over placed orders, cancellations and
    price updates. `PaperTrading` has the client object that takes its steps. */
module PaperExchange {
  import opened Options
  import opened PaperLedger

  datatype Kind = Market | Limit

  datatype Status = New | Filled | Canceled

  datatype Order = Order(id: nat, symbol: string, side: Side, kind: Kind, quantity: real, price: real,
                         status: Status, filledQty: real, avgPrice: real)

  datatype Request = Request(symbol: string, side: Side, kind: Kind, quantity: real, price: Option<real>)

  // `orders` is the book in placement order; the id n stands for "paper_n".
  datatype Exchange = Exchange(ledger: Ledger, orders: seq<Order>, counter: nat, fills: seq<Fill>,
                               prices: map<string, real>)

  datatype Event =
    | Placed(request: Request)
    | Cancelled(id: nat)
    | AllCancelled(symbol: string)
    | Priced(symbol: string, price: real)

  // ---------- one price update ----------

  // The price at which a market price fills an order, if it does.
  function FillPrice(o: Order, symbol: string, price: real): Option<real>
  {
    if o.symbol != symbol || o.status != New then None
    else if o.kind.Market? then Some(price)
    else if o.side.Buy? && price <= o.price then Some(o.price)
    else if o.side.Sell? && price >= o.price then Some(o.price)
    else None
  }

  function FillOf(o: Order, symbol: string, price: real): Fill
    requires FillPrice(o, symbol, price).Some?
  {
    Fill(o.id, o.symbol, o.side, FillPrice(o, symbol, price).value, o.quantity)
  }

  function NewFills(orders: seq<Order>, symbol: string, price: real): seq<Fill>
  {
    if orders == [] then []
    else
      var o := orders[|orders| - 1];
      NewFills(orders[..|orders| - 1], symbol, price)
      + (if FillPrice(o, symbol, price).Some? then [FillOf(o, symbol, price)] else [])
  }

  function Kept(orders: seq<Order>, symbol: string, price: real): seq<Order>
  {
    if orders == [] then []
    else
      var o := orders[|orders| - 1];
      Kept(orders[..|orders| - 1], symbol, price)
      + (if FillPrice(o, symbol, price).Some? then [] else [o])
  }

  function UpdatePrice(x: Exchange, symbol: string, price: real): Exchange
  {
    var fs := NewFills(x.orders, symbol, price);
    Exchange(Replay(x.ledger, fs), Kept(x.orders, symbol, price), x.counter, x.fills + fs,
             x.prices[symbol := price])
  }

  // ---------- orders ----------

  function PriceOrZero(price: Option<real>): real { if price.Some? then price.value else 0.0 }

  function NewOrder(r: Request, id: nat): Order
  {
    Order(id, r.symbol, r.side, r.kind, r.quantity, PriceOrZero(r.price), New, 0.0, 0.0)
  }

  // The price a market order trades at when it is placed; 0 counts as unknown.
  function ImmediatePrice(prices: map<string, real>, r: Request): Option<real>
  {
    var p := if r.symbol in prices then Some(prices[r.symbol]) else r.price;
    if r.kind.Market? && p.Some? && p.value != 0.0 then p else None
  }

  function Append(x: Exchange, o: Order): Exchange
  {
    x.(orders := x.orders + [o], counter := x.counter + 1)
  }

  function Place(x: Exchange, r: Request): Exchange
  {
    var y := Append(x, NewOrder(r, x.counter + 1));
    var p := ImmediatePrice(x.prices, r);
    if p.Some? then UpdatePrice(y, r.symbol, p.value) else y
  }

  function CancelWhere(orders: seq<Order>, chosen: Order -> bool): seq<Order>
  {
    seq(|orders|, i requires 0 <= i < |orders| =>
      if chosen(orders[i]) then orders[i].(status := Canceled) else orders[i])
  }

  function Step(x: Exchange, e: Event): Exchange
  {
    match e
    case Placed(r) => Place(x, r)
    case Cancelled(id) => x.(orders := CancelWhere(x.orders, (o: Order) => o.id == id))
    case AllCancelled(s) => x.(orders := CancelWhere(x.orders, (o: Order) => o.symbol == s && o.status == New))
    case Priced(s, p) => UpdatePrice(x, s, p)
  }

  function Start(balance: real): Exchange { Exchange(Ledger(balance, map[]), [], 0, [], map[]) }

  function Run(balance: real, events: seq<Event>): Exchange
  {
    if events == [] then Start(balance)
    else Step(Run(balance, events[..|events| - 1]), events[|events| - 1])
  }

  // ---------- what a sweep of the book does ----------

  function OrderIds(orders: seq<Order>): set<nat> { set o | o in orders :: o.id }

  function FillIds(fills: seq<Fill>): set<nat> { set f | f in fills :: f.id }

  ghost predicate Ascending(orders: seq<Order>)
  {
    forall i, j :: 0 <= i < j < |orders| ==> orders[i].id < orders[j].id
  }

  ghost predicate DistinctFills(fills: seq<Fill>)
  {
    forall i, j :: 0 <= i < j < |fills| ==> fills[i].id != fills[j].id
  }

  lemma {:induction false} SweepIds(orders: seq<Order>, symbol: string, price: real)
    ensures var fs, kept := NewFills(orders, symbol, price), Kept(orders, symbol, price);
      && |fs| + |kept| == |orders|
      && FillIds(fs) + OrderIds(kept) == OrderIds(orders)
  {
    if orders != [] {
      var init, o := orders[..|orders| - 1], orders[|orders| - 1];
      SweepIds(init, symbol, price);
      var fs, kept := NewFills(init, symbol, price), Kept(init, symbol, price);
      assert OrderIds(orders) == OrderIds(init) + {o.id} by { assert orders == init + [o]; }
      if FillPrice(o, symbol, price).Some? {
        var f := FillOf(o, symbol, price);
        assert FillIds(fs + [f]) == FillIds(fs) + {f.id};
      } else {
        assert OrderIds(kept + [o]) == OrderIds(kept) + {o.id};
      }
    }
  }

  lemma AscendingAppend(kept: seq<Order>, o: Order)
    requires Ascending(kept) && forall id :: id in OrderIds(kept) ==> id < o.id
    ensures Ascending(kept + [o])
    ensures OrderIds(kept + [o]) == OrderIds(kept) + {o.id}
  {
    assert forall k :: 0 <= k < |kept| ==> kept[k].id in OrderIds(kept);
  }

  lemma DistinctAppend(fs: seq<Fill>, f: Fill)
    requires DistinctFills(fs) && f.id !in FillIds(fs)
    ensures DistinctFills(fs + [f])
    ensures FillIds(fs + [f]) == FillIds(fs) + {f.id}
  {
    assert forall k :: 0 <= k < |fs| ==> fs[k].id in FillIds(fs);
  }

  lemma LastIsNewest(orders: seq<Order>)
    requires orders != [] && Ascending(orders)
    ensures var init := orders[..|orders| - 1];
      Ascending(init) && forall id :: id in OrderIds(init) ==> id < orders[|orders| - 1].id
  {
    var init := orders[..|orders| - 1];
    assert forall k :: 0 <= k < |init| ==> init[k].id < orders[|orders| - 1].id;
  }

  // Every order is either kept as it was or turned into exactly one fill.
  lemma {:induction false} SweepSplits(orders: seq<Order>, symbol: string, price: real)
    requires Ascending(orders)
    ensures var fs, kept := NewFills(orders, symbol, price), Kept(orders, symbol, price);
      FillIds(fs) !! OrderIds(kept) && Ascending(kept) && DistinctFills(fs)
  {
    if orders != [] {
      var init, o := orders[..|orders| - 1], orders[|orders| - 1];
      LastIsNewest(orders);
      SweepSplits(init, symbol, price);
      SweepIds(init, symbol, price);
      if FillPrice(o, symbol, price).Some? {
        DistinctAppend(NewFills(init, symbol, price), FillOf(o, symbol, price));
      } else {
        AscendingAppend(Kept(init, symbol, price), o);
      }
    }
  }

  // What is kept is exactly what the price leaves alone.
  lemma {:induction false} KeptMeaning(orders: seq<Order>, symbol: string, price: real)
    ensures forall o :: o in Kept(orders, symbol, price)
              <==> o in orders && FillPrice(o, symbol, price).None?
  {
    if orders != [] {
      KeptMeaning(orders[..|orders| - 1], symbol, price);
      assert orders == orders[..|orders| - 1] + [orders[|orders| - 1]];
    }
  }

  // Every new fill comes from an order that the price fills.
  lemma {:induction false} NewFillMeaning(orders: seq<Order>, symbol: string, price: real)
    ensures forall f :: f in NewFills(orders, symbol, price)
              <==> exists o :: o in orders && FillPrice(o, symbol, price).Some? && f == FillOf(o, symbol, price)
  {
    if orders != [] {
      var init, o := orders[..|orders| - 1], orders[|orders| - 1];
      NewFillMeaning(init, symbol, price);
      assert orders == init + [o];
      assert o in orders;
    }
  }

  // After a price update, no pending order of that symbol is still marketable.
  lemma NothingMarketableLeft(x: Exchange, symbol: string, price: real)
    ensures forall o :: o in UpdatePrice(x, symbol, price).orders
              && o.symbol == symbol && o.status == New
              ==> o.kind.Limit? && (if o.side.Buy? then price > o.price else price < o.price)
  {
    KeptMeaning(x.orders, symbol, price);
  }

  // Which placements trade at once, for the whole quantity: exactly those of
  // market orders when a price other than 0 is known, the current one of the
  // symbol or else the order's own. The order is then the newest fill. Every
  // other one only enters the book, even a limit order that the known price
  // would fill.
  lemma TradesAtOnceIff(x: Exchange, r: Request)
    ensures var x', id := Step(x, Placed(r)), x.counter + 1;
      var limit := if r.price.Some? then r.price.value else 0.0;
      var p := if r.symbol in x.prices then x.prices[r.symbol] else limit;
      && x'.counter == id
      && if r.kind.Market? && p != 0.0
         then x'.prices == x.prices[r.symbol := p]
              && |x'.fills| > |x.fills| && x'.fills[|x'.fills| - 1] == Fill(id, r.symbol, r.side, p, r.quantity)
         else x' == x.(counter := id, orders := x.orders
                       + [Order(id, r.symbol, r.side, r.kind, r.quantity, limit, New, 0.0, 0.0)])
  {
    hide NewFills, Kept, Replay, ApplyFill;
    var o, p := NewOrder(r, x.counter + 1), ImmediatePrice(x.prices, r);
    if p.Some? {
      NewestFills(x.orders, o, r.symbol, p.value);
      assert Place(x, r).fills == x.fills + NewFills(x.orders + [o], r.symbol, p.value);
    } else {
      assert Place(x, r) == Append(x, o);
    }
  }

  lemma NewestFills(orders: seq<Order>, o: Order, symbol: string, price: real)
    requires FillPrice(o, symbol, price).Some?
    ensures NewFills(orders + [o], symbol, price) == NewFills(orders, symbol, price) + [FillOf(o, symbol, price)]
  {
    assert (orders + [o])[..|orders|] == orders;
  }

  // ---------- the invariant of every run ----------

  // The requests that the events placed, in order; the n-th got id n.
  function Requests(events: seq<Event>): seq<Request>
  {
    if events == [] then []
    else
      var e := events[|events| - 1];
      Requests(events[..|events| - 1]) + (if e.Placed? then [e.request] else [])
  }

  ghost predicate OrderMatches(o: Order, r: Request)
  {
    o.symbol == r.symbol && o.side == r.side && o.kind == r.kind
    && o.quantity == r.quantity && o.price == PriceOrZero(r.price)
  }

  ghost predicate FillMatches(f: Fill, r: Request)
  {
    f.symbol == r.symbol && f.side == r.side && f.qty == r.quantity
    && (r.kind.Limit? ==> f.price == PriceOrZero(r.price))
  }

  function IssuedIds(x: Exchange): set<nat> { OrderIds(x.orders) + FillIds(x.fills) }

  // Ids: every issued id is in the book or filled, never both, never filled twice.
  ghost predicate IdsSplit(x: Exchange)
  {
    && Ascending(x.orders) && DistinctFills(x.fills)
    && OrderIds(x.orders) !! FillIds(x.fills)
    && (forall id: nat :: id in IssuedIds(x) <==> 1 <= id <= x.counter)
    && x.counter == |x.orders| + |x.fills|
  }

  ghost predicate Faithful(x: Exchange, rs: seq<Request>)
  {
    && |rs| == x.counter
    && (forall o :: o in x.orders ==> 1 <= o.id <= |rs| && o.status != Filled && OrderMatches(o, rs[o.id - 1]))
    && (forall f :: f in x.fills ==> 1 <= f.id <= |rs| && FillMatches(f, rs[f.id - 1]))
  }

  lemma UpdatePriceKeepsIds(x: Exchange, symbol: string, price: real)
    requires IdsSplit(x)
    ensures IdsSplit(UpdatePrice(x, symbol, price))
  {
    var fs := NewFills(x.orders, symbol, price);
    SweepSplits(x.orders, symbol, price);
    SweepIds(x.orders, symbol, price);
    assert FillIds(x.fills + fs) == FillIds(x.fills) + FillIds(fs);
    assert IssuedIds(UpdatePrice(x, symbol, price)) == IssuedIds(x);
    assert DistinctFills(x.fills + fs) by {
      forall i, j | 0 <= i < j < |x.fills + fs| ensures (x.fills + fs)[i].id != (x.fills + fs)[j].id {
        if i < |x.fills| <= j {
          assert x.fills[i].id in FillIds(x.fills);
          assert fs[j - |x.fills|].id in FillIds(fs);
        }
      }
    }
  }

  lemma AppendKeepsIds(x: Exchange, o: Order)
    requires IdsSplit(x) && o.id == x.counter + 1
    ensures IdsSplit(Append(x, o))
  {
    assert forall id :: id in OrderIds(x.orders) ==> id in IssuedIds(x);
    assert o.id !in IssuedIds(x);
    AscendingAppend(x.orders, o);
    assert IssuedIds(Append(x, o)) == IssuedIds(x) + {o.id};
  }

  lemma PlaceKeepsIds(x: Exchange, r: Request)
    requires IdsSplit(x)
    ensures IdsSplit(Place(x, r))
  {
    var o := NewOrder(r, x.counter + 1);
    AppendKeepsIds(x, o);
    var p := ImmediatePrice(x.prices, r);
    if p.Some? { UpdatePriceKeepsIds(Append(x, o), r.symbol, p.value); }
  }

  lemma CancelKeepsIds(x: Exchange, chosen: Order -> bool)
    requires IdsSplit(x)
    ensures IdsSplit(x.(orders := CancelWhere(x.orders, chosen)))
  {
    var os, c := x.orders, CancelWhere(x.orders, chosen);
    forall id ensures id in OrderIds(c) <==> id in OrderIds(os) {
      if id in OrderIds(c) {
        var k :| 0 <= k < |c| && c[k].id == id;
        assert os[k] in os;
      }
      if id in OrderIds(os) {
        var k :| 0 <= k < |os| && os[k].id == id;
        assert c[k] in c;
      }
    }
    assert OrderIds(c) == OrderIds(os);
    assert IssuedIds(x.(orders := c)) == IssuedIds(x);
  }

  lemma StepKeepsIds(x: Exchange, e: Event)
    requires IdsSplit(x)
    ensures IdsSplit(Step(x, e))
  {
    match e
    case Placed(r) => PlaceKeepsIds(x, r);
    case Cancelled(id) => CancelKeepsIds(x, (o: Order) => o.id == id);
    case AllCancelled(s) => CancelKeepsIds(x, (o: Order) => o.symbol == s && o.status == New);
    case Priced(s, p) => UpdatePriceKeepsIds(x, s, p);
  }

  lemma UpdatePriceKeepsFaithful(x: Exchange, rs: seq<Request>, symbol: string, price: real)
    requires Faithful(x, rs)
    ensures Faithful(UpdatePrice(x, symbol, price), rs)
  {
    KeptMeaning(x.orders, symbol, price);
    NewFillMeaning(x.orders, symbol, price);
  }

  lemma AppendKeepsFaithful(x: Exchange, rs: seq<Request>, r: Request)
    requires Faithful(x, rs)
    ensures Faithful(Append(x, NewOrder(r, x.counter + 1)), rs + [r])
  {
  }

  lemma StepKeepsFaithful(x: Exchange, rs: seq<Request>, e: Event)
    requires Faithful(x, rs)
    ensures Faithful(Step(x, e), rs + (if e.Placed? then [e.request] else []))
  {
    match e
    case Placed(r) =>
      var y := Append(x, NewOrder(r, x.counter + 1));
      AppendKeepsFaithful(x, rs, r);
      var p := ImmediatePrice(x.prices, r);
      if p.Some? { UpdatePriceKeepsFaithful(y, rs + [r], r.symbol, p.value); }
    case Cancelled(_) =>
      assert rs + [] == rs;
    case AllCancelled(_) =>
      assert rs + [] == rs;
    case Priced(s, p) =>
      assert rs + [] == rs;
      UpdatePriceKeepsFaithful(x, rs, s, p);
  }

  // Every run splits the issued ids into book and fills, and each order and
  // fill still says what its request said; limit fills are at the limit.
  lemma {:induction false} RunInvariant(balance: real, events: seq<Event>)
    ensures IdsSplit(Run(balance, events))
    ensures Faithful(Run(balance, events), Requests(events))
  {
    if events != [] {
      var n := |events| - 1;
      RunInvariant(balance, events[..n]);
      var x := Run(balance, events[..n]);
      StepKeepsFaithful(x, Requests(events[..n]), events[n]);
      StepKeepsIds(x, events[n]);
    }
  }

  // Balance and positions are exactly the replay of the recorded fills.
  lemma {:induction false} LedgerIsReplay(balance: real, events: seq<Event>)
    ensures Run(balance, events).ledger == Replay(Ledger(balance, map[]), Run(balance, events).fills)
    ensures PositionsOpen(Run(balance, events).ledger)
  {
    var l := Ledger(balance, map[]);
    if events != [] {
      var n := |events| - 1;
      LedgerIsReplay(balance, events[..n]);
      var x := Run(balance, events[..n]);
      var x' := Run(balance, events);
      ghost var fs := x'.fills[|x.fills|..];
      assert x'.fills == x.fills + fs && x'.ledger == Replay(x.ledger, fs);
      ReplayConcat(l, x.fills, fs);
    }
    ReplayKeepsPositionsOpen(l, Run(balance, events).fills);
  }

  // The conservation law over whole runs.
  lemma RunConservation(balance: real, events: seq<Event>, mark: string -> real)
    ensures var x := Run(balance, events);
      Equity(x.ledger, mark)
      == balance + Flows(x.fills, mark) + Corrections(Ledger(balance, map[]), x.fills)
  {
    LedgerIsReplay(balance, events);
    EquityOfReplay(Ledger(balance, map[]), Run(balance, events).fills, mark);
  }

  // A cancelled order stays in the book, and so is never filled.
  lemma {:induction false} CanceledStays(balance: real, events: seq<Event>, more: seq<Event>, o: Order)
    requires o in Run(balance, events).orders && o.status == Canceled
    ensures o in Run(balance, events + more).orders
    ensures o.id !in FillIds(Run(balance, events + more).fills)
    decreases |more|
  {
    if more == [] {
      assert events + more == events;
    } else {
      var n := |more| - 1;
      CanceledStays(balance, events, more[..n], o);
      assert (events + more)[..|events + more| - 1] == events + more[..n];
      CanceledStaysOneStep(Run(balance, events + more[..n]), more[n], o);
    }
    RunInvariant(balance, events + more);
    assert o.id in OrderIds(Run(balance, events + more).orders);
  }

  // A cancel marks the order of that id and changes nothing else.
  lemma CancelMarks(x: Exchange, id: nat)
    ensures var x' := Step(x, Cancelled(id));
      && |x'.orders| == |x.orders|
      && (forall k :: 0 <= k < |x.orders| ==>
            x'.orders[k] == if x.orders[k].id == id then x.orders[k].(status := Canceled) else x.orders[k])
      && x'.ledger == x.ledger && x'.fills == x.fills && x'.counter == x.counter && x'.prices == x.prices
  {
  }

  // Cancelling a symbol marks its new orders and changes nothing else.
  lemma CancelAllMarks(x: Exchange, symbol: string)
    ensures var x' := Step(x, AllCancelled(symbol));
      && |x'.orders| == |x.orders|
      && (forall k :: 0 <= k < |x.orders| ==>
            x'.orders[k] == if x.orders[k].symbol == symbol && x.orders[k].status == New
                            then x.orders[k].(status := Canceled) else x.orders[k])
      && x'.ledger == x.ledger && x'.fills == x.fills && x'.counter == x.counter && x'.prices == x.prices
  {
  }

  // An order in the book when it is cancelled is never filled, whatever
  // happens later.
  lemma CancelledNeverFills(balance: real, events: seq<Event>, more: seq<Event>, o: Order)
    requires o in Run(balance, events).orders
    ensures o.id !in FillIds(Run(balance, events + [Cancelled(o.id)] + more).fills)
  {
    var cancelled := events + [Cancelled(o.id)];
    assert cancelled[..|cancelled| - 1] == events;
    CancelMarks(Run(balance, events), o.id);
    var k :| 0 <= k < |Run(balance, events).orders| && Run(balance, events).orders[k] == o;
    var marked := Run(balance, cancelled).orders[k];
    assert marked == o.(status := Canceled);
    CanceledStays(balance, cancelled, more, marked);
  }

  // The same for each order that is new when its symbol is cancelled.
  lemma AllCancelledNeverFill(balance: real, events: seq<Event>, more: seq<Event>, o: Order)
    requires o in Run(balance, events).orders && o.status == New
    ensures o.id !in FillIds(Run(balance, events + [AllCancelled(o.symbol)] + more).fills)
  {
    var cancelled := events + [AllCancelled(o.symbol)];
    assert cancelled[..|cancelled| - 1] == events;
    CancelAllMarks(Run(balance, events), o.symbol);
    var k :| 0 <= k < |Run(balance, events).orders| && Run(balance, events).orders[k] == o;
    var marked := Run(balance, cancelled).orders[k];
    assert marked == o.(status := Canceled);
    CanceledStays(balance, cancelled, more, marked);
  }

  lemma CanceledStaysOneStep(x: Exchange, e: Event, o: Order)
    requires o in x.orders && o.status == Canceled
    ensures o in Step(x, e).orders
  {
    match e
    case Placed(r) =>
      var y := Append(x, NewOrder(r, x.counter + 1));
      var p := ImmediatePrice(x.prices, r);
      if p.Some? { KeptMeaning(y.orders, r.symbol, p.value); }
    case Cancelled(id) => CancelKeeps(x.orders, (o: Order) => o.id == id, o);
    case AllCancelled(s) => CancelKeeps(x.orders, (o: Order) => o.symbol == s && o.status == New, o);
    case Priced(s, p) => KeptMeaning(x.orders, s, p);
  }

  lemma CancelKeeps(orders: seq<Order>, chosen: Order -> bool, o: Order)
    requires o in orders && o.status == Canceled
    ensures o in CancelWhere(orders, chosen)
  {
    var k :| 0 <= k < |orders| && orders[k] == o;
    assert CancelWhere(orders, chosen)[k] == o;
  }

  // ---------- what a price does to an order ----------

  // At every price update of every run, for every order in the book: a new
  // order of the symbol that the price reaches leaves the book and is filled,
  // a limit order at its limit; every other one stays.
  lemma PriceDecides(balance: real, events: seq<Event>, symbol: string, p: real, o: Order)
    requires o in Run(balance, events).orders
    ensures var x, x' := Run(balance, events), Run(balance, events + [Priced(symbol, p)]);
      && x'.prices == x.prices[symbol := p] && x'.counter == x.counter && x.fills <= x'.fills
      && if o.symbol == symbol && o.status == New
            && (o.kind.Market? || if o.side.Buy? then p <= o.price else o.price <= p)
         then o.id !in OrderIds(x'.orders) && o.id !in FillIds(x.fills)
              && Fill(o.id, symbol, o.side, if o.kind.Market? then p else o.price, o.quantity) in x'.fills
         else o in x'.orders
  {
    var x, longer := Run(balance, events), events + [Priced(symbol, p)];
    assert longer[..|longer| - 1] == events;
    RunInvariant(balance, events);
    RunInvariant(balance, longer);
    hide Run, Faithful, UpdatePrice;
    SweepDecides(x, symbol, p, o);
  }

  lemma SweepDecides(x: Exchange, symbol: string, p: real, o: Order)
    requires o in x.orders && IdsSplit(x) && IdsSplit(UpdatePrice(x, symbol, p))
    ensures var x' := UpdatePrice(x, symbol, p);
      && x'.prices == x.prices[symbol := p] && x'.counter == x.counter && x.fills <= x'.fills
      && if o.symbol == symbol && o.status == New
            && (o.kind.Market? || if o.side.Buy? then p <= o.price else o.price <= p)
         then o.id !in OrderIds(x'.orders) && o.id !in FillIds(x.fills)
              && Fill(o.id, symbol, o.side, if o.kind.Market? then p else o.price, o.quantity) in x'.fills
         else o in x'.orders
  {
    KeptMeaning(x.orders, symbol, p);
    NewFillMeaning(x.orders, symbol, p);
    hide NewFills, Kept, Replay;
    assert o.id in OrderIds(x.orders);
    var x' := UpdatePrice(x, symbol, p);
    if FillPrice(o, symbol, p).Some? {
      var f := FillOf(o, symbol, p);
      assert f in NewFills(x.orders, symbol, p);
      assert f in x'.fills && f.id in FillIds(x'.fills);
    }
  }

  // ---------- fill prices and the market ----------

  // A market order fills at the market, a limit order at its limit with the
  // market at or through it.
  ghost predicate AtOrThrough(f: Fill, r: Request, market: real)
  {
    match r.kind
    case Market => f.price == market
    case Limit => f.price == (if r.price.Some? then r.price.value else 0.0)
                  && (if r.side.Buy? then market <= f.price else market >= f.price)
  }

  // The fill number k appears in the step from x to x', at a price that the
  // market of that moment gives to its request.
  ghost predicate FillsBetween(x: Exchange, x': Exchange, rs: seq<Request>, k: nat)
  {
    && |x.fills| <= k < |x'.fills|
    && var f := x'.fills[k];
    && f.symbol in x'.prices && 1 <= f.id <= |rs|
    && AtOrThrough(f, rs[f.id - 1], x'.prices[f.symbol])
  }

  ghost predicate FilledAt(balance: real, events: seq<Event>, n: nat, k: nat)
    requires n < |events|
  {
    FillsBetween(Run(balance, events[..n]), Run(balance, events[..n + 1]), Requests(events), k)
  }

  lemma SweepFillsThrough(y: Exchange, rs: seq<Request>, symbol: string, price: real, k: nat)
    requires Faithful(y, rs)
    requires |y.fills| <= k < |UpdatePrice(y, symbol, price).fills|
    ensures var x' := UpdatePrice(y, symbol, price);
      var f := x'.fills[k];
      f.symbol == symbol && 1 <= f.id <= |rs| && AtOrThrough(f, rs[f.id - 1], price)
  {
    NewFillMeaning(y.orders, symbol, price);
    var f := UpdatePrice(y, symbol, price).fills[k];
    assert f in NewFills(y.orders, symbol, price);
  }

  lemma StepFillsThrough(x: Exchange, rs: seq<Request>, e: Event, k: nat)
    requires Faithful(x, rs)
    requires |x.fills| <= k < |Step(x, e).fills|
    ensures FillsBetween(x, Step(x, e), rs + (if e.Placed? then [e.request] else []), k)
  {
    hide NewFills, Kept, Replay, AtOrThrough, Faithful, CancelWhere;
    match e
    case Placed(r) =>
      var y := Append(x, NewOrder(r, x.counter + 1));
      AppendKeepsFaithful(x, rs, r);
      var p := ImmediatePrice(x.prices, r);
      SweepFillsThrough(y, rs + [r], r.symbol, p.value, k);
    case Priced(s, p) =>
      SweepFillsThrough(x, rs, s, p, k);
      assert rs + [] == rs;
  }

  lemma {:induction false} RequestsPrefix(events: seq<Event>, n: nat)
    requires n <= |events|
    ensures Requests(events[..n]) <= Requests(events)
    decreases |events| - n
  {
    if n == |events| {
      assert events[..n] == events;
    } else {
      RequestsPrefix(events, n + 1);
      assert events[..n + 1][..n] == events[..n];
    }
  }

  lemma FilledAtExtends(balance: real, events: seq<Event>, m: nat, n: nat, k: nat)
    requires n < m <= |events| && FilledAt(balance, events[..m], n, k)
    ensures FilledAt(balance, events, n, k)
  {
    hide Run, Requests, AtOrThrough;
    assert events[..m][..n] == events[..n] && events[..m][..n + 1] == events[..n + 1];
    RequestsPrefix(events, m);
  }

  lemma LastEventFills(balance: real, events: seq<Event>, m: nat, k: nat)
    requires |events| == m + 1
    requires |Run(balance, events[..m]).fills| <= k < |Run(balance, events).fills|
    ensures FilledAt(balance, events, m, k)
  {
    RunInvariant(balance, events[..m]);
    StepFillsThrough(Run(balance, events[..m]), Requests(events[..m]), events[m], k);
    assert events[..m + 1] == events;
  }

  // Every fill of every run is made at some event: of a market order at the
  // market of that moment, of a limit order at its limit with the market at or
  // through it.
  lemma {:induction false} EveryFillThrough(balance: real, events: seq<Event>, k: nat) returns (n: nat)
    requires k < |Run(balance, events).fills|
    ensures n < |events| && FilledAt(balance, events, n, k)
  {
    var m := |events| - 1;
    if k < |Run(balance, events[..m]).fills| {
      n := EveryFillThrough(balance, events[..m], k);
      FilledAtExtends(balance, events, m, n, k);
    } else {
      n := m;
      LastEventFills(balance, events, m, k);
    }
  }
}
