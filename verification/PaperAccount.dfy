/** What the paper broker's operations do exactly, and the cash and statuses they leave behind over its runs. */
module PaperAccount {
  import opened Results
  import opened Sums
  import opened Ledger
  import opened LedgerProofs
  import opened DryRun
  import opened PaperRuns

  // ---------------------------------------------------------------- one operation

  /** A new order takes the next number; it fills whole at the market price exactly when it is a market order, a BUY
      at or below its limit or a SELL at or above it, and rests otherwise. A known client id changes nothing. */
  lemma PlacedExactly(b: Broker, r: Request, side: Side, market: bool, price: real)
    ensures
      var c := Placed(b, r, side, market, price).0;
      if exists i :: 0 <= i < |b.orders| && b.orders[i].order.id == r.id then c == b
      else
        && |c.orders| == |b.orders| + 1 && c.orders[..|b.orders|] == b.orders
        && var p := c.orders[|b.orders|];
           && p.orderId == b.sequence + 1 == c.sequence && p.market == market
           && p.order.id == r.id && p.order.symbol == r.symbol && p.order.side == side && p.order.qty == r.qty
           && p.order.price == r.price && p.order.purpose == r.purpose
           && if market || (side.Buy? && price <= r.price) || (side.Sell? && price >= r.price) then
                p.order.status.Filled? && p.order.filled == r.qty && p.order.avg == Some(price)
              else
                p.order.status.Pending? && p.order.filled == 0 && p.order.avg.None? && c.account == b.account
  {
    var k := PlaceOf(b.orders, r.id);
    assert k < |b.orders| ==> b.orders[k].order.id == r.id;
  }

  /** A cancel ends a working order, keeps what it filled, and leaves every other order and the account alone. */
  lemma CanceledExactly(b: Broker, k: nat)
    requires k < |b.orders|
    ensures
      var c, o := CanceledAt(b, k), b.orders[k].order;
      && c == b.(orders := c.orders) && |c.orders| == |b.orders|
      && (forall i :: 0 <= i < |b.orders| && i != k ==> c.orders[i] == b.orders[i])
      && c.orders[k] == b.orders[k].(order := c.orders[k].order)
      && c.orders[k].order == o.(status := c.orders[k].order.status)
      && c.orders[k].order.status == (if o.status.Pending? || o.status.PartialFilled? then Canceled else o.status)
  {
  }

  /** The rest of a working order trades whole: its size is filled and its notional grows by what the rest cost. */
  lemma RestFilledExactly(b: Broker, k: nat, price: real)
    requires k < |b.orders| && (b.orders[k].order.filled > 0 ==> b.orders[k].order.avg.Some?)
    ensures
      var c, o := RestFilled(b, k, price).0, b.orders[k].order;
      if !(o.status.Pending? || o.status.PartialFilled?) then c == b
      else
        && |c.orders| == |b.orders| && (forall i :: 0 <= i < |b.orders| && i != k ==> c.orders[i] == b.orders[i])
        && var n := c.orders[k].order;
           && n.status.Filled? && n.filled == (if o.filled < o.qty then o.qty else o.filled)
           && (o.filled < o.qty ==> Notional(n) - Notional(o) == (o.qty - o.filled) as real * price)
           && (o.filled >= o.qty ==> c.account == b.account && n.avg == o.avg)
  {
    var o := b.orders[k].order;
    if o.filled < o.qty {
      CompletionAddsNotional(o, price);
    }
  }

  /** A restart brings back exactly the rows with a number, nothing filled and a status CREATED, SUBMITTED or PENDING:
      once each, pending, as they were. */
  lemma {:induction false} RestoredExactly(rows: seq<Order>, numbers: map<ClientId, nat>, p: BrokerOrder)
    ensures
      p in RestingOrders(rows, numbers) <==>
        exists i :: 0 <= i < |rows| && rows[i].id in numbers && rows[i].filled == 0
          && (rows[i].status.Created? || rows[i].status.Submitted? || rows[i].status.Pending?)
          && p == BrokerOrder(numbers[rows[i].id], rows[i].(status := Pending, avg := None), false)
  {
    if |rows| > 0 {
      var n := |rows| - 1;
      RestoredExactly(rows[..n], numbers, p);
      assert forall i :: 0 <= i < n ==> rows[..n][i] == rows[i];
    }
  }

  // ---------------------------------------------------------------- the account's cash, over runs

  /** What an order took from the account so far; a SELL gave it. */
  function PaidFor(o: Order): real
  {
    if o.side.Buy? then Notional(o) else -Notional(o)
  }

  function Paid(): BrokerOrder -> real
  {
    (p: BrokerOrder) => PaidFor(p.order)
  }

  /** What the account would have had it never traded. */
  function Endowment(b: Broker): real
  {
    b.account.buyingPower + SumBy(b.orders, Paid())
  }

  lemma FillPays(a: Paper, o: Order)
    requires ApplyFill(a, o).Ok? && (o.filled == Applied(a.applied, o.id).filled ==> Notional(o) == Applied(a.applied, o.id).notional)
    ensures
      var more := Notional(o) - Applied(a.applied, o.id).notional;
      ApplyFill(a, o).value.buyingPower == a.buyingPower - (if o.side.Buy? then more else -more)
  {
  }

  /** One order of the book changed as the account says. */
  lemma OneOrderPaid(b: Broker, k: nat, n: Order, a: Paper)
    requires k < |b.orders| && n.side == b.orders[k].order.side
    requires a.buyingPower == b.account.buyingPower - (PaidFor(n) - PaidFor(b.orders[k].order))
    ensures Endowment(Broker(b.orders[k := b.orders[k].(order := n)], a, b.sequence)) == Endowment(b)
  {
    SumOneRow(b.orders, b.orders[k := b.orders[k].(order := n)], Paid(), Paid(), k);
  }

  lemma PlacingPays(s: State, b: Broker, r: Request, side: Side, market: bool, price: real)
    requires Together(s, b) && ActAllowed(s, b, OrderSent(r, side, market, price))
    requires Placed(b, r, side, market, price).1.Ok?
    ensures Endowment(Placed(b, r, side, market, price).0) == Endowment(b)
  {
    if PlaceOf(b.orders, r.id) == |b.orders| {
      var o := Opened(r, side, market, price);
      PlacedNew(b, r, side, market, price);
      UnplacedIsUnmarked(s, b, r.id);
      if o.status.Pending? {
        ZeroNotional(o);
      } else {
        FillPays(b.account, o);
      }
      SumAppend(b.orders, BrokerOrder(b.sequence + 1, o, market), Paid());
    }
  }

  /** What the account has applied of an order is what the order filled for. */
  lemma AppliedIsFilled(s: State, b: Broker, k: nat)
    requires Together(s, b) && k < |b.orders|
    ensures
      var o := b.orders[k].order;
      Applied(b.account.applied, o.id) == Progress(o.filled, Notional(o)) && SoundOrder(o)
  {
    assert OrderLinked(s.orders, b.account.applied, b.orders[k].order);
  }

  lemma RestPays(b: Broker, k: nat, price: real)
    requires k < |b.orders| && RestFilled(b, k, price).1.Ok?
    requires
      var o := b.orders[k].order;
      Working(o) && Applied(b.account.applied, o.id) == Progress(o.filled, Notional(o)) && o.filled < o.qty
    ensures Endowment(RestFilled(b, k, price).0) == Endowment(b)
  {
    var n := Completed(b.orders[k].order, price);
    FillPays(b.account, n);
    OneOrderPaid(b, k, n, ApplyFill(b.account, n).value);
  }

  lemma NoRestPaysNothing(b: Broker, k: nat, price: real)
    requires k < |b.orders| && Working(b.orders[k].order) && b.orders[k].order.filled >= b.orders[k].order.qty
    ensures Endowment(RestFilled(b, k, price).0) == Endowment(b)
  {
    var o := b.orders[k].order;
    assert Completed(o, price) == o.(status := Filled);
    OneOrderPaid(b, k, o.(status := Filled), b.account);
  }

  lemma TradingPays(s: State, b: Broker, k: nat, price: real)
    requires Together(s, b) && k < |b.orders| && RestFilled(b, k, price).1.Ok?
    ensures Endowment(RestFilled(b, k, price).0) == Endowment(b)
  {
    AppliedIsFilled(s, b, k);
    if !Working(b.orders[k].order) {
      assert RestFilled(b, k, price).0 == b;
    } else if b.orders[k].order.filled >= b.orders[k].order.qty {
      NoRestPaysNothing(b, k, price);
    } else {
      RestPays(b, k, price);
    }
  }

  lemma CancelingPays(b: Broker, k: nat)
    requires k < |b.orders|
    ensures Endowment(CanceledAt(b, k)) == Endowment(b)
  {
    if Working(b.orders[k].order) {
      OneOrderPaid(b, k, b.orders[k].order.(status := Canceled), b.account);
    }
  }

  lemma ActPays(c: Config, s: State, b: Broker, a: Act)
    requires ValidConfig(c) && Together(s, b) && ActAllowed(s, b, a) && Acted(c, s, b, a).Ok?
    ensures Endowment(Acted(c, s, b, a).value.1) == Endowment(b)
  {
    match a
    case OrderSent(r, side, market, price) => PlacingPays(s, b, r, side, market, price);
    case Traded(k, price) => if k < |b.orders| { TradingPays(s, b, k, price); }
    case CancelSent(k) =>
      if k < |b.orders| {
        CancelingPays(b, k);
      }
    case Polled(_) =>
    case OnLedger(_) =>
  }

  /** Over every run, buying power falls by what BUYs filled for and rises by what SELLs did, and by nothing else. */
  lemma {:induction false} BuyingPowerIsExplained(c: Config, s: State, b: Broker, acts: seq<Act>)
    requires ValidConfig(c) && Together(s, b) && ActsAllowed(c, s, b, acts) && ActRun(c, s, b, acts).Ok?
    ensures
      var e := ActRun(c, s, b, acts).value.1;
      e.account.buyingPower - b.account.buyingPower == SumBy(b.orders, Paid()) - SumBy(e.orders, Paid())
  {
    if |acts| > 0 {
      var head := acts[..|acts| - 1];
      BuyingPowerIsExplained(c, s, b, head);
      PaperRunAgrees(c, s, b, head);
      var m := ActRun(c, s, b, head).value;
      ActPays(c, m.0, m.1, acts[|acts| - 1]);
    }
  }

  // ---------------------------------------------------------------- statuses, over runs

  /** The ledger's row of an order says exactly what the broker says. */
  predicate Current(orders: seq<Order>, o: Order)
  {
    var k := IndexOf(orders, o.id);
    && k < |orders| && orders[k].status == o.status && orders[k].filled == o.filled
    && (o.avg.Some? ==> orders[k].avg == o.avg)
  }

  ghost predicate AllCurrent(s: State, b: Broker)
  {
    forall i :: 0 <= i < |b.orders| ==> Current(s.orders, b.orders[i].order)
  }

  lemma SyncStores(s: State, o: Order, x: Order)
    requires Synced(s, o).Ok?
    ensures Current(Synced(s, o).value.orders, o)
    ensures x.id != o.id && Current(s.orders, x) ==> Current(Synced(s, o).value.orders, x)
  {
    var k := IndexOf(s.orders, o.id);
    SyncedRows(s, o);
    IndexSameIds(s.orders, s.orders[k := Stored(s, o)], o.id);
    IndexSameIds(s.orders, s.orders[k := Stored(s, o)], x.id);
  }

  /** After a poll the row has the broker's status, fill and average, whatever it lagged behind before. */
  lemma PollIsStored(c: Config, s: State, b: Broker, k: nat)
    requires ValidConfig(c) && k < |b.orders| && Acted(c, s, b, Polled(k)).Ok?
    ensures Acted(c, s, b, Polled(k)).value.1 == b
    ensures Current(Acted(c, s, b, Polled(k)).value.0.orders, b.orders[k].order)
  {
    SyncStores(s, b.orders[k].order, b.orders[k].order);
  }

  lemma SyncKeepsAll(s: State, b: Broker, e: Broker, k: nat)
    requires AllCurrent(s, b) && k < |e.orders| && |b.orders| <= |e.orders|
    requires forall i :: 0 <= i < |e.orders| && i != k ==> i < |b.orders| && e.orders[i] == b.orders[i]
    requires forall i, j :: 0 <= i < j < |e.orders| ==> e.orders[i].order.id != e.orders[j].order.id
    requires Synced(s, e.orders[k].order).Ok?
    ensures AllCurrent(Synced(s, e.orders[k].order).value, e)
  {
    var o := e.orders[k].order;
    forall i | 0 <= i < |e.orders| ensures Current(Synced(s, o).value.orders, e.orders[i].order) {
      SyncStores(s, o, e.orders[i].order);
      if i != k {
        assert Current(s.orders, b.orders[i].order);
      }
    }
  }

  lemma ActKeepsCurrent(c: Config, s: State, b: Broker, a: Act)
    requires ValidConfig(c) && Together(s, b) && ActAllowed(s, b, a) && Acted(c, s, b, a).Ok? && AllCurrent(s, b)
    ensures AllCurrent(Acted(c, s, b, a).value.0, Acted(c, s, b, a).value.1)
  {
    match a
    case OrderSent(r, side, market, price) => SentKeepsCurrent(s, b, r, side, market, price);
    case Traded(k, price) => if k < |b.orders| { TradedKeepsCurrent(s, b, k, price); }
    case CancelSent(k) => if k < |b.orders| { CanceledKeepsCurrent(s, b, k); }
    case Polled(k) => if k < |b.orders| { ChangedKeepsCurrent(s, b, b, k); }
    case OnLedger(e) => LedgerRows(c, s, e); ReservedKeepsCurrent(s, Step(c, s, e), b);
  }

  lemma TradedKeepsCurrent(s: State, b: Broker, k: nat, price: real)
    requires Together(s, b) && AllCurrent(s, b) && k < |b.orders|
    requires RestFilled(b, k, price).1.Ok? && Synced(s, RestFilled(b, k, price).0.orders[k].order).Ok?
    ensures AllCurrent(Synced(s, RestFilled(b, k, price).0.orders[k].order).value, RestFilled(b, k, price).0)
  {
    ChangedKeepsCurrent(s, b, RestFilled(b, k, price).0, k);
  }

  lemma CanceledKeepsCurrent(s: State, b: Broker, k: nat)
    requires Together(s, b) && AllCurrent(s, b) && k < |b.orders|
    requires Synced(s, CanceledAt(b, k).orders[k].order).Ok?
    ensures AllCurrent(Synced(s, CanceledAt(b, k).orders[k].order).value, CanceledAt(b, k))
  {
    ChangedKeepsCurrent(s, b, CanceledAt(b, k), k);
  }

  lemma ChangedKeepsCurrent(s: State, b: Broker, e: Broker, k: nat)
    requires Together(s, b) && AllCurrent(s, b) && k < |b.orders| == |e.orders|
    requires e.orders[k].order.id == b.orders[k].order.id
    requires forall i :: 0 <= i < |e.orders| && i != k ==> e.orders[i] == b.orders[i]
    requires Synced(s, e.orders[k].order).Ok?
    ensures AllCurrent(Synced(s, e.orders[k].order).value, e)
  {
    SyncKeepsAll(s, b, e, k);
  }

  lemma SentKeepsCurrent(s: State, b: Broker, r: Request, side: Side, market: bool, price: real)
    requires Together(s, b) && AllCurrent(s, b) && Placed(b, r, side, market, price).1.Ok?
    requires Synced(s, Placed(b, r, side, market, price).1.value.order).Ok?
    ensures AllCurrent(Synced(s, Placed(b, r, side, market, price).1.value.order).value, Placed(b, r, side, market, price).0)
  {
    var k := PlaceOf(b.orders, r.id);
    if k == |b.orders| {
      PlacedNew(b, r, side, market, price);
    }
    SyncKeepsAll(s, b, Placed(b, r, side, market, price).0, k);
  }

  lemma ReservedKeepsCurrent(s: State, t: State, b: Broker)
    requires OnlyReserved(s, t) && AllCurrent(s, b)
    ensures AllCurrent(t, b)
  {
    forall i | 0 <= i < |b.orders| ensures Current(t.orders, b.orders[i].order) {
      assert Current(s.orders, b.orders[i].order);
      if t.orders != s.orders {
        IndexAppend(s.orders, t.orders[|s.orders|], b.orders[i].order.id);
      }
    }
  }

  /** Once every row is current it stays so over every run; from a broker without orders it always is. */
  lemma {:induction false} StatusesAgree(c: Config, s: State, b: Broker, acts: seq<Act>)
    requires ValidConfig(c) && Together(s, b) && ActsAllowed(c, s, b, acts) && ActRun(c, s, b, acts).Ok?
    requires AllCurrent(s, b)
    ensures AllCurrent(ActRun(c, s, b, acts).value.0, ActRun(c, s, b, acts).value.1)
  {
    if |acts| > 0 {
      var head := acts[..|acts| - 1];
      StatusesAgree(c, s, b, head);
      PaperRunAgrees(c, s, b, head);
      var m := ActRun(c, s, b, head).value;
      ActKeepsCurrent(c, m.0, m.1, acts[|acts| - 1]);
    }
  }
}
