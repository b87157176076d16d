/**
 The in-memory dry-run broker, and its agreement with the core ledger: same shares whenever
 every fill was applied, same average price when fills are applied as they happen, and the
 same core holdings after a restart.
 */
module DryRun {
  import opened Numeric
  import opened Results
  import opened Sums
  import opened Ledger
  import opened LedgerProofs
  import opened LedgerRuns

  datatype Holding = Holding(qty: nat, avg: real)

  function HoldingOf(holdings: map<Symbol, Holding>, y: Symbol): Holding
  {
    if y in holdings then holdings[y] else Holding(0, 0.0)
  }

  /** What `_apply_fill` reads and writes; `applied` holds each order's `_applied…` marks. */
  datatype Paper = Paper(holdings: map<Symbol, Holding>, applied: map<ClientId, Progress>, buyingPower: real)

  function Absorbed(h: Holding, side: Side, quantity: nat, notional: real): Result<Holding>
    requires quantity > 0
  {
    if side.Buy? then
      var total := h.qty + quantity;
      Ok(Holding(total, (CostAt(h.avg, h.qty) + notional) / total as real))
    else if quantity > h.qty then Err("sold more than held")
    else Ok(Holding(h.qty - quantity, if h.qty - quantity > 0 then h.avg else 0.0))
  }

  /** `_apply_fill` on an order whose cumulative execution is `o.filled` shares for `Notional(o)`. */
  function ApplyFill(b: Paper, o: Order): Result<Paper>
  {
    var p := Applied(b.applied, o.id);
    var quantity := o.filled - p.filled;
    var notional := Notional(o) - p.notional;
    if quantity < 0 || notional < 0.0 then Err("cumulative execution fell")
    else if quantity == 0 then Ok(b)
    else
      var h := Absorbed(HoldingOf(b.holdings, o.symbol), o.side, quantity, notional);
      if h.Err? then Err(h.reason)
      else Ok(Paper(
        b.holdings[o.symbol := h.value],
        b.applied[o.id := Progress(o.filled, Notional(o))],
        if o.side.Buy? then b.buyingPower - notional else b.buyingPower + notional))
  }

  // ---------------------------------------------------------------- the broker's three operations

  datatype BrokerOrder = BrokerOrder(orderId: nat, order: Order, market: bool)

  datatype Broker = Broker(orders: seq<BrokerOrder>, account: Paper, sequence: nat)

  /** Whether a limit order would trade at this price. */
  predicate Fillable(o: Order, market: bool, price: real)
  {
    market || (if o.side.Buy? then price <= o.price else price >= o.price)
  }

  predicate Working(o: Order)
  {
    o.status.Pending? || o.status.PartialFilled?
  }

  function PlaceOf(orders: seq<BrokerOrder>, id: ClientId): (k: nat)
    ensures k <= |orders|
    ensures k < |orders| ==> orders[k].order.id == id
    ensures forall i :: 0 <= i < k ==> orders[i].order.id != id
  {
    if |orders| == 0 then 0
    else
      var k := PlaceOf(orders[..|orders| - 1], id);
      if k < |orders| - 1 then k
      else if orders[|orders| - 1].order.id == id then |orders| - 1 else |orders|
  }

  /** A new order as it leaves `place_order`: filled whole at the market price, or pending. */
  function Opened(r: Request, side: Side, market: bool, price: real): Order
  {
    var o := NewOrder(r, side, 0).(status := Pending);
    if Fillable(o, market, price) then o.(status := Filled, filled := r.qty, avg := Some(price)) else o
  }

  /** `place_order`: a client id is placed once; a fill that raises leaves the order behind. */
  function Placed(b: Broker, r: Request, side: Side, market: bool, price: real): (Broker, Result<BrokerOrder>)
  {
    var k := PlaceOf(b.orders, r.id);
    if k < |b.orders| then (b, Ok(b.orders[k]))
    else
      var placed := BrokerOrder(b.sequence + 1, Opened(r, side, market, price), market);
      var c := b.(orders := b.orders + [placed], sequence := b.sequence + 1);
      if placed.order.status.Pending? then (c, Ok(placed))
      else
        var a := ApplyFill(b.account, placed.order);
        if a.Err? then (c, Err(a.reason)) else (c.(account := a.value), Ok(placed))
  }

  function PaidSoFar(o: Order): real
  {
    if o.filled > 0 && o.avg.Some? then o.avg.value * o.filled as real else 0.0
  }

  function WeightedAverage(o: Order, price: real): real
    requires o.qty > 0
  {
    (PaidSoFar(o) + (o.qty - o.filled) as real * price) / o.qty as real
  }

  /** The order once its remainder traded at `price`. */
  function Completed(o: Order, price: real): Order
  {
    if o.filled >= o.qty then o.(status := Filled)
    else o.(status := Filled, filled := o.qty, avg := Some(WeightedAverage(o, price)))
  }

  /** `_fill_remaining_order` */
  function RestFilled(b: Broker, k: nat, price: real): (Broker, Result<()>)
    requires k < |b.orders|
  {
    var o := b.orders[k].order;
    if !Working(o) then (b, Ok(()))
    else
      var n := Completed(o, price);
      var c := b.(orders := b.orders[k := b.orders[k].(order := n)]);
      if o.filled >= o.qty then (c, Ok(()))
      else
        var a := ApplyFill(b.account, n);
        if a.Err? then (c, Err(a.reason)) else (c.(account := a.value), Ok(()))
  }

  function CanceledAt(b: Broker, k: nat): Broker
    requires k < |b.orders|
  {
    if Working(b.orders[k].order) then
      b.(orders := b.orders[k := b.orders[k].(order := b.orders[k].order.(status := Canceled))])
    else b
  }

  /** The remainder adds shares, at a notional that grows by exactly what it cost. */
  lemma CompletionAddsNotional(o: Order, price: real)
    requires o.filled < o.qty && (o.filled > 0 ==> o.avg.Some?)
    ensures Notional(Completed(o, price)) == Notional(o) + (o.qty - o.filled) as real * price
  {
    var n := Completed(o, price);
    assert n.avg.value * n.qty as real == PaidSoFar(o) + (o.qty - o.filled) as real * price;
    if o.filled > 0 {
      assert PaidSoFar(o) == o.avg.value * o.filled as real == o.filled as real * o.avg.value;
    } else {
      ZeroNotional(o);
    }
  }

  class DryRunBroker {
    var orders: seq<BrokerOrder>
    var account: Paper
    var sequence: nat

    function Now(): Broker
      reads this
    {
      Broker(orders, account, sequence)
    }

    method PlaceOrder(request: Request, side: Side, market: bool, price: real) returns (out: Result<BrokerOrder>)
      modifies this
      ensures (Now(), out) == Placed(old(Now()), request, side, market, price)
    {
      var k := PlaceOf(orders, request.id);
      if k < |orders| {
        return Ok(orders[k]);
      }
      sequence := sequence + 1;
      var o := NewOrder(request, side, 0).(status := Pending);
      var fillable := Fillable(o, market, price);
      if fillable {
        o := o.(status := Filled, filled := request.qty, avg := Some(price));
      }
      var placed := BrokerOrder(sequence, o, market);
      orders := orders + [placed];
      if fillable {
        var applied := ApplyFill(account, o);
        if applied.Err? {
          return Err(applied.reason);
        }
        account := applied.value;
      }
      return Ok(placed);
    }

    /** The remainder trades at a new price: the average becomes the volume-weighted one. */
    method FillRemaining(k: nat, price: real) returns (out: Result<()>)
      requires k < |orders|
      modifies this`orders, this`account
      ensures (Now(), out) == RestFilled(old(Now()), k, price)
    {
      var o := orders[k].order;
      if !Working(o) {
        return Ok(());
      }
      var remaining := o.qty - o.filled;
      if remaining <= 0 {
        orders := orders[k := orders[k].(order := o.(status := Filled))];
        return Ok(());
      }
      o := o.(status := Filled, filled := o.qty, avg := Some(WeightedAverage(o, price)));
      orders := orders[k := orders[k].(order := o)];
      var applied := ApplyFill(account, o);
      if applied.Err? {
        return Err(applied.reason);
      }
      account := applied.value;
      return Ok(());
    }

    method CancelOrder(k: nat)
      requires k < |orders|
      modifies this`orders
      ensures Now() == CanceledAt(old(Now()), k)
    {
      var o := orders[k].order;
      if Working(o) {
        orders := orders[k := orders[k].(order := o.(status := Canceled))];
      }
    }

    /** Resting orders come back pending, and no number of the past is used again. */
    method RestoreOrders(rows: seq<Order>, numbers: map<ClientId, nat>)
      requires orders == []
      modifies this`orders, this`sequence
      ensures orders == RestingOrders(rows, numbers) && sequence >= old(sequence)
      ensures forall i :: 0 <= i < |rows| && rows[i].id in numbers ==> numbers[rows[i].id] <= sequence
    {
      for i := 0 to |rows|
        invariant orders == RestingOrders(rows[..i], numbers) && sequence >= old(sequence)
        invariant forall j :: 0 <= j < i && rows[j].id in numbers ==> numbers[rows[j].id] <= sequence
      {
        assert rows[..i + 1][..i] == rows[..i];
        if rows[i].id in numbers && numbers[rows[i].id] > sequence {
          sequence := numbers[rows[i].id];
        }
        if Restorable(rows[i], numbers) {
          orders := orders + [RestingOrder(rows[i], numbers)];
        }
      }
      assert rows[..|rows|] == rows;
    }

    /** `restore_dry_run_holdings`: core rows and booster positions, summed per symbol. */
    method RestoreHoldings(core: seq<CoreRow>, boosters: seq<Booster>, cash: real)
      modifies this`account
      ensures Restored(account.holdings, core, boosters)
      ensures account.applied == map[] && account.buyingPower == Max(0.0, cash)
    {
      var totals: map<Symbol, Total> := map[];
      for i := 0 to |core|
        invariant Summed(totals, core[..i], [])
      {
        assert core[..i + 1][..i] == core[..i];
        if core[i].qty > 0 {
          totals := Added(totals, core[i].symbol, core[i].qty, core[i].cost);
        }
      }
      assert core[..|core|] == core;
      for i := 0 to |boosters|
        invariant Summed(totals, core, boosters[..i])
      {
        assert boosters[..i + 1][..i] == boosters[..i];
        if boosters[i].qty > 0 {
          totals := Added(totals, boosters[i].symbol, boosters[i].qty, boosters[i].cost);
        }
      }
      assert boosters[..|boosters|] == boosters;
      var holdings := map y | y in totals :: Holding(totals[y].qty, PerShare(totals[y].cost, totals[y].qty));
      account := Paper(holdings, map[], Max(0.0, cash));
    }
  }

  // ---------------------------------------------------------------- orders after a restart

  /** An open row with a DRY id and nothing filled; `numbers` holds the number in each row's DRY id. */
  predicate Restorable(o: Order, numbers: map<ClientId, nat>)
  {
    && o.id in numbers && o.filled == 0
    && (o.status.Created? || o.status.Submitted? || o.status.Pending?)
  }

  function RestingOrder(o: Order, numbers: map<ClientId, nat>): BrokerOrder
    requires o.id in numbers
  {
    BrokerOrder(numbers[o.id], o.(status := Pending, avg := None), false)
  }

  /** `restore_dry_run_orders`: the provable open orders, in table order. */
  function RestingOrders(orders: seq<Order>, numbers: map<ClientId, nat>): seq<BrokerOrder>
  {
    if |orders| == 0 then []
    else
      var o := orders[|orders| - 1];
      RestingOrders(orders[..|orders| - 1], numbers) + if Restorable(o, numbers) then [RestingOrder(o, numbers)] else []
  }

  // ---------------------------------------------------------------- holdings after a restart

  /** A direct strategy position, expected to be empty but rebuilt if it is not. */
  datatype Booster = Booster(symbol: Symbol, qty: nat, cost: real)

  datatype Total = Total(qty: nat, cost: real)

  function Added(totals: map<Symbol, Total>, y: Symbol, qty: nat, cost: real): map<Symbol, Total>
    requires qty > 0
  {
    totals[y := if y in totals then Total(totals[y].qty + qty, totals[y].cost + cost) else Total(qty, cost)]
  }

  function CoreQty(core: seq<CoreRow>, y: Symbol): nat
  {
    if |core| == 0 then 0
    else CoreQty(core[..|core| - 1], y) + if core[|core| - 1].symbol == y then core[|core| - 1].qty else 0
  }

  function CoreCost(core: seq<CoreRow>, y: Symbol): real
  {
    if |core| == 0 then 0.0
    else
      var r := core[|core| - 1];
      CoreCost(core[..|core| - 1], y) + if r.symbol == y && r.qty > 0 then r.cost else 0.0
  }

  function BoosterQty(boosters: seq<Booster>, y: Symbol): nat
  {
    if |boosters| == 0 then 0
    else
      BoosterQty(boosters[..|boosters| - 1], y)
      + if boosters[|boosters| - 1].symbol == y then boosters[|boosters| - 1].qty else 0
  }

  function BoosterCost(boosters: seq<Booster>, y: Symbol): real
  {
    if |boosters| == 0 then 0.0
    else
      var p := boosters[|boosters| - 1];
      BoosterCost(boosters[..|boosters| - 1], y) + if p.symbol == y && p.qty > 0 then p.cost else 0.0
  }

  function TotalQty(core: seq<CoreRow>, boosters: seq<Booster>, y: Symbol): nat
  {
    CoreQty(core, y) + BoosterQty(boosters, y)
  }

  function TotalCost(core: seq<CoreRow>, boosters: seq<Booster>, y: Symbol): real
  {
    CoreCost(core, y) + BoosterCost(boosters, y)
  }

  function PerShare(cost: real, qty: nat): real
    requires qty > 0
  {
    cost / qty as real
  }

  ghost predicate Summed(totals: map<Symbol, Total>, core: seq<CoreRow>, boosters: seq<Booster>)
  {
    forall y :: if y in totals then
      totals[y].qty > 0 && totals[y] == Total(TotalQty(core, boosters, y), TotalCost(core, boosters, y))
    else TotalQty(core, boosters, y) == 0 && TotalCost(core, boosters, y) == 0.0
  }

  /** Every symbol with shares, and no other, at its summed cost per share. */
  ghost predicate Restored(holdings: map<Symbol, Holding>, core: seq<CoreRow>, boosters: seq<Booster>)
  {
    && (forall y :: y in holdings <==> TotalQty(core, boosters, y) > 0)
    && (forall y :: y in holdings ==>
          holdings[y] == Holding(TotalQty(core, boosters, y),
                                 PerShare(TotalCost(core, boosters, y), TotalQty(core, boosters, y))))
  }

  lemma {:induction false} CoreTotalIsTheRow(core: seq<CoreRow>, y: Symbol)
    requires UniqueSymbols(core)
    ensures var k := RowOf(core, y);
            if k == |core| then CoreQty(core, y) == 0 && CoreCost(core, y) == 0.0
            else CoreQty(core, y) == core[k].qty && CoreCost(core, y) == if core[k].qty > 0 then core[k].cost else 0.0
  {
    if |core| > 0 {
      CoreTotalIsTheRow(core[..|core| - 1], y);
    }
  }

  /** After a restart the rebuilt broker holds, of every symbol, the core row's shares and any booster's; where
      there is no booster it holds exactly the core row at its average. */
  method RestartAgrees(broker: DryRunBroker, core: seq<CoreRow>, boosters: seq<Booster>, cash: real)
    requires UniqueSymbols(core) && forall j :: 0 <= j < |core| ==> RowOk(core[j])
    modifies broker`account
    ensures forall j :: 0 <= j < |core| ==>
              && HoldingOf(broker.account.holdings, core[j].symbol).qty == core[j].qty + BoosterQty(boosters, core[j].symbol)
              && (BoosterQty(boosters, core[j].symbol) == 0 ==>
                    RowMatches(core[j], HoldingOf(broker.account.holdings, core[j].symbol)))
    ensures broker.account.applied == map[]
  {
    broker.RestoreHoldings(core, boosters, cash);
    forall j | 0 <= j < |core|
      ensures HoldingOf(broker.account.holdings, core[j].symbol).qty == core[j].qty + BoosterQty(boosters, core[j].symbol)
      ensures BoosterQty(boosters, core[j].symbol) == 0 ==>
                RowMatches(core[j], HoldingOf(broker.account.holdings, core[j].symbol))
    {
      RestoredRow(broker.account.holdings, core, boosters, j);
    }
  }

  lemma RestoredRow(holdings: map<Symbol, Holding>, core: seq<CoreRow>, boosters: seq<Booster>, j: nat)
    requires Restored(holdings, core, boosters) && UniqueSymbols(core) && j < |core| && RowOk(core[j])
    ensures HoldingOf(holdings, core[j].symbol).qty == core[j].qty + BoosterQty(boosters, core[j].symbol)
    ensures BoosterQty(boosters, core[j].symbol) == 0 ==> RowMatches(core[j], HoldingOf(holdings, core[j].symbol))
  {
    var y := core[j].symbol;
    CoreTotalIsTheRow(core, y);
    assert RowOf(core, y) == j;
    if BoosterQty(boosters, y) == 0 {
      NoSharesNoCost(boosters, y);
      if core[j].qty > 0 {
        AverageOf(core[j].avg, core[j].qty, core[j].cost);
      }
    }
  }

  lemma {:induction false} NoSharesNoCost(boosters: seq<Booster>, y: Symbol)
    requires BoosterQty(boosters, y) == 0
    ensures BoosterCost(boosters, y) == 0.0
  {
    if |boosters| > 0 {
      NoSharesNoCost(boosters[..|boosters| - 1], y);
    }
  }

  lemma AverageOf(avg: real, qty: nat, cost: real)
    requires qty > 0 && cost == avg * qty as real
    ensures PerShare(cost, qty) == avg
  {
    var x, q := cost / qty as real, qty as real;
    assert x * q == avg * q;
    assert (x - avg) * q == 0.0;
  }

  // ---------------------------------------------------------------- shares, over any interleaving

  /** Shares the broker held before any of these orders. */
  function BrokerOpening(b: Paper, orders: seq<Order>, y: Symbol): int
  {
    HoldingOf(b.holdings, y).qty - CountBy(orders, NetApplied(b.applied, y))
  }

  /** The ledger and the paper account move independently. */
  datatype Deal = LedgerMoved(e: Event) | BrokerFilled(o: Order)

  function DealStep(c: Config, s: State, b: Paper, d: Deal): (State, Paper)
    requires ValidConfig(c)
  {
    match d
    case LedgerMoved(e) => (Step(c, s, e), b)
    case BrokerFilled(o) =>
      var a := ApplyFill(b, o);
      (s, if a.Ok? then a.value else b)
  }

  function DealRun(c: Config, s: State, b: Paper, ds: seq<Deal>): (State, Paper)
    requires ValidConfig(c)
  {
    if |ds| == 0 then (s, b)
    else
      var m := DealRun(c, s, b, ds[..|ds| - 1]);
      DealStep(c, m.0, m.1, ds[|ds| - 1])
  }

  /** The broker fills only orders the ledger reserved first, and only core orders. */
  predicate DealAllowed(s: State, d: Deal)
  {
    match d
    case LedgerMoved(e) => ShareAllowed(s, e)
    case BrokerFilled(o) =>
      var k := IndexOf(s.orders, o.id);
      k < |s.orders| && s.orders[k].symbol == o.symbol && s.orders[k].side == o.side && !s.orders[k].purpose.OtherPurpose?
  }

  predicate DealsAllowed(c: Config, s: State, b: Paper, ds: seq<Deal>)
    requires ValidConfig(c)
  {
    |ds| > 0 ==>
      && DealsAllowed(c, s, b, ds[..|ds| - 1])
      && DealAllowed(DealRun(c, s, b, ds[..|ds| - 1]).0, ds[|ds| - 1])
  }

  /** Every order the broker has marks for is a row of the ledger. */
  predicate MarksKnown(s: State, b: Paper)
  {
    forall id :: id in b.applied ==> IndexOf(s.orders, id) < |s.orders|
  }

  /** One application moves this order's shares and this order's mark only. */
  lemma ApplyFillMoves(b: Paper, o: Order, y: Symbol)
    requires ApplyFill(b, o).Ok?
    ensures
      var t, quantity := ApplyFill(b, o).value, o.filled - Applied(b.applied, o.id).filled;
      && Applied(t.applied, o.id).filled == o.filled
      && (forall id :: id != o.id ==> Applied(t.applied, id) == Applied(b.applied, id))
      && HoldingOf(t.holdings, y).qty - HoldingOf(b.holdings, y).qty
         == (if y != o.symbol then 0 else if o.side.Buy? then quantity else -quantity)
  {
    var p := Applied(b.applied, o.id);
    if o.filled > p.filled {
      var h := Absorbed(HoldingOf(b.holdings, o.symbol), o.side, o.filled - p.filled, Notional(o) - p.notional);
      assert h.Ok?;
    }
  }

  lemma BrokerConserves(orders: seq<Order>, b: Paper, o: Order, y: Symbol)
    requires UniqueIds(orders) && IndexOf(orders, o.id) < |orders|
    requires
      var r := orders[IndexOf(orders, o.id)];
      r.symbol == o.symbol && r.side == o.side && !r.purpose.OtherPurpose?
    requires ApplyFill(b, o).Ok?
    ensures BrokerOpening(ApplyFill(b, o).value, orders, y) == BrokerOpening(b, orders, y)
  {
    var t, k := ApplyFill(b, o).value, IndexOf(orders, o.id);
    var f, g := NetApplied(b.applied, y), NetApplied(t.applied, y);
    ApplyFillMoves(b, o, y);
    forall i | 0 <= i < |orders| && i != k ensures f(orders[i]) == g(orders[i]) {
      assert orders[i].id != o.id;
    }
    CountOneRow(orders, orders, f, g, k);
  }

  /** The rows a step keeps are the same orders; at most one joins them at the end. */
  predicate RowsKept(orders: seq<Order>, next: seq<Order>)
  {
    && |orders| <= |next| <= |orders| + 1
    && (forall i :: 0 <= i < |orders| ==>
          next[i].id == orders[i].id && next[i].symbol == orders[i].symbol
          && next[i].side == orders[i].side && next[i].purpose == orders[i].purpose)
    && (|next| > |orders| ==> IndexOf(orders, next[|orders|].id) == |orders|)
  }

  lemma StepKeepsRows(c: Config, s: State, e: Event)
    requires ValidConfig(c)
    ensures RowsKept(s.orders, Step(c, s, e).orders)
  {
    if e.Recovered? {
      ApplyAllKeepsOrders(s, Unapplied(s.orders, s.progress));
    }
  }

  lemma LedgerKeepsBrokerOpening(orders: seq<Order>, next: seq<Order>, b: Paper, y: Symbol)
    requires RowsKept(orders, next) && forall id :: id in b.applied ==> IndexOf(orders, id) < |orders|
    ensures BrokerOpening(b, next, y) == BrokerOpening(b, orders, y)
    ensures forall id :: id in b.applied ==> IndexOf(next, id) < |next|
  {
    var n, f := |orders|, NetApplied(b.applied, y);
    var same := next[..n];
    CountAgree(orders, same, f, f);
    if |next| > n {
      assert next == same + [next[n]];
      CountAppend(same, next[n], f);
      assert next[n].id !in b.applied;
    } else {
      assert next == same;
    }
    forall id | id in b.applied ensures IndexOf(next, id) < |next| {
      IndexSameIds(orders, same, id);
      if |next| > n {
        IndexAppend(same, next[n], id);
      }
    }
  }

  /** Equal openings stay equal, whatever each side does and whenever. */
  lemma {:induction false} OpeningsStayEqual(c: Config, s: State, b: Paper, ds: seq<Deal>, y: Symbol)
    requires ValidConfig(c) && KeysOk(s) && MarksKnown(s, b) && DealsAllowed(c, s, b, ds)
    requires BrokerOpening(b, s.orders, y) == OpeningQty(s, y)
    ensures
      var t := DealRun(c, s, b, ds);
      KeysOk(t.0) && MarksKnown(t.0, t.1) && BrokerOpening(t.1, t.0.orders, y) == OpeningQty(t.0, y)
  {
    if |ds| > 0 {
      OpeningsStayEqual(c, s, b, ds[..|ds| - 1], y);
      var m := DealRun(c, s, b, ds[..|ds| - 1]);
      match ds[|ds| - 1]
      case LedgerMoved(e) =>
        StepConserves(c, m.0, e, y);
        StepKeepsRows(c, m.0, e);
        LedgerKeepsBrokerOpening(m.0.orders, Step(c, m.0, e).orders, m.1, y);
      case BrokerFilled(o) =>
        if ApplyFill(m.1, o).Ok? {
          BrokerConserves(m.0.orders, m.1, o, y);
        }
    }
  }

  predicate BrokerSettled(s: State, b: Paper, y: Symbol)
  {
    forall i :: 0 <= i < |s.orders| && CoreOrderOf(s.orders[i], y) ==>
      Applied(b.applied, s.orders[i].id).filled == s.orders[i].filled
  }

  /** From equal openings, over any interleaving of ledger transactions, crashes, recoveries and broker
      fills: whenever both sides have applied every fill their shares agree. */
  lemma SharesAgreeWhenSettled(c: Config, s: State, b: Paper, ds: seq<Deal>, y: Symbol)
    requires ValidConfig(c) && KeysOk(s) && MarksKnown(s, b) && DealsAllowed(c, s, b, ds)
    requires BrokerOpening(b, s.orders, y) == OpeningQty(s, y)
    ensures
      var t := DealRun(c, s, b, ds);
      Quiescent(t.0) && BrokerSettled(t.0, t.1, y) ==> HoldingOf(t.1.holdings, y).qty == HeldQty(t.0, y)
  {
    OpeningsStayEqual(c, s, b, ds, y);
    var t := DealRun(c, s, b, ds);
    if Quiescent(t.0) && BrokerSettled(t.0, t.1, y) {
      QuiescentHoldings(t.0, y);
      CountAgree(t.0.orders, t.0.orders, NetApplied(t.1.applied, y), NetFilled(y));
    }
  }

  // ---------------------------------------------------------------- averages, one refresh at a time

  /** No cost is left on a row without shares. */
  predicate CostFollowsShares(core: seq<CoreRow>)
  {
    forall j :: 0 <= j < |core| ==> core[j].cost == CostAt(core[j].avg, core[j].qty)
  }

  predicate RowMatches(row: CoreRow, h: Holding)
  {
    h.qty == row.qty && (row.qty > 0 ==> h.avg == row.avg)
  }

  /** Both sides applied the same of an order; what a SELL brought does not matter to a holding. */
  predicate SameMark(o: Order, p: Progress, q: Progress)
  {
    p.filled == q.filled && (o.side.Buy? ==> p.notional == q.notional)
  }

  predicate HoldingsMatch(core: seq<CoreRow>, b: Paper)
  {
    && CostFollowsShares(core)
    && forall j :: 0 <= j < |core| ==> RowMatches(core[j], HoldingOf(b.holdings, core[j].symbol))
  }

  predicate MarkAt(s: State, b: Paper, k: nat)
    requires k < |s.orders|
  {
    SameMark(s.orders[k], Applied(b.applied, s.orders[k].id), Applied(s.progress, s.orders[k].id))
  }

  predicate Matches(s: State, b: Paper)
  {
    HoldingsMatch(s.core, b) && forall i :: 0 <= i < |s.orders| ==> MarkAt(s, b, i)
  }

  lemma DeltaMatches(row: CoreRow, h: Holding, o: Order, p: Progress, q: Progress)
    requires RowMatches(row, h) && row.cost == CostAt(row.avg, row.qty) && SameMark(o, q, p)
    requires p.filled < o.filled
    ensures
      var next := AppliedRow(row, o, p);
      var held := Absorbed(h, o.side, o.filled - q.filled, Notional(o) - q.notional);
      next.Ok? && held.Ok? ==>
        RowMatches(next.value, held.value) && next.value.cost == CostAt(next.value.avg, next.value.qty)
  {
    if row.qty == 0 {
      assert row.cost == 0.0 && CostAt(h.avg, h.qty) == 0.0;
    }
  }

  /** One broker fill, refreshed and applied to the ledger before the next one. */
  function JointStep(s: State, b: Paper, u: Snapshot): Result<(State, Paper)>
  {
    var refreshed := UpdateOrder(s, u);
    if refreshed.Err? then Err(refreshed.reason)
    else
      var o := refreshed.value.orders[IndexOf(s.orders, u.id)];
      var filled := ApplyFill(b, o);
      var booked := ApplyCoreFill(refreshed.value, u.id);
      if filled.Err? then Err(filled.reason)
      else if booked.Err? then Err(booked.reason)
      else Ok((booked.value, filled.value))
  }

  /** The snapshot does not change what shares already applied of a BUY cost. */
  predicate NoBuyCorrection(s: State, u: Snapshot)
  {
    UpdateOrder(s, u).Ok? ==>
      var o := UpdateOrder(s, u).value.orders[IndexOf(s.orders, u.id)];
      var p := Applied(s.progress, u.id);
      o.side.Buy? && o.filled == p.filled ==> Notional(o) == p.notional
  }

  lemma FillMatches(m: State, b: Paper, k: nat)
    requires TablesOk(m) && HoldingsMatch(m.core, b)
    requires k < |m.orders| && !m.orders[k].purpose.OtherPurpose? && MarkAt(m, b, k)
    requires
      var o := m.orders[k];
      var p := Applied(m.progress, o.id);
      o.filled > p.filled && ApplyFill(b, o).Ok? && ApplyCoreFill(m, o.id).Ok?
    ensures
      var t, c := ApplyCoreFill(m, m.orders[k].id).value, ApplyFill(b, m.orders[k]).value;
      HoldingsMatch(t.core, c) && t.orders == m.orders && MarkAt(t, c, k)
  {
    var o := m.orders[k];
    var p := Applied(m.progress, o.id);
    IndexUnique(m.orders, k);
    var j := RowOf(m.core, o.symbol);
    DeltaMatches(m.core[j], HoldingOf(b.holdings, o.symbol), o, p, Applied(b.applied, o.id));
  }

  /** A price-only correction of a SELL moves neither shares nor averages. */
  lemma CorrectionMatches(m: State, b: Paper, k: nat)
    requires TablesOk(m) && HoldingsMatch(m.core, b)
    requires k < |m.orders| && !m.orders[k].purpose.OtherPurpose? && MarkAt(m, b, k)
    requires
      var o := m.orders[k];
      var p := Applied(m.progress, o.id);
      o.filled == p.filled && (o.side.Buy? ==> Notional(o) == p.notional)
      && ApplyFill(b, o).Ok? && ApplyCoreFill(m, o.id).Ok?
    ensures
      var t, c := ApplyCoreFill(m, m.orders[k].id).value, ApplyFill(b, m.orders[k]).value;
      HoldingsMatch(t.core, c) && t.orders == m.orders && MarkAt(t, c, k)
  {
    IndexUnique(m.orders, k);
  }

  /** One refreshed and applied order: holdings still match, and so do the two marks of that order. */
  lemma JointStepMatches(s: State, b: Paper, u: Snapshot)
    requires TablesOk(s) && Allowed(s, OrderRefreshed(u)) && NoBuyCorrection(s, u)
    requires HoldingsMatch(s.core, b) && JointStep(s, b, u).Ok?
    requires
      var k := IndexOf(s.orders, u.id);
      MarkAt(s, b, k) && !s.orders[k].purpose.OtherPurpose?
    ensures
      var t := JointStep(s, b, u).value;
      && TablesOk(t.0) && HoldingsMatch(t.0.core, t.1)
      && |t.0.orders| == |s.orders| && MarkAt(t.0, t.1, IndexOf(s.orders, u.id))
  {
    var m := UpdateOrder(s, u).value;
    RefreshTables(s, u);
    var k := IndexOf(s.orders, u.id);
    IndexUnique(m.orders, k);
    ApplyKeepsTables(m, k);
    if m.orders[k].filled > Applied(m.progress, u.id).filled {
      FillMatches(m, b, k);
    } else {
      CorrectionMatches(m, b, k);
    }
  }

  /** Applying one order leaves the marks of every other. */
  lemma OtherMarksStay(s: State, b: Paper, u: Snapshot, i: nat)
    requires TablesOk(s) && JointStep(s, b, u).Ok?
    requires i < |s.orders| && i != IndexOf(s.orders, u.id) && MarkAt(s, b, i)
    ensures
      var t := JointStep(s, b, u).value;
      |t.0.orders| == |s.orders| && MarkAt(t.0, t.1, i)
  {
  }

  lemma ApplyKeepsTables(m: State, k: nat)
    requires TablesOk(m) && k < |m.orders| && !m.orders[k].purpose.OtherPurpose?
    requires ApplyCoreFill(m, m.orders[k].id).Ok?
    ensures TablesOk(ApplyCoreFill(m, m.orders[k].id).value)
  {
    IndexUnique(m.orders, k);
    ApplyMovesFills(Config(0.0, 0.0, 0.0), m, m.orders[k].id);
  }

  function JointRun(s: State, b: Paper, us: seq<Snapshot>): Result<(State, Paper)>
  {
    if |us| == 0 then Ok((s, b))
    else
      var before := JointRun(s, b, us[..|us| - 1]);
      if before.Err? then before else JointStep(before.value.0, before.value.1, us[|us| - 1])
  }

  predicate InFillOrder(s: State, b: Paper, us: seq<Snapshot>)
  {
    |us| > 0 ==>
      && InFillOrder(s, b, us[..|us| - 1])
      && var before := JointRun(s, b, us[..|us| - 1]);
         before.Ok? ==>
           var m := before.value.0;
           var u := us[|us| - 1];
           var k := IndexOf(m.orders, u.id);
           && Allowed(m, OrderRefreshed(u)) && NoBuyCorrection(m, u)
           && (k < |m.orders| ==> !m.orders[k].purpose.OtherPurpose?)
  }

  /** Fills applied as they happen, from any broker that reports no price-only correction of a BUY:
      ledger and paper account agree on shares and on average price, always. */
  lemma {:induction false} FillOrderKeepsAverages(s: State, b: Paper, us: seq<Snapshot>)
    requires TablesOk(s) && Matches(s, b) && InFillOrder(s, b, us)
    requires JointRun(s, b, us).Ok?
    ensures
      var t := JointRun(s, b, us).value;
      TablesOk(t.0) && Matches(t.0, t.1)
  {
    if |us| > 0 {
      FillOrderKeepsAverages(s, b, us[..|us| - 1]);
      var m := JointRun(s, b, us[..|us| - 1]).value;
      var u := us[|us| - 1];
      JointStepMatches(m.0, m.1, u);
      var t := JointStep(m.0, m.1, u).value;
      forall i | 0 <= i < |t.0.orders| ensures MarkAt(t.0, t.1, i) {
        if i != IndexOf(m.0.orders, u.id) {
          OtherMarksStay(m.0, m.1, u, i);
        }
      }
    }
  }

  /** What a price-only correction does to a matching row: the averages part exactly for a BUY of shares
      still held whose notional changed. */
  lemma PriceCorrectionPartsExactly(row: CoreRow, h: Holding, o: Order, p: Progress)
    requires RowMatches(row, h) && row.cost == CostAt(row.avg, row.qty) && o.filled == p.filled
    requires AppliedRow(row, o, p).Ok?
    ensures !RowMatches(AppliedRow(row, o, p).value, h) <==>
            o.side.Buy? && row.qty > 0 && Notional(o) != p.notional
  {
    var next := AppliedRow(row, o, p).value;
    if o.side.Buy? && row.qty > 0 && Notional(o) != p.notional {
      assert next.avg * next.qty as real == next.cost != row.cost;
    }
  }

  /** And the next fill of that order brings them together again: the broker had not moved its mark. */
  lemma NextFillHeals(row: CoreRow, h: Holding, o: Order, n: Order, p: Progress)
    requires RowMatches(row, h) && row.cost == CostAt(row.avg, row.qty) && row.qty > 0
    requires o.side.Buy? && n.side.Buy? && o.filled == p.filled < n.filled
    requires AppliedRow(row, o, p).Ok?
    requires AppliedRow(AppliedRow(row, o, p).value, n, Progress(o.filled, Notional(o))).Ok?
    ensures
      var next := AppliedRow(AppliedRow(row, o, p).value, n, Progress(o.filled, Notional(o))).value;
      RowMatches(next, Absorbed(h, Buy, n.filled - p.filled, Notional(n) - p.notional).value)
  {
  }
}
