/**
 What a reservation, a refresh and a core fill do exactly: when each is refused, in the numbers of
 the tables, and what it writes when it is not.
 */
module Reservations {
  import opened Numeric
  import opened Results
  import opened Sums
  import opened Ledger
  import opened LedgerProofs

  // ---------------------------------------------------------------- how many shares a weight pays for

  /** As many whole shares, fee included, as the weight of the equity pays for, and not one more. */
  lemma TargetQuantityExact(equity: real, weight: real, price: real, fee: real)
    requires fee >= 0.0
    ensures
      var q := TargetQuantity(equity, weight, price, fee);
      if equity > 0.0 && weight > 0.0 && price > 0.0 then
        && q >= 0
        && q as real * (price * (1.0 + fee)) <= equity * weight < (q + 1) as real * (price * (1.0 + fee))
      else q == 0
  {
    if equity > 0.0 && weight > 0.0 && price > 0.0 {
      PositiveProduct(equity, weight);
      PositiveProduct(price, 1.0 + fee);
      FloorFits(equity * weight, price * (1.0 + fee));
    }
  }

  /** `n` shares cost more than the budget's weight pays for. */
  predicate Outweighs(n: int, price: real, fee: real, budget: real, weight: real)
  {
    budget <= 0.0 || price <= 0.0 || n as real * (price * (1.0 + fee)) > budget * weight
  }

  lemma TargetQuantityLimits(equity: real, weight: real, price: real, fee: real, n: int)
    requires fee >= 0.0 && weight > 0.0 && n > 0
    ensures n > TargetQuantity(equity, weight, price, fee) <==> Outweighs(n, price, fee, equity, weight)
  {
    TargetQuantityExact(equity, weight, price, fee);
    var q := TargetQuantity(equity, weight, price, fee);
    if equity > 0.0 && price > 0.0 {
      var unit := price * (1.0 + fee);
      PositiveProduct(price, 1.0 + fee);
      if n > q {
        TimesMono(q + 1, n, unit);
      } else {
        TimesMono(n, q, unit);
      }
    }
  }

  // ---------------------------------------------------------------- when a BUY is refused

  function Capital(c: Config, a: Account): real
  {
    if a.autoEnabled then a.effective else c.researchCapital
  }

  function Budget(c: Config, a: Account): real
  {
    match a.riskBudget
    case Some(budget) => budget
    case None => Capital(c, a)
  }

  /** One of the five conditions of an AUTO account is not met. */
  predicate GateShut(a: Account)
  {
    a.autoEnabled &&
    !(a.launchAuthorized && a.quarantineOff && a.haltLatchOff && a.running && a.effective > 0.0)
  }

  /** Held, committed and requested shares together pass the row's target, or what its weight pays for. */
  predicate PassesTarget(c: Config, s: State, r: Request, row: CoreRow)
  {
    var n := row.qty + CountBy(s.orders, Commitment(s.progress, r.symbol)) + r.qty;
    if row.targetQty == 0 && row.targetWeight > 0.0 then
      Outweighs(n, r.price, c.buyFee, Budget(c, s.account), row.targetWeight)
    else n > row.targetQty
  }

  /** The cost passes free cash, the free risk budget, or what the broker has. */
  predicate PassesFunds(c: Config, s: State, r: Request, brokerCash: real)
  {
    var cost := r.qty as real * r.price * (1.0 + c.buyFee);
    var reserved := SumBy(s.orders, Reservation(c));
    var cash := Capital(c, s.account) + SumBy(s.orders, CashFlow(c, s.account));
    var invested := Max(0.0, s.boosterCost + SumBy(s.core, RowCost()));
    cost > 0.0 &&
    (cost + reserved > cash || cost + reserved + invested > Budget(c, s.account) || cost > brokerCash)
  }

  lemma {:induction false} CommittedIsNat(s: State, orders: seq<Order>, y: Symbol)
    ensures CountBy(orders, Commitment(s.progress, y)) >= 0
  {
    if |orders| > 0 {
      CommittedIsNat(s, orders[..|orders| - 1], y);
    }
  }

  lemma OverRemaining(c: Config, s: State, r: Request, row: CoreRow)
    requires ValidConfig(c)
    ensures r.qty > RemainingTarget(c, s, r, row) <==> r.qty > 0 && PassesTarget(c, s, r, row)
  {
    CommittedIsNat(s, s.orders, r.symbol);
    if r.qty > 0 && row.targetQty == 0 && row.targetWeight > 0.0 {
      var n := row.qty + CountBy(s.orders, Commitment(s.progress, r.symbol)) + r.qty;
      TargetQuantityLimits(Budget(c, s.account), row.targetWeight, r.price, c.buyFee, n);
    }
  }

  lemma OverAvailable(c: Config, s: State, r: Request, brokerCash: real)
    ensures Required(c, r) > Available(c, s, brokerCash) <==> PassesFunds(c, s, r, brokerCash)
  {
  }

  /** A BUY is refused exactly when a gate is shut, the core symbol has no row, or a limit is passed. */
  lemma ReserveRefusedExactly(c: Config, s: State, r: Request, brokerCash: real)
    requires ValidConfig(c)
    ensures
      ReserveBuy(c, s, r, brokerCash).Err? <==>
        || GateShut(s.account)
        || (r.purpose.CoreBuy? && forall j :: 0 <= j < |s.core| ==> s.core[j].symbol != r.symbol)
        || (r.purpose.CoreBuy? && r.qty > 0 && RowOf(s.core, r.symbol) < |s.core|
            && PassesTarget(c, s, r, s.core[RowOf(s.core, r.symbol)]))
        || PassesFunds(c, s, r, brokerCash)
  {
    var k := RowOf(s.core, r.symbol);
    if k < |s.core| {
      OverRemaining(c, s, r, s.core[k]);
    }
    OverAvailable(c, s, r, brokerCash);
  }

  /** An accepted reservation adds one unfilled row, or none if the id is taken, and changes nothing else. */
  lemma ReservationWrites(c: Config, s: State, r: Request, brokerCash: real)
    requires ValidConfig(c) && ReserveBuy(c, s, r, brokerCash).Ok?
    ensures
      var out := ReserveBuy(c, s, r, brokerCash).value;
      var taken := exists i :: 0 <= i < |s.orders| && s.orders[i].id == r.id;
      && out.1 == !taken
      && out.0 == s.(orders := if taken then s.orders
                               else s.orders + [Order(r.id, r.symbol, Buy, r.purpose, r.price, r.qty, 0, None,
                                                      Created, None, s.clock)])
  {
    var k := IndexOf(s.orders, r.id);
    assert k < |s.orders| ==> s.orders[k].id == r.id;
  }

  /** On a row whose target is not fixed yet, held, committed and new shares cost no more than the weight of the budget. */
  lemma WeightBoundsCoreBuys(c: Config, s: State, r: Request, brokerCash: real)
    requires ValidConfig(c) && r.purpose.CoreBuy? && r.qty > 0 && ReserveBuy(c, s, r, brokerCash).Ok?
    ensures
      var k := RowOf(s.core, r.symbol);
      && k < |s.core|
      && (s.core[k].targetQty == 0 && s.core[k].targetWeight > 0.0 ==>
            (s.core[k].qty + Committed(s, r.symbol) + r.qty) as real * (r.price * (1.0 + c.buyFee))
            <= RiskBudget(c, s) * s.core[k].targetWeight)
  {
    OverRemaining(c, s, r, s.core[RowOf(s.core, r.symbol)]);
  }

  /** The request of 50 that a weight of 5% refuses: 10000 pays for four shares of 100. */
  lemma WeightRefusesExample(c: Config, s: State, r: Request, brokerCash: real)
    requires ValidConfig(c) && c.buyFee == 0.001 && s.account.riskBudget == Some(10000.0) && s.orders == []
    requires s.core == [CoreRow(r.symbol, 0, 0.0, 0.0, 0.05, 0)]
    requires r.purpose.CoreBuy? && r.price == 100.0
    ensures TargetQuantity(10000.0, 0.05, 100.0, 0.001) == 4
    ensures r.qty > 4 ==> ReserveBuy(c, s, r, brokerCash).Err?
  {
    TargetQuantityExact(10000.0, 0.05, 100.0, 0.001);
    var q := TargetQuantity(10000.0, 0.05, 100.0, 0.001);
    assert q as real * 100.1 <= 500.0 < (q + 1) as real * 100.1;
    assert s.core[..0] == [] && RowOf(s.core, r.symbol) == 0;
    assert Committed(s, r.symbol) == 0;
  }

  // ---------------------------------------------------------------- what a refresh stores

  /** A refresh is refused exactly for an unknown id, another status of an ended order, a fill that fell or passed the
      order, and a fill at no price. */
  lemma RefreshRefusedExactly(s: State, u: Snapshot)
    ensures
      var k := IndexOf(s.orders, u.id);
      UpdateOrder(s, u).Err? <==>
        || (forall i :: 0 <= i < |s.orders| ==> s.orders[i].id != u.id)
        || (k < |s.orders| &&
            (|| (s.orders[k].status.Terminal() && u.status != s.orders[k].status)
             || (u.filled.Some? && !(s.orders[k].filled <= u.filled.value <= s.orders[k].qty))
             || (u.filled.Some? && u.filled.value > 0 && u.avg.Some? && u.avg.value <= 0.0)))
  {
  }

  /** An accepted refresh writes what was reported of status, broker id, fill and average, and nothing else anywhere. */
  lemma RefreshStores(s: State, u: Snapshot)
    requires UpdateOrder(s, u).Ok?
    ensures
      var t, k := UpdateOrder(s, u).value, IndexOf(s.orders, u.id);
      && k < |s.orders| == |t.orders| && t == s.(orders := t.orders)
      && (forall i :: 0 <= i < |s.orders| && i != k ==> t.orders[i] == s.orders[i])
      && var o, n := s.orders[k], t.orders[k];
         && n.status == u.status
         && n.brokerId == (match u.brokerId case Some(id) => Some(id) case None => o.brokerId)
         && n.filled == (match u.filled case Some(filled) => filled case None => o.filled)
         && n.avg == (match u.avg case Some(avg) => Some(avg) case None => o.avg)
         && n == o.(status := n.status, brokerId := n.brokerId, filled := n.filled, avg := n.avg)
  {
  }

  /** An order reported ended holds no reservation and is not open; what it leaves committed is its unapplied fill. */
  lemma EndedOrderFreesAll(c: Config, s: State, u: Snapshot)
    requires ValidConfig(c) && TablesOk(s) && UpdateOrder(s, u).Ok? && u.status.Terminal()
    ensures
      var t, k := UpdateOrder(s, u).value, IndexOf(s.orders, u.id);
      && !t.orders[k].status.Open() && ReservedOf(c, t.orders[k]) == 0.0
      && Reserved(c, t) == Reserved(c, s) - ReservedOf(c, s.orders[k])
      && (HasOpenOrder(t) <==> exists i :: 0 <= i < |s.orders| && i != k && s.orders[i].status.Open())
  {
    var t, k := UpdateOrder(s, u).value, IndexOf(s.orders, u.id);
    RefreshStores(s, u);
    SumOneRow(s.orders, t.orders, Reservation(c), Reservation(c), k);
    if HasOpenOrder(t) {
      var i :| 0 <= i < |t.orders| && t.orders[i].status.Open();
      assert s.orders[i].status.Open();
    }
    forall i | 0 <= i < |s.orders| && i != k && s.orders[i].status.Open() ensures HasOpenOrder(t) {
      assert t.orders[i].status.Open();
    }
  }

  // ---------------------------------------------------------------- what moves cash

  lemma CashOfNotional(c: Config, a: Account, o: Order)
    ensures CashOf(c, a, o) ==
            if !Counted(a, o) then 0.0
            else if o.side.Buy? then -(Notional(o) * (1.0 + c.buyFee)) else Notional(o) * (1.0 - c.sellFee)
  {
    if o.filled == 0 {
      ZeroNotional(o);
    }
  }

  lemma Distribute(a: real, b: real, x: real)
    ensures (a - b) * x == a * x - b * x
  {
  }

  /** The order was made before AUTO accounting began. */
  predicate Outdated(a: Account, o: Order)
  {
    a.autoEnabled && (a.accountingStart.None? || o.createdAt < a.accountingStart.value)
  }

  lemma RowMovesCash(c: Config, a: Account, o: Order, n: Order, more: real)
    requires n.side == o.side && n.createdAt == o.createdAt && more == Notional(n) - Notional(o)
    ensures CashOf(c, a, n) - CashOf(c, a, o) ==
            if Outdated(a, o) then 0.0
            else if o.side.Buy? then -(more * (1.0 + c.buyFee)) else more * (1.0 - c.sellFee)
  {
    CashOfNotional(c, a, o);
    CashOfNotional(c, a, n);
    Distribute(Notional(n), Notional(o), 1.0 + c.buyFee);
    Distribute(Notional(n), Notional(o), 1.0 - c.sellFee);
  }

  /** A refresh moves managed cash by the new notional: a BUY's with the fee on top, a SELL's with the fee off,
      and by nothing for an order from before AUTO accounting. */
  lemma RefreshMovesCash(c: Config, s: State, u: Snapshot)
    requires UpdateOrder(s, u).Ok?
    ensures
      var t, k := UpdateOrder(s, u).value, IndexOf(s.orders, u.id);
      var o := s.orders[k];
      var more := Notional(t.orders[k]) - Notional(o);
      RawCash(c, t) - RawCash(c, s) ==
        if Outdated(s.account, o) then 0.0
        else if o.side.Buy? then -(more * (1.0 + c.buyFee)) else more * (1.0 - c.sellFee)
  {
    var t, k := UpdateOrder(s, u).value, IndexOf(s.orders, u.id);
    RowMovesCash(c, s.account, s.orders[k], t.orders[k], Notional(t.orders[k]) - Notional(s.orders[k]));
    RefreshMovesRow(c, s, u);
  }

  lemma RefreshMovesRow(c: Config, s: State, u: Snapshot)
    requires UpdateOrder(s, u).Ok?
    ensures
      var t, k := UpdateOrder(s, u).value, IndexOf(s.orders, u.id);
      RawCash(c, t) - RawCash(c, s) == CashOf(c, s.account, t.orders[k]) - CashOf(c, s.account, s.orders[k])
  {
    var t, k := UpdateOrder(s, u).value, IndexOf(s.orders, u.id);
    SumOneRow(s.orders, t.orders, CashFlow(c, s.account), CashFlow(c, s.account), k);
  }

  lemma InsertMovesNoCash(c: Config, s: State, o: Order)
    requires o.filled == 0
    ensures RawCash(c, Insert(s, o).0) == RawCash(c, s)
  {
    SumAppend(s.orders, o, CashFlow(c, s.account));
  }

  /** No reservation, application, recovery, gate or target moves it; a change of principal moves it by the change. */
  lemma NothingElseMovesCash(c: Config, s: State, e: Event)
    requires ValidConfig(c) && TablesOk(s) && !e.OrderRefreshed? && !e.Launched?
    ensures RawCash(c, Step(c, s, e)) - RawCash(c, s) == Capital(c, Step(c, s, e).account) - Capital(c, s.account)
  {
    match e
    case BuyReserved(r, cash) => InsertMovesNoCash(c, s, NewOrder(r, Buy, s.clock));
    case SellReserved(r) => InsertMovesNoCash(c, s, NewOrder(r, Sell, s.clock));
    case Recovered =>
      RecoveryIsCore(s);
      ApplyAllMovesFills(c, s, Unapplied(s.orders, s.progress));
      SameFlows(c, s, Step(c, s, e));
    case _ => QuietMovesNoCash(c, s, e);
  }

  lemma QuietMovesNoCash(c: Config, s: State, e: Event)
    requires ValidConfig(c) && !e.BuyReserved? && !e.SellReserved? && !e.OrderRefreshed? && !e.Launched? && !e.Recovered?
    ensures RawCash(c, Step(c, s, e)) - RawCash(c, s) == Capital(c, Step(c, s, e).account) - Capital(c, s.account)
  {
    SameFlows(c, s, Step(c, s, e));
  }

  lemma SameFlows(c: Config, s: State, t: State)
    requires t.orders == s.orders
    requires t.account.autoEnabled == s.account.autoEnabled && t.account.accountingStart == s.account.accountingStart
    ensures RawCash(c, t) - RawCash(c, s) == Capital(c, t.account) - Capital(c, s.account)
  {
    SumAgree(s.orders, t.orders, CashFlow(c, s.account), CashFlow(c, t.account));
  }

  // ---------------------------------------------------------------- when a core fill is refused

  /** A core fill is refused exactly for an unknown order or symbol, a fill or notional below what was applied, a cost
      that would turn negative, and more shares sold than held. */
  lemma CoreFillRefusedExactly(s: State, id: ClientId)
    ensures
      var k := IndexOf(s.orders, id);
      ApplyCoreFill(s, id).Err? <==>
        k == |s.orders| ||
        (var o := s.orders[k];
         var j := RowOf(s.core, o.symbol);
         var more := o.filled - Applied(s.progress, id).filled;
         var paid := Notional(o) - Applied(s.progress, id).notional;
         || more < 0 || j == |s.core|
         || (more > 0 && paid < 0.0)
         || (o.side.Buy? && paid != 0.0 && s.core[j].cost + paid < 0.0)
         || (o.side.Buy? && more > 0 && s.core[j].cost + paid < 0.0)
         || (o.side.Sell? && more > s.core[j].qty))
  {
  }

  /** A SELL leaves the average of what is kept, and no cost once nothing is. */
  lemma SellKeepsAverage(row: CoreRow, o: Order, p: Progress)
    requires p.filled <= o.filled && o.side.Sell? && AppliedRow(row, o, p).Ok?
    ensures
      var n := AppliedRow(row, o, p).value;
      && (n.qty > 0 ==> n.avg == row.avg)
      && (n.qty == 0 ==> n == row || (n.avg == 0.0 && n.cost == 0.0))
  {
  }

  /** A core fill that is not refused moves one row and one progress mark, and nothing at all when nothing is new. */
  lemma CoreFillWrites(s: State, id: ClientId)
    requires ApplyCoreFill(s, id).Ok?
    ensures
      var t, k := ApplyCoreFill(s, id).value, IndexOf(s.orders, id);
      var o := s.orders[k];
      var j := RowOf(s.core, o.symbol);
      && t == s.(core := t.core, progress := t.progress) && j < |s.core| == |t.core|
      && (forall i :: 0 <= i < |s.core| && i != j ==> t.core[i] == s.core[i])
      && Applied(t.progress, id) == Progress(o.filled, Notional(o))
      && (forall other :: other != id ==> Applied(t.progress, other) == Applied(s.progress, other))
      && (Applied(s.progress, id) == Progress(o.filled, Notional(o)) ==> t == s)
  {
  }

  // ---------------------------------------------------------------- capital changes

  /** A change of principal, and a launch, happen exactly while no order is open (and a launch once): the targets of
      the core are then dropped, positions stay, and a launch shuts the gates. */
  lemma CapitalChangesExactly(c: Config, s: State, e: Event)
    requires ValidConfig(c) && (e.Launched? || e.PrincipalChanged?)
    ensures
      var t := Step(c, s, e);
      if (exists i :: 0 <= i < |s.orders| && s.orders[i].status.Open()) || (e.Launched? && s.account.launchAuthorized) then t == s
      else
        && t.orders == s.orders && t.progress == s.progress && t.boosterCost == s.boosterCost && t.clock == s.clock
        && |t.core| == |s.core|
        && (forall j :: 0 <= j < |s.core| ==> t.core[j] == s.core[j].(targetQty := 0))
        && t.account.effective == e.effective && t.account.riskBudget == Some(e.riskBudget)
        && (e.Launched? ==>
              && t.account.launchAuthorized && !t.account.quarantineOff && !t.account.running
              && t.account.accountingStart == Some(s.clock) && t.account.haltLatchOff == s.account.haltLatchOff)
        && (e.PrincipalChanged? ==> t.account == s.account.(effective := e.effective, riskBudget := Some(e.riskBudget)))
  {
  }
}
