/** Safety of the ledger over whole runs of reservations, refreshes, fills, crashes and capital changes. */
module LedgerRuns {
  import opened Numeric
  import opened Results
  import opened Sums
  import opened Ledger
  import opened LedgerProofs

  // ---------------------------------------------------------------- the tables stay well formed

  lemma InsertTables(s: State, o: Order)
    requires TablesOk(s)
    requires o.filled == 0 && o.avg.None? && o.createdAt == s.clock
    requires o.side.Buy? ==> o.qty > 0 && o.price > 0.0 && !o.purpose.CoreSell? && Counted(s.account, o)
    requires o.side.Sell? ==> !o.purpose.CoreBuy?
    ensures TablesOk(Insert(s, o).0)
  {
    var t := Insert(s, o).0;
    if t != s {
      forall id | id in s.progress ensures IndexOf(t.orders, id) < |t.orders| {
        IndexAppend(s.orders, o, id);
      }
      assert o.id !in s.progress;
    }
  }

  lemma RefreshTables(s: State, u: Snapshot)
    requires TablesOk(s)
    requires UpdateOrder(s, u).Ok? && Allowed(s, OrderRefreshed(u))
    ensures TablesOk(UpdateOrder(s, u).value)
  {
    var t := UpdateOrder(s, u).value;
    var k := IndexOf(s.orders, u.id);
    forall id | id in t.progress ensures IndexOf(t.orders, id) < |t.orders| {
      IndexSameIds(s.orders, t.orders, id);
    }
    assert OrderOk(t, t.orders[k]);
    forall i | 0 <= i < |t.orders| && i != k ensures OrderOk(t, t.orders[i]) {
      assert OrderOk(s, s.orders[i]);
    }
  }

  lemma CapitalTables(s: State, t: State)
    requires TablesOk(s)
    requires t.orders == s.orders && t.progress == s.progress && t.boosterCost == s.boosterCost && t.clock >= s.clock
    requires |t.core| == |s.core|
    requires forall j :: 0 <= j < |s.core| ==>
      t.core[j] == s.core[j].(targetQty := t.core[j].targetQty, targetWeight := t.core[j].targetWeight)
    requires t.account.autoEnabled == s.account.autoEnabled
    requires HasOpenOrder(s) ==> t.account.accountingStart == s.account.accountingStart
    requires t.account.autoEnabled && t.account.launchAuthorized ==>
      t.account.accountingStart.Some? && t.account.accountingStart.value <= t.clock
    ensures TablesOk(t)
  {
    forall i | 0 <= i < |s.orders| ensures OrderOk(t, t.orders[i]) {
      assert OrderOk(s, s.orders[i]);
    }
    forall j | 0 <= j < |s.core| ensures RowOk(t.core[j]) {
      assert RowOk(s.core[j]);
    }
  }

  /** No transaction, in any order, with or without a crash between them, breaks the tables. */
  lemma StepTables(c: Config, s: State, e: Event)
    requires ValidConfig(c) && TablesOk(s) && Allowed(s, e)
    ensures TablesOk(Step(c, s, e))
  {
    match e
    case BuyReserved(r, cash) =>
      if ReserveBuy(c, s, r, cash).Ok? {
        InsertTables(s, NewOrder(r, Buy, s.clock));
      }
    case SellReserved(r) => InsertTables(s, NewOrder(r, Sell, s.clock));
    case OrderRefreshed(u) =>
      if UpdateOrder(s, u).Ok? {
        RefreshTables(s, u);
      }
    case FillApplied(id) =>
      if ApplyCoreFill(s, id).Ok? {
        ApplyMovesFills(c, s, id);
      }
    case Recovered =>
      RecoveryIsCore(s);
      ApplyAllMovesFills(c, s, Unapplied(s.orders, s.progress));
    case _ => CapitalTables(s, Step(c, s, e));
  }

  lemma {:induction false} RunTables(c: Config, s: State, es: seq<Event>)
    requires ValidConfig(c) && TablesOk(s) && AllowedRun(c, s, es)
    ensures TablesOk(Run(c, s, es))
  {
    if |es| > 0 {
      RunTables(c, s, es[..|es| - 1]);
      StepTables(c, Run(c, s, es[..|es| - 1]), es[|es| - 1]);
    }
  }

  // ---------------------------------------------------------------- order rows only move forward

  predicate Forward(o: Order, n: Order)
  {
    && n.id == o.id && n.symbol == o.symbol && n.side == o.side && n.purpose == o.purpose
    && n.qty == o.qty && n.price == o.price
    && (o.status.Terminal() ==> n.status == o.status)
    && o.filled <= n.filled <= n.qty
  }

  predicate FillsWithin(orders: seq<Order>)
  {
    forall i :: 0 <= i < |orders| ==> orders[i].filled <= orders[i].qty
  }

  lemma StepForward(c: Config, s: State, e: Event)
    requires ValidConfig(c) && FillsWithin(s.orders)
    ensures |Step(c, s, e).orders| >= |s.orders| && FillsWithin(Step(c, s, e).orders)
    ensures forall i :: 0 <= i < |s.orders| ==> Forward(s.orders[i], Step(c, s, e).orders[i])
  {
    if e.Recovered? {
      ApplyAllKeepsOrders(s, Unapplied(s.orders, s.progress));
    }
  }

  /** Whatever the broker reports, stored status never leaves a terminal value; fills only grow, within the
      ordered quantity. */
  lemma {:induction false} OrdersOnlyMoveForward(c: Config, s: State, es: seq<Event>)
    requires ValidConfig(c) && FillsWithin(s.orders)
    ensures |Run(c, s, es).orders| >= |s.orders| && FillsWithin(Run(c, s, es).orders)
    ensures forall i :: 0 <= i < |s.orders| ==> Forward(s.orders[i], Run(c, s, es).orders[i])
  {
    if |es| > 0 {
      var before := es[..|es| - 1];
      OrdersOnlyMoveForward(c, s, before);
      var m, t := Run(c, s, before), Run(c, s, es);
      StepForward(c, m, es[|es| - 1]);
      forall i | 0 <= i < |s.orders| ensures Forward(s.orders[i], t.orders[i]) {
        assert Forward(s.orders[i], m.orders[i]) && Forward(m.orders[i], t.orders[i]);
      }
    }
  }

  // ---------------------------------------------------------------- managed cash covers reservations

  /** While a BUY is open, the cash the ledger owns covers what open BUYs may still spend. */
  predicate CashCovers(c: Config, s: State)
  {
    HasOpenBuy(s) ==> RawCash(c, s) - Reserved(c, s) >= 0.0
  }

  lemma SameCash(c: Config, s: State, t: State)
    requires t.orders == s.orders
    requires t.account.autoEnabled == s.account.autoEnabled && t.account.effective == s.account.effective
    requires t.account.accountingStart == s.account.accountingStart
    ensures RawCash(c, t) == RawCash(c, s) && Reserved(c, t) == Reserved(c, s)
  {
    SumAgree(s.orders, t.orders, CashFlow(c, s.account), CashFlow(c, t.account));
  }

  lemma MulMono(a: real, b: real, k: real)
    requires a <= b && k >= 0.0
    ensures a * k <= b * k
  {
  }

  lemma FillsOutOfReserve(left: real, grown: real, fee: real)
    requires left >= 0.0 && grown >= 0.0 && fee >= 1.0
    ensures (left + grown) * fee == left * fee + grown * fee
    ensures left * fee >= 0.0 && grown * fee >= grown
  {
    MulMono(0.0, left, fee);
    MulMono(1.0, fee, grown);
  }

  /** New fills at the limit are paid for out of what the order had reserved. */
  lemma RefreshFreesReserve(c: Config, o: Order, n: Order, grown: real)
    requires ValidConfig(c) && FairRefresh(o, n) && Forward(o, n)
    requires o.side.Buy? && o.price > 0.0 && o.filled <= o.qty
    requires grown == (n.filled - o.filled) as real * o.price
    ensures grown >= 0.0
    ensures ReservedOf(c, n) + grown * (1.0 + c.buyFee) <= ReservedOf(c, o)
  {
    if o.status.Open() {
      var left := (n.qty - n.filled) as real * o.price;
      assert left >= 0.0;
      assert (o.qty - o.filled) as real * o.price == left + grown;
      FillsOutOfReserve(left, grown, 1.0 + c.buyFee);
    } else {
      assert grown == 0.0;
    }
  }

  lemma FairRefreshKeepsCash(c: Config, a: Account, o: Order, n: Order)
    requires ValidConfig(c) && FairRefresh(o, n) && Forward(o, n)
    requires n.createdAt == o.createdAt && o.filled <= o.qty
    requires o.side.Buy? ==> o.price > 0.0
    requires o.side.Buy? && o.status.Open() ==> Counted(a, o)
    requires o.side.Sell? ==> Notional(o) >= 0.0
    ensures CashOf(c, a, n) - ReservedOf(c, n) >= CashOf(c, a, o) - ReservedOf(c, o)
  {
    if o.side.Buy? {
      var grown := (n.filled - o.filled) as real * o.price;
      RefreshFreesReserve(c, o, n, grown);
      MulMono(Notional(n), Notional(o) + grown, 1.0 + c.buyFee);
    } else {
      MulMono(Notional(o), Notional(n), 1.0 - c.sellFee);
      MulMono(0.0, Notional(n), 1.0 - c.sellFee);
    }
  }

  lemma RefreshKeepsCash(c: Config, s: State, u: Snapshot)
    requires ValidConfig(c) && TablesOk(s)
    requires UpdateOrder(s, u).Ok? && Allowed(s, OrderRefreshed(u))
    ensures CashCovers(c, s) ==> CashCovers(c, UpdateOrder(s, u).value)
  {
    var t := UpdateOrder(s, u).value;
    var k := IndexOf(s.orders, u.id);
    var o, n := s.orders[k], t.orders[k];
    assert OrderOk(s, o);
    FairRefreshKeepsCash(c, s.account, o, n);
    SumOneRow(s.orders, t.orders, CashFlow(c, s.account), CashFlow(c, s.account), k);
    SumOneRow(s.orders, t.orders, Reservation(c), Reservation(c), k);
    if HasOpenBuy(t) {
      var i :| 0 <= i < |t.orders| && t.orders[i].side.Buy? && t.orders[i].status.Open();
      assert s.orders[i].side.Buy? && s.orders[i].status.Open();
    }
  }

  lemma RequiredIsPositive(c: Config, r: Request)
    requires ValidConfig(c) && r.qty > 0 && r.price > 0.0
    ensures Required(c, r) > 0.0
  {
    assert r.qty as real * r.price > 0.0;
  }

  /** What an admitted reservation adds, and what it was checked against. */
  lemma ReservationAdmitted(c: Config, s: State, r: Request, cash: real)
    requires ValidConfig(c) && r.qty > 0 && r.price > 0.0
    requires ReserveBuy(c, s, r, cash).Ok?
    ensures
      var t := ReserveBuy(c, s, r, cash).value.0;
      t != s ==>
        && RawCash(c, t) == RawCash(c, s)
        && Reserved(c, t) == Reserved(c, s) + Required(c, r)
        && Reserved(c, t) <= RawCash(c, s)
        && Invested(s) + Reserved(c, t) <= RiskBudget(c, s)
        && Required(c, r) <= cash
  {
    var t := ReserveBuy(c, s, r, cash).value.0;
    var o := NewOrder(r, Buy, s.clock);
    RequiredIsPositive(c, r);
    if t != s {
      SumAppend(s.orders, o, CashFlow(c, s.account));
      SumAppend(s.orders, o, Reservation(c));
      assert ReservedOf(c, o) == Required(c, r);
    }
  }

  lemma ReserveKeepsCash(c: Config, s: State, r: Request, cash: real)
    requires ValidConfig(c) && r.qty > 0 && r.price > 0.0
    requires CashCovers(c, s) && ReserveBuy(c, s, r, cash).Ok?
    ensures CashCovers(c, ReserveBuy(c, s, r, cash).value.0)
  {
    ReservationAdmitted(c, s, r, cash);
  }

  lemma SellReservationKeepsCash(c: Config, s: State, r: Request)
    requires CashCovers(c, s)
    ensures CashCovers(c, ReserveSell(s, r).0)
  {
    var t := ReserveSell(s, r).0;
    if t != s {
      var o := NewOrder(r, Sell, s.clock);
      SumAppend(s.orders, o, CashFlow(c, s.account));
      SumAppend(s.orders, o, Reservation(c));
      if HasOpenBuy(t) {
        var i :| 0 <= i < |t.orders| && t.orders[i].side.Buy? && t.orders[i].status.Open();
        assert i < |s.orders| && s.orders[i] == t.orders[i];
      }
    }
  }

  lemma FillsKeepCash(c: Config, s: State, e: Event)
    requires ValidConfig(c) && TablesOk(s) && Allowed(s, e) && CashCovers(c, s)
    requires e.FillApplied? || e.Recovered?
    ensures CashCovers(c, Step(c, s, e))
  {
    if e.Recovered? {
      RecoveryIsCore(s);
      ApplyAllMovesFills(c, s, Unapplied(s.orders, s.progress));
    } else if ApplyCoreFill(s, e.id).Ok? {
      ApplyMovesFills(c, s, e.id);
    }
    SameCash(c, s, Step(c, s, e));
  }

  lemma CapitalKeepsCash(c: Config, s: State, e: Event)
    requires ValidConfig(c) && CashCovers(c, s)
    requires !e.BuyReserved? && !e.SellReserved? && !e.OrderRefreshed? && !e.FillApplied? && !e.Recovered?
    ensures CashCovers(c, Step(c, s, e))
  {
    var t := Step(c, s, e);
    assert t.orders == s.orders;
    if HasOpenOrder(s) {
      SameCash(c, s, t);
    } else if !e.Launched? && !e.PrincipalChanged? {
      SameCash(c, s, t);
    }
  }

  lemma StepKeepsCash(c: Config, s: State, e: Event)
    requires ValidConfig(c) && TablesOk(s) && Allowed(s, e)
    requires CashCovers(c, s)
    ensures CashCovers(c, Step(c, s, e))
  {
    match e
    case BuyReserved(r, cash) =>
      if ReserveBuy(c, s, r, cash).Ok? {
        ReserveKeepsCash(c, s, r, cash);
      }
    case SellReserved(r) => SellReservationKeepsCash(c, s, r);
    case OrderRefreshed(u) =>
      if UpdateOrder(s, u).Ok? {
        RefreshKeepsCash(c, s, u);
      }
    case FillApplied(_) => FillsKeepCash(c, s, e);
    case Recovered => FillsKeepCash(c, s, e);
    case _ => CapitalKeepsCash(c, s, e);
  }

  /** Why capital waits for orders: let through beside an open BUY, a cut keeps it covered exactly
      when it is no larger than the cash no reservation has claimed. */
  lemma CutBesideAnOpenBuy(c: Config, s: State, effective: real)
    requires s.account.autoEnabled && HasOpenBuy(s)
    ensures
      var t := s.(account := s.account.(effective := effective));
      CashCovers(c, t) <==> s.account.effective - effective <= RawCash(c, s) - Reserved(c, s)
  {
    var t := s.(account := s.account.(effective := effective));
    SumAgree(s.orders, t.orders, CashFlow(c, s.account), CashFlow(c, t.account));
    assert HasOpenBuy(t);
  }

  /** The central cash law: over every run, an open BUY is always covered by managed cash. */
  lemma {:induction false} OpenBuysAreAlwaysCovered(c: Config, s: State, es: seq<Event>)
    requires ValidConfig(c) && TablesOk(s) && AllowedRun(c, s, es)
    requires CashCovers(c, s)
    ensures CashCovers(c, Run(c, s, es))
  {
    if |es| > 0 {
      var before := es[..|es| - 1];
      OpenBuysAreAlwaysCovered(c, s, before);
      RunTables(c, s, before);
      StepKeepsCash(c, Run(c, s, before), es[|es| - 1]);
    }
  }

  // ---------------------------------------------------------------- a fixed target is never exceeded

  predicate KeepsTarget(e: Event, y: Symbol)
  {
    !e.Launched? && !e.PrincipalChanged? && (e.TargetSet? ==> e.symbol != y)
  }

  lemma InsertExposure(s: State, o: Order, y: Symbol)
    requires TablesOk(s) && o.filled == 0 && o.status == Created && IndexOf(s.orders, o.id) == |s.orders|
    ensures Exposure(Insert(s, o).0, y) ==
            Exposure(s, y) + (if o.symbol == y && o.side.Buy? && o.purpose.CoreBuy? then o.qty else 0)
  {
    CountAppend(s.orders, o, Commitment(s.progress, y));
    assert o.id !in s.progress;
  }

  lemma RefreshExposure(s: State, u: Snapshot, y: Symbol)
    requires TablesOk(s) && UpdateOrder(s, u).Ok? && Allowed(s, OrderRefreshed(u))
    ensures Exposure(UpdateOrder(s, u).value, y) <= Exposure(s, y)
  {
    var t := UpdateOrder(s, u).value;
    var k := IndexOf(s.orders, u.id);
    assert OrderOk(s, s.orders[k]);
    CountOneRow(s.orders, t.orders, Commitment(s.progress, y), Commitment(s.progress, y), k);
  }

  lemma CapitalExposure(c: Config, s: State, e: Event, y: Symbol)
    requires ValidConfig(c) && KeepsTarget(e, y)
    requires !e.BuyReserved? && !e.SellReserved? && !e.OrderRefreshed? && !e.FillApplied? && !e.Recovered?
    ensures Exposure(Step(c, s, e), y) == Exposure(s, y)
    ensures TargetOf(Step(c, s, e), y) == TargetOf(s, y)
  {
    var t := Step(c, s, e);
    RowSameSymbols(s.core, t.core, y);
  }

  lemma ReserveKeepsTarget(c: Config, s: State, r: Request, cash: real, y: Symbol)
    requires ValidConfig(c) && TablesOk(s) && Allowed(s, BuyReserved(r, cash)) && TargetOf(s, y) > 0
    ensures
      var t := Step(c, s, BuyReserved(r, cash));
      TargetOf(t, y) == TargetOf(s, y) && Exposure(t, y) <= MaxInt(TargetOf(s, y), Exposure(s, y))
  {
    var reserved := ReserveBuy(c, s, r, cash);
    if reserved.Ok? && reserved.value.0 != s {
      InsertExposure(s, NewOrder(r, Buy, s.clock), y);
    }
  }

  lemma StepKeepsTarget(c: Config, s: State, e: Event, y: Symbol)
    requires ValidConfig(c) && TablesOk(s) && Allowed(s, e) && KeepsTarget(e, y)
    requires TargetOf(s, y) > 0
    ensures TargetOf(Step(c, s, e), y) == TargetOf(s, y)
    ensures Exposure(Step(c, s, e), y) <= MaxInt(TargetOf(s, y), Exposure(s, y))
  {
    match e
    case BuyReserved(r, cash) => ReserveKeepsTarget(c, s, r, cash, y);
    case SellReserved(r) =>
      if Step(c, s, e) != s {
        InsertExposure(s, NewOrder(r, Sell, s.clock), y);
      }
    case OrderRefreshed(u) =>
      if UpdateOrder(s, u).Ok? {
        RefreshExposure(s, u, y);
      }
    case FillApplied(id) =>
      if ApplyCoreFill(s, id).Ok? {
        ApplyMovesFills(c, s, id);
      }
    case Recovered =>
      RecoveryIsCore(s);
      ApplyAllMovesFills(c, s, Unapplied(s.orders, s.progress));
    case _ => CapitalExposure(c, s, e, y);
  }

  /** Held plus committed shares stay within the fixed target, or within where they started. */
  lemma {:induction false} TargetIsNeverExceeded(c: Config, s: State, es: seq<Event>, y: Symbol)
    requires ValidConfig(c) && TablesOk(s) && AllowedRun(c, s, es)
    requires forall e :: e in es ==> KeepsTarget(e, y)
    requires TargetOf(s, y) > 0
    ensures TargetOf(Run(c, s, es), y) == TargetOf(s, y)
    ensures Exposure(Run(c, s, es), y) <= MaxInt(TargetOf(s, y), Exposure(s, y))
  {
    if |es| > 0 {
      var before := es[..|es| - 1];
      TargetIsNeverExceeded(c, s, before, y);
      RunTables(c, s, before);
      StepKeepsTarget(c, Run(c, s, before), es[|es| - 1], y);
    }
  }

  // ---------------------------------------------------------------- the HWM75 risk budget holds

  predicate KeepsBudget(e: Event)
  {
    !e.Launched? && !e.PrincipalChanged? && !e.BudgetRecorded?
  }

  /** Every fill reached the ledger before each further reservation. */
  predicate SettledBeforeBuying(c: Config, s: State, es: seq<Event>)
    requires ValidConfig(c)
  {
    |es| > 0 ==>
      && SettledBeforeBuying(c, s, es[..|es| - 1])
      && (es[|es| - 1].BuyReserved? ==> Quiescent(Run(c, s, es[..|es| - 1])))
  }

  lemma CostsAreInvested(s: State)
    requires TablesOk(s)
    ensures Invested(s) == s.boosterCost + SumBy(s.core, RowCost())
  {
    assert forall j :: 0 <= j < |s.core| ==> RowOk(s.core[j]);
    SumAtLeast(s.core, RowCost());
  }

  lemma SettledWindow(s: State, o: Order)
    requires OrderOk(s, o) && !Unsettled(s.progress, o)
    ensures WindowNotional(s.progress)(o) == 0.0
  {
    if o.filled == 0 {
      ZeroNotional(o);
    }
  }

  lemma QuiescentDeployed(c: Config, s: State)
    requires TablesOk(s) && Quiescent(s)
    ensures Deployed(c, s) == Invested(s) + Reserved(c, s)
  {
    QuiescentExact(s);
    CostsAreInvested(s);
    forall i | 0 <= i < |s.orders| ensures WindowNotional(s.progress)(s.orders[i]) == 0.0 {
      SettledWindow(s, s.orders[i]);
    }
    SumZero(s.orders, WindowNotional(s.progress));
  }

  lemma InsertDeployed(c: Config, s: State, o: Order)
    requires TablesOk(s) && o.filled == 0 && IndexOf(s.orders, o.id) == |s.orders|
    ensures Deployed(c, Insert(s, o).0) == Deployed(c, s) + ReservedOf(c, o)
  {
    SumAppend(s.orders, o, WindowNotional(s.progress));
    SumAppend(s.orders, o, Reservation(c));
    assert o.id !in s.progress;
  }

  lemma FairRefreshDeployed(c: Config, o: Order, n: Order)
    requires ValidConfig(c) && FairRefresh(o, n) && Forward(o, n)
    requires o.side.Buy? && o.price > 0.0 && o.filled <= o.qty
    ensures Notional(n) - Notional(o) + ReservedOf(c, n) - ReservedOf(c, o) <= 0.0
    ensures ReservedOf(c, n) <= ReservedOf(c, o)
  {
    var grown := (n.filled - o.filled) as real * o.price;
    RefreshFreesReserve(c, o, n, grown);
    MulMono(1.0, 1.0 + c.buyFee, grown);
  }

  lemma RefreshDeployed(c: Config, s: State, u: Snapshot)
    requires ValidConfig(c) && TablesOk(s) && UpdateOrder(s, u).Ok? && Allowed(s, OrderRefreshed(u))
    ensures Deployed(c, UpdateOrder(s, u).value) <= Deployed(c, s)
  {
    var t := UpdateOrder(s, u).value;
    var k := IndexOf(s.orders, u.id);
    var o := s.orders[k];
    assert OrderOk(s, o);
    SumOneRow(s.orders, t.orders, WindowNotional(s.progress), WindowNotional(s.progress), k);
    SumOneRow(s.orders, t.orders, Reservation(c), Reservation(c), k);
    if o.side.Buy? {
      FairRefreshDeployed(c, o, t.orders[k]);
    }
  }

  lemma CapitalDeployed(c: Config, s: State, e: Event)
    requires ValidConfig(c) && TablesOk(s) && KeepsBudget(e)
    requires e.TargetSet? || e.GatesSet? || e.Ticked?
    ensures Deployed(c, Step(c, s, e)) == Deployed(c, s)
    ensures RiskBudget(c, Step(c, s, e)) == RiskBudget(c, s)
  {
    SumAgree(s.core, Step(c, s, e).core, RowCost(), RowCost());
  }

  lemma StepKeepsBudget(c: Config, s: State, e: Event)
    requires ValidConfig(c) && TablesOk(s) && Allowed(s, e) && KeepsBudget(e)
    requires e.BuyReserved? ==> Quiescent(s)
    requires Deployed(c, s) <= RiskBudget(c, s)
    ensures RiskBudget(c, Step(c, s, e)) == RiskBudget(c, s)
    ensures Deployed(c, Step(c, s, e)) <= RiskBudget(c, s)
  {
    match e
    case BuyReserved(r, cash) =>
      if ReserveBuy(c, s, r, cash).Ok? && Step(c, s, e) != s {
        ReservationFitsBudget(c, s, r, cash);
      }
    case SellReserved(r) =>
      if Step(c, s, e) != s {
        InsertDeployed(c, s, NewOrder(r, Sell, s.clock));
      }
    case OrderRefreshed(u) =>
      if UpdateOrder(s, u).Ok? {
        RefreshDeployed(c, s, u);
      }
    case FillApplied(id) =>
      if ApplyCoreFill(s, id).Ok? {
        ApplyMovesFills(c, s, id);
      }
    case Recovered =>
      RecoveryIsCore(s);
      ApplyAllMovesFills(c, s, Unapplied(s.orders, s.progress));
    case _ => CapitalDeployed(c, s, e);
  }

  lemma ReservationFitsBudget(c: Config, s: State, r: Request, cash: real)
    requires ValidConfig(c) && TablesOk(s) && Quiescent(s)
    requires r.qty > 0 && r.price > 0.0
    requires ReserveBuy(c, s, r, cash).Ok? && ReserveBuy(c, s, r, cash).value.0 != s
    ensures
      var t := ReserveBuy(c, s, r, cash).value.0;
      RiskBudget(c, t) == RiskBudget(c, s) && Deployed(c, t) <= RiskBudget(c, s)
  {
    var o := NewOrder(r, Buy, s.clock);
    ReservationAdmitted(c, s, r, cash);
    InsertDeployed(c, s, o);
    QuiescentDeployed(c, s);
    assert ReservedOf(c, o) == Required(c, r);
  }

  lemma {:induction false} BudgetHoldsUntilRecomputed(c: Config, s: State, es: seq<Event>)
    requires ValidConfig(c) && TablesOk(s) && AllowedRun(c, s, es) && SettledBeforeBuying(c, s, es)
    requires forall e :: e in es ==> KeepsBudget(e)
    requires Deployed(c, s) <= RiskBudget(c, s)
    ensures RiskBudget(c, Run(c, s, es)) == RiskBudget(c, s)
    ensures Deployed(c, Run(c, s, es)) <= RiskBudget(c, s)
  {
    if |es| > 0 {
      var before := es[..|es| - 1];
      BudgetHoldsUntilRecomputed(c, s, before);
      RunTables(c, s, before);
      StepKeepsBudget(c, Run(c, s, before), es[|es| - 1]);
    }
  }

  /** From a successful reservation on, cost plus open reservations fit the risk budget it was checked
      against, whenever no fill is outside the ledger. */
  lemma RiskBudgetIsRespected(c: Config, s: State, r: Request, cash: real, es: seq<Event>)
    requires ValidConfig(c) && TablesOk(s) && Quiescent(s)
    requires Allowed(s, BuyReserved(r, cash))
    requires ReserveBuy(c, s, r, cash).Ok? && ReserveBuy(c, s, r, cash).value.1
    requires
      var t := ReserveBuy(c, s, r, cash).value.0;
      AllowedRun(c, t, es) && SettledBeforeBuying(c, t, es)
    requires forall e :: e in es ==> KeepsBudget(e)
    ensures
      var u := Run(c, ReserveBuy(c, s, r, cash).value.0, es);
      Quiescent(u) ==> Invested(u) + Reserved(c, u) <= RiskBudget(c, s)
  {
    var t := ReserveBuy(c, s, r, cash).value.0;
    assert |t.orders| == |s.orders| + 1;
    ReservationFitsBudget(c, s, r, cash);
    StepTables(c, s, BuyReserved(r, cash));
    BudgetHoldsUntilRecomputed(c, t, es);
    RunTables(c, t, es);
    if Quiescent(Run(c, t, es)) {
      QuiescentDeployed(c, Run(c, t, es));
    }
  }

  // ---------------------------------------------------------------- holdings are conserved

  /** Only core orders reach the core ledger; nothing is asked of the broker. */
  predicate ShareAllowed(s: State, e: Event)
  {
    e.FillApplied? ==>
      var k := IndexOf(s.orders, e.id);
      k < |s.orders| ==> !s.orders[k].purpose.OtherPurpose?
  }

  predicate ShareAllowedRun(c: Config, s: State, es: seq<Event>)
    requires ValidConfig(c)
  {
    |es| > 0 ==>
      && ShareAllowedRun(c, s, es[..|es| - 1])
      && ShareAllowed(Run(c, s, es[..|es| - 1]), es[|es| - 1])
  }

  lemma InsertConserves(s: State, o: Order, y: Symbol)
    requires KeysOk(s) && IndexOf(s.orders, o.id) == |s.orders|
    ensures KeysOk(Insert(s, o).0) && OpeningQty(Insert(s, o).0, y) == OpeningQty(s, y)
  {
    CountAppend(s.orders, o, NetApplied(s.progress, y));
    assert o.id !in s.progress;
    var t := Insert(s, o).0;
    forall id | id in t.progress ensures IndexOf(t.orders, id) < |t.orders| {
      IndexAppend(s.orders, o, id);
    }
    forall i | 0 <= i < |t.orders| ensures AppliedOk(t.progress, t.orders[i]) {
      assert i < |s.orders| ==> AppliedOk(s.progress, s.orders[i]);
    }
  }

  lemma RefreshConserves(s: State, u: Snapshot, y: Symbol)
    requires KeysOk(s) && UpdateOrder(s, u).Ok?
    ensures KeysOk(UpdateOrder(s, u).value) && OpeningQty(UpdateOrder(s, u).value, y) == OpeningQty(s, y)
  {
    var t := UpdateOrder(s, u).value;
    CountAgree(s.orders, t.orders, NetApplied(s.progress, y), NetApplied(s.progress, y));
    forall id | id in t.progress ensures IndexOf(t.orders, id) < |t.orders| {
      IndexSameIds(s.orders, t.orders, id);
    }
    forall i | 0 <= i < |t.orders| ensures AppliedOk(t.progress, t.orders[i]) {
      assert AppliedOk(s.progress, s.orders[i]);
    }
  }

  lemma CapitalConserves(c: Config, s: State, e: Event, y: Symbol)
    requires ValidConfig(c) && KeysOk(s)
    requires !e.BuyReserved? && !e.SellReserved? && !e.OrderRefreshed? && !e.FillApplied? && !e.Recovered?
    ensures KeysOk(Step(c, s, e)) && OpeningQty(Step(c, s, e), y) == OpeningQty(s, y)
  {
    RowSameSymbols(s.core, Step(c, s, e).core, y);
  }

  lemma StepConserves(c: Config, s: State, e: Event, y: Symbol)
    requires ValidConfig(c) && KeysOk(s) && ShareAllowed(s, e)
    ensures KeysOk(Step(c, s, e)) && OpeningQty(Step(c, s, e), y) == OpeningQty(s, y)
  {
    match e
    case BuyReserved(r, cash) =>
      if ReserveBuy(c, s, r, cash).Ok? && Step(c, s, e) != s {
        InsertConserves(s, NewOrder(r, Buy, s.clock), y);
      }
    case SellReserved(r) =>
      if Step(c, s, e) != s {
        InsertConserves(s, NewOrder(r, Sell, s.clock), y);
      }
    case OrderRefreshed(u) =>
      if UpdateOrder(s, u).Ok? {
        RefreshConserves(s, u, y);
      }
    case FillApplied(id) =>
      if ApplyCoreFill(s, id).Ok? {
        ApplyKeepsShares(s, id, y);
      }
    case Recovered =>
      RecoveryIsCore(s);
      ApplyAllKeepsShares(s, Unapplied(s.orders, s.progress), y);
    case _ => CapitalConserves(c, s, e, y);
  }

  /** Whatever the schedule and the broker, held shares are the opening shares plus what the rows say was applied. */
  lemma {:induction false} HoldingsAreConserved(c: Config, s: State, es: seq<Event>, y: Symbol)
    requires ValidConfig(c) && KeysOk(s) && ShareAllowedRun(c, s, es)
    ensures KeysOk(Run(c, s, es)) && OpeningQty(Run(c, s, es), y) == OpeningQty(s, y)
  {
    if |es| > 0 {
      var before := es[..|es| - 1];
      HoldingsAreConserved(c, s, before, y);
      StepConserves(c, Run(c, s, before), es[|es| - 1], y);
    }
  }

  // ---------------------------------------------------------------- any schedule of applies agrees

  predicate Scheduling(es: seq<Event>)
  {
    forall e :: e in es ==> e.OrderRefreshed? || e.FillApplied? || e.Recovered?
  }

  function Refreshes(es: seq<Event>): seq<Event>
  {
    if |es| == 0 then []
    else Refreshes(es[..|es| - 1]) + (if es[|es| - 1].OrderRefreshed? then [es[|es| - 1]] else [])
  }

  lemma ApplyingKeepsOrders(c: Config, s: State, e: Event)
    requires ValidConfig(c) && (e.FillApplied? || e.Recovered?)
    ensures Step(c, s, e).orders == s.orders
  {
    if e.Recovered? {
      ApplyAllKeepsOrders(s, Unapplied(s.orders, s.progress));
    }
  }

  lemma RefreshReadsOrders(c: Config, s: State, t: State, e: Event)
    requires ValidConfig(c) && e.OrderRefreshed? && s.orders == t.orders
    ensures Step(c, s, e).orders == Step(c, t, e).orders
  {
  }

  /** When fills are applied never influences what the order table says. */
  lemma {:induction false} RefreshesDecideOrders(c: Config, s: State, es: seq<Event>)
    requires ValidConfig(c) && Scheduling(es)
    ensures Run(c, s, es).orders == Run(c, s, Refreshes(es)).orders
  {
    if |es| > 0 {
      var before, e := es[..|es| - 1], es[|es| - 1];
      RefreshesDecideOrders(c, s, before);
      assert e in es;
      if e.OrderRefreshed? {
        var rs := Refreshes(es);
        assert rs[..|rs| - 1] == Refreshes(before) && rs[|rs| - 1] == e;
        RefreshReadsOrders(c, Run(c, s, before), Run(c, s, Refreshes(before)), e);
      } else {
        assert Refreshes(es) == Refreshes(before);
        ApplyingKeepsOrders(c, Run(c, s, before), e);
      }
    }
  }

  /** A refresh changes neither what was applied nor what the rows cost. */
  lemma RefreshKeepsBuyCost(s: State, u: Snapshot, y: Symbol)
    requires UpdateOrder(s, u).Ok? && BuyOnly(s, y)
    ensures
      var t := UpdateOrder(s, u).value;
      BuyOnly(t, y) && OpeningCost(t, y) == OpeningCost(s, y)
  {
    var t := UpdateOrder(s, u).value;
    forall i | 0 <= i < |t.orders| && CoreOrderOf(t.orders[i], y) ensures t.orders[i].side.Buy? {
      assert CoreOrderOf(s.orders[i], y);
    }
    SumAgree(s.orders, t.orders, AppliedBuyNotional(s.progress, y), AppliedBuyNotional(s.progress, y));
  }

  lemma {:induction false} BuyOnlyCostConserved(c: Config, s: State, es: seq<Event>, y: Symbol)
    requires ValidConfig(c) && KeysOk(s) && ShareAllowedRun(c, s, es) && Scheduling(es)
    requires BuyOnly(s, y)
    ensures BuyOnly(Run(c, s, es), y) && OpeningCost(Run(c, s, es), y) == OpeningCost(s, y)
  {
    if |es| > 0 {
      var before, e := es[..|es| - 1], es[|es| - 1];
      BuyOnlyCostConserved(c, s, before, y);
      HoldingsAreConserved(c, s, before, y);
      var m := Run(c, s, before);
      assert e in es;
      if e.OrderRefreshed? {
        if UpdateOrder(m, e.snapshot).Ok? {
          RefreshKeepsBuyCost(m, e.snapshot, y);
        }
      } else {
        ApplyingKeepsBuyCost(c, m, e, y);
      }
    }
  }

  lemma ApplyingKeepsBuyCost(c: Config, s: State, e: Event, y: Symbol)
    requires ValidConfig(c) && KeysOk(s) && ShareAllowed(s, e) && (e.FillApplied? || e.Recovered?)
    requires BuyOnly(s, y)
    ensures BuyOnly(Step(c, s, e), y) && OpeningCost(Step(c, s, e), y) == OpeningCost(s, y)
  {
    ApplyingKeepsOrders(c, s, e);
    if e.Recovered? {
      RecoveryIsCore(s);
      ApplyAllKeepsShares(s, Unapplied(s.orders, s.progress), y);
    } else if ApplyCoreFill(s, e.id).Ok? {
      ApplyKeepsShares(s, e.id, y);
    }
  }

  /** Any two schedules of the same refreshes, with repeats, crashes and recoveries anywhere, end with
      the same shares once nothing is pending; without SELLs also with the same cost and progress. */
  lemma SchedulesAgree(c: Config, s: State, es: seq<Event>, fs: seq<Event>, y: Symbol)
    requires ValidConfig(c) && KeysOk(s)
    requires ShareAllowedRun(c, s, es) && ShareAllowedRun(c, s, fs)
    requires Scheduling(es) && Scheduling(fs) && Refreshes(es) == Refreshes(fs)
    requires Quiescent(Run(c, s, es)) && Quiescent(Run(c, s, fs))
    ensures HeldQty(Run(c, s, es), y) == HeldQty(Run(c, s, fs), y)
    ensures BuyOnly(s, y) ==> CostOf(Run(c, s, es), y) == CostOf(Run(c, s, fs), y)
    ensures
      var t, u := Run(c, s, es), Run(c, s, fs);
      forall i :: 0 <= i < |t.orders| && !t.orders[i].purpose.OtherPurpose? && t.orders[i].filled > 0 ==>
        Applied(t.progress, t.orders[i].id) == Applied(u.progress, t.orders[i].id)
  {
    var t, u := Run(c, s, es), Run(c, s, fs);
    RefreshesDecideOrders(c, s, es);
    RefreshesDecideOrders(c, s, fs);
    HoldingsAreConserved(c, s, es, y);
    HoldingsAreConserved(c, s, fs, y);
    QuiescentHoldings(t, y);
    QuiescentHoldings(u, y);
    QuiescentExact(t);
    QuiescentExact(u);
    if BuyOnly(s, y) {
      BuyOnlyCostConserved(c, s, es, y);
      BuyOnlyCostConserved(c, s, fs, y);
    }
  }

  /** Once SELLs are present the cost does depend on the order of application: buying at 10, selling, then
      buying at 20 leaves cost 20, while applying both BUYs before the SELL leaves 15 for the same share. */
  lemma CostDependsOnOrderWithSells(row: CoreRow, a: Order, b: Order, d: Order)
    requires row.qty == 0 && row.cost == 0.0
    requires a.side.Buy? && a.filled == 1 && a.avg == Some(10.0)
    requires b.side.Sell? && b.filled == 1 && b.avg == Some(12.0)
    requires d.side.Buy? && d.filled == 1 && d.avg == Some(20.0)
    ensures
      var none := Progress(0, 0.0);
      var held := AppliedRow(row, a, none);
      held.Ok? &&
      var sold, both := AppliedRow(held.value, b, none), AppliedRow(held.value, d, none);
      sold.Ok? && both.Ok? &&
      var first, second := AppliedRow(sold.value, d, none), AppliedRow(both.value, b, none);
      first.Ok? && second.Ok? && first.value.qty == 1 == second.value.qty &&
      first.value.cost == 20.0 && second.value.cost == 15.0
  {
    var none := Progress(0, 0.0);
    assert Notional(a) == 10.0 && Notional(b) == 12.0 && Notional(d) == 20.0;
    var held := AppliedRow(row, a, none).value;
    assert held.qty == 1 && held.cost == 10.0 && held.avg == 10.0;
    var both := AppliedRow(held, d, none).value;
    assert both.qty == 2 && both.cost == 30.0 && both.avg == 15.0;
    var sold := AppliedRow(held, b, none).value;
    assert sold.qty == 0 && sold.cost == 0.0;
  }

  /** Two fills on the same row, applied one after the other. */
  function Twice(row: CoreRow, a: Order, p: Progress, b: Order, q: Progress): Result<CoreRow>
    requires p.filled <= a.filled && q.filled <= b.filled
  {
    var first := AppliedRow(row, a, p);
    if first.Err? then first else AppliedRow(first.value, b, q)
  }

  /** Fills of one side may be applied in either order: the whole row is the same. */
  lemma SameSideFillsCommute(row: CoreRow, a: Order, p: Progress, b: Order, q: Progress)
    requires RowOk(row) && a.side == b.side && p.filled < a.filled && q.filled < b.filled
    requires Twice(row, a, p, b, q).Ok? && Twice(row, b, q, a, p).Ok?
    ensures Twice(row, a, p, b, q) == Twice(row, b, q, a, p)
  {
  }

  /** A BUY and a SELL may be swapped without changing the cost if and only if the BUY was filled at the
      average price the row already had; the shares are the same either way. */
  lemma SwapKeepsCostExactly(row: CoreRow, buy: Order, p: Progress, sell: Order, q: Progress)
    requires RowOk(row) && buy.side.Buy? && sell.side.Sell? && p.filled < buy.filled && q.filled < sell.filled
    requires Twice(row, buy, p, sell, q).Ok? && Twice(row, sell, q, buy, p).Ok?
    ensures
      var buyFirst, sellFirst := Twice(row, buy, p, sell, q).value, Twice(row, sell, q, buy, p).value;
      && buyFirst.qty == sellFirst.qty
      && (buyFirst.cost == sellFirst.cost <==>
            Notional(buy) - p.notional == CostAt(row.avg, buy.filled - p.filled))
  {
    BuyThenSell(row, buy, p, sell, q);
    SellThenBuy(row, buy, p, sell, q);
    SwapArithmetic(row.avg, AppliedRow(row, buy, p).value.avg, row.qty, buy.filled - p.filled, sell.filled - q.filled,
                   Notional(buy) - p.notional);
  }

  lemma BuyThenSell(row: CoreRow, buy: Order, p: Progress, sell: Order, q: Progress)
    requires RowOk(row) && row.qty > 0 && buy.side.Buy? && sell.side.Sell? && p.filled < buy.filled && q.filled < sell.filled
    requires Twice(row, buy, p, sell, q).Ok?
    requires sell.filled - q.filled <= row.qty
    ensures
      var raised, t := AppliedRow(row, buy, p).value, Twice(row, buy, p, sell, q).value;
      var more, less := buy.filled - p.filled, sell.filled - q.filled;
      && CostAt(raised.avg, row.qty + more) == CostAt(row.avg, row.qty) + (Notional(buy) - p.notional)
      && t.cost == CostAt(raised.avg, row.qty + more - less) && t.qty == row.qty + more - less
  {
  }

  lemma SellThenBuy(row: CoreRow, buy: Order, p: Progress, sell: Order, q: Progress)
    requires RowOk(row) && row.qty > 0 && buy.side.Buy? && sell.side.Sell? && p.filled < buy.filled && q.filled < sell.filled
    requires Twice(row, sell, q, buy, p).Ok?
    ensures
      var t := Twice(row, sell, q, buy, p).value;
      var more, less := buy.filled - p.filled, sell.filled - q.filled;
      t.cost == CostAt(row.avg, row.qty - less) + (Notional(buy) - p.notional) && t.qty == row.qty + more - less
  {
    var sold := AppliedRow(row, sell, q).value;
    assert sold.qty == row.qty - (sell.filled - q.filled);
    if sold.qty == 0 {
      assert CostAt(row.avg, 0) == 0.0 && CostAt(0.0, 0) == 0.0;
    }
  }

  lemma SwapArithmetic(avg: real, raised: real, held: int, more: int, less: int, n: real)
    requires held > 0 && more > 0 && less > 0 && CostAt(raised, held + more) == CostAt(avg, held) + n
    ensures CostAt(raised, held + more - less) == CostAt(avg, held - less) + n <==> n == CostAt(avg, more)
  {
    CostSplits(raised, held + more - less, less);
    CostSplits(avg, held - less, less);
    CostSplits(avg, held, more);
    Cancel(raised, avg, less as real);
    Cancel(raised, avg, (held + more) as real);
  }

  lemma CostSplits(avg: real, a: int, b: int)
    ensures CostAt(avg, a + b) == CostAt(avg, a) + CostAt(avg, b)
  {
    assert (a + b) as real == a as real + b as real;
  }

  lemma Cancel(a: real, b: real, x: real)
    requires x > 0.0
    ensures a * x == b * x <==> a == b
  {
    assert (a - b) * x == a * x - b * x;
  }
}
