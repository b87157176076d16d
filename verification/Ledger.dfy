/**
 The persisted order, fill-progress and core-position tables, and the transactions that
 rewrite them, as functions from one ledger state to the next. A transaction that raises
 leaves the state as it was; a crash is a run that simply stops after some transaction.
 */
module Ledger {
  import opened Numeric
  import opened Results
  import opened Sums

  type ClientId = string
  type Symbol = string

  datatype Status =
    | Created | Submitted | Pending | PartialFilled | PendingCancel | PendingReplace | Unknown
    | Filled | Canceled | Rejected | Replaced
  {
    predicate Terminal() { Filled? || Canceled? || Rejected? || Replaced? }

    predicate Open() { !Terminal() }
  }

  datatype Side = Buy | Sell

  datatype Purpose = CoreBuy | CoreSell | OtherPurpose

  /** A row of `orders`; `filled` and `avg` are cumulative. */
  datatype Order = Order(
    id: ClientId, symbol: Symbol, side: Side, purpose: Purpose, price: real, qty: nat,
    filled: nat, avg: Option<real>, status: Status, brokerId: Option<string>, createdAt: int)

  /** A row of `core_fill_progress`: what has reached the position ledger. */
  datatype Progress = Progress(filled: nat, notional: real)

  datatype CoreRow = CoreRow(
    symbol: Symbol, qty: nat, avg: real, cost: real, targetWeight: real, targetQty: nat)

  datatype Config = Config(buyFee: real, sellFee: real, researchCapital: real)

  datatype Account = Account(
    autoEnabled: bool, accountingStart: Option<int>, effective: real, riskBudget: Option<real>,
    launchAuthorized: bool, quarantineOff: bool, haltLatchOff: bool, running: bool)

  datatype State = State(
    orders: seq<Order>, progress: map<ClientId, Progress>, core: seq<CoreRow>,
    account: Account, boosterCost: real, clock: int)

  predicate ValidConfig(c: Config)
  {
    c.buyFee >= 0.0 && 0.0 <= c.sellFee <= 1.0
  }

  // ---------------------------------------------------------------- reading the tables

  function IndexOf(orders: seq<Order>, id: ClientId): (k: nat)
    ensures k <= |orders|
    ensures k < |orders| ==> orders[k].id == id
    ensures k == |orders| ==> forall i :: 0 <= i < |orders| ==> orders[i].id != id
  {
    if |orders| == 0 then 0
    else
      var k := IndexOf(orders[..|orders| - 1], id);
      if k < |orders| - 1 then k
      else if orders[|orders| - 1].id == id then |orders| - 1 else |orders|
  }

  function RowOf(core: seq<CoreRow>, y: Symbol): (k: nat)
    ensures k <= |core|
    ensures k < |core| ==> core[k].symbol == y
    ensures k == |core| ==> forall i :: 0 <= i < |core| ==> core[i].symbol != y
  {
    if |core| == 0 then 0
    else
      var k := RowOf(core[..|core| - 1], y);
      if k < |core| - 1 then k
      else if core[|core| - 1].symbol == y then |core| - 1 else |core|
  }

  function Applied(progress: map<ClientId, Progress>, id: ClientId): Progress
  {
    if id in progress then progress[id] else Progress(0, 0.0)
  }

  function FillPrice(o: Order): real
  {
    if o.avg.Some? then o.avg.value else o.price
  }

  function Notional(o: Order): real
  {
    o.filled as real * FillPrice(o)
  }

  function DelegatedCapital(c: Config, a: Account): real
  {
    if a.autoEnabled then a.effective else c.researchCapital
  }

  /** AUTO accounting ignores every order made before its start. */
  predicate Counted(a: Account, o: Order)
  {
    a.autoEnabled ==> a.accountingStart.Some? && a.accountingStart.value <= o.createdAt
  }

  function CashOf(c: Config, a: Account, o: Order): real
  {
    if o.filled == 0 || !Counted(a, o) then 0.0
    else if o.side.Buy? then -(Notional(o) * (1.0 + c.buyFee))
    else Notional(o) * (1.0 - c.sellFee)
  }

  function CashFlow(c: Config, a: Account): Order -> real
  {
    (o: Order) => CashOf(c, a, o)
  }

  function RawCash(c: Config, s: State): real
  {
    DelegatedCapital(c, s.account) + SumBy(s.orders, CashFlow(c, s.account))
  }

  function ReservedOf(c: Config, o: Order): real
  {
    if o.side.Buy? && o.status.Open() then
      MaxInt(0, o.qty - o.filled) as real * o.price * (1.0 + c.buyFee)
    else 0.0
  }

  function Reservation(c: Config): Order -> real
  {
    (o: Order) => ReservedOf(c, o)
  }

  function Reserved(c: Config, s: State): real
  {
    SumBy(s.orders, Reservation(c))
  }

  function CommittedOf(progress: map<ClientId, Progress>, y: Symbol, o: Order): int
  {
    if o.symbol == y && o.side.Buy? && o.purpose.CoreBuy? then
      MaxInt(0, (if o.status.Open() then o.qty else o.filled) - Applied(progress, o.id).filled)
    else 0
  }

  function Commitment(progress: map<ClientId, Progress>, y: Symbol): Order -> int
  {
    (o: Order) => CommittedOf(progress, y, o)
  }

  /** Core BUY shares ordered or filled but not yet in the core ledger. */
  function Committed(s: State, y: Symbol): int
  {
    CountBy(s.orders, Commitment(s.progress, y))
  }

  function RowCost(): CoreRow -> real
  {
    (r: CoreRow) => r.cost
  }

  function Invested(s: State): real
  {
    Max(0.0, s.boosterCost + SumBy(s.core, RowCost()))
  }

  function RiskBudget(c: Config, s: State): real
  {
    if s.account.riskBudget.Some? then s.account.riskBudget.value
    else DelegatedCapital(c, s.account)
  }

  function HeldQty(s: State, y: Symbol): int
  {
    var k := RowOf(s.core, y);
    if k < |s.core| then s.core[k].qty else 0
  }

  function TargetQuantity(equity: real, weight: real, price: real, fee: real): int
    requires fee >= 0.0
  {
    if equity <= 0.0 || weight <= 0.0 || price <= 0.0 then 0
    else (equity * weight / (price * (1.0 + fee))).Floor
  }

  // ---------------------------------------------------------------- transactions

  datatype Request = Request(id: ClientId, symbol: Symbol, purpose: Purpose, price: real, qty: nat)

  function NewOrder(r: Request, side: Side, now: int): Order
  {
    Order(r.id, r.symbol, side, r.purpose, r.price, r.qty, 0, None, Created, None, now)
  }

  /** `INSERT OR IGNORE`: the flag is `rowcount == 1`. */
  function Insert(s: State, o: Order): (State, bool)
  {
    if IndexOf(s.orders, o.id) < |s.orders| then (s, false)
    else (s.(orders := s.orders + [o]), true)
  }

  predicate HasOpenOrder(s: State)
  {
    exists i :: 0 <= i < |s.orders| && s.orders[i].status.Open()
  }

  predicate HasOpenBuy(s: State)
  {
    exists i :: 0 <= i < |s.orders| && s.orders[i].side.Buy? && s.orders[i].status.Open()
  }

  function Required(c: Config, r: Request): real
  {
    r.qty as real * r.price * (1.0 + c.buyFee)
  }

  function Available(c: Config, s: State, brokerCash: real): real
  {
    var reserved := Reserved(c, s);
    Max(0.0, Min(Min(RawCash(c, s) - reserved, RiskBudget(c, s) - Invested(s) - reserved), brokerCash))
  }

  predicate GatesClosed(a: Account)
  {
    a.autoEnabled &&
    (!a.launchAuthorized || !a.quarantineOff || !a.haltLatchOff || !a.running || a.effective <= 0.0)
  }

  function RemainingTarget(c: Config, s: State, r: Request, row: CoreRow): int
    requires ValidConfig(c)
  {
    var target :=
      if row.targetQty == 0 && row.targetWeight > 0.0 then
        TargetQuantity(RiskBudget(c, s), row.targetWeight, r.price, c.buyFee)
      else row.targetQty;
    MaxInt(0, target - row.qty - Committed(s, r.symbol))
  }

  function ReserveBuy(c: Config, s: State, r: Request, brokerCash: real): Result<(State, bool)>
    requires ValidConfig(c)
  {
    var k := RowOf(s.core, r.symbol);
    if GatesClosed(s.account) then Err("AUTO gate closed")
    else if r.purpose.CoreBuy? && k == |s.core| then Err("not a core target symbol")
    else if r.purpose.CoreBuy? && r.qty > RemainingTarget(c, s, r, s.core[k]) then Err("target quantity exceeded")
    else if Required(c, r) > Available(c, s, brokerCash) then Err("risk budget or managed cash exceeded")
    else Ok(Insert(s, NewOrder(r, Buy, s.clock)))
  }

  function ReserveSell(s: State, r: Request): (State, bool)
  {
    Insert(s, NewOrder(r, Sell, s.clock))
  }

  /** A broker snapshot of one order: `None` means the column is not written. */
  datatype Snapshot = Snapshot(
    id: ClientId, status: Status, brokerId: Option<string>, filled: Option<int>, avg: Option<real>)

  function Refreshed(o: Order, u: Snapshot): Order
  {
    o.(status := u.status,
    brokerId := if u.brokerId.Some? then u.brokerId else o.brokerId,
    filled := if u.filled.Some? && u.filled.value >= 0 then u.filled.value else o.filled,
    avg := if u.avg.Some? then u.avg else o.avg)
  }

  function UpdateOrder(s: State, u: Snapshot): Result<State>
  {
    var k := IndexOf(s.orders, u.id);
    if k == |s.orders| then Err("unknown order")
    else
      var o := s.orders[k];
      if o.status.Terminal() && u.status != o.status then Err("terminal status cannot change")
      else if u.filled.Some? && u.filled.value < o.filled then Err("cumulative fill fell")
      else if u.filled.Some? && u.filled.value > o.qty then Err("cumulative fill exceeds order")
      else if u.filled.Some? && u.filled.value > 0 && u.avg.Some? && u.avg.value <= 0.0 then Err("fill price not positive")
      else Ok(s.(orders := s.orders[k := Refreshed(o, u)]))
  }

  function CostAt(avg: real, qty: int): real
  {
    avg * qty as real
  }

  /** The new core row after the part of `o` beyond `p` reaches it, or why it cannot. */
  function AppliedRow(row: CoreRow, o: Order, p: Progress): Result<CoreRow>
    requires p.filled <= o.filled
  {
    var delta := o.filled - p.filled;
    var deltaNotional := Notional(o) - p.notional;
    if delta > 0 && deltaNotional < 0.0 then Err("cumulative notional fell")
    else if delta == 0 && deltaNotional == 0.0 then Ok(row)
    else if o.side.Buy? then
      var qty := row.qty + delta;
      var cost := row.cost + deltaNotional;
      if cost < 0.0 then Err("price correction makes cost negative")
      else Ok(row.(qty := qty, cost := cost, avg := if qty > 0 then cost / qty as real else 0.0))
    else if delta > row.qty then Err("sold more than held")
    else
      var qty := row.qty - delta;
      var avg := if qty > 0 then row.avg else 0.0;
      Ok(row.(qty := qty, avg := avg, cost := CostAt(avg, qty)))
  }

  function ApplyCoreFill(s: State, id: ClientId): Result<State>
  {
    var k := IndexOf(s.orders, id);
    if k == |s.orders| then Err("unknown order")
    else
      var o := s.orders[k];
      var p := Applied(s.progress, id);
      var j := RowOf(s.core, o.symbol);
      if o.filled < p.filled then Err("cumulative fill below applied")
      else if j == |s.core| then Err("unknown symbol")
      else
        var row := AppliedRow(s.core[j], o, p);
        if row.Err? then Err(row.reason)
        else if o.filled == p.filled && Notional(o) == p.notional then Ok(s)
        else Ok(s.(core := s.core[j := row.value], progress := s.progress[id := Progress(o.filled, Notional(o))]))
  }

  predicate Unsettled(progress: map<ClientId, Progress>, o: Order)
  {
    !o.purpose.OtherPurpose? && o.filled > 0 && Applied(progress, o.id) != Progress(o.filled, Notional(o))
  }

  /** `unapplied_core_fill_order_ids`, in order of insertion. */
  function Unapplied(orders: seq<Order>, progress: map<ClientId, Progress>): seq<ClientId>
  {
    if |orders| == 0 then []
    else
      var o := orders[|orders| - 1];
      Unapplied(orders[..|orders| - 1], progress) + (if Unsettled(progress, o) then [o.id] else [])
  }

  predicate Quiescent(s: State)
  {
    Unapplied(s.orders, s.progress) == []
  }

  /** One committed transaction per id; the first that raises stops the loop. */
  function ApplyAll(s: State, ids: seq<ClientId>): (State, bool)
    decreases |ids|
  {
    if |ids| == 0 then (s, true)
    else
      var r := ApplyCoreFill(s, ids[0]);
      if r.Err? then (s, false) else ApplyAll(r.value, ids[1..])
  }

  function Recover(s: State): (State, bool)
  {
    ApplyAll(s, Unapplied(s.orders, s.progress))
  }

  // ---------------------------------------------------------------- runs

  datatype Event =
    | BuyReserved(req: Request, brokerCash: real)
    | SellReserved(req: Request)
    | OrderRefreshed(snapshot: Snapshot)
    | FillApplied(id: ClientId)
    | Recovered
    | Launched(effective: real, riskBudget: real)
    | PrincipalChanged(effective: real, riskBudget: real)
    | BudgetRecorded(riskBudget: real)
    | TargetSet(symbol: Symbol, weight: real, qty: nat)
    | GatesSet(quarantineOff: bool, haltLatchOff: bool, running: bool)
    | Ticked

  function WithoutTargets(core: seq<CoreRow>): (r: seq<CoreRow>)
    ensures |r| == |core|
    ensures forall i :: 0 <= i < |core| ==> r[i] == core[i].(targetQty := 0)
  {
    seq(|core|, i requires 0 <= i < |core| => core[i].(targetQty := 0))
  }

  /** Every capital change is refused while any order is open, in the same transaction. */
  function Step(c: Config, s: State, e: Event): State
    requires ValidConfig(c)
  {
    match e
    case BuyReserved(r, cash) =>
      var out := ReserveBuy(c, s, r, cash);
      if out.Ok? then out.value.0 else s
    case SellReserved(r) => ReserveSell(s, r).0
    case OrderRefreshed(u) =>
      var out := UpdateOrder(s, u);
      if out.Ok? then out.value else s
    case FillApplied(id) =>
      var out := ApplyCoreFill(s, id);
      if out.Ok? then out.value else s
    case Recovered => Recover(s).0
    case Launched(eff, budget) =>
      if HasOpenOrder(s) || s.account.launchAuthorized then s
      else s.(account := s.account.(accountingStart := Some(s.clock), launchAuthorized := true,
              effective := eff, riskBudget := Some(budget), quarantineOff := false, running := false),
              core := WithoutTargets(s.core))
    case PrincipalChanged(eff, budget) =>
      if HasOpenOrder(s) then s
      else s.(account := s.account.(effective := eff, riskBudget := Some(budget)),
              core := WithoutTargets(s.core))
    case BudgetRecorded(budget) => s.(account := s.account.(riskBudget := Some(budget)))
    case TargetSet(y, w, q) =>
      var j := RowOf(s.core, y);
      if j == |s.core| then s else s.(core := s.core[j := s.core[j].(targetWeight := w, targetQty := q)])
    case GatesSet(q, h, r) =>
      s.(account := s.account.(quarantineOff := q, haltLatchOff := h, running := r))
    case Ticked => s.(clock := s.clock + 1)
  }

  function Run(c: Config, s: State, es: seq<Event>): State
    requires ValidConfig(c)
  {
    if |es| == 0 then s else Step(c, Run(c, s, es[..|es| - 1]), es[|es| - 1])
  }

  /** What the broker may report: no fill worse than the limit, no late fill, no clawback. */
  predicate FairRefresh(o: Order, n: Order)
  {
    && (o.side.Buy? ==> Notional(n) - Notional(o) <= (n.filled - o.filled) as real * o.price)
    && (o.side.Sell? ==> Notional(n) >= Notional(o))
    && (o.status.Terminal() ==> n.filled == o.filled)
  }

  /** What the callers guarantee: sides match purposes, BUY limits are positive, only core
      orders reach the core ledger; and what the broker guarantees. */
  predicate Allowed(s: State, e: Event)
  {
    match e
    case BuyReserved(r, _) => r.qty > 0 && r.price > 0.0 && !r.purpose.CoreSell?
    case SellReserved(r) => r.qty > 0 && !r.purpose.CoreBuy?
    case OrderRefreshed(u) =>
      var k := IndexOf(s.orders, u.id);
      k < |s.orders| && UpdateOrder(s, u).Ok? ==> FairRefresh(s.orders[k], Refreshed(s.orders[k], u))
    case FillApplied(id) =>
      var k := IndexOf(s.orders, id);
      k < |s.orders| ==> !s.orders[k].purpose.OtherPurpose?
    case _ => true
  }

  predicate AllowedRun(c: Config, s: State, es: seq<Event>)
    requires ValidConfig(c)
  {
    |es| > 0 ==>
      && AllowedRun(c, s, es[..|es| - 1])
      && Allowed(Run(c, s, es[..|es| - 1]), es[|es| - 1])
  }

  // ---------------------------------------------------------------- table invariant

  predicate UniqueIds(orders: seq<Order>)
  {
    forall i, j :: 0 <= i < j < |orders| ==> orders[i].id != orders[j].id
  }

  predicate UniqueSymbols(core: seq<CoreRow>)
  {
    forall i, j :: 0 <= i < j < |core| ==> core[i].symbol != core[j].symbol
  }

  predicate OrderOk(s: State, o: Order)
  {
    && o.filled <= o.qty
    && (o.side.Buy? ==> o.qty > 0 && o.price > 0.0 && !o.purpose.CoreSell?)
    && (o.side.Sell? ==> !o.purpose.CoreBuy? && Notional(o) >= 0.0)
    && o.createdAt <= s.clock
    && (o.side.Buy? && o.status.Open() ==> Counted(s.account, o))
    && Applied(s.progress, o.id).filled <= o.filled
    && (Applied(s.progress, o.id).filled == 0 ==> Applied(s.progress, o.id).notional == 0.0)
    && (o.purpose.OtherPurpose? ==> o.id !in s.progress)
  }

  predicate RowOk(r: CoreRow)
  {
    && r.avg >= 0.0 && r.cost >= 0.0
    && (r.qty > 0 ==> r.cost == r.avg * r.qty as real)
  }

  predicate TablesOk(s: State)
  {
    && UniqueIds(s.orders) && UniqueSymbols(s.core)
    && (forall i :: 0 <= i < |s.orders| ==> OrderOk(s, s.orders[i]))
    && (forall j :: 0 <= j < |s.core| ==> RowOk(s.core[j]))
    && (forall id :: id in s.progress ==> IndexOf(s.orders, id) < |s.orders|)
    && s.boosterCost >= 0.0
    && (s.account.autoEnabled && s.account.launchAuthorized ==>
          s.account.accountingStart.Some? && s.account.accountingStart.value <= s.clock)
  }
}
