/** The daily simulation of one symbol, with the production exit rules. */
module Backtest {
  import opened Numeric
  import opened Results
  import opened Sums
  import opened Strategy
  import opened TradeLog

  /** `pnl` is the cycle's cash flow before the report rounds it. */
  datatype ClosedCycle = ClosedCycle(cycle: nat, pnl: real, holdingDays: int, entryCount: nat)

  function Pnl(): ClosedCycle -> real
  {
    (c: ClosedCycle) => c.pnl
  }

  /** The position of the open cycle; `FLAT` when there is none. */
  datatype Position = Position(
    state: PositionState, cycle: Option<nat>, quantity: nat, avg: real, cost: real,
    cap: real, staged: real, entryCount: nat, anchor: real, rebuyCount: int, armed: bool,
    tp1Filled: nat, plan: Option<Plan>, tp1Done: bool, startEquity: real, flows: real, holdingDays: int)

  const FLAT := Position(Empty, None, 0, 0.0, 0.0, 0.0, 0.0, 0, 0.0, 0, false, 0, None, false, 0.0, 0.0, 0)

  datatype Book = Book(cash: real, trades: seq<Trade>, closed: seq<ClosedCycle>)

  datatype Pending = Pending(day: Day, decision: Decision)

  datatype Outcome =
    | Filled | Chased | PriceRecovered | AboveCeiling | ZeroQuantity | ExposureBlocked

  function View(p: Position): Snapshot
  {
    Snapshot(p.state, p.avg, p.cost, p.cap, p.staged, p.anchor, p.rebuyCount, p.armed, p.tp1Filled)
  }

  // ---------------------------------------------------------------- invariant

  /** Cash is explained twice: by the trades, and by the cycles. */
  ghost predicate CashOk(c: Config, b: Book, flows: real)
  {
    && b.cash >= 0.0
    && b.cash == c.capital + LogCash(c.buyFee, c.sellFee, b.trades)
    && b.cash == c.capital + SumBy(b.closed, Pnl()) + flows
  }

  ghost predicate LogOk(b: Book, quantity: nat)
  {
    NetQty(b.trades) == quantity && NeverShort(b.trades)
  }

  predicate StagesOk(c: Config, p: Position)
    requires ValidConfig(c)
  {
    && 1 <= p.entryCount <= |c.weights|
    && (p.state.PartialTp1? || p.state.HoldingRebuy? || p.state == StageState(p.entryCount))
    && p.cap > 0.0 && (CapsFit(c) ==> p.cap <= c.capital)
    && p.staged <= StageTarget(c, p.cap, p.entryCount) + 0.005
  }

  predicate LegsOk(p: Position)
  {
    && p.plan.Some? && p.plan.value.tp1Price >= 0.0 && p.plan.value.tp2Price >= 0.0
    && (p.tp1Done <==> p.state.PartialTp1?)
    && p.quantity == (if p.tp1Done then 0 else p.plan.value.tp1Qty) + p.plan.value.tp2Qty
    && p.plan.value.tp1Qty >= 1
  }

  function CostAt(avg: real, quantity: nat): real
  {
    avg * quantity as real
  }

  predicate CostOk(p: Position)
  {
    p.cost == CostAt(p.avg, p.quantity)
  }

  predicate PositionOk(c: Config, p: Position, number: nat)
    requires ValidConfig(c)
  {
    && (p.state.Empty? <==> p.quantity == 0)
    && CostOk(p)
    && (p.quantity == 0 ==> p == FLAT)
    && (p.quantity > 0 ==>
          p.cycle == Some(number) && p.avg > 0.0 && p.startEquity > 0.0 && StagesOk(c, p) && LegsOk(p))
  }

  ghost predicate Consistent(c: Config, b: Book, p: Position, number: nat)
  {
    ValidConfig(c) && CashOk(c, b, p.flows) && LogOk(b, p.quantity) && PositionOk(c, p, number)
  }

  /** Only the open cycle has a TP1 day, and it has one once its first leg is gone. */
  predicate CalendarOk(p: Position, tp1Day: map<nat, int>)
  {
    && (forall n :: n in tp1Day ==> p.cycle == Some(n) && tp1Day[n] <= p.holdingDays)
    && (p.state.PartialTp1? ==> p.cycle.Some? && p.cycle.value in tp1Day)
  }

  // ---------------------------------------------------------------- one trade

  lemma SaleBooks(c: Config, b: Book, flows: real, quantity: nat, t: Trade)
    requires ValidConfig(c) && CashOk(c, b, flows) && LogOk(b, quantity) && Through(b.trades, t.date)
    requires !t.buy && t.price >= 0.0 && t.quantity <= quantity
    ensures
      var net := t.quantity as real * t.price - t.quantity as real * t.price * c.sellFee;
      var after := b.(cash := b.cash + net, trades := b.trades + [t]);
      net >= 0.0 && CashOk(c, after, flows + net) && LogOk(after, quantity - t.quantity)
  {
    LogGrows(c.buyFee, c.sellFee, b.trades, t);
    NeverShortGrows(b.trades, t);
    NetNonnegative(t.quantity, t.price, c.sellFee);
  }

  lemma NetNonnegative(quantity: nat, price: real, fee: real)
    requires price >= 0.0 && 0.0 <= fee <= 1.0
    ensures quantity as real * price - quantity as real * price * fee >= 0.0
  {
    var gross := quantity as real * price;
    assert gross >= 0.0;
    assert gross - gross * fee == gross * (1.0 - fee) >= 0.0;
  }

  lemma PurchaseBooks(c: Config, b: Book, flows: real, quantity: nat, t: Trade)
    requires ValidConfig(c) && CashOk(c, b, flows) && LogOk(b, quantity) && Through(b.trades, t.date)
    requires t.buy && Gross(t.quantity, t.price, c.buyFee) <= b.cash
    ensures
      var gross := Gross(t.quantity, t.price, c.buyFee);
      var after := b.(cash := b.cash - gross, trades := b.trades + [t]);
      CashOk(c, after, flows - gross) && LogOk(after, quantity + t.quantity)
  {
    LogGrows(c.buyFee, c.sellFee, b.trades, t);
    NeverShortGrows(b.trades, t);
  }

  lemma CloseBooks(c: Config, b: Book, flows: real, cycle: ClosedCycle)
    requires CashOk(c, b, flows) && cycle.pnl == flows
    ensures CashOk(c, b.(closed := b.closed + [cycle]), 0.0)
  {
    SumAppend(b.closed, cycle, Pnl());
  }

  lemma CostIsShared(cost: real, quantity: nat)
    requires quantity > 0
    ensures cost == (cost / quantity as real) * quantity as real
    ensures cost > 0.0 ==> cost / quantity as real > 0.0
  {
    var q, x := quantity as real, cost / quantity as real;
    assert x * q == cost;
    if x <= 0.0 {
      Monotone(x, 0.0, q);
    }
  }

  // ---------------------------------------------------------------- one purchase

  function AverageAfter(p: Position, price: real, q: nat): real
    requires q >= 1
  {
    (p.cost + q as real * price) / (p.quantity + q) as real
  }

  /** The position after `q` shares at `price` on decision `d`. */
  function Bought(
    c: Config, p: Position, number: nat, d: Decision, price: real, q: nat, cash: real, atr: real): Position
    requires ValidConfig(c) && q >= 1 && AverageAfter(p, price, q) > 0.0
    requires d.action.AddEntry? ==> d.stage.Some? && 1 <= d.stage.value <= 4
  {
    var gross := Gross(q, price, c.buyFee);
    var held := p.(quantity := p.quantity + q, avg := AverageAfter(p, price, q), cost := p.cost + q as real * price,
                   flows := p.flows - gross, tp1Done := false,
                   plan := Some(TakeProfit(c, AverageAfter(p, price, q), p.quantity + q, atr)));
    match d.action
    case FirstEntry =>
      held.(cycle := Some(number + 1), startEquity := cash, holdingDays := 0, entryCount := 1, anchor := price,
            cap := d.cap, staged := gross, state := Holding1, tp1Filled := 0, rebuyCount := 0, armed := false)
    case AddEntry =>
      held.(entryCount := d.stage.value, cap := d.cap, staged := p.staged + gross, state := StageState(d.stage.value))
    case _ =>
      held.(rebuyCount := p.rebuyCount + 1, armed := false, state := HoldingRebuy)
  }

  lemma NoCapNoBudget(c: Config, cap: real, stage: nat, staged: real)
    requires ValidConfig(c) && 1 <= stage <= |c.weights| && cap <= 0.0 && staged >= 0.0
    ensures StageBudget(c, cap, stage, staged) == 0.0
  {
    Monotone(cap, 0.0, c.weights[stage - 1]);
    CentsFixed(0.0);
    HalfEvenAtMost(cap * c.weights[stage - 1], 0.0);
  }

  /** The stage, budget and cap an allowed entry carries. */
  lemma EntryDecision(c: Config, day: Day, p: Position, d: Decision, number: nat)
    requires ValidConfig(c) && PositionOk(c, p, number)
    requires d == Decide(c, day, View(p)) && d.allowed && !d.action.Rebuy?
    ensures d.action.FirstEntry? || d.action.AddEntry?
    ensures d.stage.Some? && 1 <= d.stage.value <= |c.weights|
    ensures d.action.FirstEntry? ==> p == FLAT && d.stage.value == 1 && d.cap == ScoreToExposure(c, day.score)
    ensures d.action.AddEntry? ==>
              p.quantity > 0 && d.stage.value == p.entryCount + 1 && d.cap == UpdateCap(c, p.cap, day.score)
    ensures d.budget == StageBudget(c, d.cap, d.stage.value, p.staged) > 0.0
  {
  }

  lemma EntryCapOk(c: Config, day: Day, p: Position, d: Decision, number: nat)
    requires ValidConfig(c) && PositionOk(c, p, number)
    requires d == Decide(c, day, View(p)) && d.allowed && !d.action.Rebuy?
    ensures d.cap > 0.0 && (CapsFit(c) ==> d.cap <= c.capital)
    ensures p.quantity > 0 && (CapsFit(c) || !c.allowIncrease) ==> d.cap >= p.cap
  {
    EntryDecision(c, day, p, d, number);
    if d.action.FirstEntry? {
      if d.cap <= 0.0 {
        NoCapNoBudget(c, d.cap, 1, p.staged);
      }
    }
  }

  lemma BoughtStages(c: Config, day: Day, p: Position, number: nat, d: Decision, price: real, q: nat, cash: real, atr: real)
    requires ValidConfig(c) && PositionOk(c, p, number)
    requires d == Decide(c, day, View(p)) && d.allowed
    requires q >= 1 && AverageAfter(p, price, q) > 0.0 && Gross(q, price, c.buyFee) <= d.budget
    requires d.action.AddEntry? ==> d.stage.Some? && 1 <= d.stage.value <= 4
    ensures StagesOk(c, Bought(c, p, number, d, price, q, cash, atr))
  {
    if !d.action.Rebuy? {
      EntryDecision(c, day, p, d, number);
      EntryCapOk(c, day, p, d, number);
      BudgetStaysInStage(c, d.cap, d.stage.value, p.staged, Gross(q, price, c.buyFee));
    }
  }

  lemma BoughtLegs(c: Config, p: Position, number: nat, d: Decision, price: real, q: nat, cash: real, atr: real)
    requires ValidConfig(c) && q >= 1 && AverageAfter(p, price, q) > 0.0
    requires d.action.AddEntry? ==> d.stage.Some? && 1 <= d.stage.value <= 4
    ensures
      var n := Bought(c, p, number, d, price, q, cash, atr);
      LegsOk(n) && CostOk(n) && !n.state.Empty? && n.quantity > 0
  {
    CostIsShared(p.cost + q as real * price, p.quantity + q);
    TakeProfitPrices(c, AverageAfter(p, price, q), p.quantity + q, atr);
  }

  /** Buying keeps the position in order, whatever was decided. */
  lemma BoughtOk(c: Config, day: Day, p: Position, number: nat, d: Decision, price: real, q: nat, cash: real, atr: real)
    requires ValidConfig(c) && PositionOk(c, p, number) && cash > 0.0
    requires d == Decide(c, day, View(p)) && d.allowed
    requires q >= 1 && AverageAfter(p, price, q) > 0.0 && Gross(q, price, c.buyFee) <= d.budget
    requires d.action.AddEntry? ==> d.stage.Some? && 1 <= d.stage.value <= 4
    ensures PositionOk(c, Bought(c, p, number, d, price, q, cash, atr),
                       if d.action.FirstEntry? then number + 1 else number)
  {
    BoughtStages(c, day, p, number, d, price, q, cash, atr);
    BoughtLegs(c, p, number, d, price, q, cash, atr);
    if !d.action.Rebuy? {
      EntryDecision(c, day, p, d, number);
    } else {
      assert p.quantity > 0;
    }
  }

  lemma AveragePositive(c: Config, p: Position, number: nat, price: real, q: nat)
    requires ValidConfig(c) && PositionOk(c, p, number) && price > 0.0 && q >= 1
    ensures AverageAfter(p, price, q) > 0.0
  {
    if p.quantity > 0 {
      Monotone(0.0, p.avg, p.quantity as real);
    }
    PositiveProduct(q as real, price);
    CostIsShared(p.cost + q as real * price, p.quantity + q);
  }

  // ---------------------------------------------------------------- one session, as a function

  datatype Sim = Sim(book: Book, pos: Position, number: nat, tp1Day: map<nat, int>)

  function Start(c: Config): Sim
  {
    Sim(Book(c.capital, [], []), FLAT, 0, map[])
  }

  function FillPrice(today: Day, slippage: real): real
  {
    today.open * (1.0 + slippage)
  }

  function FillQuantity(c: Config, p: Pending, pos: Position, cash: real, price: real): nat
    requires ValidConfig(c)
  {
    OrderQuantity(Min(p.decision.budget, cash), price, c.buyFee,
                  if p.decision.action.Rebuy? then Some(pos.tp1Filled) else None)
  }

  /** Why a pending order is skipped, the first reason that applies, or that it fills. */
  function OutcomeOf(c: Config, p: Pending, pos: Position, cash: real, today: Day, slippage: real): Outcome
    requires ValidConfig(c)
  {
    var d, price := p.decision, FillPrice(today, slippage);
    if today.open > ChasePrice(c, p.day.close) then Chased
    else if (d.action.AddEntry? || d.action.Rebuy?) && d.trigger.Some? && today.open > d.trigger.value then PriceRecovered
    else if price > PriceCeiling(c, d.action, p.day.close, d.trigger, pos.avg) then AboveCeiling
    else if FillQuantity(c, p, pos, cash, price) < 1 then ZeroQuantity
    else Filled
  }

  predicate CanBuy(pos: Position, d: Decision, price: real, q: nat)
  {
    && q >= 1 && AverageAfter(pos, price, q) > 0.0
    && (d.action.AddEntry? ==> d.stage.Some? && 1 <= d.stage.value <= 4)
  }

  function PurposeOf(a: Action): Purpose
  {
    if a.FirstEntry? then FirstBuy else if a.AddEntry? then AddBuy else RebuyBuy
  }

  function Purchased(c: Config, s: Sim, p: Pending, today: Day, price: real, q: nat): Sim
    requires ValidConfig(c) && CanBuy(s.pos, p.decision, price, q)
  {
    var number := if p.decision.action.FirstEntry? then s.number + 1 else s.number;
    Sim(
      s.book.(cash := s.book.cash - Gross(q, price, c.buyFee),
              trades := s.book.trades + [Trade(today.date, number, true, PurposeOf(p.decision.action), price, q)]),
      Bought(c, s.pos, s.number, p.decision, price, q, s.book.cash, p.day.atr), number, s.tp1Day)
  }

  function Executed(c: Config, s: Sim, p: Pending, today: Day, slippage: real): Sim
    requires ValidConfig(c)
  {
    var price := FillPrice(today, slippage);
    var q := FillQuantity(c, p, s.pos, s.book.cash, price);
    if OutcomeOf(c, p, s.pos, s.book.cash, today, slippage).Filled? && CanBuy(s.pos, p.decision, price, q) then
      Purchased(c, s, p, today, price, q)
    else s
  }

  function Aged(s: Sim): Sim
  {
    if s.pos.quantity > 0 && s.pos.startEquity > 0.0 then s.(pos := s.pos.(holdingDays := s.pos.holdingDays + 1)) else s
  }

  function Opened(c: Config, s: Sim, pending: Option<Pending>, today: Day, slippage: real): Sim
    requires ValidConfig(c)
  {
    Aged(if pending.Some? then Executed(c, s, pending.value, today, slippage) else s)
  }

  function NetProceeds(c: Config, price: real, q: nat): real
  {
    q as real * price - q as real * price * c.sellFee
  }

  function Sold(c: Config, s: Sim, date: int, price: real, q: nat, purpose: Purpose): Sim
    requires q <= s.pos.quantity && s.pos.cycle.Some?
  {
    var net, left := NetProceeds(c, price, q), s.pos.quantity - q;
    s.(book := s.book.(cash := s.book.cash + net,
                       trades := s.book.trades + [Trade(date, s.pos.cycle.value, false, purpose, price, q)]),
       pos := s.pos.(flows := s.pos.flows + net, quantity := left, cost := CostAt(s.pos.avg, left)))
  }

  function Finished(s: Sim): Sim
    requires s.pos.cycle.Some?
  {
    var record := ClosedCycle(s.pos.cycle.value, s.pos.flows, s.pos.holdingDays, s.pos.entryCount);
    s.(book := s.book.(closed := s.book.closed + [record]), pos := FLAT)
  }

  predicate Held(p: Position)
  {
    p.quantity > 0 && p.cycle.Some? && p.plan.Some?
  }

  /** After the first leg, if it is due. */
  function FirstLegSold(c: Config, s: Sim, today: Day): Sim
    requires Held(s.pos)
  {
    if !Tp1Due(s.pos, today) then s
    else
      var q := MinInt(s.pos.plan.value.tp1Qty, s.pos.quantity);
      var t := Sold(c, s, today.date, s.pos.plan.value.tp1Price, q, Tp1Sell);
      t.(pos := t.pos.(tp1Filled := q, tp1Done := true,
                       state := if t.pos.quantity > 0 then PartialTp1 else t.pos.state,
                       armed := t.pos.quantity == 0 && t.pos.armed))
  }

  function SecondLegSold(c: Config, s: Sim, today: Day): Sim
    requires s.pos.cycle.Some? && s.pos.plan.Some?
  {
    var t := if s.pos.quantity > 0 && today.high >= s.pos.plan.value.tp2Price then
               Sold(c, s, today.date, s.pos.plan.value.tp2Price, s.pos.quantity, Tp2Sell) else s;
    if t.pos.quantity == 0 then Finished(t) else t
  }

  function LegsSold(c: Config, s: Sim, today: Day): Sim
  {
    if Held(s.pos) then SecondLegSold(c, FirstLegSold(c, s, today), today) else s
  }

  /** The remainder exit: TP1 done in an earlier session, the wait over, the price reached. */
  predicate ExitDue(c: Config, s: Sim, today: Day)
  {
    && s.pos.state.PartialTp1? && s.pos.cycle.Some? && s.pos.cycle.value in s.tp1Day
    && !Tp2Due(s.pos, today) && c.exitEnabled
    && s.pos.holdingDays - s.tp1Day[s.pos.cycle.value] >= c.exitWait
    && today.high >= RemainderPrice(c, s.pos.avg)
  }

  function RemainderSold(c: Config, s: Sim, today: Day): Sim
    requires s.pos.cycle.Some?
  {
    var u := Finished(Sold(c, s, today.date, RemainderPrice(c, s.pos.avg), s.pos.quantity, RemainderSell));
    u.(tp1Day := u.tp1Day - {s.pos.cycle.value})
  }

  function Processed(c: Config, s: Sim, today: Day): Sim
  {
    var t := LegsSold(c, s, today);
    if s.pos.cycle.None? then t
    else if t.pos.quantity == 0 then t.(tp1Day := t.tp1Day - {s.pos.cycle.value})
    else if Tp1Due(s.pos, today) then t.(tp1Day := t.tp1Day[s.pos.cycle.value := t.pos.holdingDays])
    else if ExitDue(c, s, today) then RemainderSold(c, s, today)
    else t
  }

  function Rearmed(s: Sim, today: Day): Sim
  {
    if s.pos.state.PartialTp1? && !s.pos.armed && today.recovered then s.(pos := s.pos.(armed := true)) else s
  }

  function Tomorrow(c: Config, s: Sim, today: Day): Option<Pending>
    requires ValidConfig(c)
  {
    var d := Decide(c, today, View(s.pos));
    if d.allowed then Some(Pending(today, d)) else None
  }

  /** One session of the loop: pending order, holding day, take profit, re-arming, tomorrow's order. */
  function SessionOf(c: Config, s: Sim, pending: Option<Pending>, today: Day, slippage: real): (Sim, Option<Pending>)
    requires ValidConfig(c)
  {
    var t := Rearmed(Processed(c, Opened(c, s, pending, today, slippage), today), today);
    (t, Tomorrow(c, t, today))
  }

  function SessionsOf(c: Config, days: seq<Day>, slippage: real): (Sim, Option<Pending>)
    requires ValidConfig(c)
  {
    if |days| == 0 then (Start(c), None)
    else
      var before := SessionsOf(c, days[..|days| - 1], slippage);
      SessionOf(c, before.0, before.1, days[|days| - 1], slippage)
  }

  /** A fill leaves the position in order, its calendar empty for a new cycle, and its cap no lower. */
  lemma PurchasedPosition(c: Config, s: Sim, p: Pending, today: Day, price: real, q: nat)
    requires ValidConfig(c) && PositionOk(c, s.pos, s.number) && CalendarOk(s.pos, s.tp1Day)
    requires PendingOk(c, p, s.pos) && q >= 1 && price > 0.0 && s.book.cash > 0.0
    requires Gross(q, price, c.buyFee) <= p.decision.budget
    ensures CanBuy(s.pos, p.decision, price, q)
    ensures
      var t := Purchased(c, s, p, today, price, q);
      && PositionOk(c, t.pos, t.number) && CalendarOk(t.pos, t.tp1Day) && CapLaw(c, s.pos, t.pos)
      && t.pos.quantity == s.pos.quantity + q && t.pos.flows == s.pos.flows - Gross(q, price, c.buyFee)
  {
    var d := p.decision;
    AveragePositive(c, s.pos, s.number, price, q);
    if !d.action.Rebuy? {
      EntryDecision(c, p.day, s.pos, d, s.number);
    }
    BoughtOk(c, p.day, s.pos, s.number, d, price, q, s.book.cash, p.day.atr);
    CapKept(c, p.day, s.pos, d, s.number);
  }

  lemma PurchasedBook(c: Config, s: Sim, p: Pending, today: Day, price: real, q: nat)
    requires ValidConfig(c) && CanBuy(s.pos, p.decision, price, q)
    requires CashOk(c, s.book, s.pos.flows) && LogOk(s.book, s.pos.quantity) && Through(s.book.trades, today.date)
    requires Gross(q, price, c.buyFee) <= s.book.cash
    ensures
      var t := Purchased(c, s, p, today, price, q);
      && CashOk(c, t.book, s.pos.flows - Gross(q, price, c.buyFee)) && LogOk(t.book, s.pos.quantity + q)
      && Through(t.book.trades, today.date) && SamePast(s.book.trades, t.book.trades, today.date)
      && BoughtOn(t.book.trades, today.date) == BoughtOn(s.book.trades, today.date) + q
  {
    var number := if p.decision.action.FirstEntry? then s.number + 1 else s.number;
    var t := Trade(today.date, number, true, PurposeOf(p.decision.action), price, q);
    PurchaseBooks(c, s.book, s.pos.flows, s.pos.quantity, t);
    PurchaseKeepsPast(s.book.trades, t);
  }

  /** A fill within budget and cash leaves books, position and calendar in order. */
  lemma PurchaseKeepsAll(c: Config, s: Sim, p: Pending, today: Day, price: real, q: nat)
    requires Consistent(c, s.book, s.pos, s.number) && CalendarOk(s.pos, s.tp1Day)
    requires PendingOk(c, p, s.pos) && q >= 1 && price > 0.0 && s.book.cash > 0.0
    requires Through(s.book.trades, today.date) && Gross(q, price, c.buyFee) <= Min(p.decision.budget, s.book.cash)
    ensures CanBuy(s.pos, p.decision, price, q)
    ensures
      var t := Purchased(c, s, p, today, price, q);
      && Consistent(c, t.book, t.pos, t.number) && CalendarOk(t.pos, t.tp1Day) && CapLaw(c, s.pos, t.pos)
      && Through(t.book.trades, today.date) && SamePast(s.book.trades, t.book.trades, today.date)
      && BoughtOn(t.book.trades, today.date) == BoughtOn(s.book.trades, today.date) + q
      && t.pos.quantity == s.pos.quantity + q
  {
    PurchasedPosition(c, s, p, today, price, q);
    PurchasedBook(c, s, p, today, price, q);
  }

  // ---------------------------------------------------------------- the simulation

  class Simulation {
    const config: Config
    var book: Book
    var pos: Position
    var cycleNumber: nat
    var tp1Day: map<nat, int>

    function Now(): Sim
      reads this
    {
      Sim(book, pos, cycleNumber, tp1Day)
    }

    ghost predicate Valid()
      reads this
    {
      Consistent(config, book, pos, cycleNumber) && CalendarOk(pos, tp1Day)
    }

    constructor (c: Config)
      requires ValidConfig(c)
      ensures Valid() && config == c && Now() == Start(c)
    {
      config, book, pos := c, Book(c.capital, [], []), FLAT;
      cycleNumber, tp1Day := 0, map[];
    }

    method Sell(date: int, price: real, requested: nat, purpose: Purpose)
      requires ValidConfig(config) && price >= 0.0 && pos.cycle.Some? && requested <= pos.quantity
      requires CashOk(config, book, pos.flows) && LogOk(book, pos.quantity) && Through(book.trades, date)
      modifies this`book, this`pos
      ensures CashOk(config, book, pos.flows) && LogOk(book, pos.quantity) && CostOk(pos)
      ensures Now() == Sold(config, old(Now()), date, price, requested, purpose)
      ensures SamePast(old(book).trades, book.trades, date) && SameBuys(old(book).trades, book.trades)
    {
      var quantity := MinInt(requested, pos.quantity);
      var gross := quantity as real * price;
      var fee := gross * config.sellFee;
      var net := gross - fee;
      SaleBooks(config, book, pos.flows, pos.quantity,
                Trade(date, pos.cycle.value, false, purpose, price, quantity));
      SaleKeepsPast(book.trades, Trade(date, pos.cycle.value, false, purpose, price, quantity));
      book := book.(cash := book.cash + net);
      pos := pos.(flows := pos.flows + net, quantity := pos.quantity - quantity);
      pos := pos.(cost := CostAt(pos.avg, pos.quantity));
      book := book.(trades := book.trades + [Trade(date, pos.cycle.value, false, purpose, price, quantity)]);
    }

    /** Books the finished cycle and resets the position. */
    method CloseCycle()
      requires ValidConfig(config) && CashOk(config, book, pos.flows) && LogOk(book, pos.quantity)
      requires pos.quantity == 0 && pos.cycle.Some?
      modifies this`book, this`pos
      ensures Consistent(config, book, pos, cycleNumber) && pos == FLAT
      ensures Now() == Finished(old(Now()))
    {
      var record := ClosedCycle(pos.cycle.value, pos.flows, pos.holdingDays, pos.entryCount);
      CloseBooks(config, book, pos.flows, record);
      book := book.(closed := book.closed + [record]);
      pos := FLAT;
    }

    /** The state change of a filled order. */
    method Buy(p: Pending, today: Day, price: real, q: nat)
      requires Valid() && Through(book.trades, today.date) && PendingOk(config, p, pos)
      requires q >= 1 && price > 0.0 && book.cash > 0.0
      requires Gross(q, price, config.buyFee) <= Min(p.decision.budget, book.cash)
      modifies this`book, this`pos, this`cycleNumber
      ensures Valid() && Through(book.trades, today.date)
      ensures CanBuy(old(pos), p.decision, price, q)
      ensures Now() == Purchased(config, old(Now()), p, today, price, q)
      ensures SamePast(old(book).trades, book.trades, today.date)
      ensures BoughtOn(book.trades, today.date) == BoughtOn(old(book).trades, today.date) + q
      ensures pos.quantity == old(pos).quantity + q
      ensures CapLaw(config, old(pos), pos)
    {
      var d := p.decision;
      PurchaseKeepsAll(config, Now(), p, today, price, q);
      ghost var next := Purchased(config, Now(), p, today, price, q);
      var number := if d.action.FirstEntry? then cycleNumber + 1 else cycleNumber;
      var gross := Gross(q, price, config.buyFee);
      var bought := Bought(config, pos, cycleNumber, d, price, q, book.cash, p.day.atr);
      book := book.(cash := book.cash - gross,
                    trades := book.trades + [Trade(today.date, number, true, PurposeOf(d.action), price, q)]);
      pos, cycleNumber := bought, number;
      assert book == next.book && pos == next.pos && Now() == next;
    }

    /** The checks before a fill, in their order; the last one is never reached. */
    method CheckPending(p: Pending, today: Day, slippage: real) returns (outcome: Outcome, price: real, q: nat)
      requires ValidConfig(config)
      ensures outcome == OutcomeOf(config, p, pos, book.cash, today, slippage) && outcome != ExposureBlocked
      ensures price == FillPrice(today, slippage) && (outcome.Filled? ==> q == FillQuantity(config, p, pos, book.cash, price))
      ensures outcome.Filled? ==>
                q >= 1 && price > 0.0 && book.cash > 0.0 && Gross(q, price, config.buyFee) <= Min(p.decision.budget, book.cash)
    {
      var d := p.decision;
      price, q := FillPrice(today, slippage), 0;
      if today.open > ChasePrice(config, p.day.close) {
        return Chased, price, q;
      }
      if (d.action.AddEntry? || d.action.Rebuy?) && d.trigger.Some? && today.open > d.trigger.value {
        return PriceRecovered, price, q;
      }
      if price > PriceCeiling(config, d.action, p.day.close, d.trigger, pos.avg) {
        return AboveCeiling, price, q;
      }
      var most := if d.action.Rebuy? then Some(pos.tp1Filled) else None;
      var funds := Min(d.budget, book.cash);
      q := OrderQuantity(funds, price, config.buyFee, most);
      if q < 1 {
        return ZeroQuantity, price, q;
      }
      OrderQuantityExact(funds, price, config.buyFee, most);
      var gross := Gross(q, price, config.buyFee);
      if gross > book.cash || gross > d.budget {
        return ExposureBlocked, price, q;
      }
      return Filled, price, q;
    }

    /** A pending order meets the state it was decided in: that is its precondition. */
    method ExecutePending(p: Pending, today: Day, slippage: real) returns (outcome: Outcome)
      requires Valid() && Through(book.trades, today.date) && PendingOk(config, p, pos)
      modifies this`book, this`pos, this`cycleNumber
      ensures Valid() && Through(book.trades, today.date)
      ensures outcome == OutcomeOf(config, p, old(pos), old(book).cash, today, slippage) && outcome != ExposureBlocked
      ensures Now() == Executed(config, old(Now()), p, today, slippage)
      ensures outcome.Filled? <==> pos.quantity > old(pos).quantity
      ensures SamePast(old(book).trades, book.trades, today.date)
      ensures BoughtOn(book.trades, today.date) == BoughtOn(old(book).trades, today.date) + pos.quantity - old(pos).quantity
      ensures CapLaw(config, old(pos), pos)
    {
      var price: real, q: nat;
      outcome, price, q := CheckPending(p, today, slippage);
      if outcome.Filled? {
        Buy(p, today, price, q);
      }
    }

    /** The first leg, once per plan. */
    method SellFirstLeg(today: Day) returns (hit: bool)
      requires Consistent(config, book, pos, cycleNumber) && Through(book.trades, today.date)
      requires pos.quantity > 0
      modifies this`book, this`pos
      ensures CashOk(config, book, pos.flows) && LogOk(book, pos.quantity) && Through(book.trades, today.date)
      ensures pos.quantity > 0 ==> PositionOk(config, pos, cycleNumber)
      ensures SamePast(old(book).trades, book.trades, today.date) && SameBuys(old(book).trades, book.trades)
      ensures pos.cycle == old(pos).cycle && pos.plan == old(pos).plan && pos.cap == old(pos).cap
      ensures pos.holdingDays == old(pos).holdingDays
      ensures hit == Tp1Due(old(pos), today)
      ensures Held(old(pos)) && Now() == FirstLegSold(config, old(Now()), today)
    {
      var plan := pos.plan.value;
      hit := !pos.tp1Done && today.high >= plan.tp1Price;
      if hit {
        var selling := MinInt(plan.tp1Qty, pos.quantity);
        Sell(today.date, plan.tp1Price, selling, Tp1Sell);
        pos := pos.(tp1Filled := selling, tp1Done := true);
        if pos.quantity > 0 {
          pos := pos.(state := PartialTp1, armed := false);
        }
      }
    }

    /** The rest of the holding, and the end of the cycle when nothing is left. */
    method SellSecondLeg(today: Day) returns (hit: bool)
      requires ValidConfig(config) && CashOk(config, book, pos.flows) && LogOk(book, pos.quantity)
      requires Through(book.trades, today.date) && pos.cycle.Some? && pos.plan.Some? && pos.plan.value.tp2Price >= 0.0
      requires pos.quantity > 0 ==> PositionOk(config, pos, cycleNumber)
      modifies this`book, this`pos
      ensures Consistent(config, book, pos, cycleNumber) && Through(book.trades, today.date)
      ensures SamePast(old(book).trades, book.trades, today.date) && SameBuys(old(book).trades, book.trades)
      ensures hit <==> old(pos).quantity > 0 && today.high >= old(pos).plan.value.tp2Price
      ensures Now() == SecondLegSold(config, old(Now()), today)
    {
      hit := pos.quantity > 0 && today.high >= pos.plan.value.tp2Price;
      if hit {
        Sell(today.date, pos.plan.value.tp2Price, pos.quantity, Tp2Sell);
      }
      if pos.quantity == 0 {
        CloseCycle();
      }
    }

    /** The legs of the plan against the session's high: TP1 first, then all of the rest at TP2. */
    method SellLegs(today: Day) returns (hit1: bool, hit2: bool)
      requires Consistent(config, book, pos, cycleNumber) && Through(book.trades, today.date)
      modifies this`book, this`pos
      ensures Consistent(config, book, pos, cycleNumber) && Through(book.trades, today.date)
      ensures SamePast(old(book).trades, book.trades, today.date) && SameBuys(old(book).trades, book.trades)
      ensures hit1 == Tp1Due(old(pos), today) && hit2 == Tp2Due(old(pos), today)
      ensures Now() == LegsSold(config, old(Now()), today)
      ensures pos == FLAT || (pos.cycle == old(pos).cycle && pos.cap == old(pos).cap && pos.holdingDays == old(pos).holdingDays)
      ensures !hit1 && !hit2 ==> Now() == old(Now())
      ensures hit1 && pos.quantity > 0 ==> pos.state.PartialTp1?
    {
      hit1, hit2 := false, false;
      if pos.quantity <= 0 || pos.plan.None? {
        return;
      }
      hit1 := SellFirstLeg(today);
      hit2 := SellSecondLeg(today);
    }

    /** The whole rest at the remainder price, and the end of the cycle. */
    method SellRemainder(today: Day)
      requires Valid() && Through(book.trades, today.date)
      requires config.exitEnabled && pos.cycle.Some? && pos.avg > 0.0
      modifies this`book, this`pos, this`tp1Day
      ensures Valid() && Through(book.trades, today.date) && pos == FLAT
      ensures SamePast(old(book).trades, book.trades, today.date) && SameBuys(old(book).trades, book.trades)
      ensures Now() == RemainderSold(config, old(Now()), today)
    {
      var cycle := pos.cycle.value;
      RaisedMore(pos.avg, 0.0, config.exitTarget);
      Sell(today.date, RemainderPrice(config, pos.avg), pos.quantity, RemainderSell);
      CloseCycle();
      tp1Day := tp1Day - {cycle};
    }

    /** The production engine: the legs, then the remainder exit once its wait is over. */
    method ProcessTakeProfit(today: Day) returns (exited: bool)
      requires Valid() && Through(book.trades, today.date)
      modifies this`book, this`pos, this`tp1Day
      ensures Valid() && Through(book.trades, today.date)
      ensures SamePast(old(book).trades, book.trades, today.date) && SameBuys(old(book).trades, book.trades)
      ensures pos == FLAT || (pos.cycle == old(pos).cycle && pos.cap == old(pos).cap)
      ensures Now() == Processed(config, old(Now()), today)
      ensures exited == ExitDue(config, old(Now()), today)
    {
      exited := false;
      var cycle := pos.cycle;
      var hit1, hit2 := SellLegs(today);
      if cycle.Some? && pos.quantity <= 0 {
        tp1Day := tp1Day - {cycle.value};
        return;
      }
      if hit1 && cycle.Some? {
        tp1Day := tp1Day[cycle.value := pos.holdingDays];
      }
      if !pos.state.PartialTp1? || !pos.tp1Done || pos.cycle.None? || pos.cycle.value !in tp1Day {
        return;
      }
      var elapsed := pos.holdingDays - tp1Day[pos.cycle.value];
      assert elapsed >= 0 && pos.avg > 0.0;
      if !config.exitEnabled || elapsed < config.exitWait {
        return;
      }
      if today.high < RemainderPrice(config, pos.avg) {
        return;
      }
      SellRemainder(today);
      exited := true;
    }

    /** One more day held. */
    method CountDay()
      requires Valid()
      modifies this`pos
      ensures Valid() && Now() == Aged(old(Now()))
      ensures pos == old(pos).(holdingDays := pos.holdingDays)
    {
      if pos.quantity > 0 && pos.startEquity > 0.0 {
        DayCounted(config, pos, cycleNumber, tp1Day);
        pos := pos.(holdingDays := pos.holdingDays + 1);
      }
    }

    /** The start of a session: the pending order, then one more holding day. */
    method OpenSession(today: Day, slippage: real, pending: Option<Pending>)
      requires Valid() && Before(book.trades, today.date)
      requires pending.Some? ==> PendingOk(config, pending.value, pos)
      modifies this`book, this`pos, this`cycleNumber
      ensures Valid() && Through(book.trades, today.date)
      ensures SamePast(old(book).trades, book.trades, today.date)
      ensures pos.quantity == old(pos).quantity + BoughtOn(book.trades, today.date)
      ensures CapLaw(config, old(pos), pos)
      ensures Now() == Opened(config, old(Now()), pending, today, slippage)
    {
      NoBuysBefore(book.trades, today.date);
      if pending.Some? {
        var _ := ExecutePending(pending.value, today, slippage);
      }
      CountDay();
    }

    /** The end of a session: what to try tomorrow. */
    method Decided(today: Day) returns (next: Option<Pending>)
      requires Valid()
      modifies this`pos
      ensures Valid() && pos == old(pos).(armed := pos.armed)
      ensures Now() == Rearmed(old(Now()), today) && next == Tomorrow(config, Now(), today)
      ensures next.Some? ==> PendingOk(config, next.value, pos)
    {
      if pos.state.PartialTp1? && !pos.armed && today.recovered {
        pos := pos.(armed := true);
      }
      var decision := Decide(config, today, View(pos));
      next := if decision.allowed then Some(Pending(today, decision)) else None;
    }

    /** One session of the loop; `held` says whether shares were owned at any moment of it. */
    method RunDay(today: Day, slippage: real, pending: Option<Pending>) returns (next: Option<Pending>, held: bool)
      requires Valid() && Before(book.trades, today.date)
      requires pending.Some? ==> PendingOk(config, pending.value, pos)
      modifies this`book, this`pos, this`cycleNumber, this`tp1Day
      ensures Valid() && Through(book.trades, today.date)
      ensures SamePast(old(book).trades, book.trades, today.date)
      ensures next.Some? ==> PendingOk(config, next.value, pos)
      ensures held <==> old(pos).quantity + BoughtOn(book.trades, today.date) > 0
      ensures CapLaw(config, old(pos), pos)
      ensures (Now(), next) == SessionOf(config, old(Now()), pending, today, slippage)
    {
      OpenSession(today, slippage, pending);
      held := pos.quantity > 0;
      var _ := ProcessTakeProfit(today);
      next := Decided(today);
    }

    /** The session after `past`. */
    method RunNext(past: seq<Day>, today: Day, slippage: real, pending: Option<Pending>, eod: seq<nat>, held: seq<bool>)
      returns (next: Option<Pending>, eod': seq<nat>, held': seq<bool>)
      requires Valid() && AllBefore(past, today.date) && Before(book.trades, today.date)
      requires Sofar(book.trades, pos.quantity, past, eod, held) && OnSessions(book.trades, past)
      requires pending.Some? ==> PendingOk(config, pending.value, pos)
      modifies this`book, this`pos, this`cycleNumber, this`tp1Day
      ensures Valid()
      ensures Sofar(book.trades, pos.quantity, past + [today], eod', held') && OnSessions(book.trades, past + [today])
      ensures next.Some? ==> PendingOk(config, next.value, pos)
      ensures (Now(), next) == SessionOf(config, old(Now()), pending, today, slippage)
    {
      ghost var before := book.trades;
      var h: bool;
      next, h := RunDay(today, slippage, pending);
      eod', held' := eod + [pos.quantity], held + [h];
      SofarGrows(before, book.trades, old(pos).quantity, pos.quantity, past, today, eod, held, h);
      SessionsGrow(before, book.trades, past, today);
    }

    /** Session `i` of the loop. */
    method RunAt(days: seq<Day>, i: nat, slippage: real, pending: Option<Pending>, eod: seq<nat>, held: seq<bool>)
      returns (next: Option<Pending>, eod': seq<nat>, held': seq<bool>)
      requires Valid() && Increasing(days) && i < |days|
      requires Sofar(book.trades, pos.quantity, days[..i], eod, held) && OnSessions(book.trades, days[..i])
      requires pending.Some? ==> PendingOk(config, pending.value, pos)
      requires (Now(), pending) == SessionsOf(config, days[..i], slippage)
      modifies this`book, this`pos, this`cycleNumber, this`tp1Day
      ensures Valid()
      ensures Sofar(book.trades, pos.quantity, days[..i + 1], eod', held') && OnSessions(book.trades, days[..i + 1])
      ensures next.Some? ==> PendingOk(config, next.value, pos)
      ensures (Now(), next) == SessionsOf(config, days[..i + 1], slippage)
    {
      SofarBefore(book.trades, pos.quantity, days, i, eod, held);
      PrefixGrows(days, i);
      SessionsGrowBy(config, days[..i], days[i], slippage);
      next, eod', held' := RunNext(days[..i], days[i], slippage, pending, eod, held);
    }

    /** The whole simulation. */
    method Run(days: seq<Day>, slippage: real) returns (eod: seq<nat>, held: seq<bool>)
      requires Valid() && Now() == Start(config)
      requires Increasing(days)
      modifies this`book, this`pos, this`cycleNumber, this`tp1Day
      ensures Valid()
      ensures Now() == SessionsOf(config, days, slippage).0
      ensures Tracked(book.trades, days, eod, held) && OnSessions(book.trades, days)
      ensures |days| > 0 ==> pos.quantity == eod[|days| - 1] && Through(book.trades, days[|days| - 1].date)
      ensures |days| == 0 ==> book.trades == []
    {
      eod, held := [], [];
      var pending: Option<Pending> := None;
      for i := 0 to |days|
        invariant Valid()
        invariant Sofar(book.trades, pos.quantity, days[..i], eod, held) && OnSessions(book.trades, days[..i])
        invariant pending.Some? ==> PendingOk(config, pending.value, pos)
        invariant (Now(), pending) == SessionsOf(config, days[..i], slippage)
      {
        pending, eod, held := RunAt(days, i, slippage, pending, eod, held);
      }
      PrefixGrows(days, 0);
    }
  }

  /** What the loop knows after the sessions `past`. */
  predicate Sofar(log: seq<Trade>, quantity: nat, past: seq<Day>, eod: seq<nat>, held: seq<bool>)
  {
    && Tracked(log, past, eod, held)
    && (if |past| == 0 then log == [] && quantity == 0
        else Through(log, past[|past| - 1].date) && quantity == eod[|past| - 1])
  }

  lemma SofarGrows(
    before: seq<Trade>, log: seq<Trade>, was: nat, quantity: nat, past: seq<Day>, today: Day,
    eod: seq<nat>, held: seq<bool>, h: bool)
    requires AllBefore(past, today.date) && Sofar(before, was, past, eod, held)
    requires SamePast(before, log, today.date) && Through(log, today.date) && NetQty(log) == quantity
    requires h <==> was + BoughtOn(log, today.date) > 0
    ensures Sofar(log, quantity, past + [today], eod + [quantity], held + [h])
  {
    ThroughMeansAll(log, today.date);
    TrackedGrows(before, log, past, today, eod, held, quantity, h);
  }

  /** Per session: the log's quantity at its end, and whether shares were held at any moment of it. */
  predicate Tracked(log: seq<Trade>, days: seq<Day>, eod: seq<nat>, held: seq<bool>)
  {
    && |eod| == |held| == |days|
    && (forall i :: 0 <= i < |days| ==> eod[i] == NetAsOf(log, days[i].date))
    && (forall i :: 0 <= i < |days| ==>
          (held[i] <==> (if i == 0 then 0 else eod[i - 1]) + BoughtOn(log, days[i].date) > 0))
  }

  /** Every trade is dated on one of the sessions. */
  ghost predicate OnSessions(log: seq<Trade>, days: seq<Day>)
  {
    forall t :: t in log ==> exists i :: 0 <= i < |days| && days[i].date == t.date
  }

  lemma SessionsGrow(log: seq<Trade>, next: seq<Trade>, days: seq<Day>, today: Day)
    requires OnSessions(log, days)
    requires forall t :: t in next ==> t in log || t.date == today.date
    ensures OnSessions(next, days + [today])
  {
    var all := days + [today];
    forall t | t in next ensures exists i :: 0 <= i < |all| && all[i].date == t.date {
      if t in log {
        var i :| 0 <= i < |days| && days[i].date == t.date;
        assert all[i].date == t.date;
      } else {
        assert all[|days|].date == t.date;
      }
    }
  }

  predicate AllBefore(days: seq<Day>, date: int)
  {
    forall i :: 0 <= i < |days| ==> days[i].date < date
  }

  lemma {:induction false} Earlier(days: seq<Day>, i: nat)
    requires Increasing(days) && i < |days|
    ensures AllBefore(days[..i], days[i].date)
    ensures i > 0 ==> days[i - 1].date < days[i].date
  {
    if i > 0 {
      assert LaterThanLast(days, i);
      Earlier(days, i - 1);
    }
  }

  lemma PrefixGrows(days: seq<Day>, i: nat)
    ensures i < |days| ==> days[..i + 1] == days[..i] + [days[i]]
    ensures days[..|days|] == days
  {
  }

  lemma SessionsGrowBy(c: Config, past: seq<Day>, today: Day, slippage: real)
    requires ValidConfig(c)
    ensures
      var before := SessionsOf(c, past, slippage);
      SessionsOf(c, past + [today], slippage) == SessionOf(c, before.0, before.1, today, slippage)
  {
    assert (past + [today])[..|past|] == past;
  }

  lemma SofarBefore(log: seq<Trade>, quantity: nat, days: seq<Day>, i: nat, eod: seq<nat>, held: seq<bool>)
    requires Increasing(days) && i < |days| && Sofar(log, quantity, days[..i], eod, held)
    ensures Before(log, days[i].date) && AllBefore(days[..i], days[i].date)
  {
    Earlier(days, i);
  }

  lemma TrackedGrows(
    log: seq<Trade>, next: seq<Trade>, days: seq<Day>, today: Day, eod: seq<nat>, held: seq<bool>, q: nat, h: bool)
    requires Tracked(log, days, eod, held) && SamePast(log, next, today.date)
    requires AllBefore(days, today.date)
    requires q == NetAsOf(next, today.date)
    requires h <==> (if |days| == 0 then 0 else eod[|days| - 1]) + BoughtOn(next, today.date) > 0
    ensures Tracked(next, days + [today], eod + [q], held + [h])
  {
    var all, e, h' := days + [today], eod + [q], held + [h];
    forall i | 0 <= i < |all|
      ensures e[i] == NetAsOf(next, all[i].date)
      ensures h'[i] <==> (if i == 0 then 0 else e[i - 1]) + BoughtOn(next, all[i].date) > 0
    {
      if i < |days| {
        assert days[i].date < today.date && all[i] == days[i];
      }
    }
  }

  predicate Tp1Due(p: Position, today: Day)
  {
    p.quantity > 0 && p.plan.Some? && !p.tp1Done && today.high >= p.plan.value.tp1Price
  }

  predicate Tp2Due(p: Position, today: Day)
  {
    && p.quantity > 0 && p.plan.Some? && today.high >= p.plan.value.tp2Price
    && (Tp1Due(p, today) ==> p.plan.value.tp2Qty > 0)
  }

  /** The order was decided in the state it will be executed in. */
  predicate PendingOk(c: Config, p: Pending, pos: Position)
  {
    ValidConfig(c) && p.decision.allowed && p.decision == Decide(c, p.day, View(pos))
  }

  predicate LaterThanLast(days: seq<Day>, i: nat)
    requires 0 < i < |days|
  {
    days[i - 1].date < days[i].date
  }

  predicate Increasing(days: seq<Day>)
  {
    forall i :: 0 < i < |days| ==> LaterThanLast(days, i)
  }

  lemma DayCounted(c: Config, p: Position, number: nat, tp1Day: map<nat, int>)
    requires ValidConfig(c) && PositionOk(c, p, number) && CalendarOk(p, tp1Day) && p.quantity > 0
    ensures PositionOk(c, p.(holdingDays := p.holdingDays + 1), number)
    ensures CalendarOk(p.(holdingDays := p.holdingDays + 1), tp1Day)
  {
  }

  /** Within a cycle the cap never falls, given first caps that fit the capital. */
  predicate CapLaw(c: Config, before: Position, after: Position)
  {
    after.cycle.Some? && after.cycle == before.cycle ==>
      && (CapsFit(c) || !c.allowIncrease ==> after.cap >= before.cap)
      && (!c.allowIncrease ==> after.cap == before.cap)
  }

  /** Within a cycle an order leaves the cap alone or raises it. */
  lemma CapKept(c: Config, day: Day, p: Position, d: Decision, number: nat)
    requires ValidConfig(c) && PositionOk(c, p, number)
    requires d == Decide(c, day, View(p)) && d.allowed
    ensures d.action.Rebuy? || (p.quantity > 0 && (CapsFit(c) || !c.allowIncrease) ==> d.cap >= p.cap)
    ensures d.action.Rebuy? || (p.quantity > 0 && !c.allowIncrease ==> d.cap == p.cap)
    ensures d.action.FirstEntry? ==> p == FLAT
  {
    if !d.action.Rebuy? {
      EntryDecision(c, day, p, d, number);
      EntryCapOk(c, day, p, d, number);
    }
  }
}
