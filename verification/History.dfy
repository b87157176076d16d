/** Whole simulations: every trade of the log, through the session it was decided in, and what the position remembers. */
module History {
  import opened Numeric
  import opened Results
  import opened Strategy
  import opened TradeLog
  import opened Backtest
  import opened Decisions

  // ---------------------------------------------------------------- the session function keeps the position in order

  predicate SimOk(c: Config, s: Sim)
  {
    ValidConfig(c) && PositionOk(c, s.pos, s.number) && CalendarOk(s.pos, s.tp1Day)
  }

  predicate PendingFits(c: Config, s: Sim, pending: Option<Pending>)
  {
    pending.Some? ==> PendingOk(c, pending.value, s.pos)
  }

  /** A filled order is within its budget and the cash. */
  lemma FilledIsAffordable(c: Config, s: Sim, p: Pending, today: Day, slippage: real)
    requires ValidConfig(c) && OutcomeOf(c, p, s.pos, s.book.cash, today, slippage).Filled?
    ensures
      var price := FillPrice(today, slippage);
      var q := FillQuantity(c, p, s.pos, s.book.cash, price);
      && q >= 1 && price > 0.0 && s.book.cash > 0.0
      && Gross(q, price, c.buyFee) <= p.decision.budget && Gross(q, price, c.buyFee) <= s.book.cash
  {
    var funds := Min(p.decision.budget, s.book.cash);
    var price := FillPrice(today, slippage);
    FillsExactly(c, p, s.pos, s.book.cash, today, slippage);
    OrderQuantityExact(funds, price, c.buyFee, if p.decision.action.Rebuy? then Some(s.pos.tp1Filled) else None);
  }

  lemma ExecutedOk(c: Config, s: Sim, p: Pending, today: Day, slippage: real)
    requires SimOk(c, s) && PendingOk(c, p, s.pos)
    ensures SimOk(c, Executed(c, s, p, today, slippage))
    ensures OutcomeOf(c, p, s.pos, s.book.cash, today, slippage).Filled? ==>
              var price := FillPrice(today, slippage);
              var q := FillQuantity(c, p, s.pos, s.book.cash, price);
              && CanBuy(s.pos, p.decision, price, q)
              && Executed(c, s, p, today, slippage) == Purchased(c, s, p, today, price, q)
  {
    if OutcomeOf(c, p, s.pos, s.book.cash, today, slippage).Filled? {
      var price := FillPrice(today, slippage);
      FilledIsAffordable(c, s, p, today, slippage);
      PurchasedPosition(c, s, p, today, price, FillQuantity(c, p, s.pos, s.book.cash, price));
    }
  }

  lemma OpenedOk(c: Config, s: Sim, pending: Option<Pending>, today: Day, slippage: real)
    requires SimOk(c, s) && PendingFits(c, s, pending)
    ensures SimOk(c, Opened(c, s, pending, today, slippage))
  {
    if pending.Some? {
      ExecutedOk(c, s, pending.value, today, slippage);
    }
    var t := if pending.Some? then Executed(c, s, pending.value, today, slippage) else s;
    if t.pos.quantity > 0 {
      DayCounted(c, t.pos, t.number, t.tp1Day);
    }
  }

  /** A holding after its first leg, or untouched by it. */
  lemma FirstLegOk(c: Config, s: Sim, today: Day)
    requires SimOk(c, s) && s.pos.quantity > 0
    ensures
      var t := FirstLegSold(c, s, today);
      && t.number == s.number && t.tp1Day == s.tp1Day && t.pos.cycle == s.pos.cycle && t.pos.plan == s.pos.plan
      && t.pos.holdingDays == s.pos.holdingDays && t.pos.entryCount == s.pos.entryCount
      && (t.pos.quantity > 0 ==> PositionOk(c, t.pos, t.number))
      && t.pos.quantity == (if Tp1Due(s.pos, today) then s.pos.plan.value.tp2Qty else s.pos.quantity)
  {
  }

  lemma LegsOkAfter(c: Config, s: Sim, today: Day)
    requires SimOk(c, s)
    ensures
      var t := LegsSold(c, s, today);
      && PositionOk(c, t.pos, t.number) && t.number == s.number && t.tp1Day == s.tp1Day
      && (t.pos == FLAT || (t.pos.cycle == s.pos.cycle && t.pos.holdingDays == s.pos.holdingDays))
      && (t.pos != FLAT && !Tp1Due(s.pos, today) ==> t.pos == s.pos)
      && (t.pos != FLAT && Tp1Due(s.pos, today) ==> t.pos.state.PartialTp1?)
  {
    if s.pos.quantity > 0 {
      FirstLegOk(c, s, today);
    }
  }

  lemma ProcessedOk(c: Config, s: Sim, today: Day)
    requires SimOk(c, s)
    ensures SimOk(c, Processed(c, s, today)) && Processed(c, s, today).number == s.number
  {
    LegsOkAfter(c, s, today);
  }

  lemma RearmedOk(c: Config, t: Sim, today: Day)
    requires SimOk(c, t)
    ensures SimOk(c, Rearmed(t, today)) && PendingFits(c, t, Tomorrow(c, t, today))
  {
  }

  lemma SessionKeepsOk(c: Config, s: Sim, pending: Option<Pending>, today: Day, slippage: real)
    requires SimOk(c, s) && PendingFits(c, s, pending)
    ensures
      var t := SessionOf(c, s, pending, today, slippage);
      SimOk(c, t.0) && PendingFits(c, t.0, t.1)
  {
    var o := Opened(c, s, pending, today, slippage);
    OpenedOk(c, s, pending, today, slippage);
    ProcessedOk(c, o, today);
    var t := Processed(c, o, today);
    RearmedOk(c, t, today);
    RearmedOk(c, Rearmed(t, today), today);
  }

  lemma {:induction false} SessionsKeepOk(c: Config, days: seq<Day>, slippage: real)
    requires ValidConfig(c)
    ensures
      var t := SessionsOf(c, days, slippage);
      SimOk(c, t.0) && PendingFits(c, t.0, t.1)
  {
    if |days| > 0 {
      var before := SessionsOf(c, days[..|days| - 1], slippage);
      SessionsKeepOk(c, days[..|days| - 1], slippage);
      SessionKeepsOk(c, before.0, before.1, days[|days| - 1], slippage);
    }
  }

  // ---------------------------------------------------------------- what one session adds to the log

  /** The pending order's purchase: its whole quantity at the session's open, with slippage. */
  predicate PurchaseOf(c: Config, s: Sim, pending: Option<Pending>, today: Day, slippage: real, t: Trade)
    requires ValidConfig(c)
  {
    && t.buy && pending.Some? && OutcomeOf(c, pending.value, s.pos, s.book.cash, today, slippage).Filled?
    && t.date == today.date && t.purpose == PurposeOf(pending.value.decision.action)
    && t.cycle == (if pending.value.decision.action.FirstEntry? then s.number + 1 else s.number)
    && t.price == FillPrice(today, slippage)
    && t.quantity == FillQuantity(c, pending.value, s.pos, s.book.cash, FillPrice(today, slippage))
  }

  /** A sale out of the holding `o` of the open session. */
  predicate SaleOf(c: Config, o: Sim, today: Day, t: Trade)
  {
    && !t.buy && t.date == today.date && o.pos.quantity > 0 && o.pos.plan.Some? && o.pos.cycle == Some(t.cycle)
    && var plan := o.pos.plan.value;
       match t.purpose
       case Tp1Sell => !o.pos.tp1Done && today.high >= plan.tp1Price && t.price == plan.tp1Price && t.quantity == plan.tp1Qty
       case Tp2Sell =>
         today.high >= plan.tp2Price && t.price == plan.tp2Price
         && t.quantity == (if o.pos.tp1Done || today.high >= plan.tp1Price then plan.tp2Qty else o.pos.quantity)
       case RemainderSell =>
         ExitDue(c, o, today) && t.price == RemainderPrice(c, o.pos.avg) && t.quantity == o.pos.quantity
       case _ => false
  }

  /** Every trade of `next` beyond `log` is a sale of the session. */
  ghost predicate OnlySales(c: Config, o: Sim, today: Day, log: seq<Trade>, next: seq<Trade>)
  {
    && |log| <= |next| && next[..|log|] == log
    && forall k :: |log| <= k < |next| ==> SaleOf(c, o, today, next[k])
  }

  lemma OneMoreSale(c: Config, o: Sim, today: Day, log: seq<Trade>, next: seq<Trade>, t: Trade)
    requires OnlySales(c, o, today, log, next) && SaleOf(c, o, today, t)
    ensures OnlySales(c, o, today, log, next + [t])
  {
    assert (next + [t])[..|log|] == next[..|log|];
  }

  lemma LegsAreSales(c: Config, o: Sim, today: Day)
    requires SimOk(c, o)
    ensures OnlySales(c, o, today, o.book.trades, LegsSold(c, o, today).book.trades)
  {
    if Held(o.pos) {
      var plan, log := o.pos.plan.value, o.book.trades;
      var t := FirstLegSold(c, o, today);
      FirstLegOk(c, o, today);
      if Tp1Due(o.pos, today) {
        OneMoreSale(c, o, today, log, log, Trade(today.date, o.pos.cycle.value, false, Tp1Sell, plan.tp1Price, plan.tp1Qty));
      }
      assert OnlySales(c, o, today, log, t.book.trades);
      if t.pos.quantity > 0 && today.high >= plan.tp2Price {
        SecondLegIsASale(c, o, t, today);
      }
    }
  }

  lemma SecondLegIsASale(c: Config, o: Sim, t: Sim, today: Day)
    requires SimOk(c, o) && Held(o.pos) && t == FirstLegSold(c, o, today) && t.pos.quantity > 0
    requires today.high >= o.pos.plan.value.tp2Price
    requires OnlySales(c, o, today, o.book.trades, t.book.trades)
    ensures t.pos.cycle.Some? && t.pos.plan.Some?
    ensures OnlySales(c, o, today, o.book.trades, SecondLegSold(c, t, today).book.trades)
  {
    var plan := o.pos.plan.value;
    FirstLegOk(c, o, today);
    OneMoreSale(c, o, today, o.book.trades, t.book.trades,
                Trade(today.date, o.pos.cycle.value, false, Tp2Sell, plan.tp2Price, t.pos.quantity));
  }

  lemma ProcessedAddsSales(c: Config, o: Sim, today: Day)
    requires SimOk(c, o)
    ensures OnlySales(c, o, today, o.book.trades, Processed(c, o, today).book.trades)
  {
    LegsAreSales(c, o, today);
    LegsOkAfter(c, o, today);
    var t := LegsSold(c, o, today);
    if o.pos.cycle.Some? && t.pos.quantity > 0 && !Tp1Due(o.pos, today) && ExitDue(c, o, today) {
      assert OnlySales(c, o, today, o.book.trades, o.book.trades);
      OneMoreSale(c, o, today, o.book.trades, o.book.trades,
                  Trade(today.date, o.pos.cycle.value, false, RemainderSell, RemainderPrice(c, o.pos.avg), o.pos.quantity));
    }
  }

  /** The trades a session of the loop adds. */
  predicate TradeOf(c: Config, s: Sim, pending: Option<Pending>, today: Day, slippage: real, t: Trade)
    requires ValidConfig(c)
  {
    PurchaseOf(c, s, pending, today, slippage, t) || SaleOf(c, Opened(c, s, pending, today, slippage), today, t)
  }

  lemma SessionAddsTrades(c: Config, s: Sim, pending: Option<Pending>, today: Day, slippage: real)
    requires SimOk(c, s) && PendingFits(c, s, pending)
    ensures
      var next := SessionOf(c, s, pending, today, slippage).0.book.trades;
      && |s.book.trades| <= |next| && next[..|s.book.trades|] == s.book.trades
      && forall k :: |s.book.trades| <= k < |next| ==> TradeOf(c, s, pending, today, slippage, next[k])
  {
    var o := Opened(c, s, pending, today, slippage);
    OpenedOk(c, s, pending, today, slippage);
    ProcessedAddsSales(c, o, today);
    if pending.Some? {
      ExecutedOk(c, s, pending.value, today, slippage);
    }
    assert |s.book.trades| <= |o.book.trades| <= |s.book.trades| + 1 && o.book.trades[..|s.book.trades|] == s.book.trades;
    assert |o.book.trades| > |s.book.trades| ==> PurchaseOf(c, s, pending, today, slippage, o.book.trades[|s.book.trades|]);
    var next := SessionOf(c, s, pending, today, slippage).0.book.trades;
    assert next == Processed(c, o, today).book.trades;
    assert next[..|o.book.trades|] == o.book.trades;
    forall k | |s.book.trades| <= k < |next| ensures TradeOf(c, s, pending, today, slippage, next[k]) {
      if k < |o.book.trades| {
        assert next[k] == o.book.trades[k];
      }
    }
  }

  // ---------------------------------------------------------------- every trade has its session

  /** Trade `t` is one that session `i` added. */
  predicate TradeAt(c: Config, days: seq<Day>, slippage: real, i: nat, t: Trade)
    requires ValidConfig(c) && i < |days|
  {
    var before := SessionsOf(c, days[..i], slippage);
    TradeOf(c, before.0, before.1, days[i], slippage, t)
  }

  lemma {:induction false} EveryTradeHasItsSession(c: Config, days: seq<Day>, slippage: real)
    requires ValidConfig(c)
    ensures forall t :: t in SessionsOf(c, days, slippage).0.book.trades ==>
              exists i :: 0 <= i < |days| && TradeAt(c, days, slippage, i, t)
  {
    if |days| > 0 {
      var n := |days| - 1;
      var before := SessionsOf(c, days[..n], slippage);
      EveryTradeHasItsSession(c, days[..n], slippage);
      SessionsKeepOk(c, days[..n], slippage);
      SessionAddsTrades(c, before.0, before.1, days[n], slippage);
      var log := SessionsOf(c, days, slippage).0.book.trades;
      forall t | t in log ensures exists i :: 0 <= i < |days| && TradeAt(c, days, slippage, i, t) {
        var k :| 0 <= k < |log| && log[k] == t;
        if k < |before.0.book.trades| {
          assert log[k] == before.0.book.trades[k];
          assert t in before.0.book.trades;
          var i :| 0 <= i < n && TradeAt(c, days[..n], slippage, i, t);
          assert days[..n][..i] == days[..i];
          assert TradeAt(c, days, slippage, i, t);
        } else {
          assert TradeAt(c, days, slippage, n, t);
        }
      }
    }
  }

  /** The rule that asked for a purchase, read at the close of the session before it. */
  predicate Wanted(c: Config, d: Day, pos: Position, t: Trade)
    requires ValidConfig(c)
  {
    match t.purpose
    case FirstBuy => pos == FLAT && EntryWanted(c, d)
    case AddBuy =>
      exists stage: nat :: 2 <= stage <= |c.weights| &&
        NextStage(c, View(pos), stage) && AddWanted(c, d, View(pos), stage)
        && t.price <= TriggerAt(pos.anchor, c.drops[stage - 2]) + 0.00005
        && Gross(t.quantity, t.price, c.buyFee) <= StageBudget(c, UpdateCap(c, pos.cap, d.score), stage, pos.staged)
    case RebuyBuy =>
      && pos.state.PartialTp1? && RebuyWanted(c, d, View(pos)) && t.price <= TriggerAt(pos.avg, c.rebuyDrop)
      && t.quantity <= pos.tp1Filled
      && Gross(t.quantity, t.price, c.buyFee) <= Min(pos.cap - pos.cost, CostOfShares(pos.tp1Filled, d.close, c.buyFee)) + 0.005
    case _ => false
  }

  /** The purchase of session `i` was decided at the close of session `i - 1`, and its price had not run away. */
  predicate BoughtAt(c: Config, days: seq<Day>, slippage: real, i: nat, t: Trade)
    requires ValidConfig(c) && 0 < i < |days|
  {
    var d := days[i - 1];
    && t.date == days[i].date && t.price == FillPrice(days[i], slippage) && t.quantity >= 1
    && days[i].open <= ChasePrice(c, d.close) && t.price <= ChasePrice(c, d.close)
    && Wanted(c, d, SessionsOf(c, days[..i], slippage).0.pos, t)
  }

  lemma PurchaseIsWanted(c: Config, s: Sim, p: Pending, today: Day, slippage: real, t: Trade)
    requires SimOk(c, s) && PendingOk(c, p, s.pos) && PurchaseOf(c, s, Some(p), today, slippage, t)
    ensures Wanted(c, p.day, s.pos, t)
    ensures t.quantity >= 1 && today.open <= ChasePrice(c, p.day.close) && t.price <= ChasePrice(c, p.day.close)
  {
    var v := View(s.pos);
    FillsExactly(c, p, s.pos, s.book.cash, today, slippage);
    FilledIsAffordable(c, s, p, today, slippage);
    AllowedExactly(c, p.day, v);
    if v.state.Empty? {
      EntryExactly(c, p.day, v);
    } else if v.state.PartialTp1? {
      RebuyExactly(c, p.day, v);
      RebuyQuantity(c, s, p, today, slippage);
    } else {
      var stage :| NextStage(c, v, stage) && AddWanted(c, p.day, v, stage);
      AddExactly(c, p.day, v, stage);
    }
  }

  lemma RebuyQuantity(c: Config, s: Sim, p: Pending, today: Day, slippage: real)
    requires ValidConfig(c) && p.decision.action.Rebuy?
    ensures FillQuantity(c, p, s.pos, s.book.cash, FillPrice(today, slippage)) <= s.pos.tp1Filled
  {
  }

  /** Over every price path, every purchase in the log was asked for by its state's rule at the close before it: first
      entries by the score, added ones below the drop from the anchor, rebuys below the drop from the average. */
  lemma EveryPurchaseWasWanted(c: Config, days: seq<Day>, slippage: real, t: Trade)
    requires ValidConfig(c) && t in SessionsOf(c, days, slippage).0.book.trades && t.buy
    ensures exists i :: 0 < i < |days| && BoughtAt(c, days, slippage, i, t)
  {
    EveryTradeHasItsSession(c, days, slippage);
    var i :| 0 <= i < |days| && TradeAt(c, days, slippage, i, t);
    var before := SessionsOf(c, days[..i], slippage);
    SessionsKeepOk(c, days[..i], slippage);
    assert PurchaseOf(c, before.0, before.1, days[i], slippage, t);
    assert i > 0;
    PurchaseIsWanted(c, before.0, before.1.value, days[i], slippage, t);
    YesterdayDecided(c, days, slippage, i);
    assert BoughtAt(c, days, slippage, i, t);
  }

  /** After a session an order is pending exactly when the rule of the state it ended in asks for one at its close. */
  lemma PendingExactly(c: Config, days: seq<Day>, slippage: real)
    requires ValidConfig(c) && |days| > 0
    ensures
      var t, d := SessionsOf(c, days, slippage), days[|days| - 1];
      var v := View(t.0.pos);
      t.1.Some? <==>
        || (v.state.Empty? && EntryWanted(c, d))
        || (exists stage :: NextStage(c, v, stage) && AddWanted(c, d, v, stage))
        || (v.state.PartialTp1? && RebuyWanted(c, d, v))
  {
    AllowedExactly(c, days[|days| - 1], View(SessionsOf(c, days, slippage).0.pos));
    PendingIsTomorrow(c, days, slippage);
  }

  lemma PendingIsTomorrow(c: Config, days: seq<Day>, slippage: real)
    requires ValidConfig(c) && |days| > 0
    ensures SessionsOf(c, days, slippage).1 == Tomorrow(c, SessionsOf(c, days, slippage).0, days[|days| - 1])
  {
  }

  lemma YesterdayDecided(c: Config, days: seq<Day>, slippage: real, i: nat)
    requires ValidConfig(c) && 0 < i < |days|
    ensures
      var before := SessionsOf(c, days[..i], slippage);
      before.1.Some? ==> before.1.value.day == days[i - 1]
  {
    assert days[..i][..i - 1] == days[..i - 1] && days[..i][i - 1] == days[i - 1];
  }

  // ---------------------------------------------------------------- and every session its trades

  lemma {:induction false} LogOnlyGrows(c: Config, days: seq<Day>, slippage: real, i: nat)
    requires ValidConfig(c) && i <= |days|
    ensures
      var log, all := SessionsOf(c, days[..i], slippage).0.book.trades, SessionsOf(c, days, slippage).0.book.trades;
      |log| <= |all| && all[..|log|] == log
    decreases |days|
  {
    if i < |days| {
      var head := days[..|days| - 1];
      var before := SessionsOf(c, head, slippage);
      LogOnlyGrows(c, head, slippage, i);
      assert head[..i] == days[..i];
      SessionsKeepOk(c, head, slippage);
      SessionAddsTrades(c, before.0, before.1, days[|days| - 1], slippage);
      var log, all := SessionsOf(c, days[..i], slippage).0.book.trades, SessionsOf(c, days, slippage).0.book.trades;
      assert all[..|log|] == before.0.book.trades[..|log|];
    } else {
      assert days[..i] == days;
    }
  }

  /** The trade that fills the pending order. */
  function PurchaseTrade(c: Config, s: Sim, p: Pending, today: Day, slippage: real): Trade
    requires ValidConfig(c)
  {
    Trade(today.date, if p.decision.action.FirstEntry? then s.number + 1 else s.number, true, PurposeOf(p.decision.action),
          FillPrice(today, slippage), FillQuantity(c, p, s.pos, s.book.cash, FillPrice(today, slippage)))
  }

  /** The sales a session's high brings, given the holding of the open session. */
  predicate SalesMade(c: Config, o: Sim, today: Day, log: seq<Trade>)
  {
    o.pos.quantity > 0 && o.pos.plan.Some? && o.pos.cycle.Some? ==>
      var cycle, plan := o.pos.cycle.value, o.pos.plan.value;
      && (!o.pos.tp1Done && today.high >= plan.tp1Price ==>
            Trade(today.date, cycle, false, Tp1Sell, plan.tp1Price, plan.tp1Qty) in log)
      && (today.high >= plan.tp2Price && (o.pos.tp1Done || today.high >= plan.tp1Price) && plan.tp2Qty > 0 ==>
            Trade(today.date, cycle, false, Tp2Sell, plan.tp2Price, plan.tp2Qty) in log)
      && (today.high >= plan.tp2Price && !o.pos.tp1Done && today.high < plan.tp1Price ==>
            Trade(today.date, cycle, false, Tp2Sell, plan.tp2Price, o.pos.quantity) in log)
      && (ExitDue(c, o, today) && o.pos.tp1Done ==>
            Trade(today.date, cycle, false, RemainderSell, RemainderPrice(c, o.pos.avg), o.pos.quantity) in log)
  }

  lemma LegsMade(c: Config, o: Sim, today: Day)
    requires SimOk(c, o) && o.pos.quantity > 0
    ensures
      var cycle, plan, log := o.pos.cycle.value, o.pos.plan.value, LegsSold(c, o, today).book.trades;
      && (!o.pos.tp1Done && today.high >= plan.tp1Price ==>
            Trade(today.date, cycle, false, Tp1Sell, plan.tp1Price, plan.tp1Qty) in log)
      && (today.high >= plan.tp2Price && (o.pos.tp1Done || today.high >= plan.tp1Price) && plan.tp2Qty > 0 ==>
            Trade(today.date, cycle, false, Tp2Sell, plan.tp2Price, plan.tp2Qty) in log)
      && (today.high >= plan.tp2Price && !o.pos.tp1Done && today.high < plan.tp1Price ==>
            Trade(today.date, cycle, false, Tp2Sell, plan.tp2Price, o.pos.quantity) in log)
  {
    FirstLegOk(c, o, today);
  }

  lemma ProcessedMakesSales(c: Config, o: Sim, today: Day)
    requires SimOk(c, o)
    ensures SalesMade(c, o, today, Processed(c, o, today).book.trades)
  {
    if o.pos.quantity > 0 {
      LegsMade(c, o, today);
      LegsOkAfter(c, o, today);
      if ExitDue(c, o, today) {
        ExitLeavesLegs(c, o, today);
      }
    }
  }

  /** When the remainder exit is due no leg was sold. */
  lemma ExitLeavesLegs(c: Config, o: Sim, today: Day)
    requires SimOk(c, o) && ExitDue(c, o, today)
    ensures LegsSold(c, o, today) == o
  {
  }

  /** Each session's pending order that meets its terms, and each leg its high reaches, is in the log of the run. */
  lemma EverySessionIsLogged(c: Config, days: seq<Day>, slippage: real, i: nat)
    requires ValidConfig(c) && i < |days|
    ensures
      var before, log := SessionsOf(c, days[..i], slippage), SessionsOf(c, days, slippage).0.book.trades;
      && SalesMade(c, Opened(c, before.0, before.1, days[i], slippage), days[i], log)
      && (before.1.Some? && OutcomeOf(c, before.1.value, before.0.pos, before.0.book.cash, days[i], slippage).Filled? ==>
            PurchaseTrade(c, before.0, before.1.value, days[i], slippage) in log)
  {
    var before := SessionsOf(c, days[..i], slippage);
    var upTo := days[..i + 1];
    assert upTo[..i] == days[..i] && upTo[i] == days[i];
    SessionsKeepOk(c, days[..i], slippage);
    SessionMakesTrades(c, before.0, before.1, days[i], slippage);
    LogOnlyGrows(c, days, slippage, i + 1);
    var part, all := SessionsOf(c, upTo, slippage).0.book.trades, SessionsOf(c, days, slippage).0.book.trades;
    assert forall t :: t in part ==> t in all by {
      forall t | t in part ensures t in all {
        assert t in all[..|part|];
      }
    }
  }

  lemma SessionMakesTrades(c: Config, s: Sim, pending: Option<Pending>, today: Day, slippage: real)
    requires SimOk(c, s) && PendingFits(c, s, pending)
    ensures
      var log := SessionOf(c, s, pending, today, slippage).0.book.trades;
      && SalesMade(c, Opened(c, s, pending, today, slippage), today, log)
      && (pending.Some? && OutcomeOf(c, pending.value, s.pos, s.book.cash, today, slippage).Filled? ==>
            PurchaseTrade(c, s, pending.value, today, slippage) in log)
  {
    var o := Opened(c, s, pending, today, slippage);
    OpenedOk(c, s, pending, today, slippage);
    ProcessedMakesSales(c, o, today);
    ProcessedAddsSales(c, o, today);
    var log := SessionOf(c, s, pending, today, slippage).0.book.trades;
    assert log == Processed(c, o, today).book.trades;
    if pending.Some? && OutcomeOf(c, pending.value, s.pos, s.book.cash, today, slippage).Filled? {
      ExecutedOk(c, s, pending.value, today, slippage);
      assert log[|s.book.trades|] == o.book.trades[|s.book.trades|] == PurchaseTrade(c, s, pending.value, today, slippage);
    }
  }
}
