/** What the closed and the open cycle of a simulation are booked with, against the trades of the log. */
module CycleAccounts {
  import opened Numeric
  import opened Results
  import opened Sums
  import opened Strategy
  import opened TradeLog
  import opened Backtest
  import opened Decisions
  import opened History
  import opened CycleMemory

  /** Cash the trades of one cycle brought. */
  function FlowOf(c: Config, cycle: nat): Trade -> real
  {
    (t: Trade) => if t.cycle == cycle then CashOf(c.buyFee, c.sellFee, t) else 0.0
  }

  /** A cycle's result and entries are those of its own trades. */
  predicate Booked(c: Config, log: seq<Trade>, cycle: nat, flows: real, entries: nat)
  {
    flows == SumBy(log, FlowOf(c, cycle)) && entries == CountBy(log, Entries(cycle))
  }

  /** The books before the current cycle, if one is open: every closed cycle is past, and booked as its trades say. */
  predicate ClosedOk(c: Config, s: Sim)
  {
    forall i :: 0 <= i < |s.book.closed| ==>
      && s.book.closed[i].cycle <= s.number && (s.pos.cycle.Some? ==> s.book.closed[i].cycle < s.number)
      && Booked(c, s.book.trades, s.book.closed[i].cycle, s.book.closed[i].pnl, s.book.closed[i].entryCount)
  }

  predicate OpenOk(c: Config, s: Sim)
  {
    if s.pos.cycle.None? then s.pos == FLAT
    else s.pos.cycle == Some(s.number) && Booked(c, s.book.trades, s.number, s.pos.flows, s.pos.entryCount)
  }

  predicate AccountsOk(c: Config, s: Sim)
  {
    && NoneLater(s.book.trades, s.number) && OpenOk(c, s) && ClosedOk(c, s)
    && s.book.cash == c.capital + LogCash(c.buyFee, c.sellFee, s.book.trades)
  }

  // ---------------------------------------------------------------- one trade

  lemma TradeBooks(c: Config, log: seq<Trade>, t: Trade, cycle: nat)
    ensures SumBy(log + [t], FlowOf(c, cycle)) == SumBy(log, FlowOf(c, cycle)) + FlowOf(c, cycle)(t)
    ensures CountBy(log + [t], Entries(cycle)) == CountBy(log, Entries(cycle)) + Entries(cycle)(t)
    ensures LogCash(c.buyFee, c.sellFee, log + [t]) == LogCash(c.buyFee, c.sellFee, log) + CashOf(c.buyFee, c.sellFee, t)
  {
    SumAppend(log, t, FlowOf(c, cycle));
    CountAppend(log, t, Entries(cycle));
    SumAppend(log, t, Cash(c.buyFee, c.sellFee));
  }

  /** A trade of a later cycle leaves the closed ones as they were booked. */
  lemma ClosedStay(c: Config, s: Sim, t: Sim, trade: Trade)
    requires ClosedOk(c, s) && t.book.closed == s.book.closed && t.book.trades == s.book.trades + [trade]
    requires s.number <= t.number == trade.cycle && (s.pos.cycle.Some? || s.number < t.number)
    ensures ClosedOk(c, t)
  {
    forall i | 0 <= i < |t.book.closed|
      ensures Booked(c, t.book.trades, t.book.closed[i].cycle, t.book.closed[i].pnl, t.book.closed[i].entryCount)
      ensures t.book.closed[i].cycle < t.number
    {
      TradeBooks(c, s.book.trades, trade, s.book.closed[i].cycle);
    }
  }

  lemma NetIsCash(c: Config, t: Trade)
    ensures CashOf(c.buyFee, c.sellFee, t) ==
            if t.buy then -Gross(t.quantity, t.price, c.buyFee) else NetProceeds(c, t.price, t.quantity)
  {
  }

  /** The open cycle after one of its trades. */
  lemma TradeOfTheCycle(c: Config, s: Sim, t: Sim, trade: Trade, flow: real)
    requires t.number == trade.cycle && t.book.trades == s.book.trades + [trade] && t.pos.cycle == Some(t.number)
    requires flow == CashOf(c.buyFee, c.sellFee, trade)
    requires t.pos.flows == SumBy(s.book.trades, FlowOf(c, t.number)) + flow
    requires t.pos.entryCount == CountBy(s.book.trades, Entries(t.number)) + (if IsEntry(trade, t.number) then 1 else 0)
    ensures OpenOk(c, t)
    ensures LogCash(c.buyFee, c.sellFee, t.book.trades) == LogCash(c.buyFee, c.sellFee, s.book.trades) + flow
  {
    TradeBooks(c, s.book.trades, trade, t.number);
  }

  lemma SoldAccounts(c: Config, s: Sim, date: int, price: real, q: nat, purpose: Purpose)
    requires AccountsOk(c, s) && s.pos.cycle.Some? && q <= s.pos.quantity
    ensures AccountsOk(c, Sold(c, s, date, price, q, purpose))
  {
    var t := Sold(c, s, date, price, q, purpose);
    var trade := Trade(date, s.number, false, purpose, price, q);
    NetIsCash(c, trade);
    TradeOfTheCycle(c, s, t, trade, NetProceeds(c, price, q));
    ClosedStay(c, s, t, trade);
  }

  lemma FinishedAccounts(c: Config, s: Sim)
    requires AccountsOk(c, s) && s.pos.cycle.Some?
    ensures AccountsOk(c, Finished(s))
  {
    var t := Finished(s);
    forall i | 0 <= i < |t.book.closed|
      ensures Booked(c, t.book.trades, t.book.closed[i].cycle, t.book.closed[i].pnl, t.book.closed[i].entryCount)
      ensures t.book.closed[i].cycle <= t.number
    {
      if i < |s.book.closed| {
        assert t.book.closed[i] == s.book.closed[i];
      }
    }
  }

  /** Changes of the position that touch neither its cycle nor its figures. */
  lemma SameFigures(c: Config, s: Sim, t: Sim)
    requires AccountsOk(c, s) && t.book == s.book && t.number == s.number
    requires t.pos.cycle == s.pos.cycle && t.pos.flows == s.pos.flows && t.pos.entryCount == s.pos.entryCount
    requires s.pos.cycle.None? ==> t.pos == s.pos
    ensures AccountsOk(c, t)
  {
  }

  /** What the open cycle was booked with before a purchase, and what the purchase adds. */
  lemma PurchaseAdds(c: Config, s: Sim, p: Pending, today: Day, price: real, q: nat)
    requires AccountsOk(c, s) && SimOk(c, s) && PendingOk(c, p, s.pos) && CanBuy(s.pos, p.decision, price, q)
    ensures
      var t := Purchased(c, s, p, today, price, q);
      && t.pos.cycle == Some(t.number) && s.number <= t.number && (s.pos.cycle.Some? || s.number < t.number)
      && t.pos.flows == SumBy(s.book.trades, FlowOf(c, t.number)) - Gross(q, price, c.buyFee)
      && t.pos.entryCount == CountBy(s.book.trades, Entries(t.number)) + (if p.decision.action.Rebuy? then 0 else 1)
  {
    if p.decision.action.FirstEntry? {
      EntryDecision(c, p.day, s.pos, p.decision, s.number);
      CountNone(s.book.trades, Entries(s.number + 1));
      SumZero(s.book.trades, FlowOf(c, s.number + 1));
    } else if p.decision.action.AddEntry? {
      EntryDecision(c, p.day, s.pos, p.decision, s.number);
    } else {
      OnlyHoldingsRebuy(c, p.day, s.pos, s.number);
    }
  }

  lemma ActionIsKnown(c: Config, d: Day, p: Position, number: nat)
    requires ValidConfig(c) && PositionOk(c, p, number) && Decide(c, d, View(p)).allowed
    ensures !Decide(c, d, View(p)).action.NoAction?
  {
    if !Decide(c, d, View(p)).action.Rebuy? {
      EntryDecision(c, d, p, Decide(c, d, View(p)), number);
    }
  }

  lemma PurchasedAccounts(c: Config, s: Sim, p: Pending, today: Day, price: real, q: nat)
    requires AccountsOk(c, s) && SimOk(c, s) && PendingOk(c, p, s.pos) && CanBuy(s.pos, p.decision, price, q)
    ensures AccountsOk(c, Purchased(c, s, p, today, price, q))
  {
    var t := Purchased(c, s, p, today, price, q);
    var trade := Trade(today.date, t.number, true, PurposeOf(p.decision.action), price, q);
    PurchaseAdds(c, s, p, today, price, q);
    ActionIsKnown(c, p.day, s.pos, s.number);
    NetIsCash(c, trade);
    TradeOfTheCycle(c, s, t, trade, -Gross(q, price, c.buyFee));
    ClosedStay(c, s, t, trade);
  }

  // ---------------------------------------------------------------- one session

  lemma OpenedAccounts(c: Config, s: Sim, pending: Option<Pending>, today: Day, slippage: real)
    requires AccountsOk(c, s) && SimOk(c, s) && PendingFits(c, s, pending)
    ensures AccountsOk(c, Opened(c, s, pending, today, slippage))
  {
    var t := if pending.Some? then Executed(c, s, pending.value, today, slippage) else s;
    if pending.Some? {
      var p := pending.value;
      ExecutedOk(c, s, p, today, slippage);
      if OutcomeOf(c, p, s.pos, s.book.cash, today, slippage).Filled? {
        var price := FillPrice(today, slippage);
        PurchasedAccounts(c, s, p, today, price, FillQuantity(c, p, s.pos, s.book.cash, price));
      }
    }
    assert AccountsOk(c, t);
    SameFigures(c, t, Aged(t));
  }

  lemma FirstLegAccounts(c: Config, o: Sim, today: Day)
    requires AccountsOk(c, o) && Held(o.pos)
    ensures AccountsOk(c, FirstLegSold(c, o, today)) && FirstLegSold(c, o, today).pos.cycle.Some?
  {
    if Tp1Due(o.pos, today) {
      var plan := o.pos.plan.value;
      var q := MinInt(plan.tp1Qty, o.pos.quantity);
      SoldAccounts(c, o, today.date, plan.tp1Price, q, Tp1Sell);
      SameFigures(c, Sold(c, o, today.date, plan.tp1Price, q, Tp1Sell), FirstLegSold(c, o, today));
    }
  }

  lemma SecondLegAccounts(c: Config, s: Sim, today: Day)
    requires AccountsOk(c, s) && s.pos.cycle.Some? && s.pos.plan.Some?
    ensures AccountsOk(c, SecondLegSold(c, s, today))
  {
    var plan := s.pos.plan.value;
    if s.pos.quantity > 0 && today.high >= plan.tp2Price {
      SoldAccounts(c, s, today.date, plan.tp2Price, s.pos.quantity, Tp2Sell);
      FinishedAccounts(c, Sold(c, s, today.date, plan.tp2Price, s.pos.quantity, Tp2Sell));
    } else if s.pos.quantity == 0 {
      FinishedAccounts(c, s);
    }
  }

  lemma LegsAccounts(c: Config, o: Sim, today: Day)
    requires AccountsOk(c, o) && SimOk(c, o)
    ensures AccountsOk(c, LegsSold(c, o, today))
  {
    if Held(o.pos) {
      FirstLegOk(c, o, today);
      FirstLegAccounts(c, o, today);
      SecondLegAccounts(c, FirstLegSold(c, o, today), today);
    }
  }

  lemma RemainderAccounts(c: Config, o: Sim, today: Day)
    requires AccountsOk(c, o) && o.pos.cycle.Some?
    ensures AccountsOk(c, RemainderSold(c, o, today))
  {
    var t := Sold(c, o, today.date, RemainderPrice(c, o.pos.avg), o.pos.quantity, RemainderSell);
    SoldAccounts(c, o, today.date, RemainderPrice(c, o.pos.avg), o.pos.quantity, RemainderSell);
    FinishedAccounts(c, t);
    SameFigures(c, Finished(t), RemainderSold(c, o, today));
  }

  lemma ProcessedAccounts(c: Config, o: Sim, today: Day)
    requires AccountsOk(c, o) && SimOk(c, o)
    ensures AccountsOk(c, Processed(c, o, today))
  {
    var t := LegsSold(c, o, today);
    LegsAccounts(c, o, today);
    if o.pos.cycle.Some? && t.pos.quantity > 0 && !Tp1Due(o.pos, today) && ExitDue(c, o, today) {
      RemainderAccounts(c, o, today);
    } else {
      SameFigures(c, t, Processed(c, o, today));
    }
  }

  lemma SessionAccounts(c: Config, s: Sim, pending: Option<Pending>, today: Day, slippage: real)
    requires AccountsOk(c, s) && SimOk(c, s) && PendingFits(c, s, pending)
    ensures AccountsOk(c, SessionOf(c, s, pending, today, slippage).0)
  {
    var o := Opened(c, s, pending, today, slippage);
    OpenedOk(c, s, pending, today, slippage);
    OpenedAccounts(c, s, pending, today, slippage);
    ProcessedAccounts(c, o, today);
    SameFigures(c, Processed(c, o, today), Rearmed(Processed(c, o, today), today));
  }

  /** On every price path: each closed cycle's result is the cash of its own trades and its entries are theirs; so are
      the open cycle's; and the account's cash is the capital with everything the log moved. */
  lemma {:induction false} CyclesAreBookedAsTraded(c: Config, days: seq<Day>, slippage: real)
    requires ValidConfig(c)
    ensures AccountsOk(c, SessionsOf(c, days, slippage).0)
  {
    if |days| > 0 {
      var head := days[..|days| - 1];
      var before := SessionsOf(c, head, slippage);
      CyclesAreBookedAsTraded(c, head, slippage);
      SessionsKeepOk(c, head, slippage);
      SessionAccounts(c, before.0, before.1, days[|days| - 1], slippage);
    }
  }

  // ---------------------------------------------------------------- how long a closed cycle was held

  /** The cycle was bought first on session `e`, last sold on session `i`, and held through both. */
  predicate HeldFromTo(days: seq<Day>, log: seq<Trade>, r: ClosedCycle, e: nat, i: nat)
    requires e <= i < |days|
  {
    && r.holdingDays == i - e + 1 && HasTrade(log, FirstBuy, r.cycle, days[e].date)
    && exists k :: 0 <= k < |log| && !log[k].buy && log[k].cycle == r.cycle && log[k].date == days[i].date
  }

  ghost predicate Timed(days: seq<Day>, log: seq<Trade>, r: ClosedCycle)
  {
    exists e, i :: 0 <= e <= i < |days| && HeldFromTo(days, log, r, e, i)
  }

  ghost predicate Durations(days: seq<Day>, log: seq<Trade>, closed: seq<ClosedCycle>)
  {
    forall k :: 0 <= k < |closed| ==> Timed(days, log, closed[k])
  }

  lemma StaysTimed(days: seq<Day>, all: seq<Day>, log: seq<Trade>, next: seq<Trade>, r: ClosedCycle)
    requires Timed(days, log, r)
    requires |days| <= |all| && all[..|days|] == days && |log| <= |next| && next[..|log|] == log
    ensures Timed(all, next, r)
  {
    var e, i :| 0 <= e <= i < |days| && HeldFromTo(days, log, r, e, i);
    assert all[e] == days[e] && all[i] == days[i];
    TradeStays(log, next, FirstBuy, r.cycle, days[e].date);
    var j :| 0 <= j < |log| && !log[j].buy && log[j].cycle == r.cycle && log[j].date == days[i].date;
    assert next[j] == log[j];
    assert HeldFromTo(all, next, r, e, i);
  }

  /** Take profit closes at most the open cycle, with the days it was held, and only by a sale of the session. */
  lemma ClosesTheHolding(c: Config, o: Sim, today: Day)
    requires SimOk(c, o)
    ensures
      var t := Processed(c, o, today);
      t.book.closed == o.book.closed ||
      (&& o.pos.quantity > 0 && |t.book.closed| == |o.book.closed| + 1 && t.book.closed[..|o.book.closed|] == o.book.closed
       && t.book.closed[|o.book.closed|].cycle == o.number
       && t.book.closed[|o.book.closed|].holdingDays == o.pos.holdingDays && |t.book.trades| > |o.book.trades|)
  {
    LegsClose(c, o, today);
    LegsOkAfter(c, o, today);
    var t := LegsSold(c, o, today);
    if o.pos.cycle.Some? && t.pos.quantity > 0 && !Tp1Due(o.pos, today) && ExitDue(c, o, today) {
      ExitLeavesLegs(c, o, today);
    }
  }

  lemma LegsClose(c: Config, o: Sim, today: Day)
    requires SimOk(c, o)
    ensures
      var t := LegsSold(c, o, today);
      && (o.pos.cycle.None? ==> t == o)
      && if t.pos.quantity > 0 || o.pos.quantity == 0 then t.book.closed == o.book.closed
         else
           && |t.book.closed| == |o.book.closed| + 1 && t.book.closed[..|o.book.closed|] == o.book.closed
           && t.book.closed[|o.book.closed|].cycle == o.number
           && t.book.closed[|o.book.closed|].holdingDays == o.pos.holdingDays && |t.book.trades| > |o.book.trades|
  {
    if o.pos.quantity > 0 {
      FirstLegOk(c, o, today);
    }
  }

  lemma OneMoreTimed(days: seq<Day>, log: seq<Trade>, closed: seq<ClosedCycle>, next: seq<ClosedCycle>)
    requires Durations(days, log, closed) && |next| == |closed| + 1 && next[..|closed|] == closed
    requires Timed(days, log, next[|closed|])
    ensures Durations(days, log, next)
  {
    forall k | 0 <= k < |next| ensures Timed(days, log, next[k]) {
      if k < |closed| {
        assert next[k] == closed[k];
      }
    }
  }

  lemma ProcessedDurations(c: Config, days: seq<Day>, o: Sim, today: Day)
    requires SimOk(c, o) && |days| > 0 && days[|days| - 1] == today && Dated(days, o)
    requires Durations(days, Processed(c, o, today).book.trades, o.book.closed)
    ensures Durations(days, Processed(c, o, today).book.trades, Processed(c, o, today).book.closed)
  {
    var t := Processed(c, o, today);
    ClosesTheHolding(c, o, today);
    if t.book.closed != o.book.closed {
      ClosedToday(c, days, o, today);
      OneMoreTimed(days, t.book.trades, o.book.closed, t.book.closed);
    }
  }

  lemma SessionBook(c: Config, s: Sim, pending: Option<Pending>, today: Day, slippage: real)
    requires ValidConfig(c)
    ensures SessionOf(c, s, pending, today, slippage).0.book == Processed(c, Opened(c, s, pending, today, slippage), today).book
  {
  }

  lemma SessionDurations(c: Config, days: seq<Day>, s: Sim, pending: Option<Pending>, today: Day, slippage: real)
    requires SimOk(c, s) && PendingFits(c, s, pending) && Dated(days, s)
    requires Durations(days, s.book.trades, s.book.closed)
    ensures
      var t := SessionOf(c, s, pending, today, slippage).0;
      Durations(days + [today], t.book.trades, t.book.closed)
  {
    var o := Opened(c, s, pending, today, slippage);
    var all := days + [today];
    OpenedOk(c, s, pending, today, slippage);
    OpenedDated(c, days, s, pending, today, slippage);
    OpenedClosesNothing(c, s, pending, today, slippage);
    SessionAddsTrades(c, s, pending, today, slippage);
    SessionBook(c, s, pending, today, slippage);
    EarlierStayTimed(days, all, s, Processed(c, o, today));
    ProcessedDurations(c, all, o, today);
  }

  lemma EarlierStayTimed(days: seq<Day>, all: seq<Day>, s: Sim, t: Sim)
    requires Durations(days, s.book.trades, s.book.closed) && |days| <= |all| && all[..|days|] == days
    requires |s.book.trades| <= |t.book.trades| && t.book.trades[..|s.book.trades|] == s.book.trades
    ensures Durations(all, t.book.trades, s.book.closed)
  {
    forall k | 0 <= k < |s.book.closed| ensures Timed(all, t.book.trades, s.book.closed[k]) {
      StaysTimed(days, all, s.book.trades, t.book.trades, s.book.closed[k]);
    }
  }

  lemma OpenedClosesNothing(c: Config, s: Sim, pending: Option<Pending>, today: Day, slippage: real)
    requires ValidConfig(c)
    ensures Opened(c, s, pending, today, slippage).book.closed == s.book.closed
  {
  }

  lemma ClosedToday(c: Config, days: seq<Day>, o: Sim, today: Day)
    requires SimOk(c, o) && |days| > 0 && days[|days| - 1] == today && Dated(days, o)
    requires Processed(c, o, today).book.closed != o.book.closed
    ensures
      var t, n := Processed(c, o, today), |o.book.closed|;
      && |t.book.closed| == n + 1 && 1 <= o.pos.holdingDays <= |days|
      && Timed(days, t.book.trades, t.book.closed[n])
  {
    var t := Processed(c, o, today);
    ClosesTheHolding(c, o, today);
    ProcessedAddsSales(c, o, today);
    var e := |days| - o.pos.holdingDays;
    TradeStays(o.book.trades, t.book.trades, FirstBuy, o.number, days[e].date);
    assert SaleOf(c, o, today, t.book.trades[|o.book.trades|]);
    assert HeldFromTo(days, t.book.trades, t.book.closed[|o.book.closed|], e, |days| - 1);
  }

  /** Each closed cycle's holding days are the sessions from its first purchase to its last sale, both included. */
  lemma {:induction false} HoldingDaysAreSessions(c: Config, days: seq<Day>, slippage: real)
    requires ValidConfig(c)
    ensures
      var t := SessionsOf(c, days, slippage).0;
      Durations(days, t.book.trades, t.book.closed)
  {
    if |days| > 0 {
      var n := |days| - 1;
      var before := SessionsOf(c, days[..n], slippage);
      HoldingDaysAreSessions(c, days[..n], slippage);
      HoldingDaysCount(c, days[..n], slippage);
      SessionsKeepOk(c, days[..n], slippage);
      SessionDurations(c, days[..n], before.0, before.1, days[n], slippage);
      assert days[..n] + [days[n]] == days;
    }
  }

  // ---------------------------------------------------------------- what the open cycle started from

  /** `equity` was the cash just before the cycle's first purchase. */
  predicate StartedWith(c: Config, log: seq<Trade>, cycle: nat, equity: real)
  {
    exists k :: 0 <= k < |log| && log[k].purpose.FirstBuy? && log[k].cycle == cycle
      && equity == c.capital + LogCash(c.buyFee, c.sellFee, log[..k])
  }

  lemma StillStartedWith(c: Config, log: seq<Trade>, next: seq<Trade>, cycle: nat, equity: real)
    requires |log| <= |next| && next[..|log|] == log && StartedWith(c, log, cycle, equity)
    ensures StartedWith(c, next, cycle, equity)
  {
    var k :| 0 <= k < |log| && log[k].purpose.FirstBuy? && log[k].cycle == cycle
      && equity == c.capital + LogCash(c.buyFee, c.sellFee, log[..k]);
    assert next[k] == log[k] && next[..k] == log[..k];
  }

  lemma OpenedStart(c: Config, s: Sim, pending: Option<Pending>, today: Day, slippage: real)
    requires AccountsOk(c, s) && SimOk(c, s) && PendingFits(c, s, pending)
    requires s.pos.quantity > 0 ==> StartedWith(c, s.book.trades, s.number, s.pos.startEquity)
    ensures
      var o := Opened(c, s, pending, today, slippage);
      o.pos.quantity > 0 ==> StartedWith(c, o.book.trades, o.number, o.pos.startEquity)
  {
    var o := Opened(c, s, pending, today, slippage);
    if s.pos.quantity > 0 {
      HoldingGoesOn(c, s, pending, today, slippage);
      SameStart(c, s, pending, today, slippage);
      StillStartedWith(c, s.book.trades, o.book.trades, s.number, s.pos.startEquity);
    } else if o.pos.quantity > 0 {
      FirstSession(c, s, pending, today, slippage);
      FirstStart(c, s, pending, today, slippage);
      assert o.book.trades[..|s.book.trades|] == s.book.trades;
    }
  }

  lemma SameStart(c: Config, s: Sim, pending: Option<Pending>, today: Day, slippage: real)
    requires SimOk(c, s) && PendingFits(c, s, pending) && s.pos.quantity > 0
    ensures Opened(c, s, pending, today, slippage).pos.startEquity == s.pos.startEquity
  {
    if pending.Some? {
      ExecutedOk(c, s, pending.value, today, slippage);
      AllowedExactly(c, pending.value.day, View(s.pos));
    }
  }

  lemma FirstStart(c: Config, s: Sim, pending: Option<Pending>, today: Day, slippage: real)
    requires SimOk(c, s) && PendingFits(c, s, pending) && s.pos.quantity == 0
    requires Opened(c, s, pending, today, slippage).pos.quantity > 0
    ensures
      var o := Opened(c, s, pending, today, slippage);
      o.pos.startEquity == s.book.cash && |o.book.trades| == |s.book.trades| + 1 && o.book.trades[..|s.book.trades|] == s.book.trades
  {
    ExecutedOk(c, s, pending.value, today, slippage);
    EntryExactly(c, pending.value.day, View(s.pos));
  }

  lemma ProcessedStart(c: Config, o: Sim, today: Day)
    requires SimOk(c, o)
    ensures Processed(c, o, today).pos == FLAT ||
            (o.pos.quantity > 0 && Processed(c, o, today).pos.startEquity == o.pos.startEquity)
  {
    LegsOkAfter(c, o, today);
    if o.pos.quantity > 0 {
      FirstLegOk(c, o, today);
    }
  }

  /** The open cycle's starting equity is the account's cash just before its first purchase. */
  lemma {:induction false} CycleStartsFromItsCash(c: Config, days: seq<Day>, slippage: real)
    requires ValidConfig(c)
    ensures
      var t := SessionsOf(c, days, slippage).0;
      t.pos.quantity > 0 ==> StartedWith(c, t.book.trades, t.number, t.pos.startEquity)
  {
    if |days| > 0 {
      var n := |days| - 1;
      var before := SessionsOf(c, days[..n], slippage);
      var o := Opened(c, before.0, before.1, days[n], slippage);
      CycleStartsFromItsCash(c, days[..n], slippage);
      CyclesAreBookedAsTraded(c, days[..n], slippage);
      SessionsKeepOk(c, days[..n], slippage);
      OpenedOk(c, before.0, before.1, days[n], slippage);
      OpenedStart(c, before.0, before.1, days[n], slippage);
      KeepsStart(c, o, days[n]);
    }
  }

  lemma KeepsStart(c: Config, o: Sim, today: Day)
    requires SimOk(c, o) && (o.pos.quantity > 0 ==> StartedWith(c, o.book.trades, o.number, o.pos.startEquity))
    ensures
      var t := Rearmed(Processed(c, o, today), today);
      t.pos.quantity > 0 ==> StartedWith(c, t.book.trades, t.number, t.pos.startEquity)
  {
    var t := Processed(c, o, today);
    ProcessedOk(c, o, today);
    ProcessedStart(c, o, today);
    ProcessedAddsSales(c, o, today);
    if t.pos != FLAT {
      StillStartedWith(c, o.book.trades, t.book.trades, o.number, o.pos.startEquity);
    }
  }
}
