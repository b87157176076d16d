/** What the position of a simulation remembers is what its log says of the open cycle, on every price path. */
module CycleMemory {
  import opened Numeric
  import opened Results
  import opened Sums
  import opened Strategy
  import opened TradeLog
  import opened Backtest
  import opened Decisions
  import opened History

  // ---------------------------------------------------------------- what the log says of one cycle

  predicate IsEntry(t: Trade, cycle: nat)
  {
    t.buy && t.cycle == cycle && (t.purpose.FirstBuy? || t.purpose.AddBuy?)
  }

  function Firsts(cycle: nat): Trade -> int
  {
    (t: Trade) => if t.buy && t.cycle == cycle && t.purpose.FirstBuy? then 1 else 0
  }

  function Entries(cycle: nat): Trade -> int
  {
    (t: Trade) => if IsEntry(t, cycle) then 1 else 0
  }

  function Rebuys(cycle: nat): Trade -> int
  {
    (t: Trade) => if t.buy && t.cycle == cycle && t.purpose.RebuyBuy? then 1 else 0
  }

  function FirstPrice(cycle: nat): Trade -> real
  {
    (t: Trade) => if t.buy && t.cycle == cycle && t.purpose.FirstBuy? then t.price else 0.0
  }

  function EntryCost(c: Config, cycle: nat): Trade -> real
  {
    (t: Trade) => if IsEntry(t, cycle) then Gross(t.quantity, t.price, c.buyFee) else 0.0
  }

  /** One first purchase, at the anchor; as many entries and rebuys as counted; the entries cost what is staged. */
  predicate Remembers(c: Config, log: seq<Trade>, cycle: nat, p: Position)
  {
    && CountBy(log, Firsts(cycle)) == 1 && SumBy(log, FirstPrice(cycle)) == p.anchor
    && CountBy(log, Entries(cycle)) == p.entryCount && CountBy(log, Rebuys(cycle)) == p.rebuyCount
    && SumBy(log, EntryCost(c, cycle)) == p.staged
  }

  predicate NoneLater(log: seq<Trade>, number: nat)
  {
    forall k :: 0 <= k < |log| ==> log[k].cycle <= number
  }

  /** No cycle has more entries than stages, or more rebuys than allowed. */
  ghost predicate WithinLimits(c: Config, log: seq<Trade>)
  {
    forall cycle: nat :: CountBy(log, Entries(cycle)) <= |c.weights| && CountBy(log, Rebuys(cycle)) <= MaxInt(0, c.maxRebuy)
  }

  ghost predicate MemoryOk(c: Config, s: Sim)
  {
    && SimOk(c, s) && NoneLater(s.book.trades, s.number) && WithinLimits(c, s.book.trades)
    && (s.pos.armed ==> s.pos.state.PartialTp1?)
    && (s.pos.quantity > 0 ==> Remembers(c, s.book.trades, s.number, s.pos))
  }

  // ---------------------------------------------------------------- sales change none of it

  lemma {:induction false} CountNone(log: seq<Trade>, f: Trade -> int)
    requires forall k :: 0 <= k < |log| ==> f(log[k]) == 0
    ensures CountBy(log, f) == 0
  {
    if |log| > 0 {
      CountNone(log[..|log| - 1], f);
    }
  }

  /** `next` is `log` and sales. */
  predicate SalesAfter(log: seq<Trade>, next: seq<Trade>)
  {
    |log| <= |next| && next[..|log|] == log && forall k :: |log| <= k < |next| ==> !next[k].buy
  }

  lemma {:induction false} SalesKeepCounts(log: seq<Trade>, next: seq<Trade>, f: Trade -> int, g: Trade -> real)
    requires SalesAfter(log, next)
    requires forall t: Trade :: !t.buy ==> f(t) == 0 && g(t) == 0.0
    ensures CountBy(next, f) == CountBy(log, f) && SumBy(next, g) == SumBy(log, g)
    decreases |next|
  {
    if |next| > |log| {
      var n := |next| - 1;
      assert next[..n][..|log|] == log;
      SalesKeepCounts(log, next[..n], f, g);
    } else {
      assert next == log;
    }
  }

  lemma SalesKeepLimits(c: Config, log: seq<Trade>, next: seq<Trade>)
    requires SalesAfter(log, next) && WithinLimits(c, log)
    ensures WithinLimits(c, next)
  {
    forall cycle: nat
      ensures CountBy(next, Entries(cycle)) <= |c.weights| && CountBy(next, Rebuys(cycle)) <= MaxInt(0, c.maxRebuy)
    {
      SalesKeepCounts(log, next, Entries(cycle), FirstPrice(cycle));
      SalesKeepCounts(log, next, Rebuys(cycle), FirstPrice(cycle));
    }
  }

  lemma SalesKeepMemory(c: Config, log: seq<Trade>, next: seq<Trade>, cycle: nat, p: Position)
    requires SalesAfter(log, next) && Remembers(c, log, cycle, p)
    ensures Remembers(c, next, cycle, p)
  {
    SalesKeepCounts(log, next, Firsts(cycle), FirstPrice(cycle));
    SalesKeepCounts(log, next, Entries(cycle), EntryCost(c, cycle));
    SalesKeepCounts(log, next, Rebuys(cycle), FirstPrice(cycle));
  }

  // ---------------------------------------------------------------- a purchase is counted

  lemma PurchaseCounts(c: Config, log: seq<Trade>, t: Trade, cycle: nat)
    ensures CountBy(log + [t], Firsts(cycle)) == CountBy(log, Firsts(cycle)) + Firsts(cycle)(t)
    ensures CountBy(log + [t], Entries(cycle)) == CountBy(log, Entries(cycle)) + Entries(cycle)(t)
    ensures CountBy(log + [t], Rebuys(cycle)) == CountBy(log, Rebuys(cycle)) + Rebuys(cycle)(t)
    ensures SumBy(log + [t], FirstPrice(cycle)) == SumBy(log, FirstPrice(cycle)) + FirstPrice(cycle)(t)
    ensures SumBy(log + [t], EntryCost(c, cycle)) == SumBy(log, EntryCost(c, cycle)) + EntryCost(c, cycle)(t)
  {
    CountAppend(log, t, Firsts(cycle));
    CountAppend(log, t, Entries(cycle));
    CountAppend(log, t, Rebuys(cycle));
    SumAppend(log, t, FirstPrice(cycle));
    SumAppend(log, t, EntryCost(c, cycle));
  }

  /** A cycle whose number is still to come has nothing in the log. */
  lemma NothingOfLaterCycles(c: Config, log: seq<Trade>, number: nat, cycle: nat)
    requires NoneLater(log, number) && cycle > number
    ensures CountBy(log, Firsts(cycle)) == 0 && CountBy(log, Entries(cycle)) == 0 && CountBy(log, Rebuys(cycle)) == 0
    ensures SumBy(log, FirstPrice(cycle)) == 0.0 && SumBy(log, EntryCost(c, cycle)) == 0.0
  {
    CountNone(log, Firsts(cycle));
    CountNone(log, Entries(cycle));
    CountNone(log, Rebuys(cycle));
    SumZero(log, FirstPrice(cycle));
    SumZero(log, EntryCost(c, cycle));
  }

  /** What one purchase adds to the counts of the cycle it belongs to. */
  lemma PurchaseIsRemembered(c: Config, s: Sim, p: Pending, today: Day, price: real, q: nat)
    requires MemoryOk(c, s) && PendingOk(c, p, s.pos) && CanBuy(s.pos, p.decision, price, q)
    ensures
      var t := Purchased(c, s, p, today, price, q);
      Remembers(c, t.book.trades, t.number, t.pos)
  {
    var number := if p.decision.action.FirstEntry? then s.number + 1 else s.number;
    var trade := Trade(today.date, number, true, PurposeOf(p.decision.action), price, q);
    PurchaseCounts(c, s.book.trades, trade, number);
    if p.decision.action.FirstEntry? {
      NothingOfLaterCycles(c, s.book.trades, s.number, number);
    } else if p.decision.action.AddEntry? {
      EntryDecision(c, p.day, s.pos, p.decision, s.number);
    } else {
      OnlyHoldingsRebuy(c, p.day, s.pos, s.number);
    }
  }

  lemma OnlyHoldingsRebuy(c: Config, d: Day, p: Position, number: nat)
    requires ValidConfig(c) && PositionOk(c, p, number)
    requires Decide(c, d, View(p)).allowed && !Decide(c, d, View(p)).action.FirstEntry? && !Decide(c, d, View(p)).action.AddEntry?
    ensures p.quantity > 0 && p.state.PartialTp1? && p.rebuyCount < c.maxRebuy && Decide(c, d, View(p)).action.Rebuy?
  {
    AllowedExactly(c, d, View(p));
    if p.state.PartialTp1? {
      RebuyExactly(c, d, View(p));
    } else if p.state.Empty? {
      EntryExactly(c, d, View(p));
    } else {
      var stage :| NextStage(c, View(p), stage) && AddWanted(c, d, View(p), stage);
      AddExactly(c, d, View(p), stage);
    }
  }

  lemma PurchaseWithinLimits(c: Config, s: Sim, p: Pending, today: Day, price: real, q: nat)
    requires MemoryOk(c, s) && PendingOk(c, p, s.pos) && CanBuy(s.pos, p.decision, price, q)
    ensures
      var t := Purchased(c, s, p, today, price, q);
      NoneLater(t.book.trades, t.number) && WithinLimits(c, t.book.trades)
  {
    var t := Purchased(c, s, p, today, price, q);
    var number := if p.decision.action.FirstEntry? then s.number + 1 else s.number;
    var trade := Trade(today.date, number, true, PurposeOf(p.decision.action), price, q);
    forall cycle: nat
      ensures CountBy(t.book.trades, Entries(cycle)) <= |c.weights|
      ensures CountBy(t.book.trades, Rebuys(cycle)) <= MaxInt(0, c.maxRebuy)
    {
      PurchaseCounts(c, s.book.trades, trade, cycle);
      if cycle == number {
        if p.decision.action.FirstEntry? {
          NothingOfLaterCycles(c, s.book.trades, s.number, number);
        } else if p.decision.action.AddEntry? {
          EntryDecision(c, p.day, s.pos, p.decision, s.number);
        } else {
          OnlyHoldingsRebuy(c, p.day, s.pos, s.number);
        }
      }
    }
  }

  // ---------------------------------------------------------------- sessions

  lemma OpenedRemembers(c: Config, s: Sim, pending: Option<Pending>, today: Day, slippage: real)
    requires MemoryOk(c, s) && PendingFits(c, s, pending)
    ensures MemoryOk(c, Opened(c, s, pending, today, slippage))
  {
    OpenedOk(c, s, pending, today, slippage);
    if pending.Some? {
      var p := pending.value;
      ExecutedOk(c, s, p, today, slippage);
      if OutcomeOf(c, p, s.pos, s.book.cash, today, slippage).Filled? {
        var price := FillPrice(today, slippage);
        var q := FillQuantity(c, p, s.pos, s.book.cash, price);
        PurchaseIsRemembered(c, s, p, today, price, q);
        PurchaseWithinLimits(c, s, p, today, price, q);
        PurchaseArmsNothing(c, s, p, today, price, q);
      }
    }
  }

  lemma PurchaseArmsNothing(c: Config, s: Sim, p: Pending, today: Day, price: real, q: nat)
    requires MemoryOk(c, s) && PendingOk(c, p, s.pos) && CanBuy(s.pos, p.decision, price, q)
    ensures !Purchased(c, s, p, today, price, q).pos.armed
  {
    if p.decision.action.AddEntry? {
      EntryDecision(c, p.day, s.pos, p.decision, s.number);
    }
  }

  /** Take profit leaves a flat position, or the cycle's memory as it was. */
  lemma ProcessedKeeps(c: Config, o: Sim, today: Day)
    requires SimOk(c, o) && (o.pos.armed ==> o.pos.state.PartialTp1?)
    ensures
      var t := Processed(c, o, today);
      && t.number == o.number && (t.pos.armed ==> t.pos.state.PartialTp1?)
      && (t.pos == FLAT ||
            (t.pos.anchor == o.pos.anchor && t.pos.entryCount == o.pos.entryCount && t.pos.rebuyCount == o.pos.rebuyCount
             && t.pos.staged == o.pos.staged && t.pos.quantity > 0 && o.pos.quantity > 0))
  {
    LegsKeep(c, o, today);
    LegsOkAfter(c, o, today);
  }

  lemma LegsKeep(c: Config, o: Sim, today: Day)
    requires SimOk(c, o) && (o.pos.armed ==> o.pos.state.PartialTp1?)
    ensures
      var t := LegsSold(c, o, today);
      && (t.pos.armed ==> t.pos.state.PartialTp1?)
      && (t.pos == FLAT ||
            (t.pos.anchor == o.pos.anchor && t.pos.entryCount == o.pos.entryCount && t.pos.rebuyCount == o.pos.rebuyCount
             && t.pos.staged == o.pos.staged && t.pos.quantity > 0 && o.pos.quantity > 0))
  {
    if o.pos.quantity > 0 {
      FirstLegOk(c, o, today);
    }
  }

  lemma SessionRemembers(c: Config, s: Sim, pending: Option<Pending>, today: Day, slippage: real)
    requires MemoryOk(c, s) && PendingFits(c, s, pending)
    ensures MemoryOk(c, SessionOf(c, s, pending, today, slippage).0)
  {
    var o := Opened(c, s, pending, today, slippage);
    OpenedRemembers(c, s, pending, today, slippage);
    ProcessedKeeps(c, o, today);
    ProcessedAddsSales(c, o, today);
    SessionKeepsOk(c, s, pending, today, slippage);
    SalesRemember(c, o, SessionOf(c, s, pending, today, slippage).0);
  }

  lemma SalesRemember(c: Config, o: Sim, t: Sim)
    requires MemoryOk(c, o) && SimOk(c, t) && t.number == o.number && (t.pos.armed ==> t.pos.state.PartialTp1?)
    requires SalesAfter(o.book.trades, t.book.trades)
    requires forall k :: |o.book.trades| <= k < |t.book.trades| ==> o.pos.cycle == Some(t.book.trades[k].cycle)
    requires t.pos == FLAT ||
             (t.pos.anchor == o.pos.anchor && t.pos.entryCount == o.pos.entryCount && t.pos.rebuyCount == o.pos.rebuyCount
              && t.pos.staged == o.pos.staged && o.pos.quantity > 0)
    ensures MemoryOk(c, t)
  {
    var log, next := o.book.trades, t.book.trades;
    SalesKeepLimits(c, log, next);
    if t.pos.quantity > 0 {
      SalesKeepMemory(c, log, next, o.number, o.pos);
    }
    forall k | 0 <= k < |next| ensures next[k].cycle <= t.number {
      if k < |log| {
        assert next[k] == log[k];
      }
    }
  }

  /** On every price path: the position's anchor is the price of the open cycle's one first purchase, its counters are
      the log's, its staged capital is what the entries cost; and no cycle ever has more entries than stages or more
      rebuys than allowed. */
  lemma {:induction false} PositionRemembersItsCycle(c: Config, days: seq<Day>, slippage: real)
    requires ValidConfig(c)
    ensures MemoryOk(c, SessionsOf(c, days, slippage).0)
  {
    if |days| > 0 {
      var head := days[..|days| - 1];
      var before := SessionsOf(c, head, slippage);
      PositionRemembersItsCycle(c, head, slippage);
      SessionsKeepOk(c, head, slippage);
      SessionRemembers(c, before.0, before.1, days[|days| - 1], slippage);
    }
  }

  // ---------------------------------------------------------------- re-arming

  lemma ProcessedArms(c: Config, o: Sim, today: Day)
    requires SimOk(c, o) && (o.pos.armed ==> o.pos.state.PartialTp1?)
    ensures
      var t := Processed(c, o, today);
      t.pos.armed <==> o.pos.armed && t.pos != FLAT
  {
    LegsOkAfter(c, o, today);
    if o.pos.quantity > 0 {
      FirstLegOk(c, o, today);
    }
  }

  lemma OpenedArms(c: Config, s: Sim, pending: Option<Pending>, today: Day, slippage: real)
    requires MemoryOk(c, s) && PendingFits(c, s, pending)
    ensures
      var o := Opened(c, s, pending, today, slippage);
      && (o.pos.armed <==> s.pos.armed && o.pos.rebuyCount == s.pos.rebuyCount)
      && (s.pos.armed ==> o.pos.cycle == s.pos.cycle && o.pos.quantity > 0)
  {
    if pending.Some? {
      var p := pending.value;
      ExecutedOk(c, s, p, today, slippage);
      if OutcomeOf(c, p, s.pos, s.book.cash, today, slippage).Filled? {
        var price := FillPrice(today, slippage);
        PurchaseArmsNothing(c, s, p, today, price, FillQuantity(c, p, s.pos, s.book.cash, price));
      }
    }
  }

  /** After a session a rebuy is armed exactly when the first leg is sold and this session recovered, or an earlier one
      did and neither a rebuy nor the end of the cycle came since. */
  lemma ArmedExactly(c: Config, days: seq<Day>, slippage: real)
    requires ValidConfig(c) && |days| > 0
    ensures
      var before := SessionsOf(c, days[..|days| - 1], slippage).0.pos;
      var after := SessionsOf(c, days, slippage).0.pos;
      after.armed <==>
        && after.state.PartialTp1?
        && (days[|days| - 1].recovered ||
            (before.armed && after.cycle == before.cycle && after.rebuyCount == before.rebuyCount))
  {
    var head, today := days[..|days| - 1], days[|days| - 1];
    var b := SessionsOf(c, head, slippage);
    var o := Opened(c, b.0, b.1, today, slippage);
    PositionRemembersItsCycle(c, head, slippage);
    SessionsKeepOk(c, head, slippage);
    OpenedRemembers(c, b.0, b.1, today, slippage);
    OpenedArms(c, b.0, b.1, today, slippage);
    ProcessedArms(c, o, today);
    ProcessedKeeps(c, o, today);
    ProcessedCycle(c, o, today);
    var t := Processed(c, o, today);
    assert SessionsOf(c, days, slippage).0 == Rearmed(t, today);
  }

  lemma ProcessedCycle(c: Config, o: Sim, today: Day)
    requires SimOk(c, o)
    ensures Processed(c, o, today).pos == FLAT ||
            (Processed(c, o, today).pos.cycle == o.pos.cycle && Processed(c, o, today).pos.holdingDays == o.pos.holdingDays)
  {
    LegsOkAfter(c, o, today);
  }

  // ---------------------------------------------------------------- waiting for the remainder

  predicate HasTrade(log: seq<Trade>, purpose: Purpose, cycle: nat, date: int)
  {
    exists k :: 0 <= k < |log| && log[k].purpose == purpose && log[k].cycle == cycle && log[k].date == date
  }

  /** The holding days count the sessions since the first purchase; the calendar has the count at the first leg, whose
      sale was of the shares remembered as sold. */
  predicate Dated(days: seq<Day>, s: Sim)
  {
    var n := |days|;
    && (s.pos.quantity > 0 ==>
          1 <= s.pos.holdingDays <= n && HasTrade(s.book.trades, FirstBuy, s.number, days[n - s.pos.holdingDays].date))
    && (forall m :: m in s.tp1Day ==>
          && s.pos.quantity > 0 && 1 <= s.tp1Day[m] <= s.pos.holdingDays <= n
          && FirstLegSoldOn(s.book.trades, m, days[n - s.pos.holdingDays + s.tp1Day[m] - 1].date, s.pos.tp1Filled))
  }

  predicate FirstLegSoldOn(log: seq<Trade>, cycle: nat, date: int, quantity: nat)
  {
    exists k :: 0 <= k < |log| && log[k].purpose.Tp1Sell? && log[k].cycle == cycle && log[k].date == date
      && log[k].quantity == quantity
  }

  lemma SaleStays(log: seq<Trade>, next: seq<Trade>, cycle: nat, date: int, quantity: nat)
    requires |log| <= |next| && next[..|log|] == log && FirstLegSoldOn(log, cycle, date, quantity)
    ensures FirstLegSoldOn(next, cycle, date, quantity)
  {
    var k :| 0 <= k < |log| && log[k].purpose.Tp1Sell? && log[k].cycle == cycle && log[k].date == date
      && log[k].quantity == quantity;
    assert next[k] == log[k];
  }

  lemma TradeStays(log: seq<Trade>, next: seq<Trade>, purpose: Purpose, cycle: nat, date: int)
    requires |log| <= |next| && next[..|log|] == log && HasTrade(log, purpose, cycle, date)
    ensures HasTrade(next, purpose, cycle, date)
  {
    var k :| 0 <= k < |log| && log[k].purpose == purpose && log[k].cycle == cycle && log[k].date == date;
    assert next[k] == log[k];
  }

  /** One more session in which nothing was bought for the first time. */
  lemma StillDated(days: seq<Day>, today: Day, s: Sim, t: Sim)
    requires Dated(days, s) && s.pos.quantity > 0 && t.number == s.number && t.tp1Day == s.tp1Day
    requires t.pos.quantity > 0 && t.pos.holdingDays == s.pos.holdingDays + 1 && t.pos.tp1Filled == s.pos.tp1Filled
    requires |s.book.trades| <= |t.book.trades| && t.book.trades[..|s.book.trades|] == s.book.trades
    ensures Dated(days + [today], t)
  {
    var n, all := |days|, days + [today];
    assert all[n + 1 - t.pos.holdingDays] == days[n - s.pos.holdingDays];
    TradeStays(s.book.trades, t.book.trades, FirstBuy, s.number, days[n - s.pos.holdingDays].date);
    forall m | m in t.tp1Day
      ensures FirstLegSoldOn(t.book.trades, m, all[n + 1 - t.pos.holdingDays + t.tp1Day[m] - 1].date, t.pos.tp1Filled)
    {
      assert all[n + 1 - t.pos.holdingDays + t.tp1Day[m] - 1] == days[n - s.pos.holdingDays + s.tp1Day[m] - 1];
      SaleStays(s.book.trades, t.book.trades, m, days[n - s.pos.holdingDays + s.tp1Day[m] - 1].date, s.pos.tp1Filled);
    }
  }

  lemma OpenedDated(c: Config, days: seq<Day>, s: Sim, pending: Option<Pending>, today: Day, slippage: real)
    requires SimOk(c, s) && PendingFits(c, s, pending) && Dated(days, s)
    ensures Dated(days + [today], Opened(c, s, pending, today, slippage))
  {
    var o := Opened(c, s, pending, today, slippage);
    OpenedOk(c, s, pending, today, slippage);
    if pending.Some? {
      ExecutedOk(c, s, pending.value, today, slippage);
    }
    if s.pos.quantity > 0 {
      HoldingGoesOn(c, s, pending, today, slippage);
      StillDated(days, today, s, o);
    } else if o.pos.quantity > 0 {
      FirstSession(c, s, pending, today, slippage);
      assert o.book.trades[|s.book.trades|].date == today.date;
      assert (days + [today])[|days|] == today;
      assert HasTrade(o.book.trades, FirstBuy, o.number, today.date);
    }
  }

  lemma HoldingGoesOn(c: Config, s: Sim, pending: Option<Pending>, today: Day, slippage: real)
    requires SimOk(c, s) && PendingFits(c, s, pending) && s.pos.quantity > 0
    ensures
      var o := Opened(c, s, pending, today, slippage);
      && o.number == s.number && o.tp1Day == s.tp1Day && o.pos.quantity > 0 && o.pos.holdingDays == s.pos.holdingDays + 1
      && o.pos.tp1Filled == s.pos.tp1Filled && |s.book.trades| <= |o.book.trades| && o.book.trades[..|s.book.trades|] == s.book.trades
  {
    if pending.Some? {
      ExecutedOk(c, s, pending.value, today, slippage);
    }
  }

  lemma FirstSession(c: Config, s: Sim, pending: Option<Pending>, today: Day, slippage: real)
    requires SimOk(c, s) && PendingFits(c, s, pending) && s.pos.quantity == 0
    requires Opened(c, s, pending, today, slippage).pos.quantity > 0
    ensures
      var o := Opened(c, s, pending, today, slippage);
      && o.pos.holdingDays == 1 && o.tp1Day == map[] && |o.book.trades| == |s.book.trades| + 1
      && var t := o.book.trades[|s.book.trades|];
         t.purpose.FirstBuy? && t.cycle == o.number && t.date == today.date
  {
    ExecutedOk(c, s, pending.value, today, slippage);
    EntryExactly(c, pending.value.day, View(s.pos));
    assert forall n :: n in s.tp1Day ==> s.pos.cycle == Some(n);
  }

  lemma NothingDated(c: Config, days: seq<Day>, t: Sim)
    requires SimOk(c, t) && t.pos.quantity == 0
    ensures Dated(days, t)
  {
    assert forall m :: m in t.tp1Day ==> t.pos.cycle == Some(m);
  }

  lemma ProcessedDated(c: Config, days: seq<Day>, o: Sim)
    requires SimOk(c, o) && |days| > 0 && Dated(days, o)
    ensures Dated(days, Processed(c, o, days[|days| - 1]))
  {
    var today := days[|days| - 1];
    var t := Processed(c, o, today);
    ProcessedOk(c, o, today);
    ProcessedAddsSales(c, o, today);
    ProcessedCycle(c, o, today);
    if t.pos.quantity == 0 {
      NothingDated(c, days, t);
    } else {
      TradeStays(o.book.trades, t.book.trades, FirstBuy, o.number, days[|days| - o.pos.holdingDays].date);
      forall m | m in t.tp1Day
        ensures 1 <= t.tp1Day[m] <= t.pos.holdingDays
        ensures FirstLegSoldOn(t.book.trades, m, days[|days| - t.pos.holdingDays + t.tp1Day[m] - 1].date, t.pos.tp1Filled)
      {
        CalendarDated(c, days, o, m);
      }
    }
  }

  lemma CalendarDated(c: Config, days: seq<Day>, o: Sim, m: nat)
    requires SimOk(c, o) && |days| > 0 && Dated(days, o)
    requires
      var t := Processed(c, o, days[|days| - 1]);
      t.pos != FLAT && m in t.tp1Day && o.pos.quantity > 0
    ensures
      var t := Processed(c, o, days[|days| - 1]);
      && 1 <= t.tp1Day[m] <= o.pos.holdingDays
      && FirstLegSoldOn(t.book.trades, m, days[|days| - o.pos.holdingDays + t.tp1Day[m] - 1].date, t.pos.tp1Filled)
  {
    var today := days[|days| - 1];
    if Tp1Due(o.pos, today) {
      MarkedToday(c, o, today, m);
    } else {
      UnmarkedToday(c, o, today);
      ProcessedAddsSales(c, o, today);
      SaleStays(o.book.trades, Processed(c, o, today).book.trades, m,
                days[|days| - o.pos.holdingDays + o.tp1Day[m] - 1].date, o.pos.tp1Filled);
    }
  }

  lemma MarkedToday(c: Config, o: Sim, today: Day, m: nat)
    requires SimOk(c, o) && Tp1Due(o.pos, today) && Processed(c, o, today).pos != FLAT
    requires m in Processed(c, o, today).tp1Day && o.pos.holdingDays >= 1
    ensures Processed(c, o, today).tp1Day[m] == o.pos.holdingDays
    ensures FirstLegSoldOn(Processed(c, o, today).book.trades, m, today.date, Processed(c, o, today).pos.tp1Filled)
  {
    var t := Processed(c, o, today);
    LegsOkAfter(c, o, today);
    ProcessedOk(c, o, today);
    ProcessedMakesSales(c, o, today);
    assert o.pos.cycle == Some(m);
    var sale := Trade(today.date, m, false, Tp1Sell, o.pos.plan.value.tp1Price, o.pos.plan.value.tp1Qty);
    assert sale in t.book.trades;
    var k :| 0 <= k < |t.book.trades| && t.book.trades[k] == sale;
  }

  lemma UnmarkedToday(c: Config, o: Sim, today: Day)
    requires SimOk(c, o) && !Tp1Due(o.pos, today) && Processed(c, o, today).pos != FLAT
    ensures Processed(c, o, today).tp1Day == o.tp1Day && Processed(c, o, today).pos.tp1Filled == o.pos.tp1Filled
  {
    LegsOkAfter(c, o, today);
  }

  lemma SessionDated(c: Config, days: seq<Day>, s: Sim, pending: Option<Pending>, today: Day, slippage: real)
    requires SimOk(c, s) && PendingFits(c, s, pending) && Dated(days, s)
    ensures Dated(days + [today], SessionOf(c, s, pending, today, slippage).0)
  {
    var o := Opened(c, s, pending, today, slippage);
    OpenedOk(c, s, pending, today, slippage);
    OpenedDated(c, days, s, pending, today, slippage);
    ProcessedDated(c, days + [today], o);
    RearmedDated(days + [today], Processed(c, o, today), today);
  }

  lemma RearmedDated(days: seq<Day>, t: Sim, today: Day)
    requires Dated(days, t)
    ensures Dated(days, Rearmed(t, today))
  {
  }

  lemma {:induction false} HoldingDaysCount(c: Config, days: seq<Day>, slippage: real)
    requires ValidConfig(c)
    ensures Dated(days, SessionsOf(c, days, slippage).0)
  {
    if |days| > 0 {
      var n := |days| - 1;
      var before := SessionsOf(c, days[..n], slippage);
      HoldingDaysCount(c, days[..n], slippage);
      SessionsKeepOk(c, days[..n], slippage);
      SessionDated(c, days[..n], before.0, before.1, days[n], slippage);
      assert days[..n] + [days[n]] == days;
    }
  }

  /** The session of the first leg, as the calendar gives it. */
  lemma FirstLegDay(days: seq<Day>, o: Sim, cycle: nat) returns (j: nat)
    requires Dated(days, o) && cycle in o.tp1Day
    ensures j < |days| && j == |days| - 1 - (o.pos.holdingDays - o.tp1Day[cycle])
    ensures FirstLegSoldOn(o.book.trades, cycle, days[j].date, o.pos.tp1Filled)
  {
    j := |days| - o.pos.holdingDays + o.tp1Day[cycle] - 1;
  }

  lemma OpenedSessionDated(c: Config, days: seq<Day>, slippage: real, i: nat)
    requires ValidConfig(c) && i < |days|
    ensures
      var before := SessionsOf(c, days[..i], slippage);
      Dated(days[..i + 1], Opened(c, before.0, before.1, days[i], slippage))
  {
    var before := SessionsOf(c, days[..i], slippage);
    HoldingDaysCount(c, days[..i], slippage);
    SessionsKeepOk(c, days[..i], slippage);
    OpenedDated(c, days[..i], before.0, before.1, days[i], slippage);
    assert days[..i] + [days[i]] == days[..i + 1];
  }

  /** The remainder of a cycle is sold no sooner than the configured number of sessions after its first leg. */
  lemma RemainderWaits(c: Config, days: seq<Day>, slippage: real, i: nat, t: Trade) returns (j: nat)
    requires ValidConfig(c) && i < |days| && TradeAt(c, days, slippage, i, t) && t.purpose.RemainderSell?
    ensures j + c.exitWait <= i && j < |days|
    ensures exists q: nat ::
              FirstLegSoldOn(SessionsOf(c, days, slippage).0.book.trades, t.cycle, days[j].date, q)
  {
    var before := SessionsOf(c, days[..i], slippage);
    var o := Opened(c, before.0, before.1, days[i], slippage);
    OpenedSessionDated(c, days, slippage, i);
    assert SaleOf(c, o, days[i], t);
    j := FirstLegDay(days[..i + 1], o, t.cycle);
    OpenedIsLogged(c, days, slippage, i);
    SaleStays(o.book.trades, SessionsOf(c, days, slippage).0.book.trades, t.cycle, days[j].date, o.pos.tp1Filled);
  }

  /** Over session `i`, with the first leg sold on session `j`: the remainder exit is due exactly when it is enabled, the
      rest is still held, the wait from `j` is over, and the high reaches its price but not the second leg's. */
  lemma ExitDueExactly(c: Config, days: seq<Day>, slippage: real, i: nat) returns (j: nat)
    requires ValidConfig(c) && i < |days|
    requires
      var before := SessionsOf(c, days[..i], slippage);
      Opened(c, before.0, before.1, days[i], slippage).pos.state.PartialTp1?
    ensures
      var before := SessionsOf(c, days[..i], slippage);
      var o := Opened(c, before.0, before.1, days[i], slippage);
      && j <= i && o.pos.cycle.Some? && o.pos.plan.Some?
      && FirstLegSoldOn(o.book.trades, o.pos.cycle.value, days[j].date, o.pos.tp1Filled)
      && (ExitDue(c, o, days[i]) <==>
            c.exitEnabled && j + c.exitWait <= i
            && RemainderPrice(c, o.pos.avg) <= days[i].high < o.pos.plan.value.tp2Price)
  {
    var before := SessionsOf(c, days[..i], slippage);
    var o := Opened(c, before.0, before.1, days[i], slippage);
    SessionsKeepOk(c, days[..i], slippage);
    OpenedOk(c, before.0, before.1, days[i], slippage);
    OpenedSessionDated(c, days, slippage, i);
    j := FirstLegDay(days[..i + 1], o, o.pos.cycle.value);
  }

  lemma OpenedIsLogged(c: Config, days: seq<Day>, slippage: real, i: nat)
    requires ValidConfig(c) && i < |days|
    ensures
      var before := SessionsOf(c, days[..i], slippage);
      var log, all := Opened(c, before.0, before.1, days[i], slippage).book.trades, SessionsOf(c, days, slippage).0.book.trades;
      |log| <= |all| && all[..|log|] == log
  {
    var before := SessionsOf(c, days[..i], slippage);
    var o := Opened(c, before.0, before.1, days[i], slippage);
    var upTo := days[..i + 1];
    assert upTo[..i] == days[..i] && upTo[i] == days[i];
    SessionsKeepOk(c, days[..i], slippage);
    OpenedOk(c, before.0, before.1, days[i], slippage);
    ProcessedAddsSales(c, o, days[i]);
    LogOnlyGrows(c, days, slippage, i + 1);
    var part, all := SessionsOf(c, upTo, slippage).0.book.trades, SessionsOf(c, days, slippage).0.book.trades;
    assert part == Processed(c, o, days[i]).book.trades;
    assert all[..|o.book.trades|] == part[..|o.book.trades|];
  }
}
