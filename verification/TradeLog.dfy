/** The trade log of a simulated symbol, and the quantities it replays to. */
module TradeLog {
  import opened Sums

  datatype Purpose = FirstBuy | AddBuy | RebuyBuy | Tp1Sell | Tp2Sell | RemainderSell

  /** `price` is the fill price before the log rounds it for display. */
  datatype Trade = Trade(date: int, cycle: nat, buy: bool, purpose: Purpose, price: real, quantity: nat)

  function NetOf(t: Trade): int
  {
    if t.buy then t.quantity else 0 - t.quantity
  }

  function Net(): Trade -> int
  {
    (t: Trade) => NetOf(t)
  }

  function NetQty(log: seq<Trade>): int
  {
    CountBy(log, Net())
  }

  function NetBy(date: int): Trade -> int
  {
    (t: Trade) => if t.date <= date then NetOf(t) else 0
  }

  /** Shares held after every trade dated up to `date`. */
  function NetAsOf(log: seq<Trade>, date: int): int
  {
    CountBy(log, NetBy(date))
  }

  function BuysOn(date: int): Trade -> int
  {
    (t: Trade) => if t.date == date && t.buy then t.quantity else 0
  }

  function BoughtOn(log: seq<Trade>, date: int): int
  {
    CountBy(log, BuysOn(date))
  }

  function SellsOn(date: int): Trade -> int
  {
    (t: Trade) => if t.date == date && !t.buy then t.quantity else 0
  }

  function SoldOn(log: seq<Trade>, date: int): int
  {
    CountBy(log, SellsOn(date))
  }

  function CashOf(buyFee: real, sellFee: real, t: Trade): real
  {
    var gross := t.quantity as real * t.price;
    if t.buy then -(gross * (1.0 + buyFee)) else gross - gross * sellFee
  }

  function Cash(buyFee: real, sellFee: real): Trade -> real
  {
    (t: Trade) => CashOf(buyFee, sellFee, t)
  }

  function LogCash(buyFee: real, sellFee: real, log: seq<Trade>): real
  {
    SumBy(log, Cash(buyFee, sellFee))
  }

  predicate Through(log: seq<Trade>, date: int)
  {
    forall i :: 0 <= i < |log| ==> log[i].date <= date
  }

  predicate Before(log: seq<Trade>, date: int)
  {
    forall i :: 0 <= i < |log| ==> log[i].date < date
  }

  /** No session of the log is ever short of shares. */
  ghost predicate NeverShort(log: seq<Trade>)
  {
    forall date: int :: NetAsOf(log, date) >= 0
  }

  lemma {:induction false} ThroughMeansAll(log: seq<Trade>, date: int)
    requires Through(log, date)
    ensures NetAsOf(log, date) == NetQty(log)
  {
    CountAgree(log, log, NetBy(date), Net());
  }

  lemma LogGrows(buyFee: real, sellFee: real, log: seq<Trade>, t: Trade)
    ensures NetQty(log + [t]) == NetQty(log) + NetOf(t)
    ensures LogCash(buyFee, sellFee, log + [t]) == LogCash(buyFee, sellFee, log) + CashOf(buyFee, sellFee, t)
    ensures forall date :: NetAsOf(log + [t], date) == NetAsOf(log, date) + (if t.date <= date then NetOf(t) else 0)
    ensures forall date :: BoughtOn(log + [t], date) ==
                           BoughtOn(log, date) + (if t.date == date && t.buy then t.quantity else 0)
  {
    CountAppend(log, t, Net());
    SumAppend(log, t, Cash(buyFee, sellFee));
    forall date
      ensures NetAsOf(log + [t], date) == NetAsOf(log, date) + (if t.date <= date then NetOf(t) else 0)
      ensures BoughtOn(log + [t], date) ==
              BoughtOn(log, date) + (if t.date == date && t.buy then t.quantity else 0)
    {
      CountAppend(log, t, NetBy(date));
      CountAppend(log, t, BuysOn(date));
    }
  }

  lemma NeverShortGrows(log: seq<Trade>, t: Trade)
    requires NeverShort(log) && Through(log, t.date) && NetQty(log + [t]) >= 0
    ensures NeverShort(log + [t])
  {
    LogGrows(0.0, 0.0, log, t);
    forall date: int ensures NetAsOf(log + [t], date) >= 0 {
      if t.date <= date {
        ThroughMeansAll(log, date);
      }
    }
  }

  lemma {:induction false} NoBuysBefore(log: seq<Trade>, date: int)
    requires Before(log, date)
    ensures BoughtOn(log, date) == 0
  {
    if |log| > 0 {
      NoBuysBefore(log[..|log| - 1], date);
    }
  }

  /** The trades of `date` add to the log and leave every earlier date alone. */
  ghost predicate SamePast(log: seq<Trade>, next: seq<Trade>, date: int)
  {
    && (forall d: int :: d < date ==> NetAsOf(next, d) == NetAsOf(log, d) && BoughtOn(next, d) == BoughtOn(log, d))
    && (forall t :: t in next ==> t in log || t.date == date)
  }

  ghost predicate SameBuys(log: seq<Trade>, next: seq<Trade>)
  {
    forall d: int :: BoughtOn(next, d) == BoughtOn(log, d)
  }

  lemma SaleKeepsPast(log: seq<Trade>, t: Trade)
    requires !t.buy
    ensures SamePast(log, log + [t], t.date) && SameBuys(log, log + [t])
  {
    LogGrows(0.0, 0.0, log, t);
  }

  lemma PurchaseKeepsPast(log: seq<Trade>, t: Trade)
    requires t.buy
    ensures SamePast(log, log + [t], t.date)
    ensures BoughtOn(log + [t], t.date) == BoughtOn(log, t.date) + t.quantity
  {
    LogGrows(0.0, 0.0, log, t);
  }
}
