/** Integer-share rebalancing with fees and slippage, and the portfolio loop around it. */
module Rebalance {
  import opened Numeric

  datatype Costs = Costs(buyFee: real, sellFee: real, slip: real)

  predicate ValidCosts(c: Costs)
  {
    c.buyFee >= 0.0 && 0.0 <= c.sellFee <= 1.0 && 0.0 <= c.slip <= 1.0
  }

  predicate Priced(prices: seq<real>)
  {
    forall i :: 0 <= i < |prices| ==> prices[i] > 0.0
  }

  /** What one share costs to buy, and brings when sold. */
  function BuyUnit(c: Costs, price: real): real
  {
    price * (1.0 + c.slip) * (1.0 + c.buyFee)
  }

  function SellUnit(c: Costs, price: real): real
  {
    price * (1.0 - c.slip) * (1.0 - c.sellFee)
  }

  /** What one share counts for in the equity that sizes the targets. */
  function MarkUnit(c: Costs, price: real): real
  {
    price * (1.0 - c.sellFee)
  }

  function Budget(equity: real, weight: real): real
  {
    equity * weight
  }

  /** What slippage takes from a sale marked at `mark`. */
  function Slippage(c: Costs, mark: real): real
  {
    c.slip * mark
  }

  function DesiredQty(c: Costs, equity: real, weight: real, price: real): int
    requires BuyUnit(c, price) > 0.0
  {
    (Budget(equity, weight) / BuyUnit(c, price)).Floor
  }

  lemma Product(a: real, b: real)
    requires a >= 0.0 && b >= 0.0
    ensures a * b >= 0.0
    ensures b <= 1.0 ==> a * b <= a
    ensures b >= 1.0 ==> a * b >= a
  {
  }

  lemma UnitsPositive(c: Costs, price: real)
    requires ValidCosts(c) && price > 0.0
    ensures BuyUnit(c, price) > 0.0 && SellUnit(c, price) >= 0.0 && MarkUnit(c, price) >= 0.0
    ensures BuyUnit(c, price) >= MarkUnit(c, price) >= SellUnit(c, price)
    ensures SellUnit(c, price) == MarkUnit(c, price) - c.slip * MarkUnit(c, price)
  {
    var bought, sold, mark := price * (1.0 + c.slip), price * (1.0 - c.slip), price * (1.0 - c.sellFee);
    Product(price, 1.0 + c.slip);
    Product(bought, 1.0 + c.buyFee);
    assert BuyUnit(c, price) == bought * (1.0 + c.buyFee) >= bought >= price;
    Product(price, 1.0 - c.sellFee);
    assert MarkUnit(c, price) == mark <= price;
    Product(mark, 1.0 - c.slip);
    SaleDiscount(price, c.slip, c.sellFee);
    assert SellUnit(c, price) == mark * (1.0 - c.slip);
  }

  lemma SaleDiscount(price: real, slip: real, fee: real)
    ensures price * (1.0 - slip) * (1.0 - fee) == price * (1.0 - fee) * (1.0 - slip)
  {
    var x, y := 1.0 - slip, 1.0 - fee;
    assert price * x * y == price * (x * y) == price * (y * x) == price * y * x;
  }

  /** Every symbol of the table, in its order. */
  predicate Table(c: Costs, prices: seq<real>)
  {
    forall i :: 0 <= i < |prices| ==> BuyUnit(c, prices[i]) > 0.0
  }

  lemma PricedTable(c: Costs, prices: seq<real>)
    requires ValidCosts(c) && Priced(prices)
    ensures Table(c, prices)
  {
    forall i | 0 <= i < |prices| ensures BuyUnit(c, prices[i]) > 0.0 {
      UnitsPositive(c, prices[i]);
    }
  }

  function Desired(c: Costs, equity: real, weights: seq<real>, prices: seq<real>): (d: seq<int>)
    requires |weights| == |prices| && Table(c, prices)
    ensures |d| == |prices|
    ensures forall i :: 0 <= i < |d| ==> d[i] == DesiredQty(c, equity, weights[i], prices[i])
  {
    seq(|prices|, i requires 0 <= i < |prices| => DesiredQty(c, equity, weights[i], prices[i]))
  }

  // ---------------------------------------------------------------- sums over the first `n` symbols

  function Mark(c: Costs, q: seq<int>, prices: seq<real>, n: nat): real
    requires |q| == |prices| && n <= |q|
  {
    if n == 0 then 0.0 else Mark(c, q, prices, n - 1) + Times(q[n - 1], MarkUnit(c, prices[n - 1]))
  }

  /** The mark of the symbols being sold. */
  function SoldMark(c: Costs, q: seq<int>, d: seq<int>, prices: seq<real>, n: nat): real
    requires |q| == |d| == |prices| && n <= |q|
  {
    if n == 0 then 0.0
    else SoldMark(c, q, d, prices, n - 1)
         + if d[n - 1] < q[n - 1] then Times(q[n - 1], MarkUnit(c, prices[n - 1])) else 0.0
  }

  function Proceeds(c: Costs, q: seq<int>, d: seq<int>, prices: seq<real>, n: nat): real
    requires |q| == |d| == |prices| && n <= |q|
  {
    if n == 0 then 0.0
    else Proceeds(c, q, d, prices, n - 1) + Times(MaxInt(0, q[n - 1] - d[n - 1]), SellUnit(c, prices[n - 1]))
  }

  /** What buying up to `d` costs. */
  function Need(c: Costs, q: seq<int>, d: seq<int>, prices: seq<real>, n: nat): real
    requires |q| == |d| == |prices| && n <= |q|
  {
    if n == 0 then 0.0
    else Need(c, q, d, prices, n - 1) + Times(MaxInt(0, d[n - 1] - q[n - 1]), BuyUnit(c, prices[n - 1]))
  }

  function Share(weights: seq<real>, n: nat): real
    requires n <= |weights|
  {
    if n == 0 then 0.0 else Share(weights, n - 1) + weights[n - 1]
  }

  // ---------------------------------------------------------------- can it be afforded

  lemma TimesUnit(q: int, u: real, v: real)
    requires q >= 0 && u <= v
    ensures Times(q, u) <= Times(q, v)
  {
  }

  lemma TimesMinus(a: int, b: int, unit: real)
    ensures Times(a - b, unit) == Times(a, unit) - Times(b, unit)
  {
  }

  lemma DesiredFits(c: Costs, equity: real, weight: real, price: real)
    requires BuyUnit(c, price) > 0.0 && equity >= 0.0 && weight >= 0.0
    ensures
      var d := DesiredQty(c, equity, weight, price);
      d >= 0 && Times(d, BuyUnit(c, price)) <= Budget(equity, weight) < Times(d + 1, BuyUnit(c, price))
  {
    Product(equity, weight);
    FloorFits(Budget(equity, weight), BuyUnit(c, price));
  }

  /** One symbol: cash moved, against its mark before and its full price after. */
  lemma OneSymbol(c: Costs, price: real, q: int, d: int)
    requires ValidCosts(c) && price > 0.0 && q >= 0 && d >= 0
    ensures
      Times(MaxInt(0, q - d), SellUnit(c, price)) - Times(MaxInt(0, d - q), BuyUnit(c, price))
      >= Times(q, MarkUnit(c, price)) - Times(d, BuyUnit(c, price))
         - (if d < q then Slippage(c, Times(q, MarkUnit(c, price))) else 0.0)
  {
    UnitsPositive(c, price);
    if d < q {
      TimesMinus(q, d, SellUnit(c, price));
      TimesUnit(d, SellUnit(c, price), BuyUnit(c, price));
      assert Times(q, SellUnit(c, price)) == Times(q, MarkUnit(c, price)) - Slippage(c, Times(q, MarkUnit(c, price)));
      TimesMinus(d, d, BuyUnit(c, price));
    } else {
      TimesMinus(d, q, BuyUnit(c, price));
      TimesUnit(q, MarkUnit(c, price), BuyUnit(c, price));
    }
  }

  /** All symbols together: what is left after selling and buying everything, at least. */
  lemma {:induction false} AllSymbols(
    c: Costs, equity: real, weights: seq<real>, q: seq<int>, d: seq<int>, prices: seq<real>, n: nat)
    requires ValidCosts(c) && Priced(prices) && |weights| == |q| == |d| == |prices| && n <= |q|
    requires Table(c, prices) && d == Desired(c, equity, weights, prices)
    requires equity >= 0.0 && forall i :: 0 <= i < |q| ==> q[i] >= 0 && weights[i] >= 0.0
    ensures Proceeds(c, q, d, prices, n) - Need(c, q, d, prices, n)
            >= Mark(c, q, prices, n) - Budget(equity, Share(weights, n)) - Slippage(c, SoldMark(c, q, d, prices, n))
  {
    if n > 0 {
      var k := n - 1;
      AllSymbols(c, equity, weights, q, d, prices, k);
      var sold := if d[k] < q[k] then Times(q[k], MarkUnit(c, prices[k])) else 0.0;
      NextSymbol(c, equity, weights[k], q[k], d[k], prices[k], sold);
      BudgetSplits(equity, Share(weights, k), weights[k]);
      SlipSplits(c, SoldMark(c, q, d, prices, k), sold);
    }
  }

  lemma NextSymbol(c: Costs, equity: real, weight: real, q: int, d: int, price: real, sold: real)
    requires ValidCosts(c) && price > 0.0 && BuyUnit(c, price) > 0.0 && q >= 0 && equity >= 0.0 && weight >= 0.0
    requires d == DesiredQty(c, equity, weight, price)
    requires sold == if d < q then Times(q, MarkUnit(c, price)) else 0.0
    ensures Times(MaxInt(0, q - d), SellUnit(c, price)) - Times(MaxInt(0, d - q), BuyUnit(c, price))
            >= Times(q, MarkUnit(c, price)) - Budget(equity, weight) - Slippage(c, sold)
  {
    DesiredFits(c, equity, weight, price);
    OneSymbol(c, price, q, d);
  }

  lemma BudgetSplits(equity: real, a: real, b: real)
    ensures Budget(equity, a + b) == Budget(equity, a) + Budget(equity, b)
  {
  }

  lemma SlipSplits(c: Costs, a: real, b: real)
    ensures Slippage(c, a + b) == Slippage(c, a) + Slippage(c, b)
  {
  }

  lemma BudgetWithin(equity: real, share: real)
    requires equity >= 0.0 && share <= 1.0
    ensures Budget(equity, share) <= equity
  {
    Monotone(share, 1.0, equity);
  }

  /** The whole rebalance is short of cash by at most the slippage on what it sells. */
  lemma ShortfallIsSlippage(
    c: Costs, equity: real, weights: seq<real>, q: seq<int>, prices: seq<real>, cash: real)
    requires ValidCosts(c) && Priced(prices) && |weights| == |q| == |prices| && Table(c, prices)
    requires forall i :: 0 <= i < |q| ==> q[i] >= 0 && weights[i] >= 0.0
    requires Share(weights, |q|) <= 1.0
    requires 0.0 <= equity <= cash + Mark(c, q, prices, |q|)
    ensures
      var d := Desired(c, equity, weights, prices);
      Need(c, q, d, prices, |q|)
      <= cash + Proceeds(c, q, d, prices, |q|) + Slippage(c, SoldMark(c, q, d, prices, |q|))
  {
    var d := Desired(c, equity, weights, prices);
    AllSymbols(c, equity, weights, q, d, prices, |q|);
    BudgetWithin(equity, Share(weights, |q|));
  }

  // ---------------------------------------------------------------- the rebalance itself

  predicate Met(q: seq<int>, d: seq<int>, n: nat)
    requires |q| == |d| && n <= |q|
  {
    forall i :: 0 <= i < n ==> q[i] == d[i]
  }

  /** Sold down to the target, bought up to it or to the last share the cash allowed. */
  predicate Reached(c: Costs, was: seq<int>, now: seq<int>, d: seq<int>, prices: seq<real>, left: real, n: nat)
    requires |was| == |now| == |d| == |prices| && n <= |was|
  {
    forall i :: 0 <= i < n ==>
      && (d[i] <= was[i] ==> now[i] == d[i])
      && (d[i] > was[i] ==> was[i] <= now[i] <= d[i])
      && (now[i] < d[i] ==> left < BuyUnit(c, prices[i]))
  }

  lemma {:induction false} NeedAgrees(c: Costs, q: seq<int>, a: seq<int>, b: seq<int>, prices: seq<real>, n: nat)
    requires |q| == |a| == |b| == |prices| && n <= |q| && Met(a, b, n)
    ensures Need(c, q, a, prices, n) == Need(c, q, b, prices, n)
  {
    if n > 0 {
      NeedAgrees(c, q, a, b, prices, n - 1);
    }
  }

  lemma {:induction false} ProceedsAgree(
    c: Costs, q: seq<int>, now: seq<int>, d: seq<int>, prices: seq<real>, left: real, n: nat)
    requires |q| == |now| == |d| == |prices| && n <= |q| && Reached(c, q, now, d, prices, left, n)
    ensures Proceeds(c, q, now, prices, n) == Proceeds(c, q, d, prices, n)
  {
    if n > 0 {
      ProceedsAgree(c, q, now, d, prices, left, n - 1);
    }
  }

  /** Price times quantity and its fee, as the loop charges it. */
  lemma ChargeIsUnits(c: Costs, price: real, quantity: int)
    ensures quantity as real * (price * (1.0 + c.slip)) + quantity as real * (price * (1.0 + c.slip)) * c.buyFee
            == Times(quantity, BuyUnit(c, price))
  {
    var p, q := price * (1.0 + c.slip), quantity as real;
    assert q * (p * (1.0 + c.buyFee)) == q * p + q * p * c.buyFee;
  }

  lemma CreditIsUnits(c: Costs, price: real, quantity: int)
    ensures quantity as real * (price * (1.0 - c.slip)) - quantity as real * (price * (1.0 - c.slip)) * c.sellFee
            == Times(quantity, SellUnit(c, price))
  {
    var p, q := price * (1.0 - c.slip), quantity as real;
    assert q * (p * (1.0 - c.sellFee)) == q * p - q * p * c.sellFee;
  }

  method SellDown(c: Costs, d: seq<int>, quantities: array<int>, prices: seq<real>, cash: real) returns (left: real)
    requires ValidCosts(c) && Priced(prices) && |d| == |prices| == quantities.Length
    modifies quantities
    ensures forall i :: 0 <= i < |d| ==> quantities[i] == MinInt(old(quantities[i]), d[i])
    ensures left == cash + Proceeds(c, old(quantities[..]), d, prices, |d|) && left >= cash
  {
    left := cash;
    ghost var was := quantities[..];
    for i := 0 to |d|
      invariant forall j :: 0 <= j < i ==> quantities[j] == MinInt(was[j], d[j])
      invariant forall j :: i <= j < |d| ==> quantities[j] == was[j]
      invariant left == cash + Proceeds(c, was, d, prices, i) && left >= cash
    {
      var surplus := quantities[i] - d[i];
      left := SellOne(c, surplus, prices[i], left);
      if surplus > 0 {
        quantities[i] := quantities[i] - surplus;
      }
    }
  }

  /** What a surplus brings, net of slippage and fee. */
  method SellOne(c: Costs, surplus: int, price: real, cash: real) returns (left: real)
    requires ValidCosts(c) && price > 0.0
    ensures left == cash + Times(MaxInt(0, surplus), SellUnit(c, price)) && left >= cash
  {
    UnitsPositive(c, price);
    if surplus <= 0 {
      return cash;
    }
    var received := price * (1.0 - c.slip);
    var fee := surplus as real * received * c.sellFee;
    CreditIsUnits(c, price, surplus);
    TimesMono(0, surplus, SellUnit(c, price));
    left := cash + (surplus as real * received - fee);
  }

  /** Before symbol `i` of the buying loop. */
  predicate Buying(
    c: Costs, was: seq<int>, now: seq<int>, d: seq<int>, prices: seq<real>, start: real, left: real, i: nat)
    requires |was| == |now| == |d| == |prices| && i <= |was|
  {
    && left >= 0.0
    && Reached(c, was, now, d, prices, left, i)
    && (forall j :: i <= j < |d| ==> now[j] == MinInt(was[j], d[j]))
    && left == start - Need(c, was, now, prices, i)
    && (Met(now, d, i) <==> Need(c, was, d, prices, i) <= start)
  }

  /** One purchase of as much as is wanted or affordable. */
  lemma BuyingStep(
    c: Costs, was: seq<int>, now: seq<int>, d: seq<int>, prices: seq<real>, start: real, left: real, i: nat, quantity: nat)
    requires ValidCosts(c) && Priced(prices) && |was| == |now| == |d| == |prices| && i < |was|
    requires Buying(c, was, now, d, prices, start, left, i)
    requires quantity <= MaxInt(0, d[i] - now[i])
    requires Times(quantity, BuyUnit(c, prices[i])) <= left
    requires quantity < MaxInt(0, d[i] - now[i]) ==> left < Times(quantity + 1, BuyUnit(c, prices[i]))
    ensures Buying(c, was, now[i := now[i] + quantity], d, prices, start,
                   left - Times(quantity, BuyUnit(c, prices[i])), i + 1)
  {
    var unit := BuyUnit(c, prices[i]);
    var next, rest := now[i := now[i] + quantity], left - Times(quantity, unit);
    UnitsPositive(c, prices[i]);
    NeedAgrees(c, was, now, next, prices, i);
    var wanted := MaxInt(0, d[i] - was[i]);
    assert MaxInt(0, next[i] - was[i]) == quantity && MaxInt(0, d[i] - now[i]) == wanted;
    TimesMono(0, quantity, unit);
    TimesMono(0, wanted, unit);
    if quantity < wanted {
      TimesMono(quantity + 1, wanted, unit);
      TimesMinus(quantity + 1, quantity, unit);
      assert Times(1, unit) == unit;
      assert rest < unit;
    }
    if Met(now, d, i) {
      NeedAgrees(c, was, now, d, prices, i);
    }
    MetStep(now, next, d, i, quantity, wanted);
  }

  lemma MetStep(now: seq<int>, next: seq<int>, d: seq<int>, i: nat, quantity: nat, wanted: nat)
    requires |now| == |next| == |d| && i < |d|
    requires next == now[i := now[i] + quantity] && wanted == MaxInt(0, d[i] - now[i])
    requires now[i] <= d[i]
    ensures Met(next, d, i + 1) <==> Met(now, d, i) && quantity == wanted
  {
    if Met(next, d, i + 1) {
      assert next[i] == d[i];
      forall j | 0 <= j < i ensures now[j] == d[j] {
        assert next[j] == d[j];
      }
    }
  }

  /** As many of the wanted shares as the cash pays for. */
  method BuyOne(c: Costs, wanted: int, price: real, cash: real) returns (quantity: nat, left: real)
    requires ValidCosts(c) && price > 0.0 && cash >= 0.0
    ensures quantity <= MaxInt(0, wanted)
    ensures left == cash - Times(quantity, BuyUnit(c, price)) && left >= 0.0
    ensures quantity < MaxInt(0, wanted) ==> cash < Times(quantity + 1, BuyUnit(c, price))
  {
    quantity, left := 0, cash;
    if wanted <= 0 {
      return;
    }
    UnitsPositive(c, price);
    FloorFits(cash, BuyUnit(c, price));
    var affordable := (cash / BuyUnit(c, price)).Floor;
    quantity := MinInt(wanted, affordable);
    TimesMono(quantity, affordable, BuyUnit(c, price));
    var paid := price * (1.0 + c.slip);
    var fee := quantity as real * paid * c.buyFee;
    ChargeIsUnits(c, price, quantity);
    left := cash - (quantity as real * paid + fee);
  }

  method BuyUp(c: Costs, ghost was: seq<int>, d: seq<int>, quantities: array<int>, prices: seq<real>, cash: real)
    returns (left: real)
    requires ValidCosts(c) && Priced(prices) && |was| == |d| == |prices| == quantities.Length && cash >= 0.0
    requires forall i :: 0 <= i < |d| ==> quantities[i] == MinInt(was[i], d[i])
    modifies quantities
    ensures Buying(c, was, quantities[..], d, prices, cash, left, |d|)
  {
    left := cash;
    for i := 0 to |d|
      invariant Buying(c, was, quantities[..], d, prices, cash, left, i)
    {
      ghost var now := quantities[..];
      var quantity, rest := BuyOne(c, d[i] - quantities[i], prices[i], left);
      BuyingStep(c, was, now, d, prices, cash, left, i, quantity);
      quantities[i], left := quantities[i] + quantity, rest;
      assert quantities[..] == now[i := now[i] + quantity];
    }
  }

  /** Sells first, then buys in table order while cash lasts. */
  method Rebalance(
    c: Costs, weights: seq<real>, quantities: array<int>, prices: seq<real>, cash: real, equity: real)
    returns (left: real)
    requires ValidCosts(c) && Priced(prices) && Table(c, prices)
    requires |weights| == |prices| == quantities.Length
    requires cash >= 0.0
    modifies quantities
    ensures left >= 0.0
    ensures var d, was := Desired(c, equity, weights, prices), old(quantities[..]);
            && Reached(c, was, quantities[..], d, prices, left, |d|)
            && left == cash + Proceeds(c, was, quantities[..], prices, |d|) - Need(c, was, quantities[..], prices, |d|)
            && (Met(quantities[..], d, |d|) <==>
                  Need(c, was, d, prices, |d|) <= cash + Proceeds(c, was, d, prices, |d|))
  {
    var d := Desired(c, equity, weights, prices);
    ghost var was := quantities[..];
    left := SellDown(c, d, quantities, prices, cash);
    left := BuyUp(c, was, d, quantities, prices, left);
    ProceedsAgree(c, was, quantities[..], d, prices, left, |d|);
  }
}
