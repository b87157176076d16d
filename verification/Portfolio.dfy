/** The portfolio loop: targets from the allocation rule, executed at the next session's open. */
module Portfolio {
  import opened Numeric
  import opened Results
  import Allocation
  import opened Rebalance

  const SYMBOLS := 3
  const REINVESTED := 0.75

  /** `target` is known only at this session's close. */
  datatype TradingDay = TradingDay(opens: seq<real>, closes: seq<real>, target: Allocation.Weights)

  predicate ValidDay(d: TradingDay)
  {
    |d.opens| == |d.closes| == SYMBOLS && Priced(d.opens) && Priced(d.closes) && Allocation.Fits(d.target)
  }

  /** The target scaled to the onboarding stage. */
  function Staged(w: Allocation.Weights, fraction: real): (s: seq<real>)
    ensures |s| == SYMBOLS
  {
    [Budget(w.qqq, fraction), Budget(w.tqqq, fraction), Budget(w.soxl, fraction)]
  }

  predicate Payable(weights: seq<real>)
  {
    |weights| == SYMBOLS && (forall i :: 0 <= i < |weights| ==> weights[i] >= 0.0) && Share(weights, SYMBOLS) <= 1.0
  }

  lemma StagedIsPayable(w: Allocation.Weights, fraction: real)
    requires Allocation.Fits(w) && 0.0 <= fraction <= 1.0
    ensures Payable(Staged(w, fraction))
  {
    var s := Staged(w, fraction);
    BudgetWithin(w.qqq, fraction);
    BudgetWithin(w.tqqq, fraction);
    BudgetWithin(w.soxl, fraction);
    Product(w.qqq, fraction);
    Product(w.tqqq, fraction);
    Product(w.soxl, fraction);
    assert Share(s, 0) == 0.0;
    assert Share(s, 1) == Share(s, 0) + s[0];
    assert Share(s, 2) == Share(s, 1) + s[1];
    assert Share(s, 3) == Share(s, 2) + s[2] <= Allocation.Total(w);
  }

  /** Onboarding scales every weight, and with them the whole book and its exposure, by the same fraction. */
  lemma StagedScales(w: Allocation.Weights, fraction: real)
    ensures
      var s := Staged(w, fraction);
      && s[0] == fraction * w.qqq && s[1] == fraction * w.tqqq && s[2] == fraction * w.soxl
      && s[0] + s[1] + s[2] == fraction * Allocation.Total(w)
  {
    assert fraction * (w.qqq + w.tqqq + w.soxl) == fraction * w.qqq + fraction * w.tqqq + fraction * w.soxl;
  }

  /** The HWM75 sizing base, never more than the equity at the open. */
  function SizingEquity(capital: real, highWater: real, openEquity: real): real
  {
    Max(0.0, Min(capital + REINVESTED * Max(0.0, highWater - capital), openEquity))
  }

  lemma {:induction false} PeakAtLeastCapital(capital: real, trace: seq<Record>, n: nat)
    requires n <= |trace|
    ensures Peak(capital, trace, n) >= capital
    ensures forall i :: 0 <= i < n ==> Peak(capital, trace, n) >= trace[i].equity
    ensures Peak(capital, trace, n) == capital || exists i :: 0 <= i < n && Peak(capital, trace, n) == trace[i].equity
  {
    if n > 0 {
      PeakAtLeastCapital(capital, trace, n - 1);
    }
  }

  /** In every session the targets are sized by the largest amount within the equity at the open and the capital with
      three quarters of what the best close before it gained. */
  lemma SizingFollowsThePeak(
    c: Costs, capital: real, first: Allocation.Weights, days: seq<TradingDay>, fractions: seq<real>,
    trace: seq<Record>, i: nat)
    requires ValidCosts(c) && capital >= 0.0 && i < |trace| <= |days| && |days| < |fractions|
    requires TraceOk(c, capital, first, days, fractions, trace)
    ensures
      var r, limit := trace[i], capital + 0.75 * (Peak(capital, trace, i) - capital);
      && 0.0 <= r.sizing <= r.openEquity && r.sizing <= limit && (r.sizing == r.openEquity || r.sizing == limit)
  {
    assert SessionOk(c, capital, first, days, fractions, trace, i);
    PeakAtLeastCapital(capital, trace, i);
    MarkNonnegative(c, HeldBefore(trace, i), days[i].opens, SYMBOLS);
    if i > 0 {
      assert SessionOk(c, capital, first, days, fractions, trace, i - 1);
    }
  }

  predicate Owned(q: seq<int>)
  {
    |q| == SYMBOLS && forall i :: 0 <= i < |q| ==> q[i] >= 0
  }

  lemma {:induction false} MarkNonnegative(c: Costs, q: seq<int>, prices: seq<real>, n: nat)
    requires ValidCosts(c) && Priced(prices) && |q| == |prices| && n <= |q|
    requires forall i :: 0 <= i < |q| ==> q[i] >= 0
    ensures Mark(c, q, prices, n) >= 0.0
  {
    if n > 0 {
      MarkNonnegative(c, q, prices, n - 1);
      UnitsPositive(c, prices[n - 1]);
      TimesMono(0, q[n - 1], MarkUnit(c, prices[n - 1]));
    }
  }

  /** One execution: cash stays nonnegative, cash is conserved, and without slippage the targets are met to the share. */
  method Execute(c: Costs, weights: seq<real>, quantities: array<int>, opens: seq<real>, cash: real, equity: real)
    returns (left: real)
    requires ValidCosts(c) && Priced(opens) && |opens| == quantities.Length == SYMBOLS
    requires Payable(weights) && Owned(quantities[..]) && cash >= 0.0
    requires 0.0 <= equity <= cash + Mark(c, quantities[..], opens, SYMBOLS)
    modifies quantities
    ensures left >= 0.0 && Owned(quantities[..])
    ensures IsExecuted(c, weights, opens, equity, old(quantities[..]), cash, quantities[..], left)
  {
    ghost var was := quantities[..];
    PricedTable(c, opens);
    var d := Desired(c, equity, weights, opens);
    ShortfallIsSlippage(c, equity, weights, was, opens, cash);
    left := Rebalance.Rebalance(c, weights, quantities, opens, cash, equity);
    forall i | 0 <= i < SYMBOLS ensures quantities[i] >= 0 {
      DesiredFits(c, equity, weights[i], opens[i]);
    }
    if c.slip == 0.0 {
      assert Slippage(c, SoldMark(c, was, d, opens, SYMBOLS)) == 0.0;
      assert Met(quantities[..], d, SYMBOLS);
    }
  }

  /** What an execution does to shares and cash. */
  predicate IsExecuted(
    c: Costs, weights: seq<real>, opens: seq<real>, equity: real, was: seq<int>, cash: real, now: seq<int>, left: real)
  {
    && |weights| == |opens| == |was| == |now| == SYMBOLS && Table(c, opens)
    && var d := Desired(c, equity, weights, opens);
       && Reached(c, was, now, d, opens, left, SYMBOLS)
       && left == cash + Proceeds(c, was, now, opens, SYMBOLS) - Need(c, was, now, opens, SYMBOLS)
       && (c.slip == 0.0 ==> now == d)
  }

  // ---------------------------------------------------------------- the loop and its trace

  /** One session as it went: sizing, whether targets were executed, and what was left. */
  datatype Record = Record(openEquity: real, sizing: real, executed: bool, cash: real, held: seq<int>, equity: real)

  /** What session `i` trades to: known at the close before it. */
  function Planned(first: Allocation.Weights, days: seq<TradingDay>, fractions: seq<real>, i: nat): seq<real>
    requires i <= |days| && i < |fractions|
  {
    Staged(if i == 0 then first else days[i - 1].target, fractions[i])
  }

  /** What a session trades to is decided by the sessions before it; nothing of its own or a later day counts. */
  lemma PlannedLooksBack(
    first: Allocation.Weights, days: seq<TradingDay>, other: seq<TradingDay>, fractions: seq<real>, i: nat)
    requires i <= |days| && i <= |other| && i < |fractions| && days[..i] == other[..i]
    ensures Planned(first, days, fractions, i) == Planned(first, other, fractions, i)
    ensures i > 0 ==> Planned(first, days, fractions, i) == Staged(days[i - 1].target, fractions[i])
    ensures i == 0 ==> Planned(first, days, fractions, i) == Staged(first, fractions[0])
  {
    if i > 0 {
      assert days[i - 1] == days[..i][i - 1] == other[i - 1];
    }
  }

  /** The highest close equity before session `n`, the capital included. */
  function Peak(capital: real, trace: seq<Record>, n: nat): real
    requires n <= |trace|
  {
    if n == 0 then capital else Max(Peak(capital, trace, n - 1), trace[n - 1].equity)
  }

  function CashBefore(capital: real, trace: seq<Record>, n: nat): real
    requires n <= |trace|
  {
    if n == 0 then capital else trace[n - 1].cash
  }

  function HeldBefore(trace: seq<Record>, n: nat): seq<int>
    requires n <= |trace|
  {
    if n == 0 then [0, 0, 0] else trace[n - 1].held
  }

  /** Session `i` of a trace is the loop's: no later target, sizing from the peak so far, no trade without a new target. */
  predicate SessionOk(
    c: Costs, capital: real, first: Allocation.Weights, days: seq<TradingDay>, fractions: seq<real>,
    trace: seq<Record>, i: nat)
    requires i < |trace| <= |days| && |days| < |fractions|
  {
    var r, day := trace[i], days[i];
    var cash, held := CashBefore(capital, trace, i), HeldBefore(trace, i);
    && ValidDay(day) && Owned(held) && Owned(r.held) && r.cash >= 0.0 && r.equity >= 0.0
    && r.openEquity == cash + Mark(c, held, day.opens, SYMBOLS)
    && r.sizing == SizingEquity(capital, Peak(capital, trace, i), r.openEquity)
    && (r.executed <==> i == 0 || Planned(first, days, fractions, i) != Planned(first, days, fractions, i - 1))
    && (if r.executed then
          IsExecuted(c, Planned(first, days, fractions, i), day.opens, r.sizing, held, cash, r.held, r.cash)
        else r.held == held && r.cash == cash)
    && r.equity == r.cash + Mark(c, r.held, day.closes, SYMBOLS)
  }

  predicate TraceOk(
    c: Costs, capital: real, first: Allocation.Weights, days: seq<TradingDay>, fractions: seq<real>, trace: seq<Record>)
    requires |trace| <= |days| && |days| < |fractions|
  {
    forall i :: 0 <= i < |trace| ==> SessionOk(c, capital, first, days, fractions, trace, i)
  }

  lemma {:induction false} PeakOfPrefix(capital: real, trace: seq<Record>, r: Record, n: nat)
    requires n <= |trace|
    ensures Peak(capital, trace + [r], n) == Peak(capital, trace, n)
  {
    if n > 0 {
      PeakOfPrefix(capital, trace, r, n - 1);
    }
  }

  /** A session whose target is the one before it trades nothing; another does, whatever it then reaches. */
  lemma OnlyNewTargetsTrade(
    c: Costs, capital: real, first: Allocation.Weights, days: seq<TradingDay>, fractions: seq<real>,
    trace: seq<Record>, i: nat)
    requires 0 < i < |trace| <= |days| && |days| < |fractions|
    requires TraceOk(c, capital, first, days, fractions, trace)
    ensures Planned(first, days, fractions, i) == Planned(first, days, fractions, i - 1) ==>
              trace[i].held == trace[i - 1].held && trace[i].cash == trace[i - 1].cash
    ensures trace[i].executed <==> Planned(first, days, fractions, i) != Planned(first, days, fractions, i - 1)
  {
    assert SessionOk(c, capital, first, days, fractions, trace, i);
  }

  /** A session ends at its cash and its shares at the close, each less the fee of selling it. */
  lemma MarkedAtTheClose(
    c: Costs, capital: real, first: Allocation.Weights, days: seq<TradingDay>, fractions: seq<real>,
    trace: seq<Record>, i: nat)
    requires i < |trace| <= |days| && |days| < |fractions|
    requires TraceOk(c, capital, first, days, fractions, trace)
    ensures |trace[i].held| == |days[i].closes| == 3
    ensures
      var q, p := trace[i].held, days[i].closes;
      trace[i].equity == trace[i].cash + Times(q[0], MarkUnit(c, p[0])) + Times(q[1], MarkUnit(c, p[1])) + Times(q[2], MarkUnit(c, p[2]))
  {
    assert SessionOk(c, capital, first, days, fractions, trace, i);
    var q, p := trace[i].held, days[i].closes;
    assert Mark(c, q, p, 1) == Times(q[0], MarkUnit(c, p[0]));
    assert Mark(c, q, p, 2) == Mark(c, q, p, 1) + Times(q[1], MarkUnit(c, p[1]));
  }

  lemma TraceGrows(
    c: Costs, capital: real, first: Allocation.Weights, days: seq<TradingDay>, fractions: seq<real>,
    trace: seq<Record>, r: Record)
    requires |trace| < |days| < |fractions|
    requires TraceOk(c, capital, first, days, fractions, trace)
    requires SessionOk(c, capital, first, days, fractions, trace + [r], |trace|)
    ensures TraceOk(c, capital, first, days, fractions, trace + [r])
  {
    var all := trace + [r];
    forall i | 0 <= i < |all| ensures SessionOk(c, capital, first, days, fractions, all, i) {
      if i < |trace| {
        assert SessionOk(c, capital, first, days, fractions, trace, i);
        PeakOfPrefix(capital, trace, r, i);
        assert all[i] == trace[i] && (i > 0 ==> all[i - 1] == trace[i - 1]);
      }
    }
  }

  /** One session of the loop. */
  method RunSession(
    c: Costs, capital: real, day: TradingDay, weights: seq<real>, due: bool,
    quantities: array<int>, cash: real, highWater: real) returns (r: Record)
    requires ValidCosts(c) && ValidDay(day) && Payable(weights) && cash >= 0.0
    requires quantities.Length == SYMBOLS && Owned(quantities[..])
    modifies quantities
    ensures r.openEquity == cash + Mark(c, old(quantities[..]), day.opens, SYMBOLS)
    ensures r.sizing == SizingEquity(capital, highWater, r.openEquity) && r.executed == due
    ensures if due then
              IsExecuted(c, weights, day.opens, r.sizing, old(quantities[..]), cash, quantities[..], r.cash)
            else quantities[..] == old(quantities[..]) && r.cash == cash
    ensures r.held == quantities[..] && Owned(r.held) && r.cash >= 0.0
    ensures r.equity == r.cash + Mark(c, r.held, day.closes, SYMBOLS) && r.equity >= 0.0
  {
    MarkNonnegative(c, quantities[..], day.opens, SYMBOLS);
    var openEquity := cash + Mark(c, quantities[..], day.opens, SYMBOLS);
    var sizing := SizingEquity(capital, highWater, openEquity);
    var left := cash;
    if due {
      left := Execute(c, weights, quantities, day.opens, cash, sizing);
    }
    MarkNonnegative(c, quantities[..], day.closes, SYMBOLS);
    r := Record(openEquity, sizing, due, left, quantities[..], left + Mark(c, quantities[..], day.closes, SYMBOLS));
  }

  lemma PlannedIsPayable(first: Allocation.Weights, days: seq<TradingDay>, fractions: seq<real>, i: nat)
    requires Allocation.Fits(first) && i <= |days| < |fractions|
    requires forall j :: 0 <= j < |days| ==> ValidDay(days[j])
    requires forall j :: 0 <= j < |fractions| ==> 0.0 <= fractions[j] <= 1.0
    ensures Payable(Planned(first, days, fractions, i))
  {
    if i > 0 {
      assert ValidDay(days[i - 1]);
    }
    StagedIsPayable(if i == 0 then first else days[i - 1].target, fractions[i]);
  }

  /** The loop over sessions, with the trace of what each did. */
  method Run(c: Costs, capital: real, first: Allocation.Weights, days: seq<TradingDay>, fractions: seq<real>)
    returns (trace: seq<Record>)
    requires ValidCosts(c) && capital >= 0.0 && Allocation.Fits(first)
    requires forall i :: 0 <= i < |days| ==> ValidDay(days[i])
    requires |fractions| == |days| + 1 && forall i :: 0 <= i < |fractions| ==> 0.0 <= fractions[i] <= 1.0
    ensures |trace| == |days| && TraceOk(c, capital, first, days, fractions, trace)
  {
    trace := [];
    var cash, highWater := capital, capital;
    var quantities := new int[SYMBOLS](i => 0);
    var pending: seq<real>, current: Option<seq<real>> := Staged(first, fractions[0]), None;
    assert quantities[..] == [0, 0, 0];
    for i := 0 to |days|
      invariant |trace| == i && TraceOk(c, capital, first, days, fractions, trace)
      invariant quantities.Length == SYMBOLS && quantities[..] == HeldBefore(trace, i) && Owned(quantities[..])
      invariant cash == CashBefore(capital, trace, i) >= 0.0 && highWater == Peak(capital, trace, i)
      invariant pending == Planned(first, days, fractions, i)
      invariant if i == 0 then current.None? else current == Some(Planned(first, days, fractions, i - 1))
    {
      PlannedIsPayable(first, days, fractions, i);
      var r := RunSession(c, capital, days[i], pending, current != Some(pending), quantities, cash, highWater);
      PeakOfPrefix(capital, trace, r, i);
      TraceGrows(c, capital, first, days, fractions, trace, r);
      current := Some(pending);
      trace, cash, highWater := trace + [r], r.cash, Max(highWater, r.equity);
      pending := Staged(days[i].target, fractions[i + 1]);
    }
  }
}
