/**
 The single-symbol strategy: what may be bought in each position state, at what price and size,
 and how a holding is split into take-profit legs. Indicators and scores are arbitrary inputs.
 */
module Strategy {
  import opened Numeric
  import opened Results

  datatype PositionState =
    | Empty | Holding1 | Holding2 | Holding3 | Holding4 | HoldingRebuy | PartialTp1

  datatype Action = FirstEntry | AddEntry | Rebuy | NoAction

  /** Stage `k` has cumulative weight `weights[k-1]`; its own rule, from stage 2 on, is at `k-2`. */
  datatype Config = Config(
    capital: real, buyFee: real, sellFee: real, maxChase: real,
    ratio82: real, ratio88: real, ratio92: real, entryScore: int, allowIncrease: bool,
    weights: seq<real>, drops: seq<real>, stageScores: seq<int>,
    useAtr: bool, tp1Base: real, tp2Base: real, tp1Atr: real, tp2Atr: real, tp1Fraction: real,
    rebuyEnabled: bool, rebuyScore: int, rebuyDrop: real, maxRebuy: int,
    exitEnabled: bool, exitWait: int, exitTarget: real)

  /** The checked configuration; that a fee takes at most the proceeds and a target price is not
      negative is taken for granted there, and so are at most four stages. */
  predicate ValidConfig(c: Config)
  {
    && c.capital > 0.0 && c.buyFee >= 0.0 && 0.0 <= c.sellFee <= 1.0 && c.maxChase >= 0.0
    && 1 <= |c.weights| <= 4 && (forall k :: 0 <= k < |c.weights| ==> c.weights[k] > 0.0)
    && |c.drops| == |c.stageScores| == |c.weights| - 1
    && 0.0 < c.tp1Fraction < 1.0 && -1.0 <= c.tp1Base < c.tp2Base
    && (c.exitEnabled ==> c.exitWait > 0 && 0.0 < c.exitTarget < c.tp2Base)
  }

  /** One session: prices, and what the indicators said; `grounds` is every further reason not to buy, absent. */
  datatype Day = Day(
    date: int, open: real, high: real, close: real, atr: real, score: int,
    grounds: bool, recovered: bool, reoversold: bool)

  datatype Snapshot = Snapshot(
    state: PositionState, avg: real, cost: real, cap: real, staged: real,
    anchor: real, rebuyCount: int, armed: bool, tp1Filled: int)

  datatype Decision = Decision(
    action: Action, allowed: bool, stage: Option<nat>, cap: real, target: real, budget: real, trigger: Option<real>)

  // ---------------------------------------------------------------- exposure and stage budgets

  function CapAt(capital: real, ratio: real): real
  {
    HalfEvenCents(capital * ratio)
  }

  function ScoreToExposure(c: Config, score: int): real
  {
    if score >= 92 then CapAt(c.capital, c.ratio92)
    else if score >= 88 then CapAt(c.capital, c.ratio88)
    else if score >= c.entryScore then CapAt(c.capital, c.ratio82)
    else 0.0
  }

  function UpdateCap(c: Config, previous: real, score: int): real
  {
    var proposed := ScoreToExposure(c, score);
    if previous <= 0.0 then proposed
    else if c.allowIncrease then Min(c.capital, Max(previous, proposed))
    else previous
  }

  function StageTarget(c: Config, cap: real, stage: nat): real
    requires 1 <= stage <= |c.weights|
  {
    HalfEvenCents(cap * c.weights[stage - 1])
  }

  function StageBudget(c: Config, cap: real, stage: nat, staged: real): real
    requires 1 <= stage <= |c.weights|
  {
    HalfEvenCents(Max(0.0, StageTarget(c, cap, stage) - staged))
  }

  lemma NoRoomNoBudget(c: Config, cap: real, stage: nat, staged: real)
    requires 1 <= stage <= |c.weights| && staged >= StageTarget(c, cap, stage)
    ensures StageBudget(c, cap, stage, staged) == 0.0
  {
    CentsFixed(0.0);
  }

  /** An allowed budget never lifts the staged capital more than half a cent past the rounded target. */
  lemma BudgetStaysInStage(c: Config, cap: real, stage: nat, staged: real, spent: real)
    requires 1 <= stage <= |c.weights|
    requires spent <= StageBudget(c, cap, stage, staged) && StageBudget(c, cap, stage, staged) > 0.0
    ensures staged + spent <= StageTarget(c, cap, stage) + 0.005
    ensures staged + spent <= cap * c.weights[stage - 1] + 0.01
    ensures staged == 0.0 ==> spent <= StageTarget(c, cap, stage)
  {
    var target := StageTarget(c, cap, stage);
    if staged >= target {
      NoRoomNoBudget(c, cap, stage, staged);
    }
    if staged == 0.0 {
      HalfEvenIsCents(cap * c.weights[stage - 1]);
      CentsFixed(target);
    }
  }

  /** The cap may fall: its rounding can put the first cap above a capital that is not whole cents. */
  predicate CapsFit(c: Config)
  {
    && CapAt(c.capital, c.ratio92) <= c.capital
    && CapAt(c.capital, c.ratio88) <= c.capital
    && CapAt(c.capital, c.ratio82) <= c.capital
  }

  /** With increases allowed, a positive cap survives every later score exactly when it fits the capital. */
  lemma CapNeverFallsExactly(c: Config, cap: real)
    requires ValidConfig(c) && cap > 0.0 && c.allowIncrease
    ensures (forall score :: UpdateCap(c, cap, score) >= cap) <==> cap <= c.capital
    ensures forall score :: UpdateCap(c, cap, score) <= c.capital
  {
    if cap > c.capital {
      assert UpdateCap(c, cap, 0) < cap;
    }
  }

  lemma WholeCentsFit(c: Config)
    requires ValidConfig(c) && IsCents(c.capital)
    requires c.ratio82 <= 1.0 && c.ratio88 <= 1.0 && c.ratio92 <= 1.0
    ensures CapsFit(c)
  {
    Fits(c.capital, c.ratio82);
    Fits(c.capital, c.ratio88);
    Fits(c.capital, c.ratio92);
  }

  lemma Fits(capital: real, ratio: real)
    requires capital > 0.0 && IsCents(capital) && ratio <= 1.0
    ensures CapAt(capital, ratio) <= capital
  {
    assert capital * ratio <= capital * 1.0;
    HalfEvenAtMost(capital * ratio, capital);
  }

  /** Capital 100.006 at full exposure opens with a cap of 100.01; the next increase lowers it. */
  lemma CapFallsOnPartCents(c: Config)
    requires ValidConfig(c) && c.allowIncrease && c.capital == 100.006 && c.ratio92 == 1.0
    ensures ScoreToExposure(c, 95) == 100.01
    ensures UpdateCap(c, ScoreToExposure(c, 95), 95) == 100.006 < ScoreToExposure(c, 95)
  {
    var x := c.capital * c.ratio92 * 100.0;
    assert x == 10000.6 && x.Floor == 10000;
    assert HalfEvenInt(x) == 10001;
  }

  // ---------------------------------------------------------------- decisions

  function Rejected(): Decision
  {
    Decision(NoAction, false, None, 0.0, 0.0, 0.0, None)
  }

  function EvaluateEntry(c: Config, d: Day): Decision
    requires ValidConfig(c)
  {
    var cap := ScoreToExposure(c, d.score);
    var budget := StageBudget(c, cap, 1, 0.0);
    var allowed := d.grounds && d.score >= c.entryScore && budget > 0.0;
    Decision(if allowed then FirstEntry else NoAction, allowed, if allowed then Some(1) else None,
             cap, StageTarget(c, cap, 1), budget, None)
  }

  function StageState(stage: nat): PositionState
    requires 1 <= stage <= 4
  {
    if stage == 1 then Holding1 else if stage == 2 then Holding2 else if stage == 3 then Holding3 else Holding4
  }

  /** The price a drop below `price`. */
  function TriggerAt(price: real, drop: real): real
  {
    price * (1.0 - drop)
  }

  /** What `q` shares cost, fee included. */
  function CostOfShares(q: int, price: real, fee: real): real
  {
    q as real * price * (1.0 + fee)
  }

  function EvaluateAdditional(c: Config, d: Day, p: Snapshot, stage: nat): Decision
    requires ValidConfig(c) && 2 <= stage <= |c.weights|
  {
    var trigger := TriggerAt(p.anchor, c.drops[stage - 2]);
    var cap := UpdateCap(c, p.cap, d.score);
    var budget := StageBudget(c, cap, stage, p.staged);
    var allowed :=
      && d.grounds && d.score >= c.stageScores[stage - 2] && budget > 0.0
      && p.anchor > 0.0 && d.close <= trigger;
    Decision(if allowed then AddEntry else NoAction, allowed, if allowed then Some(stage) else None,
             cap, StageTarget(c, cap, stage), budget, Some(HalfEvenBasis(trigger)))
  }

  function EvaluateRebuy(c: Config, d: Day, p: Snapshot): Decision
    requires ValidConfig(c)
  {
    var available := Max(0.0, p.cap - p.cost);
    var trigger := TriggerAt(p.avg, c.rebuyDrop);
    var requested := CostOfShares(p.tp1Filled, d.close, c.buyFee);
    var budget := HalfEvenCents(Min(available, requested));
    var allowed :=
      && d.grounds && d.score >= c.rebuyScore && available > 0.0
      && c.rebuyEnabled && p.rebuyCount < c.maxRebuy && p.armed && d.reoversold
      && d.close <= trigger && budget > 0.0;
    Decision(if allowed then Rebuy else NoAction, allowed, None, p.cap, p.cap, budget, Some(HalfEvenBasis(trigger)))
  }

  /** `evaluate_strategy` */
  function Decide(c: Config, d: Day, p: Snapshot): Decision
    requires ValidConfig(c)
  {
    if p.state.Empty? then EvaluateEntry(c, d)
    else if p.state.Holding1? && |c.weights| >= 2 then EvaluateAdditional(c, d, p, 2)
    else if p.state.Holding2? && |c.weights| >= 3 then EvaluateAdditional(c, d, p, 3)
    else if p.state.Holding3? && |c.weights| >= 4 then EvaluateAdditional(c, d, p, 4)
    else if p.state.PartialTp1? then EvaluateRebuy(c, d, p)
    else Rejected()
  }

  // ---------------------------------------------------------------- execution

  /** `max_chase_price` */
  function ChasePrice(c: Config, close: real): real
  {
    close * (1.0 + c.maxChase)
  }

  function PriceCeiling(c: Config, action: Action, close: real, trigger: Option<real>, avg: real): real
  {
    var chase := ChasePrice(c, close);
    match action
    case AddEntry => Min(chase, if trigger.Some? then trigger.value else chase)
    case Rebuy => Min(chase, TriggerAt(avg, c.rebuyDrop))
    case _ => chase
  }

  function UnitCost(price: real, fee: real): real
  {
    price * (1.0 + fee)
  }

  function OrderQuantity(budget: real, price: real, fee: real, maximum: Option<int>): (q: nat)
    requires fee >= 0.0
  {
    if budget <= 0.0 || price <= 0.0 then 0
    else
      var q := (budget / UnitCost(price, fee)).Floor;
      MaxInt(0, if maximum.Some? then MinInt(q, maximum.value) else q)
  }

  function Gross(q: nat, price: real, fee: real): real
  {
    q as real * price * (1.0 + fee)
  }

  /** The most shares that fit, unless capped: the order is affordable, and one more would not be. */
  lemma OrderQuantityExact(budget: real, price: real, fee: real, maximum: Option<int>)
    requires fee >= 0.0 && price > 0.0 && budget > 0.0
    ensures
      var q := OrderQuantity(budget, price, fee, maximum);
      && 0.0 <= Gross(q, price, fee) <= budget
      && (q >= 1 ==> 0.0 < Gross(q, price, fee))
      && (maximum.None? || q < maximum.value ==> budget < Gross(q + 1, price, fee))
  {
    var unit := UnitCost(price, fee);
    PositiveProduct(price, 1.0 + fee);
    var q := OrderQuantity(budget, price, fee, maximum);
    FloorFits(budget, unit);
    TimesMono(0, q, unit);
    TimesMono(q, (budget / unit).Floor, unit);
    TimesMono(1, MaxInt(1, q), unit);
    GrossIsUnits(q, price, fee);
    GrossIsUnits(q + 1, price, fee);
  }

  lemma GrossIsUnits(q: nat, price: real, fee: real)
    ensures Gross(q, price, fee) == Times(q, UnitCost(price, fee))
  {
  }

  // ---------------------------------------------------------------- take-profit plan

  datatype Plan = Plan(tp1Price: real, tp2Price: real, tp1Qty: nat, tp2Qty: nat)

  function FirstLeg(quantity: nat, fraction: real): (q: nat)
    requires quantity > 0
    ensures 1 <= q <= quantity
  {
    MaxInt(1, MinInt(quantity, CeilInt(Times(quantity, fraction))))
  }

  /** A return added to the average price. */
  function Raised(avg: real, rate: real): real
  {
    avg * (1.0 + rate)
  }

  function LegRate(c: Config, base: real, multiplier: real, atr: real): (rate: real)
    ensures rate >= base
  {
    if c.useAtr then Max(base, multiplier * atr) else base
  }

  function TakeProfit(c: Config, avg: real, quantity: nat, atr: real): (p: Plan)
    requires ValidConfig(c) && avg > 0.0 && quantity > 0
    ensures p.tp1Qty + p.tp2Qty == quantity && p.tp1Qty >= 1
  {
    var rate1, rate2 := LegRate(c, c.tp1Base, c.tp1Atr, atr), LegRate(c, c.tp2Base, c.tp2Atr, atr);
    var first := FirstLeg(quantity, c.tp1Fraction);
    Plan(CeilCents(Raised(avg, rate1)), CeilCents(Raised(avg, rate2)), first, quantity - first)
  }

  /** Each leg sells at its target return or within a cent above it, and never below the base return. */
  lemma TakeProfitPrices(c: Config, avg: real, quantity: nat, atr: real)
    requires ValidConfig(c) && avg > 0.0 && quantity > 0
    ensures
      var p := TakeProfit(c, avg, quantity, atr);
      var rate1, rate2 := LegRate(c, c.tp1Base, c.tp1Atr, atr), LegRate(c, c.tp2Base, c.tp2Atr, atr);
      && Raised(avg, rate1) <= p.tp1Price < Raised(avg, rate1) + 0.01
      && Raised(avg, rate2) <= p.tp2Price < Raised(avg, rate2) + 0.01
      && 0.0 <= Raised(avg, c.tp1Base) <= p.tp1Price && 0.0 <= Raised(avg, c.tp2Base) <= p.tp2Price
  {
    RaisedMore(avg, c.tp1Base, LegRate(c, c.tp1Base, c.tp1Atr, atr));
    RaisedMore(avg, c.tp2Base, LegRate(c, c.tp2Base, c.tp2Atr, atr));
  }

  lemma RaisedMore(avg: real, a: real, b: real)
    requires avg > 0.0 && -1.0 <= a <= b
    ensures 0.0 <= Raised(avg, a) <= Raised(avg, b)
  {
    Monotone(0.0, 1.0 + a, avg);
    Monotone(1.0 + a, 1.0 + b, avg);
  }

  /** The first leg is the smallest whole number of shares covering the fraction. */
  lemma FirstLegCovers(quantity: nat, fraction: real)
    requires quantity > 0 && 0.0 < fraction < 1.0
    ensures Times(quantity, fraction) <= FirstLeg(quantity, fraction) as real < Times(quantity, fraction) + 1.0
  {
    PartOf(quantity, fraction);
    CeilWithin(Times(quantity, fraction), quantity);
  }

  lemma PartOf(q: nat, fraction: real)
    requires q > 0 && 0.0 < fraction < 1.0
    ensures 0.0 < Times(q, fraction) < q as real
  {
    PositiveProduct(q as real, fraction);
    PositiveProduct(q as real, 1.0 - fraction);
  }

  lemma CeilWithin(x: real, q: nat)
    requires 0.0 < x < q as real
    ensures MaxInt(1, MinInt(q, CeilInt(x))) == CeilInt(x)
    ensures x <= CeilInt(x) as real < x + 1.0
  {
    var n := CeilInt(x);
    assert 0 < n < q + 1;
  }

  function RemainderPrice(c: Config, avg: real): real
  {
    CeilCents(Raised(avg, c.exitTarget))
  }
}
