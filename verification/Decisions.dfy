/** When the strategy buys, in prices, scores and the state of the position, and when an order for it fills. */
module Decisions {
  import opened Numeric
  import opened Results
  import opened Strategy
  import opened TradeLog
  import opened Backtest

  // ---------------------------------------------------------------- exposure and budgets

  // The formulas of the strategy, each written another way.

  lemma CapAtExactly(capital: real, ratio: real)
    ensures IsCents(CapAt(capital, ratio)) && -0.005 <= CapAt(capital, ratio) - capital * ratio <= 0.005
  {
    HalfEvenIsCents(capital * ratio);
  }

  lemma PricesExactly(c: Config, price: real, rate: real)
    ensures TriggerAt(price, rate) == price - price * rate
    ensures ChasePrice(c, price) == price + price * c.maxChase
    ensures UnitCost(price, rate) == price + price * rate
    ensures Raised(price, rate) == price + price * rate
  {
  }

  lemma AmountsExactly(q: int, price: real, fee: real, today: Day, slippage: real)
    ensures CostOfShares(q, price, fee) == q as real * (price + price * fee)
    ensures FillPrice(today, slippage) == today.open + today.open * slippage
  {
    assert q as real * price * (1.0 + fee) == q as real * (price * (1.0 + fee));
  }

  /** From a score of 92, of 88 and of the entry score on, the cap is that ratio of the capital; below, nothing. */
  lemma ExposureExactly(c: Config, score: int)
    ensures
      var cap := ScoreToExposure(c, score);
      && (score >= 92 ==> cap == CapAt(c.capital, c.ratio92))
      && (88 <= score < 92 ==> cap == CapAt(c.capital, c.ratio88))
      && (c.entryScore <= score < 88 ==> cap == CapAt(c.capital, c.ratio82))
      && (score < 88 && score < c.entryScore ==> cap == 0.0)
  {
  }

  /** A first cap is the score's; later ones stay, or rise to the score's but not past the capital. */
  lemma UpdateCapExactly(c: Config, previous: real, score: int)
    ensures
      var cap, scored := UpdateCap(c, previous, score), ScoreToExposure(c, score);
      && (previous <= 0.0 ==> cap == scored)
      && (previous > 0.0 && !c.allowIncrease ==> cap == previous)
      && (previous > 0.0 && c.allowIncrease ==>
            if previous >= c.capital || scored >= c.capital then cap == c.capital
            else previous <= cap && scored <= cap && (cap == previous || cap == scored))
  {
  }

  lemma MissingExactly(target: real, staged: real)
    ensures
      var budget := HalfEvenCents(Max(0.0, target - staged));
      IsCents(budget) && (if staged >= target then budget == 0.0 else -0.005 <= budget - (target - staged) <= 0.005)
  {
    HalfEvenIsCents(Max(0.0, target - staged));
    CentsFixed(0.0);
  }

  lemma StageTargetExactly(c: Config, cap: real, stage: nat)
    requires 1 <= stage <= |c.weights|
    ensures -0.005 <= StageTarget(c, cap, stage) - cap * c.weights[stage - 1] <= 0.005
  {
  }

  /** What is missing to the stage's share of the cap, to the nearest cent, and nothing past it. */
  lemma StageBudgetExactly(c: Config, cap: real, stage: nat, staged: real)
    requires 1 <= stage <= |c.weights|
    ensures
      var target, budget := StageTarget(c, cap, stage), StageBudget(c, cap, stage, staged);
      IsCents(budget) && (if staged >= target then budget == 0.0 else -0.005 <= budget - (target - staged) <= 0.005)
  {
    MissingExactly(StageTarget(c, cap, stage), staged);
  }

  // ---------------------------------------------------------------- decisions

  /** From an empty position: the entry score, and a first stage worth a cent. */
  predicate EntryWanted(c: Config, d: Day)
    requires ValidConfig(c)
  {
    d.grounds && d.score >= c.entryScore && StageBudget(c, ScoreToExposure(c, d.score), 1, 0.0) > 0.0
  }

  /** Stage `stage` on top of the one before it: its score, its drop from the anchor, and something left of it. */
  predicate AddWanted(c: Config, d: Day, p: Snapshot, stage: nat)
    requires ValidConfig(c) && 2 <= stage <= |c.weights|
  {
    && d.grounds && d.score >= c.stageScores[stage - 2]
    && p.anchor > 0.0 && d.close <= TriggerAt(p.anchor, c.drops[stage - 2])
    && StageBudget(c, UpdateCap(c, p.cap, d.score), stage, p.staged) > 0.0
  }

  /** After the first leg: armed, fewer rebuys than allowed, the drop from the average, and cap left to spend. */
  predicate RebuyWanted(c: Config, d: Day, p: Snapshot)
  {
    && c.rebuyEnabled && d.grounds && d.score >= c.rebuyScore && d.reoversold
    && p.armed && p.rebuyCount < c.maxRebuy
    && d.close <= TriggerAt(p.avg, c.rebuyDrop)
    && p.cap > p.cost && HalfEvenCents(Min(p.cap - p.cost, CostOfShares(p.tp1Filled, d.close, c.buyFee))) > 0.0
  }

  /** The state in which stage `stage` is the next one. */
  predicate NextStage(c: Config, p: Snapshot, stage: nat)
    requires ValidConfig(c)
  {
    2 <= stage <= |c.weights| && p.state == StageState(stage - 1)
  }

  lemma EntryExactly(c: Config, d: Day, p: Snapshot)
    requires ValidConfig(c) && p.state.Empty?
    ensures
      var r := Decide(c, d, p);
      && (r.allowed <==> EntryWanted(c, d))
      && (r.allowed ==>
            r.action.FirstEntry? && r.stage == Some(1) && r.cap == ScoreToExposure(c, d.score)
            && r.budget == StageBudget(c, r.cap, 1, 0.0))
  {
  }

  lemma AddExactly(c: Config, d: Day, p: Snapshot, stage: nat)
    requires ValidConfig(c) && NextStage(c, p, stage)
    ensures
      var r := Decide(c, d, p);
      && (r.allowed <==> AddWanted(c, d, p, stage))
      && (r.allowed ==>
            && r.action.AddEntry? && r.stage == Some(stage) && r.cap == UpdateCap(c, p.cap, d.score)
            && r.budget == StageBudget(c, r.cap, stage, p.staged)
            && r.trigger.Some? && -0.00005 <= r.trigger.value - TriggerAt(p.anchor, c.drops[stage - 2]) <= 0.00005)
  {
  }

  lemma RebuyExactly(c: Config, d: Day, p: Snapshot)
    requires ValidConfig(c) && p.state.PartialTp1?
    ensures
      var r := Decide(c, d, p);
      && (r.allowed <==> RebuyWanted(c, d, p))
      && (r.allowed ==>
            && r.action.Rebuy? && r.cap == p.cap && -0.005 <= r.budget - Min(p.cap - p.cost, CostOfShares(p.tp1Filled, d.close, c.buyFee)) <= 0.005
            && r.trigger.Some? && -0.00005 <= r.trigger.value - TriggerAt(p.avg, c.rebuyDrop) <= 0.00005)
  {
    if p.cap <= p.cost {
      assert Max(0.0, p.cap - p.cost) == 0.0;
    }
  }

  /** A purchase is decided exactly when its state's own rule asks for it: nothing else is ever bought. */
  lemma AllowedExactly(c: Config, d: Day, p: Snapshot)
    requires ValidConfig(c)
    ensures
      Decide(c, d, p).allowed <==>
        || (p.state.Empty? && EntryWanted(c, d))
        || (exists stage :: NextStage(c, p, stage) && AddWanted(c, d, p, stage))
        || (p.state.PartialTp1? && RebuyWanted(c, d, p))
  {
    if p.state.Empty? {
      EntryExactly(c, d, p);
      assert forall stage :: !NextStage(c, p, stage);
    } else if p.state.PartialTp1? {
      RebuyExactly(c, d, p);
      assert forall stage :: !NextStage(c, p, stage);
    } else {
      OnlyNextStage(c, d, p);
    }
  }

  lemma OnlyNextStage(c: Config, d: Day, p: Snapshot)
    requires ValidConfig(c) && !p.state.Empty? && !p.state.PartialTp1?
    ensures Decide(c, d, p).allowed <==> exists stage :: NextStage(c, p, stage) && AddWanted(c, d, p, stage)
  {
    forall stage | NextStage(c, p, stage) ensures Decide(c, d, p).allowed <==> AddWanted(c, d, p, stage) {
      AddExactly(c, d, p, stage);
    }
    if Decide(c, d, p).allowed {
      var stage := if p.state.Holding1? then 2 else if p.state.Holding2? then 3 else 4;
      assert NextStage(c, p, stage);
    }
  }

  /** One stage above the anchor's drop is refused, one below it is not: anchor 100, drop 8%, closes 100 and 90. */
  lemma TriggerExample(c: Config, d: Day, p: Snapshot)
    requires ValidConfig(c) && |c.weights| == 2 && c.drops[0] == 0.08 && p.state.Holding1? && p.anchor == 100.0
    requires d.grounds && d.score >= c.stageScores[0] && StageBudget(c, UpdateCap(c, p.cap, d.score), 2, p.staged) > 0.0
    ensures d.close == 100.0 ==> !Decide(c, d, p).allowed
    ensures d.close == 90.0 ==> Decide(c, d, p).allowed
  {
    AddExactly(c, d, p, 2);
    PricesExactly(c, 100.0, 0.08);
  }

  // ---------------------------------------------------------------- execution

  /** The open has not run away from the close, nor recovered past what triggered the order. */
  predicate PriceStands(c: Config, p: Pending, pos: Position, open: real, price: real)
  {
    && open <= ChasePrice(c, p.day.close) && price <= ChasePrice(c, p.day.close)
    && (p.decision.action.AddEntry? || p.decision.action.Rebuy? ==> p.decision.trigger.Some? ==> open <= p.decision.trigger.value)
    && (p.decision.action.AddEntry? ==> p.decision.trigger.Some? ==> price <= p.decision.trigger.value)
    && (p.decision.action.Rebuy? ==> price <= TriggerAt(pos.avg, c.rebuyDrop))
  }

  /** A pending order fills exactly when its price stands and its budget and the cash pay for one share; a rebuy needs a
      share sold by the first leg. It fills at the open with slippage. */
  lemma FillsExactly(c: Config, p: Pending, pos: Position, cash: real, today: Day, slippage: real)
    requires ValidConfig(c)
    ensures
      var price, funds := FillPrice(today, slippage), Min(p.decision.budget, cash);
      OutcomeOf(c, p, pos, cash, today, slippage).Filled? <==>
        && PriceStands(c, p, pos, today.open, price)
        && price > 0.0 && funds > 0.0 && UnitCost(price, c.buyFee) <= funds
        && (p.decision.action.Rebuy? ==> pos.tp1Filled >= 1)
  {
    var price := FillPrice(today, slippage);
    var funds := Min(p.decision.budget, cash);
    var most := if p.decision.action.Rebuy? then Some(pos.tp1Filled) else None;
    if funds > 0.0 && price > 0.0 {
      OneShareFits(funds, price, c.buyFee, most);
    }
  }

  lemma OneShareFits(funds: real, price: real, fee: real, most: Option<int>)
    requires fee >= 0.0 && funds > 0.0 && price > 0.0
    ensures OrderQuantity(funds, price, fee, most) >= 1 <==>
            UnitCost(price, fee) <= funds && (most.Some? ==> most.value >= 1)
  {
    var unit := UnitCost(price, fee);
    PositiveProduct(price, 1.0 + fee);
    FloorFits(funds, unit);
    var q := (funds / unit).Floor;
    if q >= 1 {
      TimesMono(1, q, unit);
    } else {
      TimesMono(q + 1, 1, unit);
    }
  }

  /** The remainder goes out within a cent above the exit return. */
  lemma RemainderPriceExactly(c: Config, avg: real)
    ensures Raised(avg, c.exitTarget) <= RemainderPrice(c, avg) < Raised(avg, c.exitTarget) + 0.01
  {
  }

  /** The rate of a leg is its base, raised to the multiple of the range where that counts and is higher. */
  lemma LegRateExactly(c: Config, base: real, multiplier: real, atr: real)
    ensures LegRate(c, base, multiplier, atr) == (if c.useAtr && multiplier * atr > base then multiplier * atr else base)
  {
  }
}
