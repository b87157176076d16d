/** What each capital operation does exactly: the budget a recording or a flow leaves, what a change, a launch,
    a ramp check and a release do, and when they refuse. */
module CapitalRules {
  import opened Numeric
  import opened Results
  import opened Capital
  import opened CapitalProofs

  // ---------------------------------------------------------------- the risk budget

  /** The largest amount within both bounds. */
  predicate LargestWithin(amount: real, a: real, b: real)
  {
    amount <= a && amount <= b && (amount == a || amount == b)
  }

  /** A recording leaves the largest budget within the equity and the principal with three quarters of the gain. */
  lemma RecordedBudgetExactly(s: Account)
    requires s.effective >= 0.0
    ensures
      var t := RecordEquity(s);
      && t == s.(book := s.book.(hwm := t.book.hwm, risk := t.book.risk)) && t.book.risk.Some? && t.book.hwm.Some?
      && LargestWithin(t.book.risk.value, Max(0.0, s.effective + s.outside.profit), t.effective + 0.75 * Gain(t))
  {
  }

  /** Right after a recording, in any run: the budget is the equity, or the principal with three quarters of the peak
      profit, whichever is less. */
  lemma RecordedBudgetFollowsThePeak(s: Account, es: seq<Event>)
    requires Sound(s) && s.launched
    ensures
      var t := Run(s, es + [Record]);
      && t.book.risk.Some?
      && LargestWithin(t.book.risk.value, Max(0.0, t.effective + t.outside.profit),
                       t.effective + 0.75 * PeakProfit(s, es + [Record]))
  {
    RunMore(s, es, Record);
    RunKeepsSound(s, es);
    GainIsPeakProfit(s, es);
    GainIsPeakProfit(s, es + [Record]);
    RecordedBudgetExactly(Run(s, es));
  }

  /** Principal 5000 with no gain yet and 2000 of profit: 6500 may be risked. */
  lemma ReinvestmentExample(s: Account)
    requires s.effective == 5000.0 && s.book.hwm == Some(5000.0) && s.outside.profit == 2000.0
    ensures RecordEquity(s).book.hwm == Some(7000.0) && RecordEquity(s).book.risk == Some(6500.0)
  {
  }

  /** The equity a flow reckons with: a loss beyond the principal counts as none left. */
  function FlowEquity(s: Account, effective: real): real
  {
    Max(0.0, Max(0.0, s.effective + s.outside.profit) + effective - s.effective)
  }

  /** A flow leaves the largest budget within its equity and the new principal with three quarters of the gain. */
  lemma FlowBudgetExactly(s: Account, principal: real)
    requires IsCents(principal) && principal >= 0.0 && s.effective >= 0.0 && principal != s.effective
    requires (s.launched && s.effective > 0.0) || s.outside.profit == 0.0
    requires ApplyFlow(s, principal).Ok?
    ensures
      var t := ApplyFlow(s, principal).value;
      && t.effective == principal && t.book.risk.Some?
      && LargestWithin(t.book.risk.value, FlowEquity(s, principal), principal + 0.75 * Gain(t))
  {
    CentsFixed(principal);
  }

  /** That equity is the one marked afterwards, except for a deposit onto an account that lost more than it had. */
  lemma FlowEquityIsMarkedExactly(s: Account, principal: real)
    requires IsCents(principal) && principal >= 0.0 && ApplyFlow(s, principal).Ok?
    ensures FlowEquity(s, principal) == Marked(ApplyFlow(s, principal).value) <==>
            s.effective + s.outside.profit >= 0.0 || principal <= s.effective
  {
    CentsFixed(principal);
  }

  /** A flow is booked at the equity of one unit before it. */
  lemma FlowIsPricedAtUnitValue(s: Account, principal: real)
    requires Solvent(s) && IsCents(principal) && principal >= 0.0 && principal != s.effective
    requires ApplyFlow(s, principal).Ok?
    ensures ApplyFlow(s, principal).value.book.nav == (s.effective + s.outside.profit) / s.book.units
  {
    CentsFixed(principal);
    NavPositive(Marked(s), s.book.units);
  }

  /** A flow drops the target quantities, and no stage advances before they are built again. */
  lemma FlowDropsTheTargets(s: Account, principal: real)
    requires ApplyFlow(s, principal).Ok? && ApplyFlow(s, principal).value != s
    ensures
      var t := ApplyFlow(s, principal).value;
      && t.outside == s.outside.(generation := false) && t.ramp == s.ramp && t.gates == s.gates
      && AdvanceRamp(t).Ok? && AdvanceRamp(t).value.effective == t.effective && AdvanceRamp(t).value.ramp.stage == t.ramp.stage
  {
  }

  // ---------------------------------------------------------------- the operator's figures

  /** Base capital is cut to whole cents and must lie between 100 and ten million. */
  lemma MoneyAcceptedExactly(amount: real)
    requires amount >= 0.0
    ensures NormalizeMoney(amount).Ok? <==> 100.0 <= amount < 10000000.01
    ensures NormalizeMoney(amount).Ok? ==>
              var cents := NormalizeMoney(amount).value; IsCents(cents) && cents <= amount < cents + 0.01
  {
    CentsRounding(amount);
    if amount >= 100.0 {
      TruncAtLeast(100.0, amount);
    }
    var n := (TruncCents(amount) * 100.0).Floor;
    if amount >= 10000000.01 {
      TruncAtLeast(10000000.01, amount);
    } else {
      assert n as real < 1000000001.0;
      assert n <= 1000000000;
    }
  }

  /** A ratio must lie between one and a hundred percent and is rounded to a hundredth of one. */
  lemma RatioAcceptedExactly(percent: real)
    ensures NormalizeRatio(percent).Ok? <==> 1.0 <= percent <= 100.0
    ensures NormalizeRatio(percent).Ok? ==> -0.00005 <= NormalizeRatio(percent).value - percent / 100.0 <= 0.00005
  {
  }

  // ---------------------------------------------------------------- a live change

  /** What an accepted live change leaves: the new figures, their floored product as target, BUY closed by three keys;
      the cut principal when the target fell below it, half of what the target gained, or the same. */
  lemma LiveChangeExactly(s: Account, base: Option<real>, ratio: Option<real>)
    requires Sound(s) && s.launched && SetConfig(s, base, ratio).Ok?
    requires base.Some? ==> MIN_BASE <= base.value <= MAX_BASE
    requires ratio.Some? ==> MIN_RATIO <= ratio.value <= MAX_RATIO
    ensures
      var t := SetConfig(s, base, ratio).value;
      && t.base == (if base.Some? then base else s.base) && t.ratio == (if ratio.Some? then ratio else s.ratio)
      && t.base.Some? && t.ratio.Some? && t.target == Share(t.base.value, t.ratio.value)
      && t.gates.quarantine && t.gates.halted && t.gates.state == AutoQuarantine
      && t.gates.latched == s.gates.latched && t.gates.safeMode == s.gates.safeMode
      && (t.target == s.target ==> t.effective == s.effective && t.ramp == s.ramp)
      && (t.target < s.effective ==> t.effective == t.target && t.ramp.stage == 0)
      && (s.effective <= t.target < s.target ==> t.effective == s.effective && t.ramp.stage == 0)
      && (t.target > s.target ==>
            && t.effective == StagePrincipal(s.effective, t.target, 1)
            && t.ramp == Ramp(1, s.effective, t.target, None, s.outside.today, None))
  {
    var b, r := if base.Some? then base else s.base, if ratio.Some? then ratio else s.ratio;
    var u := s.(base := b, ratio := r, target := TargetPrincipal(b, r), untouched := false);
    TargetOk(u);
    if u.target < s.effective {
      CentsFixed(u.target);
    } else if u.target > s.target {
      StageBounds(s.effective, u.target, 1);
      CentsFixed(StagePrincipal(s.effective, u.target, 1));
    }
  }

  /** Before a launch a change moves the figures and the target only, and is refused by no state. */
  lemma IdleChangeExactly(s: Account, base: Option<real>, ratio: Option<real>)
    requires Sound(s) && !s.launched
    requires base.Some? ==> MIN_BASE <= base.value <= MAX_BASE
    requires ratio.Some? ==> MIN_RATIO <= ratio.value <= MAX_RATIO
    ensures
      var r := SetConfig(s, base, ratio);
      && r.Ok?
      && var t := r.value;
         && t.base == (if base.Some? then base else s.base) && t.ratio == (if ratio.Some? then ratio else s.ratio)
         && t.target == (if t.base.Some? && t.ratio.Some? then Share(t.base.value, t.ratio.value) else 0.0)
         && t.gates == s.gates.(state := if t.base.Some? && t.ratio.Some? then Ready else Setup)
         && t.effective == s.effective && t.book == s.book && t.ramp == s.ramp && !t.launched
  {
  }

  // ---------------------------------------------------------------- launch

  /** A first launch fails exactly without a configuration, on open orders, a failed preflight or safe mode; a repeated
      one changes nothing. A launch opens no BUY by itself. */
  lemma LaunchExactly(s: Account, clean: bool)
    requires Sound(s)
    ensures !s.launched ==>
              (Authorize(s, clean).Err? <==>
                 s.base.None? || s.ratio.None? || s.outside.openOrders || !clean || s.gates.safeMode)
    ensures s.launched && Authorize(s, clean).Ok? ==> Authorize(s, clean).value == s
    ensures !s.launched && Authorize(s, clean).Ok? ==>
              var t := Authorize(s, clean).value;
              && t.launched && t.ramp == Ramp(1, 0.0, s.target, None, s.outside.today, None)
              && t.gates == s.gates.(quarantine := true, state := StartupQuarantine) && t.target == s.target
  {
    if !s.launched && Configured(s) {
      TargetOk(s);
      StageBounds(0.0, s.target, 1);
      assert StagePrincipal(0.0, s.target, 1) == TruncCents(s.target * 0.5);
      CentsFixed(TruncCents(s.target * 0.5));
    }
  }

  // ---------------------------------------------------------------- the ramp check

  predicate BuyOpen(s: Account)
  {
    && !s.gates.latched && !s.gates.quarantine && !s.gates.halted && !s.gates.safeMode && s.gates.state == Running
    && !s.outside.openOrders
  }

  /** This stage's targets are held, by an AUTO fill of this stage, and for the first pilot by a filled cycle. */
  predicate Evidence(s: Account)
  {
    && s.outside.generation && s.outside.targetsMet && s.ramp.autoFill.Some?
    && (s.ramp.stage == 1 && s.ramp.base == 0.0 ==> s.outside.cycleFilled)
  }

  /** The ramp check is never refused. Behind a shut gate it does nothing; without evidence it forgets the fill date;
      the last stage ends the ramp; the others wait three sessions from the first sight of the evidence and then
      open the next part of the target. */
  lemma RampCheckExactly(s: Account)
    requires Sound(s)
    ensures AdvanceRamp(s).Ok?
    ensures
      var t := AdvanceRamp(s).value;
      if !s.launched || s.ramp.stage == 0 || !BuyOpen(s) then t == s
      else if !Evidence(s) then t == s.(ramp := s.ramp.(filledOn := None))
      else if s.ramp.stage == 3 then t == s.(ramp := s.ramp.(stage := 0, filledOn := None, autoFill := None))
      else if s.ramp.filledOn.None? then t == s.(ramp := s.ramp.(filledOn := Some(s.outside.today)))
      else if s.outside.today < s.ramp.filledOn.value + 3 then t == s
      else
        && t.ramp == Ramp(s.ramp.stage + 1, s.ramp.base, s.target, None, s.outside.today, None)
        && t.effective == StagePrincipal(s.ramp.base, s.target, s.ramp.stage + 1)
        && t.gates == s.gates
  {
    if s.launched && 1 <= s.ramp.stage <= 2 && s.ramp.filledOn.Some? && s.outside.today >= s.ramp.filledOn.value + 3 {
      Promotes(s);
    }
  }

  lemma Promotes(s: Account)
    requires Sound(s) && s.launched && 1 <= s.ramp.stage <= 2
    ensures
      var next := StagePrincipal(s.ramp.base, s.ramp.target, s.ramp.stage + 1);
      var r := ApplyFlow(Promoted(s), next);
      r.Ok? && r.value.ramp == Promoted(s).ramp && r.value.gates == s.gates && r.value.effective == next
  {
    TargetOk(s);
    var next := StagePrincipal(s.ramp.base, s.ramp.target, s.ramp.stage + 1);
    StageBounds(s.ramp.base, s.ramp.target, s.ramp.stage);
    StageBounds(s.ramp.base, s.ramp.target, s.ramp.stage + 1);
    StagesRise(s.ramp.base, s.ramp.target, s.ramp.stage);
    CentsFixed(next);
    FlowRefusedExactly(Promoted(s), next);
    DepositNeverOverdraws(Promoted(s), next);
  }

  lemma StagesRise(base: real, target: real, stage: nat)
    requires 1 <= stage <= 2 && 0.0 <= base < target
    ensures StagePrincipal(base, target, stage) <= StagePrincipal(base, target, stage + 1)
  {
    var x, y := base + (target - base) * Fraction(stage), base + (target - base) * Fraction(stage + 1);
    assert 0.0 <= x <= y;
    CentsRounding(x);
    TruncAtLeast(TruncCents(x), y);
  }

  // ---------------------------------------------------------------- the guard

  /** The guard stops BUY exactly on a missing figure, base or ratio out of range, a target that is not their floored
      product, a principal that is not positive or above it, a mark below the principal, and a risk budget below zero
      or more than a cent past principal and three quarters of the gain. */
  lemma GuardRefusesExactly(s: Account)
    ensures
      !GuardAccepts(s) <==>
        || s.base.None? || s.ratio.None? || s.book.hwm.None? || s.book.risk.None?
        || s.base.value < 100.0 || s.base.value > 10000000.0 || s.ratio.value < 0.01 || s.ratio.value > 1.0
        || s.target != Share(s.base.value, s.ratio.value)
        || s.effective <= 0.0 || s.effective > s.target
        || s.book.hwm.value < s.effective
        || s.book.risk.value < 0.0
        || s.book.risk.value > s.effective + 0.75 * (s.book.hwm.value - s.effective) + 0.01
  {
    if s.base.Some? && s.ratio.Some? {
      GuardAgrees(s.base.value, s.ratio.value);
    }
  }

  // ---------------------------------------------------------------- release

  /** A release opens BUY exactly on a launched account whose contract holds, with no latch, no safe mode, no open
      order and everything else ready; otherwise no gate opens, and over a latch or safe mode the account leaves RUNNING. */
  lemma ReleaseExactly(s: Account, ready: bool)
    requires Sound(s)
    ensures
      var t := Released(s, ready);
      && t == s.(gates := t.gates) && t.gates.latched == s.gates.latched && t.gates.safeMode == s.gates.safeMode
      && (if s.launched && !s.gates.latched && !s.gates.safeMode && ready && !s.outside.openOrders then
            !t.gates.halted && !t.gates.quarantine && t.gates.state == Running
          else t.gates.halted == s.gates.halted && t.gates.quarantine == s.gates.quarantine
               && (t.gates.state == Running ==> s.gates.state == Running))
      && (s.launched && (s.gates.latched || s.gates.safeMode) ==> t.gates.state != Running)
  {
  }
}
