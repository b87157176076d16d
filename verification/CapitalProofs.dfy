/** What every reachable account satisfies, and what capital flows cannot do to performance. */
module CapitalProofs {
  import opened Numeric
  import opened Results
  import opened Capital

  // ---------------------------------------------------------------- amounts

  lemma ProductAtLeast(a: real, b: real, x: real, y: real)
    requires 0.0 <= x <= a && 0.0 <= y <= b
    ensures x * y <= a * b
  {
    assert x * y <= a * y <= a * b;
  }

  lemma TargetIsWholeCents(base: real, ratio: real)
    requires MIN_BASE <= base && MIN_RATIO <= ratio
    ensures IsCents(Share(base, ratio)) && Share(base, ratio) >= 1.0
  {
    ProductAtLeast(base, ratio, MIN_BASE, MIN_RATIO);
    CentsRounding(base * ratio);
    TruncAtLeast(1.0, base * ratio);
  }

  /** Stages 1 and 2 stop short of the target; stage 3 reaches it. */
  lemma StageBounds(base: real, target: real, stage: nat)
    requires 1 <= stage <= 3 && 0.0 <= base < target && target >= 1.0
    requires IsCents(base) && IsCents(target)
    ensures base <= StagePrincipal(base, target, stage) <= target
    ensures IsCents(StagePrincipal(base, target, stage)) && StagePrincipal(base, target, stage) > 0.0
    ensures stage < 3 <==> StagePrincipal(base, target, stage) < target
  {
    var x := base + (target - base) * Fraction(stage);
    assert 0.5 <= base + (target - base) * 0.5 <= x <= target;
    CentsRounding(x);
    TruncAtLeast(base, x);
    CentsFixed(target);
  }

  /** The stages open half, three quarters and all of what the target adds, cut to whole cents. */
  lemma StageFractions(base: real, target: real)
    requires IsCents(target)
    ensures StagePrincipal(base, target, 1) == TruncCents((base + target) / 2.0)
    ensures StagePrincipal(base, target, 2) == TruncCents((base + 3.0 * target) / 4.0)
    ensures StagePrincipal(base, target, 3) == target
  {
    assert base + (target - base) * 0.5 == (base + target) / 2.0;
    assert base + (target - base) * 0.75 == (base + 3.0 * target) / 4.0;
    CentsFixed(target);
  }

  /** The target is the product of base and ratio, cut to whole cents. */
  lemma ShareIsFloored(base: real, ratio: real)
    requires base >= 0.0 && ratio >= 0.0
    ensures IsCents(Share(base, ratio)) && Share(base, ratio) <= base * ratio < Share(base, ratio) + 0.01
  {
    ProductAtLeast(base, ratio, 0.0, 0.0);
    CentsRounding(base * ratio);
  }

  lemma TargetOk(s: Account)
    requires ConfigOk(s) && Configured(s)
    ensures IsCents(s.target) && s.target >= 1.0
  {
    TargetIsWholeCents(s.base.value, s.ratio.value);
  }

  // ---------------------------------------------------------------- one flow

  /** What a flow leaves alone. */
  predicate OnlyMoney(s: Account, t: Account)
  {
    t == s.(effective := t.effective, book := t.book, outside := s.outside.(generation := t.outside.generation))
  }

  lemma FlowKeepsMoney(s: Account, principal: real)
    requires Configured(s) && s.launched
    requires IsCents(principal) && 0.0 < principal <= s.target
    requires s.effective == 0.0 || (s.effective > 0.0 && BookOk(s.effective, s.book))
    requires ApplyFlow(s, principal).Ok?
    ensures
      var t := ApplyFlow(s, principal).value;
      MoneyOk(t) && t.effective == principal && OnlyMoney(s, t)
  {
    CentsFixed(principal);
  }

  /** A withdrawal worth more than the units there are, by more than a millionth of a unit: past the
      equity when units and equity are positive, else at the fallback unit price. */
  predicate Overdrawn(effective: real, principal: real, equity: real, units: real, nav: real)
  {
    if units > 0.0 && equity > 0.0 then (effective - principal - equity) * units > 0.000001 * equity
    else effective - principal > (units + 0.000001) * (if units > 0.0 || nav <= 0.0 then 1.0 else nav)
  }

  predicate Overdraws(s: Account, principal: real)
  {
    Overdrawn(s.effective, principal, Marked(s), s.book.units, s.book.nav)
  }

  /** A live flow fails exactly when it withdraws too much, at any equity and any number of units. */
  lemma FlowRefusedExactly(s: Account, principal: real)
    requires s.launched && s.effective > 0.0 && s.book.units >= 0.0
    requires IsCents(principal) && principal >= 0.0
    ensures ApplyFlow(s, principal).Err? <==> Overdraws(s, principal)
  {
    CentsFixed(principal);
    assert Max(0.0, HalfEvenCents(principal)) == principal;
    var e, u := Marked(s), s.book.units;
    if e > 0.0 && u > 0.0 {
      NavPositive(e, u);
      assert FlowNav(s) == e / u;
      UnitsBelow(e, u, s.effective, principal);
    } else {
      if u > 0.0 {
        ZeroNav(u);
      }
      var price := if u > 0.0 || s.book.nav <= 0.0 then 1.0 else s.book.nav;
      assert FlowNav(s) == price > 0.0;
      UnitsAtPrice(u, price, s.effective, principal);
    }
  }

  lemma ZeroNav(u: real)
    requires u > 0.0
    ensures 0.0 / u == 0.0
  {
  }

  lemma UnitsAtPrice(u: real, price: real, effective: real, principal: real)
    requires price > 0.0
    ensures u + (principal - effective) / price < -0.000001 <==> effective - principal > (u + 0.000001) * price
  {
    var d := (principal - effective) / price;
    assert d * price == principal - effective;
    SignByProduct(u + d + 0.000001, price);
    assert (u + d + 0.000001) * price == (u + 0.000001) * price + d * price;
  }

  lemma UnitsBelow(e: real, u: real, effective: real, principal: real)
    requires e > 0.0 && u > 0.0
    ensures u + (principal - effective) / (e / u) < -0.000001 <==>
            (effective - principal - e) * u > 0.000001 * e
  {
    var delta := principal - effective;
    UnitsAfter(e, u, delta);
    var after := u + delta / (e / u);
    SignByProduct(after + 0.000001, e);
    assert (after + 0.000001) * e == (e + delta) * u + 0.000001 * e;
  }

  lemma UnitsStayShared(e: real, u: real, delta: real)
    requires e > 0.0 && u > 0.0 && e + delta >= 0.0
    ensures (e + delta) * u == e * Max(0.0, u + delta / (e / u))
  {
    UnitsAfter(e, u, delta);
    ProductAtLeast(e + delta, u, 0.0, 0.0);
    SignByProduct(u + delta / (e / u), e);
  }

  lemma DepositNeverOverdraws(s: Account, principal: real)
    requires principal >= s.effective && s.book.units >= 0.0
    ensures !Overdraws(s, principal)
  {
    var e, u := Marked(s), s.book.units;
    if e > 0.0 && u > 0.0 {
      ProductAtLeast(principal + e - s.effective, u, 0.0, 0.0);
    } else {
      ProductAtLeast(u + 0.000001, if u > 0.0 || s.book.nav <= 0.0 then 1.0 else s.book.nav, 0.0, 0.0);
    }
  }

  lemma SignByProduct(x: real, e: real)
    requires e > 0.0
    ensures x < 0.0 <==> x * e < 0.0
  {
  }

  lemma NavPositive(e: real, u: real)
    requires e > 0.0 && u > 0.0
    ensures e / u > 0.0
  {
    assert (e / u) * u == e;
  }

  /** Units bought at the going rate leave equity per unit where it was. */
  lemma UnitsAfter(e: real, u: real, delta: real)
    requires e > 0.0 && u > 0.0
    ensures e / u > 0.0 && (u + delta / (e / u)) * e == (e + delta) * u
  {
    NavPositive(e, u);
    var n := e / u;
    assert n * u == e;
    var d := delta / n;
    assert d * n == delta;
    assert d * e == d * (n * u) == (d * n) * u;
    assert (u + d) * e == u * e + delta * u;
  }

  // ---------------------------------------------------------------- every operation keeps the account sound

  lemma NormalizedInRange(amount: real, percent: real)
    ensures NormalizeMoney(amount).Ok? ==> MIN_BASE <= NormalizeMoney(amount).value <= MAX_BASE
    ensures NormalizeRatio(percent).Ok? ==> MIN_RATIO <= NormalizeRatio(percent).value <= MAX_RATIO
  {
    var x := percent / 100.0 * 10000.0;
    assert MIN_RATIO <= percent / 100.0 <= MAX_RATIO ==> 100 <= HalfEvenInt(x) <= 10000;
  }

  lemma FlowKeepsSound(s: Account, principal: real)
    requires s.launched && Configured(s) && ConfigOk(s) && PaceOk(s) && RampOk(s.(effective := principal))
    requires IsCents(principal) && 0.0 < principal <= s.target
    requires s.effective == 0.0 || (s.effective > 0.0 && BookOk(s.effective, s.book))
    requires ApplyFlow(s, principal).Ok?
    ensures Sound(ApplyFlow(s, principal).value)
    ensures OnlyMoney(s, ApplyFlow(s, principal).value)
  {
    FlowKeepsMoney(s, principal);
  }

  lemma RetargetKeepsSound(s: Account, t: Account)
    requires Sound(s) && s.launched && Configured(t) && ConfigOk(t)
    requires t == s.(base := t.base, ratio := t.ratio, target := t.target, untouched := false)
    requires t.target > s.target ==> s.ramp.stage == 0
    requires Retarget(t, s.target).Ok?
    ensures Sound(Closed(s, Retarget(t, s.target).value))
  {
    TargetOk(s);
    TargetOk(t);
    if t.target < t.effective {
      FlowKeepsSound(t.(ramp := t.ramp.(stage := 0, base := t.target, target := t.target)), t.target);
    } else if t.target > s.target {
      StageBounds(s.effective, t.target, 1);
      IncreaseKeepsSound(t, StagePrincipal(t.effective, t.target, 1));
    }
  }

  lemma IncreaseKeepsSound(t: Account, first: real)
    requires t.launched && Configured(t) && ConfigOk(t) && !t.untouched
    requires MoneyOk(t) && t.effective < t.target && RampOk(t.(ramp := t.ramp.(stage := 0)))
    requires first == StagePrincipal(t.effective, t.target, 1) && IsCents(first) && 0.0 < first <= t.target
    ensures
      var u := ApplyFlow(Reopened(t), first);
      u.Ok? ==> Sound(u.value.(ramp := u.value.ramp.(autoFill := None))) && OnlyMoney(Reopened(t), u.value)
  {
    if ApplyFlow(Reopened(t), first).Ok? {
      FlowKeepsMoney(Reopened(t), first);
    }
  }

  lemma ConfigKeepsSound(s: Account, base: Option<real>, ratio: Option<real>)
    requires Sound(s)
    requires base.Some? ==> MIN_BASE <= base.value <= MAX_BASE
    requires ratio.Some? ==> MIN_RATIO <= ratio.value <= MAX_RATIO
    requires SetConfig(s, base, ratio).Ok?
    ensures Sound(SetConfig(s, base, ratio).value)
  {
    var b := if base.Some? then base else s.base;
    var r := if ratio.Some? then ratio else s.ratio;
    if s.launched {
      RetargetKeepsSound(s, s.(base := b, ratio := r, target := TargetPrincipal(b, r), untouched := false));
    }
  }

  lemma LaunchKeepsSound(s: Account, clean: bool)
    requires Sound(s) && !s.launched
    requires Authorize(s, clean).Ok?
    ensures Sound(Authorize(s, clean).value)
    ensures Authorize(s, clean).value.launched
  {
    TargetOk(s);
    StageBounds(0.0, s.target, 1);
    assert StagePrincipal(0.0, s.target, 1) == TruncCents(s.target * Fraction(1));
    FlowKeepsSound(Authorized(s), StagePrincipal(0.0, s.target, 1));
  }

  lemma PromotionKeepsSound(s: Account)
    requires Sound(s) && s.launched && 1 <= s.ramp.stage <= 2
    requires SessionsSince(s, s.ramp.startedOn) >= STAGE_SESSIONS
    ensures
      var t := ApplyFlow(Promoted(s), StagePrincipal(s.ramp.base, s.ramp.target, s.ramp.stage + 1));
      t.Ok? ==> Sound(t.value)
  {
    TargetOk(s);
    var next := StagePrincipal(s.ramp.base, s.ramp.target, s.ramp.stage + 1);
    StageBounds(s.ramp.base, s.ramp.target, s.ramp.stage + 1);
    if ApplyFlow(Promoted(s), next).Ok? {
      FlowKeepsSound(Promoted(s), next);
    }
  }

  lemma AdvanceKeepsSound(s: Account)
    requires Sound(s) && AdvanceRamp(s).Ok?
    ensures Sound(AdvanceRamp(s).value)
  {
    if s.launched && s.ramp.stage > 0 && !RampGated(s) && StageFilled(s) && s.ramp.stage < 3 {
      var on := if s.ramp.filledOn.Some? then s.ramp.filledOn.value else s.outside.today;
      if SessionsSince(s, on) >= STAGE_SESSIONS {
        PromotionKeepsSound(s);
      }
    }
  }

  lemma SetBaseKeepsSound(s: Account, amount: real)
    requires Sound(s)
    ensures Sound(Step(s, SetBase(amount)))
  {
    NormalizedInRange(amount, 0.0);
    var b := NormalizeMoney(amount);
    if b.Ok? && SetConfig(s, Some(b.value), None).Ok? {
      ConfigKeepsSound(s, Some(b.value), None);
    }
  }

  lemma SetRatioKeepsSound(s: Account, percent: real)
    requires Sound(s)
    ensures Sound(Step(s, SetRatio(percent)))
  {
    NormalizedInRange(0.0, percent);
    var r := NormalizeRatio(percent);
    if r.Ok? && SetConfig(s, None, Some(r.value)).Ok? {
      ConfigKeepsSound(s, None, Some(r.value));
    }
  }

  lemma RecordKeepsSound(s: Account)
    requires Sound(s)
    ensures Sound(RecordEquity(s))
  {
  }

  lemma GatesKeepSound(s: Account, e: Event)
    requires Sound(s) && (e.Quarantine? || e.Release? || e.OperatorHalt? || e.SafeMode?)
    ensures Sound(Step(s, e))
  {
    assert Step(s, e) == s.(gates := Step(s, e).gates);
  }

  lemma OutsideKeepsSound(s: Account, e: Event)
    requires Sound(s)
    requires e.Market? || e.Orders? || e.Targets? || e.AutoFill? || e.CycleFilled? || e.NextSession?
    ensures Sound(Step(s, e))
  {
    var t := Step(s, e);
    assert t == s.(outside := t.outside, ramp := s.ramp.(autoFill := t.ramp.autoFill));
  }

  lemma StepKeepsSound(s: Account, e: Event)
    requires Sound(s)
    ensures Sound(Step(s, e))
  {
    match e
    case SetBase(v) => SetBaseKeepsSound(s, v);
    case SetRatio(p) => SetRatioKeepsSound(s, p);
    case Launch(clean) => if !s.launched && Authorize(s, clean).Ok? { LaunchKeepsSound(s, clean); }
    case TryAdvance => if AdvanceRamp(s).Ok? { AdvanceKeepsSound(s); }
    case Record => RecordKeepsSound(s);
    case Quarantine => GatesKeepSound(s, e);
    case Release(_) => GatesKeepSound(s, e);
    case OperatorHalt(_) => GatesKeepSound(s, e);
    case SafeMode(_) => GatesKeepSound(s, e);
    case _ => OutsideKeepsSound(s, e);
  }

  lemma {:induction false} RunKeepsSound(s: Account, es: seq<Event>)
    requires Sound(s)
    ensures Sound(Run(s, es))
  {
    if |es| > 0 {
      RunKeepsSound(s, es[..|es| - 1]);
      StepKeepsSound(Run(s, es[..|es| - 1]), es[|es| - 1]);
    }
  }

  // ---------------------------------------------------------------- what holds in every run

  /** Runs may start on an empty store, or on one that still carries figures of an older, fixed-capital ledger. */
  lemma StartsSound(today: int, hwm: Option<real>, risk: Option<real>)
    ensures Sound(Bootstrapped(today))
    ensures Sound(Bootstrapped(today).(book := Book(0.0, 1.0, hwm, risk)))
  {
  }

  lemma GuardAgrees(base: real, ratio: real)
    ensures GuardTarget(base, ratio) == Share(base, ratio)
  {
  }

  /** The guard's own arithmetic accepts every state the capital operations can reach after a launch. */
  lemma GuardAcceptsEveryLaunchedAccount(start: Account, es: seq<Event>)
    requires Sound(start)
    ensures
      var s := Run(start, es);
      s.launched ==> GuardAccepts(s) && ContractHolds(s)
  {
    RunKeepsSound(start, es);
    var s := Run(start, es);
    if s.launched {
      GuardAgrees(s.base.value, s.ratio.value);
    }
  }

  /** A launch opens the books afresh, whatever mark and budget the store carried before. */
  lemma LaunchDropsTheOldMark(s: Account, clean: bool)
    requires Sound(s) && !s.launched && Authorize(s, clean).Ok?
    ensures
      var t := Authorize(s, clean).value;
      && t.effective == TruncCents(s.target * 0.5) > 0.0
      && t.book == Book(t.effective, 1.0, Some(t.effective), Some(t.effective)) && Gain(t) == 0.0
  {
    TargetOk(s);
    StageBounds(0.0, s.target, 1);
    assert StagePrincipal(0.0, s.target, 1) == TruncCents(s.target * 0.5);
    CentsFixed(TruncCents(s.target * 0.5));
  }

  /** Principal follows the 50/75/100 formula on a ramp aimed at the current target; only stage 3 fills it. */
  lemma StagesFollowTheFormula(start: Account, es: seq<Event>)
    requires Sound(start)
    ensures
      var s := Run(start, es);
      s.ramp.stage > 0 ==>
        && s.ramp.target == s.target
        && 1 <= s.ramp.stage <= 3
        && s.effective == StagePrincipal(s.ramp.base, s.target, s.ramp.stage)
        && s.ramp.base <= s.effective
        && (s.effective == s.target <==> s.ramp.stage == 3)
        && s.outside.today >= s.openedOn + 3 * (s.ramp.stage - 1)
  {
    RunKeepsSound(start, es);
    var s := Run(start, es);
    if s.ramp.stage > 0 {
      TargetOk(s);
      StageBounds(s.ramp.base, s.ramp.target, s.ramp.stage);
    }
  }

  /** With the configuration left alone, the whole target is open no sooner than six sessions after launch. */
  lemma FullPrincipalTakesSixSessions(start: Account, es: seq<Event>)
    requires Sound(start)
    ensures
      var s := Run(start, es);
      s.launched && s.untouched && s.effective == s.target ==>
        s.outside.today >= s.launchedOn + 6
  {
    RunKeepsSound(start, es);
    StagesFollowTheFormula(start, es);
  }

  /** Principal rises inside a ramp only on three sessions past a fill of this very stage. */
  lemma AdvanceNeedsThisStagesFill(s: Account)
    requires Sound(s) && AdvanceRamp(s).Ok?
    requires AdvanceRamp(s).value.effective != s.effective
    ensures s.launched && 1 <= s.ramp.stage < 3
    ensures !s.gates.latched && !s.gates.quarantine && !s.gates.halted && !s.gates.safeMode && s.gates.state == Running
    ensures !s.outside.openOrders && s.outside.targetsMet
    ensures s.ramp.filledOn.Some? && s.outside.today >= s.ramp.filledOn.value + 3
    ensures s.ramp.startedOn <= s.ramp.filledOn.value
    ensures s.ramp.autoFill.Some? && s.ramp.startedOn <= s.ramp.autoFill.value <= s.outside.today
    ensures AdvanceRamp(s).value.effective > s.effective ==> AdvanceRamp(s).value.ramp.stage == s.ramp.stage + 1
    ensures AdvanceRamp(s).value.ramp.autoFill.None?
  {
  }

  // ---------------------------------------------------------------- when a live change is refused

  predicate Refused(s: Account, target: real)
  {
    || s.outside.openOrders
    || (target > s.target && s.ramp.stage != 0)
    || (target < s.effective && Overdraws(s, target))
  }

  /** A live change fails on open orders, on growth inside a running ramp, or on withdrawing too much; never on the contract check that follows it. */
  lemma ConfigRefusedExactly(s: Account, base: Option<real>, ratio: Option<real>)
    requires Sound(s) && s.launched
    requires base.Some? ==> MIN_BASE <= base.value <= MAX_BASE
    requires ratio.Some? ==> MIN_RATIO <= ratio.value <= MAX_RATIO
    ensures
      var target := TargetPrincipal(if base.Some? then base else s.base, if ratio.Some? then ratio else s.ratio);
      SetConfig(s, base, ratio).Err? <==> Refused(s, target)
  {
    var b := if base.Some? then base else s.base;
    var r := if ratio.Some? then ratio else s.ratio;
    var t := s.(base := b, ratio := r, target := TargetPrincipal(b, r), untouched := false);
    TargetOk(t);
    if !s.outside.openOrders && !(t.target > s.target && s.ramp.stage != 0) {
      RetargetRefusedExactly(s, t);
      if Retarget(t, s.target).Ok? {
        RetargetKeepsSound(s, t);
      }
    }
  }

  lemma RetargetRefusedExactly(s: Account, t: Account)
    requires Sound(s) && s.launched
    requires Configured(t) && ConfigOk(t) && IsCents(t.target) && t.target >= 1.0
    requires t == s.(base := t.base, ratio := t.ratio, target := t.target, untouched := false)
    ensures Retarget(t, s.target).Err? <==>
            t.target < s.effective && Overdraws(s, t.target)
  {
    var u := t.(ramp := t.ramp.(stage := 0, base := t.target, target := t.target));
    assert Marked(t) == Marked(s) == Marked(u) == Marked(Reopened(t));
    if t.target == s.target {
    } else if t.target < t.effective {
      FlowRefusedExactly(u, t.target);
    } else if t.target > s.target {
      StageBounds(t.effective, t.target, 1);
      var first := StagePrincipal(t.effective, t.target, 1);
      FlowRefusedExactly(Reopened(t), first);
      DepositNeverOverdraws(Reopened(t), first);
    }
  }

  /** A refused change undoes its own quarantine: afterwards BUY is quarantined exactly when the change
      was accepted, or when it was quarantined before. */
  lemma QuarantinedAfterAChangeExactly(s: Account, base: Option<real>, ratio: Option<real>)
    requires Sound(s) && s.launched
    requires base.Some? ==> MIN_BASE <= base.value <= MAX_BASE
    requires ratio.Some? ==> MIN_RATIO <= ratio.value <= MAX_RATIO
    ensures
      var target := TargetPrincipal(if base.Some? then base else s.base, if ratio.Some? then ratio else s.ratio);
      OrKeep(s, SetConfig(s, base, ratio)).gates.quarantine <==> s.gates.quarantine || !Refused(s, target)
  {
    ConfigRefusedExactly(s, base, ratio);
  }

  lemma RunMore(s: Account, es: seq<Event>, e: Event)
    ensures Run(s, es + [e]) == Step(Run(s, es), e)
  {
    assert (es + [e])[..|es|] == es;
  }

  lemma RunThree(s: Account, a: Event, b: Event, c: Event)
    ensures Run(s, [a, b, c]) == Step(Step(Step(s, a), b), c)
  {
    var one, two, three: seq<Event> := [a], [a, b], [a, b, c];
    assert one == [] + [a] && two == one + [b] && three == two + [c];
    RunMore(s, [], a);
    RunMore(s, one, b);
    RunMore(s, two, c);
    assert Run(s, []) == s;
  }

  lemma ConfiguredExample(today: int)
    ensures
      var s := Step(Step(Bootstrapped(today), SetBase(10000.0)), SetRatio(50.0));
      && s.base == Some(10000.0) && s.ratio == Some(0.5) && s.target == 5000.0 && !s.launched
      && s.effective == 0.0 && s.book == Bootstrapped(today).book && s.outside == Bootstrapped(today).outside
      && s.gates == Bootstrapped(today).gates.(state := Ready)
  {
    CentsFixed(10000.0);
    CentsFixed(5000.0);
    assert NormalizeMoney(10000.0) == Ok(10000.0);
    assert HalfEvenInt(5000.0) == 5000;
    assert NormalizeRatio(50.0) == Ok(0.5);
    assert Share(10000.0, 0.5) == 5000.0;
    var a := Step(Bootstrapped(today), SetBase(10000.0));
    assert a.base == Some(10000.0) && a.target == 0.0;
  }

  /** An account that has just been launched: 10000 at 50%, half of it open. */
  lemma LaunchedExample(today: int)
    ensures
      var s := Run(Bootstrapped(today), [SetBase(10000.0), SetRatio(50.0), Launch(true)]);
      Sound(s) && s.launched && s.target == 5000.0 && s.effective == 2500.0 && !s.gates.latched && !s.gates.safeMode
  {
    StartsSound(today, None, None);
    RunKeepsSound(Bootstrapped(today), [SetBase(10000.0), SetRatio(50.0), Launch(true)]);
    RunThree(Bootstrapped(today), SetBase(10000.0), SetRatio(50.0), Launch(true));
    ConfiguredExample(today);
    CentsFixed(2500.0);
    assert TruncCents(5000.0 * 0.5) == 2500.0;
  }

  /** From any launched account, a run to the failing case: released, then an order opens, and the change that
      follows is refused with BUY still open. */
  lemma RefusalCanLeaveBuyOpen(s: Account, amount: real)
    requires Sound(s) && s.launched && !s.gates.latched && !s.gates.safeMode
    ensures
      var t := Run(s, [Orders(false), Release(true), Orders(true)]);
      && t.gates.state == Running && !t.gates.quarantine && !t.gates.halted && t.outside.openOrders
      && Step(t, SetBase(amount)) == t
  {
    RunThree(s, Orders(false), Release(true), Orders(true));
  }

  // ---------------------------------------------------------------- flows create no performance

  predicate Solvent(s: Account)
  {
    s.launched && s.effective > 0.0 && Marked(s) > 0.0 && s.book.units > 0.0
  }

  /** Equity and units after a flow, at the going price of a unit. */
  lemma FlowResult(s: Account, principal: real, nav: real)
    requires Solvent(s) && IsCents(principal) && principal >= 0.0
    requires ApplyFlow(s, principal).Ok? && nav == FlowNav(s)
    requires Marked(s) + principal - s.effective >= 0.0
    ensures
      var t := ApplyFlow(s, principal).value;
      && Marked(t) == Marked(s) + (principal - s.effective)
      && (t.book.units == Max(0.0, s.book.units + (principal - s.effective) / nav) || t == s)
      && (t == s ==> principal == s.effective)
  {
    CentsFixed(principal);
    assert Max(0.0, HalfEvenCents(principal)) == principal;
  }

  lemma FlowKeepsShares(s: Account, principal: real)
    requires Solvent(s) && IsCents(principal) && principal >= 0.0
    requires ApplyFlow(s, principal).Ok?
    requires Marked(s) + principal - s.effective >= 0.0
    ensures
      var t := ApplyFlow(s, principal).value;
      && Marked(t) == Marked(s) + principal - s.effective
      && Marked(t) * s.book.units == Marked(s) * t.book.units
  {
    assert FlowNav(s) == Marked(s) / s.book.units by { NavPositive(Marked(s), s.book.units); }
    FlowResult(s, principal, FlowNav(s));
    UnitsStayShared(Marked(s), s.book.units, principal - s.effective);
  }

  /** Equity per unit, and profit locked in by the high-water mark, are the same on both sides of a flow. */
  lemma FlowCreatesNoPerformance(s: Account, principal: real)
    requires Solvent(s) && IsCents(principal) && principal >= 0.0
    requires BookOk(s.effective, s.book) && ApplyFlow(s, principal).Ok?
    requires Marked(s) + principal - s.effective >= 0.0
    ensures
      var t := ApplyFlow(s, principal).value;
      && Marked(t) == Marked(s) + principal - s.effective
      && Marked(t) * s.book.units == Marked(s) * t.book.units
      && Gain(t) == Gain(s)
  {
    FlowKeepsShares(s, principal);
    FlowKeepsGain(s, principal);
  }

  predicate SolventThroughout(s: Account, es: seq<Event>)
  {
    Solvent(Run(s, es)) && (|es| > 0 ==> SolventThroughout(s, es[..|es| - 1]))
  }

  function UnitValue(s: Account): real
  {
    if s.book.units > 0.0 then Marked(s) / s.book.units else 1.0
  }

  function Factor(s: Account, e: Event): real
  {
    if e.Market? && Marked(s) > 0.0 then Marked(Step(s, e)) / Marked(s) else 1.0
  }

  /** What the market alone did in each step of a run. */
  function Factors(s: Account, es: seq<Event>): (fs: seq<real>)
    ensures |fs| == |es|
  {
    if |es| == 0 then []
    else Factors(s, es[..|es| - 1]) + [Factor(Run(s, es[..|es| - 1]), es[|es| - 1])]
  }

  function UnitValues(s: Account, es: seq<Event>): (vs: seq<real>)
    ensures |vs| == |es| + 1 && vs[|es|] == UnitValue(Run(s, es)) && vs[0] == UnitValue(s)
  {
    if |es| == 0 then [UnitValue(s)] else UnitValues(s, es[..|es| - 1]) + [UnitValue(Run(s, es))]
  }

  function Product(fs: seq<real>): real
  {
    if |fs| == 0 then 1.0 else Product(fs[..|fs| - 1]) * fs[|fs| - 1]
  }

  predicate Scales(x: real, f: real, y: real)
  {
    y == x * f
  }

  predicate Chained(vs: seq<real>, fs: seq<real>)
    decreases |fs|
  {
    && |vs| == |fs| + 1
    && (|fs| > 0 ==>
          Chained(vs[..|fs|], fs[..|fs| - 1]) && Scales(vs[|fs| - 1], fs[|fs| - 1], vs[|fs|]))
  }

  lemma Compose(a: real, b: real, c: real, x: real, y: real)
    requires Scales(a, b, x) && Scales(x, c, y)
    ensures Scales(a, b * c, y)
  {
  }

  lemma {:induction false} ChainTelescopes(vs: seq<real>, fs: seq<real>)
    requires Chained(vs, fs)
    ensures Scales(vs[0], Product(fs), vs[|fs|])
    decreases |fs|
  {
    if |fs| > 0 {
      var n := |fs| - 1;
      ChainTelescopes(vs[..|fs|], fs[..n]);
      Compose(vs[0], Product(fs[..n]), fs[n], vs[n], vs[n + 1]);
    }
  }

  lemma SameRatio(e: real, u: real, e': real, u': real)
    requires u > 0.0 && u' > 0.0 && e' * u == e * u'
    ensures e' / u' == e / u
  {
    var a, b := e / u, e' / u';
    assert a * u == e && b * u' == e';
    assert b * u' * u == a * u * u';
    assert (b - a) * (u * u') == 0.0;
    assert u * u' > 0.0;
  }

  lemma FlowKeepsUnitValue(s: Account, principal: real)
    requires Solvent(s) && IsCents(principal) && principal >= 0.0
    requires ApplyFlow(s, principal).Ok? && Solvent(ApplyFlow(s, principal).value)
    ensures UnitValue(ApplyFlow(s, principal).value) == UnitValue(s)
  {
    CentsFixed(principal);
    var t := ApplyFlow(s, principal).value;
    FlowKeepsShares(s, principal);
    SameRatio(Marked(s), s.book.units, Marked(t), t.book.units);
  }

  lemma ConfigKeepsUnitValue(s: Account, base: Option<real>, ratio: Option<real>)
    requires Sound(s) && Solvent(s)
    requires base.Some? ==> MIN_BASE <= base.value <= MAX_BASE
    requires ratio.Some? ==> MIN_RATIO <= ratio.value <= MAX_RATIO
    requires SetConfig(s, base, ratio).Ok? && Solvent(SetConfig(s, base, ratio).value)
    ensures UnitValue(SetConfig(s, base, ratio).value) == UnitValue(s)
  {
    var b := if base.Some? then base else s.base;
    var r := if ratio.Some? then ratio else s.ratio;
    var t := s.(base := b, ratio := r, target := TargetPrincipal(b, r), untouched := false);
    TargetOk(t);
    if t.target == s.target {
    } else if t.target < t.effective {
      FlowKeepsUnitValue(t.(ramp := t.ramp.(stage := 0, base := t.target, target := t.target)), t.target);
    } else if t.target > s.target {
      StageBounds(t.effective, t.target, 1);
      FlowKeepsUnitValue(Reopened(t), StagePrincipal(t.effective, t.target, 1));
    }
  }

  lemma AdvanceKeepsUnitValue(s: Account)
    requires Sound(s) && Solvent(s)
    requires AdvanceRamp(s).Ok? && Solvent(AdvanceRamp(s).value)
    ensures UnitValue(AdvanceRamp(s).value) == UnitValue(s)
  {
    TargetOk(s);
    if AdvanceRamp(s).value.effective != s.effective {
      StageBounds(s.ramp.base, s.ramp.target, s.ramp.stage + 1);
      FlowKeepsUnitValue(Promoted(s), StagePrincipal(s.ramp.base, s.ramp.target, s.ramp.stage + 1));
    }
  }

  lemma StepKeepsUnitValue(s: Account, e: Event)
    requires Sound(s) && Solvent(s) && Solvent(Step(s, e)) && !e.Market?
    ensures UnitValue(Step(s, e)) == UnitValue(s)
  {
    match e
    case SetBase(v) =>
      NormalizedInRange(v, 0.0);
      var b := NormalizeMoney(v);
      if b.Ok? && SetConfig(s, Some(b.value), None).Ok? { ConfigKeepsUnitValue(s, Some(b.value), None); }
    case SetRatio(p) =>
      NormalizedInRange(0.0, p);
      var r := NormalizeRatio(p);
      if r.Ok? && SetConfig(s, None, Some(r.value)).Ok? { ConfigKeepsUnitValue(s, None, Some(r.value)); }
    case TryAdvance => if AdvanceRamp(s).Ok? { AdvanceKeepsUnitValue(s); }
    case _ =>
  }

  lemma {:induction false} RunGrows(s: Account, es: seq<Event>)
    requires Sound(s) && SolventThroughout(s, es)
    ensures Chained(UnitValues(s, es), Factors(s, es))
  {
    if |es| > 0 {
      var n := |es| - 1;
      RunGrows(s, es[..n]);
      RunKeepsSound(s, es[..n]);
      StepGrows(Run(s, es[..n]), es[n]);
      LinkChain(UnitValues(s, es[..n]), Factors(s, es[..n]), Factor(Run(s, es[..n]), es[n]), UnitValue(Run(s, es)));
    }
  }

  lemma LinkChain(vs: seq<real>, fs: seq<real>, f: real, v: real)
    requires Chained(vs, fs) && Scales(vs[|fs|], f, v)
    ensures Chained(vs + [v], fs + [f])
  {
    assert (vs + [v])[..|fs| + 1] == vs && (fs + [f])[..|fs|] == fs;
  }

  /** Time-weighted return: over any run, unit value grows by what the market did and nothing else. */
  lemma UnitValueIsTimeWeighted(s: Account, es: seq<Event>)
    requires Sound(s) && SolventThroughout(s, es)
    ensures Scales(UnitValue(s), Product(Factors(s, es)), UnitValue(Run(s, es)))
  {
    RunGrows(s, es);
    ChainTelescopes(UnitValues(s, es), Factors(s, es));
  }

  lemma StepGrows(s: Account, e: Event)
    requires Sound(s) && Solvent(s) && Solvent(Step(s, e))
    ensures Scales(UnitValue(s), Factor(s, e), UnitValue(Step(s, e)))
  {
    if e.Market? {
      MarketStep(s, e);
    } else {
      StepKeepsUnitValue(s, e);
    }
  }

  lemma MarketStep(s: Account, e: Event)
    requires Solvent(s) && e.Market?
    ensures UnitValue(Step(s, e)) == UnitValue(s) * (Marked(Step(s, e)) / Marked(s))
  {
    MarketMove(Marked(s), s.book.units, Marked(Step(s, e)));
  }

  lemma MarketMove(e: real, u: real, e': real)
    requires e > 0.0 && u > 0.0
    ensures e' / u == (e / u) * (e' / e)
  {
    var m, v := e' / e, e / u;
    assert m * e == e' && v * u == e;
    assert (v * m) * u == (v * u) * m;
  }

  /** Profit the high-water mark has locked in. */
  function Gain(s: Account): real
  {
    Default(s.book.hwm, s.effective) - s.effective
  }

  /** The largest profit recorded so far, whatever capital came and went. */
  function PeakProfit(s: Account, es: seq<Event>): real
  {
    if |es| == 0 then Gain(s)
    else
      var peak := PeakProfit(s, es[..|es| - 1]);
      if es[|es| - 1].Record? then Max(peak, Run(s, es[..|es| - 1]).outside.profit) else peak
  }

  lemma FlowKeepsGain(s: Account, principal: real)
    requires s.launched && BookOk(s.effective, s.book)
    ensures ApplyFlow(s, principal).Ok? ==> Gain(ApplyFlow(s, principal).value) == Gain(s)
  {
  }

  lemma StepKeepsGain(s: Account, e: Event)
    requires Sound(s) && s.launched && !e.Record?
    ensures Gain(Step(s, e)) == Gain(s)
  {
    match e
    case SetBase(v) => if NormalizeMoney(v).Ok? { ConfigKeepsGain(s, Some(NormalizeMoney(v).value), None); }
    case SetRatio(p) => if NormalizeRatio(p).Ok? { ConfigKeepsGain(s, None, Some(NormalizeRatio(p).value)); }
    case TryAdvance =>
      if s.ramp.stage > 0 {
        FlowKeepsGain(Promoted(s), StagePrincipal(s.ramp.base, s.ramp.target, s.ramp.stage + 1));
      }
    case _ =>
  }

  lemma ConfigKeepsGain(s: Account, base: Option<real>, ratio: Option<real>)
    requires Sound(s) && s.launched
    ensures SetConfig(s, base, ratio).Ok? ==> Gain(SetConfig(s, base, ratio).value) == Gain(s)
  {
    var b := if base.Some? then base else s.base;
    var r := if ratio.Some? then ratio else s.ratio;
    var t := s.(base := b, ratio := r, target := TargetPrincipal(b, r), untouched := false);
    FlowKeepsGain(t.(ramp := t.ramp.(stage := 0, base := t.target, target := t.target)), t.target);
    FlowKeepsGain(Reopened(t), StagePrincipal(t.effective, t.target, 1));
  }

  /** Principal can be raised, cut and ramped at will: the mark's gain is the peak of recorded profit. */
  lemma {:induction false} GainIsPeakProfit(s: Account, es: seq<Event>)
    requires Sound(s) && s.launched
    ensures Run(s, es).launched
    ensures Gain(Run(s, es)) == PeakProfit(s, es)
  {
    if |es| > 0 {
      var t := Run(s, es[..|es| - 1]);
      GainIsPeakProfit(s, es[..|es| - 1]);
      RunKeepsSound(s, es[..|es| - 1]);
      LaunchIsForever(t, es[|es| - 1]);
      if !es[|es| - 1].Record? {
        StepKeepsGain(t, es[|es| - 1]);
      }
    }
  }

  lemma LaunchIsForever(s: Account, e: Event)
    requires s.launched
    ensures Step(s, e).launched
  {
  }
}
