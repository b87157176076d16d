/**
 Delegated capital under JH AUTO: the operator's configuration, the 50/75/100 ramp, unitised
 performance, the high-water mark and the risk budget. Every operation is one transaction:
 an error leaves the state as it was.
 */
module Capital {
  import opened Numeric
  import opened Results

  datatype AutoState =
    | Setup | Ready | StartupQuarantine | AutoQuarantine | Running | OperatorHalted | SafeModeStop

  datatype Gates = Gates(quarantine: bool, latched: bool, halted: bool, safeMode: bool, state: AutoState)

  /** `autoFill` is the session of the stage's AUTO fill, where the source stores "1". */
  datatype Ramp = Ramp(
    stage: nat, base: real, target: real, filledOn: Option<int>, startedOn: int, autoFill: Option<int>)

  datatype Book = Book(units: real, nav: real, hwm: Option<real>, risk: Option<real>)

  /** What the rest of the system shows this one: `profit` is managed cash and market value, less principal. */
  datatype Outside = Outside(
    today: int, profit: real, openOrders: bool, generation: bool, targetsMet: bool, cycleFilled: bool)

  /** `launchedOn`, `openedOn` and `untouched` are history: when the account was launched, when the
      current ramp began, and whether the configuration stood still since the launch. */
  datatype Account = Account(
    base: Option<real>, ratio: Option<real>, target: real, effective: real, launched: bool,
    ramp: Ramp, book: Book, gates: Gates, outside: Outside,
    launchedOn: int, openedOn: int, untouched: bool)

  const MIN_BASE := 100.0
  const MAX_BASE := 10000000.0
  const MIN_RATIO := 0.01
  const MAX_RATIO := 1.0
  const STAGE_SESSIONS := 3

  function Fraction(stage: nat): real
  {
    if stage == 1 then 0.5 else if stage == 2 then 0.75 else 1.0
  }

  function Share(base: real, ratio: real): real
  {
    TruncCents(base * ratio)
  }

  function TargetPrincipal(base: Option<real>, ratio: Option<real>): real
  {
    if base.None? || ratio.None? then 0.0 else Share(base.value, ratio.value)
  }

  function StagePrincipal(base: real, target: real, stage: nat): real
  {
    TruncCents(base + (target - base) * Fraction(stage))
  }

  /** `marked_managed_equity` */
  function Marked(s: Account): real
  {
    Max(0.0, s.effective + s.outside.profit)
  }

  // ---------------------------------------------------------------- capital flows

  /** The price of one unit at a flow. */
  function FlowNav(s: Account): real
  {
    if s.launched && s.effective > 0.0 then
      var nav := if s.book.units > 0.0 then Marked(s) / s.book.units else s.book.nav;
      if nav <= 0.0 then 1.0 else nav
    else 1.0
  }

  function Default(x: Option<real>, d: real): real
  {
    if x.Some? then x.value else d
  }

  function FlowBook(s: Account, effective: real): Book
  {
    var delta := effective - s.effective;
    var pre := if s.launched && s.effective > 0.0 then Marked(s) else s.effective;
    var hwm := Max(effective, Default(s.book.hwm, s.effective) + delta);
    var gain := Max(0.0, hwm - effective);
    Book(
      Max(0.0, s.book.units + delta / FlowNav(s)), FlowNav(s), Some(hwm),
      Some(Max(0.0, Min(Max(0.0, pre + delta), effective + 0.75 * gain))))
  }

  /** `_apply_external_flow` */
  function ApplyFlow(s: Account, principal: real): Result<Account>
  {
    var effective := Max(0.0, HalfEvenCents(principal));
    var delta := effective - s.effective;
    if delta == 0.0 then Ok(s)
    else if s.book.units + delta / FlowNav(s) < -0.000001 then Err("performance units would be negative")
    else Ok(s.(effective := effective, book := FlowBook(s, effective),
               outside := s.outside.(generation := false)))
  }

  /** `record_v322_equity` on the marked equity */
  function RecordEquity(s: Account): Account
  {
    var marked := Marked(s);
    var hwm := Max(Max(Default(s.book.hwm, s.effective), marked), s.effective);
    var gain := Max(0.0, hwm - s.effective);
    s.(book := s.book.(hwm := Some(hwm), risk := Some(Max(0.0, Min(s.effective + 0.75 * gain, marked)))))
  }

  // ---------------------------------------------------------------- configuration

  function NormalizeMoney(v: real): Result<real>
  {
    var amount := TruncCents(v);
    if MIN_BASE <= amount <= MAX_BASE then Ok(amount) else Err("base capital out of range")
  }

  function NormalizeRatio(percent: real): Result<real>
  {
    var ratio := percent / 100.0;
    if MIN_RATIO <= ratio <= MAX_RATIO then Ok(HalfEvenBasis(ratio)) else Err("ratio out of range")
  }

  /** `_retarget_live_principal`; the target itself is already stored. */
  function Retarget(s: Account, oldTarget: real): Result<Account>
  {
    var t := s.target;
    if t == oldTarget then Ok(s)
    else if t < s.effective then
      ApplyFlow(s.(ramp := s.ramp.(stage := 0, base := t, target := t)), t)
    else if t < oldTarget then
      Ok(s.(ramp := s.ramp.(stage := 0, base := s.effective, target := t)))
    else
      ApplyFlow(Reopened(s), StagePrincipal(s.effective, t, 1))
  }

  /** A new ramp over the added capital. */
  function Reopened(s: Account): Account
  {
    s.(ramp := Ramp(1, s.effective, s.target, None, s.outside.today, s.ramp.autoFill), openedOn := s.outside.today)
  }

  /** `_validate_capital_contract` on a configured account */
  predicate ContractHolds(s: Account)
  {
    s.base.Some? && s.ratio.Some? ==>
      && MIN_BASE <= s.base.value <= MAX_BASE && MIN_RATIO <= s.ratio.value <= MAX_RATIO
      && s.target == TargetPrincipal(s.base, s.ratio)
      && (s.launched ==> 0.0 < s.effective <= s.target)
  }

  predicate Configured(s: Account)
  {
    s.base.Some? && s.ratio.Some?
  }

  /** `_set_operator_config` */
  function SetConfig(s: Account, base: Option<real>, ratio: Option<real>): Result<Account>
  {
    var b := if base.Some? then base else s.base;
    var r := if ratio.Some? then ratio else s.ratio;
    var target := TargetPrincipal(b, r);
    if s.launched && s.outside.openOrders then Err("orders are open")
    else if s.launched && target > s.target && s.ramp.stage != 0 then Err("a ramp is still running")
    else
      var t := s.(base := b, ratio := r, target := target, untouched := false);
      if !s.launched then
        var u := t.(gates := s.gates.(state := if Configured(t) then Ready else Setup));
        if ContractHolds(u) then Ok(u) else Err("capital contract")
      else
        var u := Retarget(t, s.target);
        if u.Err? then u
        else if !(Configured(u.value) && ContractHolds(u.value)) then Err("capital contract")
        else Ok(Closed(s, u.value))
  }

  /** A live change reopens nothing, and a ramp it started needs its own AUTO fill. */
  function Closed(before: Account, s: Account): Account
  {
    var restarted := s.ramp.stage > 0 && (s.ramp.stage != before.ramp.stage || s.ramp.target != before.ramp.target);
    s.(gates := s.gates.(quarantine := true, halted := true, state := AutoQuarantine),
       ramp := if restarted then s.ramp.(autoFill := None) else s.ramp)
  }

  /** `authorize_launch`; `clean` is the preflight over positions, reconciliation and buying power. */
  function Authorize(s: Account, clean: bool): Result<Account>
  {
    if !Configured(s) then Err("not configured")
    else if s.launched then
      if s.effective <= 0.0 || s.book.units <= 0.0 then Err("launch accounting is incomplete") else Ok(s)
    else if s.outside.openOrders || !clean || s.gates.safeMode then Err("preflight")
    else
      ApplyFlow(Authorized(s), TruncCents(s.target * Fraction(1)))
  }

  /** The keys written before the first flow; figures of an earlier, fixed-capital ledger are dropped. */
  function Authorized(s: Account): Account
  {
    var today := s.outside.today;
    s.(launched := true, launchedOn := today, openedOn := today, untouched := true,
    gates := s.gates.(quarantine := true, state := StartupQuarantine),
    ramp := Ramp(1, 0.0, s.target, None, today, None),
    book := if s.effective == 0.0 then s.book.(hwm := Some(0.0), risk := Some(0.0)) else s.book,
    outside := s.outside.(profit := 0.0))
  }

  // ---------------------------------------------------------------- the ramp

  /** `_stage_filled`: quantities, then cycle evidence for the first pilot stage, then this stage's AUTO fill. */
  predicate StageFilled(s: Account)
  {
    && s.outside.generation && !s.outside.openOrders && s.outside.targetsMet
    && (s.ramp.stage == 1 && s.ramp.base == 0.0 ==> s.outside.cycleFilled)
    && s.ramp.autoFill.Some?
  }

  predicate RampGated(s: Account)
  {
    || s.gates.latched || s.gates.quarantine || s.gates.state != Running || s.gates.halted
    || s.gates.safeMode || s.outside.openOrders
  }

  function SessionsSince(s: Account, day: int): int
  {
    MaxInt(0, s.outside.today - day)
  }

  /** `advance_ramp_if_ready` */
  function AdvanceRamp(s: Account): Result<Account>
  {
    if !s.launched || s.ramp.stage == 0 || RampGated(s) then Ok(s)
    else if !StageFilled(s) then Ok(s.(ramp := s.ramp.(filledOn := None)))
    else
      var on := if s.ramp.filledOn.Some? then s.ramp.filledOn.value else s.outside.today;
      var marked := s.(ramp := s.ramp.(filledOn := Some(on)));
      if s.ramp.stage == 3 then
        Ok(s.(ramp := s.ramp.(stage := 0, filledOn := None, autoFill := None),
              gates := s.gates.(state := Running)))
      else if SessionsSince(s, on) < STAGE_SESSIONS then Ok(marked)
      else
        ApplyFlow(Promoted(s), StagePrincipal(s.ramp.base, s.ramp.target, s.ramp.stage + 1))
  }

  function Promoted(s: Account): Account
  {
    s.(ramp := Ramp(s.ramp.stage + 1, s.ramp.base, s.ramp.target, None, s.outside.today, None))
  }

  // ---------------------------------------------------------------- gates

  function Quarantined(s: Account): Account
  {
    s.(gates := s.gates.(quarantine := true, halted := true, state := AutoQuarantine))
  }

  function Released(s: Account, ready: bool): Account
  {
    if !s.launched then s.(gates := s.gates.(state := if Configured(s) then Ready else Setup))
    else if !(Configured(s) && ContractHolds(s)) then s
    else if s.gates.latched then s.(gates := s.gates.(state := OperatorHalted))
    else if s.gates.safeMode then s.(gates := s.gates.(state := SafeModeStop))
    else if !ready || s.outside.openOrders then s
    else s.(gates := s.gates.(halted := false, quarantine := false, state := Running))
  }

  // ---------------------------------------------------------------- runs

  datatype Event =
    | SetBase(amount: real) | SetRatio(percent: real) | Launch(clean: bool) | TryAdvance | Record
    | Quarantine | Release(ready: bool) | OperatorHalt(on: bool) | SafeMode(on: bool)
    | Market(profit: real) | Orders(open: bool) | Targets(built: bool, met: bool)
    | AutoFill | CycleFilled | NextSession

  function OrKeep(s: Account, r: Result<Account>): Account
  {
    if r.Ok? then r.value else s
  }

  function Step(s: Account, e: Event): Account
  {
    match e
    case SetBase(v) =>
      var b := NormalizeMoney(v);
      if b.Err? then s else OrKeep(s, SetConfig(s, Some(b.value), None))
    case SetRatio(p) =>
      var r := NormalizeRatio(p);
      if r.Err? then s else OrKeep(s, SetConfig(s, None, Some(r.value)))
    case Launch(clean) => OrKeep(s, Authorize(s, clean))
    case TryAdvance => OrKeep(s, AdvanceRamp(s))
    case Record => RecordEquity(s)
    case Quarantine => Quarantined(s)
    case Release(ready) => Released(s, ready)
    case OperatorHalt(on) => s.(gates := s.gates.(latched := on, halted := on))
    case SafeMode(on) => s.(gates := s.gates.(safeMode := on))
    case Market(p) => if s.launched then s.(outside := s.outside.(profit := p)) else s
    case Orders(open) => s.(outside := s.outside.(openOrders := open))
    case Targets(built, met) => s.(outside := s.outside.(generation := built, targetsMet := met))
    case AutoFill => if s.ramp.stage > 0 then s.(ramp := s.ramp.(autoFill := Some(s.outside.today))) else s
    case CycleFilled => s.(outside := s.outside.(cycleFilled := true))
    case NextSession => s.(outside := s.outside.(today := s.outside.today + 1))
  }

  function Run(s: Account, es: seq<Event>): Account
  {
    if |es| == 0 then s else Step(Run(s, es[..|es| - 1]), es[|es| - 1])
  }

  /** `bootstrap_repository` on an empty store */
  function Bootstrapped(today: int): Account
  {
    Account(None, None, 0.0, 0.0, false, Ramp(0, 0.0, 0.0, None, today, None), Book(0.0, 1.0, None, None),
            Gates(true, false, false, false, Setup), Outside(today, 0.0, false, false, false, false),
            today, today, false)
  }

  // ---------------------------------------------------------------- the independent guard

  /** The guard multiplies for itself. */
  function GuardTarget(base: real, ratio: real): real
  {
    TruncCents(base * ratio)
  }

  /** The capital part of `require_live_auto_buy_contract`; a missing value raises. */
  predicate GuardAccepts(s: Account)
  {
    && s.base.Some? && s.ratio.Some? && s.book.hwm.Some? && s.book.risk.Some?
    && MIN_BASE <= s.base.value <= MAX_BASE && MIN_RATIO <= s.ratio.value <= MAX_RATIO
    && s.target == GuardTarget(s.base.value, s.ratio.value)
    && 0.0 < s.effective <= s.target
    && s.book.hwm.value >= s.effective
    && 0.0 <= s.book.risk.value
         <= s.effective + 0.75 * Max(0.0, s.book.hwm.value - s.effective) + 0.01
  }

  // ---------------------------------------------------------------- invariant

  predicate ConfigOk(s: Account)
  {
    && (s.base.Some? ==> MIN_BASE <= s.base.value <= MAX_BASE)
    && (s.ratio.Some? ==> MIN_RATIO <= s.ratio.value <= MAX_RATIO)
    && s.target == TargetPrincipal(s.base, s.ratio)
  }

  predicate BookOk(effective: real, b: Book)
  {
    && b.hwm.Some? && b.risk.Some?
    && b.hwm.value >= effective && b.units >= 0.0
    && 0.0 <= b.risk.value <= effective + 0.75 * (b.hwm.value - effective)
  }

  predicate MoneyOk(s: Account)
  {
    if !s.launched then s.effective == 0.0 && s.book.units == 0.0
    else
      && Configured(s) && IsCents(s.effective) && 0.0 < s.effective <= s.target
      && BookOk(s.effective, s.book)
  }

  /** The ramp's own sessions: each later stage needs three more than the one before. */
  predicate RampOk(s: Account)
  {
    var r := s.ramp;
    && r.stage <= 3
    && s.launchedOn <= s.openedOn <= s.outside.today
    && (r.stage > 0 ==>
      && s.launched && r.target == s.target && 0.0 <= r.base < r.target && IsCents(r.base)
      && s.effective == StagePrincipal(r.base, r.target, r.stage)
      && s.openedOn + STAGE_SESSIONS * (r.stage - 1) <= r.startedOn <= s.outside.today
      && (r.filledOn.Some? ==> r.startedOn <= r.filledOn.value <= s.outside.today)
      && (r.autoFill.Some? ==> r.startedOn <= r.autoFill.value <= s.outside.today))
  }

  predicate PaceOk(s: Account)
  {
    s.launched && s.untouched ==>
      && s.openedOn == s.launchedOn <= s.outside.today
      && (s.ramp.stage == 0 ==> s.launchedOn + 2 * STAGE_SESSIONS <= s.outside.today)
      && (s.ramp.stage > 0 ==> s.ramp.base == 0.0)
  }

  predicate Sound(s: Account)
  {
    ConfigOk(s) && MoneyOk(s) && RampOk(s) && PaceOk(s)
  }
}
