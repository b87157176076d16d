/** The AUTO service over its key table: each public method is one transaction under the BUY lock. */
module CapitalService {
  import opened Numeric
  import opened Results
  import opened Capital

  class JHAutoService {
    var keys: Account

    constructor (today: int)
      ensures keys == Bootstrapped(today)
    {
      keys := Bootstrapped(today);
    }

    /** Writes the flow, or raises before the first write. */
    method ApplyExternalFlow(principal: real) returns (ok: bool)
      modifies this
      ensures ok == ApplyFlow(old(keys), principal).Ok?
      ensures keys == OrKeep(old(keys), ApplyFlow(old(keys), principal))
    {
      var oldEffective := keys.effective;
      var newEffective := Max(0.0, HalfEvenCents(principal));
      var delta := newEffective - oldEffective;
      if delta == 0.0 {
        return true;
      }
      var nav, preEquity := 1.0, oldEffective;
      if keys.launched && oldEffective > 0.0 {
        nav, preEquity := keys.book.nav, Marked(keys);
        if keys.book.units > 0.0 {
          nav := preEquity / keys.book.units;
        }
        if nav <= 0.0 {
          nav := 1.0;
        }
      }
      var newUnits := keys.book.units + delta / nav;
      if newUnits < -0.000001 {
        return false;
      }
      var hwm := Max(newEffective, Default(keys.book.hwm, oldEffective) + delta);
      var budget := Min(Max(0.0, preEquity + delta), newEffective + 0.75 * Max(0.0, hwm - newEffective));
      keys := keys.(effective := newEffective);
      keys := keys.(book := Book(Max(0.0, newUnits), nav, Some(hwm), Some(Max(0.0, budget))));
      keys := keys.(outside := keys.outside.(generation := false));
      return true;
    }

    method RetargetLivePrincipal(oldTarget: real) returns (ok: bool)
      modifies this
      ensures ok == Retarget(old(keys), oldTarget).Ok?
      ensures ok ==> keys == Retarget(old(keys), oldTarget).value
    {
      var newTarget := keys.target;
      if newTarget == oldTarget {
        return true;
      }
      if newTarget < keys.effective {
        keys := keys.(ramp := keys.ramp.(stage := 0, base := newTarget, target := newTarget));
        ok := ApplyExternalFlow(newTarget);
        return;
      }
      if newTarget < oldTarget {
        keys := keys.(ramp := keys.ramp.(stage := 0, base := keys.effective, target := newTarget));
        return true;
      }
      var base := keys.effective;
      keys := keys.(ramp := keys.ramp.(base := base, target := newTarget, stage := 1));
      keys := keys.(ramp := keys.ramp.(filledOn := None, startedOn := keys.outside.today));
      keys := keys.(openedOn := keys.outside.today);
      ok := ApplyExternalFlow(StagePrincipal(base, newTarget, 1));
    }

    method ConfigureBeforeLaunch() returns (ok: bool)
      requires !keys.launched
      modifies this
      ensures keys == old(keys).(gates := old(keys).gates.(state := if Configured(old(keys)) then Ready else Setup))
      ensures ok == ContractHolds(keys)
    {
      keys := keys.(gates := keys.gates.(state := if Configured(keys) then Ready else Setup));
      ok := ContractHolds(keys);
    }

    /** The principal follows its new target, with BUY halted until a release. */
    method ReconfigureLaunched(before: Account) returns (ok: bool)
      requires keys.gates == before.gates.(halted := true, quarantine := true)
      modifies this
      ensures
        var moved := Retarget(old(keys).(gates := before.gates), before.target);
        && ok == (moved.Ok? && Configured(moved.value) && ContractHolds(moved.value))
        && (ok ==> keys == Closed(before, moved.value))
    {
      RetargetIgnoresGates(keys.(gates := before.gates), keys.gates, before.target);
      ok := RetargetLivePrincipal(before.target);
      if !ok || !Configured(keys) || !ContractHolds(keys) {
        return false;
      }
      keys := keys.(gates := keys.gates.(quarantine := true, state := AutoQuarantine, halted := true));
      if keys.ramp.stage > 0
         && (before.ramp.stage != keys.ramp.stage || before.ramp.target != keys.ramp.target) {
        keys := keys.(ramp := keys.ramp.(autoFill := None));
      }
    }

    /** An error restores every key, the BUY halt and quarantine written on the way included. */
    method SetOperatorConfig(base: Option<real>, ratio: Option<real>) returns (ok: bool)
      modifies this
      ensures ok == SetConfig(old(keys), base, ratio).Ok?
      ensures keys == OrKeep(old(keys), SetConfig(old(keys), base, ratio))
    {
      var before := keys;
      if before.launched {
        keys := keys.(gates := keys.gates.(halted := true, quarantine := true));
      }
      var newBase := if base.Some? then base else before.base;
      var newRatio := if ratio.Some? then ratio else before.ratio;
      var newTarget := TargetPrincipal(newBase, newRatio);
      if before.launched && before.outside.openOrders {
        keys := before;
        return false;
      }
      if before.launched && newTarget > before.target && before.ramp.stage != 0 {
        keys := before;
        return false;
      }
      keys := keys.(base := newBase, ratio := newRatio, target := newTarget, untouched := false);
      if before.launched {
        ok := ReconfigureLaunched(before);
      } else {
        ok := ConfigureBeforeLaunch();
      }
      if !ok {
        keys := before;
      }
    }

    method AuthorizeLaunch(clean: bool) returns (ok: bool)
      modifies this
      ensures ok == Authorize(old(keys), clean).Ok?
      ensures keys == OrKeep(old(keys), Authorize(old(keys), clean))
    {
      if !Configured(keys) {
        return false;
      }
      if keys.launched {
        return keys.effective > 0.0 && keys.book.units > 0.0;
      }
      if keys.outside.openOrders || !clean || keys.gates.safeMode {
        return false;
      }
      var before := keys;
      keys := keys.(launched := true, launchedOn := keys.outside.today, openedOn := keys.outside.today);
      keys := keys.(untouched := true, outside := keys.outside.(profit := 0.0));
      keys := keys.(gates := keys.gates.(quarantine := true, state := StartupQuarantine));
      keys := keys.(ramp := Ramp(1, 0.0, keys.target, None, keys.outside.today, keys.ramp.autoFill));
      if keys.effective == 0.0 {
        keys := keys.(book := keys.book.(hwm := Some(0.0), risk := Some(0.0)));
      }
      keys := keys.(ramp := keys.ramp.(autoFill := None));
      ok := ApplyExternalFlow(TruncCents(keys.target * Fraction(1)));
      if !ok {
        keys := before;
      }
    }

    method AdvanceRampIfReady() returns (ok: bool)
      modifies this
      ensures ok == AdvanceRamp(old(keys)).Ok?
      ensures keys == OrKeep(old(keys), AdvanceRamp(old(keys)))
    {
      var before := keys;
      if !before.launched || before.ramp.stage == 0 {
        return true;
      }
      if RampGated(keys) {
        return true;
      }
      if !StageFilled(keys) {
        if keys.ramp.filledOn.Some? {
          keys := keys.(ramp := keys.ramp.(filledOn := None));
        }
        return true;
      }
      if keys.ramp.filledOn.None? {
        keys := keys.(ramp := keys.ramp.(filledOn := Some(keys.outside.today)));
      }
      if before.ramp.stage == 3 {
        keys := keys.(ramp := keys.ramp.(stage := 0, filledOn := None, autoFill := None));
        keys := keys.(gates := keys.gates.(state := Running));
        return true;
      }
      if SessionsSince(keys, keys.ramp.filledOn.value) < STAGE_SESSIONS {
        return true;
      }
      ok := Promote();
      if !ok {
        keys := before;
      }
    }

    /** The next stage and its capital. */
    method Promote() returns (ok: bool)
      modifies this
      ensures
        var r := old(keys).ramp;
        var flowed := ApplyFlow(Promoted(old(keys)), StagePrincipal(r.base, r.target, r.stage + 1));
        ok == flowed.Ok? && (ok ==> keys == flowed.value)
    {
      var ramp, next := keys.ramp, keys.ramp.stage + 1;
      keys := keys.(ramp := keys.ramp.(stage := next, filledOn := None, startedOn := keys.outside.today));
      keys := keys.(ramp := keys.ramp.(autoFill := None));
      assert keys == Promoted(old(keys));
      ok := ApplyExternalFlow(StagePrincipal(ramp.base, ramp.target, next));
    }

    method RecordV322Equity() returns (hwm: real, budget: real)
      modifies this
      ensures keys == RecordEquity(old(keys))
      ensures keys.book.hwm == Some(hwm) && keys.book.risk == Some(budget)
    {
      var marked := Marked(keys);
      var previous := Default(keys.book.hwm, keys.effective);
      hwm := Max(Max(previous, marked), keys.effective);
      var gain := Max(0.0, hwm - keys.effective);
      budget := Max(0.0, Min(keys.effective + 0.75 * gain, marked));
      keys := keys.(book := keys.book.(hwm := Some(hwm), risk := Some(budget)));
    }

    method QuarantineNow()
      modifies this
      ensures keys == Quarantined(old(keys))
    {
      keys := keys.(gates := keys.gates.(quarantine := true, state := AutoQuarantine));
      keys := keys.(gates := keys.gates.(halted := true));
    }

    method TryReleaseQuarantine(ready: bool) returns (released: bool)
      modifies this
      ensures keys == Released(old(keys), ready)
      ensures released ==> !keys.gates.latched && !keys.gates.safeMode && !keys.outside.openOrders && ContractHolds(keys)
    {
      if keys.launched && !(Configured(keys) && ContractHolds(keys)) {
        return false;
      }
      if !keys.launched {
        keys := keys.(gates := keys.gates.(state := if Configured(keys) then Ready else Setup));
        return false;
      }
      if keys.gates.latched {
        keys := keys.(gates := keys.gates.(state := OperatorHalted));
        return false;
      }
      if keys.gates.safeMode {
        keys := keys.(gates := keys.gates.(state := SafeModeStop));
        return false;
      }
      if !ready || keys.outside.openOrders {
        return false;
      }
      keys := keys.(gates := keys.gates.(halted := false));
      keys := keys.(gates := keys.gates.(quarantine := false, state := Running));
      return true;
    }
  }

  /** Which gates are shut makes no difference to where the principal goes. */
  lemma RetargetIgnoresGates(s: Account, gates: Gates, oldTarget: real)
    ensures
      var t := Retarget(s.(gates := gates), oldTarget);
      var u := Retarget(s, oldTarget);
      && t.Ok? == u.Ok?
      && (u.Ok? ==> t.value == u.value.(gates := gates) && u.value.gates == s.gates)
  {
    var t := s.(gates := gates);
    if s.target < s.effective {
      FlowIgnoresGates(s.(ramp := s.ramp.(stage := 0, base := s.target, target := s.target)), gates, s.target);
    } else if s.target > oldTarget {
      assert Reopened(t) == Reopened(s).(gates := gates);
      FlowIgnoresGates(Reopened(s), gates, StagePrincipal(s.effective, s.target, 1));
    }
  }

  lemma FlowIgnoresGates(s: Account, gates: Gates, principal: real)
    ensures
      var t := ApplyFlow(s.(gates := gates), principal);
      var u := ApplyFlow(s, principal);
      && t.Ok? == u.Ok?
      && (u.Ok? ==> t.value == u.value.(gates := gates) && u.value.gates == s.gates)
  {
    assert FlowNav(s.(gates := gates)) == FlowNav(s);
  }
}
