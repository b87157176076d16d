/** `SQLiteRepository` and the managed-cash readers: the tables as fields rewritten in place. */
module Repository {
  import opened Numeric
  import opened Results
  import opened Sums
  import opened Ledger
  import opened LedgerProofs

  class SQLiteRepository {
    const config: Config
    var orders: seq<Order>
    var progress: map<ClientId, Progress>
    var core: seq<CoreRow>
    var account: Account
    var boosterCost: real
    var clock: int

    function Rows(): State
      reads this
    {
      State(orders, progress, core, account, boosterCost, clock)
    }

    predicate Valid()
      reads this
    {
      ValidConfig(config) && TablesOk(Rows())
    }

    constructor (config: Config, rows: State)
      requires ValidConfig(config) && TablesOk(rows)
      ensures Valid() && Rows() == rows && this.config == config
    {
      this.config := config;
      orders := rows.orders;
      progress := rows.progress;
      core := rows.core;
      account := rows.account;
      boosterCost := rows.boosterCost;
      clock := rows.clock;
    }

    // -------------------------------------------------------------- managed_account readers

    method RawManagedCash() returns (balance: real)
      ensures balance == RawCash(config, Rows())
    {
      balance := DelegatedCapital(config, account);
      if account.autoEnabled && account.accountingStart.None? {
        SumZero(orders, CashFlow(config, account));
        return;
      }
      for i := 0 to |orders|
        invariant balance == DelegatedCapital(config, account) + SumBy(orders[..i], CashFlow(config, account))
      {
        var row := orders[i];
        assert orders[..i + 1][..i] == orders[..i];
        if row.filled > 0 && Counted(account, row) {
          var price := if row.avg.Some? then row.avg.value else row.price;
          var gross := row.filled as real * price;
          if row.side.Buy? {
            balance := balance - gross * (1.0 + config.buyFee);
          } else {
            balance := balance + gross * (1.0 - config.sellFee);
          }
        }
      }
      assert orders[..|orders|] == orders;
    }

    method ReservedOpenBuy() returns (reserved: real)
      ensures reserved == Reserved(config, Rows())
    {
      reserved := 0.0;
      for i := 0 to |orders|
        invariant reserved == SumBy(orders[..i], Reservation(config))
      {
        var row := orders[i];
        assert orders[..i + 1][..i] == orders[..i];
        if row.side.Buy? && row.status.Open() {
          var remaining := MaxInt(0, row.qty - row.filled);
          if remaining > 0 {
            reserved := reserved + remaining as real * row.price * (1.0 + config.buyFee);
          }
        }
      }
      assert orders[..|orders|] == orders;
    }

    method CommittedCoreBuyQuantity(y: Symbol) returns (committed: int)
      ensures committed == Committed(Rows(), y)
    {
      committed := 0;
      for i := 0 to |orders|
        invariant committed == CountBy(orders[..i], Commitment(progress, y))
      {
        var row := orders[i];
        assert orders[..i + 1][..i] == orders[..i];
        if row.symbol == y && row.side.Buy? && row.purpose.CoreBuy? {
          var applied := if row.id in progress then progress[row.id].filled else 0;
          if row.status.Open() {
            committed := committed + MaxInt(0, row.qty - applied);
          } else {
            committed := committed + MaxInt(0, row.filled - applied);
          }
        }
      }
      assert orders[..|orders|] == orders;
    }

    method ManagedCostBasis() returns (total: real)
      ensures total == Invested(Rows())
    {
      total := 0.0;
      for j := 0 to |core|
        invariant total == SumBy(core[..j], RowCost())
      {
        assert core[..j + 1][..j] == core[..j];
        total := total + core[j].cost;
      }
      assert core[..|core|] == core;
      total := Max(0.0, boosterCost + total);
    }

    method FindOrder(id: ClientId) returns (k: nat)
      ensures k == IndexOf(orders, id)
    {
      k := 0;
      while k < |orders| && orders[k].id != id
        invariant k <= |orders|
        invariant IndexOf(orders[..k], id) == k
      {
        assert orders[..k + 1][..k] == orders[..k];
        k := k + 1;
      }
      FirstMatch(orders, id, k);
    }

    // -------------------------------------------------------------- transactions

    /** The part of the fixed (or, before it is fixed, recomputed) target still to be bought. */
    method RemainingCoreTarget(r: Request, budget: real, j: nat) returns (remaining: int)
      requires ValidConfig(config) && j < |core|
      requires budget == RiskBudget(config, Rows())
      ensures remaining == RemainingTarget(config, Rows(), r, core[j])
    {
      var target: int := core[j].targetQty;
      if target == 0 && core[j].targetWeight > 0.0 {
        target := TargetQuantity(budget, core[j].targetWeight, r.price, config.buyFee);
      }
      var committed := CommittedCoreBuyQuantity(r.symbol);
      remaining := MaxInt(0, target - core[j].qty - committed);
    }

    /** `reserve_buy_order_with_managed_cash`: on an error nothing is written. */
    method ReserveBuyOrder(r: Request, brokerCash: real) returns (out: Result<bool>)
      requires ValidConfig(config)
      modifies this`orders
      ensures out.Ok? ==> ReserveBuy(config, old(Rows()), r, brokerCash) == Ok((Rows(), out.value))
      ensures out.Err? ==> ReserveBuy(config, old(Rows()), r, brokerCash).Err? && Rows() == old(Rows())
    {
      if GatesClosed(account) {
        return Err("AUTO gate closed");
      }
      var rawCash := RawManagedCash();
      var invested := ManagedCostBasis();
      var budget := if account.riskBudget.Some? then account.riskBudget.value else DelegatedCapital(config, account);
      var reserved := ReservedOpenBuy();
      if r.purpose.CoreBuy? {
        var j := FindRow(r.symbol);
        if j == |core| {
          return Err("not a core target symbol");
        }
        var remaining := RemainingCoreTarget(r, budget, j);
        if r.qty > remaining {
          return Err("target quantity exceeded");
        }
      }
      var available := Max(0.0, Min(Min(rawCash - reserved, budget - invested - reserved), brokerCash));
      if Required(config, r) > available {
        return Err("risk budget or managed cash exceeded");
      }
      var k := FindOrder(r.id);
      if k < |orders| {
        return Ok(false);
      }
      orders := orders + [NewOrder(r, Buy, clock)];
      return Ok(true);
    }

    method FindRow(y: Symbol) returns (j: nat)
      ensures j == RowOf(core, y)
    {
      j := 0;
      while j < |core| && core[j].symbol != y
        invariant j <= |core|
        invariant RowOf(core[..j], y) == j
      {
        assert core[..j + 1][..j] == core[..j];
        j := j + 1;
      }
      FirstRow(core, y, j);
    }

    method UpdateOrderRow(u: Snapshot) returns (out: Result<()>)
      modifies this`orders
      ensures out.Ok? ==> UpdateOrder(old(Rows()), u) == Ok(Rows())
      ensures out.Err? ==> UpdateOrder(old(Rows()), u).Err? && Rows() == old(Rows())
    {
      var k := FindOrder(u.id);
      if k == |orders| {
        return Err("unknown order");
      }
      var existing := orders[k];
      if existing.status.Terminal() && u.status != existing.status {
        return Err("terminal status cannot change");
      }
      if u.filled.Some? {
        if u.filled.value < existing.filled {
          return Err("cumulative fill fell");
        }
        if u.filled.value > existing.qty {
          return Err("cumulative fill exceeds order");
        }
        if u.filled.value > 0 && u.avg.Some? && u.avg.value <= 0.0 {
          return Err("fill price not positive");
        }
      }
      var row := existing.(status := u.status);
      if u.brokerId.Some? {
        row := row.(brokerId := u.brokerId);
      }
      if u.filled.Some? {
        row := row.(filled := u.filled.value);
      }
      if u.avg.Some? {
        row := row.(avg := u.avg);
      }
      orders := orders[k := row];
      return Ok(());
    }

    /** The part of `apply_core_fill` between reading the rows and writing them. */
    method NextCoreRow(row: CoreRow, o: Order, applied: Progress) returns (out: Result<CoreRow>)
      requires applied.filled <= o.filled
      ensures out == AppliedRow(row, o, applied)
    {
      var delta := o.filled - applied.filled;
      var deltaNotional := Notional(o) - applied.notional;
      if delta > 0 && deltaNotional < 0.0 {
        return Err("cumulative notional fell");
      }
      if delta == 0 && deltaNotional == 0.0 {
        return Ok(row);
      }
      if o.side.Buy? {
        var nextQty := row.qty + delta;
        var nextCost := row.cost + deltaNotional;
        if nextCost < 0.0 {
          return Err("price correction makes cost negative");
        }
        var nextAvg := if nextQty > 0 then nextCost / nextQty as real else 0.0;
        return Ok(row.(qty := nextQty, avg := nextAvg, cost := nextCost));
      }
      if delta > row.qty {
        return Err("sold more than held");
      }
      var nextQty := row.qty - delta;
      var nextAvg := if nextQty > 0 then row.avg else 0.0;
      return Ok(row.(qty := nextQty, avg := nextAvg, cost := CostAt(nextAvg, nextQty)));
    }

    method ApplyCoreFillRow(id: ClientId) returns (out: Result<()>)
      modifies this`core, this`progress
      ensures out.Ok? ==> ApplyCoreFill(old(Rows()), id) == Ok(Rows())
      ensures out.Err? ==> ApplyCoreFill(old(Rows()), id).Err? && Rows() == old(Rows())
    {
      var k := FindOrder(id);
      if k == |orders| {
        return Err("unknown order");
      }
      var o := orders[k];
      var applied := if id in progress then progress[id] else Progress(0, 0.0);
      if o.filled < applied.filled {
        return Err("cumulative fill below applied");
      }
      var j := FindRow(o.symbol);
      if j == |core| {
        return Err("unknown symbol");
      }
      var next := NextCoreRow(core[j], o, applied);
      if next.Err? {
        return Err(next.reason);
      }
      if o.filled == applied.filled && Notional(o) == applied.notional {
        return Ok(());
      }
      core := core[j := next.value];
      progress := progress[id := Progress(o.filled, Notional(o))];
      return Ok(());
    }

    method UnappliedCoreFillOrderIds() returns (ids: seq<ClientId>)
      ensures ids == Unapplied(orders, progress)
    {
      ids := [];
      for i := 0 to |orders|
        invariant ids == Unapplied(orders[..i], progress)
      {
        var row := orders[i];
        assert orders[..i + 1][..i] == orders[..i];
        if !row.purpose.OtherPurpose? && row.filled > 0 {
          var applied := if row.id in progress then progress[row.id] else Progress(0, 0.0);
          var notional := row.filled as real * (if row.avg.Some? then row.avg.value else row.price);
          if row.filled != applied.filled || notional != applied.notional {
            ids := ids + [row.id];
          }
        }
      }
      assert orders[..|orders|] == orders;
    }

    /** `recover_unapplied_core_fills` at startup. */
    method RecoverUnappliedCoreFills() returns (complete: bool)
      requires Valid()
      modifies this`core, this`progress
      ensures (Rows(), complete) == Recover(old(Rows()))
      ensures complete ==> Quiescent(Rows())
    {
      ghost var before := Rows();
      var ids := UnappliedCoreFillOrderIds();
      complete := true;
      var i := 0;
      while i < |ids|
        invariant 0 <= i <= |ids|
        invariant orders == before.orders && account == before.account
        invariant boosterCost == before.boosterCost && clock == before.clock
        invariant ApplyAll(Rows(), ids[i..]) == ApplyAll(before, ids)
      {
        assert ids[i..][1..] == ids[i + 1..];
        var applied := ApplyCoreFillRow(ids[i]);
        if applied.Err? {
          return false;
        }
        i := i + 1;
      }
      assert ids[i..] == [];
      RecoveryEmptiesTheWindow(before);
    }
  }

  lemma {:induction false} FirstMatch(orders: seq<Order>, id: ClientId, k: nat)
    requires k <= |orders| && IndexOf(orders[..k], id) == k
    requires k < |orders| ==> orders[k].id == id
    ensures IndexOf(orders, id) == k
    decreases |orders|
  {
    if k == |orders| {
      assert orders[..k] == orders;
    } else if k == |orders| - 1 {
    } else {
      assert orders[..|orders| - 1][..k] == orders[..k];
      FirstMatch(orders[..|orders| - 1], id, k);
    }
  }

  lemma {:induction false} FirstRow(core: seq<CoreRow>, y: Symbol, j: nat)
    requires j <= |core| && RowOf(core[..j], y) == j
    requires j < |core| ==> core[j].symbol == y
    ensures RowOf(core, y) == j
    decreases |core|
  {
    if j == |core| {
      assert core[..j] == core;
    } else if j == |core| - 1 {
    } else {
      assert core[..|core| - 1][..j] == core[..j];
      FirstRow(core[..|core| - 1], y, j);
    }
  }
}
