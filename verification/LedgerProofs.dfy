/** What every ledger transaction keeps, and what whole runs of them guarantee. */
module LedgerProofs {
  import opened Sums
  import opened Ledger

  lemma ZeroNotional(o: Order)
    requires o.filled == 0
    ensures Notional(o) == 0.0
  {
  }

  // ---------------------------------------------------------------- lookups

  lemma {:induction false} IndexUnique(orders: seq<Order>, k: nat)
    requires UniqueIds(orders) && k < |orders|
    ensures IndexOf(orders, orders[k].id) == k
  {
  }

  lemma {:induction false} IndexSameIds(a: seq<Order>, b: seq<Order>, id: ClientId)
    requires |a| == |b| && forall i :: 0 <= i < |a| ==> a[i].id == b[i].id
    ensures IndexOf(a, id) == IndexOf(b, id)
  {
    if |a| > 0 {
      IndexSameIds(a[..|a| - 1], b[..|b| - 1], id);
    }
  }

  lemma {:induction false} IndexAppend(a: seq<Order>, o: Order, id: ClientId)
    ensures IndexOf(a, id) < |a| ==> IndexOf(a + [o], id) == IndexOf(a, id)
    ensures IndexOf(a + [o], id) <= |a| || (id != o.id && IndexOf(a, id) == |a|)
  {
    assert (a + [o])[..|a|] == a;
  }

  lemma {:induction false} RowSameSymbols(a: seq<CoreRow>, b: seq<CoreRow>, y: Symbol)
    requires |a| == |b| && forall i :: 0 <= i < |a| ==> a[i].symbol == b[i].symbol
    ensures RowOf(a, y) == RowOf(b, y)
  {
    if |a| > 0 {
      RowSameSymbols(a[..|a| - 1], b[..|b| - 1], y);
    }
  }

  // ---------------------------------------------------------------- ledger quantities

  function TargetOf(s: State, y: Symbol): int
  {
    var k := RowOf(s.core, y);
    if k < |s.core| then s.core[k].targetQty else 0
  }

  function CostOf(s: State, y: Symbol): real
  {
    var k := RowOf(s.core, y);
    if k < |s.core| then s.core[k].cost else 0.0
  }

  /** Shares of `y` held plus shares every BUY could still add. */
  function Exposure(s: State, y: Symbol): int
  {
    HeldQty(s, y) + Committed(s, y)
  }

  predicate CoreOrderOf(o: Order, y: Symbol)
  {
    o.symbol == y && !o.purpose.OtherPurpose?
  }

  function Signed(o: Order, n: int): int
  {
    if o.side.Buy? then n else -n
  }

  function NetApplied(progress: map<ClientId, Progress>, y: Symbol): Order -> int
  {
    (o: Order) => if CoreOrderOf(o, y) then Signed(o, Applied(progress, o.id).filled) else 0
  }

  function NetFilled(y: Symbol): Order -> int
  {
    (o: Order) => if CoreOrderOf(o, y) then Signed(o, o.filled) else 0
  }

  function AppliedBuyNotional(progress: map<ClientId, Progress>, y: Symbol): Order -> real
  {
    (o: Order) => if CoreOrderOf(o, y) && o.side.Buy? then Applied(progress, o.id).notional else 0.0
  }

  function FilledBuyNotional(y: Symbol): Order -> real
  {
    (o: Order) => if CoreOrderOf(o, y) && o.side.Buy? then Notional(o) else 0.0
  }

  /** Held shares that no order row explains: what the account started with. */
  function OpeningQty(s: State, y: Symbol): int
  {
    HeldQty(s, y) - CountBy(s.orders, NetApplied(s.progress, y))
  }

  function OpeningCost(s: State, y: Symbol): real
  {
    CostOf(s, y) - SumBy(s.orders, AppliedBuyNotional(s.progress, y))
  }

  predicate BuyOnly(s: State, y: Symbol)
  {
    forall i :: 0 <= i < |s.orders| && CoreOrderOf(s.orders[i], y) ==> s.orders[i].side.Buy?
  }

  function WindowNotional(progress: map<ClientId, Progress>): Order -> real
  {
    (o: Order) => if o.side.Buy? && o.purpose.CoreBuy? then Notional(o) - Applied(progress, o.id).notional else 0.0
  }

  /** Cost in the ledger, plus BUY fills still outside it, plus open BUY reservations. */
  function Deployed(c: Config, s: State): real
  {
    s.boosterCost + SumBy(s.core, RowCost()) + SumBy(s.orders, WindowNotional(s.progress)) + Reserved(c, s)
  }

  /** The only changes applying fills may make. */
  ghost predicate FillsMoved(c: Config, s: State, t: State)
  {
    && TablesOk(t)
    && t.orders == s.orders && t.account == s.account && t.boosterCost == s.boosterCost && t.clock == s.clock
    && Deployed(c, t) <= Deployed(c, s)
    && |t.core| == |s.core|
    && (forall y :: Exposure(t, y) <= Exposure(s, y))
    && (forall y :: OpeningQty(t, y) == OpeningQty(s, y))
    && (forall y :: TargetOf(t, y) == TargetOf(s, y))
    && (forall y :: BuyOnly(s, y) ==> OpeningCost(t, y) == OpeningCost(s, y))
  }

  /** What the share laws need of the tables: keys in order, nothing applied that was not filled. */
  predicate KeysOk(s: State)
  {
    && UniqueIds(s.orders)
    && (forall id :: id in s.progress ==> IndexOf(s.orders, id) < |s.orders|)
    && (forall i :: 0 <= i < |s.orders| ==> AppliedOk(s.progress, s.orders[i]))
  }

  predicate AppliedOk(progress: map<ClientId, Progress>, o: Order)
  {
    && Applied(progress, o.id).filled <= o.filled
    && (Applied(progress, o.id).filled == 0 ==> Applied(progress, o.id).notional == 0.0)
    && (o.purpose.OtherPurpose? ==> o.id !in progress)
  }

  /** Shares and BUY cost move by what is new, whatever it cost. */
  lemma AppliedRowMoves(row: CoreRow, o: Order, p: Progress)
    requires p.filled <= o.filled && AppliedRow(row, o, p).Ok?
    ensures
      var n := AppliedRow(row, o, p).value;
      && n.qty == row.qty + Signed(o, o.filled - p.filled)
      && (o.side.Buy? ==> n.cost == row.cost + Notional(o) - p.notional)
      && n.symbol == row.symbol && n.targetQty == row.targetQty && n.targetWeight == row.targetWeight
  {
  }

  lemma AppliedRowKeeps(row: CoreRow, o: Order, p: Progress)
    requires RowOk(row) && p.filled <= o.filled
    requires AppliedRow(row, o, p).Ok?
    ensures
      var n := AppliedRow(row, o, p).value;
      && RowOk(n)
      && n.qty == row.qty + Signed(o, o.filled - p.filled)
      && (o.side.Buy? ==> n.cost == row.cost + Notional(o) - p.notional)
      && (o.side.Sell? ==> n.cost <= row.cost)
      && n.symbol == row.symbol && n.targetQty == row.targetQty && n.targetWeight == row.targetWeight
  {
    var n := AppliedRow(row, o, p).value;
    if o.side.Sell? {
      assert n.qty == row.qty - (o.filled - p.filled);
      if n.qty > 0 {
        assert row.avg * n.qty as real <= row.avg * row.qty as real;
      } else {
        assert n == row || n.cost == 0.0 * n.qty as real;
      }
    }
  }

  /** `t` is `s` after order `k` reached row `j`. */
  ghost predicate AppliedAt(s: State, t: State, k: nat, j: nat)
  {
    && UniqueIds(s.orders) && k < |s.orders| && j < |s.core|
    && j == RowOf(s.core, s.orders[k].symbol)
    && !s.orders[k].purpose.OtherPurpose?
    && var p := Applied(s.progress, s.orders[k].id);
       var o := s.orders[k];
       && p.filled <= o.filled && AppliedRow(s.core[j], o, p).Ok?
       && t == s.(core := s.core[j := AppliedRow(s.core[j], o, p).value],
                  progress := s.progress[o.id := Progress(o.filled, Notional(o))])
  }

  lemma AppliedShares(s: State, t: State, k: nat, j: nat, y: Symbol)
    requires AppliedAt(s, t, k, j)
    ensures OpeningQty(t, y) == OpeningQty(s, y)
    ensures TargetOf(t, y) == TargetOf(s, y)
  {
    AppliedRowMoves(s.core[j], s.orders[k], Applied(s.progress, s.orders[k].id));
    RowSameSymbols(s.core, t.core, y);
    CountOneRow(s.orders, s.orders, NetApplied(s.progress, y), NetApplied(t.progress, y), k);
  }

  lemma AppliedExposure(s: State, t: State, k: nat, j: nat, y: Symbol)
    requires TablesOk(s) && AppliedAt(s, t, k, j)
    ensures Exposure(t, y) <= Exposure(s, y)
  {
    AppliedRowKeeps(s.core[j], s.orders[k], Applied(s.progress, s.orders[k].id));
    RowSameSymbols(s.core, t.core, y);
    CountOneRow(s.orders, s.orders, Commitment(s.progress, y), Commitment(t.progress, y), k);
  }

  lemma AppliedCost(s: State, t: State, k: nat, j: nat, y: Symbol)
    requires AppliedAt(s, t, k, j)
    requires BuyOnly(s, y)
    ensures OpeningCost(t, y) == OpeningCost(s, y)
  {
    AppliedRowMoves(s.core[j], s.orders[k], Applied(s.progress, s.orders[k].id));
    RowSameSymbols(s.core, t.core, y);
    SumOneRow(s.orders, s.orders, AppliedBuyNotional(s.progress, y), AppliedBuyNotional(t.progress, y), k);
  }

  lemma AppliedDeployed(c: Config, s: State, t: State, k: nat, j: nat)
    requires TablesOk(s) && AppliedAt(s, t, k, j)
    ensures Deployed(c, t) <= Deployed(c, s)
  {
    AppliedRowKeeps(s.core[j], s.orders[k], Applied(s.progress, s.orders[k].id));
    SumOneRow(s.core, t.core, RowCost(), RowCost(), j);
    SumOneRow(s.orders, s.orders, WindowNotional(s.progress), WindowNotional(t.progress), k);
  }

  lemma AppliedTables(s: State, t: State, k: nat, j: nat)
    requires TablesOk(s) && AppliedAt(s, t, k, j)
    ensures TablesOk(t)
  {
    AppliedRowKeeps(s.core[j], s.orders[k], Applied(s.progress, s.orders[k].id));
    IndexUnique(s.orders, k);
    forall i | 0 <= i < |t.orders| ensures OrderOk(t, t.orders[i]) {
      assert OrderOk(s, s.orders[i]) && (i != k ==> s.orders[i].id != s.orders[k].id);
    }
    forall i | 0 <= i < |t.core| ensures RowOk(t.core[i]) {
      assert RowOk(s.core[i]);
    }
  }

  lemma AppliedKeys(s: State, t: State, k: nat, j: nat)
    requires KeysOk(s) && AppliedAt(s, t, k, j)
    ensures KeysOk(t)
  {
    IndexUnique(s.orders, k);
    forall i | 0 <= i < |t.orders| ensures AppliedOk(t.progress, t.orders[i]) {
      assert AppliedOk(s.progress, s.orders[i]) && (i != k ==> s.orders[i].id != s.orders[k].id);
    }
  }

  /** What an application that books anything did. */
  lemma ApplyIsAt(s: State, id: ClientId)
    requires UniqueIds(s.orders) && ApplyCoreFill(s, id).Ok?
    requires !s.orders[IndexOf(s.orders, id)].purpose.OtherPurpose?
    ensures
      var t, k := ApplyCoreFill(s, id).value, IndexOf(s.orders, id);
      t == s || AppliedAt(s, t, k, RowOf(s.core, s.orders[k].symbol))
  {
  }

  /** One application and the share laws. */
  lemma ApplyKeepsShares(s: State, id: ClientId, y: Symbol)
    requires KeysOk(s) && ApplyCoreFill(s, id).Ok?
    requires !s.orders[IndexOf(s.orders, id)].purpose.OtherPurpose?
    ensures
      var t := ApplyCoreFill(s, id).value;
      && KeysOk(t) && t.orders == s.orders && OpeningQty(t, y) == OpeningQty(s, y)
      && (BuyOnly(s, y) ==> OpeningCost(t, y) == OpeningCost(s, y))
  {
    var t, k := ApplyCoreFill(s, id).value, IndexOf(s.orders, id);
    var j := RowOf(s.core, s.orders[k].symbol);
    ApplyIsAt(s, id);
    if t != s {
      AppliedKeys(s, t, k, j);
      AppliedShares(s, t, k, j, y);
      if BuyOnly(s, y) {
        AppliedCost(s, t, k, j, y);
      }
    }
  }

  lemma {:induction false} ApplyAllKeepsOrders(s: State, ids: seq<ClientId>)
    ensures ApplyAll(s, ids).0.orders == s.orders
    decreases |ids|
  {
    if |ids| > 0 && ApplyCoreFill(s, ids[0]).Ok? {
      ApplyAllKeepsOrders(ApplyCoreFill(s, ids[0]).value, ids[1..]);
    }
  }

  lemma {:induction false} ApplyAllKeepsShares(s: State, ids: seq<ClientId>, y: Symbol)
    requires KeysOk(s) && CoreIds(s, ids)
    ensures
      var t := ApplyAll(s, ids).0;
      && KeysOk(t) && OpeningQty(t, y) == OpeningQty(s, y)
      && (BuyOnly(s, y) ==> OpeningCost(t, y) == OpeningCost(s, y))
    decreases |ids|
  {
    if |ids| > 0 && ApplyCoreFill(s, ids[0]).Ok? {
      ApplyKeepsShares(s, ids[0], y);
      ApplyAllKeepsShares(ApplyCoreFill(s, ids[0]).value, ids[1..], y);
    }
  }

  lemma ApplyMovesFills(c: Config, s: State, id: ClientId)
    requires TablesOk(s)
    requires ApplyCoreFill(s, id).Ok?
    requires !s.orders[IndexOf(s.orders, id)].purpose.OtherPurpose?
    ensures FillsMoved(c, s, ApplyCoreFill(s, id).value)
  {
    var t := ApplyCoreFill(s, id).value;
    var k := IndexOf(s.orders, id);
    var j := RowOf(s.core, s.orders[k].symbol);
    ApplyIsAt(s, id);
    if t != s {
      AppliedTables(s, t, k, j);
      AppliedDeployed(c, s, t, k, j);
      forall y
        ensures Exposure(t, y) <= Exposure(s, y)
        ensures OpeningQty(t, y) == OpeningQty(s, y)
        ensures TargetOf(t, y) == TargetOf(s, y)
        ensures BuyOnly(s, y) ==> OpeningCost(t, y) == OpeningCost(s, y)
      {
        AppliedShares(s, t, k, j, y);
        AppliedExposure(s, t, k, j, y);
        if BuyOnly(s, y) {
          AppliedCost(s, t, k, j, y);
        }
      }
    }
  }

  // ---------------------------------------------------------------- recovery after a crash

  lemma {:induction false} UnappliedExact(orders: seq<Order>, progress: map<ClientId, Progress>, id: ClientId)
    ensures id in Unapplied(orders, progress) <==>
            exists i :: 0 <= i < |orders| && Unsettled(progress, orders[i]) && orders[i].id == id
  {
    if |orders| > 0 {
      var n := |orders| - 1;
      UnappliedExact(orders[..n], progress, id);
      assert forall i :: 0 <= i < n ==> orders[..n][i] == orders[i];
    }
  }

  lemma QuiescentExact(s: State)
    ensures Quiescent(s) <==> forall i :: 0 <= i < |s.orders| ==> !Unsettled(s.progress, s.orders[i])
  {
    var ids := Unapplied(s.orders, s.progress);
    if |ids| > 0 {
      UnappliedExact(s.orders, s.progress, ids[0]);
    }
    forall i | 0 <= i < |s.orders| && Unsettled(s.progress, s.orders[i])
      ensures |ids| > 0
    {
      UnappliedExact(s.orders, s.progress, s.orders[i].id);
    }
  }

  predicate CoreIds(s: State, ids: seq<ClientId>)
  {
    forall i :: 0 <= i < |ids| ==>
      var k := IndexOf(s.orders, ids[i]);
      k < |s.orders| ==> !s.orders[k].purpose.OtherPurpose?
  }

  lemma {:induction false} ApplyAllMovesFills(c: Config, s: State, ids: seq<ClientId>)
    requires TablesOk(s) && CoreIds(s, ids)
    ensures FillsMoved(c, s, ApplyAll(s, ids).0)
    decreases |ids|
  {
    if |ids| > 0 && ApplyCoreFill(s, ids[0]).Ok? {
      ApplyMovesFills(c, s, ids[0]);
      var t := ApplyCoreFill(s, ids[0]).value;
      ApplyAllMovesFills(c, t, ids[1..]);
      var u := ApplyAll(t, ids[1..]).0;
      forall y | BuyOnly(s, y) ensures OpeningCost(u, y) == OpeningCost(s, y) {
        assert BuyOnly(t, y);
      }
      forall y
        ensures Exposure(u, y) <= Exposure(s, y) && OpeningQty(u, y) == OpeningQty(s, y) && TargetOf(u, y) == TargetOf(s, y)
      {
        assert Exposure(t, y) <= Exposure(s, y) && OpeningQty(t, y) == OpeningQty(s, y) && TargetOf(t, y) == TargetOf(s, y);
      }
    }
  }

  lemma {:induction false} ApplyAllSettles(s: State, ids: seq<ClientId>, k: nat)
    requires TablesOk(s) && CoreIds(s, ids) && k < |s.orders|
    requires ApplyAll(s, ids).1
    ensures Unsettled(ApplyAll(s, ids).0.progress, s.orders[k]) ==>
              Unsettled(s.progress, s.orders[k]) && s.orders[k].id !in ids
    decreases |ids|
  {
    if |ids| > 0 {
      ApplyMovesFills(Config(0.0, 0.0, 0.0), s, ids[0]);
      ApplyAllSettles(ApplyCoreFill(s, ids[0]).value, ids[1..], k);
      assert s.orders[k].id == ids[0] ==> s.orders[k] == s.orders[IndexOf(s.orders, ids[0])] by {
        IndexUnique(s.orders, k);
      }
    }
  }

  lemma RecoveryIsCore(s: State)
    requires UniqueIds(s.orders)
    ensures CoreIds(s, Unapplied(s.orders, s.progress))
  {
    var ids := Unapplied(s.orders, s.progress);
    forall i | 0 <= i < |ids|
      ensures
        var k := IndexOf(s.orders, ids[i]);
        k < |s.orders| ==> !s.orders[k].purpose.OtherPurpose?
    {
      UnappliedExact(s.orders, s.progress, ids[i]);
      var m :| 0 <= m < |s.orders| && Unsettled(s.progress, s.orders[m]) && s.orders[m].id == ids[i];
      IndexUnique(s.orders, m);
    }
  }

  /** A recovery that raises nothing leaves no fill outside the ledger. */
  lemma RecoveryEmptiesTheWindow(s: State)
    requires TablesOk(s)
    requires Recover(s).1
    ensures Quiescent(Recover(s).0)
    ensures Recover(s).0.orders == s.orders
  {
    var t := Recover(s).0;
    RecoveryIsCore(s);
    ApplyAllMovesFills(Config(0.0, 0.0, 0.0), s, Unapplied(s.orders, s.progress));
    forall k | 0 <= k < |t.orders| ensures !Unsettled(t.progress, t.orders[k]) {
      ApplyAllSettles(s, Unapplied(s.orders, s.progress), k);
      UnappliedExact(s.orders, s.progress, s.orders[k].id);
    }
    QuiescentExact(t);
  }

  /** With nothing pending, holdings are a function of the order table alone. */
  lemma QuiescentHoldings(s: State, y: Symbol)
    requires KeysOk(s) && Quiescent(s)
    ensures HeldQty(s, y) == OpeningQty(s, y) + CountBy(s.orders, NetFilled(y))
    ensures CostOf(s, y) == OpeningCost(s, y) + SumBy(s.orders, FilledBuyNotional(y))
  {
    QuiescentExact(s);
    forall i | 0 <= i < |s.orders| && !s.orders[i].purpose.OtherPurpose?
      ensures Applied(s.progress, s.orders[i].id) == Progress(s.orders[i].filled, Notional(s.orders[i]))
    {
      assert AppliedOk(s.progress, s.orders[i]) && !Unsettled(s.progress, s.orders[i]);
    }
    CountAgree(s.orders, s.orders, NetApplied(s.progress, y), NetFilled(y));
    SumAgree(s.orders, s.orders, AppliedBuyNotional(s.progress, y), FilledBuyNotional(y));
  }
}
