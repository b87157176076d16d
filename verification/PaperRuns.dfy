/**
 The dry-run broker's own runs: orders placed, traded, canceled and polled, each answer stored and
 applied to the core ledger as it comes. Ledger and paper account then never part.
 */
module PaperRuns {
  import opened Numeric
  import opened Results
  import opened Ledger
  import opened LedgerProofs
  import opened LedgerRuns
  import opened DryRun

  // ---------------------------------------------------------------- the broker alone

  /** Nothing but new shares changes what an order cost. */
  predicate OnlyShares(o: Order, n: Order)
  {
    n.id == o.id && o.filled <= n.filled && (n.filled == o.filled ==> Notional(n) == Notional(o))
  }

  /** Every order the broker had, with nothing but new shares. */
  predicate BookGrows(b: Broker, c: Broker)
  {
    |b.orders| <= |c.orders| && forall i :: 0 <= i < |b.orders| ==> OnlyShares(b.orders[i].order, c.orders[i].order)
  }

  lemma CompletionOnlyShares(o: Order, price: real)
    ensures OnlyShares(o, Completed(o, price))
  {
  }

  /** No operation of the broker ever corrects the price of an execution. */
  lemma BrokerNeverCorrects(b: Broker, r: Request, side: Side, market: bool, price: real, k: nat)
    ensures BookGrows(b, Placed(b, r, side, market, price).0)
    ensures k < |b.orders| ==> BookGrows(b, RestFilled(b, k, price).0) && BookGrows(b, CanceledAt(b, k))
  {
    PlacingOnlyAdds(b, r, side, market, price);
    if k < |b.orders| {
      CompletionOnlyShares(b.orders[k].order, price);
    }
  }

  lemma PlacingOnlyAdds(b: Broker, r: Request, side: Side, market: bool, price: real)
    ensures
      var c := Placed(b, r, side, market, price).0;
      |b.orders| <= |c.orders| && forall i :: 0 <= i < |b.orders| ==> c.orders[i] == b.orders[i]
  {
  }

  // ---------------------------------------------------------------- broker and ledger together

  /** What a refresh stores of a broker order. */
  function SnapshotOf(o: Order): Snapshot
  {
    Snapshot(o.id, o.status, None, Some(o.filled), o.avg)
  }

  /** Refresh, then apply. */
  function Synced(s: State, o: Order): Result<State>
  {
    var u := UpdateOrder(s, SnapshotOf(o));
    if u.Err? then u else ApplyCoreFill(u.value, o.id)
  }

  datatype Act =
    | OrderSent(r: Request, side: Side, market: bool, price: real)
    | Traded(k: nat, price: real)
    | CancelSent(k: nat)
    | Polled(k: nat)
    | OnLedger(e: Event)

  function SyncedWith(s: State, b: Broker, o: Order): Result<(State, Broker)>
  {
    var t := Synced(s, o);
    if t.Err? then Err(t.reason) else Ok((t.value, b))
  }

  /** One act; an error is a call that raised. */
  function Acted(c: Config, s: State, b: Broker, a: Act): Result<(State, Broker)>
    requires ValidConfig(c)
  {
    match a
    case OrderSent(r, side, market, price) =>
      var out := Placed(b, r, side, market, price);
      if out.1.Err? then Err(out.1.reason) else SyncedWith(s, out.0, out.1.value.order)
    case Traded(k, price) =>
      if k >= |b.orders| then Ok((s, b))
      else
        var out := RestFilled(b, k, price);
        if out.1.Err? then Err(out.1.reason) else SyncedWith(s, out.0, out.0.orders[k].order)
    case CancelSent(k) =>
      if k >= |b.orders| then Ok((s, b)) else SyncedWith(s, CanceledAt(b, k), CanceledAt(b, k).orders[k].order)
    case Polled(k) => if k >= |b.orders| then Ok((s, b)) else SyncedWith(s, b, b.orders[k].order)
    case OnLedger(e) => Ok((Step(c, s, e), b))
  }

  predicate Requested(o: Order, r: Request, side: Side)
  {
    && o.symbol == r.symbol && o.side == side && o.qty == r.qty && o.price == r.price && o.purpose == r.purpose
    && !o.purpose.OtherPurpose?
  }

  /** Orders are reserved in the ledger, then placed; quotes are positive; a resting order trades at its limit
      or better; every other ledger transaction may happen in between. */
  predicate ActAllowed(s: State, b: Broker, a: Act)
  {
    match a
    case OrderSent(r, side, market, price) =>
      var k := IndexOf(s.orders, r.id);
      && price > 0.0 && r.qty > 0 && (market ==> side.Sell?)
      && k < |s.orders| && Requested(s.orders[k], r, side)
      && (PlaceOf(b.orders, r.id) == |b.orders| ==> s.orders[k].status.Created? && s.orders[k].filled == 0)
    case Traded(k, price) => price > 0.0 && (k < |b.orders| ==> Fillable(b.orders[k].order, false, price))
    case CancelSent(_) => true
    case Polled(_) => true
    case OnLedger(e) => Allowed(s, e) && !e.OrderRefreshed? && !e.FillApplied? && !e.Recovered?
  }

  function ActRun(c: Config, s: State, b: Broker, acts: seq<Act>): Result<(State, Broker)>
    requires ValidConfig(c)
  {
    if |acts| == 0 then Ok((s, b))
    else
      var m := ActRun(c, s, b, acts[..|acts| - 1]);
      if m.Err? then m else Acted(c, m.value.0, m.value.1, acts[|acts| - 1])
  }

  predicate ActsAllowed(c: Config, s: State, b: Broker, acts: seq<Act>)
    requires ValidConfig(c)
  {
    |acts| > 0 ==>
      && ActsAllowed(c, s, b, acts[..|acts| - 1])
      && var m := ActRun(c, s, b, acts[..|acts| - 1]);
         m.Ok? ==> ActAllowed(m.value.0, m.value.1, acts[|acts| - 1])
  }

  // ---------------------------------------------------------------- what keeps them together

  predicate SoundOrder(o: Order)
  {
    && 0 < o.qty && o.filled <= o.qty && (o.filled > 0 ==> o.avg.Some? && o.avg.value > 0.0)
    && (o.status.Pending? || o.status.PartialFilled? || o.status.Filled? || o.status.Canceled?)
  }

  /** The row says what the broker's order says; an open row may lag behind in status. */
  predicate SameExecution(row: Order, o: Order)
  {
    && row.id == o.id && row.symbol == o.symbol && row.side == o.side && row.qty == o.qty && row.price == o.price
    && !row.purpose.OtherPurpose? && (row.status.Terminal() ==> row.status == o.status) && row.filled == o.filled
    && (o.filled > 0 ==> row.avg == o.avg)
  }

  predicate OrderLinked(orders: seq<Order>, applied: map<ClientId, Progress>, o: Order)
  {
    var k := IndexOf(orders, o.id);
    && SoundOrder(o) && k < |orders| && SameExecution(orders[k], o)
    && Applied(applied, o.id) == Progress(o.filled, Notional(o))
  }

  /** The ledger has applied what the broker has. */
  predicate MarkLinked(progress: map<ClientId, Progress>, o: Order)
  {
    Applied(progress, o.id).filled == o.filled && (o.side.Buy? ==> Applied(progress, o.id).notional == Notional(o))
  }

  ghost predicate Linked(s: State, b: Broker)
  {
    && (forall i :: 0 <= i < |b.orders| ==> OrderLinked(s.orders, b.account.applied, b.orders[i].order))
    && (forall i :: 0 <= i < |b.orders| ==> MarkLinked(s.progress, b.orders[i].order))
    && (forall i, j :: 0 <= i < j < |b.orders| ==> b.orders[i].order.id != b.orders[j].order.id)
    && (forall id :: id in b.account.applied ==> PlaceOf(b.orders, id) < |b.orders|)
  }

  ghost predicate Together(s: State, b: Broker)
  {
    TablesOk(s) && HoldingsMatch(s.core, b.account) && Linked(s, b)
  }

  /** The broker's order is the row's future, and a fair one. */
  predicate Advances(row: Order, o: Order)
  {
    && row.id == o.id && row.symbol == o.symbol && row.side == o.side && row.qty == o.qty && row.price == o.price
    && !row.purpose.OtherPurpose? && row.filled <= o.filled
    && (row.status.Terminal() ==> o.status == row.status && o.filled == row.filled)
    && (o.side.Buy? ==> Notional(o) - Notional(row) <= (o.filled - row.filled) as real * o.price)
    && (o.side.Sell? ==> Notional(o) >= Notional(row))
  }

  lemma SameFill(a: Paper, o: Order, n: Order)
    requires n.id == o.id && n.symbol == o.symbol && n.side == o.side && n.filled == o.filled && Notional(n) == Notional(o)
    ensures ApplyFill(a, n) == ApplyFill(a, o)
  {
  }

  lemma StoredNotional(row: Order, o: Order)
    requires row.id == o.id && (o.filled > 0 ==> o.avg.Some?)
    ensures Notional(Refreshed(row, SnapshotOf(o))) == Notional(o)
  {
    if o.filled == 0 {
      ZeroNotional(Refreshed(row, SnapshotOf(o)));
      ZeroNotional(o);
    }
  }

  /** The row as a refresh leaves it. */
  function Stored(s: State, o: Order): Order
    requires IndexOf(s.orders, o.id) < |s.orders|
  {
    Refreshed(s.orders[IndexOf(s.orders, o.id)], SnapshotOf(o))
  }

  lemma SyncedRows(s: State, o: Order)
    requires IndexOf(s.orders, o.id) < |s.orders| && Synced(s, o).Ok?
    ensures Synced(s, o).value.orders == s.orders[IndexOf(s.orders, o.id) := Stored(s, o)]
    ensures UpdateOrder(s, SnapshotOf(o)) == Ok(s.(orders := s.orders[IndexOf(s.orders, o.id) := Stored(s, o)]))
  {
  }

  lemma StoredRow(s: State, o: Order)
    requires SoundOrder(o) && IndexOf(s.orders, o.id) < |s.orders| && Advances(s.orders[IndexOf(s.orders, o.id)], o)
    ensures SameExecution(Stored(s, o), o) && Notional(Stored(s, o)) == Notional(o)
    ensures FairRefresh(s.orders[IndexOf(s.orders, o.id)], Stored(s, o))
  {
    StoredNotional(s.orders[IndexOf(s.orders, o.id)], o);
  }

  /** Storing and applying the broker's answer is one joint step with the broker's own fill. */
  lemma SyncIsAJointStep(s: State, a: Paper, a': Paper, o: Order)
    requires SoundOrder(o)
    requires IndexOf(s.orders, o.id) < |s.orders| && Advances(s.orders[IndexOf(s.orders, o.id)], o)
    requires ApplyFill(a, o) == Ok(a') && Synced(s, o).Ok?
    ensures JointStep(s, a, SnapshotOf(o)) == Ok((Synced(s, o).value, a'))
  {
    SyncedRows(s, o);
    StoredRow(s, o);
    SameFill(a, o, Stored(s, o));
  }

  lemma SyncIsFair(s: State, a: Paper, o: Order)
    requires SoundOrder(o)
    requires IndexOf(s.orders, o.id) < |s.orders| && Advances(s.orders[IndexOf(s.orders, o.id)], o)
    requires MarkAt(s, a, IndexOf(s.orders, o.id))
    requires
      var p := Applied(a.applied, o.id);
      o.filled == p.filled ==> Notional(o) == p.notional
    requires Synced(s, o).Ok?
    ensures Allowed(s, OrderRefreshed(SnapshotOf(o))) && NoBuyCorrection(s, SnapshotOf(o))
  {
    SyncedRows(s, o);
    StoredRow(s, o);
  }

  /** Applying moves this order's mark in the ledger, to where the broker's mark is. */
  lemma SyncMarks(s: State, o: Order)
    requires IndexOf(s.orders, o.id) < |s.orders| && SameExecution(Stored(s, o), o) && Notional(Stored(s, o)) == Notional(o)
    requires Synced(s, o).Ok?
    ensures forall id :: id != o.id ==> Applied(Synced(s, o).value.progress, id) == Applied(s.progress, id)
    ensures MarkLinked(Synced(s, o).value.progress, o)
  {
    SyncedRows(s, o);
    IndexSameIds(s.orders, s.orders[IndexOf(s.orders, o.id) := Stored(s, o)], o.id);
  }

  /** The order answered, stored and applied: everything still matches. */
  lemma SyncMatches(s: State, a: Paper, a': Paper, o: Order)
    requires TablesOk(s) && HoldingsMatch(s.core, a) && SoundOrder(o)
    requires IndexOf(s.orders, o.id) < |s.orders| && Advances(s.orders[IndexOf(s.orders, o.id)], o)
    requires MarkAt(s, a, IndexOf(s.orders, o.id)) && ApplyFill(a, o) == Ok(a')
    requires
      var p := Applied(a.applied, o.id);
      o.filled == p.filled ==> Notional(o) == p.notional
    requires Synced(s, o).Ok?
    ensures TablesOk(Synced(s, o).value) && HoldingsMatch(Synced(s, o).value.core, a')
    ensures forall id :: id != o.id ==> Applied(Synced(s, o).value.progress, id) == Applied(s.progress, id)
    ensures MarkLinked(Synced(s, o).value.progress, o)
  {
    SyncedRows(s, o);
    StoredRow(s, o);
    SyncMarks(s, o);
    SyncIsAJointStep(s, a, a', o);
    SyncIsFair(s, a, o);
    JointStepMatches(s, a, SnapshotOf(o));
  }

  /** An order the acts did not touch stays linked. */
  lemma LinkKept(orders: seq<Order>, n: Order, applied: map<ClientId, Progress>, applied': map<ClientId, Progress>, k: nat, x: Order)
    requires k < |orders| && orders[k].id == n.id && x.id != n.id && OrderLinked(orders, applied, x)
    requires forall id :: id != n.id ==> Applied(applied', id) == Applied(applied, id)
    ensures OrderLinked(orders[k := n], applied', x)
  {
    IndexSameIds(orders, orders[k := n], x.id);
  }

  /** An order that changes nothing is applied as nothing. */
  lemma AppliedAlready(a: Paper, o: Order)
    requires Applied(a.applied, o.id) == Progress(o.filled, Notional(o))
    ensures ApplyFill(a, o) == Ok(a)
  {
  }

  lemma FillMarks(a: Paper, o: Order)
    requires ApplyFill(a, o).Ok?
    requires o.filled == Applied(a.applied, o.id).filled ==> Notional(o) == Applied(a.applied, o.id).notional
    ensures
      var a' := ApplyFill(a, o).value;
      && Applied(a'.applied, o.id) == Progress(o.filled, Notional(o))
      && (forall id :: id != o.id ==> Applied(a'.applied, id) == Applied(a.applied, id))
      && (forall id :: id in a'.applied ==> id in a.applied || id == o.id)
  {
  }

  /** The stored row is linked to the order it came from. */
  lemma StoredIsLinked(s: State, applied: map<ClientId, Progress>, o: Order)
    requires SoundOrder(o) && IndexOf(s.orders, o.id) < |s.orders| && Advances(s.orders[IndexOf(s.orders, o.id)], o)
    requires Applied(applied, o.id) == Progress(o.filled, Notional(o))
    ensures OrderLinked(s.orders[IndexOf(s.orders, o.id) := Stored(s, o)], applied, o)
  {
    StoredRow(s, o);
    IndexSameIds(s.orders, s.orders[IndexOf(s.orders, o.id) := Stored(s, o)], o.id);
  }

  /** The general step: order `i` of the broker becomes `o`, its account `a'`, and the ledger hears of it. */
  lemma OrderMoves(s: State, b: Broker, i: nat, o: Order, a': Paper)
    requires Together(s, b) && i < |b.orders| && SoundOrder(o) && o.id == b.orders[i].order.id
    requires IndexOf(s.orders, o.id) < |s.orders| && Advances(s.orders[IndexOf(s.orders, o.id)], o)
    requires ApplyFill(b.account, o) == Ok(a')
    requires o.filled == b.orders[i].order.filled ==> Notional(o) == Notional(b.orders[i].order)
    requires Synced(s, o).Ok?
    ensures
      var c := b.(orders := b.orders[i := b.orders[i].(order := o)], account := a');
      Together(Synced(s, o).value, c)
  {
    assert OrderLinked(s.orders, b.account.applied, b.orders[i].order) && MarkLinked(s.progress, b.orders[i].order);
    var t := Synced(s, o).value;
    FillMarks(b.account, o);
    SyncMatches(s, b.account, a', o);
    SyncedRows(s, o);
    StoredIsLinked(s, a'.applied, o);
    var c := b.(orders := b.orders[i := b.orders[i].(order := o)], account := a');
    forall j | 0 <= j < |c.orders|
      ensures OrderLinked(t.orders, a'.applied, c.orders[j].order) && MarkLinked(t.progress, c.orders[j].order)
    {
      if j != i {
        OtherLinkKept(s, b, o, a', t.progress, j);
      }
    }
    PlacesKept(b, c);
  }

  /** Another order of the book, while `o` moves. */
  lemma OtherLinkKept(s: State, b: Broker, o: Order, a': Paper, progress: map<ClientId, Progress>, j: nat)
    requires Linked(s, b) && j < |b.orders| && b.orders[j].order.id != o.id
    requires IndexOf(s.orders, o.id) < |s.orders|
    requires forall id :: id != o.id ==> Applied(a'.applied, id) == Applied(b.account.applied, id)
    requires forall id :: id != o.id ==> Applied(progress, id) == Applied(s.progress, id)
    ensures OrderLinked(s.orders[IndexOf(s.orders, o.id) := Stored(s, o)], a'.applied, b.orders[j].order)
    ensures MarkLinked(progress, b.orders[j].order)
  {
    var x := b.orders[j].order;
    assert OrderLinked(s.orders, b.account.applied, x) && MarkLinked(s.progress, x);
    LinkKept(s.orders, Stored(s, o), b.account.applied, a'.applied, IndexOf(s.orders, o.id), x);
  }

  lemma PlacesKept(b: Broker, c: Broker)
    requires |b.orders| <= |c.orders| && forall j :: 0 <= j < |b.orders| ==> c.orders[j].order.id == b.orders[j].order.id
    ensures forall id :: PlaceOf(b.orders, id) < |b.orders| ==> PlaceOf(c.orders, id) < |c.orders|
  {
    forall id | PlaceOf(b.orders, id) < |b.orders| ensures PlaceOf(c.orders, id) < |c.orders| {
      assert c.orders[PlaceOf(b.orders, id)].order.id == id;
    }
  }

  lemma PollKeepsTogether(s: State, b: Broker, i: nat)
    requires Together(s, b) && i < |b.orders| && Synced(s, b.orders[i].order).Ok?
    ensures Together(Synced(s, b.orders[i].order).value, b)
  {
    var o := b.orders[i].order;
    assert OrderLinked(s.orders, b.account.applied, o);
    AppliedAlready(b.account, o);
    StoredNotional(s.orders[IndexOf(s.orders, o.id)], o);
    SameNotional(s.orders[IndexOf(s.orders, o.id)], o);
    OrderMoves(s, b, i, o, b.account);
    assert b.orders[i := b.orders[i].(order := o)] == b.orders;
  }

  lemma SameNotional(row: Order, o: Order)
    requires SameExecution(row, o) && SoundOrder(o)
    ensures Notional(row) == Notional(o)
  {
    if o.filled == 0 {
      ZeroNotional(row);
      ZeroNotional(o);
    }
  }

  lemma CanceledAdvances(row: Order, o: Order)
    requires SoundOrder(o) && Working(o) && SameExecution(row, o)
    ensures SoundOrder(o.(status := Canceled)) && Advances(row, o.(status := Canceled))
    ensures Notional(o.(status := Canceled)) == Notional(o)
  {
    SameNotional(row, o);
  }

  lemma CancelKeepsTogether(s: State, b: Broker, i: nat)
    requires Together(s, b) && i < |b.orders|
    requires Synced(s, CanceledAt(b, i).orders[i].order).Ok?
    ensures Together(Synced(s, CanceledAt(b, i).orders[i].order).value, CanceledAt(b, i))
  {
    var o := b.orders[i].order;
    assert OrderLinked(s.orders, b.account.applied, o);
    if Working(o) {
      CanceledAdvances(s.orders[IndexOf(s.orders, o.id)], o);
      AppliedAlready(b.account, o.(status := Canceled));
      OrderMoves(s, b, i, o.(status := Canceled), b.account);
    } else {
      PollKeepsTogether(s, b, i);
    }
  }

  /** A completed order is a fair future of its row. */
  lemma CompletionAdvances(row: Order, o: Order, price: real)
    requires SoundOrder(o) && Working(o) && SameExecution(row, o) && price > 0.0 && Fillable(o, false, price)
    ensures SoundOrder(Completed(o, price)) && Advances(row, Completed(o, price))
    ensures Completed(o, price).filled == o.filled ==> Notional(Completed(o, price)) == Notional(o)
  {
    SameNotional(row, o);
    if o.filled < o.qty {
      CompletionAddsNotional(o, price);
      var rest := (o.qty - o.filled) as real;
      PositiveProduct(rest, price);
      if o.side.Buy? {
        Monotone(price, o.price, rest);
        assert rest * price == price * rest && rest * o.price == o.price * rest;
      }
      PositiveAverage(o, price);
    }
  }

  lemma PositiveAverage(o: Order, price: real)
    requires SoundOrder(o) && o.filled < o.qty && price > 0.0
    ensures WeightedAverage(o, price) > 0.0
  {
    var rest, q := (o.qty - o.filled) as real, o.qty as real;
    PositiveProduct(rest, price);
    if o.filled > 0 {
      PositiveProduct(o.avg.value, o.filled as real);
    }
    var total := PaidSoFar(o) + rest * price;
    var x := total / q;
    assert x * q == total;
    if x <= 0.0 {
      Monotone(x, 0.0, q);
    }
  }

  lemma TradeKeepsTogether(s: State, b: Broker, i: nat, price: real)
    requires Together(s, b) && i < |b.orders| && price > 0.0 && Fillable(b.orders[i].order, false, price)
    requires RestFilled(b, i, price).1.Ok? && Synced(s, RestFilled(b, i, price).0.orders[i].order).Ok?
    ensures Together(Synced(s, RestFilled(b, i, price).0.orders[i].order).value, RestFilled(b, i, price).0)
  {
    var o := b.orders[i].order;
    assert OrderLinked(s.orders, b.account.applied, o);
    if Working(o) {
      var n := Completed(o, price);
      CompletionAdvances(s.orders[IndexOf(s.orders, o.id)], o, price);
      if o.filled >= o.qty {
        assert Notional(n) == Notional(o);
        AppliedAlready(b.account, n);
        OrderMoves(s, b, i, n, b.account);
      } else {
        OrderMoves(s, b, i, n, ApplyFill(b.account, n).value);
      }
    } else {
      PollKeepsTogether(s, b, i);
    }
  }

  lemma OpenedAdvances(row: Order, r: Request, side: Side, market: bool, price: real)
    requires Requested(row, r, side) && row.id == r.id && row.status.Created? && row.filled == 0
    requires price > 0.0 && r.qty > 0 && (market ==> side.Sell?)
    ensures SoundOrder(Opened(r, side, market, price)) && Advances(row, Opened(r, side, market, price))
  {
    var o := Opened(r, side, market, price);
    ZeroNotional(row);
    if o.filled > 0 {
      PositiveProduct(r.qty as real, price);
      if side.Buy? {
        Monotone(price, r.price, r.qty as real);
      }
    } else {
      ZeroNotional(o);
    }
  }

  lemma UnplacedIsUnmarked(s: State, b: Broker, id: ClientId)
    requires Linked(s, b) && PlaceOf(b.orders, id) == |b.orders|
    ensures id !in b.account.applied && Applied(b.account.applied, id) == Progress(0, 0.0)
  {
  }

  lemma JoinedLinks(s: State, b: Broker, p: BrokerOrder, a': Paper, progress: map<ClientId, Progress>)
    requires Linked(s, b) && SoundOrder(p.order) && PlaceOf(b.orders, p.order.id) == |b.orders|
    requires IndexOf(s.orders, p.order.id) < |s.orders| && Advances(s.orders[IndexOf(s.orders, p.order.id)], p.order)
    requires Applied(a'.applied, p.order.id) == Progress(p.order.filled, Notional(p.order))
    requires forall id :: id != p.order.id ==> Applied(a'.applied, id) == Applied(b.account.applied, id)
    requires forall id :: id in a'.applied ==> id in b.account.applied || id == p.order.id
    requires MarkLinked(progress, p.order)
    requires forall id :: id != p.order.id ==> Applied(progress, id) == Applied(s.progress, id)
    ensures Linked(s.(orders := s.orders[IndexOf(s.orders, p.order.id) := Stored(s, p.order)], progress := progress),
                   Broker(b.orders + [p], a', b.sequence + 1))
  {
    var o, k := p.order, IndexOf(s.orders, p.order.id);
    StoredIsLinked(s, a'.applied, o);
    var c := Broker(b.orders + [p], a', b.sequence + 1);
    forall j | 0 <= j < |c.orders|
      ensures OrderLinked(s.orders[k := Stored(s, o)], a'.applied, c.orders[j].order)
      ensures MarkLinked(progress, c.orders[j].order)
    {
      if j < |b.orders| {
        OtherLinkKept(s, b, o, a', progress, j);
      }
    }
    JoinedPlaces(b, p, c);
  }

  lemma JoinedPlaces(b: Broker, p: BrokerOrder, c: Broker)
    requires PlaceOf(b.orders, p.order.id) == |b.orders| && c.orders == b.orders + [p]
    ensures forall id :: PlaceOf(b.orders, id) < |b.orders| || id == p.order.id ==> PlaceOf(c.orders, id) < |c.orders|
  {
    PlacesKept(b, c);
    assert c.orders[|b.orders|].order.id == p.order.id;
  }

  lemma SameRowsSameLinks(s: State, t: State, b: Broker)
    requires s.orders == t.orders && s.progress == t.progress && Linked(s, b)
    ensures Linked(t, b)
  {
  }

  /** A new order joins the broker's book and the ledger's row follows it. */
  lemma OrderJoins(s: State, b: Broker, p: BrokerOrder, a': Paper)
    requires Together(s, b) && SoundOrder(p.order) && PlaceOf(b.orders, p.order.id) == |b.orders|
    requires IndexOf(s.orders, p.order.id) < |s.orders| && Advances(s.orders[IndexOf(s.orders, p.order.id)], p.order)
    requires p.order.filled == 0 ==> Notional(p.order) == 0.0
    requires s.orders[IndexOf(s.orders, p.order.id)].filled == 0
    requires ApplyFill(b.account, p.order) == Ok(a') && Synced(s, p.order).Ok?
    ensures Together(Synced(s, p.order).value, Broker(b.orders + [p], a', b.sequence + 1))
  {
    var o := p.order;
    var t := Synced(s, o).value;
    UnplacedIsUnmarked(s, b, o.id);
    FillMarks(b.account, o);
    SyncMatches(s, b.account, a', o);
    SyncedRows(s, o);
    JoinedLinks(s, b, p, a', t.progress);
    SameRowsSameLinks(s.(orders := s.orders[IndexOf(s.orders, o.id) := Stored(s, o)], progress := t.progress), t,
                      Broker(b.orders + [p], a', b.sequence + 1));
  }

  lemma PlacedNew(b: Broker, r: Request, side: Side, market: bool, price: real)
    requires PlaceOf(b.orders, r.id) == |b.orders| && Placed(b, r, side, market, price).1.Ok?
    ensures
      var o := Opened(r, side, market, price);
      var p := BrokerOrder(b.sequence + 1, o, market);
      var a := if o.status.Pending? then b.account else ApplyFill(b.account, o).value;
      && (!o.status.Pending? ==> ApplyFill(b.account, o).Ok?)
      && Placed(b, r, side, market, price) == (Broker(b.orders + [p], a, b.sequence + 1), Ok(p))
      && (o.status.Pending? ==> o.filled == 0)
  {
  }

  lemma NewOrderKeepsTogether(s: State, b: Broker, r: Request, side: Side, market: bool, price: real)
    requires Together(s, b) && ActAllowed(s, b, OrderSent(r, side, market, price))
    requires PlaceOf(b.orders, r.id) == |b.orders|
    requires Placed(b, r, side, market, price).1.Ok?
    requires Synced(s, Opened(r, side, market, price)).Ok?
    ensures Together(Synced(s, Opened(r, side, market, price)).value, Placed(b, r, side, market, price).0)
  {
    var o := Opened(r, side, market, price);
    PlacedNew(b, r, side, market, price);
    OpenedAdvances(s.orders[IndexOf(s.orders, r.id)], r, side, market, price);
    UnplacedIsUnmarked(s, b, r.id);
    if o.status.Pending? {
      ZeroNotional(o);
      AppliedAlready(b.account, o);
      OrderJoins(s, b, BrokerOrder(b.sequence + 1, o, market), b.account);
    } else {
      OrderJoins(s, b, BrokerOrder(b.sequence + 1, o, market), ApplyFill(b.account, o).value);
    }
  }

  lemma SubmitKeepsTogether(s: State, b: Broker, r: Request, side: Side, market: bool, price: real)
    requires Together(s, b) && ActAllowed(s, b, OrderSent(r, side, market, price))
    requires Placed(b, r, side, market, price).1.Ok?
    requires Synced(s, Placed(b, r, side, market, price).1.value.order).Ok?
    ensures Together(Synced(s, Placed(b, r, side, market, price).1.value.order).value, Placed(b, r, side, market, price).0)
  {
    var k := PlaceOf(b.orders, r.id);
    if k < |b.orders| {
      PollKeepsTogether(s, b, k);
    } else {
      PlacedNew(b, r, side, market, price);
      NewOrderKeepsTogether(s, b, r, side, market, price);
    }
  }

  /** Other ledger transactions touch no execution and no holding. */
  lemma LedgerKeepsTogether(c: Config, s: State, b: Broker, e: Event)
    requires ValidConfig(c) && Together(s, b) && ActAllowed(s, b, OnLedger(e))
    ensures Together(Step(c, s, e), b)
  {
    StepTables(c, s, e);
    LedgerRows(c, s, e);
    LedgerKeepsLinks(s, Step(c, s, e), b);
  }

  /** At most one new row, nothing else new. */
  ghost predicate OnlyReserved(s: State, t: State)
  {
    && t.progress == s.progress
    && (t.orders == s.orders || (|t.orders| == |s.orders| + 1 && t.orders == s.orders + [t.orders[|s.orders|]]
                                  && IndexOf(s.orders, t.orders[|s.orders|].id) == |s.orders|))
    && |t.core| == |s.core|
    && (forall j :: 0 <= j < |s.core| ==>
          t.core[j].symbol == s.core[j].symbol && t.core[j].qty == s.core[j].qty
          && t.core[j].avg == s.core[j].avg && t.core[j].cost == s.core[j].cost)
  }

  lemma LedgerKeepsLinks(s: State, t: State, b: Broker)
    requires OnlyReserved(s, t) && Linked(s, b)
    ensures Linked(t, b)
  {
    forall i | 0 <= i < |b.orders| ensures OrderLinked(t.orders, b.account.applied, b.orders[i].order) {
      assert OrderLinked(s.orders, b.account.applied, b.orders[i].order);
      if t.orders != s.orders {
        IndexAppend(s.orders, t.orders[|s.orders|], b.orders[i].order.id);
      }
    }
  }

  lemma LedgerRows(c: Config, s: State, e: Event)
    requires ValidConfig(c) && TablesOk(s) && Allowed(s, e)
    requires !e.OrderRefreshed? && !e.FillApplied? && !e.Recovered?
    ensures OnlyReserved(s, Step(c, s, e))
  {
  }

  lemma ActKeepsTogether(c: Config, s: State, b: Broker, a: Act)
    requires ValidConfig(c) && Together(s, b) && ActAllowed(s, b, a) && Acted(c, s, b, a).Ok?
    ensures Together(Acted(c, s, b, a).value.0, Acted(c, s, b, a).value.1)
  {
    match a
    case OrderSent(r, side, market, price) => SubmitKeepsTogether(s, b, r, side, market, price);
    case Traded(k, price) => if k < |b.orders| { TradeKeepsTogether(s, b, k, price); }
    case CancelSent(k) => if k < |b.orders| { CancelKeepsTogether(s, b, k); }
    case Polled(k) => if k < |b.orders| { PollKeepsTogether(s, b, k); }
    case OnLedger(e) => LedgerKeepsTogether(c, s, b, e);
  }

  /** Over every run of the dry-run broker whose calls return, with its answers applied as they come, the
      ledger's shares and average prices are the paper account's, symbol by symbol. */
  lemma {:induction false} PaperRunAgrees(c: Config, s: State, b: Broker, acts: seq<Act>)
    requires ValidConfig(c) && Together(s, b) && ActsAllowed(c, s, b, acts) && ActRun(c, s, b, acts).Ok?
    ensures
      var t := ActRun(c, s, b, acts).value;
      && Together(t.0, t.1)
      && (forall j :: 0 <= j < |t.0.core| ==>
            RowMatches(t.0.core[j], HoldingOf(t.1.account.holdings, t.0.core[j].symbol)))
  {
    if |acts| > 0 {
      PaperRunAgrees(c, s, b, acts[..|acts| - 1]);
      var m := ActRun(c, s, b, acts[..|acts| - 1]).value;
      ActKeepsTogether(c, m.0, m.1, acts[|acts| - 1]);
    }
  }

  /** A pending order of one of the first `n` rows, with nothing filled on any side. */
  predicate RestingLinked(s: State, o: Order, n: nat)
  {
    IndexOf(s.orders, o.id) < n && OrderLinked(s.orders, map[], o) && MarkLinked(s.progress, o)
  }

  predicate AllResting(s: State, rs: seq<BrokerOrder>, n: nat)
  {
    forall j :: 0 <= j < |rs| ==> RestingLinked(s, rs[j].order, n)
  }

  predicate DistinctOrders(rs: seq<BrokerOrder>)
  {
    forall i, j :: 0 <= i < j < |rs| ==> rs[i].order.id != rs[j].order.id
  }

  predicate RestingAreCore(orders: seq<Order>, numbers: map<ClientId, nat>)
  {
    forall i :: 0 <= i < |orders| && Restorable(orders[i], numbers) ==>
      orders[i].qty > 0 && !orders[i].purpose.OtherPurpose?
  }

  /** Every resting order is linked to the row it was rebuilt from. */
  lemma {:induction false} RestingIsLinked(s: State, numbers: map<ClientId, nat>, n: nat)
    requires TablesOk(s) && n <= |s.orders| && RestingAreCore(s.orders, numbers)
    ensures AllResting(s, RestingOrders(s.orders[..n], numbers), n)
    ensures DistinctOrders(RestingOrders(s.orders[..n], numbers))
  {
    if n > 0 {
      RestingIsLinked(s, numbers, n - 1);
      assert s.orders[..n][..n - 1] == s.orders[..n - 1];
      var before := RestingOrders(s.orders[..n - 1], numbers);
      IndexUnique(s.orders, n - 1);
      forall j | 0 <= j < |before| ensures RestingLinked(s, before[j].order, n) && before[j].order.id != s.orders[n - 1].id {
        assert RestingLinked(s, before[j].order, n - 1);
      }
      if Restorable(s.orders[n - 1], numbers) {
        NewlyResting(s, numbers, n - 1);
      }
    }
  }

  lemma NewlyResting(s: State, numbers: map<ClientId, nat>, k: nat)
    requires TablesOk(s) && k < |s.orders| && Restorable(s.orders[k], numbers)
    requires s.orders[k].qty > 0 && !s.orders[k].purpose.OtherPurpose?
    ensures RestingLinked(s, RestingOrder(s.orders[k], numbers).order, k + 1)
  {
    var o := RestingOrder(s.orders[k], numbers).order;
    IndexUnique(s.orders, k);
    assert OrderOk(s, s.orders[k]);
    ZeroNotional(o);
  }

  /** A restarted broker, rebuilt from the core rows and the resting core orders, is together with the ledger
      again: its runs agree from there on. */
  method RestartRejoins(broker: DryRunBroker, s: State, numbers: map<ClientId, nat>, cash: real)
    requires TablesOk(s) && CostFollowsShares(s.core) && broker.orders == []
    requires RestingAreCore(s.orders, numbers)
    modifies broker
    ensures broker.orders == RestingOrders(s.orders, numbers)
    ensures Together(s, broker.Now())
  {
    RestartAgrees(broker, s.core, [], cash);
    broker.RestoreOrders(s.orders, numbers);
    assert s.orders[..|s.orders|] == s.orders;
    RestingIsLinked(s, numbers, |s.orders|);
    forall j | 0 <= j < |broker.orders|
      ensures OrderLinked(s.orders, broker.account.applied, broker.orders[j].order)
      ensures MarkLinked(s.progress, broker.orders[j].order)
    {
      assert RestingLinked(s, broker.orders[j].order, |s.orders|);
    }
  }
}
