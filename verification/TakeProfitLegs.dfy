/**
 Take-profit orders of one position: two legs of a plan, each sold through a succession of
 orders that are canceled, partly filled and reissued. A leg's cumulative fill is not stored
 per order: it is recomputed from the size the order was issued with.
 */
module TakeProfitLegs {
  import opened Numeric
  import opened Results

  datatype Leg = First | Second

  /** `known` says the broker's id was stored; a row without one is never refreshed. */
  datatype LegOrder = LegOrder(qty: nat, filled: nat, terminal: bool, applied: bool, known: bool, remainder: bool)

  /** A leg of the active plan and every order issued for it, oldest first. */
  datatype LegBook = LegBook(target: nat, filled: nat, orders: seq<LegOrder>)

  datatype Phase = Holding | PartialTp1 | Empty

  datatype Desk = Desk(first: LegBook, second: LegBook, quantity: nat, phase: Phase, active: bool)

  function BookOf(d: Desk, leg: Leg): LegBook
  {
    if leg.First? then d.first else d.second
  }

  function WithBook(d: Desk, leg: Leg, b: LegBook): Desk
  {
    if leg.First? then d.(first := b) else d.(second := b)
  }

  function Remaining(b: LegBook): int
  {
    b.target - b.filled
  }

  // ---------------------------------------------------------------- applying a fill

  /** The leg's cumulative fill as an order of its size and fill implies it. */
  function LegFill(b: LegBook, o: LegOrder): nat
  {
    MinInt(b.target, MaxInt(0, b.target - o.qty) + o.filled)
  }

  function MarkApplied(b: LegBook, k: nat): LegBook
    requires k < |b.orders|
  {
    if b.orders[k].terminal then b.(orders := b.orders[k := b.orders[k].(applied := true)]) else b
  }

  /** The first transaction of `apply_sell_fill`. */
  function FillRecorded(d: Desk, leg: Leg, filled: nat): Desk
  {
    WithBook(d, leg, BookOf(d, leg).(filled := filled))
  }

  /** The second: the position moves by the leg's change. */
  function PositionMoved(d: Desk, leg: Leg, delta: nat): Desk
    requires delta <= d.quantity
  {
    var quantity := d.quantity - delta;
    if leg.First? && d.first.filled < d.first.target then d.(quantity := quantity)
    else if quantity == 0 then d.(quantity := 0, phase := Empty, active := false)
    else if leg.First? then d.(quantity := quantity, phase := PartialTp1)
    else d.(quantity := quantity)
  }

  /** `apply_sell_fill` without a crash in between. */
  function ApplySell(d: Desk, leg: Leg, k: nat): Result<Desk>
    requires k < |BookOf(d, leg).orders|
  {
    var b := BookOf(d, leg);
    var o := b.orders[k];
    if o.applied || o.filled == 0 then Ok(d)
    else if !d.active then Err("no active plan")
    else
      var filled := LegFill(b, o);
      if filled < b.filled then Err("cumulative fill below what was applied")
      else if filled - b.filled > d.quantity then Err("more than held")
      else
        var moved := PositionMoved(FillRecorded(d, leg, filled), leg, filled - b.filled);
        Ok(WithBook(moved, leg, MarkApplied(BookOf(moved, leg), k)))
  }

  // ---------------------------------------------------------------- orders

  function NewOrder(qty: nat, known: bool, remainder: bool): LegOrder
  {
    LegOrder(qty, 0, false, false, known, remainder)
  }

  /** `place_orders`: each leg's remainder, if it has one. */
  function PlaceOrders(d: Desk, known1: bool, known2: bool): Desk
  {
    var one := if Remaining(d.first) > 0 then
                 d.(first := d.first.(orders := d.first.orders + [NewOrder(Remaining(d.first), known1, false)])) else d;
    if Remaining(one.second) > 0 then
      one.(second := one.second.(orders := one.second.orders + [NewOrder(Remaining(one.second), known2, false)]))
    else one
  }

  /** `place_remainder_exit`: everything held, on the second leg. */
  function PlaceRemainder(d: Desk, known: bool): Result<Desk>
  {
    if !d.active then Err("no active plan")
    else if !d.phase.PartialTp1? || d.quantity == 0 then Err("not in the remainder phase")
    else Ok(d.(second := d.second.(orders := d.second.orders + [NewOrder(d.quantity, known, true)])))
  }

  /** What the broker may report of an order: fills only grow, and stop at the end. */
  predicate Reports(o: LegOrder, filled: nat, terminal: bool)
  {
    && o.filled <= filled <= o.qty && (o.terminal ==> terminal && filled == o.filled)
    && (!o.known ==> filled == o.filled)
  }

  function Refresh(d: Desk, leg: Leg, k: nat, filled: nat, terminal: bool): Desk
    requires k < |BookOf(d, leg).orders|
  {
    var b := BookOf(d, leg);
    WithBook(d, leg, b.(orders := b.orders[k := b.orders[k].(filled := filled, terminal := terminal)]))
  }

  // ---------------------------------------------------------------- invariant

  function Filled(orders: seq<LegOrder>): nat
  {
    if |orders| == 0 then 0 else Filled(orders[..|orders| - 1]) + orders[|orders| - 1].filled
  }

  /** Nothing more can come from this order, and nothing it filled is missing from the leg. */
  predicate Over(o: LegOrder)
  {
    if o.known then o.terminal else o.filled == 0
  }

  /** Each order was issued for what the earlier ones left of the target. */
  predicate Issued(orders: seq<LegOrder>, target: nat)
  {
    var n := |orders| - 1;
    n >= 0 ==>
      && Issued(orders[..n], target)
      && orders[n].qty + Filled(orders[..n]) == target
      && orders[n].filled <= orders[n].qty && (!orders[n].known ==> orders[n].filled == 0)
  }

  /** Only a leg's last order can still fill; what was applied is every earlier fill and part of its own. */
  predicate LegOk(b: LegBook)
  {
    var n := |b.orders|;
    && b.filled <= b.target && Issued(b.orders, b.target)
    && (forall k :: 0 <= k < n - 1 ==> Over(b.orders[k]))
    && (forall k :: 0 <= k < n && b.orders[k].applied ==> b.orders[k].terminal)
    && (if n == 0 then b.filled == 0 else Filled(b.orders[..n - 1]) <= b.filled <= Filled(b.orders))
    && (n > 0 && b.orders[n - 1].applied ==> b.filled == Filled(b.orders))
  }

  predicate DeskOk(d: Desk)
  {
    && LegOk(d.first) && LegOk(d.second)
    && d.quantity == Remaining(d.first) + Remaining(d.second)
    && (d.active <==> d.quantity > 0)
    && (d.phase.Empty? <==> d.quantity == 0)
    && (d.quantity > 0 ==> (d.phase.PartialTp1? <==> Remaining(d.first) == 0))
  }

  /** Every fill of the leg has reached it, and no order of it is open. */
  predicate LegSettled(b: LegBook)
  {
    b.filled == Filled(b.orders) && forall k :: 0 <= k < |b.orders| ==> Over(b.orders[k])
  }

  predicate Settled(d: Desk)
  {
    LegSettled(d.first) && LegSettled(d.second)
  }

  // ---------------------------------------------------------------- what each operation keeps

  lemma {:induction false} FilledUpTo(orders: seq<LegOrder>, target: nat, k: nat)
    requires k < |orders| && Issued(orders, target)
    ensures orders[k].qty + Filled(orders[..k]) == target && orders[k].filled <= orders[k].qty
    ensures Filled(orders[..k + 1]) == Filled(orders[..k]) + orders[k].filled
    ensures Filled(orders[..k + 1]) <= Filled(orders) <= target
    decreases |orders|
  {
    var n := |orders| - 1;
    assert orders[..n + 1] == orders;
    if k < n {
      FilledUpTo(orders[..n], target, k);
      assert orders[..n][..k + 1] == orders[..k + 1] && orders[..n][..k] == orders[..k];
    }
  }

  /** The recomputed cumulative fill is the sum of the fills up to this order. */
  lemma LegFillIsTheSum(b: LegBook, k: nat)
    requires LegOk(b) && k < |b.orders|
    ensures LegFill(b, b.orders[k]) == Filled(b.orders[..k + 1]) <= b.target
    ensures k < |b.orders| - 1 ==> LegFill(b, b.orders[k]) <= b.filled
    ensures k == |b.orders| - 1 ==> LegFill(b, b.orders[k]) == Filled(b.orders) >= b.filled
  {
    FilledUpTo(b.orders, b.target, k);
    if k < |b.orders| - 1 {
      var rest := b.orders[..|b.orders| - 1];
      FilledUpTo(rest, b.target, k);
      assert rest[..k + 1] == b.orders[..k + 1];
    } else {
      assert b.orders[..k + 1] == b.orders;
    }
  }

  /** Marking an order changes nothing that was issued or filled. */
  lemma {:induction false} MarkingKeepsIssued(orders: seq<LegOrder>, target: nat, k: nat, o: LegOrder)
    requires k < |orders| && Issued(orders, target)
    requires o.qty == orders[k].qty && o.filled == orders[k].filled && o.known == orders[k].known
    ensures Issued(orders[k := o], target) && Filled(orders[k := o]) == Filled(orders)
    decreases |orders|
  {
    var n := |orders| - 1;
    if k < n {
      MarkingKeepsIssued(orders[..n], target, k, o);
      assert orders[k := o][..n] == orders[..n][k := o];
    } else {
      assert orders[k := o][..n] == orders[..n];
    }
  }

  /** An order that another has followed may still be marked, or end. */
  lemma OldRow(b: LegBook, k: nat, o: LegOrder)
    requires LegOk(b) && k < |b.orders| - 1
    requires o == b.orders[k].(terminal := o.terminal, applied := o.applied)
    requires b.orders[k].terminal || o.applied ==> o.terminal
    ensures LegOk(b.(orders := b.orders[k := o]))
    ensures Filled(b.orders[k := o]) == Filled(b.orders)
  {
    var n := |b.orders| - 1;
    var os, rest := b.orders[k := o], b.orders[..n];
    MarkingKeepsIssued(b.orders, b.target, k, o);
    MarkingKeepsIssued(rest, b.target, k, o);
    assert os[..n] == rest[k := o] && os[n] == b.orders[n];
    assert Over(b.orders[k]) && Over(o);
  }

  lemma MarkNewest(b: LegBook)
    requires LegOk(b) && |b.orders| > 0 && b.orders[|b.orders| - 1].terminal && b.filled == Filled(b.orders)
    ensures
      var n := |b.orders| - 1;
      var os := b.orders[n := b.orders[n].(applied := true)];
      LegOk(b.(orders := os)) && Filled(os) == Filled(b.orders)
  {
    var n := |b.orders| - 1;
    var o := b.orders[n].(applied := true);
    MarkingKeepsIssued(b.orders, b.target, n, o);
    assert b.orders[n := o][..n] == b.orders[..n];
  }

  lemma MarkKeepsLeg(b: LegBook, k: nat)
    requires LegOk(b) && k < |b.orders|
    requires k == |b.orders| - 1 ==> b.filled == Filled(b.orders)
    ensures LegOk(MarkApplied(b, k))
    ensures Filled(MarkApplied(b, k).orders) == Filled(b.orders)
  {
    if b.orders[k].terminal && k < |b.orders| - 1 {
      OldRow(b, k, b.orders[k].(applied := true));
    } else if b.orders[k].terminal {
      MarkNewest(b);
    }
  }

  lemma RecordKeepsLeg(b: LegBook, k: nat)
    requires LegOk(b) && k < |b.orders| && LegFill(b, b.orders[k]) >= b.filled
    ensures LegOk(MarkApplied(b.(filled := LegFill(b, b.orders[k])), k))
  {
    LegFillIsTheSum(b, k);
    var c := b.(filled := LegFill(b, b.orders[k]));
    assert LegOk(c);
    MarkKeepsLeg(c, k);
  }

  /** A new state of one leg and the position that follows it. */
  lemma MovedKeepsDesk(d: Desk, leg: Leg, c: LegBook)
    requires DeskOk(d) && d.active && LegOk(c)
    requires c.target == BookOf(d, leg).target && c.filled >= BookOf(d, leg).filled
    ensures c.filled - BookOf(d, leg).filled <= d.quantity
    ensures DeskOk(PositionMoved(WithBook(d, leg, c), leg, c.filled - BookOf(d, leg).filled))
  {
    match leg
    case First =>
    case Second =>
  }

  /** Marking before or after the position moved is the same. */
  lemma ApplySellMoves(d: Desk, leg: Leg, k: nat)
    requires k < |BookOf(d, leg).orders| && d.active
    requires !BookOf(d, leg).orders[k].applied && BookOf(d, leg).orders[k].filled > 0
    requires ApplySell(d, leg, k).Ok?
    ensures
      var b := BookOf(d, leg);
      var filled := LegFill(b, b.orders[k]);
      && filled >= b.filled && filled - b.filled <= d.quantity
      && ApplySell(d, leg, k).value ==
         PositionMoved(WithBook(d, leg, MarkApplied(b.(filled := filled), k)), leg, filled - b.filled)
  {
  }

  /** A sell fill never exceeds the holding; it is refused only for a plan that is over, or for an
      order older than fills already applied. */
  lemma ApplyRefusedExactly(d: Desk, leg: Leg, k: nat)
    requires DeskOk(d) && k < |BookOf(d, leg).orders|
    ensures ApplySell(d, leg, k) != Err("more than held")
    ensures ApplySell(d, leg, k).Err? <==>
              && !BookOf(d, leg).orders[k].applied && BookOf(d, leg).orders[k].filled > 0
              && (!d.active || Filled(BookOf(d, leg).orders[..k + 1]) < BookOf(d, leg).filled)
  {
    var b := BookOf(d, leg);
    LegFillIsTheSum(b, k);
    assert LegFill(b, b.orders[k]) - b.filled <= d.quantity;
  }

  lemma ApplyKeepsDesk(d: Desk, leg: Leg, k: nat)
    requires DeskOk(d) && k < |BookOf(d, leg).orders| && ApplySell(d, leg, k).Ok?
    ensures DeskOk(ApplySell(d, leg, k).value)
  {
    var b := BookOf(d, leg);
    if !b.orders[k].applied && b.orders[k].filled > 0 {
      ApplySellMoves(d, leg, k);
      RecordKeepsLeg(b, k);
      MovedKeepsDesk(d, leg, MarkApplied(b.(filled := LegFill(b, b.orders[k])), k));
    }
  }

  /** Applying the newest order brings the leg level with everything its orders filled. */
  lemma ApplySettlesLeg(d: Desk, leg: Leg)
    requires DeskOk(d) && d.active && |BookOf(d, leg).orders| > 0
    ensures
      var k := |BookOf(d, leg).orders| - 1;
      var e := ApplySell(d, leg, k);
      && e.Ok?
      && (BookOf(d, leg).orders[k].filled > 0 ==> BookOf(e.value, leg).filled == Filled(BookOf(e.value, leg).orders))
      && BookOf(e.value, leg).target == BookOf(d, leg).target
      && Filled(BookOf(e.value, leg).orders) == Filled(BookOf(d, leg).orders)
  {
    var b := BookOf(d, leg);
    var k := |b.orders| - 1;
    ApplyRefusedExactly(d, leg, k);
    LegFillIsTheSum(b, k);
    assert b.orders[..k + 1] == b.orders;
    if !b.orders[k].applied && b.orders[k].filled > 0 {
      RecordKeepsLeg(b, k);
      MarkKeepsLeg(b.(filled := LegFill(b, b.orders[k])), k);
    }
  }

  lemma EndedIsMarked(d: Desk, leg: Leg, k: nat)
    requires k < |BookOf(d, leg).orders| && d.active
    requires !BookOf(d, leg).orders[k].applied && BookOf(d, leg).orders[k].filled > 0 && BookOf(d, leg).orders[k].terminal
    requires ApplySell(d, leg, k).Ok?
    ensures |BookOf(ApplySell(d, leg, k).value, leg).orders| == |BookOf(d, leg).orders|
    ensures BookOf(ApplySell(d, leg, k).value, leg).orders[k].applied
  {
    match leg
    case First =>
    case Second =>
  }

  lemma UnendedRepeats(d: Desk, leg: Leg, k: nat)
    requires d.active && k < |BookOf(d, leg).orders|
    requires !BookOf(d, leg).orders[k].applied && BookOf(d, leg).orders[k].filled > 0 && !BookOf(d, leg).orders[k].terminal
    requires ApplySell(d, leg, k).Ok?
    ensures
      var e := ApplySell(d, leg, k).value;
      |BookOf(e, leg).orders| == |BookOf(d, leg).orders| && (e.active ==> ApplySell(e, leg, k) == Ok(e))
  {
    ApplySellMoves(d, leg, k);
    MovedTwice(d, leg, LegFill(BookOf(d, leg), BookOf(d, leg).orders[k]), k);
  }

  /** Applying an order again never changes the desk; it raises exactly when the plan is over and the order,
      though filled, was not marked because it had not ended. */
  lemma ApplyIsIdempotent(d: Desk, leg: Leg, k: nat)
    requires k < |BookOf(d, leg).orders| && ApplySell(d, leg, k).Ok?
    ensures
      var e := ApplySell(d, leg, k).value;
      && k < |BookOf(e, leg).orders|
      && var o := BookOf(e, leg).orders[k];
         && (ApplySell(e, leg, k) == Ok(e) <==> e.active || o.applied || o.filled == 0)
         && (ApplySell(e, leg, k) != Ok(e) ==> ApplySell(e, leg, k) == Err("no active plan"))
  {
    var o := BookOf(d, leg).orders[k];
    if o.applied || o.filled == 0 {
      assert ApplySell(d, leg, k) == Ok(d);
    } else if o.terminal {
      EndedIsMarked(d, leg, k);
    } else {
      UnendedRepeats(d, leg, k);
    }
  }

  lemma MovedTwice(d: Desk, leg: Leg, filled: nat, k: nat)
    requires d.active && k < |BookOf(d, leg).orders|
    requires BookOf(d, leg).filled <= filled <= BookOf(d, leg).target && !BookOf(d, leg).orders[k].terminal
    requires filled - BookOf(d, leg).filled <= d.quantity
    requires LegFill(BookOf(d, leg), BookOf(d, leg).orders[k]) == filled
    ensures
      var e := PositionMoved(FillRecorded(d, leg, filled), leg, filled - BookOf(d, leg).filled);
      BookOf(e, leg) == BookOf(d, leg).(filled := filled) && (e.active ==> ApplySell(e, leg, k) == Ok(e))
  {
    match leg
    case First =>
    case Second =>
  }

  lemma RefreshKeepsLeg(b: LegBook, k: nat, filled: nat, terminal: bool)
    requires LegOk(b) && k < |b.orders| && Reports(b.orders[k], filled, terminal)
    ensures LegOk(b.(orders := b.orders[k := b.orders[k].(filled := filled, terminal := terminal)]))
  {
    var o, n := b.orders[k].(filled := filled, terminal := terminal), |b.orders| - 1;
    if k < n {
      OldRow(b, k, o);
    } else {
      LastRefresh(b, o);
    }
  }

  lemma LastRefresh(b: LegBook, o: LegOrder)
    requires LegOk(b) && |b.orders| > 0
    requires
      var l := b.orders[|b.orders| - 1];
      o == l.(filled := o.filled, terminal := o.terminal) && Reports(l, o.filled, o.terminal)
    ensures LegOk(b.(orders := b.orders[|b.orders| - 1 := o]))
  {
    var n := |b.orders| - 1;
    assert b.orders[n := o][..n] == b.orders[..n];
  }

  lemma IssuedGrows(orders: seq<LegOrder>, target: nat, o: LegOrder)
    requires Issued(orders, target) && o.qty + Filled(orders) == target && o.filled == 0
    ensures Issued(orders + [o], target) && Filled(orders + [o]) == Filled(orders)
  {
    var all := orders + [o];
    assert all[..|orders|] == orders && all[|orders|] == o;
  }

  lemma IssueKeepsLeg(b: LegBook, o: LegOrder)
    requires LegOk(b) && LegSettled(b)
    requires o.qty == b.target - b.filled && o.filled == 0 && !o.applied
    ensures LegOk(b.(orders := b.orders + [o]))
  {
    var all, n := b.orders + [o], |b.orders|;
    IssuedGrows(b.orders, b.target, o);
    assert all[..n] == b.orders;
    forall k | 0 <= k < n ensures Over(all[k]) && (all[k].applied ==> all[k].terminal) {
      assert all[k] == b.orders[k];
    }
  }

  lemma PlaceKeepsDesk(d: Desk, known1: bool, known2: bool)
    requires DeskOk(d) && Settled(d)
    ensures DeskOk(PlaceOrders(d, known1, known2))
  {
    IssueKeepsLeg(d.first, NewOrder(Remaining(d.first), known1, false));
    IssueKeepsLeg(d.second, NewOrder(Remaining(d.second), known2, false));
  }

  lemma RemainderKeepsDesk(d: Desk, known: bool)
    requires DeskOk(d) && Settled(d) && PlaceRemainder(d, known).Ok?
    ensures DeskOk(PlaceRemainder(d, known).value)
  {
    IssueKeepsLeg(d.second, NewOrder(d.quantity, known, true));
  }

  // ---------------------------------------------------------------- the cancel pass

  /** Reading an order back after its cancel: the call may raise, or tell where the order stands. */
  datatype Reply = Lost | Read(filled: nat, terminal: bool)

  function OrKeep(d: Desk, r: Result<Desk>): Desk
  {
    if r.Ok? then r.value else d
  }

  predicate HasOrder(d: Desk, leg: Leg)
  {
    |BookOf(d, leg).orders| > 0
  }

  function Newest(d: Desk, leg: Leg): nat
    requires HasOrder(d, leg)
  {
    |BookOf(d, leg).orders| - 1
  }

  /** The leg's newest order is open and has a broker id; without one the pass skips it. */
  predicate IsOpen(d: Desk, leg: Leg)
  {
    && HasOrder(d, leg)
    && var o := BookOf(d, leg).orders[Newest(d, leg)]; o.known && !o.terminal
  }

  /** `cancel_open_tp_orders` on one leg: the read-back is stored even when the order has not ended, and then it raises. */
  function CancelLeg(d: Desk, leg: Leg, r: Reply): (Desk, bool)
  {
    if !IsOpen(d, leg) then (d, true)
    else if r.Lost? then (d, false)
    else
      var e := Refresh(d, leg, Newest(d, leg), r.filled, r.terminal);
      if r.terminal && r.filled == 0 then (WithBook(e, leg, MarkApplied(BookOf(e, leg), Newest(d, leg))), true)
      else (e, r.terminal)
  }

  /** Both legs, the first one first. */
  function CancelBoth(d: Desk, r1: Reply, r2: Reply): (Desk, bool)
  {
    var c := CancelLeg(d, First, r1);
    if c.1 then CancelLeg(c.0, Second, r2) else c
  }

  /** The pass returned this leg's order to its caller. */
  predicate Listed(d: Desk, leg: Leg, r: Reply)
  {
    IsOpen(d, leg) && r.Read? && r.filled > 0
  }

  function ApplyNewest(d: Desk, leg: Leg, listed: bool): (Desk, bool)
  {
    if !listed || !HasOrder(d, leg) then (d, true)
    else
      var e := ApplySell(d, leg, Newest(d, leg));
      (OrKeep(d, e), e.Ok?)
  }

  /** The pass, then the applications its caller makes; only a pass that raised nothing gets that far. */
  function SettlePass(d: Desk, r1: Reply, r2: Reply): (Desk, bool)
  {
    var c := CancelBoth(d, r1, r2);
    if !c.1 then c
    else
      var e := ApplyNewest(c.0, First, Listed(d, First, r1));
      if e.1 then ApplyNewest(e.0, Second, Listed(d, Second, r2)) else e
  }

  // ---------------------------------------------------------------- runs

  datatype Event =
    | Refreshed(leg: Leg, k: nat, filled: nat, terminal: bool)
    | AppliedTo(leg: Leg, k: nat)
    | LegsPlaced(known1: bool, known2: bool)
    | RemainderPlaced(known: bool)
    | Reissued(r1: Reply, r2: Reply, known1: bool, known2: bool)
    | RemainderIssued(r1: Reply, r2: Reply, known: bool)

  function Step(d: Desk, e: Event): Desk
  {
    match e
    case Refreshed(leg, k, filled, terminal) =>
      if k < |BookOf(d, leg).orders| then Refresh(d, leg, k, filled, terminal) else d
    case AppliedTo(leg, k) => if k < |BookOf(d, leg).orders| then OrKeep(d, ApplySell(d, leg, k)) else d
    case LegsPlaced(known1, known2) => if d.active then PlaceOrders(d, known1, known2) else d
    case RemainderPlaced(known) => OrKeep(d, PlaceRemainder(d, known))
    case Reissued(r1, r2, known1, known2) =>
      var c := SettlePass(d, r1, r2);
      if c.1 && c.0.active then PlaceOrders(c.0, known1, known2) else c.0
    case RemainderIssued(r1, r2, known) =>
      var c := SettlePass(d, r1, r2);
      if c.1 then OrKeep(c.0, PlaceRemainder(c.0, known)) else c.0
  }

  function Run(d: Desk, es: seq<Event>): Desk
  {
    if |es| == 0 then d else Step(Run(d, es[..|es| - 1]), es[|es| - 1])
  }

  /** A fresh plan over a holding, as `create_tp_plan` writes it. */
  function Planned(first: nat, second: nat): Desk
  {
    Desk(LegBook(first, 0, []), LegBook(second, 0, []), first + second, Holding, true)
  }

  // ---------------------------------------------------------------- any run at all

  /** Shares in the position that no leg of the plan has left to sell. */
  function Surplus(d: Desk): int
  {
    d.quantity - Remaining(d.first) - Remaining(d.second)
  }

  predicate WithinTargets(d: Desk)
  {
    d.first.filled <= d.first.target && d.second.filled <= d.second.target
  }

  predicate SamePlan(d: Desk, e: Desk)
  {
    && e.first.target == d.first.target && e.second.target == d.second.target
    && Surplus(e) == Surplus(d) && (WithinTargets(d) ==> WithinTargets(e))
  }

  lemma ApplyKeepsSurplus(d: Desk, leg: Leg, k: nat)
    requires k < |BookOf(d, leg).orders|
    ensures SamePlan(d, OrKeep(d, ApplySell(d, leg, k)))
    ensures WithinTargets(d) && Surplus(d) >= 0 ==> ApplySell(d, leg, k) != Err("more than held")
  {
    match leg
    case First =>
    case Second =>
  }

  lemma RefreshKeepsSurplus(d: Desk, leg: Leg, k: nat, filled: nat, terminal: bool)
    requires k < |BookOf(d, leg).orders|
    ensures SamePlan(d, Refresh(d, leg, k, filled, terminal))
  {
  }

  lemma CancelKeepsSurplus(d: Desk, leg: Leg, r: Reply)
    ensures SamePlan(d, CancelLeg(d, leg, r).0)
  {
  }

  lemma PassKeepsSurplus(d: Desk, r1: Reply, r2: Reply)
    ensures SamePlan(d, SettlePass(d, r1, r2).0)
  {
    CancelKeepsSurplus(d, First, r1);
    CancelKeepsSurplus(CancelLeg(d, First, r1).0, Second, r2);
    var c := CancelBoth(d, r1, r2);
    ApplyNewestKeepsSurplus(c.0, First, Listed(d, First, r1));
    ApplyNewestKeepsSurplus(ApplyNewest(c.0, First, Listed(d, First, r1)).0, Second, Listed(d, Second, r2));
  }

  lemma ApplyNewestKeepsSurplus(d: Desk, leg: Leg, listed: bool)
    ensures SamePlan(d, ApplyNewest(d, leg, listed).0)
  {
    if HasOrder(d, leg) {
      ApplyKeepsSurplus(d, leg, Newest(d, leg));
    }
  }

  lemma PlacingKeepsSurplus(d: Desk, known1: bool, known2: bool)
    ensures SamePlan(d, PlaceOrders(d, known1, known2))
    ensures SamePlan(d, OrKeep(d, PlaceRemainder(d, known1)))
  {
  }

  lemma StepKeepsSurplus(d: Desk, e: Event)
    ensures SamePlan(d, Step(d, e))
  {
    match e
    case Refreshed(leg, k, filled, terminal) =>
      if k < |BookOf(d, leg).orders| { RefreshKeepsSurplus(d, leg, k, filled, terminal); }
    case AppliedTo(leg, k) => if k < |BookOf(d, leg).orders| { ApplyKeepsSurplus(d, leg, k); }
    case LegsPlaced(known1, known2) => PlacingKeepsSurplus(d, known1, known2);
    case RemainderPlaced(known) => PlacingKeepsSurplus(d, known, known);
    case Reissued(r1, r2, known1, known2) =>
      PassKeepsSurplus(d, r1, r2);
      PlacingKeepsSurplus(SettlePass(d, r1, r2).0, known1, known2);
    case RemainderIssued(r1, r2, known) =>
      PassKeepsSurplus(d, r1, r2);
      PlacingKeepsSurplus(SettlePass(d, r1, r2).0, known, known);
  }

  /** The surplus of a desk, none in order and some after a crash, never changes again. */
  lemma {:induction false} SurplusIsForever(d: Desk, es: seq<Event>)
    ensures SamePlan(d, Run(d, es))
  {
    if |es| > 0 {
      SurplusIsForever(d, es[..|es| - 1]);
      StepKeepsSurplus(Run(d, es[..|es| - 1]), es[|es| - 1]);
    }
  }

  /** Over any sequence of refreshes, applications, cancels, stopped passes and reissues, with nothing asked
      of the broker or of their order: the position equals the plan's remaining legs, no leg passes its
      target, and no fill is ever more than held. */
  lemma PositionEqualsRemainingLegs(first: nat, second: nat, es: seq<Event>)
    ensures
      var d := Run(Planned(first, second), es);
      && d.first.target == first && d.second.target == second
      && d.first.filled <= first && d.second.filled <= second
      && d.quantity == Remaining(d.first) + Remaining(d.second)
    ensures forall leg, k :: 0 <= k < |BookOf(Run(Planned(first, second), es), leg).orders| ==>
              ApplySell(Run(Planned(first, second), es), leg, k) != Err("more than held")
  {
    SurplusIsForever(Planned(first, second), es);
    var d := Run(Planned(first, second), es);
    forall leg, k | 0 <= k < |BookOf(d, leg).orders| ensures ApplySell(d, leg, k) != Err("more than held") {
      ApplyKeepsSurplus(d, leg, k);
    }
  }

  /** The two transactions are separate: a crash between them leaves the position `delta` shares above the
      plan's remaining legs, and no later event of any kind takes them off. */
  lemma CrashBetweenTransactionsLosesTheDelta(d: Desk, leg: Leg, k: nat, es: seq<Event>)
    requires Surplus(d) == 0 && k < |BookOf(d, leg).orders|
    requires LegFill(BookOf(d, leg), BookOf(d, leg).orders[k]) > BookOf(d, leg).filled
    ensures
      var filled := LegFill(BookOf(d, leg), BookOf(d, leg).orders[k]);
      var t := Run(FillRecorded(d, leg, filled), es);
      t.quantity == Remaining(t.first) + Remaining(t.second) + (filled - BookOf(d, leg).filled)
  {
    SurplusIsForever(FillRecorded(d, leg, LegFill(BookOf(d, leg), BookOf(d, leg).orders[k])), es);
  }

  // ---------------------------------------------------------------- repeated application, over any run

  /** The phase tells whether shares and first-leg shares are left. */
  predicate PhaseOk(d: Desk)
  {
    && (d.active <==> d.quantity > 0) && (d.phase.Empty? <==> d.quantity == 0)
    && (d.quantity > 0 ==> (d.phase.PartialTp1? <==> Remaining(d.first) == 0))
  }

  /** What every run keeps, whatever the broker reports and whenever orders are reissued. */
  predicate Orderly(d: Desk)
  {
    WithinTargets(d) && Surplus(d) == 0 && PhaseOk(d)
  }

  lemma ApplyKeepsOrderly(d: Desk, leg: Leg, k: nat)
    requires Orderly(d) && k < |BookOf(d, leg).orders|
    ensures Orderly(OrKeep(d, ApplySell(d, leg, k)))
  {
    match leg
    case First =>
    case Second =>
  }

  /** Only the books' orders differ. */
  predicate SamePosition(d: Desk, e: Desk)
  {
    && e.quantity == d.quantity && e.phase == d.phase && e.active == d.active
    && e.first == d.first.(orders := e.first.orders) && e.second == d.second.(orders := e.second.orders)
  }

  lemma CancelKeepsPosition(d: Desk, leg: Leg, r: Reply)
    ensures SamePosition(d, CancelLeg(d, leg, r).0)
  {
  }

  lemma PlacingKeepsPosition(d: Desk, known1: bool, known2: bool)
    ensures SamePosition(d, PlaceOrders(d, known1, known2))
    ensures SamePosition(d, OrKeep(d, PlaceRemainder(d, known1)))
  {
  }

  lemma ApplyNewestKeepsOrderly(d: Desk, leg: Leg, listed: bool)
    requires Orderly(d)
    ensures Orderly(ApplyNewest(d, leg, listed).0)
  {
    if HasOrder(d, leg) {
      ApplyKeepsOrderly(d, leg, Newest(d, leg));
    }
  }

  lemma PassKeepsOrderly(d: Desk, r1: Reply, r2: Reply)
    requires Orderly(d)
    ensures Orderly(SettlePass(d, r1, r2).0)
  {
    CancelKeepsPosition(d, First, r1);
    CancelKeepsPosition(CancelLeg(d, First, r1).0, Second, r2);
    var c := CancelBoth(d, r1, r2);
    if c.1 {
      ApplyNewestKeepsOrderly(c.0, First, Listed(d, First, r1));
      ApplyNewestKeepsOrderly(ApplyNewest(c.0, First, Listed(d, First, r1)).0, Second, Listed(d, Second, r2));
    }
  }

  lemma StepKeepsOrderly(d: Desk, e: Event)
    requires Orderly(d)
    ensures Orderly(Step(d, e))
  {
    match e
    case Refreshed(leg, k, filled, terminal) =>
    case AppliedTo(leg, k) => if k < |BookOf(d, leg).orders| { ApplyKeepsOrderly(d, leg, k); }
    case LegsPlaced(known1, known2) => PlacingKeepsPosition(d, known1, known2);
    case RemainderPlaced(known) => PlacingKeepsPosition(d, known, known);
    case Reissued(r1, r2, known1, known2) =>
      PassKeepsOrderly(d, r1, r2);
      PlacingKeepsPosition(SettlePass(d, r1, r2).0, known1, known2);
    case RemainderIssued(r1, r2, known) =>
      PassKeepsOrderly(d, r1, r2);
      PlacingKeepsPosition(SettlePass(d, r1, r2).0, known, known);
  }

  lemma {:induction false} RunKeepsOrderly(d: Desk, es: seq<Event>)
    requires Orderly(d)
    ensures Orderly(Run(d, es))
  {
    if |es| > 0 {
      RunKeepsOrderly(d, es[..|es| - 1]);
      StepKeepsOrderly(Run(d, es[..|es| - 1]), es[|es| - 1]);
    }
  }

  /** Orders are never dropped or resized, marks never taken back, and a leg's fill never falls. */
  predicate BookGrows(b: LegBook, c: LegBook)
  {
    && c.target == b.target && b.filled <= c.filled && |b.orders| <= |c.orders|
    && forall k :: 0 <= k < |b.orders| ==>
         c.orders[k].qty == b.orders[k].qty && (b.orders[k].applied ==> c.orders[k].applied)
  }

  predicate DeskGrows(d: Desk, e: Desk)
  {
    BookGrows(d.first, e.first) && BookGrows(d.second, e.second)
  }

  lemma ApplyGrows(d: Desk, leg: Leg, k: nat)
    requires k < |BookOf(d, leg).orders|
    ensures DeskGrows(d, OrKeep(d, ApplySell(d, leg, k)))
  {
    match leg
    case First =>
    case Second =>
  }

  lemma CancelGrows(d: Desk, leg: Leg, r: Reply)
    ensures DeskGrows(d, CancelLeg(d, leg, r).0)
  {
    match leg
    case First =>
    case Second =>
  }

  lemma PlacingGrows(d: Desk, known1: bool, known2: bool)
    ensures DeskGrows(d, PlaceOrders(d, known1, known2))
    ensures DeskGrows(d, OrKeep(d, PlaceRemainder(d, known1)))
  {
  }

  lemma GrowsTwice(d: Desk, e: Desk, f: Desk)
    requires DeskGrows(d, e) && DeskGrows(e, f)
    ensures DeskGrows(d, f)
  {
  }

  lemma ApplyNewestGrows(d: Desk, leg: Leg, listed: bool)
    ensures DeskGrows(d, ApplyNewest(d, leg, listed).0)
  {
    if HasOrder(d, leg) {
      ApplyGrows(d, leg, Newest(d, leg));
    }
  }

  lemma CancelBothGrows(d: Desk, r1: Reply, r2: Reply)
    ensures DeskGrows(d, CancelBoth(d, r1, r2).0)
  {
    var a := CancelLeg(d, First, r1).0;
    CancelGrows(d, First, r1);
    CancelGrows(a, Second, r2);
    GrowsTwice(d, a, CancelLeg(a, Second, r2).0);
  }

  lemma PassGrows(d: Desk, r1: Reply, r2: Reply)
    ensures DeskGrows(d, SettlePass(d, r1, r2).0)
  {
    CancelBothGrows(d, r1, r2);
    var c := CancelBoth(d, r1, r2).0;
    var e := ApplyNewest(c, First, Listed(d, First, r1)).0;
    ApplyNewestGrows(c, First, Listed(d, First, r1));
    ApplyNewestGrows(e, Second, Listed(d, Second, r2));
    GrowsTwice(d, c, e);
    GrowsTwice(d, e, ApplyNewest(e, Second, Listed(d, Second, r2)).0);
  }

  lemma StepGrows(d: Desk, e: Event)
    ensures DeskGrows(d, Step(d, e))
  {
    match e
    case Refreshed(leg, k, filled, terminal) =>
    case AppliedTo(leg, k) => if k < |BookOf(d, leg).orders| { ApplyGrows(d, leg, k); }
    case LegsPlaced(known1, known2) => PlacingGrows(d, known1, known2);
    case RemainderPlaced(known) => PlacingGrows(d, known, known);
    case Reissued(r1, r2, known1, known2) =>
      var c := SettlePass(d, r1, r2).0;
      PassGrows(d, r1, r2);
      PlacingGrows(c, known1, known2);
      GrowsTwice(d, c, PlaceOrders(c, known1, known2));
    case RemainderIssued(r1, r2, known) =>
      var c := SettlePass(d, r1, r2).0;
      PassGrows(d, r1, r2);
      PlacingGrows(c, known, known);
      GrowsTwice(d, c, OrKeep(c, PlaceRemainder(c, known)));
  }

  lemma {:induction false} RunGrows(d: Desk, es: seq<Event>)
    ensures DeskGrows(d, Run(d, es))
  {
    if |es| > 0 {
      RunGrows(d, es[..|es| - 1]);
      StepGrows(Run(d, es[..|es| - 1]), es[|es| - 1]);
      GrowsTwice(d, Run(d, es[..|es| - 1]), Run(d, es));
    }
  }

  /** The order's fill has reached its leg: marked, empty, or counted in the leg's cumulative fill. */
  predicate Reached(d: Desk, leg: Leg, k: nat)
    requires k < |BookOf(d, leg).orders|
  {
    var b := BookOf(d, leg);
    b.orders[k].applied || b.orders[k].filled == 0 || LegFill(b, b.orders[k]) <= b.filled
  }

  lemma ApplyReaches(d: Desk, leg: Leg, k: nat)
    requires k < |BookOf(d, leg).orders| && ApplySell(d, leg, k).Ok?
    ensures
      var e := ApplySell(d, leg, k).value;
      k < |BookOf(e, leg).orders| && BookOf(e, leg).orders[k].filled == BookOf(d, leg).orders[k].filled && Reached(e, leg, k)
  {
    match leg
    case First =>
    case Second =>
  }

  /** Applying an order that reached its leg sets at most its mark. */
  predicate OnlyMarked(d: Desk, e: Desk, leg: Leg, k: nat)
    requires k < |BookOf(d, leg).orders|
  {
    e == d || e == WithBook(d, leg, MarkApplied(BookOf(d, leg), k))
  }

  lemma ReachedIsHarmless(d: Desk, leg: Leg, k: nat)
    requires Orderly(d) && k < |BookOf(d, leg).orders| && Reached(d, leg, k)
    ensures OnlyMarked(d, OrKeep(d, ApplySell(d, leg, k)), leg, k)
  {
    match leg
    case First =>
    case Second =>
  }

  /** Fewer shares of a larger leg fill imply no more than before. */
  lemma ReachedStays(d: Desk, e: Desk, leg: Leg, k: nat)
    requires DeskGrows(d, e) && k < |BookOf(d, leg).orders| && Reached(d, leg, k)
    requires BookOf(e, leg).orders[k].filled <= BookOf(d, leg).orders[k].filled
    ensures Reached(e, leg, k)
  {
    match leg
    case First =>
    case Second =>
  }

  /** Repeated application is harmless in any run at all: once an order was applied, applying it again, at any
      later time and after anything else, changes at most its own mark unless it filled further meanwhile. */
  lemma RepeatIsHarmless(first: nat, second: nat, es: seq<Event>, leg: Leg, k: nat, later: seq<Event>)
    requires first >= 1 && k < |BookOf(Run(Planned(first, second), es), leg).orders|
    requires ApplySell(Run(Planned(first, second), es), leg, k).Ok?
    ensures
      var e := ApplySell(Run(Planned(first, second), es), leg, k).value;
      var f := Run(e, later);
      && k < |BookOf(e, leg).orders| <= |BookOf(f, leg).orders|
      && (BookOf(f, leg).orders[k].filled <= BookOf(e, leg).orders[k].filled ==>
            OnlyMarked(f, OrKeep(f, ApplySell(f, leg, k)), leg, k))
  {
    var d := Run(Planned(first, second), es);
    RunKeepsOrderly(Planned(first, second), es);
    ApplyKeepsOrderly(d, leg, k);
    ApplyReaches(d, leg, k);
    var e := ApplySell(d, leg, k).value;
    var f := Run(e, later);
    RunKeepsOrderly(e, later);
    RunGrows(e, later);
    if BookOf(f, leg).orders[k].filled <= BookOf(e, leg).orders[k].filled {
      ReachedStays(e, f, leg, k);
      ReachedIsHarmless(f, leg, k);
    }
  }

  // ---------------------------------------------------------------- runs over a fair broker

  /** An ended order has reached its leg: nothing separated its last refresh from its application. */
  predicate Caught(b: LegBook)
  {
    |b.orders| > 0 && b.orders[|b.orders| - 1].terminal ==> b.filled == Filled(b.orders)
  }

  predicate FairReply(d: Desk, leg: Leg, r: Reply)
  {
    IsOpen(d, leg) && r.Read? ==> Reports(BookOf(d, leg).orders[Newest(d, leg)], r.filled, r.terminal)
  }

  /** A pass with a fair broker that finds every ended order applied. */
  predicate FairPass(d: Desk, r1: Reply, r2: Reply)
  {
    FairReply(d, First, r1) && FairReply(d, Second, r2) && Caught(d.first) && Caught(d.second)
  }

  predicate Allowed(d: Desk, e: Event)
  {
    match e
    case Refreshed(leg, k, filled, terminal) =>
      k < |BookOf(d, leg).orders| ==> Reports(BookOf(d, leg).orders[k], filled, terminal)
    case AppliedTo(_, _) => true
    case LegsPlaced(_, _) => Settled(d)
    case RemainderPlaced(_) => Settled(d)
    case Reissued(r1, r2, _, _) => FairPass(d, r1, r2)
    case RemainderIssued(r1, r2, _) => FairPass(d, r1, r2)
  }

  predicate AllowedRun(d: Desk, es: seq<Event>)
  {
    |es| > 0 ==> AllowedRun(d, es[..|es| - 1]) && Allowed(Run(d, es[..|es| - 1]), es[|es| - 1])
  }

  lemma RefreshKeepsDesk(d: Desk, leg: Leg, k: nat, filled: nat, terminal: bool)
    requires DeskOk(d) && k < |BookOf(d, leg).orders|
    requires Reports(BookOf(d, leg).orders[k], filled, terminal)
    ensures DeskOk(Refresh(d, leg, k, filled, terminal))
  {
    RefreshKeepsLeg(BookOf(d, leg), k, filled, terminal);
    match leg
    case First =>
    case Second =>
  }

  function Other(leg: Leg): Leg
  {
    if leg.First? then Second else First
  }

  /** What a cancel leaves of a leg: the newest order ended and, if it filled nothing, marked. */
  predicate Canceled(b: LegBook, r: Reply, c: LegBook)
  {
    && |c.orders| == |b.orders| > 0 && c.target == b.target && c.filled == b.filled
    && c.orders[..|b.orders| - 1] == b.orders[..|b.orders| - 1]
    && r.Read? && c.orders[|b.orders| - 1].filled == r.filled
    && c.orders[|b.orders| - 1].terminal == r.terminal && c.orders[|b.orders| - 1].known
  }

  lemma CancelLegShape(d: Desk, leg: Leg, r: Reply)
    ensures BookOf(CancelLeg(d, leg, r).0, Other(leg)) == BookOf(d, Other(leg))
    ensures CancelLeg(d, leg, r).0.active == d.active && CancelLeg(d, leg, r).0.quantity == d.quantity
    ensures IsOpen(d, leg) && r.Read? ==> Canceled(BookOf(d, leg), r, BookOf(CancelLeg(d, leg, r).0, leg))
    ensures CancelLeg(d, leg, r).1 <==> !IsOpen(d, leg) || (r.Read? && r.terminal)
    ensures !(IsOpen(d, leg) && r.Read?) ==> CancelLeg(d, leg, r).0 == d
  {
    match leg
    case First =>
    case Second =>
  }

  lemma MarkedDesk(d: Desk, leg: Leg, k: nat)
    requires DeskOk(d) && k < |BookOf(d, leg).orders|
    requires k == |BookOf(d, leg).orders| - 1 ==> BookOf(d, leg).filled == Filled(BookOf(d, leg).orders)
    ensures DeskOk(WithBook(d, leg, MarkApplied(BookOf(d, leg), k)))
  {
    MarkKeepsLeg(BookOf(d, leg), k);
    match leg
    case First =>
    case Second =>
  }

  lemma CancelKeepsDesk(d: Desk, leg: Leg, r: Reply)
    requires DeskOk(d) && FairReply(d, leg, r)
    ensures DeskOk(CancelLeg(d, leg, r).0)
  {
    if IsOpen(d, leg) && r.Read? {
      var k := Newest(d, leg);
      RefreshKeepsDesk(d, leg, k, r.filled, r.terminal);
      if r.terminal && r.filled == 0 {
        MarkedDesk(Refresh(d, leg, k, r.filled, r.terminal), leg, k);
      }
    }
  }

  lemma ApplyNewestKeepsDesk(d: Desk, leg: Leg, listed: bool)
    requires DeskOk(d)
    ensures DeskOk(ApplyNewest(d, leg, listed).0)
  {
    if HasOrder(d, leg) && ApplySell(d, leg, Newest(d, leg)).Ok? {
      ApplyKeepsDesk(d, leg, Newest(d, leg));
    }
  }

  /** Every order of the leg is over. */
  predicate AllOver(b: LegBook)
  {
    forall k :: 0 <= k < |b.orders| ==> Over(b.orders[k])
  }

  /** A leg that has been through the pass: over, and level with its orders unless the caller still has it listed. */
  lemma CanceledLegIsOver(d: Desk, leg: Leg, r: Reply)
    requires DeskOk(d) && FairReply(d, leg, r) && Caught(BookOf(d, leg)) && CancelLeg(d, leg, r).1
    ensures
      var b := BookOf(CancelLeg(d, leg, r).0, leg);
      AllOver(b) && (!Listed(d, leg, r) ==> LegSettled(b))
  {
    CancelKeepsDesk(d, leg, r);
    CancelLegShape(d, leg, r);
    var b := BookOf(CancelLeg(d, leg, r).0, leg);
    if |b.orders| > 0 {
      NewestOver(b);
    }
  }

  lemma NewestOver(b: LegBook)
    requires LegOk(b) && |b.orders| > 0 && Over(b.orders[|b.orders| - 1])
    ensures AllOver(b)
  {
  }

  lemma ApplyIsLocal(d: Desk, leg: Leg, k: nat)
    requires k < |BookOf(d, leg).orders|
    ensures
      var c := OrKeep(d, ApplySell(d, leg, k));
      && BookOf(c, Other(leg)) == BookOf(d, Other(leg))
      && BookOf(c, leg) == BookOf(d, leg).(filled := BookOf(c, leg).filled, orders := BookOf(c, leg).orders)
      && (BookOf(c, leg).orders == BookOf(d, leg).orders ||
          BookOf(c, leg).orders == BookOf(d, leg).orders[k := BookOf(d, leg).orders[k].(applied := true)])
  {
    match leg
    case First =>
    case Second =>
  }

  /** A listed leg, once applied, is settled. */
  lemma AppliedLegSettles(d: Desk, leg: Leg)
    requires DeskOk(d) && AllOver(BookOf(d, leg)) && HasOrder(d, leg)
    requires BookOf(d, leg).orders[Newest(d, leg)].filled > 0
    requires ApplyNewest(d, leg, true).1
    ensures
      var c := ApplyNewest(d, leg, true).0;
      LegSettled(BookOf(c, leg)) && BookOf(c, Other(leg)) == BookOf(d, Other(leg))
  {
    var k := Newest(d, leg);
    ApplyIsLocal(d, leg, k);
    ApplyRefusedExactly(d, leg, k);
    LegFillIsTheSum(BookOf(d, leg), k);
    assert BookOf(d, leg).orders[..k + 1] == BookOf(d, leg).orders;
    if d.active {
      ApplySettlesLeg(d, leg);
    }
    var c := ApplyNewest(d, leg, true).0;
    forall i | 0 <= i < |BookOf(c, leg).orders| ensures Over(BookOf(c, leg).orders[i]) {
      SameOver(BookOf(c, leg).orders[i], BookOf(d, leg).orders[i]);
    }
  }

  lemma SameOver(a: LegOrder, b: LegOrder)
    requires a.(applied := false) == b.(applied := false)
    ensures Over(a) == Over(b)
  {
  }

  lemma ApplyNewestSettles(d: Desk, leg: Leg, listed: bool)
    requires DeskOk(d) && AllOver(BookOf(d, leg)) && ApplyNewest(d, leg, listed).1
    requires !listed ==> LegSettled(BookOf(d, leg))
    requires listed ==> HasOrder(d, leg) && BookOf(d, leg).orders[Newest(d, leg)].filled > 0
    ensures LegSettled(BookOf(ApplyNewest(d, leg, listed).0, leg))
    ensures BookOf(ApplyNewest(d, leg, listed).0, Other(leg)) == BookOf(d, Other(leg))
  {
    if listed {
      AppliedLegSettles(d, leg);
    }
  }

  lemma CancelBothKeepsDesk(d: Desk, r1: Reply, r2: Reply)
    requires DeskOk(d) && FairReply(d, First, r1) && FairReply(d, Second, r2)
    ensures DeskOk(CancelBoth(d, r1, r2).0)
  {
    CancelKeepsDesk(d, First, r1);
    CancelLegShape(d, First, r1);
    if CancelLeg(d, First, r1).1 {
      CancelKeepsDesk(CancelLeg(d, First, r1).0, Second, r2);
    }
  }

  lemma PassKeepsDesk(d: Desk, r1: Reply, r2: Reply)
    requires DeskOk(d) && FairReply(d, First, r1) && FairReply(d, Second, r2)
    ensures DeskOk(SettlePass(d, r1, r2).0)
  {
    CancelBothKeepsDesk(d, r1, r2);
    var c := CancelBoth(d, r1, r2);
    if c.1 {
      ApplyNewestKeepsDesk(c.0, First, Listed(d, First, r1));
      ApplyNewestKeepsDesk(ApplyNewest(c.0, First, Listed(d, First, r1)).0, Second, Listed(d, Second, r2));
    }
  }

  lemma ListedHasFill(d: Desk, leg: Leg, r: Reply)
    requires Listed(d, leg, r)
    ensures
      var c := CancelLeg(d, leg, r).0;
      HasOrder(c, leg) && BookOf(c, leg).orders[Newest(c, leg)].filled > 0
  {
    CancelLegShape(d, leg, r);
  }

  /** Ready to be applied: over, and settled unless listed with a fill. */
  predicate ReadyToApply(d: Desk, leg: Leg, listed: bool)
  {
    && AllOver(BookOf(d, leg))
    && (if listed then HasOrder(d, leg) && BookOf(d, leg).orders[Newest(d, leg)].filled > 0
        else LegSettled(BookOf(d, leg)))
  }

  lemma CanceledLegIsReady(d: Desk, leg: Leg, r: Reply)
    requires DeskOk(d) && FairReply(d, leg, r) && Caught(BookOf(d, leg)) && CancelLeg(d, leg, r).1
    ensures DeskOk(CancelLeg(d, leg, r).0)
    ensures ReadyToApply(CancelLeg(d, leg, r).0, leg, Listed(d, leg, r))
  {
    CancelKeepsDesk(d, leg, r);
    CanceledLegIsOver(d, leg, r);
    if Listed(d, leg, r) {
      ListedHasFill(d, leg, r);
    }
  }

  lemma CompleteCancelIsReady(d: Desk, r1: Reply, r2: Reply)
    requires DeskOk(d) && FairPass(d, r1, r2) && CancelBoth(d, r1, r2).1
    ensures
      var c := CancelBoth(d, r1, r2).0;
      DeskOk(c) && ReadyToApply(c, First, Listed(d, First, r1)) && ReadyToApply(c, Second, Listed(d, Second, r2))
  {
    var a := CancelLeg(d, First, r1).0;
    CanceledLegIsReady(d, First, r1);
    CancelLegShape(d, First, r1);
    CanceledLegIsReady(a, Second, r2);
    CancelLegShape(a, Second, r2);
  }

  lemma ReadyLegsSettle(c: Desk, listed1: bool, listed2: bool)
    requires DeskOk(c) && ReadyToApply(c, First, listed1) && ReadyToApply(c, Second, listed2)
    requires ApplyNewest(c, First, listed1).1 && ApplyNewest(ApplyNewest(c, First, listed1).0, Second, listed2).1
    ensures Settled(ApplyNewest(ApplyNewest(c, First, listed1).0, Second, listed2).0)
  {
    ApplyNewestSettles(c, First, listed1);
    ApplyNewestKeepsDesk(c, First, listed1);
    ApplyNewestSettles(ApplyNewest(c, First, listed1).0, Second, listed2);
  }

  /** A pass that raises nothing leaves nothing open and nothing unapplied, so a reissue starts clean. */
  lemma CompletePassSettles(d: Desk, r1: Reply, r2: Reply)
    requires DeskOk(d) && FairPass(d, r1, r2) && SettlePass(d, r1, r2).1
    ensures DeskOk(SettlePass(d, r1, r2).0) && Settled(SettlePass(d, r1, r2).0)
  {
    PassKeepsDesk(d, r1, r2);
    CompleteCancelIsReady(d, r1, r2);
    ReadyLegsSettle(CancelBoth(d, r1, r2).0, Listed(d, First, r1), Listed(d, Second, r2));
  }

  lemma StepKeepsDesk(d: Desk, e: Event)
    requires DeskOk(d) && Allowed(d, e)
    ensures DeskOk(Step(d, e))
  {
    match e
    case Refreshed(leg, k, filled, terminal) =>
      if k < |BookOf(d, leg).orders| { RefreshKeepsDesk(d, leg, k, filled, terminal); }
    case AppliedTo(leg, k) =>
      if k < |BookOf(d, leg).orders| && ApplySell(d, leg, k).Ok? { ApplyKeepsDesk(d, leg, k); }
    case LegsPlaced(known1, known2) => PlaceKeepsDesk(d, known1, known2);
    case RemainderPlaced(known) => if PlaceRemainder(d, known).Ok? { RemainderKeepsDesk(d, known); }
    case Reissued(r1, r2, known1, known2) =>
      PassKeepsDesk(d, r1, r2);
      if SettlePass(d, r1, r2).1 {
        CompletePassSettles(d, r1, r2);
        PlaceKeepsDesk(SettlePass(d, r1, r2).0, known1, known2);
      }
    case RemainderIssued(r1, r2, known) =>
      PassKeepsDesk(d, r1, r2);
      var c := SettlePass(d, r1, r2);
      if c.1 && PlaceRemainder(c.0, known).Ok? {
        CompletePassSettles(d, r1, r2);
        RemainderKeepsDesk(c.0, known);
      }
  }

  /** With a fair broker and no reissue over an unapplied order, no leg's orders together fill past its
      target, and once everything is settled the shares that left are exactly the shares filled. */
  lemma {:induction false} OrdersStayWithinTargets(first: nat, second: nat, es: seq<Event>)
    requires first >= 1 && AllowedRun(Planned(first, second), es)
    ensures
      var d := Run(Planned(first, second), es);
      && DeskOk(d)
      && Filled(d.first.orders) <= first && Filled(d.second.orders) <= second
      && (Settled(d) ==> d.quantity == first + second - Filled(d.first.orders) - Filled(d.second.orders))
  {
    var d := Run(Planned(first, second), es);
    if |es| > 0 {
      var head := es[..|es| - 1];
      OrdersStayWithinTargets(first, second, head);
      StepKeepsDesk(Run(Planned(first, second), head), es[|es| - 1]);
    }
    PositionEqualsRemainingLegs(first, second, es);
    if |d.first.orders| > 0 { LegFillIsTheSum(d.first, |d.first.orders| - 1); }
    if |d.second.orders| > 0 { LegFillIsTheSum(d.second, |d.second.orders| - 1); }
  }

  /** Canceling the first leg leaves the second as it was. */
  lemma OpenElsewhere(d: Desk, r: Reply)
    ensures CancelLeg(d, First, r).0.second == d.second
    ensures forall r2 :: Listed(CancelLeg(d, First, r).0, Second, r2) == Listed(d, Second, r2)
  {
  }

  // ---------------------------------------------------------------- how a fill gets lost

  /** The first leg's order ended with a fill not yet applied, and the second leg's open order did not confirm. */
  predicate StoppedBetweenLegs(d: Desk, r1: Reply, r2: Reply)
  {
    && IsOpen(d, First) && r1.Read? && r1.terminal
    && Filled(d.first.orders[..Newest(d, First)]) + r1.filled > d.first.filled
    && IsOpen(d, Second) && !(r2.Read? && r2.terminal)
  }

  lemma CanceledFill(d: Desk, leg: Leg, r: Reply)
    requires DeskOk(d) && FairReply(d, leg, r) && IsOpen(d, leg) && r.Read?
    ensures
      var b := BookOf(CancelLeg(d, leg, r).0, leg);
      && Filled(b.orders) == Filled(BookOf(d, leg).orders[..Newest(d, leg)]) + r.filled
      && b.filled == BookOf(d, leg).filled && b.filled <= Filled(b.orders)
      && b.orders[|b.orders| - 1].terminal == r.terminal
  {
    CancelLegShape(d, leg, r);
    CancelKeepsDesk(d, leg, r);
  }

  lemma StoppedPass(d: Desk, r1: Reply, r2: Reply)
    requires DeskOk(d) && FairPass(d, r1, r2) && !CancelBoth(d, r1, r2).1
    ensures Caught(SettlePass(d, r1, r2).0.second)
    ensures !Caught(SettlePass(d, r1, r2).0.first) <==> StoppedBetweenLegs(d, r1, r2)
  {
    var a := CancelLeg(d, First, r1).0;
    CancelLegShape(d, First, r1);
    CancelLegShape(a, Second, r2);
    if IsOpen(d, First) && r1.Read? {
      CanceledFill(d, First, r1);
    }
    CancelKeepsDesk(d, First, r1);
    if IsOpen(a, Second) && r2.Read? {
      CanceledFill(a, Second, r2);
    }
  }

  /** With nothing left to sell, nothing can be unapplied. */
  lemma EndedPlanIsCaught(d: Desk)
    requires DeskOk(d) && !d.active
    ensures Caught(d.first) && Caught(d.second)
  {
    if |d.first.orders| > 0 { LegFillIsTheSum(d.first, |d.first.orders| - 1); }
    if |d.second.orders| > 0 { LegFillIsTheSum(d.second, |d.second.orders| - 1); }
  }

  /** A pass whose cancels all confirmed loses nothing, even when the first application ends the plan. */
  lemma CompleteCancelLosesNothing(d: Desk, r1: Reply, r2: Reply)
    requires DeskOk(d) && d.active && FairPass(d, r1, r2) && CancelBoth(d, r1, r2).1
    ensures Caught(SettlePass(d, r1, r2).0.first) && Caught(SettlePass(d, r1, r2).0.second)
  {
    if SettlePass(d, r1, r2).1 {
      CompletePassSettles(d, r1, r2);
    } else {
      CancelBothKeepsDesk(d, r1, r2);
      PassKeepsDesk(d, r1, r2);
      CancelLegShape(d, First, r1);
      CancelLegShape(CancelLeg(d, First, r1).0, Second, r2);
      var c := CancelBoth(d, r1, r2).0;
      ActiveApplies(c, First, Listed(d, First, r1));
      var e := ApplyNewest(c, First, Listed(d, First, r1)).0;
      ApplyNewestKeepsDesk(c, First, Listed(d, First, r1));
      ActiveApplies(e, Second, Listed(d, Second, r2));
      EndedPlanIsCaught(SettlePass(d, r1, r2).0);
    }
  }

  lemma ActiveApplies(d: Desk, leg: Leg, listed: bool)
    requires DeskOk(d)
    ensures d.active ==> ApplyNewest(d, leg, listed).1
    ensures !ApplyNewest(d, leg, listed).1 ==> ApplyNewest(d, leg, listed).0 == d
  {
    if HasOrder(d, leg) {
      ApplyRefusedExactly(d, leg, Newest(d, leg));
      LegFillIsTheSum(BookOf(d, leg), Newest(d, leg));
    }
  }

  /** The pass loses a fill in exactly one way: it stores the first leg's end, raises over the second leg,
      and its caller never learns which orders to apply. */
  lemma PassLosesAFillExactly(d: Desk, r1: Reply, r2: Reply)
    requires DeskOk(d) && d.active && FairPass(d, r1, r2)
    ensures Caught(SettlePass(d, r1, r2).0.second)
    ensures !Caught(SettlePass(d, r1, r2).0.first) <==> StoppedBetweenLegs(d, r1, r2)
  {
    if CancelBoth(d, r1, r2).1 {
      CompleteCancelLosesNothing(d, r1, r2);
      CancelLegShape(d, First, r1);
      CancelLegShape(CancelLeg(d, First, r1).0, Second, r2);
    } else {
      StoppedPass(d, r1, r2);
    }
  }

  function DeskOf(first: seq<LegOrder>, second: seq<LegOrder>): Desk
  {
    Desk(LegBook(2, 0, first), LegBook(1, 0, second), 3, Holding, true)
  }

  lemma PlacedBoth()
    ensures Run(Planned(2, 1), [LegsPlaced(true, true)]) == DeskOf([NewOrder(2, true, false)], [NewOrder(1, true, false)])
  {
    assert [LegsPlaced(true, true)][..0] == [];
  }

  lemma StoppedAtSecond()
    ensures
      var placed := DeskOf([NewOrder(2, true, false)], [NewOrder(1, true, false)]);
      var ended := NewOrder(2, true, false).(filled := 1, terminal := true);
      && SettlePass(placed, Read(1, true), Lost) == (DeskOf([ended], [NewOrder(1, true, false)]), false)
      && FairPass(placed, Read(1, true), Lost)
  {
    var ended := NewOrder(2, true, false).(filled := 1, terminal := true);
    assert [NewOrder(2, true, false)][0 := ended] == [ended];
  }

  lemma SecondEnded(ended: LegOrder)
    requires ended.terminal
    ensures
      var stopped := DeskOf([ended], [NewOrder(1, true, false)]);
      var over := NewOrder(1, true, false).(terminal := true, applied := true);
      && SettlePass(stopped, Lost, Read(0, true)) == (DeskOf([ended], [over]), true)
      && FairReply(stopped, Second, Read(0, true))
  {
    var two := NewOrder(1, true, false);
    var gone := two.(terminal := true);
    assert [two][0 := gone] == [gone] && [gone][0 := gone.(applied := true)] == [gone.(applied := true)];
  }

  /** A pass that raises leaves what it stored; one that completes reissues both legs. */
  lemma ReissueStep(d: Desk, r1: Reply, r2: Reply, first: LegOrder, second: LegOrder, done: bool)
    requires SettlePass(d, r1, r2) == (DeskOf([first], [second]), done)
    ensures Step(d, Reissued(r1, r2, true, true)) ==
            if done then DeskOf([first, NewOrder(2, true, false)], [second, NewOrder(1, true, false)])
            else DeskOf([first], [second])
  {
  }

  /** A run that loses a fill: two and one share out, the first leg ends with one sold while the second cannot be
      read back, and the reissue that follows offers two where one is left. */
  lemma StoppedPassOversells()
    ensures
      var es := [LegsPlaced(true, true)];
      var placed := Run(Planned(2, 1), es);
      var stopped := Step(placed, Reissued(Read(1, true), Lost, true, true));
      var again := Step(stopped, Reissued(Lost, Read(0, true), true, true));
      && FairPass(placed, Read(1, true), Lost) && FairReply(stopped, Second, Read(0, true))
      && |again.first.orders| == 2 && again.first.orders[0].filled == 1 && again.first.orders[0].qty == 2
      && again.first.orders[1].qty == 2
  {
    var ended := NewOrder(2, true, false).(filled := 1, terminal := true);
    var over := NewOrder(1, true, false).(terminal := true, applied := true);
    var one, two := NewOrder(2, true, false), NewOrder(1, true, false);
    PlacedBoth();
    StoppedAtSecond();
    ReissueStep(DeskOf([one], [two]), Read(1, true), Lost, ended, two, false);
    SecondEnded(ended);
    ReissueStep(DeskOf([ended], [two]), Lost, Read(0, true), ended, over, true);
  }

  /** Over ended orders each leg's reissue asks for exactly what its orders have left unsold if and only if
      every fill of the leg was applied, and for more otherwise; so does a remainder exit for the second leg. */
  lemma ReissueFitsExactly(d: Desk, known1: bool, known2: bool)
    requires DeskOk(d) && d.active && AllOver(d.first) && AllOver(d.second)
    ensures
      var e := PlaceOrders(d, known1, known2);
      && (Remaining(d.first) > 0 ==> Fits(d.first, e.first) <==> LegSettled(d.first))
      && (Remaining(d.second) > 0 ==> Fits(d.second, e.second) <==> LegSettled(d.second))
      && (!LegSettled(d.first) && Remaining(d.first) > 0 ==> Oversells(d.first, e.first))
      && (!LegSettled(d.second) && Remaining(d.second) > 0 ==> Oversells(d.second, e.second))
    ensures d.phase.PartialTp1? ==>
              var e := PlaceRemainder(d, known1);
              e.Ok? && (Fits(d.second, e.value.second) <==> LegSettled(d.second))
              && (!LegSettled(d.second) ==> Oversells(d.second, e.value.second))
  {
  }

  /** What the leg's orders filled, and what the new one may fill, come to the target. */
  predicate Fits(b: LegBook, c: LegBook)
  {
    |c.orders| == |b.orders| + 1 && Filled(b.orders) + c.orders[|b.orders|].qty == b.target
  }

  predicate Oversells(b: LegBook, c: LegBook)
  {
    |c.orders| == |b.orders| + 1 && Filled(b.orders) + c.orders[|b.orders|].qty > b.target
  }

  // ---------------------------------------------------------------- the managers

  /** `PositionManager` and `TakeProfitManager` over one position's rows. */
  class TakeProfitDesk {
    var desk: Desk

    constructor (first: nat, second: nat)
      requires first >= 1
      ensures desk == Planned(first, second) && DeskOk(desk)
    {
      desk := Planned(first, second);
    }

    /** Two transactions in a row; the caller sees only both. */
    method ApplySellFill(leg: Leg, k: nat) returns (ok: bool)
      requires k < |BookOf(desk, leg).orders|
      modifies this
      ensures ok == ApplySell(old(desk), leg, k).Ok?
      ensures desk == OrKeep(old(desk), ApplySell(old(desk), leg, k))
    {
      var order := BookOf(desk, leg).orders[k];
      if order.applied || order.filled == 0 {
        return true;
      }
      if !desk.active {
        return false;
      }
      var book := BookOf(desk, leg);
      var baseFilled := MaxInt(0, book.target - order.qty);
      var legFilled := MinInt(book.target, baseFilled + order.filled);
      if legFilled < book.filled {
        return false;
      }
      var delta := legFilled - book.filled;
      if delta > desk.quantity {
        return false;
      }
      desk := WithBook(desk, leg, book.(filled := legFilled));
      var quantity := desk.quantity - delta;
      desk := desk.(quantity := quantity);
      if !(leg.First? && legFilled < book.target) {
        if quantity == 0 {
          desk := desk.(phase := Empty, active := false);
        } else if leg.First? {
          desk := desk.(phase := PartialTp1);
        }
      }
      if order.terminal {
        desk := WithBook(desk, leg, MarkApplied(BookOf(desk, leg), k));
      }
      return true;
    }

    /** One leg's turn in `cancel_open_tp_orders`; `listed` is what the pass hands to its caller. */
    method CancelOpenOrder(leg: Leg, r: Reply) returns (ok: bool, listed: bool)
      modifies this
      ensures (desk, ok) == CancelLeg(old(desk), leg, r)
      ensures ok ==> listed == Listed(old(desk), leg, r)
    {
      ok, listed := true, false;
      var orders := BookOf(desk, leg).orders;
      if |orders| == 0 {
        return;
      }
      var k := |orders| - 1;
      if orders[k].terminal || !orders[k].known {
        return;
      }
      if r.Lost? {
        return false, false;
      }
      desk := Refresh(desk, leg, k, r.filled, r.terminal);
      if !r.terminal {
        return false, false;
      }
      if r.filled > 0 {
        listed := true;
      } else {
        desk := WithBook(desk, leg, MarkApplied(BookOf(desk, leg), k));
      }
    }

    /** The whole pass and its caller's applications. */
    method CancelAndSettle(r1: Reply, r2: Reply) returns (ok: bool)
      modifies this
      ensures (desk, ok) == SettlePass(old(desk), r1, r2)
    {
      var listed1: bool, listed2: bool;
      OpenElsewhere(desk, r1);
      ok, listed1 := CancelOpenOrder(First, r1);
      if !ok {
        return;
      }
      ok, listed2 := CancelOpenOrder(Second, r2);
      if !ok {
        return;
      }
      if listed1 {
        ok := ApplySellFill(First, |desk.first.orders| - 1);
        if !ok {
          return;
        }
      }
      if listed2 {
        ok := ApplySellFill(Second, |desk.second.orders| - 1);
      }
    }

    /** After a cancel pass: what is left of each leg goes out again. */
    method PlaceLegs(known1: bool, known2: bool)
      modifies this
      ensures desk == PlaceOrders(old(desk), known1, known2)
    {
      var left1, left2 := desk.first.target - desk.first.filled, desk.second.target - desk.second.filled;
      if left1 > 0 {
        desk := desk.(first := desk.first.(orders := desk.first.orders + [LegOrder(left1, 0, false, false, known1, false)]));
      }
      if left2 > 0 {
        desk := desk.(second := desk.second.(orders := desk.second.orders + [LegOrder(left2, 0, false, false, known2, false)]));
      }
    }

    method PlaceRemainderExit(known: bool) returns (ok: bool)
      modifies this
      ensures ok == PlaceRemainder(old(desk), known).Ok?
      ensures desk == OrKeep(old(desk), PlaceRemainder(old(desk), known))
    {
      if !desk.active || !desk.phase.PartialTp1? || desk.quantity == 0 {
        return false;
      }
      var order := LegOrder(desk.quantity, 0, false, false, known, true);
      desk := desk.(second := desk.second.(orders := desk.second.orders + [order]));
      return true;
    }
  }
}
