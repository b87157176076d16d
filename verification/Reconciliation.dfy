/**
 Comparing the ledger with the broker's holdings while orders move: the two endpoints of the
 broker may disagree for a moment, each ahead of the other by some fills.
 */
module Reconciliation {
  import opened Numeric

  /** One local order of a symbol: its fill before this cycle's refresh and after it; `open` is its status after. */
  datatype CoreOrder = CoreOrder(
    core: bool, buy: bool, qty: nat, prior: nat, filled: nat, open: bool, identified: bool, unknown: bool)

  /** What the refresh applied to the ledger in this cycle. */
  function Newly(o: CoreOrder): nat
  {
    if o.core && o.identified then MaxInt(0, o.filled - o.prior) else 0
  }

  /** What the order may still fill. */
  function Remaining(o: CoreOrder): nat
  {
    if o.open && o.core && o.identified && !o.unknown then MaxInt(0, o.qty - o.filled) else 0
  }

  /** Shares the holdings endpoint may show above the ledger on account of one order. */
  function Above(o: CoreOrder): nat
  {
    if o.buy then Remaining(o) else Newly(o)
  }

  function Below(o: CoreOrder): nat
  {
    if o.buy then Newly(o) else Remaining(o)
  }

  function RemainingOf(os: seq<CoreOrder>, buy: bool): nat
  {
    if |os| == 0 then 0
    else RemainingOf(os[..|os| - 1], buy) + if os[|os| - 1].buy == buy then Remaining(os[|os| - 1]) else 0
  }

  function RecentOf(os: seq<CoreOrder>, buy: bool): nat
  {
    if |os| == 0 then 0
    else RecentOf(os[..|os| - 1], buy) + if os[|os| - 1].buy == buy then Newly(os[|os| - 1]) else 0
  }

  /** `_core_fill_transition_explains_quantity` */
  predicate Explains(expected: int, broker: int, os: seq<CoreOrder>)
  {
    var rb, rs, nb, ns := RemainingOf(os, true), RemainingOf(os, false), RecentOf(os, true), RecentOf(os, false);
    && expected != broker
    && (rb != 0 || rs != 0 || nb != 0 || ns != 0)
    && expected - rs - nb <= broker <= expected + rb + ns
  }

  /** The loop that adds the open remainders up. */
  method TransitionExplains(expected: int, broker: int, os: seq<CoreOrder>, recentBuy: nat, recentSell: nat)
    returns (explained: bool)
    requires recentBuy == RecentOf(os, true) && recentSell == RecentOf(os, false)
    ensures explained == Explains(expected, broker, os)
  {
    if expected == broker {
      return false;
    }
    var remainingBuy, remainingSell := 0, 0;
    for i := 0 to |os|
      invariant remainingBuy == RemainingOf(os[..i], true) && remainingSell == RemainingOf(os[..i], false)
    {
      assert os[..i + 1][..i] == os[..i];
      var o := os[i];
      if !o.open || !o.core || !o.identified || o.unknown {
        continue;
      }
      var remaining := MaxInt(0, o.qty - o.filled);
      if o.buy {
        remainingBuy := remainingBuy + remaining;
      } else {
        remainingSell := remainingSell + remaining;
      }
    }
    assert os[..|os|] == os;
    if remainingBuy == 0 && remainingSell == 0 && recentBuy == 0 && recentSell == 0 {
      return false;
    }
    return expected - remainingSell - recentBuy <= broker <= expected + remainingBuy + recentSell;
  }

  // ---------------------------------------------------------------- holdings views

  /** How many shares of each order the holdings endpoint has already taken into account. */
  predicate View(os: seq<CoreOrder>, shown: seq<int>)
  {
    |shown| == |os| && forall i :: 0 <= i < |os| ==> Shows(os[i], shown[i])
  }

  /** Of a core order the broker knows, anything from the fill before this cycle to the whole order while it may still
      fill; of any other order exactly the ledger's fill. */
  predicate Shows(o: CoreOrder, shown: int)
  {
    && shown >= (if o.core && o.identified then MinInt(o.prior, o.filled) else o.filled)
    && shown <= (if o.core && o.identified && o.open && !o.unknown then MaxInt(o.qty, o.filled) else o.filled)
  }

  lemma ShowsExactly(o: CoreOrder, shown: int)
    ensures Shows(o, shown) <==> o.filled - Newly(o) <= shown <= o.filled + Remaining(o)
  {
  }

  function Effect(o: CoreOrder, shown: int): int
  {
    if o.buy then shown - o.filled else o.filled - shown
  }

  /** The holdings a view shows, given the quantity the ledger expects. */
  function Seen(expected: int, os: seq<CoreOrder>, shown: seq<int>): int
    requires |shown| == |os|
  {
    if |os| == 0 then expected
    else
      var n := |os| - 1;
      Seen(expected, os[..n], shown[..n]) + Effect(os[n], shown[n])
  }

  function Highest(os: seq<CoreOrder>): nat
  {
    RemainingOf(os, true) + RecentOf(os, false)
  }

  function Lowest(os: seq<CoreOrder>): nat
  {
    RemainingOf(os, false) + RecentOf(os, true)
  }

  lemma NextBounds(os: seq<CoreOrder>)
    requires |os| > 0
    ensures
      var n := |os| - 1;
      Highest(os) == Highest(os[..n]) + Above(os[n]) && Lowest(os) == Lowest(os[..n]) + Below(os[n])
  {
  }

  lemma {:induction false} ViewsStayInRange(expected: int, os: seq<CoreOrder>, shown: seq<int>)
    requires View(os, shown)
    ensures expected - Lowest(os) <= Seen(expected, os, shown) <= expected + Highest(os)
  {
    if |os| > 0 {
      var n := |os| - 1;
      ViewsStayInRange(expected, os[..n], shown[..n]);
      NextBounds(os);
      ShowsExactly(os[n], shown[n]);
    }
  }

  /** Every whole quantity in the range is shown by some view: an integer decomposition, order by order. */
  lemma {:induction false} SomeViewShows(expected: int, os: seq<CoreOrder>, broker: int) returns (shown: seq<int>)
    requires expected - Lowest(os) <= broker <= expected + Highest(os)
    ensures View(os, shown) && Seen(expected, os, shown) == broker
  {
    if |os| == 0 {
      shown := [];
    } else {
      var n := |os| - 1;
      NextBounds(os);
      var above, below := Highest(os[..n]), Lowest(os[..n]);
      var part := MaxInt(0 - Below(os[n]), MinInt(Above(os[n]), broker - expected));
      var rest := SomeViewShows(expected, os[..n], broker - part);
      shown := rest + [if os[n].buy then os[n].filled + part else os[n].filled - part];
      assert shown[..n] == rest;
      ShowsExactly(os[n], shown[n]);
    }
  }

  /** The skew test is exact: a different quantity is let through if and only if some view of the holdings,
      ahead by part of the open remainders or behind by part of this cycle's fills, shows it. */
  lemma ExplainsExactly(expected: int, broker: int, os: seq<CoreOrder>)
    ensures Explains(expected, broker, os) <==>
            broker != expected && exists shown :: View(os, shown) && Seen(expected, os, shown) == broker
  {
    if Explains(expected, broker, os) {
      var shown := SomeViewShows(expected, os, broker);
    }
    forall shown | View(os, shown) && Seen(expected, os, shown) == broker && broker != expected
      ensures Explains(expected, broker, os)
    {
      ViewsStayInRange(expected, os, shown);
    }
  }

  // ---------------------------------------------------------------- the quantity checks of a symbol

  predicate Whole(x: real)
  {
    x == x.Floor as real
  }

  datatype Issue = InvalidQuantity | Fractional | Mismatch | Unmanaged | BrokerEmpty

  /** The quantity part of `run`, in the order its issues are found. */
  function QuantityIssues(expected: int, broker: real, os: seq<CoreOrder>): seq<Issue>
  {
    var invalid := broker < 0.0;
    var explained := !invalid && Whole(broker) && Explains(expected, broker.Floor, os);
    var off := expected as real != broker && !explained;
    (if invalid then [InvalidQuantity] else if !Whole(broker) then [Fractional] else [])
    + (if off then [Mismatch] else [])
    + (if expected == 0 && broker > 0.0 && !explained then [Unmanaged] else [])
    + (if expected > 0 && broker == 0.0 && !explained then [BrokerEmpty] else [])
  }

  /** A symbol passes its quantity checks exactly when the broker reports the holdings of some view. */
  lemma QuantityAcceptedExactly(expected: int, broker: real, os: seq<CoreOrder>)
    requires expected >= 0
    ensures QuantityIssues(expected, broker, os) == [] <==>
            broker >= 0.0 && exists shown :: View(os, shown) && Seen(expected, os, shown) as real == broker
  {
    ExplainsExactly(expected, broker.Floor, os);
    var still := SomeViewShows(expected, os, expected);
    assert View(os, still) && Seen(expected, os, still) == expected;
    forall shown | View(os, shown) && Seen(expected, os, shown) as real == broker
      ensures Whole(broker) && Seen(expected, os, shown) == broker.Floor
    {
    }
  }

  /** Which issue is raised: a negative or fractional quantity by itself; and, unless some view shows the quantity,
      a mismatch, with shares nobody manages or a holding the broker does not have. */
  lemma IssuesExactly(expected: int, broker: real, os: seq<CoreOrder>)
    requires expected >= 0
    ensures
      var issues := QuantityIssues(expected, broker, os);
      var shown := exists view :: View(os, view) && Seen(expected, os, view) as real == broker;
      && (InvalidQuantity in issues <==> broker < 0.0)
      && (Fractional in issues <==> broker >= 0.0 && broker != broker.Floor as real)
      && (Mismatch in issues <==> broker < 0.0 || !shown)
      && (Unmanaged in issues <==> expected == 0 && broker > 0.0 && !shown)
      && (BrokerEmpty in issues <==> expected > 0 && broker == 0.0 && !shown)
  {
    ExplainsExactly(expected, broker.Floor, os);
    var still := SomeViewShows(expected, os, expected);
    assert View(os, still) && Seen(expected, os, still) == expected;
    forall view | View(os, view) && Seen(expected, os, view) as real == broker
      ensures Whole(broker) && Seen(expected, os, view) == broker.Floor
    {
    }
  }
}
