/** The research overlay's activity series, replayed from a trade log one session late. */
module Overlay {
  import opened Numeric
  import opened Results
  import opened Sums
  import opened Strategy
  import opened TradeLog
  import opened Backtest

  /** The loop's `end_of_day_quantity` after `n` sessions of the index. */
  function ReplayEod(log: seq<Trade>, index: seq<int>, n: nat): int
    requires n <= |index|
  {
    if n == 0 then 0
    else MaxInt(0, ReplayEod(log, index, n - 1) + BoughtOn(log, index[n - 1]) - SoldOn(log, index[n - 1]))
  }

  predicate HeldDuring(log: seq<Trade>, index: seq<int>, n: nat)
    requires n < |index|
  {
    ReplayEod(log, index, n) + BoughtOn(log, index[n]) > 0
  }

  /** The series after its shift: the overlay of a session looks at the session before. */
  predicate ActiveAt(log: seq<Trade>, index: seq<int>, n: nat)
    requires n < |index|
  {
    n > 0 && HeldDuring(log, index, n - 1)
  }

  method VirtualActiveSeries(log: seq<Trade>, expected: int, index: seq<int>) returns (r: Result<seq<bool>>)
    ensures r.Ok? <==> ReplayEod(log, index, |index|) == expected
    ensures r.Ok? ==> |r.value| == |index| && forall i :: 0 <= i < |index| ==> r.value[i] == ActiveAt(log, index, i)
  {
    var eod, active := 0, [];
    for i := 0 to |index|
      invariant eod == ReplayEod(log, index, i)
      invariant |active| == i && forall j :: 0 <= j < i ==> active[j] == HeldDuring(log, index, j)
    {
      var buys, sells := BoughtOn(log, index[i]), SoldOn(log, index[i]);
      var open := eod + buys;
      active := active + [open > 0];
      eod := MaxInt(0, open - sells);
    }
    if eod != expected {
      return Err("overlay replay mismatch");
    }
    return Ok(if |index| == 0 then [] else [false] + active[..|index| - 1]);
  }

  predicate Ascending(index: seq<int>)
  {
    forall i, j :: 0 <= i < j < |index| ==> index[i] < index[j]
  }

  /** Every trade of the log is dated on a session of the index. */
  predicate Covers(index: seq<int>, log: seq<Trade>)
  {
    forall k :: 0 <= k < |log| ==> log[k].date in index
  }

  // ---------------------------------------------------------------- replay equals engine

  /** No trade is dated after `last`, if there is one, and before `date`. */
  predicate Gap(log: seq<Trade>, last: Option<int>, date: int)
  {
    forall k :: 0 <= k < |log| ==> log[k].date >= date || (last.Some? && log[k].date <= last.value)
  }

  function NetUpTo(log: seq<Trade>, last: Option<int>): int
  {
    if last.Some? then NetAsOf(log, last.value) else 0
  }

  lemma {:induction false} NextSessionNet(log: seq<Trade>, last: Option<int>, date: int)
    requires Gap(log, last, date) && (last.Some? ==> last.value < date)
    ensures NetAsOf(log, date) == NetUpTo(log, last) + BoughtOn(log, date) - SoldOn(log, date)
  {
    if |log| > 0 {
      NextSessionNet(log[..|log| - 1], last, date);
    }
  }

  function LastOf(index: seq<int>, n: nat): Option<int>
    requires n <= |index|
  {
    if n == 0 then None else Some(index[n - 1])
  }

  lemma SessionsLeaveNoGap(log: seq<Trade>, index: seq<int>, n: nat)
    requires Ascending(index) && Covers(index, log) && n < |index|
    ensures Gap(log, LastOf(index, n), index[n])
  {
    forall k | 0 <= k < |log|
      ensures log[k].date >= index[n] || (n > 0 && log[k].date <= index[n - 1])
    {
      var j :| 0 <= j < |index| && index[j] == log[k].date;
    }
  }

  /** On an index that has every trade date the clamp never binds: each session replays to the log's own quantity. */
  lemma {:induction false} ReplayIsExact(log: seq<Trade>, index: seq<int>, n: nat)
    requires NeverShort(log) && Ascending(index) && Covers(index, log) && n <= |index|
    ensures ReplayEod(log, index, n) == NetUpTo(log, LastOf(index, n))
    ensures n > 0 ==>
              ReplayEod(log, index, n - 1) + BoughtOn(log, index[n - 1]) - SoldOn(log, index[n - 1]) >= 0
  {
    if n > 0 {
      ReplayIsExact(log, index, n - 1);
      SessionsLeaveNoGap(log, index, n - 1);
      NextSessionNet(log, LastOf(index, n - 1), index[n - 1]);
    }
  }

  lemma ReplayEndsAtTheLog(log: seq<Trade>, index: seq<int>)
    requires NeverShort(log) && Ascending(index) && Covers(index, log)
    ensures ReplayEod(log, index, |index|) == NetQty(log)
  {
    if |log| > 0 {
      var i :| 0 <= i < |index| && index[i] == log[0].date;
      ReplayIsExact(log, index, |index|);
      forall k | 0 <= k < |log| ensures log[k].date <= index[|index| - 1] {
        var j :| 0 <= j < |index| && index[j] == log[k].date;
      }
      ThroughMeansAll(log, index[|index| - 1]);
    } else {
      NothingReplays(index, |index|);
    }
  }

  lemma {:induction false} NothingReplays(index: seq<int>, n: nat)
    requires n <= |index|
    ensures ReplayEod([], index, n) == 0
  {
    if n > 0 {
      NothingReplays(index, n - 1);
    }
  }

  lemma OnePurchase(t: Trade, other: int)
    requires t.buy && t.date != other
    ensures BoughtOn([t], other) == 0 && SoldOn([t], other) == 0 && NetQty([t]) == t.quantity
  {
    CountSingle(t, BuysOn(other));
    CountSingle(t, SellsOn(other));
    CountSingle(t, Net());
  }

  /** An index that misses the trade date fails the replay of the simplest log. */
  lemma MissedDateIsCaught(t: Trade, other: int)
    requires t.buy && t.quantity > 0 && t.date != other
    ensures ReplayEod([t], [other], 1) != NetQty([t])
  {
    OnePurchase(t, other);
    assert ReplayEod([t], [other], 0) == 0;
  }

  // ---------------------------------------------------------------- no look-ahead

  lemma {:induction false} LaterTradesUnseen(log: seq<Trade>, later: seq<Trade>, date: int)
    requires forall k :: 0 <= k < |later| ==> later[k].date > date
    ensures BoughtOn(log + later, date) == BoughtOn(log, date)
    ensures SoldOn(log + later, date) == SoldOn(log, date)
  {
    if |later| > 0 {
      var n := |later| - 1;
      LaterTradesUnseen(log, later[..n], date);
      assert (log + later)[..|log + later| - 1] == log + later[..n];
    } else {
      assert log + later == log;
    }
  }

  lemma {:induction false} EodLooksBack(log: seq<Trade>, later: seq<Trade>, index: seq<int>, n: nat)
    requires Ascending(index) && n <= |index|
    requires n > 0 ==> forall k :: 0 <= k < |later| ==> later[k].date > index[n - 1]
    ensures ReplayEod(log + later, index, n) == ReplayEod(log, index, n)
  {
    if n > 0 {
      EodLooksBack(log, later, index, n - 1);
      LaterTradesUnseen(log, later, index[n - 1]);
    }
  }

  /** What a session's overlay shows depends on no trade dated that session or later. */
  lemma NoLookAhead(log: seq<Trade>, later: seq<Trade>, index: seq<int>, n: nat)
    requires Ascending(index) && n < |index|
    requires forall k :: 0 <= k < |later| ==> later[k].date >= index[n]
    ensures ActiveAt(log + later, index, n) == ActiveAt(log, index, n)
  {
    if n > 0 {
      EodLooksBack(log, later, index, n - 1);
      LaterTradesUnseen(log, later, index[n - 1]);
    }
  }

  // ---------------------------------------------------------------- the engine and its replay together

  function Dates(days: seq<Day>): (ds: seq<int>)
    ensures |ds| == |days| && forall i :: 0 <= i < |days| ==> ds[i] == days[i].date
  {
    if |days| == 0 then [] else Dates(days[..|days| - 1]) + [days[|days| - 1].date]
  }

  lemma SessionsCover(log: seq<Trade>, days: seq<Day>)
    requires OnSessions(log, days)
    ensures Covers(Dates(days), log)
  {
    forall k | 0 <= k < |log| ensures log[k].date in Dates(days) {
      assert log[k] in log;
      var i :| 0 <= i < |days| && days[i].date == log[k].date;
      assert Dates(days)[i] == log[k].date;
    }
  }

  /** Whatever the last date before a gap, the log stands where it stood the day before `date`. */
  lemma {:induction false} GapNet(log: seq<Trade>, last: Option<int>, date: int)
    requires Gap(log, last, date) && (last.Some? ==> last.value < date)
    ensures NetUpTo(log, last) == NetAsOf(log, date - 1)
  {
    if |log| > 0 {
      GapNet(log[..|log| - 1], last, date);
    }
  }

  function LastDay(days: seq<Day>, i: nat): Option<int>
    requires i < |days|
  {
    if i == 0 then None else Some(days[i - 1].date)
  }

  lemma DaysLeaveNoGap(log: seq<Trade>, days: seq<Day>, i: nat)
    requires Increasing(days) && OnSessions(log, days) && i < |days|
    ensures Gap(log, LastDay(days, i), days[i].date)
  {
    forall k | 0 <= k < |log|
      ensures log[k].date >= days[i].date || (i > 0 && log[k].date <= days[i - 1].date)
    {
      assert log[k] in log;
      var j :| 0 <= j < |days| && days[j].date == log[k].date;
      if j < i {
        SessionsInOrder(days, j, i - 1);
      } else {
        SessionsInOrder(days, i, j);
      }
    }
    Earlier(days, i);
  }

  lemma {:induction false} SessionsInOrder(days: seq<Day>, i: nat, j: nat)
    requires Increasing(days) && i <= j < |days|
    ensures days[i].date <= days[j].date
  {
    if i < j {
      assert LaterThanLast(days, j);
      SessionsInOrder(days, i, j - 1);
    }
  }

  /** Both sides of a shared session, reduced to the log the day before. */
  lemma ReplayBefore(log: seq<Trade>, index: seq<int>, n: nat)
    requires NeverShort(log) && Ascending(index) && Covers(index, log) && n < |index|
    ensures ReplayEod(log, index, n) == NetAsOf(log, index[n] - 1)
    ensures ReplayEod(log, index, n + 1) == NetAsOf(log, index[n])
    ensures HeldDuring(log, index, n) <==> NetAsOf(log, index[n] - 1) + BoughtOn(log, index[n]) > 0
  {
    ReplayIsExact(log, index, n);
    ReplayIsExact(log, index, n + 1);
    SessionsLeaveNoGap(log, index, n);
    GapNet(log, LastOf(index, n), index[n]);
  }

  lemma EngineBefore(log: seq<Trade>, days: seq<Day>, eod: seq<nat>, held: seq<bool>, i: nat)
    requires Increasing(days) && OnSessions(log, days) && Tracked(log, days, eod, held) && i < |days|
    ensures eod[i] == NetAsOf(log, days[i].date)
    ensures held[i] <==> NetAsOf(log, days[i].date - 1) + BoughtOn(log, days[i].date) > 0
  {
    DaysLeaveNoGap(log, days, i);
    Earlier(days, i);
    GapNet(log, LastDay(days, i), days[i].date);
  }

  /** Engine and replay agree on every date they share, whatever else the index holds. */
  lemma SessionMatches(
    log: seq<Trade>, index: seq<int>, n: nat, days: seq<Day>, eod: seq<nat>, held: seq<bool>, i: nat)
    requires NeverShort(log) && Ascending(index) && Covers(index, log) && n < |index|
    requires Increasing(days) && OnSessions(log, days) && Tracked(log, days, eod, held) && i < |days|
    requires index[n] == days[i].date
    ensures ReplayEod(log, index, n + 1) == eod[i]
    ensures HeldDuring(log, index, n) == held[i]
  {
    ReplayBefore(log, index, n);
    EngineBefore(log, days, eod, held, i);
  }

  /** The series and the engine, session by shared session. */
  ghost predicate Follows(
    log: seq<Trade>, index: seq<int>, active: seq<bool>, days: seq<Day>, eod: seq<nat>, held: seq<bool>)
    requires |active| == |index| && |eod| == |held| == |days|
  {
    forall n, i :: 0 <= n < |index| && 0 <= i < |days| && index[n] == days[i].date ==>
      ReplayEod(log, index, n + 1) == eod[i] && (n + 1 < |index| ==> active[n + 1] == held[i])
  }

  lemma SeriesFollows(
    log: seq<Trade>, index: seq<int>, active: seq<bool>, days: seq<Day>, eod: seq<nat>, held: seq<bool>)
    requires NeverShort(log) && Ascending(index) && Covers(index, log)
    requires Increasing(days) && OnSessions(log, days) && Tracked(log, days, eod, held)
    requires |active| == |index| && forall i :: 0 <= i < |index| ==> active[i] == ActiveAt(log, index, i)
    ensures Follows(log, index, active, days, eod, held)
  {
    forall n, i | 0 <= n < |index| && 0 <= i < |days| && index[n] == days[i].date
      ensures ReplayEod(log, index, n + 1) == eod[i] && (n + 1 < |index| ==> active[n + 1] == held[i])
    {
      SessionMatches(log, index, n, days, eod, held, i);
    }
  }

  /** Any simulation, replayed on any index with its trade dates, passes the replay's own check. On every
      session the index shares with the simulation the replayed quantity is the engine's, and the overlay
      of the next entry is active exactly when the engine held shares during that session. */
  method SimulateAndReplay(c: Config, days: seq<Day>, slippage: real, index: seq<int>)
    returns (eod: seq<nat>, held: seq<bool>, log: seq<Trade>, r: Result<seq<bool>>)
    requires ValidConfig(c) && Increasing(days) && Ascending(index)
    ensures |eod| == |held| == |days|
    ensures log == SessionsOf(c, days, slippage).0.book.trades
    ensures Covers(Dates(days), log)
    ensures Covers(index, log) ==>
              r.Ok? && |r.value| == |index| && Follows(log, index, r.value, days, eod, held)
  {
    var sim := new Simulation(c);
    eod, held := sim.Run(days, slippage);
    log := sim.book.trades;
    r := VirtualActiveSeries(log, sim.pos.quantity, index);
    SessionsCover(log, days);
    if Covers(index, log) {
      ReplayEndsAtTheLog(log, index);
      SeriesFollows(log, index, r.value, days, eod, held);
    }
  }
}
