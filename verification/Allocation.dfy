/** The monthly allocation rule: leverage and sleeve choice, target weights and the overlay. */
module Allocation {
  import opened Numeric
  import opened Results

  /** A session's indicators; `None` is a value not yet available. */
  datatype Features = Features(
    close: real, smaShort: Option<real>, smaLong: Option<real>, retShort: Option<real>,
    retMedium: Option<real>, retLong: Option<real>, volatility: Option<real>, slope: Option<real>,
    semiReturn: Option<real>)

  datatype Session = Session(month: int, features: Features)

  datatype AllocationState = AllocationState(month: int, leverage: real, semiconductors: bool)

  const BRAKE := 0.30
  const DEFENSIVE := 0.5
  const NORMAL := 1.0
  const TREND := 1.25
  const STRONG := 1.5
  const OVERLAY_WEIGHT := 0.05

  predicate Ready(f: Features)
  {
    && f.smaShort.Some? && f.smaLong.Some? && f.retShort.Some? && f.retMedium.Some? && f.retLong.Some?
    && f.volatility.Some? && f.slope.Some?
  }

  function Vote(yes: bool): nat
  {
    if yes then 1 else 0
  }

  predicate TrendVote(f: Features)
  {
    Ready(f) &&
    Vote(f.retShort.value > 0.0) + Vote(f.retMedium.value > 0.0) + Vote(f.retLong.value > 0.0)
    + Vote(f.smaShort.value > f.smaLong.value) + Vote(f.slope.value > 0.0) >= 3
  }

  function BaseLeverage(f: Features): real
  {
    if !Ready(f) then NORMAL
    else if f.volatility.value >= BRAKE then DEFENSIVE
    else if f.close <= f.smaLong.value then NORMAL
    else if f.smaShort.value > f.smaLong.value && f.retMedium.value > 0.0 && f.retLong.value > 0.0 then STRONG
    else if TrendVote(f) then TREND
    else NORMAL
  }

  predicate SemiconductorsWin(f: Features)
  {
    f.retLong.Some? && f.semiReturn.Some? && f.semiReturn.value > 0.0 && f.semiReturn.value > f.retLong.value
  }

  /** `advance_state`: a new month chooses afresh; inside a month risk only comes off. */
  function Advance(previous: Option<AllocationState>, s: Session): AllocationState
  {
    var f := s.features;
    if previous.None? || previous.value.month != s.month then
      AllocationState(s.month, BaseLeverage(f), SemiconductorsWin(f))
    else
      var p := previous.value;
      AllocationState(
        s.month,
        if f.volatility.Some? && f.volatility.value >= BRAKE && p.leverage > DEFENSIVE then DEFENSIVE else p.leverage,
        p.semiconductors && SemiconductorsWin(f))
  }

  /** The state after session `n`. */
  function StateAt(sessions: seq<Session>, n: nat): AllocationState
    requires n < |sessions|
  {
    Advance(if n == 0 then None else Some(StateAt(sessions, n - 1)), sessions[n])
  }

  predicate Level(x: real)
  {
    x == DEFENSIVE || x == NORMAL || x == TREND || x == STRONG
  }

  predicate Chronological(sessions: seq<Session>)
  {
    forall i, j :: 0 <= i < j < |sessions| ==> sessions[i].month <= sessions[j].month
  }

  lemma {:induction false} LeverageIsALevel(sessions: seq<Session>, n: nat)
    requires n < |sessions|
    ensures Level(StateAt(sessions, n).leverage) && StateAt(sessions, n).month == sessions[n].month
  {
    if n > 0 {
      LeverageIsALevel(sessions, n - 1);
    }
  }

  /** Between two sessions of one month leverage never rises and the semiconductor sleeve never returns;
      once it moved, leverage is the defensive level. */
  lemma {:induction false} OneWayWithinAMonth(sessions: seq<Session>, i: nat, j: nat)
    requires Chronological(sessions) && i <= j < |sessions| && sessions[i].month == sessions[j].month
    ensures
      var a, b := StateAt(sessions, i), StateAt(sessions, j);
      && b.leverage <= a.leverage && (b.leverage == a.leverage || b.leverage == DEFENSIVE)
      && (b.semiconductors ==> a.semiconductors)
  {
    LeverageIsALevel(sessions, i);
    if i < j {
      assert sessions[i].month <= sessions[j - 1].month <= sessions[j].month;
      LeverageIsALevel(sessions, j - 1);
      OneWayWithinAMonth(sessions, i, j - 1);
    }
  }

  /** A session of high volatility is never held above the defensive level, in any month. */
  lemma BrakeAlwaysHolds(sessions: seq<Session>, n: nat)
    requires n < |sessions| && Ready(sessions[n].features) && sessions[n].features.volatility.value >= BRAKE
    ensures StateAt(sessions, n).leverage == DEFENSIVE
  {
    LeverageIsALevel(sessions, n);
    if n > 0 {
      LeverageIsALevel(sessions, n - 1);
    }
  }

  // ---------------------------------------------------------------- what a month is held at, in the indicators alone

  function Ayes(votes: seq<bool>): nat
  {
    if |votes| == 0 then 0 else Ayes(votes[..|votes| - 1]) + if votes[|votes| - 1] then 1 else 0
  }

  predicate Uptrend(f: Features)
  {
    Ready(f) && f.volatility.value < 0.3 && f.close > f.smaLong.value
  }

  predicate StrongTrend(f: Features)
  {
    Uptrend(f) && f.smaShort.value > f.smaLong.value && f.retMedium.value > 0.0 && f.retLong.value > 0.0
  }

  predicate MostVotes(f: Features)
  {
    Ready(f) &&
    Ayes([f.retShort.value > 0.0, f.retMedium.value > 0.0, f.retLong.value > 0.0, f.smaShort.value > f.smaLong.value,
          f.slope.value > 0.0]) >= 3
  }

  lemma OneMoreVote(votes: seq<bool>, yes: bool)
    ensures Ayes(votes + [yes]) == Ayes(votes) + Vote(yes)
  {
    assert (votes + [yes])[..|votes|] == votes;
  }

  lemma FiveVotes(a: bool, b: bool, c: bool, d: bool, e: bool)
    ensures Ayes([a, b, c, d, e]) == Vote(a) + Vote(b) + Vote(c) + Vote(d) + Vote(e)
  {
    OneMoreVote([], a);
    OneMoreVote([a], b);
    OneMoreVote([a, b], c);
    OneMoreVote([a, b, c], d);
    OneMoreVote([a, b, c, d], e);
    assert [] + [a] == [a] && [a] + [b] == [a, b] && [a, b] + [c] == [a, b, c];
    assert [a, b, c] + [d] == [a, b, c, d] && [a, b, c, d] + [e] == [a, b, c, d, e];
  }

  /** Half under high volatility; half as much again in an uptrend that every measure confirms, a quarter more in one
      that three of five votes confirm; else, and without data, the index itself. */
  lemma LeverageExactly(f: Features)
    ensures BaseLeverage(f) == 0.5 <==> Ready(f) && f.volatility.value >= 0.3
    ensures BaseLeverage(f) == 1.5 <==> StrongTrend(f)
    ensures BaseLeverage(f) == 1.25 <==> Uptrend(f) && !StrongTrend(f) && MostVotes(f)
    ensures Level(BaseLeverage(f))
  {
    if Ready(f) {
      FiveVotes(f.retShort.value > 0.0, f.retMedium.value > 0.0, f.retLong.value > 0.0,
                f.smaShort.value > f.smaLong.value, f.slope.value > 0.0);
    }
  }

  /** A session that brakes the month it is in. */
  predicate Brakes(s: Session)
  {
    s.features.volatility.Some? && s.features.volatility.value >= 0.3
  }

  /** Semiconductors gained, and more than the index did. */
  predicate Leads(s: Session)
  {
    s.features.semiReturn.Some? && s.features.retLong.Some?
    && s.features.semiReturn.value > 0.0 && s.features.semiReturn.value > s.features.retLong.value
  }

  predicate FirstOfMonth(sessions: seq<Session>, m: nat)
    requires m < |sessions|
  {
    m == 0 || sessions[m - 1].month != sessions[m].month
  }

  /** A month is held at what its first session chose, until a later one brakes it; semiconductors stay while they have
      led in every session of the month so far. */
  lemma {:induction false} MonthIsItsHistory(sessions: seq<Session>, m: nat, n: nat)
    requires m <= n < |sessions| && FirstOfMonth(sessions, m)
    requires forall k :: m <= k <= n ==> sessions[k].month == sessions[m].month
    ensures StateAt(sessions, n).leverage ==
            if exists k :: m < k <= n && Brakes(sessions[k]) then 0.5 else BaseLeverage(sessions[m].features)
    ensures StateAt(sessions, n).semiconductors <==> forall k :: m <= k <= n ==> Leads(sessions[k])
  {
    if n > 0 {
      LeverageIsALevel(sessions, n - 1);
    }
    if m < n {
      MonthIsItsHistory(sessions, m, n - 1);
      assert Leads(sessions[n]) <==> SemiconductorsWin(sessions[n].features);
    }
  }

  // ---------------------------------------------------------------- weights

  datatype Weights = Weights(qqq: real, tqqq: real, soxl: real)

  /** The semiconductor fund takes half of the leveraged sleeve. */
  function BaseWeights(s: AllocationState): Weights
  {
    if s.leverage <= 1.0 then Weights(Max(0.0, s.leverage), 0.0, 0.0)
    else
      var sleeve := (s.leverage - 1.0) / 2.0;
      if s.semiconductors then
        Weights(1.0 - sleeve, sleeve * 0.5, sleeve * 0.5)
      else Weights(1.0 - sleeve, sleeve, 0.0)
  }

  /** A weight of no consequence is dropped. */
  function Kept(w: real): real
  {
    if w > 0.000000000001 then w else 0.0
  }

  function ApplyOverlay(w: Weights, activeTqqq: bool, activeSoxl: bool): Weights
  {
    var shift := if activeTqqq || activeSoxl then Min(OVERLAY_WEIGHT, w.qqq) else 0.0;
    var part := if activeTqqq && activeSoxl then shift / 2.0 else shift;
    Weights(Kept(w.qqq - shift), Kept(w.tqqq + (if activeTqqq then part else 0.0)),
            Kept(w.soxl + (if activeSoxl then part else 0.0)))
  }

  function Total(w: Weights): real
  {
    w.qqq + w.tqqq + w.soxl
  }

  /** Market exposure: the two leveraged funds move three times their index. */
  function Exposure(w: Weights): real
  {
    w.qqq + 3.0 * (w.tqqq + w.soxl)
  }

  predicate Fits(w: Weights)
  {
    w.qqq >= 0.0 && w.tqqq >= 0.0 && w.soxl >= 0.0 && Total(w) <= 1.0
  }

  /** The base weights are a fully invested or defensive book that carries exactly the chosen leverage. */
  lemma WeightsCarryTheLeverage(s: AllocationState)
    requires Level(s.leverage)
    ensures
      var w := BaseWeights(s);
      && Fits(w) && Exposure(w) == s.leverage
      && Total(w) == Min(1.0, s.leverage)
      && (!s.semiconductors ==> w.soxl == 0.0)
  {
  }

  /** Semiconductors take half of the leveraged sleeve. */
  lemma SleeveIsShared(s: AllocationState)
    requires Level(s.leverage) && s.semiconductors
    ensures BaseWeights(s).soxl == BaseWeights(s).tqqq
  {
  }

  /** Room for the overlay, and nothing near the dropping threshold. */
  predicate Coarse(w: Weights)
  {
    w.qqq >= 0.5 && (w.tqqq == 0.0 || w.tqqq >= 0.01) && (w.soxl == 0.0 || w.soxl >= 0.01)
  }

  lemma BaseIsCoarse(s: AllocationState)
    requires Level(s.leverage)
    ensures Coarse(BaseWeights(s))
  {
  }

  lemma OverlayShifts(w: Weights, activeTqqq: bool, activeSoxl: bool)
    requires Coarse(w)
    ensures
      var shift := if activeTqqq || activeSoxl then OVERLAY_WEIGHT else 0.0;
      var part := if activeTqqq && activeSoxl then shift / 2.0 else shift;
      ApplyOverlay(w, activeTqqq, activeSoxl) ==
      Weights(w.qqq - shift, w.tqqq + (if activeTqqq then part else 0.0), w.soxl + (if activeSoxl then part else 0.0))
  {
  }

  lemma OverlaidTotals(w: Weights, activeTqqq: bool, activeSoxl: bool)
    requires Coarse(w) && Fits(w)
    ensures
      var v := ApplyOverlay(w, activeTqqq, activeSoxl);
      && Fits(v) && Total(v) == Total(w)
      && Exposure(v) == Exposure(w) + (if activeTqqq || activeSoxl then 0.1 else 0.0)
      && (activeTqqq && activeSoxl ==> v.tqqq - w.tqqq == v.soxl - w.soxl)
      && (!activeTqqq ==> v.tqqq == w.tqqq) && (!activeSoxl ==> v.soxl == w.soxl)
      && v.qqq == w.qqq - (if activeTqqq || activeSoxl then 0.05 else 0.0)
  {
    OverlayShifts(w, activeTqqq, activeSoxl);
  }

  /** A weight is dropped only when it is next to nothing. */
  lemma KeptExactly(w: real)
    ensures Kept(w) == (if w > 0.000000000001 then w else 0.0)
    ensures Kept(w) >= 0.0 && -0.000000000001 <= Kept(w) - Max(0.0, w) <= 0.0
  {
  }

  /** The overlay moves 5% out of QQQ and into the active funds: same total, two points of exposure a point. */
  lemma OverlayKeepsTheTotal(s: AllocationState, activeTqqq: bool, activeSoxl: bool)
    requires Level(s.leverage)
    ensures
      var w := BaseWeights(s);
      var v := ApplyOverlay(w, activeTqqq, activeSoxl);
      && Fits(v) && Total(v) == Total(w)
      && Exposure(v) == s.leverage + (if activeTqqq || activeSoxl then 0.1 else 0.0)
      && v.qqq == w.qqq - (if activeTqqq || activeSoxl then 0.05 else 0.0)
      && (activeTqqq && activeSoxl ==> v.tqqq - w.tqqq == v.soxl - w.soxl)
      && (!activeTqqq ==> v.tqqq == w.tqqq) && (!activeSoxl ==> v.soxl == w.soxl)
  {
    WeightsCarryTheLeverage(s);
    BaseIsCoarse(s);
    OverlaidTotals(BaseWeights(s), activeTqqq, activeSoxl);
  }
}
