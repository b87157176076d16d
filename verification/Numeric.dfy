/** Decimal arithmetic: the explicit rounding calls of the source, exact over `real`. */
module Numeric {

  function Min(a: real, b: real): real { if a <= b then a else b }

  function Max(a: real, b: real): real { if a >= b then a else b }

  function MinInt(a: int, b: int): int { if a <= b then a else b }

  function MaxInt(a: int, b: int): int { if a >= b then a else b }

  /** `to_integral_value(rounding=ROUND_CEILING)` */
  function CeilInt(x: real): (n: int)
    ensures n as real - 1.0 < x <= n as real
  {
    -((-x).Floor)
  }

  /** `quantize(Decimal("0.01"), rounding=ROUND_DOWN)`: truncation toward zero. */
  function TruncCents(x: real): real
  {
    if x >= 0.0 then (x * 100.0).Floor as real / 100.0
    else -((-x * 100.0).Floor as real / 100.0)
  }

  /** `ceil_to_tick(value, Decimal("0.01"))` */
  function CeilCents(x: real): (r: real)
    ensures x <= r < x + 0.01
  {
    CeilInt(x * 100.0) as real / 100.0
  }

  /** Decimal's default rounding: to nearest, ties to the even neighbour. */
  function HalfEvenInt(x: real): (n: int)
    ensures -0.5 <= n as real - x <= 0.5
  {
    var below := x.Floor;
    var part := x - below as real;
    if part < 0.5 then below
    else if part > 0.5 then below + 1
    else if below % 2 == 0 then below
    else below + 1
  }

  /** `quantize(Decimal("0.01"))` */
  function HalfEvenCents(x: real): (r: real)
    ensures -0.005 <= r - x <= 0.005
  {
    HalfEvenInt(x * 100.0) as real / 100.0
  }

  /** `quantize(Decimal("0.0001"))` */
  function HalfEvenBasis(x: real): (r: real)
    ensures -0.00005 <= r - x <= 0.00005
  {
    HalfEvenInt(x * 10000.0) as real / 10000.0
  }

  /** A whole number of cents. */
  predicate IsCents(x: real)
  {
    x * 100.0 == (x * 100.0).Floor as real
  }

  lemma CentsRounding(x: real)
    requires x >= 0.0
    ensures TruncCents(x) <= x < TruncCents(x) + 0.01
    ensures TruncCents(x) >= 0.0
    ensures IsCents(TruncCents(x))
  {
    var n := (x * 100.0).Floor;
    assert TruncCents(x) * 100.0 == n as real;
  }

  lemma HalfEvenIsCents(x: real)
    ensures IsCents(HalfEvenCents(x))
  {
    var n := HalfEvenInt(x * 100.0);
    assert HalfEvenCents(x) * 100.0 == n as real;
  }

  lemma CentsFixed(x: real)
    requires IsCents(x)
    ensures HalfEvenCents(x) == x
    ensures TruncCents(x) == x
  {
    var n := (x * 100.0).Floor;
    if x < 0.0 {
      assert -x * 100.0 == (-n) as real;
      assert (-x * 100.0).Floor == -n;
    }
  }

  /** Truncation never crosses a whole number of cents. */
  lemma TruncAtLeast(cents: real, x: real)
    requires IsCents(cents) && 0.0 <= cents <= x
    ensures cents <= TruncCents(x)
  {
    assert cents * 100.0 <= x * 100.0;
    assert (cents * 100.0).Floor <= (x * 100.0).Floor;
  }

  lemma HalfEvenAtMost(x: real, cents: real)
    requires IsCents(cents) && x <= cents
    ensures HalfEvenCents(x) <= cents
  {
    HalfEvenBelow(x * 100.0, (cents * 100.0).Floor);
  }

  lemma HalfEvenBelow(x: real, n: int)
    requires x <= n as real
    ensures HalfEvenInt(x) <= n
  {
    assert x.Floor < n || x == n as real;
  }

  // ---------------------------------------------------------------- products

  lemma PositiveProduct(a: real, b: real)
    requires a > 0.0 && b > 0.0
    ensures a * b > 0.0
  {
  }

  lemma Monotone(a: real, b: real, x: real)
    requires a <= b && x >= 0.0
    ensures a * x <= b * x
  {
  }

  lemma StrictlyMonotone(a: real, b: real, x: real)
    requires a < b && x > 0.0
    ensures a * x < b * x
  {
  }

  /** `q` shares at `unit` each. */
  function Times(q: int, unit: real): real
  {
    q as real * unit
  }

  lemma TimesMono(a: int, b: int, unit: real)
    requires a <= b && unit >= 0.0
    ensures Times(a, unit) <= Times(b, unit)
  {
  }

  /** The whole number of units a budget pays for, and not one more. */
  lemma FloorFits(budget: real, unit: real)
    requires budget >= 0.0 && unit > 0.0
    ensures
      var q := (budget / unit).Floor;
      q >= 0 && Times(q, unit) <= budget < Times(q + 1, unit)
  {
    var x := budget / unit;
    assert x * unit == budget;
    assert x >= 0.0 by { if x < 0.0 { StrictlyMonotone(x, 0.0, unit); } }
    Monotone(x.Floor as real, x, unit);
    StrictBound(x, x.Floor + 1, unit, budget);
  }

  lemma StrictBound(x: real, q: int, unit: real, budget: real)
    requires x < q as real && unit > 0.0 && x * unit == budget
    ensures budget < Times(q, unit)
  {
    assert (q as real - x) * unit > 0.0;
  }
}

/** Sums over rows, as the ledger's folds compute them. */
module Sums {

  function SumBy<T>(s: seq<T>, f: T -> real): real
  {
    if |s| == 0 then 0.0 else SumBy(s[..|s| - 1], f) + f(s[|s| - 1])
  }

  function CountBy<T>(s: seq<T>, f: T -> int): int
  {
    if |s| == 0 then 0 else CountBy(s[..|s| - 1], f) + f(s[|s| - 1])
  }

  lemma {:induction false} SumAgree<T>(s: seq<T>, t: seq<T>, f: T -> real, g: T -> real)
    requires |s| == |t|
    requires forall i :: 0 <= i < |s| ==> f(s[i]) == g(t[i])
    ensures SumBy(s, f) == SumBy(t, g)
  {
    if |s| > 0 {
      SumAgree(s[..|s| - 1], t[..|t| - 1], f, g);
    }
  }

  /** Two tables that differ in row `k` only. */
  lemma {:induction false} SumOneRow<T>(s: seq<T>, t: seq<T>, f: T -> real, g: T -> real, k: nat)
    requires |s| == |t| && k < |s|
    requires forall i :: 0 <= i < |s| && i != k ==> f(s[i]) == g(t[i])
    ensures SumBy(t, g) - SumBy(s, f) == g(t[k]) - f(s[k])
  {
    var n := |s| - 1;
    if k == n {
      SumAgree(s[..n], t[..n], f, g);
    } else {
      SumOneRow(s[..n], t[..n], f, g, k);
    }
  }

  lemma {:induction false} SumAppend<T>(s: seq<T>, x: T, f: T -> real)
    ensures SumBy(s + [x], f) == SumBy(s, f) + f(x)
  {
    assert (s + [x])[..|s|] == s;
  }

  lemma {:induction false} SumAtLeast<T>(s: seq<T>, f: T -> real)
    requires forall i :: 0 <= i < |s| ==> f(s[i]) >= 0.0
    ensures SumBy(s, f) >= 0.0
    ensures forall i :: 0 <= i < |s| ==> f(s[i]) <= SumBy(s, f)
  {
    if |s| > 0 {
      var p := s[..|s| - 1];
      SumAtLeast(p, f);
      forall i | 0 <= i < |s| ensures f(s[i]) <= SumBy(s, f) {
        if i < |p| {
          assert f(p[i]) <= SumBy(p, f);
        }
      }
    }
  }

  lemma {:induction false} SumZero<T>(s: seq<T>, f: T -> real)
    requires forall i :: 0 <= i < |s| ==> f(s[i]) == 0.0
    ensures SumBy(s, f) == 0.0
  {
    if |s| > 0 {
      SumZero(s[..|s| - 1], f);
    }
  }

  lemma {:induction false} CountAgree<T>(s: seq<T>, t: seq<T>, f: T -> int, g: T -> int)
    requires |s| == |t|
    requires forall i :: 0 <= i < |s| ==> f(s[i]) == g(t[i])
    ensures CountBy(s, f) == CountBy(t, g)
  {
    if |s| > 0 {
      CountAgree(s[..|s| - 1], t[..|t| - 1], f, g);
    }
  }

  lemma {:induction false} CountOneRow<T>(s: seq<T>, t: seq<T>, f: T -> int, g: T -> int, k: nat)
    requires |s| == |t| && k < |s|
    requires forall i :: 0 <= i < |s| && i != k ==> f(s[i]) == g(t[i])
    ensures CountBy(t, g) - CountBy(s, f) == g(t[k]) - f(s[k])
  {
    var n := |s| - 1;
    if k == n {
      CountAgree(s[..n], t[..n], f, g);
    } else {
      CountOneRow(s[..n], t[..n], f, g, k);
    }
  }

  lemma {:induction false} CountAppend<T>(s: seq<T>, x: T, f: T -> int)
    ensures CountBy(s + [x], f) == CountBy(s, f) + f(x)
  {
    assert (s + [x])[..|s|] == s;
  }

  lemma CountSingle<T>(x: T, f: T -> int)
    ensures CountBy([x], f) == f(x)
  {
    assert [x][..0] == [];
  }
}
