/**
 The maximum drawdown of an equity curve (src/moex_bot/backtest.py), found in one pass. It measures every
 point against the highest one before it, which is the worst comparison only for equity that is not negative.
 */
module Drawdown {
  import opened Domain

  /** The percentage lost between two points of the curve. */
  function Loss(from: real, to: real): real
    requires from > 0.0
  {
    (from - to) / from * 100.0
  }

  /** The highest point, if any is positive. */
  function Peak(points: seq<real>): real {
    if points == [] then 0.0 else Max(Peak(points[..|points| - 1]), points[|points| - 1])
  }

  /** The lowest positive point, or zero. */
  function Lowest(points: seq<real>): real {
    if points == [] then 0.0
    else
      var before, last := Lowest(points[..|points| - 1]), points[|points| - 1];
      if last > 0.0 && (before == 0.0 || last < before) then last else before
  }

  function DrawdownOf(points: seq<real>): real {
    if points == [] then 0.0
    else
      var before := DrawdownOf(points[..|points| - 1]);
      if Peak(points) > 0.0 then Max(before, Loss(Peak(points), points[|points| - 1])) else before
  }

  /** The loop of `_metrics` */
  method MaxDrawdown(points: seq<real>) returns (drawdown: real)
    ensures drawdown == DrawdownOf(points)
  {
    drawdown := 0.0;
    var peak := 0.0;
    for k := 0 to |points|
      invariant peak == Peak(points[..k]) && drawdown == DrawdownOf(points[..k])
    {
      assert points[..k + 1][..k] == points[..k];
      peak := Max(peak, points[k]);
      if peak > 0.0 {
        drawdown := Max(drawdown, Loss(peak, points[k]));
      }
    }
    assert points[..|points|] == points;
  }

  // ---------------------------------------------------------------- losses

  lemma Quotient(x: real, y: real, q: real)
    requires y > 0.0
    ensures q * y <= x <==> q <= x / y
    ensures q * y == x <==> q == x / y
  {
    var r := x / y;
    assert r * y == x;
    if q < r { assert q * y < r * y; }
    if q > r { assert q * y > r * y; }
  }

  lemma CrossMultiply(a: real, b: real, c: real, d: real)
    requires b > 0.0 && d > 0.0
    ensures a / b <= c / d <==> a * d <= c * b
  {
    var q := a / b;
    assert q * b == a;
    Quotient(c, d, q);
    assert a * d == q * d * b;
    if q * d <= c {
      assert q * d * b <= c * b;
    } else {
      assert q * d * b > c * b;
    }
  }

  /** Falling from `a` to `x` loses no more than falling from `b` to `y`, without the quotients. */
  predicate Lighter(a: real, x: real, b: real, y: real) {
    y * a <= x * b
  }

  lemma LossOrder(a: real, x: real, b: real, y: real)
    requires a > 0.0 && b > 0.0
    ensures Loss(a, x) <= Loss(b, y) <==> Lighter(a, x, b, y)
  {
    CrossMultiply(a - x, a, b - y, b);
    assert (a - x) * b == a * b - x * b && (b - y) * a == a * b - y * a;
  }

  lemma DebtLosesEverything(a: real, x: real)
    requires a > 0.0
    ensures Loss(a, x) > 100.0 <==> x < 0.0
  {
    Quotient(a - x, a, 1.0);
  }

  /** A loss into debt that another loss bounds: that one is into debt as well. */
  lemma BoundedDebt(a: real, x: real, b: real, y: real)
    requires a > 0.0 && b > 0.0 && x < 0.0 && Loss(a, x) <= Loss(b, y)
    ensures y < 0.0 && Lighter(a, x, b, y)
  {
    LossOrder(a, x, b, y);
    DebtLosesEverything(a, x);
    DebtLosesEverything(b, y);
  }

  /** From a higher point the same equity is a greater loss if it is not negative, and a smaller one if it is. */
  lemma HigherPointLoses(low: real, high: real, to: real)
    requires 0.0 < low <= high
    ensures to >= 0.0 ==> Loss(low, to) <= Loss(high, to)
    ensures to <= 0.0 ==> Loss(high, to) <= Loss(low, to)
  {
    LossOrder(low, to, high, to);
    LossOrder(high, to, low, to);
    if to >= 0.0 {
      assert to * low <= to * high;
    }
    if to <= 0.0 {
      assert to * high <= to * low;
    }
  }

  lemma {:induction false} PeakIsHighest(points: seq<real>)
    ensures Peak(points) >= 0.0 && forall i :: 0 <= i < |points| ==> points[i] <= Peak(points)
    ensures Peak(points) > 0.0 ==> exists i :: 0 <= i < |points| && points[i] == Peak(points)
  {
    if points != [] {
      var n := |points| - 1;
      PeakIsHighest(points[..n]);
      if Peak(points) > 0.0 && Peak(points) != points[n] {
        var i :| 0 <= i < n && points[..n][i] == Peak(points[..n]);
        assert points[i] == Peak(points);
      }
    }
  }

  lemma {:induction false} LowestIsLowest(points: seq<real>)
    ensures Lowest(points) >= 0.0
    ensures forall i :: 0 <= i < |points| && points[i] > 0.0 ==> 0.0 < Lowest(points) <= points[i]
    ensures Lowest(points) > 0.0 ==> exists i :: 0 <= i < |points| && points[i] == Lowest(points)
  {
    if points != [] {
      var n := |points| - 1;
      LowestIsLowest(points[..n]);
      if Lowest(points) > 0.0 && Lowest(points) != points[n] {
        var i :| 0 <= i < n && points[..n][i] == Lowest(points[..n]);
        assert points[i] == Lowest(points);
      }
    }
  }

  // ---------------------------------------------------------------- what the drawdown is

  /** The loss at one point from the highest point up to it. */
  ghost predicate PeakLoss(points: seq<real>, k: nat, loss: real)
    requires k < |points|
  {
    Peak(points[..k + 1]) > 0.0 && loss == Loss(Peak(points[..k + 1]), points[k])
  }

  /** The drawdown is the greatest loss from a running peak. */
  lemma {:induction false} DrawdownIsGreatestPeakLoss(points: seq<real>)
    ensures DrawdownOf(points) >= 0.0
    ensures forall k: nat, loss :: k < |points| && PeakLoss(points, k, loss) ==> loss <= DrawdownOf(points)
    ensures DrawdownOf(points) > 0.0 ==> exists k: nat :: k < |points| && PeakLoss(points, k, DrawdownOf(points))
  {
    if points != [] {
      var n := |points| - 1;
      DrawdownIsGreatestPeakLoss(points[..n]);
      assert points[..n + 1] == points;
      forall k: nat, loss | k < |points| && PeakLoss(points, k, loss) ensures loss <= DrawdownOf(points) {
        if k < n {
          assert points[..n][..k + 1] == points[..k + 1];
          assert PeakLoss(points[..n], k, loss);
        }
      }
      if DrawdownOf(points) > 0.0 {
        AttainedAt(points);
      }
    }
  }

  lemma AttainedAt(points: seq<real>)
    requires points != [] && DrawdownOf(points) > 0.0
    requires var before := points[..|points| - 1];
             DrawdownOf(before) > 0.0 ==> exists k: nat :: k < |before| && PeakLoss(before, k, DrawdownOf(before))
    ensures exists k: nat :: k < |points| && PeakLoss(points, k, DrawdownOf(points))
  {
    var n := |points| - 1;
    assert points[..n + 1] == points;
    if DrawdownOf(points) == DrawdownOf(points[..n]) {
      var k: nat :| k < n && PeakLoss(points[..n], k, DrawdownOf(points[..n]));
      assert points[..n][..k + 1] == points[..k + 1];
      assert PeakLoss(points, k, DrawdownOf(points));
    } else {
      assert PeakLoss(points, n, DrawdownOf(points));
    }
  }

  /** No drop of the curve to an equity that is not negative loses more, and some drop loses as much. */
  lemma DrawdownBoundsLosses(points: seq<real>, i: nat, j: nat)
    requires i <= j < |points| && points[i] > 0.0 && points[j] >= 0.0
    ensures Loss(points[i], points[j]) <= DrawdownOf(points)
  {
    var peak := Peak(points[..j + 1]);
    PeakIsHighest(points[..j + 1]);
    assert points[..j + 1][i] == points[i];
    PeakLossIsBounded(points, j);
    HigherPointLoses(points[i], peak, points[j]);
  }

  lemma DrawdownIsALoss(points: seq<real>) returns (i: nat, j: nat)
    requires DrawdownOf(points) > 0.0
    ensures i <= j < |points| && points[i] > 0.0 && Loss(points[i], points[j]) == DrawdownOf(points)
  {
    j := GreatestPeakLoss(points);
    PeakIsHighest(points[..j + 1]);
    i :| 0 <= i < |points[..j + 1]| && points[..j + 1][i] == Peak(points[..j + 1]);
  }

  // ---------------------------------------------------------------- negative equity

  /** No drop of the curve loses more. */
  ghost predicate BoundsEveryLoss(points: seq<real>, loss: real) {
    forall i: nat, j: nat :: i <= j < |points| && points[i] > 0.0 ==> Loss(points[i], points[j]) <= loss
  }

  /** A curve that falls below zero from a peak can lose more from a lower point: 150 against 200 percent. */
  lemma DebtEscapesTheDrawdown()
    ensures DrawdownOf([1.0, 2.0, -1.0]) == 150.0 && Loss(1.0, -1.0) == 200.0
    ensures !BoundsEveryLoss([1.0, 2.0, -1.0], DrawdownOf([1.0, 2.0, -1.0]))
  {
    var points := [1.0, 2.0, -1.0];
    assert points[..2] == [1.0, 2.0] && points[..2][..1] == [1.0] && points[..2][..1][..0] == [];
    assert Peak([1.0]) == 1.0 && Peak([1.0, 2.0]) == 2.0 && Peak(points) == 2.0;
    assert DrawdownOf([1.0]) == 0.0 && DrawdownOf([1.0, 2.0]) == 0.0;
    assert points[0] == 1.0 && points[2] == -1.0;
  }

  /** The curve falls into debt at `j` after it was positive. */
  predicate IsDebt(points: seq<real>, j: nat) {
    j < |points| && points[j] < 0.0 && Lowest(points[..j + 1]) > 0.0
  }

  /** Until this debt the curve has had only one positive value. */
  predicate FromOneLevel(points: seq<real>, k: nat) {
    IsDebt(points, k) && Lowest(points[..k + 1]) == Peak(points[..k + 1])
  }

  /** The debt at `j`, relative to the lowest positive point before it, is no deeper than that at `k` relative to its level. */
  predicate IsOutweighedBy(points: seq<real>, j: nat, k: nat)
    requires j < |points| && k < |points|
  {
    Lighter(Lowest(points[..j + 1]), points[j], Peak(points[..k + 1]), points[k])
  }

  /** The curve never falls into debt, or falls deepest into it before its first change between positive values. */
  ghost predicate DeepestDebtFromOneLevel(points: seq<real>) {
    || (forall j: nat :: !IsDebt(points, j))
    || (exists k: nat :: FromOneLevel(points, k) && forall j: nat :: IsDebt(points, j) ==> IsOutweighedBy(points, j, k))
  }

  /**
   The drawdown bounds every loss of the curve if and only if the curve never falls into debt, or its
   deepest debt comes while its positive equity has never changed.
   */
  lemma DrawdownBoundsEveryLossIff(points: seq<real>)
    ensures BoundsEveryLoss(points, DrawdownOf(points)) <==> DeepestDebtFromOneLevel(points)
  {
    if BoundsEveryLoss(points, DrawdownOf(points)) && exists j: nat :: IsDebt(points, j) {
      BoundedDebtsAreOutweighed(points);
    }
    if DeepestDebtFromOneLevel(points) {
      forall i: nat, j: nat | i <= j < |points| && points[i] > 0.0 ensures Loss(points[i], points[j]) <= DrawdownOf(points) {
        if points[j] >= 0.0 {
          DrawdownBoundsLosses(points, i, j);
        } else {
          OutweighedDebtIsBounded(points, i, j);
        }
      }
    }
  }

  lemma GreatestPeakLoss(points: seq<real>) returns (k: nat)
    requires DrawdownOf(points) > 0.0
    ensures k < |points| && PeakLoss(points, k, DrawdownOf(points))
  {
    DrawdownIsGreatestPeakLoss(points);
    k :| k < |points| && PeakLoss(points, k, DrawdownOf(points));
  }

  /** A loss to a debt from the lowest point before it. */
  lemma LowestLoss(points: seq<real>, j: nat)
    requires BoundsEveryLoss(points, DrawdownOf(points)) && IsDebt(points, j)
    ensures Loss(Lowest(points[..j + 1]), points[j]) <= DrawdownOf(points) && DrawdownOf(points) > 100.0
  {
    LowestIsLowest(points[..j + 1]);
    var i: nat :| i < |points[..j + 1]| && points[..j + 1][i] == Lowest(points[..j + 1]);
    DebtLosesEverything(points[i], points[j]);
  }

  lemma BoundedDebtsAreOutweighed(points: seq<real>)
    requires BoundsEveryLoss(points, DrawdownOf(points)) && exists j: nat :: IsDebt(points, j)
    ensures exists k: nat :: FromOneLevel(points, k) && forall j: nat :: IsDebt(points, j) ==> IsOutweighedBy(points, j, k)
  {
    var first: nat :| IsDebt(points, first);
    LowestLoss(points, first);
    var k := GreatestPeakLoss(points);
    forall j: nat | IsDebt(points, j) ensures IsOutweighedBy(points, j, k) && points[k] < 0.0 {
      LowestLoss(points, j);
      BoundedDebt(Lowest(points[..j + 1]), points[j], Peak(points[..k + 1]), points[k]);
    }
    assert IsOutweighedBy(points, first, k) && points[k] < 0.0;
    PeakMeansLowest(points[..k + 1]);
    LowestLoss(points, k);
    if Lowest(points[..k + 1]) < Peak(points[..k + 1]) {
      LowerLevelLosesMore(Lowest(points[..k + 1]), Peak(points[..k + 1]), points[k]);
    }
    assert FromOneLevel(points, k);
  }

  lemma PeakMeansLowest(points: seq<real>)
    ensures Peak(points) > 0.0 <==> Lowest(points) > 0.0
    ensures Lowest(points) <= Peak(points)
  {
    PeakIsHighest(points);
    LowestIsLowest(points);
  }

  /** From a lower level the same debt is a strictly greater loss. */
  lemma LowerLevelLosesMore(low: real, high: real, debt: real)
    requires 0.0 < low < high && debt < 0.0
    ensures !(Loss(low, debt) <= Loss(high, debt))
  {
    LossOrder(low, debt, high, debt);
    LowerLevelIsHeavier(low, high, debt);
  }

  lemma LowerLevelIsHeavier(low: real, high: real, debt: real)
    requires low < high && debt < 0.0
    ensures !Lighter(low, debt, high, debt)
  {
    var gap := high - low;
    assert debt * high == debt * low + debt * gap && debt * gap < 0.0;
  }

  lemma OutweighedDebtIsBounded(points: seq<real>, i: nat, j: nat)
    requires DeepestDebtFromOneLevel(points)
    requires i <= j < |points| && points[i] > 0.0 && points[j] < 0.0
    ensures Loss(points[i], points[j]) <= DrawdownOf(points)
  {
    LowestIsLowest(points[..j + 1]);
    assert points[..j + 1][i] == points[i];
    assert IsDebt(points, j);
    var k: nat :| FromOneLevel(points, k) && forall m: nat :: IsDebt(points, m) ==> IsOutweighedBy(points, m, k);
    HigherPointLoses(Lowest(points[..j + 1]), points[i], points[j]);
    LossOrder(Lowest(points[..j + 1]), points[j], Peak(points[..k + 1]), points[k]);
    PeakLossIsBounded(points, k);
  }

  lemma PeakLossIsBounded(points: seq<real>, k: nat)
    requires k < |points| && Peak(points[..k + 1]) > 0.0
    ensures Loss(Peak(points[..k + 1]), points[k]) <= DrawdownOf(points)
  {
    DrawdownIsGreatestPeakLoss(points);
    assert PeakLoss(points, k, Loss(Peak(points[..k + 1]), points[k]));
  }
}
