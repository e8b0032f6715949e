/**
 * The curve engine of headers/bezier.hpp: Pascal's-triangle coefficients,
 * the control-point-count rule, evaluation of one Bezier curve whose degree
 * is the number of control points minus one, and the fixed-length waypoint
 * list that moving platforms follow.
 */
module Bezier {
  import opened Common

  /** NUMBER_OF_STEPS: samples taken before the exact final control point. */
  const NumberOfSteps: nat := 50

  /** BASE_PASCALS_TRIANGLE: rows 0 and 1. */
  const BasePascalsTriangle: seq<seq<int>> := [[1], [1, 1]]

  /** Binomial coefficients by Pascal's rule, the rule the triangle is built with. */
  function Binomial(n: nat, k: nat): nat
  {
    if k > n then 0
    else if k == 0 || k == n then 1
    else Binomial(n - 1, k - 1) + Binomial(n - 1, k)
  }

  function Factorial(n: nat): (f: nat)
    ensures f >= 1
  {
    if n == 0 then 1 else n * Factorial(n - 1)
  }

  /** Pascal's rule yields the closed form: C(n, k) * k! * (n-k)! == n!. */
  lemma {:induction false} BinomialIsClosedForm(n: nat, k: nat)
    requires k <= n
    ensures Binomial(n, k) * Factorial(k) * Factorial(n - k) == Factorial(n)
  {
    if k != 0 && k != n {
      BinomialIsClosedForm(n - 1, k - 1);
      BinomialIsClosedForm(n - 1, k);
      assert n - 1 - (k - 1) == n - k;
      PascalStep(Binomial(n - 1, k - 1), Binomial(n - 1, k), k, n,
                 Factorial(k - 1), Factorial(n - k - 1), Factorial(n - 1));
    }
  }

  /** The arithmetic of one Pascal step: k * (n-1)! + (n-k) * (n-1)! == n * (n-1)!. */
  lemma PascalStep(a: int, b: int, k: int, n: int, fk1: int, fnk1: int, fn1: int)
    requires a * fk1 * ((n - k) * fnk1) == fn1
    requires b * (k * fk1) * fnk1 == fn1
    ensures (a + b) * (k * fk1) * ((n - k) * fnk1) == n * fn1
  {
    var fk, fnk := k * fk1, (n - k) * fnk1;
    calc {
      (a + b) * fk * fnk;
      a * fk * fnk + b * fk * fnk;
      { assert a * fk * fnk == k * (a * fk1 * fnk); }
      k * fn1 + b * fk * fnk;
      { assert b * fk * fnk == (n - k) * (b * fk * fnk1); }
      k * fn1 + (n - k) * fn1;
      n * fn1;
    }
  }

  lemma {:induction false} MultipleHasNoRemainder(k: nat, m: int)
    requires m > 0
    ensures (k * m) % m == 0
  {
    if k > 0 {
      MultipleHasNoRemainder(k - 1, m);
      assert k * m == (k - 1) * m + m;
      ShiftRemainder((k - 1) * m, m);
    }
  }

  lemma ShiftRemainder(a: int, m: int)
    requires m > 0
    ensures (a + m) % m == a % m
  {
    var q, r := a / m, a % m;
    var q2, r2 := (a + m) / m, (a + m) % m;
    assert (q + 1 - q2) * m == r2 - r;
    SmallMultipleIsZero(q + 1 - q2, m);
  }

  lemma SmallMultipleIsZero(x: int, m: int)
    requires m > 0 && -m < x * m < m
    ensures x == 0
  {
    if x >= 1 {
      AtLeastOnce(x, m);
    } else if x <= -1 {
      AtLeastOnce(-x, m);
    }
  }

  lemma AtLeastOnce(x: int, m: int)
    requires x >= 1 && m > 0
    ensures x * m >= m
  {
    assert x * m == (x - 1) * m + m;
  }

  /** Row i of Pascal's triangle: i + 1 entries, entry j being C(i, j). */
  predicate IsPascalRow(row: seq<int>, i: nat)
  {
    |row| == i + 1 && forall j :: 0 <= j <= i ==> row[j] == Binomial(i, j)
  }

  /**
   * GeneratePascalsTriangle (headers/bezier.hpp:15-38). A negative depth
   * would be converted to size_t and never stop the loop, so it is excluded.
   */
  method GeneratePascalsTriangle(depth: int) returns (triangle: seq<seq<int>>)
    requires depth >= 0
    ensures |triangle| == if depth <= 1 then 2 else depth + 1
    ensures forall i :: 0 <= i < |triangle| ==> |triangle[i]| == i + 1
    ensures forall i :: 0 <= i < |triangle| ==> triangle[i][0] == 1 && triangle[i][i] == 1
    ensures forall i, j {:trigger triangle[i][j]} :: 1 <= i < |triangle| && 1 <= j < i ==>
      triangle[i][j] == triangle[i - 1][j - 1] + triangle[i - 1][j]
    ensures forall i :: 0 <= i < |triangle| ==> IsPascalRow(triangle[i], i)
  {
    triangle := BasePascalsTriangle;
    assert IsPascalRow(triangle[0], 0) && IsPascalRow(triangle[1], 1);
    var i := 2;
    while i <= depth
      invariant 2 <= i <= if depth <= 1 then 2 else depth + 1
      invariant |triangle| == i
      invariant forall r :: 0 <= r < i ==> IsPascalRow(triangle[r], r)
    {
      var row := [1];
      var j := 1;
      while j < i
        invariant 1 <= j <= i
        invariant |row| == j
        invariant forall k :: 0 <= k < j ==> row[k] == Binomial(i, k)
      {
        row := row + [triangle[i - 1][j - 1] + triangle[i - 1][j]];
        j := j + 1;
      }
      row := row + [1];
      triangle := triangle + [row];
      i := i + 1;
    }
  }

  /** `a % b` of C++ on int: the remainder truncates toward zero. */
  function TruncatedRemainder(a: int, b: int): (r: int)
    requires b != 0
    ensures a >= 0 && b > 0 ==> r == a % b
    ensures a < 0 ==> r <= 0
  {
    var m := if b < 0 then -b else b;
    if a >= 0 then a % m else -((-a) % m)
  }

  /**
   * ValidateControlPointCount (headers/bezier.hpp:40-42). The `||` of the
   * source short-circuits, so the remainder (and its division by `order`)
   * happens only when numberOfPoints > order.
   */
  function ValidateControlPointCount(order: int, numberOfPoints: int): (valid: bool)
    requires numberOfPoints <= order || order != 0
    ensures valid ==> numberOfPoints > order
    ensures order > 0 ==> (valid <==> numberOfPoints > order && (numberOfPoints - 1) % order == 0)
  {
    !(numberOfPoints <= order || TruncatedRemainder(numberOfPoints - 1, order) != 0)
  }

  /**
   * For a positive order, the valid counts are exactly the chains of k >= 1
   * curve segments of `order` points sharing endpoints: k * order + 1.
   * A count equal to the order is never valid.
   */
  lemma ValidCountsAreSegmentChains(order: int, k: int)
    requires order >= 1 && k >= 1
    ensures ValidateControlPointCount(order, k * order + 1)
    ensures !ValidateControlPointCount(order, order)
  {
    assert k * order >= order;
    MultipleHasNoRemainder(k, order);
  }

  lemma ValidCountDecomposes(order: int, n: int)
    requires order >= 1
    ensures ValidateControlPointCount(order, n) ==> (n - 1) / order >= 1 && n == (n - 1) / order * order + 1
  {
    if ValidateControlPointCount(order, n) {
      assert (n - 1) % order == 0;
      assert n - 1 >= order;
    }
  }

  function Pow(b: real, e: nat): real
  {
    if e == 0 then 1.0 else b * Pow(b, e - 1)
  }

  lemma {:induction false} PowOfZero(e: nat)
    ensures Pow(0.0, e) == if e == 0 then 1.0 else 0.0
  {
    if e > 0 { PowOfZero(e - 1); }
  }

  lemma {:induction false} PowOfOne(e: nat)
    ensures Pow(1.0, e) == 1.0
  {
    if e > 0 { PowOfOne(e - 1); }
  }

  /** Term i of the Bernstein sum: C(n, i) * P_i * (1-t)^(n-i) * t^i, n = |points| - 1. */
  function Term(points: seq<Vec2>, t: real, coefficients: seq<int>, i: nat): Vec2
    requires i < |points| <= |coefficients|
  {
    var n := |points| - 1;
    Vec2(Weighted(coefficients[i], points[i].x, t, n - i, i), Weighted(coefficients[i], points[i].y, t, n - i, i))
  }

  /** One coordinate of a term: coefficient times coordinate times (1 - t)^a times t^b. */
  function Weighted(coefficient: int, coordinate: real, t: real, a: nat, b: nat): real
  {
    coefficient as real * coordinate * Pow(1.0 - t, a) * Pow(t, b)
  }

  /** The sum of the first k terms: the curve point at t once k = |points|. */
  function CurveSum(points: seq<Vec2>, t: real, coefficients: seq<int>, k: nat): Vec2
    requires k <= |points| <= |coefficients|
  {
    if k == 0 then Vec2(0.0, 0.0)
    else
      var s, p := CurveSum(points, t, coefficients, k - 1), Term(points, t, coefficients, k - 1);
      Vec2(s.x + p.x, s.y + p.y)
  }

  /**
   * GetPointInCurve (headers/bezier.hpp:44-59) with exact reals in place of
   * float and pow: the loop accumulates one term per control point.
   */
  method GetPointInCurve(points: seq<Vec2>, distance: real, coefficients: seq<int>) returns (outputPoint: Vec2)
    requires |points| <= |coefficients|
    ensures outputPoint == CurveSum(points, distance, coefficients, |points|)
  {
    outputPoint := Vec2(0.0, 0.0);
    var n := |points| - 1;
    var i := 0;
    while i < |points|
      invariant 0 <= i <= |points|
      invariant outputPoint == CurveSum(points, distance, coefficients, i)
    {
      outputPoint := outputPoint.(x := outputPoint.x + Weighted(coefficients[i], points[i].x, distance, n - i, i));
      outputPoint := outputPoint.(y := outputPoint.y + Weighted(coefficients[i], points[i].y, distance, n - i, i));
      i := i + 1;
    }
  }

  /** At t = 0 only the first term survives: the curve starts at its first control point. */
  lemma {:induction false} CurveStartsAtFirstPoint(points: seq<Vec2>, coefficients: seq<int>, k: nat)
    requires 1 <= k <= |points| <= |coefficients| && coefficients[0] == 1
    ensures CurveSum(points, 0.0, coefficients, k) == points[0]
  {
    if k == 1 {
      PowOfOne(|points| - 1);
    } else {
      CurveStartsAtFirstPoint(points, coefficients, k - 1);
      PowOfZero(k - 1);
    }
  }

  /** At t = 1 only the last term survives: the curve ends at its last control point. */
  lemma {:induction false} CurveEndsAtLastPoint(points: seq<Vec2>, coefficients: seq<int>)
    requires 1 <= |points| <= |coefficients| && coefficients[|points| - 1] == 1
    ensures CurveSum(points, 1.0, coefficients, |points|) == points[|points| - 1]
  {
    var n := |points| - 1;
    CurveVanishesBeforeLast(points, coefficients, n);
    PowOfZero(0);
    PowOfOne(n);
  }

  lemma {:induction false} CurveVanishesBeforeLast(points: seq<Vec2>, coefficients: seq<int>, k: nat)
    requires k < |points| <= |coefficients|
    ensures CurveSum(points, 1.0, coefficients, k) == Vec2(0.0, 0.0)
  {
    if k > 0 {
      CurveVanishesBeforeLast(points, coefficients, k - 1);
      PowOfZero(|points| - k);
    }
  }

  /**
   * The waypoint list CalculateCurve builds: NumberOfSteps samples at
   * t = i / NumberOfSteps, then the last control point itself.
   */
  function CurveSteps(points: seq<Vec2>, coefficients: seq<int>): (steps: seq<Vec2>)
    requires 1 <= |points| <= |coefficients|
  {
    seq(NumberOfSteps, i requires 0 <= i < NumberOfSteps =>
      CurveSum(points, i as real / NumberOfSteps as real, coefficients, |points|))
    + [points[|points| - 1]]
  }

  /**
   * The waypoint list has NumberOfSteps + 1 = 51 entries, starts at the t = 0
   * sample, which is the first control point, and ends exactly on the last
   * control point.
   */
  lemma CurveStepsShape(points: seq<Vec2>, coefficients: seq<int>)
    requires 1 <= |points| <= |coefficients| && coefficients[0] == 1
    ensures |CurveSteps(points, coefficients)| == NumberOfSteps + 1 == 51
    ensures CurveSteps(points, coefficients)[0] == points[0]
    ensures CurveSteps(points, coefficients)[NumberOfSteps] == points[|points| - 1]
  {
    CurveStartsAtFirstPoint(points, coefficients, |points|);
    assert 0 as real / NumberOfSteps as real == 0.0;
  }

  /** BezierCurve (headers/bezier.hpp:61-88). */
  class BezierCurve {
    const points: seq<Vec2>
    var stepList: seq<Vec2>

    constructor (points: seq<Vec2>)
      ensures this.points == points && stepList == []
    {
      this.points := points;
      stepList := [];
    }

    /**
     * CalculateCurve (headers/bezier.hpp:71-83): the new list depends only on
     * the control points and the coefficient table, never on what stepList
     * held before, so a second call leaves it as the first call did.
     */
    method CalculateCurve(pascalsTriangle: seq<seq<int>>)
      requires 1 <= |points| <= |pascalsTriangle|
      requires |points| <= |pascalsTriangle[|points| - 1]|
      modifies this`stepList
      ensures stepList == CurveSteps(points, pascalsTriangle[|points| - 1])
    {
      var coefficients := pascalsTriangle[|points| - 1];
      stepList := [];
      var i := 0;
      while i < NumberOfSteps
        invariant 0 <= i <= NumberOfSteps
        invariant stepList == CurveSteps(points, coefficients)[..i]
      {
        var stepPoint := GetPointInCurve(points, i as real / NumberOfSteps as real, coefficients);
        stepList := stepList + [stepPoint];
        i := i + 1;
      }
      stepList := stepList + [points[|points| - 1]];
    }

    /** GetStartPoint (headers/bezier.hpp:85): the first waypoint. */
    function GetStartPoint(): (p: Vec2)
      reads this
      requires |stepList| > 0
      ensures p == stepList[0]
    {
      stepList[0]
    }

    /** GetEndPoint (headers/bezier.hpp:87): the last waypoint. */
    function GetEndPoint(): (p: Vec2)
      reads this
      requires |stepList| > 0
      ensures p == stepList[|stepList| - 1]
    {
      stepList[|stepList| - 1]
    }
  }

  /**
   * After CalculateCurve from a row of Pascal's triangle that starts with
   * 1, the path starts at the first control point and ends at the last.
   */
  lemma CurveEndpoints(curve: BezierCurve, row: seq<int>)
    requires 1 <= |curve.points| <= |row| && row[0] == 1
    requires curve.stepList == CurveSteps(curve.points, row)
    ensures |curve.stepList| == NumberOfSteps + 1
    ensures curve.GetStartPoint() == curve.points[0]
    ensures curve.GetEndPoint() == curve.points[|curve.points| - 1]
  {
    CurveStepsShape(curve.points, row);
  }
}
