/**
 * Distances in the plane and the round-trip travel cost, in liters, of
 * flying from the forest to a bag and back.
 *
 * Coordinates and the liter rate are exact reals. Dafny has no square
 * root on reals, so the Euclidean distance is a relation (`IsDistance`)
 * and the travel cost, the ceiling of 2 * rate * distance, is computed as
 * the least natural number whose square reaches (2 * rate * distance)^2.
 */
module Geometry {

  /** A point of the plane: the forest or the location of a bag. */
  datatype Point = Point(x: real, y: real)

  /** The square of the Euclidean distance between p and q. */
  function SquaredDistance(p: Point, q: Point): (s: real)
    ensures s >= 0.0
  {
    (p.x - q.x) * (p.x - q.x) + (p.y - q.y) * (p.y - q.y)
  }

  /** d is the Euclidean distance between p and q. */
  ghost predicate IsDistance(p: Point, q: Point, d: real)
  {
    d >= 0.0 && d * d == SquaredDistance(p, q)
  }

  /** Squaring is monotone on non-negative reals, strictly so. */
  lemma SquareMonotone(a: real, b: real)
    requires 0.0 <= a && 0.0 <= b
    ensures a <= b ==> a * a <= b * b
    ensures a < b ==> a * a < b * b
  {
    if a <= b {
      assert a * a <= a * b <= b * b;
    }
    if a < b {
      var u, v := b - a, b + a;
      assert u * v > 0.0 by { assert u * v >= u * a; assert u * a >= 0.0; assert u * v >= u * b > 0.0; }
      assert u * v == b * b - a * a;
    }
  }

  /** Squaring is monotone on natural numbers. */
  lemma SquareMonotoneNat(a: nat, b: nat)
    requires a <= b
    ensures a * a <= b * b
  {
    assert a * a <= a * b <= b * b;
  }

  /** There is at most one distance between two points. */
  lemma DistanceUnique(p: Point, q: Point, d1: real, d2: real)
    requires IsDistance(p, q, d1) && IsDistance(p, q, d2)
    ensures d1 == d2
  {
    if d1 < d2 {
      SquareMonotone(d1, d2);
    } else if d2 < d1 {
      SquareMonotone(d2, d1);
    }
  }

  /** The distance from p to q is the distance from q to p. */
  lemma DistanceSymmetric(p: Point, q: Point, d: real)
    ensures IsDistance(p, q, d) <==> IsDistance(q, p, d)
  {
    assert (p.x - q.x) * (p.x - q.x) == (q.x - p.x) * (q.x - p.x);
    assert (p.y - q.y) * (p.y - q.y) == (q.y - p.y) * (q.y - p.y);
  }

  /** The only real whose square is zero is zero. */
  lemma SquareZero(a: real)
    requires a * a == 0.0
    ensures a == 0.0
  {
    var c := if a < 0.0 then -a else a;
    assert c * c == a * a;
    SquareMonotone(0.0, c);
  }

  /** The distance between p and q is zero exactly when p and q are the same point. */
  lemma DistanceZero(p: Point, q: Point)
    ensures IsDistance(p, q, 0.0) <==> p == q
  {
    if IsDistance(p, q, 0.0) {
      var dx, dy := p.x - q.x, p.y - q.y;
      assert dx * dx >= 0.0 && dy * dy >= 0.0;
      SquareZero(dx);
      SquareZero(dy);
    }
  }

  /** The distance between (0,0) and (3,4), in either order, is 5 and nothing else. */
  lemma DistanceExample(d: real)
    ensures IsDistance(Point(0.0, 0.0), Point(3.0, 4.0), d) <==> d == 5.0
    ensures IsDistance(Point(3.0, 4.0), Point(0.0, 0.0), d) <==> d == 5.0
  {
    var o, p := Point(0.0, 0.0), Point(3.0, 4.0);
    assert IsDistance(o, p, 5.0);
    if IsDistance(o, p, d) {
      DistanceUnique(o, p, d, 5.0);
    }
    DistanceSymmetric(o, p, d);
  }

  /** Searches upward from t for the least natural number whose square reaches s. */
  function CeilSqrtFrom(s: real, t: nat): (r: nat)
    requires s >= 0.0
    requires t == 0 || ((t - 1) * (t - 1)) as real < s
    ensures s <= (r * r) as real
    ensures r == 0 || ((r - 1) * (r - 1)) as real < s
    decreases s.Floor + 1 - t
  {
    if s <= (t * t) as real then t
    else
      assert t <= t * t;
      CeilSqrtFrom(s, t + 1)
  }

  /** The ceiling of the square root of s: the least natural number whose square reaches s. */
  function CeilSqrt(s: real): (r: nat)
    requires s >= 0.0
    ensures s <= (r * r) as real
    ensures r == 0 || ((r - 1) * (r - 1)) as real < s
  {
    CeilSqrtFrom(s, 0)
  }

  /** The two properties of CeilSqrt determine it. */
  lemma CeilSqrtUnique(s: real, t: nat)
    requires s >= 0.0
    requires s <= (t * t) as real
    requires t == 0 || ((t - 1) * (t - 1)) as real < s
    ensures CeilSqrt(s) == t
  {
    var r := CeilSqrt(s);
    if r < t {
      SquareMonotoneNat(r, t - 1);
    } else if t < r {
      SquareMonotoneNat(t, r - 1);
    }
  }

  /**
   * Liters used flying from `forest` to `bag` and back at `rate` liters per
   * kilometer, rounded up: the least t with t^2 >= (2 * rate * distance)^2.
   */
  function TravelCost(forest: Point, bag: Point, rate: real): (t: nat)
    requires rate >= 0.0
    ensures 4.0 * rate * rate * SquaredDistance(forest, bag) <= (t * t) as real
    ensures t == 0 || ((t - 1) * (t - 1)) as real < 4.0 * rate * rate * SquaredDistance(forest, bag)
  {
    CeilSqrt(4.0 * rate * rate * SquaredDistance(forest, bag))
  }

  /** A natural number t whose square is the least square reaching x * x is the ceiling of x. */
  lemma CeilingFromSquares(t: nat, x: real)
    requires 0.0 <= x
    requires x * x <= (t as real) * (t as real)
    requires t > 0 ==> ((t - 1) as real) * ((t - 1) as real) < x * x
    ensures x <= t as real < x + 1.0
  {
    if (t as real) < x {
      SquareMonotone(t as real, x);
    }
    if t > 0 && x <= (t - 1) as real {
      SquareMonotone(x, (t - 1) as real);
    }
  }

  /** The square of a natural number, taken as a real, is the square of that real. */
  lemma SquareAsReal(t: nat)
    ensures (t * t) as real == (t as real) * (t as real)
  {
  }

  /** Squaring 2 * rate * d, where d squared is s, gives 4 * rate^2 * s. */
  lemma ScaledSquare(rate: real, d: real, s: real)
    requires d * d == s
    ensures (2.0 * rate * d) * (2.0 * rate * d) == 4.0 * rate * rate * s
  {
    calc {
      (2.0 * rate * d) * (2.0 * rate * d);
      4.0 * (rate * rate) * (d * d);
      4.0 * rate * rate * s;
    }
  }

  /** The travel cost is the ceiling of twice the rate times the distance: never an under-estimate. */
  lemma TravelCostIsCeiling(forest: Point, bag: Point, rate: real, d: real)
    requires rate >= 0.0 && IsDistance(forest, bag, d)
    ensures 2.0 * rate * d <= TravelCost(forest, bag, rate) as real < 2.0 * rate * d + 1.0
  {
    var t := TravelCost(forest, bag, rate);
    var x := 2.0 * rate * d;
    var s := 4.0 * rate * rate * SquaredDistance(forest, bag);
    ScaledSquare(rate, d, SquaredDistance(forest, bag));
    assert x * x == s;
    assert 0.0 <= x by { assert 0.0 <= rate * d; }
    SquareAsReal(t);
    assert s <= (t as real) * (t as real);
    if t > 0 {
      SquareAsReal(t - 1);
      assert ((t - 1) as real) * ((t - 1) as real) < s;
    }
    CeilingFromSquares(t, x);
  }

  /** A bag at the forest costs no travel. */
  lemma TravelCostAtForest(forest: Point, rate: real)
    requires rate >= 0.0
    ensures TravelCost(forest, forest, rate) == 0
  {
    CeilSqrtUnique(0.0, 0);
  }

  /** Travel costs at 2 liters per km: exact distances 5 and 10 give 20 and 40. */
  lemma TravelCostExactExamples()
    ensures TravelCost(Point(0.0, 0.0), Point(3.0, 4.0), 2.0) == 20
    ensures TravelCost(Point(0.0, 0.0), Point(6.0, 8.0), 2.0) == 40
  {
    CeilSqrtUnique(400.0, 20);
    CeilSqrtUnique(1600.0, 40);
  }

  /** Travel costs at 2 liters per km are rounded up: (2.3,1) gives 11, (7,2.7) gives 31, (1,1) gives 6. */
  lemma TravelCostRoundedExamples()
    ensures TravelCost(Point(0.0, 0.0), Point(2.3, 1.0), 2.0) == 11
    ensures TravelCost(Point(0.0, 0.0), Point(7.0, 2.7), 2.0) == 31
    ensures TravelCost(Point(0.0, 0.0), Point(1.0, 1.0), 2.0) == 6
  {
    CeilSqrtUnique(100.64, 11);
    CeilSqrtUnique(900.64, 31);
    CeilSqrtUnique(32.0, 6);
  }

  /** At 0.1 liters per km, a bag at distance 5 costs exactly one liter of travel. */
  lemma TravelCostOneLiterExample()
    ensures TravelCost(Point(0.0, 0.0), Point(3.0, 4.0), 0.1) == 1
  {
    CeilSqrtUnique(1.0, 1);
  }
}
