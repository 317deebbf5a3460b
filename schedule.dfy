/**
 * The optimum the drone schedule is after. The bags are served in their
 * given order; a schedule cuts them into consecutive days, and its cost is
 * the sum of the day costs. The theory is stated for any day cost
 * D(p, q) of a day carrying bags p..q; `DayCosts` plugs in the cost model
 * of an instance. `Opt` is the prefix recurrence that the dynamic
 * programme fills in, and the lemmas show that it is the least cost over
 * all schedules and that some schedule reaches it.
 */
module Schedule {
  import opened Costs

  /** Cost of a day carrying bags p..q, as a function of p and q. */
  type DayCost = (nat, nat) -> Cost

  /** Least cost of serving the first k bags in whole days. */
  ghost function Opt(D: DayCost, k: nat): Cost
    decreases k, 1, 0
  {
    if k == 0 then Fin(0) else Best(D, k, k)
  }

  /**
   * Least cost of serving the first k bags when the last day starts at
   * some bag p < j: the minimum of Opt(p) plus the cost of day p..k-1.
   */
  ghost function Best(D: DayCost, k: nat, j: nat): Cost
    requires 1 <= k && j <= k
    decreases k, 0, j
  {
    if j == 0 then Inf
    else Min(Best(D, k, j - 1), Add(Opt(D, j - 1), D(j - 1, k - 1)))
  }

  /** Best(k, j) is no more than any of the candidates it chooses from. */
  lemma {:induction false} BestIsLowerBound(D: DayCost, k: nat, j: nat, p: nat)
    requires 1 <= k && p < j <= k
    ensures Le(Best(D, k, j), Add(Opt(D, p), D(p, k - 1)))
    decreases j
  {
    if p < j - 1 {
      BestIsLowerBound(D, k, j - 1, p);
    }
  }

  /** Some start p < j of the last day reaches Best(k, j). */
  lemma {:induction false} BestIsAttained(D: DayCost, k: nat, j: nat) returns (p: nat)
    requires 1 <= j <= k
    ensures p < j && Best(D, k, j) == Add(Opt(D, p), D(p, k - 1))
    decreases j
  {
    if j == 1 || Best(D, k, j) == Add(Opt(D, j - 1), D(j - 1, k - 1)) {
      p := j - 1;
    } else {
      p := BestIsAttained(D, k, j - 1);
    }
  }

  /**
   * `cuts` splits the first k bags into days: it starts at 0, ends at k and
   * increases strictly; day t carries bags cuts[t]..cuts[t+1]-1.
   */
  ghost predicate IsSplit(cuts: seq<nat>, k: nat)
  {
    |cuts| >= 1 && cuts[0] == 0 && cuts[|cuts| - 1] == k &&
    forall s, t :: 0 <= s < t < |cuts| ==> cuts[s] < cuts[t]
  }

  /** Cost of the schedule `cuts` for the first k bags: the sum of its day costs. */
  ghost function SplitCost(D: DayCost, cuts: seq<nat>, k: nat): Cost
    requires IsSplit(cuts, k)
    decreases |cuts|
  {
    if |cuts| == 1 then Fin(0)
    else
      var last := cuts[|cuts| - 2];
      Add(SplitCost(D, cuts[..|cuts| - 1], last), D(last, k - 1))
  }

  /** Adding the same cost to both sides keeps their order. */
  lemma AddMonotone(a: Cost, b: Cost, c: Cost)
    requires Le(a, b)
    ensures Le(Add(a, c), Add(b, c))
  {
  }

  /** No schedule of the first k bags costs less than Opt(k). */
  lemma {:induction false} OptIsLowerBound(D: DayCost, cuts: seq<nat>, k: nat)
    requires IsSplit(cuts, k)
    ensures Le(Opt(D, k), SplitCost(D, cuts, k))
    decreases |cuts|
  {
    if |cuts| > 1 {
      var p := cuts[|cuts| - 2];
      var front := cuts[..|cuts| - 1];
      OptIsLowerBound(D, front, p);
      BestIsLowerBound(D, k, k, p);
      AddMonotone(Opt(D, p), SplitCost(D, front, p), D(p, k - 1));
    }
  }

  /** Ending a schedule of the first p bags with one more day p..k-1 gives a schedule of the first k bags. */
  lemma ExtendSplit(D: DayCost, front: seq<nat>, p: nat, k: nat)
    requires IsSplit(front, p) && p < k
    ensures IsSplit(front + [k], k)
    ensures SplitCost(D, front + [k], k) == Add(SplitCost(D, front, p), D(p, k - 1))
  {
    var cuts := front + [k];
    forall s, t | 0 <= s < t < |cuts| ensures cuts[s] < cuts[t] {
      if t == |cuts| - 1 && s < |front| - 1 {
        assert front[s] < front[|front| - 1];
      }
    }
    assert cuts[..|cuts| - 1] == front;
  }

  /** Some schedule of the first k bags costs exactly Opt(k). */
  lemma {:induction false} OptIsAttained(D: DayCost, k: nat) returns (cuts: seq<nat>)
    ensures IsSplit(cuts, k) && SplitCost(D, cuts, k) == Opt(D, k)
    decreases k
  {
    if k == 0 {
      cuts := [0];
    } else {
      var p := BestIsAttained(D, k, k);
      var front := OptIsAttained(D, p);
      ExtendSplit(D, front, p, k);
      cuts := front + [k];
    }
  }

  /** Opt(k) is the least cost over all ways to cut the first k bags, in order, into days. */
  lemma OptIsMinimum(D: DayCost, k: nat)
    ensures forall cuts :: IsSplit(cuts, k) ==> Le(Opt(D, k), SplitCost(D, cuts, k))
    ensures exists cuts :: IsSplit(cuts, k) && SplitCost(D, cuts, k) == Opt(D, k)
  {
    forall cuts | IsSplit(cuts, k)
      ensures Le(Opt(D, k), SplitCost(D, cuts, k))
    {
      OptIsLowerBound(D, cuts, k);
    }
    var cuts := OptIsAttained(D, k);
  }

  /**
   * One step of the recurrence commutes with a shift: if the previous best,
   * the prefix optimum and the day cost are shifted by z, x and y, with
   * x + y == z, the new best is shifted by z.
   */
  lemma ShiftStep(b1: Cost, o1: Cost, d1: Cost, b2: Cost, o2: Cost, d2: Cost, x: int, y: int, z: int)
    requires b2 == Add(b1, Fin(z)) && o2 == Add(o1, Fin(x)) && d2 == Add(d1, Fin(y)) && x + y == z
    ensures Min(b2, Add(o2, d2)) == Add(Min(b1, Add(o1, d1)), Fin(z))
  {
  }

  /** Day p..q costs S(q + 1) - S(p) more under D2 than under D1. */
  ghost predicate DayShifted(D1: DayCost, D2: DayCost, S: nat -> int, p: nat, q: nat)
  {
    D2(p, q) == Add(D1(p, q), Fin(S(q + 1) - S(p)))
  }

  /**
   * If every day p..q of D2 costs S(q + 1) - S(p) more than the same day of
   * D1 (and is forbidden exactly when it is forbidden under D1), the extra
   * charges telescope: serving the first k bags costs S(k) - S(0) more
   * under D2.
   */
  lemma {:induction false} OptShift(D1: DayCost, D2: DayCost, S: nat -> int, n: nat, k: nat)
    requires k <= n
    requires forall p, q :: 0 <= p <= q < n ==> DayShifted(D1, D2, S, p, q)
    ensures Opt(D2, k) == Add(Opt(D1, k), Fin(S(k) - S(0)))
    decreases k
  {
    if k > 0 {
      var q := k - 1;
      for j := 0 to k
        invariant Best(D2, k, j) == Add(Best(D1, k, j), Fin(S(k) - S(0)))
      {
        OptShift(D1, D2, S, n, j);
        assert DayShifted(D1, D2, S, j, q);
        ShiftStep(Best(D1, k, j), Opt(D1, j), D1(j, q), Best(D2, k, j), Opt(D2, j), D2(j, q),
                  S(j) - S(0), S(k) - S(j), S(k) - S(0));
        assert Best(D1, k, j + 1) == Min(Best(D1, k, j), Add(Opt(D1, j), D1(j, q)));
        assert Best(D2, k, j + 1) == Min(Best(D2, k, j), Add(Opt(D2, j), D2(j, q)));
      }
    }
  }

  /**
   * A charge of c per bag on every day (a drone that charges c for each bag
   * it carries) adds c per bag to the optimum.
   */
  lemma PerBagSurcharge(D1: DayCost, D2: DayCost, c: int, n: nat)
    requires forall p, q :: 0 <= p <= q < n ==> D2(p, q) == Add(D1(p, q), Fin(c * (q + 1 - p)))
    ensures Opt(D2, n) == Add(Opt(D1, n), Fin(c * n))
  {
    var S: nat -> int := k => c * k;
    forall p, q | 0 <= p <= q < n ensures DayShifted(D1, D2, S, p, q) {
      assert c * (q + 1) - c * p == c * (q + 1 - p);
    }
    OptShift(D1, D2, S, n, n);
  }

  /** Two day costs that agree on every day within the first n bags have the same optimum for them. */
  lemma OptCongruent(D1: DayCost, D2: DayCost, n: nat)
    requires forall p, q :: 0 <= p <= q < n ==> D2(p, q) == D1(p, q)
    ensures Opt(D2, n) == Opt(D1, n)
  {
    var S: nat -> int := k => 0;
    forall p, q | 0 <= p <= q < n ensures DayShifted(D1, D2, S, p, q) {
      assert Add(D1(p, q), Fin(0)) == D1(p, q);
    }
    OptShift(D1, D2, S, n, n);
  }

  /** The day costs of an instance: the cost model on days within the bags, and Inf elsewhere. */
  ghost function DayCosts(I: Instance): DayCost
  {
    (p: nat, q: nat) => if Ready(I) && p <= q < |I.bags| then SegmentCost(I, p, q) else Inf
  }

  /**
   * Two instances with the same number of bags, the same budget and the
   * same liters per bag once travel is added have the same idle penalties,
   * so a day whose usage is e more in the second costs e more there.
   */
  lemma DayCostsSurcharge(I1: Instance, I2: Instance, e: int, p: nat, q: nat)
    requires Ready(I1) && Ready(I2) && |I1.bags| == |I2.bags| && I1.budget == I2.budget
    requires p <= q < |I1.bags|
    requires forall b :: p <= b <= q ==> I1.bags[b] + I1.travel[b] == I2.bags[b] + I2.travel[b]
    requires DayUsage(I2.usage, p, q) == DayUsage(I1.usage, p, q) + e
    ensures DayCosts(I2)(p, q) == Add(DayCosts(I1)(p, q), Fin(e))
  {
    LoadDependsOnTotals(I1, I2, p, q);
  }

  /**
   * Two instances alike in bags, travel and budget, each with a single
   * drone: the first charges nothing and the second charges c for every
   * bag. Each day of the second costs c per bag more.
   */
  lemma ChargedDroneDay(I1: Instance, I2: Instance, c: int, p: nat, q: nat)
    requires Ready(I1) && Ready(I2) && |I1.bags| == |I2.bags| && I1.budget == I2.budget
    requires p <= q < |I1.bags|
    requires forall b :: 0 <= b < |I1.bags| ==> I1.bags[b] + I1.travel[b] == I2.bags[b] + I2.travel[b]
    requires Drones(I1.usage) == 1 && Drones(I2.usage) == 1
    requires forall r :: 0 <= r < |I1.bags| ==> I1.usage[r][0] == 0 && I2.usage[r][0] == c
    ensures DayCosts(I2)(p, q) == Add(DayCosts(I1)(p, q), Fin(c * (q + 1 - p)))
  {
    UsageSumConstant(I1.usage, p, q, 0, 0);
    UsageSumConstant(I2.usage, p, q, 0, c);
    DayCostsSurcharge(I1, I2, c * (q + 1 - p), p, q);
  }

  /**
   * Replacing a free drone by one that charges c for every bag raises the
   * lowest cost of serving all n bags by exactly c * n.
   */
  lemma ChargedDroneOptimum(I1: Instance, I2: Instance, c: int)
    requires Ready(I1) && Ready(I2) && |I1.bags| == |I2.bags| && I1.budget == I2.budget
    requires forall b :: 0 <= b < |I1.bags| ==> I1.bags[b] + I1.travel[b] == I2.bags[b] + I2.travel[b]
    requires Drones(I1.usage) == 1 && Drones(I2.usage) == 1
    requires forall r :: 0 <= r < |I1.bags| ==> I1.usage[r][0] == 0 && I2.usage[r][0] == c
    ensures Opt(DayCosts(I2), |I2.bags|) == Add(Opt(DayCosts(I1), |I1.bags|), Fin(c * |I1.bags|))
  {
    var n := |I1.bags|;
    forall p, q | 0 <= p <= q < n
      ensures DayCosts(I2)(p, q) == Add(DayCosts(I1)(p, q), Fin(c * (q + 1 - p)))
    {
      ChargedDroneDay(I1, I2, c, p, q);
    }
    PerBagSurcharge(DayCosts(I1), DayCosts(I2), c, n);
  }

  /** A table with no negative entry and, on every row, a drone z that charges nothing. */
  ghost predicate HasFreeDrone(usage: seq<seq<int>>, n: nat, z: nat)
  {
    Rectangular(usage) && n <= |usage| && z < Drones(usage) &&
    (forall r, k :: 0 <= r < n && 0 <= k < Drones(usage) ==> usage[r][k] >= 0) &&
    (forall r :: 0 <= r < n ==> usage[r][z] == 0)
  }

  /**
   * Two instances alike in bags, travel and budget whose tables both have
   * no negative entry and a free drone have the same lowest cost, whatever
   * the other drones charge.
   */
  lemma FreeDroneOptimum(I1: Instance, I2: Instance, z1: nat, z2: nat)
    requires Ready(I1) && Ready(I2) && |I1.bags| == |I2.bags| && I1.budget == I2.budget
    requires forall b :: 0 <= b < |I1.bags| ==> I1.bags[b] + I1.travel[b] == I2.bags[b] + I2.travel[b]
    requires HasFreeDrone(I1.usage, |I1.bags|, z1) && HasFreeDrone(I2.usage, |I2.bags|, z2)
    ensures Opt(DayCosts(I2), |I2.bags|) == Opt(DayCosts(I1), |I1.bags|)
  {
    var n := |I1.bags|;
    forall p, q | 0 <= p <= q < n
      ensures DayCosts(I2)(p, q) == DayCosts(I1)(p, q)
    {
      FreeDroneMeansFreeDay(I1.usage, p, q, z1);
      FreeDroneMeansFreeDay(I2.usage, p, q, z2);
      DayCostsSurcharge(I1, I2, 0, p, q);
    }
    OptCongruent(DayCosts(I1), DayCosts(I2), n);
  }

  /** Bags and travel costs that are never negative. */
  ghost predicate NonNegative(I: Instance)
  {
    HasTravel(I) && forall k :: 0 <= k < |I.bags| ==> I.bags[k] >= 0 && I.travel[k] >= 0
  }

  /** Once bag b cannot fit in any day, no prefix that contains it can be served. */
  lemma {:induction false} OversizedBagBlocks(I: Instance, b: nat, k: nat)
    requires Ready(I) && NonNegative(I) && b < k <= |I.bags|
    requires I.bags[b] + I.travel[b] > I.budget
    ensures Opt(DayCosts(I), k) == Inf
    decreases k
  {
    var p := BestIsAttained(DayCosts(I), k, k);
    if p <= b {
      LoadCoversBag(I, p, k - 1, b);
    } else {
      OversizedBagBlocks(I, b, p);
    }
  }

  /** When every bag fits in a day of its own, every prefix can be served at a finite cost. */
  lemma {:induction false} FittingBagsAreServed(I: Instance, k: nat)
    requires Ready(I) && k <= |I.bags|
    requires forall b :: 0 <= b < |I.bags| ==> I.bags[b] + I.travel[b] <= I.budget
    ensures Opt(DayCosts(I), k).Fin?
    decreases k
  {
    if k > 0 {
      FittingBagsAreServed(I, k - 1);
      BestIsLowerBound(DayCosts(I), k, k, k - 1);
    }
  }

  /**
   * With non-negative bags and travel, the bags can be served at a finite
   * cost exactly when each bag, with its round trip, fits in one day.
   */
  lemma FeasibleIffEveryBagFits(I: Instance)
    requires Ready(I) && NonNegative(I)
    ensures Opt(DayCosts(I), |I.bags|).Fin? <==>
            forall b :: 0 <= b < |I.bags| ==> I.bags[b] + I.travel[b] <= I.budget
  {
    if forall b :: 0 <= b < |I.bags| ==> I.bags[b] + I.travel[b] <= I.budget {
      FittingBagsAreServed(I, |I.bags|);
    } else {
      var b :| 0 <= b < |I.bags| && I.bags[b] + I.travel[b] > I.budget;
      OversizedBagBlocks(I, b, |I.bags|);
    }
  }
}
