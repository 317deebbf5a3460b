/**
 * The concrete instances of the drone extinguisher whose results are
 * pinned down: the cost of every day of each instance, and the optimal
 * cost that the recurrence gives for it.
 */
module Scenarios {
  import opened Costs
  import opened Schedule

  /** Bags 6, 3, 8, 9 at the forest, a 10 liter budget and one free drone. */
  function FourBags(): Instance
  {
    Instance([6, 3, 8, 9], [0, 0, 0, 0], 10, [[0], [0], [0], [0]])
  }

  /** Bags 10, 3, 1 at the forest, a 20 liter budget and one free drone (the table has a spare row). */
  function ThreeBags(): Instance
  {
    Instance([10, 3, 1], [0, 0, 0], 20, [[0], [0], [0], [0]])
  }

  /** Bags 4, 10, 3, 4, 20 at the forest, a 20 liter budget and one free drone. */
  function FiveBags(): Instance
  {
    Instance([4, 10, 3, 4, 20], [0, 0, 0, 0, 0], 20, [[0], [0], [0], [0], [0]])
  }

  /** Bags 3, 9, 2, 3, 19 one liter of travel away, a 20 liter budget and one drone charging 1 per bag. */
  function FiveBagsPaidDrone(): Instance
  {
    Instance([3, 9, 2, 3, 19], [1, 1, 1, 1, 1], 20, [[1], [1], [1], [1], [1]])
  }

  /** As FiveBagsPaidDrone, with two drones charging 1 per bag and a third charging nothing. */
  function FiveBagsThreeDrones(): Instance
  {
    Instance([3, 9, 2, 3, 19], [1, 1, 1, 1, 1], 20,
             [[1, 1, 0], [1, 1, 0], [1, 1, 0], [1, 1, 0], [1, 1, 0]])
  }

  /** On a table with a single all-zero column, a day costs its idle penalty alone. */
  lemma ZeroUsageDay(I: Instance, p: nat, q: nat)
    requires Ready(I) && p <= q < |I.bags| && Drones(I.usage) == 1
    requires forall r :: 0 <= r < |I.usage| ==> I.usage[r][0] == 0
    ensures DayCosts(I)(p, q) == IdleCost(I, p, q, I.budget - Load(I, p, q))
  {
    FreeDroneMeansFreeDay(I.usage, p, q, 0);
  }

  /** The day costs of FourBags, as FourBagsDay proves: the cube of the idle liters, Inf over 10 liters, 0 on the last day. */
  function FourBagsTable(p: nat, q: nat): Cost
  {
    if p == 0 && q == 0 then Fin(64)
    else if p == 0 && q == 1 then Fin(1)
    else if p == 1 && q == 1 then Fin(343)
    else if p == 0 && q == 2 then Inf
    else if p == 1 && q == 2 then Inf
    else if p == 2 && q == 2 then Fin(8)
    else if p == 0 && q == 3 then Inf
    else if p == 1 && q == 3 then Inf
    else if p == 2 && q == 3 then Inf
    else if p == 3 && q == 3 then Fin(0)
    else Inf
  }

  /** Every day of FourBags costs what FourBagsTable says. */
  lemma FourBagsDay(p: nat, q: nat)
    requires p <= q < 4
    ensures DayCosts(FourBags())(p, q) == FourBagsTable(p, q)
  {
    ZeroUsageDay(FourBags(), p, q);
  }

  /** The recurrence on the day costs of FourBags: Opt is 64, 1 and 9 on the first one, two and three bags, and 9 on all four. */
  lemma FourBagsRecurrence(D: DayCost)
    requires forall p, q :: 0 <= p <= q < 4 ==> D(p, q) == FourBagsTable(p, q)
    ensures Opt(D, 4) == Fin(9)
  {
    assert D(0, 0) == Fin(64) && D(0, 1) == Fin(1) && D(1, 1) == Fin(343);
    assert D(0, 2) == Inf && D(1, 2) == Inf && D(2, 2) == Fin(8);
    assert D(0, 3) == Inf && D(1, 3) == Inf && D(2, 3) == Inf && D(3, 3) == Fin(0);
    assert Opt(D, 1) == Fin(64);
    assert Best(D, 2, 1) == Fin(1);
    assert Opt(D, 2) == Fin(1);
    assert Best(D, 3, 1) == Inf;
    assert Best(D, 3, 2) == Inf;
    assert Opt(D, 3) == Fin(9);
    assert Best(D, 4, 1) == Inf;
    assert Best(D, 4, 2) == Inf;
    assert Best(D, 4, 3) == Inf;
  }

  /** Splitting 6, 3, 8, 9 into [6, 3], [8], [9] is best, at 1 + 8 + 0 = 9. */
  lemma FourBagsOptimum()
    ensures Opt(DayCosts(FourBags()), 4) == Fin(9)
  {
    forall p: nat, q: nat | p <= q < 4 ensures DayCosts(FourBags())(p, q) == FourBagsTable(p, q) {
      FourBagsDay(p, q);
    }
    FourBagsRecurrence(DayCosts(FourBags()));
  }

  /** The day costs of ThreeBags, as ThreeBagsDay proves; every day that ends with the last bag fits and costs 0. */
  function ThreeBagsTable(p: nat, q: nat): Cost
  {
    if p == 0 && q == 0 then Fin(1000)
    else if p == 0 && q == 1 then Fin(343)
    else if p == 1 && q == 1 then Fin(4913)
    else if p == 0 && q == 2 then Fin(0)
    else if p == 1 && q == 2 then Fin(0)
    else if p == 2 && q == 2 then Fin(0)
    else Inf
  }

  /** Every day of ThreeBags costs what ThreeBagsTable says. */
  lemma ThreeBagsDay(p: nat, q: nat)
    requires p <= q < 3
    ensures DayCosts(ThreeBags())(p, q) == ThreeBagsTable(p, q)
  {
    ZeroUsageDay(ThreeBags(), p, q);
  }

  /** The recurrence on the day costs of ThreeBags: all three bags fit in one free last day. */
  lemma ThreeBagsRecurrence(D: DayCost)
    requires forall p, q :: 0 <= p <= q < 3 ==> D(p, q) == ThreeBagsTable(p, q)
    ensures Opt(D, 3) == Fin(0)
  {
    assert D(0, 0) == Fin(1000) && D(0, 1) == Fin(343) && D(1, 1) == Fin(4913);
    assert D(0, 2) == Fin(0) && D(1, 2) == Fin(0) && D(2, 2) == Fin(0);
    assert Opt(D, 1) == Fin(1000);
    assert Best(D, 2, 1) == Fin(343);
    assert Opt(D, 2) == Fin(343);
    assert Best(D, 3, 1) == Fin(0);
    assert Best(D, 3, 2) == Fin(0);
  }

  /** 10, 3, 1 fit in one final day, which costs nothing. */
  lemma ThreeBagsOptimum()
    ensures Opt(DayCosts(ThreeBags()), 3) == Fin(0)
  {
    forall p: nat, q: nat | p <= q < 3 ensures DayCosts(ThreeBags())(p, q) == ThreeBagsTable(p, q) {
      ThreeBagsDay(p, q);
    }
    ThreeBagsRecurrence(DayCosts(ThreeBags()));
  }

  /** The day costs of FiveBags, as the FiveBagsDayTo lemmas prove: the cube of the idle liters, Inf over 20 liters, 0 on the last day. */
  function FiveBagsTable(p: nat, q: nat): Cost
  {
    if p == 0 && q == 0 then Fin(4096)
    else if p == 0 && q == 1 then Fin(216)
    else if p == 1 && q == 1 then Fin(1000)
    else if p == 0 && q == 2 then Fin(27)
    else if p == 1 && q == 2 then Fin(343)
    else if p == 2 && q == 2 then Fin(4913)
    else if p == 0 && q == 3 then Inf
    else if p == 1 && q == 3 then Fin(27)
    else if p == 2 && q == 3 then Fin(2197)
    else if p == 3 && q == 3 then Fin(4096)
    else if p == 0 && q == 4 then Inf
    else if p == 1 && q == 4 then Inf
    else if p == 2 && q == 4 then Inf
    else if p == 3 && q == 4 then Inf
    else if p == 4 && q == 4 then Fin(0)
    else Inf
  }

  /** Every day of FiveBags that ends by the second bag costs what FiveBagsTable says. */
  lemma FiveBagsDayToSecond(p: nat, q: nat)
    requires p <= q <= 1
    ensures DayCosts(FiveBags())(p, q) == FiveBagsTable(p, q)
  {
    ZeroUsageDay(FiveBags(), p, q);
  }

  /** Every day of FiveBags that ends at the third bag costs what FiveBagsTable says. */
  lemma FiveBagsDayToThird(p: nat, q: nat)
    requires p <= q == 2
    ensures DayCosts(FiveBags())(p, q) == FiveBagsTable(p, q)
  {
    ZeroUsageDay(FiveBags(), p, q);
  }

  /** Every day of FiveBags that ends at the fourth bag costs what FiveBagsTable says. */
  lemma FiveBagsDayToFourth(p: nat, q: nat)
    requires p <= q == 3
    ensures DayCosts(FiveBags())(p, q) == FiveBagsTable(p, q)
  {
    ZeroUsageDay(FiveBags(), p, q);
  }

  /** Every day of FiveBags that ends at the fifth bag costs what FiveBagsTable says. */
  lemma FiveBagsDayToFifth(p: nat, q: nat)
    requires p <= q == 4
    ensures DayCosts(FiveBags())(p, q) == FiveBagsTable(p, q)
  {
    // One day at a time: these days hold up to five bags, and a single
    // call with a symbolic first bag leaves the solver too much to unfold.
    if p == 0 && q == 4 {
      ZeroUsageDay(FiveBags(), 0, 4);
    } else if p == 1 && q == 4 {
      ZeroUsageDay(FiveBags(), 1, 4);
    } else if p == 2 && q == 4 {
      ZeroUsageDay(FiveBags(), 2, 4);
    } else if p == 3 && q == 4 {
      ZeroUsageDay(FiveBags(), 3, 4);
    } else if p == 4 && q == 4 {
      ZeroUsageDay(FiveBags(), 4, 4);
    }
  }

  /** The recurrence on the day costs of FiveBags: Opt is 4096, 216, 27 and 2413 on the first one to four bags, and 2413 on all five. */
  lemma FiveBagsRecurrence(D: DayCost)
    requires forall p, q :: 0 <= p <= q < 5 ==> D(p, q) == FiveBagsTable(p, q)
    ensures Opt(D, 5) == Fin(2413)
  {
    assert D(0, 0) == Fin(4096) && D(0, 1) == Fin(216) && D(1, 1) == Fin(1000);
    assert D(0, 2) == Fin(27) && D(1, 2) == Fin(343) && D(2, 2) == Fin(4913);
    assert D(0, 3) == Inf && D(1, 3) == Fin(27) && D(2, 3) == Fin(2197) && D(3, 3) == Fin(4096);
    assert D(0, 4) == Inf && D(1, 4) == Inf && D(2, 4) == Inf && D(3, 4) == Inf && D(4, 4) == Fin(0);
    assert Opt(D, 1) == Fin(4096);
    assert Best(D, 2, 1) == Fin(216);
    assert Opt(D, 2) == Fin(216);
    assert Best(D, 3, 1) == Fin(27);
    assert Best(D, 3, 2) == Fin(27);
    assert Opt(D, 3) == Fin(27);
    assert Best(D, 4, 1) == Inf;
    assert Best(D, 4, 2) == Fin(4123);
    assert Best(D, 4, 3) == Fin(2413);
    assert Opt(D, 4) == Fin(2413);
    assert Best(D, 5, 1) == Inf;
    assert Best(D, 5, 2) == Inf;
    assert Best(D, 5, 3) == Inf;
    assert Best(D, 5, 4) == Inf;
  }

  /** Splitting 4, 10, 3, 4, 20 into [4, 10], [3, 4], [20] is best, at 216 + 2197 + 0 = 2413. */
  lemma FiveBagsOptimum()
    ensures Opt(DayCosts(FiveBags()), 5) == Fin(2413)
  {
    forall p: nat, q: nat | p <= q < 5 ensures DayCosts(FiveBags())(p, q) == FiveBagsTable(p, q) {
      if q <= 1 {
        FiveBagsDayToSecond(p, q);
      } else if q == 2 {
        FiveBagsDayToThird(p, q);
      } else if q == 3 {
        FiveBagsDayToFourth(p, q);
      } else {
        FiveBagsDayToFifth(p, q);
      }
    }
    FiveBagsRecurrence(DayCosts(FiveBags()));
  }

  /** The paid drone adds exactly 5 over the five bags: the optimum is 2413 + 5. */
  lemma PaidDroneOptimum()
    ensures Opt(DayCosts(FiveBagsPaidDrone()), 5) == Fin(2418)
  {
    var I1, I2 := FiveBags(), FiveBagsPaidDrone();
    assert forall b :: 0 <= b < 5 ==> I1.bags[b] + I1.travel[b] == I2.bags[b] + I2.travel[b];
    assert forall r :: 0 <= r < 5 ==> I1.usage[r][0] == 0 && I2.usage[r][0] == 1;
    ChargedDroneOptimum(I1, I2, 1);
    FiveBagsOptimum();
  }


  /** The free third drone brings the optimum back to that of FiveBags, 2413. */
  lemma ThreeDronesOptimum()
    ensures Opt(DayCosts(FiveBagsThreeDrones()), 5) == Fin(2413)
  {
    var I1, I2 := FiveBags(), FiveBagsThreeDrones();
    assert forall b :: 0 <= b < 5 ==> I1.bags[b] + I1.travel[b] == I2.bags[b] + I2.travel[b];
    assert HasFreeDrone(I1.usage, 5, 0) && HasFreeDrone(I2.usage, 5, 2);
    FreeDroneOptimum(I1, I2, 0, 2);
    FiveBagsOptimum();
  }

}
