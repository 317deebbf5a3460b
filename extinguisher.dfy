/**
 * The drone extinguisher object. It is built from the forest location,
 * the bags (liters of water, in delivery order) and their locations, the
 * liter cost per kilometer, the liter budget per day and the usage table.
 * Its travel costs are filled in place, then the dynamic programme fills
 * the optimal-cost table, and only then is the lowest cost read: the
 * preconditions below fix that order.
 */
module Extinguisher {
  import opened Geometry
  import opened Costs
  import opened Schedule

  class DroneExtinguisher {
    const forest: Point
    const bags: seq<int>
    const locations: seq<Point>
    const rate: real
    const budget: int
    const usage: seq<seq<int>>

    /** Round-trip travel cost in liters of each bag, in bag order. */
    var travel: seq<int>
    /** best[k]: least cost of serving the first k bags, once the dynamic programme has run. */
    var best: array<Cost>

    /** The construction inputs are consistent. */
    ghost predicate Valid()
      reads this
    {
      |locations| == |bags| && rate >= 0.0 && budget >= 0 && Rectangular(usage)
    }

    /** The values the cost queries read. */
    function Data(): Instance
      reads this
    {
      Instance(bags, travel, budget, usage)
    }

    /** The travel costs have been filled: one per bag, each the rounded-up round trip. */
    ghost predicate TravelFilled()
      reads this
    {
      Valid() && |travel| == |bags| &&
      forall b :: 0 <= b < |bags| ==> travel[b] == TravelCost(forest, locations[b], rate)
    }

    /** The dynamic programme has run on the filled travel costs. */
    ghost predicate Solved()
      reads this, best
    {
      TravelFilled() && Ready(Data()) && best.Length == |bags| + 1 &&
      forall k :: 0 <= k <= |bags| ==> best[k] == Opt(DayCosts(Data()), k)
    }

    constructor (forest: Point, bags: seq<int>, locations: seq<Point>, rate: real, budget: int,
                 usage: seq<seq<int>>)
      requires |locations| == |bags| && rate >= 0.0 && budget >= 0 && Rectangular(usage)
      ensures Valid() && travel == []
      ensures this.forest == forest && this.bags == bags && this.locations == locations
      ensures this.rate == rate && this.budget == budget && this.usage == usage
    {
      this.forest := forest;
      this.bags := bags;
      this.locations := locations;
      this.rate := rate;
      this.budget := budget;
      this.usage := usage;
      travel := [];
      best := new Cost[0];
    }

    /** Computes the travel cost of every bag, in bag order. */
    method FillTravelCosts()
      requires Valid()
      modifies this`travel
      ensures TravelFilled()
    {
      travel := [];
      for b := 0 to |bags|
        invariant |travel| == b
        invariant forall i :: 0 <= i < b ==> travel[i] == TravelCost(forest, locations[i], rate)
      {
        travel := travel + [TravelCost(forest, locations[b], rate)];
      }
    }

    /**
     * Fills best[0..n]: best[0] is zero, and best[k] is the least, over the
     * first bag j of the last day, of best[j] plus the cost of day j..k-1.
     */
    method DynamicProgramming()
      requires TravelFilled() && |usage| >= |bags| && (|bags| > 0 ==> Drones(usage) >= 1)
      modifies this`best
      ensures Solved() && fresh(best)
    {
      var n := |bags|;
      var I := Data();
      ghost var D := DayCosts(I);
      var table := new Cost[n + 1];
      table[0] := Fin(0);
      for k := 1 to n + 1
        invariant forall q :: 0 <= q < k ==> table[q] == Opt(D, q)
      {
        table[k] := CheapestLastDay(I, table, k);
      }
      best := table;
    }

    /**
     * The inner loop of the dynamic programme: given the lowest costs of
     * the first 0..k-1 bags, the lowest cost of the first k bags, taken
     * over every bag j at which the last day may start.
     */
    static method CheapestLastDay(I: Instance, table: array<Cost>, k: nat) returns (m: Cost)
      requires Ready(I) && 1 <= k <= |I.bags| && k <= table.Length
      requires forall q :: 0 <= q < k ==> table[q] == Opt(DayCosts(I), q)
      ensures m == Opt(DayCosts(I), k)
    {
      ghost var D := DayCosts(I);
      m := Inf;
      for j := 0 to k
        invariant m == Best(D, k, j)
      {
        m := Min(m, Add(table[j], SegmentCost(I, j, k - 1)));
      }
    }

    /**
     * The lowest total cost: no way of cutting the bags, in order, into
     * days costs less, and some way costs exactly this.
     */
    method LowestCost() returns (c: Cost)
      requires Solved()
      ensures c == Opt(DayCosts(Data()), |bags|)
      ensures forall cuts :: IsSplit(cuts, |bags|) ==> Le(c, SplitCost(DayCosts(Data()), cuts, |bags|))
      ensures exists cuts :: IsSplit(cuts, |bags|) && SplitCost(DayCosts(Data()), cuts, |bags|) == c
    {
      c := best[|bags|];
      OptIsMinimum(DayCosts(Data()), |bags|);
    }
  }
}
