/**
 * The cost of one day of the drone schedule: how many liters of the daily
 * budget a run of consecutive bags leaves idle, the cubic penalty on that
 * idle budget, and what the drones charge for carrying the bags.
 */
module Costs {

  /** A cost in liters, or the infinite cost of a day that is not allowed. */
  datatype Cost = Fin(value: int) | Inf

  /** a costs no more than b. */
  predicate Le(a: Cost, b: Cost)
  {
    b.Inf? || (a.Fin? && a.value <= b.value)
  }

  /** Sum of two costs; anything plus an infinite cost is infinite. */
  function Add(a: Cost, b: Cost): Cost
  {
    if a.Inf? || b.Inf? then Inf else Fin(a.value + b.value)
  }

  /** The cheaper of two costs. */
  function Min(a: Cost, b: Cost): (r: Cost)
    ensures Le(r, a) && Le(r, b)
    ensures r == a || r == b
  {
    if Le(a, b) then a else b
  }

  /**
   * What the cost queries of one drone extinguisher read: the liters in
   * each bag, the travel cost of each bag, the liters a drone may spend in a
   * day, and the usage table, whose entry [b][k] is what drone k charges
   * for bag b.
   */
  datatype Instance = Instance(bags: seq<int>, travel: seq<int>, budget: int, usage: seq<seq<int>>)

  /** Every row of the usage table has the same number of columns, as in a matrix. */
  ghost predicate Rectangular(usage: seq<seq<int>>)
  {
    forall r :: 0 <= r < |usage| ==> |usage[r]| == |usage[0]|
  }

  /** Number of drones: the number of columns of the usage table. */
  function Drones(usage: seq<seq<int>>): nat
  {
    if |usage| == 0 then 0 else |usage[0]|
  }

  /** The travel costs are known for every bag. */
  ghost predicate HasTravel(I: Instance)
  {
    |I.travel| == |I.bags|
  }

  /**
   * The instance can be split into days: every bag has a travel cost and a
   * row of the usage table, and there is at least one drone.
   */
  ghost predicate Ready(I: Instance)
  {
    HasTravel(I) && Rectangular(I.usage) && |I.usage| >= |I.bags| &&
    (|I.bags| > 0 ==> Drones(I.usage) >= 1)
  }

  /** Liters spent on a day that carries bags i..j (inclusive): each bag plus its round trip. */
  function Load(I: Instance, i: nat, j: nat): int
    requires HasTravel(I) && i <= j < |I.bags|
    decreases j - i
  {
    if j <= i then I.bags[j] + I.travel[j]
    else Load(I, i, j - 1) + I.bags[j] + I.travel[j]
  }

  /** Liters of the daily budget left idle by a day that carries bags i..j; negative when over budget. */
  function IdleTime(I: Instance, i: nat, j: nat): int
    requires HasTravel(I) && i <= j < |I.bags|
  {
    I.budget - Load(I, i, j)
  }

  /**
   * Penalty for a day that carries bags i..j and leaves `idle` liters
   * unused: infinite when the day is over budget (the last day included),
   * nothing on the last day, and the cube of the idle liters otherwise.
   * The first bag i does not change the penalty; it is kept so that the
   * signature matches the class's `compute_idle_cost(i, j, idle)`.
   */
  function IdleCost(I: Instance, i: nat, j: nat, idle: int): (c: Cost)
    ensures c.Inf? <==> idle < 0
    ensures c.Fin? ==> c.value >= 0
    ensures c == Fin(0) <==> idle == 0 || (idle > 0 && j + 1 == |I.bags|)
  {
    if idle < 0 then Inf
    else if j + 1 == |I.bags| then Fin(0)
    else
      assert idle > 0 ==> idle * idle > 0;
      assert idle > 0 ==> idle * idle * idle > 0;
      Fin(idle * idle * idle)
  }

  /** What drone k charges for bags i..j: the sum of column k over rows i..j. */
  function UsageSum(usage: seq<seq<int>>, i: nat, j: nat, k: nat): int
    requires Rectangular(usage) && i <= j < |usage| && k < Drones(usage)
    decreases j - i
  {
    if j <= i then usage[j][k]
    else UsageSum(usage, i, j - 1, k) + usage[j][k]
  }

  /** The cheapest of drones 0..m-1 for bags i..j. */
  function CheapestAmong(usage: seq<seq<int>>, i: nat, j: nat, m: nat): int
    requires Rectangular(usage) && i <= j < |usage| && 1 <= m <= Drones(usage)
  {
    if m <= 1 then UsageSum(usage, i, j, 0)
    else
      var u := CheapestAmong(usage, i, j, m - 1);
      var v := UsageSum(usage, i, j, m - 1);
      if v < u then v else u
  }

  /** Usage charged for a day carrying bags i..j: the cheapest drone's column sum. */
  function DayUsage(usage: seq<seq<int>>, i: nat, j: nat): int
    requires Rectangular(usage) && i <= j < |usage| && Drones(usage) >= 1
  {
    CheapestAmong(usage, i, j, Drones(usage))
  }

  /** CheapestAmong(m) is the column sum of one of drones 0..m-1, and no more than any of theirs. */
  lemma {:induction false} CheapestAmongIsMinimum(usage: seq<seq<int>>, i: nat, j: nat, m: nat)
      returns (k: nat)
    requires Rectangular(usage) && i <= j < |usage| && 1 <= m <= Drones(usage)
    ensures k < m && CheapestAmong(usage, i, j, m) == UsageSum(usage, i, j, k)
    ensures forall d :: 0 <= d < m ==> CheapestAmong(usage, i, j, m) <= UsageSum(usage, i, j, d)
    decreases m
  {
    if m == 1 {
      k := 0;
    } else {
      k := CheapestAmongIsMinimum(usage, i, j, m - 1);
      if UsageSum(usage, i, j, m - 1) < CheapestAmong(usage, i, j, m - 1) {
        k := m - 1;
      }
    }
  }

  /** The day's usage is what some drone charges for the day, and no drone charges less. */
  lemma DayUsageIsCheapest(usage: seq<seq<int>>, i: nat, j: nat)
    requires Rectangular(usage) && i <= j < |usage| && Drones(usage) >= 1
    ensures exists k :: 0 <= k < Drones(usage) && DayUsage(usage, i, j) == UsageSum(usage, i, j, k)
    ensures forall k :: 0 <= k < Drones(usage) ==> DayUsage(usage, i, j) <= UsageSum(usage, i, j, k)
  {
    var k := CheapestAmongIsMinimum(usage, i, j, Drones(usage));
  }

  /** Total cost of a day that carries bags i..j: the idle penalty plus the usage. */
  function SegmentCost(I: Instance, i: nat, j: nat): (c: Cost)
    requires Ready(I) && i <= j < |I.bags|
    ensures c.Inf? <==> Load(I, i, j) > I.budget
  {
    Add(IdleCost(I, i, j, I.budget - Load(I, i, j)), Fin(DayUsage(I.usage, i, j)))
  }

  /** The liters of a day split at any bag are the liters of its two parts. */
  lemma {:induction false} LoadSplit(I: Instance, i: nat, m: nat, j: nat)
    requires HasTravel(I) && i <= m < j < |I.bags|
    ensures Load(I, i, j) == Load(I, i, m) + Load(I, m + 1, j)
    decreases j - m
  {
    if j > m + 1 {
      LoadSplit(I, i, m, j - 1);
    }
  }

  /** With non-negative bags and travel, a day uses at least the liters of each bag it carries. */
  lemma {:induction false} LoadCoversBag(I: Instance, i: nat, j: nat, b: nat)
    requires HasTravel(I) && i <= b <= j < |I.bags|
    requires forall k :: i <= k <= j ==> I.bags[k] >= 0 && I.travel[k] >= 0
    ensures Load(I, i, j) >= I.bags[b] + I.travel[b]
    decreases j - i
  {
    if b < j {
      LoadCoversBag(I, i, j - 1, b);
    } else if i < j {
      LoadNonNegative(I, i, j - 1);
    }
  }

  /** With non-negative bags and travel, a day never uses a negative number of liters. */
  lemma {:induction false} LoadNonNegative(I: Instance, i: nat, j: nat)
    requires HasTravel(I) && i <= j < |I.bags|
    requires forall k :: i <= k <= j ==> I.bags[k] >= 0 && I.travel[k] >= 0
    ensures Load(I, i, j) >= 0
    decreases j - i
  {
    if i < j {
      LoadNonNegative(I, i, j - 1);
    }
  }

  /** Adding a bag to a day with non-negative bags and travel never increases its idle time. */
  lemma IdleTimeShrinks(I: Instance, i: nat, j: nat)
    requires HasTravel(I) && i <= j && j + 1 < |I.bags|
    requires I.bags[j + 1] >= 0 && I.travel[j + 1] >= 0
    ensures IdleTime(I, i, j + 1) <= IdleTime(I, i, j)
  {
  }

  /** Two instances whose bags weigh the same once travel is added have the same loads. */
  lemma {:induction false} LoadDependsOnTotals(I1: Instance, I2: Instance, i: nat, j: nat)
    requires HasTravel(I1) && HasTravel(I2) && |I1.bags| == |I2.bags| && i <= j < |I1.bags|
    requires forall k :: i <= k <= j ==> I1.bags[k] + I1.travel[k] == I2.bags[k] + I2.travel[k]
    ensures Load(I1, i, j) == Load(I2, i, j)
    decreases j - i
  {
    if i < j {
      LoadDependsOnTotals(I1, I2, i, j - 1);
    }
  }

  /** Among non-final days that fit the budget, more idle liters cost strictly more. */
  lemma IdleCostIncreasing(I: Instance, i: nat, j: nat, a: int, b: int)
    requires 0 <= a < b && j + 1 != |I.bags|
    ensures IdleCost(I, i, j, a).Fin? && IdleCost(I, i, j, b).Fin?
    ensures IdleCost(I, i, j, a).value < IdleCost(I, i, j, b).value
  {
    assert a * a <= a * b < b * b;
    assert a * a * a <= a * a * b <= b * b * b by {
      assert a * a * b <= b * b * b;
    }
    assert a * a * b < b * b * b;
  }

  /** A column whose entries over rows i..j all equal c sums to c times the number of rows. */
  lemma {:induction false} UsageSumConstant(usage: seq<seq<int>>, i: nat, j: nat, k: nat, c: int)
    requires Rectangular(usage) && i <= j < |usage| && k < Drones(usage)
    requires forall r :: i <= r <= j ==> usage[r][k] == c
    ensures UsageSum(usage, i, j, k) == c * (j - i + 1)
    decreases j - i
  {
    if i < j {
      UsageSumConstant(usage, i, j - 1, k, c);
    }
  }

  /** A column of non-negative entries has a non-negative sum. */
  lemma {:induction false} UsageSumNonNegative(usage: seq<seq<int>>, i: nat, j: nat, k: nat)
    requires Rectangular(usage) && i <= j < |usage| && k < Drones(usage)
    requires forall r :: i <= r <= j ==> usage[r][k] >= 0
    ensures UsageSum(usage, i, j, k) >= 0
    decreases j - i
  {
    if i < j {
      UsageSumNonNegative(usage, i, j - 1, k);
    }
  }

  /**
   * When the table has no negative entry and some drone charges nothing for
   * bags i..j, the day's usage is zero.
   */
  lemma FreeDroneMeansFreeDay(usage: seq<seq<int>>, i: nat, j: nat, z: nat)
    requires Rectangular(usage) && i <= j < |usage| && z < Drones(usage)
    requires forall r, k :: i <= r <= j && 0 <= k < Drones(usage) ==> usage[r][k] >= 0
    requires forall r :: i <= r <= j ==> usage[r][z] == 0
    ensures DayUsage(usage, i, j) == 0
  {
    UsageSumConstant(usage, i, j, z, 0);
    DayUsageIsCheapest(usage, i, j);
    var k :| 0 <= k < Drones(usage) && DayUsage(usage, i, j) == UsageSum(usage, i, j, k);
    UsageSumNonNegative(usage, i, j, k);
  }

  /** The idle times of the three-bag instance with a 1000 liter budget: 979, 918 and -88. */
  lemma IdleTimeExamples()
    ensures IdleTime(Instance([10, 30, 1000], [11, 31, 6], 1000, []), 0, 0) == 979
    ensures IdleTime(Instance([10, 30, 1000], [11, 31, 6], 1000, []), 0, 1) == 918
    ensures IdleTime(Instance([10, 30, 1000], [11, 31, 6], 1000, []), 0, 2) == -88
  {
  }

  /**
   * The idle costs of the three-bag instance: 979 and 918 idle liters are
   * cubed, -88 is infinite even on the last day, and 10 idle liters on the
   * last day cost nothing whatever the first bag of the day.
   */
  lemma IdleCostExamples()
    ensures IdleCost(Instance([10, 30, 1000], [11, 31, 6], 1000, []), 0, 0, 979) == Fin(938313739)
    ensures IdleCost(Instance([10, 30, 1000], [11, 31, 6], 1000, []), 0, 1, 918) == Fin(773620632)
    ensures IdleCost(Instance([10, 30, 1000], [11, 31, 6], 1000, []), 0, 2, -88) == Inf
    ensures forall i :: 0 <= i < 3 ==> IdleCost(Instance([10, 30, 1000], [11, 31, 6], 1000, []), i, 2, 10) == Fin(0)
  {
  }

  /** Column sums of the table [[10,20,30],[5,25,16]] over both rows: 15, 45 and 46. */
  lemma UsageSumExamples()
    ensures UsageSum([[10, 20, 30], [5, 25, 16]], 0, 1, 0) == 15
    ensures UsageSum([[10, 20, 30], [5, 25, 16]], 0, 1, 1) == 45
    ensures UsageSum([[10, 20, 30], [5, 25, 16]], 0, 1, 2) == 46
  {
  }
}
