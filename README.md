# Drone extinguisher schedule, modelled in Dafny

The drone extinguisher delivers bags of water from a forest base. The bags
are served in their given order. Each bag costs its own liters plus the
liters of a round trip between the forest and the bag's location. A day
has a fixed liter budget. The bags are cut into consecutive days, and each
day is charged two things:

- an idle penalty: the cube of the liters the day leaves unused, nothing
  on the final day, and an infinite cost for a day that goes over budget;
- a usage charge: what the drones charge for the bags of the day, read
  from a bag × drone table.

`DroneExtinguisher` fills the travel cost of every bag, then runs a
dynamic programme over prefixes of the bags, and then reports the lowest
total cost. The class itself (`dynprog.py`) is not part of this model.
Its behaviour is rebuilt from what `test_usecases.py` asserts about it.

The project has six modules:

- `Geometry` (`geometry.dfy`): the Euclidean distance as a relation on
  exact reals, and the rounded-up round-trip travel cost.
- `Costs` (`costs.dfy`): the cost algebra `Fin(n) | Inf`, a day's load
  and idle time, the idle penalty, the column sums of the usage table,
  the cheapest drone and the total cost of a day.
- `Schedule` (`schedule.dfy`): the prefix recurrence `Opt`/`Best`. It is
  proved equal to the minimum over every way to cut the bags into days,
  and the minimum is shown to be attained. The module also holds
  feasibility, and how the optimum reacts to a per-bag charge or to a
  free drone.
- `Extinguisher` (`extinguisher.dfy`): the class. Travel costs are
  filled in place. The table is filled by two nested loops. The lowest
  cost is read only after both steps, and the preconditions fix that
  order.
- `Scenarios` (`scenarios.dfy`): the exact optimum of each instance the
  tests use.
- `UseCases` (`usecases.dfy`): methods that drive the object through the
  same calls as the tests, each with the asserted value as its
  postcondition.

## Model

| member | source | states |
|---|---|---|
| Geometry.IsDistance | test_usecases.py:10-16 | the Euclidean distance, as a relation: d is the distance between p and q when d ≥ 0 and d² is the sum of the squared coordinate differences |
| Geometry.DistanceUnique | test_usecases.py:10-16 | two points have at most one distance, so the distance is a function of the points |
| Geometry.DistanceSymmetric | test_usecases.py:15-16 | d is the distance from p to q exactly when it is the distance from q to p |
| Geometry.DistanceZero | test_usecases.py:10-16 | the distance between p and q is zero exactly when p and q are the same point |
| Geometry.DistanceExample | test_usecases.py:10-16 | the distance between (0,0) and (3,4), in either order, is 5 and nothing else |
| Geometry.CeilSqrt | test_usecases.py:29-36 | the result is the least natural number whose square reaches s |
| Geometry.CeilSqrtUnique | test_usecases.py:29-36 | a natural number with those two properties is the rounded-up square root |
| Geometry.TravelCost | test_usecases.py:19-36 | the travel cost t of a bag is the least natural number with t² ≥ (2·rate)² times the squared distance: both bounds are its ensures |
| Geometry.TravelCostIsCeiling | test_usecases.py:19-36 | the travel cost t satisfies 2·rate·d ≤ t < 2·rate·d + 1, so it is the round trip rounded up and never an under-estimate |
| Geometry.TravelCostAtForest | test_usecases.py:98-99 | a bag at the forest costs no travel, whatever the rate |
| Geometry.TravelCostExactExamples | test_usecases.py:19-27 | at 2 liters per km, bags at distance 5 and 10 cost 20 and 40 |
| Geometry.TravelCostRoundedExamples | test_usecases.py:29-45 | at 2 liters per km, (2.3,1), (7,2.7) and (1,1) cost 11, 31 and 6 |
| Geometry.TravelCostOneLiterExample | test_usecases.py:181-182 | at 0.1 liters per km, a bag at (3,4) costs exactly one liter |
| Costs.Load | test_usecases.py:38-48 | the liters of a day that carries bags i..j: the sum of bags[b] + travel[b] for b from i to j |
| Costs.IdleTime | test_usecases.py:38-48 | the budget minus the day's load; negative when the day is over budget |
| Costs.IdleCost | test_usecases.py:51-75 | infinite exactly when idle is negative, on the last day too; never negative; zero exactly when idle is zero, or positive on the last day |
| Costs.IdleCostIncreasing | test_usecases.py:51-62 | on a day that is not the last, more idle liters within budget cost strictly more |
| Costs.LoadSplit | test_usecases.py:38-48 | the liters of a day split at any bag are the sum of the liters of its two parts |
| Costs.LoadCoversBag | test_usecases.py:38-48 | with non-negative bags and travel, a day uses at least the liters of each bag it carries |
| Costs.LoadNonNegative | test_usecases.py:38-48 | with non-negative bags and travel, a day uses a non-negative number of liters |
| Costs.IdleTimeShrinks | test_usecases.py:38-48 | adding a bag whose liters and travel are non-negative to a day never increases its idle time |
| Costs.LoadDependsOnTotals | test_usecases.py:178-182 | two instances with the same bag-plus-travel liters have the same loads, however the liters are split between bag and travel |
| Costs.UsageSum | test_usecases.py:77-92 | what drone k charges for bags i..j: the sum of usage[b][k] for b from i to j |
| Costs.CheapestAmong | test_usecases.py:207-219 | the least of the column sums of drones 0..m-1 over bags i..j |
| Costs.DayUsage | test_usecases.py:207-219 | the usage a day pays: the least column sum over all drones |
| Costs.UsageSumConstant | test_usecases.py:184-188 | a column with every entry c sums to c times the number of bags |
| Costs.UsageSumNonNegative | test_usecases.py:213-217 | a column with no negative entry has a non-negative sum |
| Costs.CheapestAmongIsMinimum | test_usecases.py:207-219 | the cheapest of drones 0..m-1 is the column sum of one of them, and no more than any of theirs |
| Costs.DayUsageIsCheapest | test_usecases.py:207-219 | a day's usage is what some drone charges for it, and no drone charges less |
| Costs.FreeDroneMeansFreeDay | test_usecases.py:213-219 | with no negative entry and a drone charging nothing, the day's usage is zero |
| Costs.SegmentCost | test_usecases.py:51-62 | a day costs an infinite amount exactly when its liters exceed the budget |
| Costs.IdleTimeExamples | test_usecases.py:38-48 | the days starting at the first bag leave 979, 918 and -88 liters idle |
| Costs.IdleCostExamples | test_usecases.py:51-75 | 979 and 918 idle liters cost 938313739 and 773620632; -88 on the last day is infinite; 10 idle liters on the last day cost 0 whatever the start |
| Costs.UsageSumExamples | test_usecases.py:77-92 | the column sums of the 2×3 table over both rows are 15, 45 and 46 |
| Schedule.Opt | test_usecases.py:117-119 | the recurrence the dynamic programme fills: Opt(0) is 0 and Opt(k) is Best(k, k) |
| Schedule.Best | test_usecases.py:117-119 | Inf for j = 0, otherwise the lesser of Best(k, j-1) and Opt(j-1) plus the cost of day j-1..k-1 |
| Schedule.IsSplit | test_usecases.py:95-120 | a way of cutting the first k bags, in order, into days: cut points that start at 0, end at k and strictly increase |
| Schedule.SplitCost | test_usecases.py:95-120 | the cost of such a way: the sum of the costs of its days |
| Schedule.DayCosts | test_usecases.py:51-92 | the cost of day p..q of an instance: its idle cost plus its cheapest usage for days within the bags of a ready instance; Inf outside the bags or when the instance is not ready (travel costs not filled, table not rectangular, fewer rows than bags, or no drone) |
| Schedule.BestIsLowerBound | test_usecases.py:117-119 | Best(k, j) is no more than any candidate start p < j of the last day |
| Schedule.BestIsAttained | test_usecases.py:117-119 | some start p < j of the last day attains Best(k, j) |
| Schedule.OptIsLowerBound | test_usecases.py:95-120 | no way of cutting the first k bags into days costs less than Opt(k) |
| Schedule.OptIsAttained | test_usecases.py:95-120 | some way of cutting the first k bags into days costs exactly Opt(k) |
| Schedule.OptIsMinimum | test_usecases.py:95-120 | Opt(k) is the minimum over all ways of cutting the first k bags into days, and it is attained |
| Schedule.OptShift | test_usecases.py:178-204 | if each day p..q costs S(q+1) - S(p) more under a second day cost, the optimum of k bags costs S(k) - S(0) more |
| Schedule.PerBagSurcharge | test_usecases.py:178-204 | a charge of c per bag on every day adds c·n to the optimum of n bags |
| Schedule.OptCongruent | test_usecases.py:207-233 | two day costs that agree on every day have the same optimum |
| Schedule.DayCostsSurcharge | test_usecases.py:178-204 | for two ready instances with the same budget and number of bags, equal bag-plus-travel liters on the day and a day usage that is e more, the day costs e more |
| Schedule.ChargedDroneDay | test_usecases.py:178-204 | a single drone charging c per bag, against a free one, makes each day cost c per bag more |
| Schedule.ChargedDroneOptimum | test_usecases.py:178-204 | a single drone charging c per bag, against a free one, raises the lowest cost of n bags by exactly c·n |
| Schedule.FreeDroneOptimum | test_usecases.py:207-233 | when both tables have no negative entry and a free drone, the lowest cost is the same whatever the other drones charge |
| Schedule.OversizedBagBlocks | test_usecases.py:59 | with non-negative bags and travel, once a bag with its round trip exceeds the budget, no prefix that holds it can be served at a finite cost |
| Schedule.FittingBagsAreServed | test_usecases.py:95-120 | when every bag fits in a day of its own, every prefix has a finite optimum |
| Schedule.FeasibleIffEveryBagFits | test_usecases.py:95-120 | with non-negative bags and travel, the lowest cost is finite exactly when each bag with its round trip fits in the budget |
| Extinguisher.DroneExtinguisher.constructor | test_usecases.py:20-22 | the object keeps its inputs and starts with no travel costs |
| Extinguisher.DroneExtinguisher.FillTravelCosts | test_usecases.py:19-27 | afterwards there is one travel cost per bag, in bag order, each the rounded-up round trip to that bag |
| Extinguisher.DroneExtinguisher.DynamicProgramming | test_usecases.py:117-118 | afterwards, entry k of the fresh table is the optimum of the first k bags, for every k ≤ n |
| Extinguisher.DroneExtinguisher.CheapestLastDay | test_usecases.py:117-118 | given the optima of the first 0..k-1 bags in the table, the result is the optimum of the first k bags, the cheapest choice of the bag that starts the last day |
| Extinguisher.DroneExtinguisher.LowestCost | test_usecases.py:117-120 | the result is the optimum of all bags; no way of cutting the bags into days costs less, and some way costs exactly this |
| Scenarios.ZeroUsageDay | test_usecases.py:101-104 | with a single free drone, a day costs its idle penalty alone |
| Scenarios.FourBagsDay | test_usecases.py:95-106 | each day of bags 6, 3, 8, 9 with budget 10 costs its entry of the four-bag table |
| Scenarios.FourBagsRecurrence | test_usecases.py:95-106 | any day cost matching the four-bag table has optimum 9 |
| Scenarios.FourBagsOptimum | test_usecases.py:95-120 | bags 6, 3, 8, 9 with budget 10 have lowest cost 9 |
| Scenarios.ThreeBagsDay | test_usecases.py:122-133 | each day of bags 10, 3, 1 with budget 20 costs its entry of the three-bag table |
| Scenarios.ThreeBagsRecurrence | test_usecases.py:122-133 | any day cost matching the three-bag table has optimum 0 |
| Scenarios.ThreeBagsOptimum | test_usecases.py:122-147 | bags 10, 3, 1 with budget 20 have lowest cost 0 |
| Scenarios.FiveBagsDayToSecond | test_usecases.py:149-161 | each day of bags 4, 10, 3, 4, 20 with budget 20 that ends by the second bag costs its table entry |
| Scenarios.FiveBagsDayToThird | test_usecases.py:149-161 | each such day that ends at the third bag costs its table entry |
| Scenarios.FiveBagsDayToFourth | test_usecases.py:149-161 | each such day that ends at the fourth bag costs its table entry |
| Scenarios.FiveBagsDayToFifth | test_usecases.py:149-161 | each such day that ends at the fifth bag costs its table entry |
| Scenarios.FiveBagsRecurrence | test_usecases.py:149-161 | any day cost matching the five-bag table has optimum 2413 |
| Scenarios.FiveBagsOptimum | test_usecases.py:149-175 | bags 4, 10, 3, 4, 20 with budget 20 have lowest cost 2413 |
| Scenarios.PaidDroneOptimum | test_usecases.py:178-204 | bags 3, 9, 2, 3, 19 with one liter of travel each and a drone charging 1 per bag have lowest cost 2418 |
| Scenarios.ThreeDronesOptimum | test_usecases.py:207-233 | the same bags with a third, free drone have lowest cost 2413 |
| UseCases.ExactTravelCosts | test_usecases.py:19-27 | filling the travel costs of bags at (3,4) and (6,8) at 2 liters per km gives [20, 40] |
| UseCases.RoundedTravelCosts | test_usecases.py:29-36 | filling the travel costs of bags at (2.3,1) and (7,2.7) gives [11, 31] |
| UseCases.IdleTimesFromFirstBag | test_usecases.py:38-48 | after filling, the idle times of days 0..0, 0..1 and 0..2 are 979, 918 and -88 |
| UseCases.SimpleSchedule | test_usecases.py:95-120 | fill, dynamic programme and query on bags 6, 3, 8, 9 give 9 |
| UseCases.OneDaySchedule | test_usecases.py:122-147 | the same calls on bags 10, 3, 1 give 0 |
| UseCases.NoTravelSchedule | test_usecases.py:149-175 | the same calls on bags 4, 10, 3, 4, 20 give 2413 |
| UseCases.TravelSchedule | test_usecases.py:178-204 | the same calls with travel and a drone charging 1 per bag give 2418 |
| UseCases.TravelScheduleThreeDrones | test_usecases.py:207-233 | the same calls with a third, free drone give 2413 |

## Left out

- `dynprog.py` is not part of this model. Each operation's behaviour is
  taken from what `test_usecases.py` asserts about it.
- Geometry.TravelCost: coordinates and the liter rate are exact reals,
  not floating point. Dafny has no real square root, so the distance is a
  relation and the travel cost is the least natural number whose square
  reaches (2·rate·distance)². Floating-point rounding is not modelled. For
  every input in the tests this gives the value the tests expect.
- `np.inf` is the constructor `Inf` of the cost datatype, with addition
  and minimum defined on it.
- Costs.IdleCost: a negative idle time is infinite on the last day too.
  Line 59 expects infinity for -88 at the last bag, and the answer 9 at
  line 106 needs an over-budget final day to be forbidden.
- Costs.DayUsage: the usage columns are drones, and a day pays the column
  sum of its cheapest drone. Lines 213-219 expect 2413; a column per day
  ordinal would give 2417. The tests do not tell apart one cheapest drone
  per day from one drone per schedule.
- An absent usage table (`None`) is not modelled. The model takes the
  table as a value, and the tests pass `None` only to objects whose usage
  is never read (lines 22, 32, 41, 54, 68). The dynamic programme
  requires at least one row per bag and at least one drone.
- Extinguisher.DroneExtinguisher.constructor: requires matching lengths
  and a non-negative rate and budget. Every object the tests build meets
  them; what the class does with other inputs is not modelled.
- Costs.Load, Costs.IdleTime, Costs.UsageSum: calls with i > j, with j
  past the last bag or the last row of the usage table, or with a drone k
  past the last column are preconditions here (`i <= j < |bags|` with the
  travel costs filled; `i <= j < |usage|` and `k < Drones(usage)`).  The
  tests make no such call, and what the class does then is not modelled.
- The prefix-sum cache, the predecessor table and the reconstruction of
  the chosen days are not modelled. No test reads them, and ties between
  equally cheap schedules are left open.
- The query wrappers `compute_sequence_idle_time_in_liters`,
  `compute_idle_cost` and `compute_sequence_usage_cost` are the functions
  `IdleTime` and `IdleCost`, applied to the object's `Data()`, and
  `UsageSum`, applied to its `Data().usage`.
- The unit-test harness and numpy array construction are not modelled.
  Integers are unbounded.
