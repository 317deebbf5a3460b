/**
 * The drone extinguisher driven as its callers drive it: build the object,
 * fill the travel costs, run the dynamic programme, read the lowest cost.
 * Each method pins down the result of one such run.
 */
module UseCases {
  import opened Geometry
  import opened Costs
  import opened Extinguisher
  import opened Scenarios

  /** Bags 10 and 30 at distances 5 and 10 cost 20 and 40 liters of travel at 2 liters per km. */
  method ExactTravelCosts() returns (travel: seq<int>)
    ensures travel == [20, 40]
  {
    var forest := Point(0.0, 0.0);
    var de := new DroneExtinguisher(forest, [10, 30], [Point(3.0, 4.0), Point(6.0, 8.0)], 2.0, 0, []);
    de.FillTravelCosts();
    TravelCostExactExamples();
    travel := de.travel;
  }

  /** Travel costs are rounded up to whole liters: 4 * 2.508 (about 10.03) and 4 * 7.503 (about 30.01) become 11 and 31. */
  method RoundedTravelCosts() returns (travel: seq<int>)
    ensures travel == [11, 31]
  {
    var forest := Point(0.0, 0.0);
    var de := new DroneExtinguisher(forest, [10, 30], [Point(2.3, 1.0), Point(7.0, 2.7)], 2.0, 0, []);
    de.FillTravelCosts();
    TravelCostRoundedExamples();
    travel := de.travel;
  }

  /** With the travel costs filled, the days starting at the first bag leave 979, 918 and -88 liters idle. */
  method IdleTimesFromFirstBag() returns (idle: seq<int>)
    ensures idle == [979, 918, -88]
  {
    var forest := Point(0.0, 0.0);
    var de := new DroneExtinguisher(forest, [10, 30, 1000],
                                    [Point(2.3, 1.0), Point(7.0, 2.7), Point(1.0, 1.0)], 2.0, 1000, []);
    de.FillTravelCosts();
    TravelCostRoundedExamples();
    assert de.travel == [11, 31, 6];
    IdleTimeExamples();
    idle := [IdleTime(de.Data(), 0, 0), IdleTime(de.Data(), 0, 1), IdleTime(de.Data(), 0, 2)];
  }

  /** Bags 6, 3, 8, 9 at the forest with a 10 liter budget: the lowest cost is 9. */
  method SimpleSchedule() returns (lowest: Cost)
    ensures lowest == Fin(9)
  {
    var forest := Point(0.0, 0.0);
    var de := new DroneExtinguisher(forest, [6, 3, 8, 9], [forest, forest, forest, forest], 1.0, 10,
                                    [[0], [0], [0], [0]]);
    de.FillTravelCosts();
    TravelCostAtForest(forest, 1.0);
    assert de.travel == [0, 0, 0, 0];
    de.DynamicProgramming();
    lowest := de.LowestCost();
    assert de.Data() == FourBags();
    FourBagsOptimum();
  }

  /** Bags 10, 3, 1 at the forest with a 20 liter budget fit in one free day: the lowest cost is 0. */
  method OneDaySchedule() returns (lowest: Cost)
    ensures lowest == Fin(0)
  {
    var forest := Point(0.0, 0.0);
    var de := new DroneExtinguisher(forest, [10, 3, 1], [forest, forest, forest], 1.0, 20,
                                    [[0], [0], [0], [0]]);
    de.FillTravelCosts();
    TravelCostAtForest(forest, 1.0);
    assert de.travel == [0, 0, 0];
    de.DynamicProgramming();
    lowest := de.LowestCost();
    assert de.Data() == ThreeBags();
    ThreeBagsOptimum();
  }

  /** Bags 4, 10, 3, 4, 20 at the forest with a 20 liter budget: the lowest cost is 2413. */
  method NoTravelSchedule() returns (lowest: Cost)
    ensures lowest == Fin(2413)
  {
    var forest := Point(0.0, 0.0);
    var de := new DroneExtinguisher(forest, [4, 10, 3, 4, 20], [forest, forest, forest, forest, forest],
                                    1.0, 20, [[0], [0], [0], [0], [0]]);
    de.FillTravelCosts();
    TravelCostAtForest(forest, 1.0);
    assert de.travel == [0, 0, 0, 0, 0];
    de.DynamicProgramming();
    lowest := de.LowestCost();
    assert de.Data() == FiveBags();
    FiveBagsOptimum();
  }

  /**
   * Bags 3, 9, 2, 3, 19 five km away at 0.1 liters per km (one liter of
   * travel each), a 20 liter budget and one drone charging 1 per bag: the
   * lowest cost is 2418.
   */
  method TravelSchedule() returns (lowest: Cost)
    ensures lowest == Fin(2418)
  {
    var forest, site := Point(0.0, 0.0), Point(3.0, 4.0);
    var de := new DroneExtinguisher(forest, [3, 9, 2, 3, 19], [site, site, site, site, site],
                                    0.1, 20, [[1], [1], [1], [1], [1]]);
    de.FillTravelCosts();
    TravelCostOneLiterExample();
    assert de.travel == [1, 1, 1, 1, 1];
    de.DynamicProgramming();
    lowest := de.LowestCost();
    assert de.Data() == FiveBagsPaidDrone();
    PaidDroneOptimum();
  }

  /** As TravelSchedule, with a third drone that charges nothing: the lowest cost is 2413. */
  method TravelScheduleThreeDrones() returns (lowest: Cost)
    ensures lowest == Fin(2413)
  {
    var forest, site := Point(0.0, 0.0), Point(3.0, 4.0);
    var de := new DroneExtinguisher(forest, [3, 9, 2, 3, 19], [site, site, site, site, site],
                                    0.1, 20, [[1, 1, 0], [1, 1, 0], [1, 1, 0], [1, 1, 0], [1, 1, 0]]);
    de.FillTravelCosts();
    TravelCostOneLiterExample();
    assert de.travel == [1, 1, 1, 1, 1];
    de.DynamicProgramming();
    lowest := de.LowestCost();
    assert de.Data() == FiveBagsThreeDrones();
    ThreeDronesOptimum();
  }
}
