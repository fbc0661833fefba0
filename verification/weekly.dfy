/**
  The weekly health report. The page draws a fresh seven-day sample at random
  on every request; here the sample is a parameter, so the report is a
  deterministic function of it.
 */
module Weekly {
  import Health

  const Days: nat := 7

  /** Water cups, steps and sleep hours per day, in day order. */
  datatype WeeklySample = WeeklySample(water: seq<int>, steps: seq<int>, sleep: seq<int>)

  /** Which of the three daily goals one day reached. */
  datatype DayGoals = DayGoals(metWater: bool, metSteps: bool, metSleep: bool)

  datatype WeeklyReport = WeeklyReport(
    dailyWater: seq<int>,
    totalSteps: int,
    averageSteps: int,
    goodSleepDays: nat,
    goals: seq<DayGoals>)

  /** Every sample the page builds has seven entries in each sequence. */
  predicate WellFormed(s: WeeklySample)
  {
    |s.water| == Days && |s.steps| == Days && |s.sleep| == Days
  }

  /**
    The ranges the random generator draws from: water 4 to 8 cups, steps 4000
    to 9999 and sleep 5 to 8 hours, each bound inclusive.
   */
  predicate Generated(s: WeeklySample)
  {
    WellFormed(s) &&
    (forall i :: 0 <= i < Days ==> 4 <= s.water[i] <= 8) &&
    (forall i :: 0 <= i < Days ==> 4000 <= s.steps[i] <= 9999) &&
    (forall i :: 0 <= i < Days ==> 5 <= s.sleep[i] <= 8)
  }

  /** Sum of a sequence, peeled from the end so a left-to-right loop extends it. */
  function Sum(xs: seq<int>): int
  {
    if |xs| == 0 then 0 else Sum(xs[..|xs| - 1]) + xs[|xs| - 1]
  }

  /** Number of entries that are at least `bound`, peeled from the end like `Sum`. */
  function CountAtLeast(xs: seq<int>, bound: int): nat
  {
    if |xs| == 0 then 0
    else CountAtLeast(xs[..|xs| - 1], bound) + (if xs[|xs| - 1] >= bound then 1 else 0)
  }

  /** The goal triple of day `i`, from that day's three entries only. */
  function GoalsOfDay(s: WeeklySample, i: nat): (g: DayGoals)
    requires WellFormed(s) && i < Days
    ensures g.metWater <==> s.water[i] >= 8
    ensures g.metSteps <==> s.steps[i] >= 10000
    ensures g.metSleep <==> s.sleep[i] >= 7
  {
    DayGoals(
      s.water[i] >= Health.WaterGoal,
      s.steps[i] >= Health.StepsGoal,
      s.sleep[i] >= Health.SleepGoal)
  }

  /** Math.round(total / 7): the integer nearest to the mean, a half rounding up. */
  function RoundedAverage(total: int): (avg: int)
    ensures 14 * avg - 7 <= 2 * total < 14 * avg + 7
  {
    (2 * total + 7) / 14
  }

  /**
    Builds the report with the page's loops: a while loop summing the steps,
    a loop counting days with at least 7 hours of sleep, and a loop over the
    days collecting each day's goal triple.
   */
  method BuildReport(s: WeeklySample) returns (r: WeeklyReport)
    requires WellFormed(s)
    ensures r.dailyWater == s.water
    ensures r.totalSteps == Sum(s.steps)
    ensures 14 * r.averageSteps - 7 <= 2 * r.totalSteps < 14 * r.averageSteps + 7
    ensures r.goodSleepDays == CountAtLeast(s.sleep, 7)
    ensures r.goodSleepDays <= Days
    ensures |r.goals| == Days
    ensures forall i :: 0 <= i < Days ==> r.goals[i] == GoalsOfDay(s, i)
  {
    var day := 0;
    var totalSteps := 0;
    while day < |s.steps|
      invariant 0 <= day <= |s.steps|
      invariant totalSteps == Sum(s.steps[..day])
    {
      assert s.steps[..day + 1][..day] == s.steps[..day];
      totalSteps := totalSteps + s.steps[day];
      day := day + 1;
    }
    assert s.steps[..day] == s.steps;

    var goodSleepDays := 0;
    var k := 0;
    while k < |s.sleep|
      invariant 0 <= k <= |s.sleep|
      invariant goodSleepDays == CountAtLeast(s.sleep[..k], 7)
    {
      assert s.sleep[..k + 1][..k] == s.sleep[..k];
      if s.sleep[k] >= Health.SleepGoal {
        goodSleepDays := goodSleepDays + 1;
      }
      k := k + 1;
    }
    assert s.sleep[..k] == s.sleep;
    CountAtMostLength(s.sleep, 7);

    var goals: seq<DayGoals> := [];
    var index := 0;
    while index < |s.water|
      invariant 0 <= index <= |s.water|
      invariant |goals| == index
      invariant forall i :: 0 <= i < index ==> goals[i] == GoalsOfDay(s, i)
    {
      goals := goals + [GoalsOfDay(s, index)];
      index := index + 1;
    }

    r := WeeklyReport(s.water, totalSteps, RoundedAverage(totalSteps), goodSleepDays, goals);
  }

  /** The count never exceeds the number of entries. */
  lemma {:induction false} CountAtMostLength(xs: seq<int>, bound: int)
    ensures CountAtLeast(xs, bound) <= |xs|
  {
    if |xs| > 0 {
      CountAtMostLength(xs[..|xs| - 1], bound);
    }
  }

  /** Entries within [lo, hi] sum to between |xs|*lo and |xs|*hi. */
  lemma {:induction false} SumBounds(xs: seq<int>, lo: int, hi: int)
    requires forall i :: 0 <= i < |xs| ==> lo <= xs[i] <= hi
    ensures |xs| * lo <= Sum(xs) <= |xs| * hi
  {
    if |xs| > 0 {
      var init := xs[..|xs| - 1];
      assert forall i :: 0 <= i < |init| ==> init[i] == xs[i];
      SumBounds(init, lo, hi);
      assert |xs| * lo == |init| * lo + lo;
      assert |xs| * hi == |init| * hi + hi;
    }
  }

  /** A day meets all three goals exactly when its entries would make a healthy record. */
  lemma DayGoalsMatchHealthyRule(s: WeeklySample, i: nat)
    requires WellFormed(s) && i < Days
    ensures (GoalsOfDay(s, i).metWater && GoalsOfDay(s, i).metSteps && GoalsOfDay(s, i).metSleep)
      <==> Health.MeetsAllGoals(s.water[i], s.steps[i], s.sleep[i])
  {
  }

  /** Generated steps stay below 10000, so no generated day reaches the steps goal. */
  lemma GeneratedNeverMeetsStepsGoal(s: WeeklySample)
    requires Generated(s)
    ensures forall i :: 0 <= i < Days ==> !GoalsOfDay(s, i).metSteps
    ensures forall i :: 0 <= i < Days ==> !Health.MeetsAllGoals(s.water[i], s.steps[i], s.sleep[i])
  {
  }

  /** Generated weeks total between 28000 and 69993 steps. */
  lemma GeneratedTotalStepsBounds(s: WeeklySample)
    requires Generated(s)
    ensures 28000 <= Sum(s.steps) <= 69993
  {
    SumBounds(s.steps, 4000, 9999);
  }

  /** Seven days of 5000 steps: 35000 in total, 5000 a day on average. */
  lemma UniformWeekExample()
    ensures Sum([5000, 5000, 5000, 5000, 5000, 5000, 5000]) == 35000
    ensures RoundedAverage(35000) == 5000
  {
    var xs := [5000, 5000, 5000, 5000, 5000, 5000, 5000];
    SumBounds(xs, 5000, 5000);
  }
}
