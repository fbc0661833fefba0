/**
  The metric formatters of the panel: each maps a metric value to an outcome.
  The outcome datatypes stand for the success and warning messages; every one
  carries the value it was computed from, as the messages do.
 */
module Metrics {
  import Health

  datatype WaterStatus = Hydrated(cups: int) | DrinkMoreWater(cups: int)

  datatype StepsStatus = StepGoalAchieved(steps: int) | KeepWalking(steps: int)

  datatype SleepStatus = GoodSleep(hours: int) | NotEnoughRest(hours: int) | TooMuchSleep(hours: int)

  datatype BmiCategory = Underweight | NormalWeight | Overweight | Obesity

  datatype BmiResult = InvalidWeightOrHeight | Bmi(value: real, category: BmiCategory)

  /** Water report: hydrated from 8 cups on, otherwise a reminder to drink. */
  function TrackWater(cups: int): (s: WaterStatus)
    ensures s.cups == cups
    ensures s.Hydrated? <==> cups >= 8
    ensures s.DrinkMoreWater? <==> cups < 8
  {
    if cups >= Health.WaterGoal then Hydrated(cups) else DrinkMoreWater(cups)
  }

  /** Steps report: goal achieved from 10000 steps on, otherwise keep walking. */
  function CheckSteps(steps: int): (s: StepsStatus)
    ensures s.steps == steps
    ensures s.StepGoalAchieved? <==> steps >= 10000
    ensures s.KeepWalking? <==> steps < 10000
  {
    if steps >= Health.StepsGoal then StepGoalAchieved(steps) else KeepWalking(steps)
  }

  /** Sleep report: good for 7 to 9 hours, too little below, too much above. */
  function EvaluateSleep(hours: int): (s: SleepStatus)
    ensures s.hours == hours
    ensures s.GoodSleep? <==> 7 <= hours <= 9
    ensures s.NotEnoughRest? <==> hours < 7
    ensures s.TooMuchSleep? <==> hours > 9
  {
    if hours >= 7 && hours <= 9 then GoodSleep(hours)
    else if hours < 7 then NotEnoughRest(hours)
    else TooMuchSleep(hours)
  }

  /** Sleep outcomes in the order of the hours they cover. */
  function SleepRank(s: SleepStatus): nat
  {
    match s
    case NotEnoughRest(_) => 0
    case GoodSleep(_) => 1
    case TooMuchSleep(_) => 2
  }

  /** More hours never move the sleep outcome back to a lower band. */
  lemma SleepBandsAreOrdered(h1: int, h2: int)
    requires h1 <= h2
    ensures SleepRank(EvaluateSleep(h1)) <= SleepRank(EvaluateSleep(h2))
  {
  }

  /**
    A consistent record is healthy exactly when the water and steps reports are
    the success outcomes and the sleep report is not "not enough rest". A
    healthy record can still be told it sleeps too much.
   */
  lemma HealthyIffFormattersAgree(r: Health.HealthRecord)
    requires Health.Consistent(r)
    ensures r.isHealthy <==>
      TrackWater(r.dailyWater).Hydrated? &&
      CheckSteps(r.dailySteps).StepGoalAchieved? &&
      !EvaluateSleep(r.sleepHours).NotEnoughRest?
  {
  }

  /** Ten hours of sleep with the other goals met: healthy, yet "too much sleep". */
  lemma HealthyWithTooMuchSleep()
    ensures Health.UpdateHealthStatus(Health.Number(8), Health.Number(10000), Health.Number(10)).isHealthy
    ensures EvaluateSleep(10).TooMuchSleep?
  {
  }

  // ---------------------------------------------------------------------------
  // Body mass index

  /** The half-open band of BMI values each category stands for. */
  predicate InBand(c: BmiCategory, bmi: real)
  {
    match c
    case Underweight => bmi < 18.5
    case NormalWeight => 18.5 <= bmi < 25.0
    case Overweight => 25.0 <= bmi < 30.0
    case Obesity => 30.0 <= bmi
  }

  /** Categories in the order of the BMI values they cover. */
  function BmiRank(c: BmiCategory): nat
  {
    match c
    case Underweight => 0
    case NormalWeight => 1
    case Overweight => 2
    case Obesity => 3
  }

  /** The category of a BMI value, tested from the lowest band upwards. */
  function Categorize(bmi: real): (c: BmiCategory)
    ensures InBand(c, bmi)
  {
    if bmi < 18.5 then Underweight
    else if bmi < 25.0 then NormalWeight
    else if bmi < 30.0 then Overweight
    else Obesity
  }

  /** The bands do not overlap: a value lies in the band of its category only. */
  lemma BandsPartitionTheLine(c: BmiCategory, bmi: real)
    ensures InBand(c, bmi) <==> c == Categorize(bmi)
  {
  }

  /** A larger BMI never yields a lower category. */
  lemma CategorizeIsMonotone(a: real, b: real)
    requires a <= b
    ensures BmiRank(Categorize(a)) <= BmiRank(Categorize(b))
  {
  }

  /**
    BMI = weight / height^2 for positive weight and height; a non-positive
    weight or height gives the invalid-input result instead.
   */
  function CalculateBmi(weight: real, height: real): (r: BmiResult)
    ensures r.InvalidWeightOrHeight? <==> weight <= 0.0 || height <= 0.0
    ensures r.Bmi? ==> r.value > 0.0 && r.value * (height * height) == weight
    ensures r.Bmi? ==> InBand(r.category, r.value)
  {
    if weight <= 0.0 || height <= 0.0 then InvalidWeightOrHeight
    else
      var bmi := weight / (height * height);
      Bmi(bmi, Categorize(bmi))
  }

  /** At a fixed height a heavier weight never yields a lower category. */
  lemma HeavierNeverLowerCategory(w1: real, w2: real, height: real)
    requires 0.0 < w1 <= w2
    requires height > 0.0
    ensures CalculateBmi(w1, height).Bmi? && CalculateBmi(w2, height).Bmi?
    ensures BmiRank(CalculateBmi(w1, height).category) <= BmiRank(CalculateBmi(w2, height).category)
  {
    PositiveSquare(height);
    DivideKeepsOrder(w1, w2, height * height);
    CategorizeIsMonotone(w1 / (height * height), w2 / (height * height));
  }

  /** The square of a positive height is positive. */
  lemma PositiveSquare(h: real)
    requires h > 0.0
    ensures h * h > 0.0
  {
  }

  /** Dividing by a positive number keeps the order. */
  lemma DivideKeepsOrder(a: real, b: real, c: real)
    requires a <= b && c > 0.0
    ensures a / c <= b / c
  {
  }

  /** Worked values: 70 kg at 1.75 m, 50 kg and 45 kg at 1.60 m, and the invalid inputs. */
  lemma BmiExamples()
    ensures CalculateBmi(70.0, 1.75).category == NormalWeight
    ensures CalculateBmi(50.0, 1.60).category == NormalWeight
    ensures CalculateBmi(45.0, 1.60).category == Underweight
    ensures CalculateBmi(0.0, 1.7).InvalidWeightOrHeight?
    ensures CalculateBmi(70.0, 0.0).InvalidWeightOrHeight?
  {
  }

  /** The boundary values 25 and 30 fall into the higher band. */
  lemma BandBoundariesGoUp()
    ensures Categorize(18.5) == NormalWeight
    ensures Categorize(25.0) == Overweight
    ensures Categorize(30.0) == Obesity
  {
  }

  // ---------------------------------------------------------------------------
  // Daily calories (Mifflin-St Jeor)

  /** Round half up to the nearest integer, as Math.round does. */
  function RoundHalfUp(x: real): (n: int)
    ensures n as real - 0.5 <= x < n as real + 0.5
  {
    (x + 0.5).Floor
  }

  /** The nearest integer, ties going up, is unique. */
  lemma RoundHalfUpIsUnique(x: real, n: int)
    requires n as real - 0.5 <= x < n as real + 0.5
    ensures RoundHalfUp(x) == n
  {
  }

  /** Base metabolic rate; height is given in metres and converted to centimetres. */
  function BaseCalories(weight: real, height: real, age: real, isMale: bool): real
  {
    if isMale then 10.0 * weight + 6.25 * height * 100.0 - 5.0 * age + 5.0
    else 10.0 * weight + 6.25 * height * 100.0 - 5.0 * age - 161.0
  }

  /** Estimated daily calories: the base rate scaled by the activity factor, rounded. */
  function CalculateCalories(weight: real, height: real, age: real, isMale: bool, activity: real): (kcal: int)
    ensures kcal as real - 0.5 <= BaseCalories(weight, height, age, isMale) * activity
    ensures BaseCalories(weight, height, age, isMale) * activity < kcal as real + 0.5
  {
    RoundHalfUp(BaseCalories(weight, height, age, isMale) * activity)
  }

  /** With a positive activity factor, a heavier weight never lowers the estimate. */
  lemma CaloriesGrowWithWeight(w1: real, w2: real, height: real, age: real, isMale: bool, activity: real)
    requires w1 <= w2 && activity > 0.0
    ensures CalculateCalories(w1, height, age, isMale, activity) <= CalculateCalories(w2, height, age, isMale, activity)
  {
  }

  /** 68 kg, 1.7 m, 30 years, male, activity 1.5: base 1597.5, so 2396 kcal. */
  lemma CaloriesExample()
    ensures BaseCalories(68.0, 1.7, 30.0, true) == 1597.5
    ensures CalculateCalories(68.0, 1.7, 30.0, true, 1.5) == 2396
  {
    assert BaseCalories(68.0, 1.7, 30.0, true) * 1.5 == 2396.25;
    RoundHalfUpIsUnique(2396.25, 2396);
  }
}
