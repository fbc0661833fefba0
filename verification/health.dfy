/**
  The health record the tracker panel keeps: today's water, steps and sleep,
  and the derived "overall healthy" flag that is recomputed from the three
  whenever the metrics are updated.
 */
module Health {

  /** Daily goals used by the healthy rule, the formatters and the weekly report. */
  const WaterGoal: int := 8
  const StepsGoal: int := 10000
  const SleepGoal: int := 7

  /** One metric field as read from a text input: a number, or a failed parse. */
  datatype ParsedInt = NotANumber | Number(value: int)

  datatype HealthRecord = HealthRecord(
    dailyWater: int,
    dailySteps: int,
    sleepHours: int,
    isHealthy: bool)

  /** The record the page starts with, before the first update. */
  const InitialRecord: HealthRecord := HealthRecord(6, 8500, 7, false)

  /** A parse failure becomes 0; a parsed number is kept as it is. */
  function OrZero(p: ParsedInt): int
  {
    match p
    case NotANumber => 0
    case Number(v) => v
  }

  /** The healthy rule: every one of the three daily goals is reached. */
  predicate MeetsAllGoals(water: int, steps: int, sleep: int)
  {
    water >= WaterGoal && steps >= StepsGoal && sleep >= SleepGoal
  }

  /** The flag agrees with the three metrics it is derived from. */
  predicate Consistent(r: HealthRecord)
  {
    r.isHealthy == MeetsAllGoals(r.dailyWater, r.dailySteps, r.sleepHours)
  }

  /** Store the three parsed inputs and recompute the healthy flag. */
  function UpdateHealthStatus(water: ParsedInt, steps: ParsedInt, sleep: ParsedInt): (r: HealthRecord)
    ensures Consistent(r)
    ensures water.NotANumber? ==> r.dailyWater == 0
    ensures steps.NotANumber? ==> r.dailySteps == 0
    ensures sleep.NotANumber? ==> r.sleepHours == 0
    ensures water.Number? ==> r.dailyWater == water.value
    ensures steps.Number? ==> r.dailySteps == steps.value
    ensures sleep.Number? ==> r.sleepHours == sleep.value
  {
    var w := OrZero(water);
    var s := OrZero(steps);
    var h := OrZero(sleep);
    HealthRecord(w, s, h, MeetsAllGoals(w, s, h))
  }

  /** The record the page starts with already has a consistent flag. */
  lemma InitialRecordConsistent()
    ensures Consistent(InitialRecord)
    ensures !InitialRecord.isHealthy
  {
  }

  /** A consistent record is healthy exactly when all three thresholds are met. */
  lemma HealthyIffAllThresholds(r: HealthRecord)
    requires Consistent(r)
    ensures r.isHealthy <==> r.dailyWater >= 8 && r.dailySteps >= 10000 && r.sleepHours >= 7
  {
  }

  /** Entering any single metric below its goal makes the update unhealthy, whatever the other two are. */
  lemma OneFieldBelowGoalIsUnhealthy(water: ParsedInt, steps: ParsedInt, sleep: ParsedInt, v: int)
    ensures v < 8 ==> !UpdateHealthStatus(Number(v), steps, sleep).isHealthy
    ensures v < 10000 ==> !UpdateHealthStatus(water, Number(v), sleep).isHealthy
    ensures v < 7 ==> !UpdateHealthStatus(water, steps, Number(v)).isHealthy
  {
  }

  /** Raising any field never turns a healthy record unhealthy. */
  lemma HealthyIsMonotone(w: int, s: int, h: int, w': int, s': int, h': int)
    requires MeetsAllGoals(w, s, h)
    requires w <= w' && s <= s' && h <= h'
    ensures MeetsAllGoals(w', s', h')
  {
  }

  /** A field that fails to parse reads as zero, so the record is never healthy. */
  lemma UnparsedInputIsUnhealthy(water: ParsedInt, steps: ParsedInt, sleep: ParsedInt)
    requires water.NotANumber? || steps.NotANumber? || sleep.NotANumber?
    ensures !UpdateHealthStatus(water, steps, sleep).isHealthy
  {
  }

  /** The boundary values of the three thresholds. */
  lemma ThresholdBoundaries()
    ensures !UpdateHealthStatus(Number(7), Number(10000), Number(7)).isHealthy
    ensures UpdateHealthStatus(Number(8), Number(10000), Number(7)).isHealthy
    ensures UpdateHealthStatus(Number(9), Number(10001), Number(8)).isHealthy
    ensures !UpdateHealthStatus(Number(8), Number(9999), Number(7)).isHealthy
    ensures !UpdateHealthStatus(Number(8), Number(10000), Number(6)).isHealthy
  {
  }
}
