/**
 * The workout variants of homework.py (`Running`, `SportsWalking`, `Swimming`)
 * and their distance, mean-speed and calorie formulas.
 *
 * Every reading is a `real`: the formulas are built from short decimal
 * constants only, so each one is an exact rational expression. Python's
 * floating-point rounding is not modelled.
 */
module Trainings {

  import opened InfoMessages

  // Class constants of `Training` and its subclasses.
  const LenStep: real := 0.65             // Training.LEN_STEP, metres per step
  const SwimLenStep: real := 1.38         // Swimming.LEN_STEP, overrides LenStep
  const MInKm: real := 1000.0             // Training.M_IN_KM
  const MinInH: real := 60.0              // Training.MIN_IN_H
  const RunSpeedMultiplier: real := 18.0  // Running.CALORIES_MEAN_SPEED_MULTIPLIER
  const RunSpeedShift: real := 1.79       // Running.CALORIES_MEAN_SPEED_SHIFT
  const WalkWeightFactor: real := 0.035   // SportsWalking.Konst_1
  const CmInM: real := 100.0              // SportsWalking.M
  const WalkSpeedFactor: real := 0.029    // SportsWalking.Konst_2
  const WalkMinInH: real := 60.0          // SportsWalking.Konst_3
  const KmhInMs: real := 0.278            // SportsWalking.KM_H, km/h to m/s
  const SwimSpeedShift: real := 1.1       // Swimming.Konst_1
  const SwimWeightFactor: real := 2.0     // Swimming.Konst_2

  /**
   * One workout, as constructed by a subclass of `Training`.
   * `action` counts steps (Running, SportsWalking) or strokes (Swimming);
   * `duration` is in hours, `weight` in kg, `height` in cm,
   * `lengthPool` in metres and `countPool` counts pool lengths.
   */
  datatype Workout =
    | Running(action: real, duration: real, weight: real)
    | SportsWalking(action: real, duration: real, weight: real, height: real)
    | Swimming(action: real, duration: real, weight: real, lengthPool: real, countPool: real)

  /** The class attribute `LEN_STEP` seen by the workout's class. */
  function StepLength(w: Workout): real
  {
    if w.Swimming? then SwimLenStep else LenStep
  }

  /**
   * What the source needs to compute a summary without a ZeroDivisionError:
   * a non-zero duration, and for a walk a non-zero height.
   */
  predicate Computable(w: Workout)
  {
    w.duration != 0.0 && (w.SportsWalking? ==> w.height != 0.0)
  }

  /** A physically meaningful reading: the hypothesis of the sign lemmas below. */
  predicate Plausible(w: Workout)
  {
    && w.action >= 0.0 && w.duration > 0.0 && w.weight >= 0.0
    && (w.SportsWalking? ==> w.height > 0.0)
    && (w.Swimming? ==> w.lengthPool >= 0.0 && w.countPool >= 0.0)
  }

  /** `Training.get_distance`: distance in km covered by `action` steps or strokes. */
  function Distance(w: Workout): (r: real)
    ensures w.action >= 0.0 ==> r >= 0.0
    ensures w.action > 0.0 ==> r > 0.0
  {
    w.action * StepLength(w) / MInKm
  }

  /**
   * `Training.get_mean_speed`, overridden by `Swimming.get_mean_speed`: mean
   * speed in km/h. Running and walking cover `Distance(w)` in `duration`
   * hours; a swim covers `countPool` lengths of `lengthPool` metres instead.
   */
  function MeanSpeed(w: Workout): (r: real)
    requires w.duration != 0.0
    ensures !w.Swimming? ==> r * w.duration == Distance(w)
    ensures w.Swimming? ==> r * w.duration * MInKm == w.lengthPool * w.countPool
    ensures Plausible(w) ==> r >= 0.0
  {
    match w
    case Swimming(_, duration, _, lengthPool, countPool) =>
      lengthPool * countPool / MInKm / duration
    case _ =>
      Distance(w) / w.duration
  }

  /**
   * `get_spent_calories` of `Running`, `SportsWalking` and `Swimming`:
   * the energy spent, in kcal.
   */
  function Calories(w: Workout): (r: real)
    requires Computable(w)
    ensures Plausible(w) ==> r >= 0.0
  {
    match w
    case Running(_, duration, weight) =>
      var perKg := RunSpeedMultiplier * MeanSpeed(w) + RunSpeedShift;
      assert Plausible(w) ==> perKg * weight >= 0.0;
      perKg * weight / MInKm * (duration * MinInH)
    case SportsWalking(_, duration, weight, height) =>
      var speedMs := MeanSpeed(w) * KmhInMs;
      var perKg := WalkWeightFactor + (speedMs * speedMs / (height / CmInM)) * WalkSpeedFactor;
      assert Plausible(w) ==> speedMs * speedMs / (height / CmInM) >= 0.0;
      assert Plausible(w) ==> perKg * weight >= 0.0;
      (WalkWeightFactor * weight + (speedMs * speedMs / (height / CmInM)) * WalkSpeedFactor * weight)
        * duration * WalkMinInH
    case Swimming(_, duration, weight, _, _) =>
      assert Plausible(w) ==> (MeanSpeed(w) + SwimSpeedShift) * SwimWeightFactor * weight >= 0.0;
      (MeanSpeed(w) + SwimSpeedShift) * SwimWeightFactor * weight * duration
  }

  /** The number of steps or strokes is recovered from the distance: `Distance` loses nothing. */
  lemma ActionFromDistance(w: Workout)
    ensures w.action == Distance(w) * MInKm / StepLength(w)
  {
  }

  /** Distance grows with the number of steps or strokes, and is additive in it. */
  lemma DistanceAdditive(w: Workout, more: real)
    ensures Distance(w.(action := w.action + more)) == Distance(w) + Distance(w.(action := more))
  {
  }

  /** Mean speed is non-negative for a plausible reading, swims included. */
  lemma MeanSpeedNonNegative(w: Workout)
    requires Plausible(w)
    ensures MeanSpeed(w) >= 0.0
  {
  }

  /** A swim's mean speed depends on the pool only: the stroke count does not enter it. */
  lemma SwimmingSpeedIgnoresAction(w: Workout, strokes: real)
    requires w.Swimming? && w.duration != 0.0
    ensures MeanSpeed(Swimming(strokes, w.duration, w.weight, w.lengthPool, w.countPool)) == MeanSpeed(w)
  {
    assert MeanSpeed(w) == w.lengthPool * w.countPool / MInKm / w.duration;
  }

  /**
   * Running calories in closed form: the duration cancels out of the speed term,
   * so a run costs 0.06 * weight * (0.0117 * steps + 1.79 * hours) kcal.
   */
  lemma RunningCaloriesClosedForm(w: Workout)
    requires w.Running? && w.duration != 0.0
    ensures Calories(w) == 0.06 * w.weight * (0.0117 * w.action + 1.79 * w.duration)
  {
  }

  /**
   * Swimming calories in closed form: 2 * weight * (pool distance in km + 1.1 * hours).
   */
  lemma SwimmingCaloriesClosedForm(w: Workout)
    requires w.Swimming? && w.duration != 0.0
    ensures Calories(w) == 2.0 * w.weight * (w.lengthPool * w.countPool / MInKm + 1.1 * w.duration)
  {
  }

  /**
   * Walking calories in closed form: with the speed in m/s equal to
   * 0.0001807 * steps / hours, a walk costs
   * 60 * weight * (0.035 * hours + 2.9 * (0.0001807 * steps)^2 / (height * hours)) kcal.
   */
  lemma WalkingCaloriesClosedForm(w: Workout)
    requires w.SportsWalking? && w.duration != 0.0 && w.height != 0.0
    ensures var k := 0.0001807 * w.action;
      Calories(w) == 60.0 * w.weight * (0.035 * w.duration + 2.9 * (k * k) / (w.height * w.duration))
  {
  }

  /** Running calories are non-negative for a plausible reading. */
  lemma RunningCaloriesNonNegative(w: Workout)
    requires w.Running? && Plausible(w)
    ensures Calories(w) >= 0.0
  {
  }

  /** Walking calories are non-negative for positive duration and height, whatever the step count. */
  lemma WalkingCaloriesNonNegative(w: Workout)
    requires w.SportsWalking? && w.duration > 0.0 && w.weight >= 0.0 && w.height > 0.0
    ensures Calories(w) >= 0.0
  {
  }

  /** Swimming calories are non-negative for non-negative pool sizes, whatever the stroke count. */
  lemma SwimmingCaloriesNonNegative(w: Workout)
    requires w.Swimming? && w.duration > 0.0 && w.weight >= 0.0 && w.lengthPool >= 0.0 && w.countPool >= 0.0
    ensures Calories(w) >= 0.0
  {
  }

  /** Calories of any plausible reading are non-negative. */
  lemma CaloriesNonNegative(w: Workout)
    requires Plausible(w)
    ensures Calories(w) >= 0.0
  {
  }

  /** `self.__class__.__name__`: the name the summary gives the workout. */
  function TypeName(w: Workout): (name: string)
    ensures ';' !in name
  {
    match w
    case Running(_, _, _) => "Running"
    case SportsWalking(_, _, _, _) => "SportsWalking"
    case Swimming(_, _, _, _, _) => "Swimming"
  }

  /** Different kinds of workout carry different names. */
  lemma TypeNameInjective(v: Workout, w: Workout)
    ensures TypeName(v) == TypeName(w) <==> v.Running? == w.Running? && v.Swimming? == w.Swimming?
  {
  }

  /**
   * `show_training_info`: the summary of a workout. Its duration is the
   * reading's and its numbers come from the formulas of the workout's class.
   */
  function ShowTrainingInfo(w: Workout): (info: InfoMessage)
    requires Computable(w)
    ensures info.trainingType == TypeName(w) && info.duration == w.duration
    ensures !w.Swimming? ==> info.speed * info.duration == info.distance
    ensures Plausible(w) ==> info.distance >= 0.0 && info.speed >= 0.0 && info.calories >= 0.0
  {
    InfoMessage(TypeName(w), w.duration, Distance(w), MeanSpeed(w), Calories(w))
  }

  /** For a plausible reading, every number of the summary is non-negative. */
  lemma InfoNonNegative(w: Workout)
    requires Plausible(w)
    ensures var info := ShowTrainingInfo(w);
      info.duration > 0.0 && info.distance >= 0.0 && info.speed >= 0.0 && info.calories >= 0.0
  {
  }

  /**
   * The printed line tells the kind of workout apart: workouts of different
   * kinds never produce the same message, whatever `fmt3` renders.
   */
  lemma MessageIdentifiesKind(v: Workout, w: Workout, fmt3: real -> string)
    requires Computable(v) && Computable(w)
    requires GetMessage(ShowTrainingInfo(v), fmt3) == GetMessage(ShowTrainingInfo(w), fmt3)
    ensures v.Running? == w.Running? && v.SportsWalking? == w.SportsWalking? && v.Swimming? == w.Swimming?
  {
  }

  /** The three sample readings of the program's entry point, worked out exactly. */
  lemma SampleSummaries()
    ensures ShowTrainingInfo(Swimming(720.0, 1.0, 80.0, 25.0, 40.0))
         == InfoMessage("Swimming", 1.0, 0.9936, 1.0, 336.0)
    ensures ShowTrainingInfo(Running(15000.0, 1.0, 75.0))
         == InfoMessage("Running", 1.0, 9.75, 9.75, 797.805)
    ensures ShowTrainingInfo(SportsWalking(9000.0, 1.0, 75.0, 180.0))
         == InfoMessage("SportsWalking", 1.0, 5.85, 5.85, 349.251747525)
  {
  }
}
