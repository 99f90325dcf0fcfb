/**
 * `read_package` of homework.py: the dispatcher from a sensor package (a
 * workout code and a list of readings) to a workout.
 */
module Packages {

  import opened Wrappers
  import opened Trainings

  /** The codes of `workout_classes`. */
  predicate KnownCode(code: string)
  {
    code == "SWM" || code == "RUN" || code == "WLK"
  }

  /** How many readings the constructor of the code's class takes. */
  function Arity(code: string): nat
  {
    if code == "SWM" then 5 else if code == "RUN" then 3 else if code == "WLK" then 4 else 0
  }

  /** The code a workout is sent under. */
  function Code(w: Workout): string
  {
    match w
    case Swimming(_, _, _, _, _) => "SWM"
    case Running(_, _, _) => "RUN"
    case SportsWalking(_, _, _, _) => "WLK"
  }

  /** The readings of a workout, in the order of its constructor's parameters. */
  function Fields(w: Workout): seq<real>
  {
    match w
    case Running(a, d, m) => [a, d, m]
    case SportsWalking(a, d, m, h) => [a, d, m, h]
    case Swimming(a, d, m, l, c) => [a, d, m, l, c]
  }

  /** The message of the `ValueError` raised for an unknown code. */
  function UnknownTypeMessage(code: string): string
  {
    "Unknown workout type: " + code
  }

  /**
   * `read_package`: a known code builds its class from `data`, taken in order;
   * any other code fails with a message that ends with that code. A list of
   * the wrong length (Python's TypeError) is excluded by the precondition.
   */
  function ReadPackage(workoutType: string, data: seq<real>): (r: Result<Workout, string>)
    requires KnownCode(workoutType) ==> |data| == Arity(workoutType)
    ensures r.Success? <==> KnownCode(workoutType)
    ensures r.Success? ==> Code(r.value) == workoutType && Fields(r.value) == data
    ensures r.Failure? ==> r.error == "Unknown workout type: " + workoutType
    ensures r.Failure? ==>
              |r.error| >= |workoutType| && r.error[|r.error| - |workoutType|..] == workoutType
  {
    if workoutType == "SWM" then
      Success(Swimming(data[0], data[1], data[2], data[3], data[4]))
    else if workoutType == "RUN" then
      Success(Running(data[0], data[1], data[2]))
    else if workoutType == "WLK" then
      Success(SportsWalking(data[0], data[1], data[2], data[3]))
    else
      Failure(UnknownTypeMessage(workoutType))
  }

  /** Every workout is read back from its own code and readings. */
  lemma ReadPackageRoundTrip(w: Workout)
    ensures KnownCode(Code(w)) && |Fields(w)| == Arity(Code(w))
    ensures ReadPackage(Code(w), Fields(w)) == Success(w)
  {
  }

  /** The three sample packages of the program's entry point and an unknown code. */
  lemma SamplePackages()
    ensures ReadPackage("SWM", [720.0, 1.0, 80.0, 25.0, 40.0]) == Success(Swimming(720.0, 1.0, 80.0, 25.0, 40.0))
    ensures ReadPackage("RUN", [15000.0, 1.0, 75.0]) == Success(Running(15000.0, 1.0, 75.0))
    ensures ReadPackage("WLK", [9000.0, 1.0, 75.0, 180.0]) == Success(SportsWalking(9000.0, 1.0, 75.0, 180.0))
    ensures ReadPackage("XYZ", []) == Failure("Unknown workout type: XYZ")
  {
    assert UnknownTypeMessage("XYZ") == "Unknown workout type: XYZ";
  }
}
