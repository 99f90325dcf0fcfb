/**
 * `InfoMessage` of homework.py: the summary of one workout and its one-line
 * rendering. Rendering a float with `:.3f` is not modelled; it is the
 * parameter `fmt3` of `GetMessage`, about which nothing is assumed.
 */
module InfoMessages {

  /** The record built by `show_training_info`. */
  datatype InfoMessage = InfoMessage(
    trainingType: string,
    duration: real,
    distance: real,
    speed: real,
    calories: real)

  // The fixed text around the five fields of the message.
  const TypeLabel: string := "Тип тренировки: "
  const DurationLabel: string := "; Длительность: "
  const DistanceLabel: string := " ч.; Дистанция: "
  const SpeedLabel: string := " км; Ср. скорость: "
  const CaloriesLabel: string := " км/ч; Потрачено ккал: "
  const Period: string := "."

  /** `InfoMessage.get_message`, with `fmt3` standing for the `:.3f` format. */
  function GetMessage(info: InfoMessage, fmt3: real -> string): (m: string)
    ensures |m| > |TypeLabel| + |info.trainingType|
    ensures m[..|TypeLabel|] == TypeLabel
    ensures m[|TypeLabel|..|TypeLabel| + |info.trainingType|] == info.trainingType
    ensures m[|TypeLabel| + |info.trainingType|] == ';'
    ensures m[|m| - 1] == '.'
  {
    TypeLabel + info.trainingType
    + DurationLabel + fmt3(info.duration)
    + DistanceLabel + fmt3(info.distance)
    + SpeedLabel + fmt3(info.speed)
    + CaloriesLabel + fmt3(info.calories)
    + Period
  }

  /**
   * The message names its workout type unambiguously: two messages that are
   * equal, however their numbers are rendered, carry the same training type
   * as long as no type name contains ';'.
   */
  lemma MessageDeterminesType(a: InfoMessage, f: real -> string, b: InfoMessage, g: real -> string)
    requires ';' !in a.trainingType && ';' !in b.trainingType
    requires GetMessage(a, f) == GetMessage(b, g)
    ensures a.trainingType == b.trainingType
  {
  }
}
