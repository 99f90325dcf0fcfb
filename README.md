# Fitness-tracker calculator (homework.py), modelled in Dafny

homework.py turns raw sensor readings into a one-line workout summary. A
package holds a workout code (`'SWM'`, `'RUN'` or `'WLK'`) and a list of
readings. `read_package` builds the matching workout class (`Swimming`,
`Running`, `SportsWalking`). `show_training_info` computes distance (km),
mean speed (km/h) and calories (kcal) into an `InfoMessage`. `main` renders
that message and prints it unless it equals the message printed last.

The model:

- `wrappers.dfy` (module `Wrappers`): `Option` and `Result`, standing for
  Python's `None` and for raised exceptions.
- `info_messages.dfy` (module `InfoMessages`): the `InfoMessage` record and
  `get_message`, with the `:.3f` number rendering passed in as a function
  `fmt3` about which nothing is assumed.
- `trainings.dfy` (module `Trainings`): the class hierarchy becomes one
  datatype `Workout` with a constructor per subclass; the per-class
  overrides become `match`es in `Distance`, `MeanSpeed` and `Calories`.
  All readings are `real`, so every formula is exact.
- `packages.dfy` (module `Packages`): `read_package` as a function returning
  `Result<Workout, string>`.
- `driver.dfy` (module `Driver`): `main` and the module-global
  `previous_message` become a class `Reporter` whose field `output` collects
  the printed lines. Its method `Report` (Python's `main`) is proved against the function
  `Printed`, which gives the lines printed for any sequence of messages.

Points of homework.py the model keeps as they are:

- A swim's distance is stroke-based. `Swimming` overrides `LEN_STEP` to
  1.38 (homework.py:112), so `get_distance` gives strokes × 1.38 / 1000.
  Only the mean speed uses pool length × pool count (homework.py:127-130).
  For the sample swim the `InfoMessage` therefore carries a distance of
  0.9936 km with a speed of 1.0 km/h over 1 h (`Trainings.SampleSummaries`).
- homework.py validates no reading. A zero duration (or, for a walk, a zero
  height) raises `ZeroDivisionError`; the model makes these preconditions
  (`Trainings.Computable`). The sign lemmas take the hypotheses each formula
  needs, such as a positive duration and non-negative weight
  (`Trainings.Plausible` gathers them for all variants).
- The walking calories are (0.035 × weight + (speed × 0.278)² / (height / 100)
  × 0.029 × weight) × duration × 60, with speed in km/h (homework.py:100-107).

## Model

| member | source | states |
|---|---|---|
| `Trainings.Distance` | homework.py:45-48 | Distance is non-negative for a non-negative step/stroke count and positive for a positive one |
| `Trainings.ActionFromDistance` | homework.py:45-48 | The count is recovered from the distance as distance × 1000 / `LEN_STEP`, with `LEN_STEP` 1.38 for a swim (the override) and 0.65 otherwise |
| `Trainings.DistanceAdditive` | homework.py:45-48 | Distance is additive in the step/stroke count |
| `Trainings.MeanSpeed` | homework.py:50-53 | For a run or walk, speed × duration equals the distance; for a swim, speed × duration × 1000 equals pool length × pool count; non-negative for a plausible reading; defined only for non-zero duration |
| `Trainings.MeanSpeedNonNegative` | homework.py:50-53 | Mean speed is non-negative for a plausible reading |
| `Trainings.SwimmingSpeedIgnoresAction` | homework.py:127-130 | Two swims that differ only in stroke count have the same mean speed |
| `Trainings.Calories` | homework.py:65-139 | Calories, selected by the workout's class, are non-negative for every plausible reading; defined only for non-zero duration and, for a walk, non-zero height |
| `Trainings.RunningCaloriesClosedForm` | homework.py:65-73 | Running calories equal 0.06 × weight × (0.0117 × steps + 1.79 × hours) |
| `Trainings.RunningCaloriesNonNegative` | homework.py:65-73 | Running calories are non-negative for non-negative steps and weight and positive duration |
| `Trainings.WalkingCaloriesClosedForm` | homework.py:100-107 | Walking calories equal 60 × weight × (0.035 × hours + 2.9 × (0.0001807 × steps)² / (height × hours)) |
| `Trainings.WalkingCaloriesNonNegative` | homework.py:100-107 | Walking calories are non-negative for positive height and duration and non-negative weight, whatever the step count |
| `Trainings.SwimmingCaloriesClosedForm` | homework.py:132-139 | Swimming calories equal 2 × weight × (pool length × pool count / 1000 + 1.1 × hours) |
| `Trainings.SwimmingCaloriesNonNegative` | homework.py:132-139 | Swimming calories are non-negative for non-negative pool sizes and weight and positive duration, whatever the stroke count |
| `Trainings.CaloriesNonNegative` | homework.py:65-139 | Calories of every plausible workout, whatever its class, are non-negative |
| `Trainings.TypeName` | homework.py:42-43 | The class name put in the summary contains no ';' |
| `Trainings.TypeNameInjective` | homework.py:42-43 | Two workouts get the same class name in their summary iff they are of the same class |
| `Trainings.ShowTrainingInfo` | homework.py:37-43 | The summary carries the workout's class name and duration; for a run or walk speed × duration equals the distance; for a plausible reading distance, speed and calories are non-negative |
| `Trainings.InfoNonNegative` | homework.py:37-43 | For a plausible reading the summary's duration is positive and its distance, speed and calories are non-negative |
| `Trainings.MessageIdentifiesKind` | homework.py:11-18 | Workouts of different classes never render the same message, whatever the number format |
| `Trainings.SampleSummaries` | homework.py:179-183 | The sample swim, run and walk give (0.9936 km, 1.0 km/h, 336 kcal), (9.75 km, 9.75 km/h, 797.805 kcal) and (5.85 km, 5.85 km/h, 349.251747525 kcal) |
| `InfoMessages.GetMessage` | homework.py:11-18 | The message starts with the type label followed by the training type, then ';', and ends with '.' |
| `InfoMessages.MessageDeterminesType` | homework.py:11-18 | Equal messages carry equal training types when the type names contain no ';' |
| `Packages.ReadPackage` | homework.py:150-162 | Succeeds iff the code is 'SWM', 'RUN' or 'WLK'; on success the workout's code is the given one and its fields are `data` in order; otherwise the error is exactly "Unknown workout type: " followed by the code |
| `Packages.ReadPackageRoundTrip` | homework.py:150-160 | Every workout is read back unchanged from its own code and field list |
| `Packages.SamplePackages` | homework.py:179-186 | The three sample packages build the expected workouts and 'XYZ' fails with "Unknown workout type: XYZ" |
| `Driver.Printed` | homework.py:165-175 | `main` prints at most as many lines as it is given messages, and only messages it was given |
| `Driver.PrintedSnoc` | homework.py:168-175 | One more call prints its message exactly when it differs from the last message given |
| `Driver.PrintedNoAdjacentDuplicates` | homework.py:168-175 | No printed line equals the line printed just before it, and the first differs from the remembered message |
| `Driver.PrintedAllWhenNoRepeats` | homework.py:168-175 | A run of messages in which none repeats the one before is printed in full |
| `Driver.RepeatPrintedOnce` | homework.py:168-175 | Giving the same message twice in a row prints it at most once |
| `Driver.Reporter.constructor` | homework.py:165 | At the start the previous message is None and nothing has been printed |
| `Driver.Reporter.Message` | homework.py:171-172 | The line rendered for a workout opens with the type label followed by the workout's class name |
| `Driver.Reporter.Report` | homework.py:168-175 | Prints iff the message differs from the previous one; afterwards the previous message is this message; output grows by exactly the printed line |

## Left out

- IEEE-754 rounding: every quantity is an exact `real`; Python computes the same expressions in floating point.
- The `:.3f` rendering in `get_message`: it is the parameter `fmt3` of `InfoMessages.GetMessage`, so no property depends on how numbers are printed.
- `display_message` and `print`: printing is modelled as appending to `Driver.Reporter.output`.
- The `__main__` block (the sample list and the loop over it): driver glue; its three samples appear only in `Trainings.SampleSummaries` and `Packages.SamplePackages`.
- `Training.get_spent_calories` of the base class returns `None`; no workout of the base class can be built through `read_package`, so the datatype has no constructor for it.
- `LEN_STROKE` is declared but never used.
- The `int`/`float` annotations of the constructors: Python does not enforce them and `read_package` passes whatever numbers it is given, so every reading is a `real`.
- A package whose list has the wrong length raises `TypeError` in Python; `Packages.ReadPackage` requires the right length instead.
- A zero duration, or a zero height for a walk, raises `ZeroDivisionError` in Python; `Trainings.MeanSpeed` and `Trainings.Calories` require them non-zero instead.
