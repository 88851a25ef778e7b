# Fitness interval timer — a Dafny model

This project models the logic of a browser fitness interval timer. A workout is a list
of exercises, each with a work time and a rest time in seconds. It runs for a number of
rounds, with a break between rounds.

The model covers five parts of the program:

- **The timer screen's phase engine** (`timer.dfy`, class `Timer.Engine`). Its state is
  the exercise index, the phase (work, rest or round break), the round, the time left,
  and the running, complete and countdown flags. Four things drive it:
  - a once-per-second tick;
  - ArrowRight, which skips forward;
  - ArrowLeft, which skips back;
  - Space, which pauses or resumes, or restarts a finished workout.

  Each method overwrites the fields as the source does, and sounds are appended to a cue
  log. Each method's contract ties the new state to a pure step function (`TickStep`,
  `ForwardStep`, `BackStep`, `SpaceStep`). Those functions share two transitions:
  `Advance`, which ends a phase, and `Retreat`, which steps back. The engine invariant
  `StateValid` holds after every operation. It says:
  - the index is in range;
  - the round is between 1 and `LastRound`, which is `rounds || 1`, or 1 when the stored
    round count is negative;
  - a round break only happens after the last exercise of a round that is not the final
    one;
  - the last exercise's rest only happens when another round follows;
  - a finished workout is not running;
  - while the pre-roll countdown is shown the workout is neither running nor finished.
- **The whole run** (`schedule.dfy`). `Run` applies n ticks. The lemmas give the exact
  number of ticks a workout takes and compare it with the estimate the configuration
  screen shows.
- **The pre-roll countdown** (`countdown.dfy`, class `Countdown.PreRoll`). It counts
  3, 2, 1, 0 and requests a sound at each step.
- **The configuration screen** (`config.dfy`): the total-time estimate and how it is
  displayed, adding, editing and removing exercises, the fallbacks of the number inputs,
  and the start guard.
- **The saved-workout list** (`workout_list.dfy`) and **the application shell**
  (`app.dfy`, class `App.Shell`). The shell restores the stored configuration and
  switches between the configuration screen and the timer screen.

Shared vocabulary is in `workout.dfy`: exercises, configurations, cues, and
JavaScript's `x || fallback` on numbers (`Or`; 0 is replaced, every other value is
kept). `decimal.dfy` prints numbers as JavaScript template strings do.

Behaviour of the code that the model keeps as written:

- A finished workout does not always show 0 seconds left. The tick sets 0 when it
  finishes the workout, but skip-forward on the last phase finishes it and keeps the time
  left (`src/components/TimerScreen.tsx:162-167`, 188-193;
  `SkipForwardIsSilentPhaseEnd` states this).
- Space on a finished workout restarts it (`src/components/TimerScreen.tsx:140-141`), as
  ArrowRight and ArrowLeft do.
- A negative round count can be stored, because `parseInt("-3") || 1` is -3. The engine
  then runs a single round, while the estimate is negative
  (`Schedule.NegativeRoundsRunOnce`, `Schedule.NegativeRoundsEstimate`). `LastRound` is
  the round bound the engine actually reaches.

Two consequences of the code as written:

- The engine's "complete after the last rest" branch can never run. This is in the tick,
  `src/components/TimerScreen.tsx:95-101`, and in skip-forward, lines 188-193. The rest
  of the last exercise is entered only when another round follows. The pure `Advance`
  keeps the branch. In the methods it is an `assert false` that the invariant proves
  unreachable.
- The total-time estimate counts the last exercise's rest, which the engine never runs,
  and counts a missing break as 0 where the engine uses 30. `Schedule.WorkoutLength`
  states the exact relation.

## Model

| member | source | states |
|---|---|---|
| Workout.Or | src/components/TimerScreen.tsx:58 | `x \|\| d` on a number gives d when x is 0 and x otherwise; the result is 0 only when both are; a non-zero fallback never gives 0 |
| Workout.OrMissing | src/App.tsx:24-25 | a present non-zero value is kept; a missing, NaN or 0 value gives the fallback; a non-zero fallback never gives 0 |
| Workout.RoundTimePositive | src/components/ConfigScreen.tsx:51-53 | the per-round sum of work and rest over a non-empty list of positive durations is positive |
| Workout.RoundTimeAppend | src/components/ConfigScreen.tsx:51-53 | the per-round sum of work and rest over a split list is the sum over its halves |
| Decimal.IntToString | src/components/ConfigScreen.tsx:64 | a number is printed as its decimal digits, with a minus sign before negative values |
| Config.TotalTime | src/components/ConfigScreen.tsx:44-59 | no exercises take 0 s; a single round (`rounds \|\| 1` = 1) takes one pass over the exercises, with no break |
| Config.TotalTimeNextRound | src/components/ConfigScreen.tsx:44-59 | from one round on, each further round adds one pass over the exercises and one break |
| Config.JsRem60 | src/components/ConfigScreen.tsx:63 | JavaScript's `seconds % 60`: the Euclidean remainder for non-negative seconds; for negative ones a value in (-60, 0]; always congruent to the seconds modulo 60 |
| Config.FormatTime | src/components/ConfigScreen.tsx:61-65 | "Mm Ss" with M = floor(s/60) and S = s % 60 when M > 0, else "Ss"; always ends in 's' |
| Config.ReadSecondsOnly | src/components/ConfigScreen.tsx:64 | a display without minutes reads back as its seconds |
| Config.ReadBodyMinutes | src/components/ConfigScreen.tsx:64 | two runs of digits joined by "m " read as 60 times the first plus the second |
| Config.ReadMinutesAndSeconds | src/components/ConfigScreen.tsx:64 | "Mm Ss" reads back as 60·M + S |
| Config.FormatTimeReadsBack | src/components/ConfigScreen.tsx:61-65 | for every duration ≥ 0 the display loses nothing: reading it back gives the duration |
| Config.AddExercise | src/components/ConfigScreen.tsx:15-26 | exactly one exercise is appended, "Exercise n+1" with 30 s work and 15 s rest; earlier exercises, rounds and break are unchanged |
| Config.TotalTimeAfterAdd | src/components/ConfigScreen.tsx:44-59 | adding an exercise adds 45 s to every round, plus the breaks when it is the first exercise |
| Config.Apply | src/components/ConfigScreen.tsx:32 | the edited field takes the new value; every other field, the id included, is kept |
| Config.UpdateExercise | src/components/ConfigScreen.tsx:28-35 | exercises with the id get the edit and all others are unchanged; length, order, rounds and break are kept |
| Config.UpdateOverwrites | src/components/ConfigScreen.tsx:28-35 | a second edit of the same field on the same id replaces the first |
| Config.RoundTimeOfSameDurations | src/components/ConfigScreen.tsx:51-53 | lists with equal durations position by position have equal per-round time |
| Config.RenameKeepsTotalTime | src/components/ConfigScreen.tsx:44-59 | renaming an exercise leaves the total time unchanged |
| Config.Without | src/components/ConfigScreen.tsx:40 | the filter keeps exactly the exercises whose id differs |
| Config.RemoveExercise | src/components/ConfigScreen.tsx:37-42 | exactly the exercises with the id are dropped; rounds and break are kept |
| Config.WithoutConcat | src/components/ConfigScreen.tsx:40 | filtering distributes over concatenation, so the survivors keep their relative order |
| Config.WithoutAbsent | src/components/ConfigScreen.tsx:40 | removing an id no exercise carries changes nothing |
| Config.WithoutAll | src/components/ConfigScreen.tsx:40 | removing an id every exercise carries leaves no exercise |
| Config.RemoveUndoesAdd | src/components/ConfigScreen.tsx:15-42 | removing a freshly added exercise by its new id restores the configuration |
| Config.DurationInput | src/components/ConfigScreen.tsx:88 | an unparsable duration input stores 0; a parsed one is stored as is |
| Config.WorkTimeInput | src/components/ConfigScreen.tsx:88 | the work-time input sets the parsed value, or 0, on the exercises with the id |
| Config.RestTimeInput | src/components/ConfigScreen.tsx:98 | the rest-time input sets the parsed value, or 0, on the exercises with the id |
| Config.RoundsInput | src/components/ConfigScreen.tsx:126-129 | an unparsable or 0 round count becomes 1; the stored value is never 0 |
| Config.RoundBreakInput | src/components/ConfigScreen.tsx:139-142 | an unparsable or 0 break becomes 30; the stored value is never 0, so the estimate and the engine read the same break |
| Config.AddEnablesStart | src/components/ConfigScreen.tsx:155 | after adding an exercise the start button is enabled |
| Config.RemoveAndStart | src/components/ConfigScreen.tsx:155 | removing an id disables the start button exactly when every exercise carries that id |
| Timer.Advance | src/components/TimerScreen.tsx:52-112 | phase end: the workout finishes exactly on the last exercise's work (or rest) in the last round; otherwise the next phase is entered with its full duration, one step later in run order, keeping the position valid; the start cue is emitted exactly when leaving a round break |
| Timer.Retreat | src/components/TimerScreen.tsx:211-245 | skip-back stays put exactly at work 0 of round 1; otherwise it lands on a valid position with its full duration, one step earlier in run order, or two when it passes over an empty rest |
| Timer.Restarted | src/components/TimerScreen.tsx:28-36 | restart: work phase of exercise 0 in round 1 with its work time, paused, not complete, countdown shown; the first position of the run |
| Timer.Started | src/components/TimerScreen.tsx:23-26 | the countdown's callback hides it and starts running, at the same position and time |
| Timer.TickStep | src/components/TimerScreen.tsx:49-123 | no change unless running with time left; above 1 s only the time changes, dropping by one, with a countdown cue exactly when the new value is 1, 2 or 3; at 1 s the phase ends as `Advance` says: finishing only sets time 0, stops and marks complete, with the complete cue, and entering a phase only changes position and time; at most one cue; the invariant is kept |
| Timer.ForwardStep | src/components/TimerScreen.tsx:146-204 | ignored during the countdown; restarts a finished workout; otherwise ends the phase as `Advance` says, silently, changing only position and time to the new phase's full time; finishing only stops and marks complete, keeping the time left; the invariant is kept |
| Timer.BackStep | src/components/TimerScreen.tsx:205-245 | ignored during the countdown; restarts a finished workout; otherwise moves as `Retreat` says; never changes running; the invariant is kept |
| Timer.SpaceStep | src/components/TimerScreen.tsx:138-145 | ignored during the countdown; restarts a finished workout; otherwise flips running and keeps position, time, completion and countdown |
| Timer.SkipForwardThenBack | src/components/TimerScreen.tsx:146-245 | skip-forward then skip-back returns to the same phase, exercise and round with its full time, unless the forward step finished the workout or an empty rest is passed over |
| Timer.SkipBackThenForward | src/components/TimerScreen.tsx:146-245 | skip-back then skip-forward returns to the same phase, exercise and round with its full time, unless skip-back had nowhere to go or passed over an empty rest |
| Timer.SkipForwardIsSilentPhaseEnd | src/components/TimerScreen.tsx:146-204 | skip-forward reaches the position and flags a tick at 1 s reaches, without the phase-change or start cue; on completion it keeps the time left where the tick sets 0 |
| Timer.SingleRoundHasNoBreak | src/components/TimerScreen.tsx:90-94 | with `rounds \|\| 1` at most 1 the engine is never in a round break and never emits the round-start cue |
| Timer.TogglePauseTwice | src/components/TimerScreen.tsx:143 | pressing Space twice on an unfinished workout changes nothing |
| Timer.Engine.constructor | src/components/TimerScreen.tsx:15-43 | on mount the state is the restart state, with exercise 0's work time loaded |
| Timer.Engine.StartWorkout | src/components/TimerScreen.tsx:23-26 | the state becomes `Started` of the old state; the invariant is kept |
| Timer.Engine.Restart | src/components/TimerScreen.tsx:28-36 | the state becomes `Restarted`; no cue is requested |
| Timer.Engine.Tick | src/components/TimerScreen.tsx:49-123 | the state becomes `TickStep` of the old state and its cues are appended to the log; the invariant is kept |
| Timer.Engine.TogglePause | src/components/TimerScreen.tsx:133-145 | the state becomes `SpaceStep` of the old state; no cue is requested |
| Timer.Engine.SkipForward | src/components/TimerScreen.tsx:146-204 | the state becomes `ForwardStep` of the old state and its cues are appended |
| Timer.Engine.SkipBack | src/components/TimerScreen.tsx:205-245 | the state becomes `BackStep` of the old state; no cue is requested |
| Schedule.Run | src/components/TimerScreen.tsx:49-124 | any number of ticks keeps the engine invariant |
| Schedule.StalledRun | src/components/TimerScreen.tsx:49 | a paused or finished workout, or a phase entered with 0 s, is never moved by ticks |
| Schedule.RemainingNonNegative | src/components/TimerScreen.tsx:52-112 | with positive durations the time of the phases still to come is never negative |
| Schedule.RunCompletesAfter | src/components/TimerScreen.tsx:49-123 | with positive durations a running workout is finished after n ticks exactly when n ≥ the time left plus the full durations of the phases still to come |
| Schedule.ClosedFormStep | src/components/TimerScreen.tsx:52-112 | each phase end moves exactly the entered phase's duration from the closed form to the elapsed time; the last phase is all that is left |
| Schedule.ClosedFormAtEnd | src/components/TimerScreen.tsx:64-69 | when the phase is the last one (the last exercise's work in the last round), its full duration equals the closed-form time still to run |
| Schedule.ClosedFormAfterRest | src/components/TimerScreen.tsx:78-87 | a rest that is followed by another phase: its full duration plus the closed-form time from the next phase equals the closed-form time from the rest |
| Schedule.ClosedFormAfterBreak | src/components/TimerScreen.tsx:103-111 | a round break: its full duration plus the closed-form time from the next round's first work phase equals the closed-form time from the break |
| Schedule.RemainingClosedForm | src/components/TimerScreen.tsx:52-112 | the phases still to come sum to the rest of this round plus every later round with its break, less the last exercise's rest |
| Schedule.ScheduleAgainstEstimate | src/components/ConfigScreen.tsx:44-59 | the run from the start lasts the estimated total less the last rest, corrected by the break fallback (30 in the engine, 0 in the estimate) |
| Schedule.WorkoutLength | src/components/ConfigScreen.tsx:44-59 | with positive durations and a set break, a started workout is finished after n ticks exactly when n ≥ the estimated total less the last exercise's rest |
| Schedule.NegativeRoundsRunOnce | src/components/TimerScreen.tsx:56-70 | with a negative stored round count and positive durations the run finishes after exactly one pass over the exercises less the last rest |
| Schedule.NegativeRoundsEstimate | src/components/ConfigScreen.tsx:44-59 | with a negative stored round count, positive durations and a break that is not negative, the estimate is below zero |
| Schedule.SampleWorkoutTakes170Seconds | src/components/ConfigScreen.tsx:56 | two exercises (30/15 and 20/10), two rounds and a 30 s break finish after 170 ticks and not after 169 |
| Countdown.PreRoll.constructor | src/components/CountdownScreen.tsx:9-15 | the counter starts at 3 with one countdown cue requested and the interval armed |
| Countdown.PreRoll.Tick | src/components/CountdownScreen.tsx:15-26 | above 1 it steps down with a countdown cue; at 1 it goes to 0, disarms, requests the start cue and schedules completion once; once disarmed nothing changes; the counter stays within 0..3 |
| Countdown.MountAndRunDown | src/components/CountdownScreen.tsx:8-29 | the counter shows 3, 2, 1, 0 and stays at 0; exactly three countdown cues, then one start cue; completion is scheduled exactly once |
| WorkoutList.Pills | src/components/WorkoutListScreen.tsx:80-84 | the first min(n, 8) exercise names, in order |
| WorkoutList.MorePill | src/components/WorkoutListScreen.tsx:85-89 | a "+k more" pill appears exactly when there are more than 8 exercises, and k is the number of names not shown |
| WorkoutList.RoundLabel | src/components/WorkoutListScreen.tsx:71 | shows `rounds \|\| 1`, and ends in "s" exactly when the stored count is not 1, so 0 reads "1 rounds" and 1 reads "1 round" |
| WorkoutList.CardOf | src/components/WorkoutListScreen.tsx:19-89 | a card shows the name, the exercise count, the round label, the formatted total time (same formula and formatting as the configuration screen), the pills and the "+n more" pill; the pills and the more-count together account for every exercise |
| WorkoutList.View | src/components/WorkoutListScreen.tsx:47-53 | the empty state is shown exactly when nothing is saved; otherwise card i is exactly the card of saved workout i |
| App.Normalised | src/App.tsx:22-26 | a restored configuration keeps its exercises and fills in `rounds \|\| 1` and `roundBreakTime \|\| 30`; both are then non-zero and read unchanged by every later fallback |
| App.Restored | src/App.tsx:16-29 | a stored configuration is adopted, normalised, exactly when it has exercises, otherwise the current one stays; restoring never empties the exercise list and keeps a non-zero round count and break non-zero |
| App.Shell.constructor | src/App.tsx:8-13 | the configuration screen with no exercises, 1 round and a 30 s break |
| App.Shell.Restore | src/App.tsx:16-29 | the configuration becomes `Restored` of the old one; the screen is unchanged |
| App.Shell.ChangeConfig | src/App.tsx:57 | the configuration screen hands back the edited configuration |
| App.Shell.StartWorkout | src/App.tsx:36-39 | with no exercises nothing changes; otherwise the timer screen is mounted on the configuration in its restart state |
| App.Shell.StopWorkout | src/App.tsx:41-43 | always back to the configuration screen, the configuration kept and the timer discarded |

## Left out

- Sound: the Web Audio synthesis and the mute button (`src/utils/audio.ts`,
  `src/components/MuteButton.tsx`) are not part of this model. Each request to play a sound
  is a `Cue` appended to a log, in the order it is made.
- Timers: `setInterval`, `setTimeout`, the effect arming and clearing, and the 500 ms
  delay before the countdown hands over. A tick and a key press are explicit method calls
  on single-threaded state. The countdown's completion is a counter of scheduled
  callbacks.
- Storage: `localStorage`, `JSON.parse` and `JSON.stringify`. A stored configuration is
  given as an already parsed value whose rounds and break may be missing. `parseInt` of an
  input is given as an optional integer: `None` stands for NaN.
- Exercise ids from `Date.now()` are parameters.
- Rendering is not modelled:
  - colours and pulse classes;
  - the upcoming-exercise and progress text;
  - the timer screen's seconds-only display;
  - `preventDefault`;
  - the edit, delete and select buttons of the saved-workout list, whose handlers belong
    to a parent that is not part of this model.
- `SavedWorkout` is not defined in the repository's types. The model uses a minimal
  record of id, name and configuration.
- The duplicate total-time and formatting helpers of the saved-workout list
  (`src/components/WorkoutListScreen.tsx:19-36`) are the same expressions as those of
  the configuration screen. The list uses `Config.TotalTime` and `Config.FormatTime`.
- Config.TotalTime: the `reduce` adds left to right and the model's `RoundTime` adds
  right to left. The sums are equal on unbounded integers, and floating-point rounding
  is not modelled.
- Timer.Engine.constructor: the mount effect that loads the first work time runs only when
  there are exercises. The model requires exercises, because the shell mounts the timer
  screen only then.
- Schedule.ScheduleAgainstEstimate: stated for a stored round count of 0 or more; a
  negative count makes the engine run one round, which `Schedule.NegativeRoundsRunOnce`
  and `Schedule.NegativeRoundsEstimate` state instead.
- Schedule.WorkoutLength: stated for a round count of 0 or more and a break above 0 (the
  break input never stores 0); the negative count is covered as above, and a stored break
  that is negative or 0 is left to `Schedule.ScheduleAgainstEstimate`, whose relation
  holds for any break.
- Config.FormatTime: the read-back property is stated for durations of 0 and more. A
  negative total, possible only with negative inputs, prints a negative remainder
  (`-65` shows as `-5s`, because Math.floor(-65/60) is -2, which is not > 0). The
  contract states that output exactly, but no inverse is claimed for it.
