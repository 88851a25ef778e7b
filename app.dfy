/** The application shell: it holds the configuration, restores it from storage on
    start-up, and switches between the configuration screen and the timer screen. */
module App {
  import opened Workout
  import Timer
  import Config

  datatype Screen = ConfigScreen | TimerScreen

  /** A configuration as read back from storage; older saves may lack rounds and break. */
  datatype StoredConfig = StoredConfig(exercises: seq<Exercise>, rounds: Option<int>, roundBreakTime: Option<int>)

  /** A restored configuration with `rounds || 1` and `roundBreakTime || 30` filled in and
      the exercises kept as stored; both values are then non-zero, so every later
      `|| default` reads them unchanged. */
  function Normalised(s: StoredConfig): (c: WorkoutConfig)
    ensures c.exercises == s.exercises
    ensures c.rounds != 0 && Rounds(c) == c.rounds
    ensures c.roundBreakTime != 0 && BreakTime(c) == c.roundBreakTime == Or(c.roundBreakTime, 0)
    ensures s.rounds.Some? && s.rounds.value != 0 ==> c.rounds == s.rounds.value
    ensures s.rounds.None? || s.rounds.value == 0 ==> c.rounds == 1
    ensures s.roundBreakTime.Some? && s.roundBreakTime.value != 0 ==> c.roundBreakTime == s.roundBreakTime.value
    ensures s.roundBreakTime.None? || s.roundBreakTime.value == 0 ==> c.roundBreakTime == 30
  {
    WorkoutConfig(s.exercises, OrMissing(s.rounds, 1), OrMissing(s.roundBreakTime, 30))
  }

  /** The configuration after start-up: a stored one is adopted only if it has exercises.
      Restoring never empties the exercise list, so it never disables the start button,
      and keeps round count and break non-zero when they were. */
  function Restored(current: WorkoutConfig, stored: Option<StoredConfig>): (c: WorkoutConfig)
    ensures stored.Some? && |stored.value.exercises| > 0 ==> c == Normalised(stored.value)
    ensures stored.None? || |stored.value.exercises| == 0 ==> c == current
    ensures |current.exercises| > 0 ==> |c.exercises| > 0
    ensures current.rounds != 0 && current.roundBreakTime != 0 ==> c.rounds != 0 && c.roundBreakTime != 0
  {
    if stored.Some? && |stored.value.exercises| > 0 then Normalised(stored.value) else current
  }

  class Shell {
    var screen: Screen
    var config: WorkoutConfig
    /** The mounted timer screen, present exactly while the timer screen is shown. */
    var timer: Timer.Engine?

    ghost predicate Valid()
      reads this
    {
      && (screen == TimerScreen <==> timer != null)
      && (timer != null ==> timer.config == config && |config.exercises| > 0)
    }

    /** Start-up: the configuration screen with no exercises, 1 round and a 30-second break. */
    constructor ()
      ensures Valid() && screen == ConfigScreen && timer == null
      ensures config == WorkoutConfig([], 1, 30)
    {
      screen := ConfigScreen;
      config := WorkoutConfig([], 1, 30);
      timer := null;
    }

    /** The start-up effect, given what storage held (None when nothing was saved). */
    method Restore(stored: Option<StoredConfig>)
      requires Valid() && screen == ConfigScreen
      modifies this
      ensures Valid() && screen == ConfigScreen && timer == old(timer)
      ensures config == Restored(old(config), stored)
    {
      if stored.Some? && |stored.value.exercises| > 0 {
        config := Normalised(stored.value);
      }
    }

    /** The configuration screen hands back an edited configuration. */
    method ChangeConfig(c: WorkoutConfig)
      requires Valid() && screen == ConfigScreen
      modifies this
      ensures Valid() && screen == ConfigScreen && timer == null && config == c
    {
      config := c;
    }

    /** handleStartWorkout: nothing happens without exercises, exactly when the start
        button is disabled; otherwise the timer screen is mounted on the configuration. */
    method StartWorkout()
      requires Valid() && screen == ConfigScreen
      modifies this
      ensures Valid() && config == old(config)
      ensures Config.StartDisabled(config) ==> screen == ConfigScreen && timer == null
      ensures !Config.StartDisabled(config) ==>
        && screen == TimerScreen && timer != null && fresh(timer)
        && timer.Valid() && timer.State() == Timer.Restarted(config) && timer.cues == []
    {
      if |config.exercises| == 0 {
        return;
      }
      screen := TimerScreen;
      timer := new Timer.Engine(config);
    }

    /** handleStopWorkout: back to the configuration screen, the timer's state discarded. */
    method StopWorkout()
      requires Valid()
      modifies this
      ensures Valid() && screen == ConfigScreen && timer == null && config == old(config)
    {
      screen := ConfigScreen;
      timer := null;
    }
  }
}
