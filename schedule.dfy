/** The timer run as a whole: what repeated ticks do, how many ticks a workout takes, and
    how that relates to the total time the configuration screen estimates. */
module Schedule {
  import opened Workout
  import opened Timer
  import Config

  /** The state after n firings of the one-second interval. */
  function Run(c: WorkoutConfig, s: Snapshot, n: nat): (r: Snapshot)
    requires StateValid(c, s)
    ensures StateValid(c, r)
    decreases n
  {
    if n == 0 then s else Run(c, TickStep(c, s).next, n - 1)
  }

  /** A paused workout, a finished one, and a phase entered with no time left (a rest of
      0 seconds, say) are never moved by ticks: the run stalls until a key is pressed. */
  lemma {:induction false} StalledRun(c: WorkoutConfig, s: Snapshot, n: nat)
    requires StateValid(c, s) && (!s.running || s.timeLeft <= 0)
    ensures Run(c, s, n) == s
    decreases n
  {
    if n > 0 {
      StalledRun(c, s, n - 1);
    }
  }

  /** The seconds still to run after the phase at p: the full durations of the phases
      that follow it, up to the end of the workout. */
  function Remaining(c: WorkoutConfig, p: Position): int
    requires ValidPosition(c, p)
    decreases Horizon(c) - Order(c, p)
  {
    OrderWithinHorizon(c, p);
    match Advance(c, p)
    case Finished => 0
    case Next(q, d, _) =>
      OrderWithinHorizon(c, q);
      d + Remaining(c, q)
  }

  /** Every phase has at least one second, so no phase stalls the run. */
  predicate PositiveDurations(c: WorkoutConfig) {
    && PositiveExercises(c.exercises)
    && BreakTime(c) > 0
  }

  lemma {:induction false} RemainingNonNegative(c: WorkoutConfig, p: Position)
    requires ValidPosition(c, p) && PositiveDurations(c)
    ensures Remaining(c, p) >= 0
    decreases Horizon(c) - Order(c, p)
  {
    OrderWithinHorizon(c, p);
    match Advance(c, p)
    case Finished =>
    case Next(q, d, _) =>
      OrderWithinHorizon(c, q);
      RemainingNonNegative(c, q);
  }

  /** A running workout whose phases all last at least a second completes after exactly
      the time left in the current phase plus the full durations of the phases after it,
      and not a tick earlier. */
  lemma {:induction false} RunCompletesAfter(c: WorkoutConfig, s: Snapshot, n: nat)
    requires StateValid(c, s) && PositiveDurations(c)
    requires s.running && s.timeLeft >= 1
    ensures Run(c, s, n).complete <==> n >= s.timeLeft + Remaining(c, s.pos)
    decreases n
  {
    RemainingNonNegative(c, s.pos);
    if n > 0 {
      var t := TickStep(c, s).next;
      if s.timeLeft > 1 {
        RunCompletesAfter(c, t, n - 1);
      } else {
        match Advance(c, s.pos)
        case Finished =>
          StalledRun(c, t, n - 1);
        case Next(q, d, _) =>
          assert d == EntryDuration(c, q);
          RunCompletesAfter(c, t, n - 1);
      }
    }
  }

  /** The remaining time in closed form: the rest of the current round (without the work
      already under way in a rest), then every further round with its break, less the
      rest after the very last exercise, which is never taken. */
  function ClosedForm(c: WorkoutConfig, p: Position): int
    requires InRange(c, p)
  {
    var ex := c.exercises;
    var perRound := RoundTime(ex) + BreakTime(c);
    var lastRest := ex[|ex| - 1].restTime;
    var thisRound :=
      match p.phase
      case Work => RoundTime(ex[p.index..])
      case Rest => RoundTime(ex[p.index..]) - ex[p.index].workTime
      case RoundBreak => 0;
    (LastRound(c) - p.round) * perRound + thisRound - lastRest
  }

  /** One phase of the closed form: the phase at p followed by the closed form after it,
      or alone when it is the last phase of the run. */
  lemma ClosedFormStep(c: WorkoutConfig, p: Position)
    requires ValidPosition(c, p)
    ensures match Advance(c, p)
      case Finished => EntryDuration(c, p) == ClosedForm(c, p)
      case Next(q, _, _) => EntryDuration(c, p) + ClosedForm(c, q) == ClosedForm(c, p)
  {
    var ex := c.exercises;
    var i := p.index;
    assert ex[i..][1..] == ex[i + 1..];
    match Advance(c, p)
    case Finished => ClosedFormAtEnd(c, p);
    case Next(q, _, _) =>
      match p.phase
      case Work =>
      case Rest => ClosedFormAfterRest(c, p);
      case RoundBreak => ClosedFormAfterBreak(c, p);
  }

  lemma ClosedFormAtEnd(c: WorkoutConfig, p: Position)
    requires ValidPosition(c, p) && Advance(c, p).Finished?
    ensures EntryDuration(c, p) == ClosedForm(c, p)
  {
    var ex := c.exercises;
    var i := p.index;
    assert p.phase == Work && i == |ex| - 1 && p.round == LastRound(c);
    assert ex[i..][1..] == ex[i + 1..] == [];
    assert RoundTime(ex[i..]) == ex[i].workTime + ex[i].restTime;
  }

  lemma ClosedFormAfterRest(c: WorkoutConfig, p: Position)
    requires ValidPosition(c, p) && p.phase == Rest && Advance(c, p).Next?
    ensures EntryDuration(c, p) + ClosedForm(c, Advance(c, p).pos) == ClosedForm(c, p)
  {
    var ex := c.exercises;
    var i := p.index;
    assert ex[i..][1..] == ex[i + 1..];
    assert RoundTime(ex[i..]) == ex[i].workTime + ex[i].restTime + RoundTime(ex[i + 1..]);
  }

  lemma ClosedFormAfterBreak(c: WorkoutConfig, p: Position)
    requires ValidPosition(c, p) && p.phase == RoundBreak
    ensures EntryDuration(c, p) + ClosedForm(c, Advance(c, p).pos) == ClosedForm(c, p)
  {
    var ex := c.exercises;
    var perRound := RoundTime(ex) + BreakTime(c);
    var k := LastRound(c) - p.round;
    assert ex[0..] == ex;
    assert (k - 1) * perRound + perRound == k * perRound;
  }

  lemma {:induction false} RemainingClosedForm(c: WorkoutConfig, p: Position)
    requires ValidPosition(c, p)
    ensures EntryDuration(c, p) + Remaining(c, p) == ClosedForm(c, p)
    decreases Horizon(c) - Order(c, p)
  {
    OrderWithinHorizon(c, p);
    ClosedFormStep(c, p);
    match Advance(c, p)
    case Finished =>
    case Next(q, d, _) =>
      OrderWithinHorizon(c, q);
      RemainingClosedForm(c, q);
      assert Remaining(c, p) == d + Remaining(c, q);
  }

  /** The whole run, from the first work phase, against the configuration screen's total:
      the run leaves out the last exercise's rest and uses a 30-second break where the
      estimate counts a missing break as 0. */
  lemma ScheduleAgainstEstimate(c: WorkoutConfig)
    requires |c.exercises| > 0 && c.rounds >= 0
    ensures var start := Restarted(c).pos;
      EntryDuration(c, start) + Remaining(c, start) ==
        Config.TotalTime(c) - c.exercises[|c.exercises| - 1].restTime
        + (Rounds(c) - 1) * (BreakTime(c) - Or(c.roundBreakTime, 0))
  {
    var start := Restarted(c).pos;
    RemainingClosedForm(c, start);
    var ex := c.exercises;
    assert ex[0..] == ex;
    var r, p, b := Rounds(c), RoundTime(ex), BreakTime(c);
    assert (r - 1) * (p + b) + p == r * p + (r - 1) * b;
  }

  /** Started after its pre-roll countdown, a workout whose phases all last at least a
      second and whose break is set completes after exactly the estimated total time
      less the last exercise's rest, and not a tick earlier. */
  lemma WorkoutLength(c: WorkoutConfig, n: nat)
    requires |c.exercises| > 0 && PositiveDurations(c)
    requires c.rounds >= 0 && c.roundBreakTime > 0
    ensures Run(c, Started(Restarted(c)), n).complete <==>
      n >= Config.TotalTime(c) - c.exercises[|c.exercises| - 1].restTime
  {
    ScheduleAgainstEstimate(c);
    RunCompletesAfter(c, Started(Restarted(c)), n);
  }

  /** A negative stored round count (the rounds input keeps `parseInt("-3") || 1`, which
      is -3): the engine runs a single round, less the last exercise's rest. */
  lemma NegativeRoundsRunOnce(c: WorkoutConfig, n: nat)
    requires |c.exercises| > 0 && PositiveDurations(c) && c.rounds < 0
    ensures Run(c, Started(Restarted(c)), n).complete <==>
      n >= RoundTime(c.exercises) - c.exercises[|c.exercises| - 1].restTime
  {
    RemainingClosedForm(c, Restarted(c).pos);
    assert c.exercises[0..] == c.exercises;
    RunCompletesAfter(c, Started(Restarted(c)), n);
  }

  /** For the same negative count the estimate, with a break that is not negative, is
      below zero, although the run takes a positive time. */
  lemma NegativeRoundsEstimate(c: WorkoutConfig)
    requires |c.exercises| > 0 && PositiveExercises(c.exercises) && c.rounds < 0
    requires c.roundBreakTime >= 0
    ensures Config.TotalTime(c) < 0
  {
    var p, r, b := RoundTime(c.exercises), c.rounds, c.roundBreakTime;
    RoundTimePositive(c.exercises);
    MultiplyMonotone(1, -r, p);
    MultiplyMonotone(0, 1 - r, b);
    assert p * r == -((-r) * p);
    assert b * (r - 1) == -((1 - r) * b);
  }

  /** Two exercises (30 s work and 15 s rest, then 20 s and 10 s), two rounds and a
      30-second break: the run takes 170 seconds. */
  lemma SampleWorkoutTakes170Seconds()
    ensures var c := WorkoutConfig([Exercise("a", "A", 30, 15), Exercise("b", "B", 20, 10)], 2, 30);
      Run(c, Started(Restarted(c)), 170).complete && !Run(c, Started(Restarted(c)), 169).complete
  {
    var c := WorkoutConfig([Exercise("a", "A", 30, 15), Exercise("b", "B", 20, 10)], 2, 30);
    assert RoundTime(c.exercises) == 75 by {
      assert c.exercises[1..][1..] == [];
    }
    WorkoutLength(c, 170);
    WorkoutLength(c, 169);
  }
}
