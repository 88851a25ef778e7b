/** The shared vocabulary of the fitness timer: exercises, workout configurations,
    the audio cues the screens emit, and JavaScript's `x || fallback` on numbers. */
module Workout {

  datatype Option<+T> = None | Some(value: T)

  /** One exercise of a workout; durations are whole seconds. */
  datatype Exercise = Exercise(id: string, name: string, workTime: int, restTime: int)

  /** A workout: exercises in execution order, the round count and the break between rounds. */
  datatype WorkoutConfig = WorkoutConfig(exercises: seq<Exercise>, rounds: int, roundBreakTime: int)

  /** The four sounds of the audio collaborator, recorded in the order they are requested. */
  datatype Cue = CountdownCue | PhaseChangeCue | CompleteCue | StartCue

  /** JavaScript's `x || fallback` on a number that is present: 0 is falsy, every other value is kept. */
  function Or(x: int, fallback: int): (r: int)
    ensures x != 0 ==> r == x
    ensures x == 0 ==> r == fallback
    ensures r == 0 ==> x == 0 && fallback == 0
    ensures fallback != 0 ==> r != 0
  {
    if x == 0 then fallback else x
  }

  /** `x || fallback` on a value that may be missing or NaN (a failed parseInt, an absent field). */
  function OrMissing(x: Option<int>, fallback: int): (r: int)
    ensures x.Some? && x.value != 0 ==> r == x.value
    ensures x.None? || x.value == 0 ==> r == fallback
    ensures fallback != 0 ==> r != 0
  {
    match x
    case None => fallback
    case Some(v) => Or(v, fallback)
  }

  /** The round count every screen reads: `config.rounds || 1`. */
  function Rounds(c: WorkoutConfig): int {
    Or(c.rounds, 1)
  }

  /** The last round the engine can reach; a negative round count still allows round 1. */
  function LastRound(c: WorkoutConfig): (r: int)
    ensures r >= 1 && r >= Rounds(c)
    ensures Rounds(c) >= 1 ==> r == Rounds(c)
  {
    if Rounds(c) < 1 then 1 else Rounds(c)
  }

  /** The engine's round break: `config.roundBreakTime || 30`. */
  function BreakTime(c: WorkoutConfig): int {
    Or(c.roundBreakTime, 30)
  }

  /** Every exercise has at least one second of work and one of rest. */
  predicate PositiveExercises(exercises: seq<Exercise>) {
    forall i :: 0 <= i < |exercises| ==> exercises[i].workTime > 0 && exercises[i].restTime > 0
  }

  /** Work plus rest of every exercise, in list order (one pass of the `reduce`). */
  function RoundTime(exercises: seq<Exercise>): int {
    if exercises == [] then 0
    else exercises[0].workTime + exercises[0].restTime + RoundTime(exercises[1..])
  }

  /** A non-empty list of positive durations takes a positive time per round. */
  lemma {:induction false} RoundTimePositive(exercises: seq<Exercise>)
    requires |exercises| > 0 && PositiveExercises(exercises)
    ensures RoundTime(exercises) > 0
  {
    if |exercises| > 1 {
      RoundTimePositive(exercises[1..]);
    }
  }

  /** Summing a list split in two is summing the halves. */
  lemma {:induction false} RoundTimeAppend(a: seq<Exercise>, b: seq<Exercise>)
    ensures RoundTime(a + b) == RoundTime(a) + RoundTime(b)
  {
    if a == [] {
      assert a + b == b;
    } else {
      assert (a + b)[1..] == a[1..] + b;
      RoundTimeAppend(a[1..], b);
    }
  }
}
