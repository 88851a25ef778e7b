/** The interval-timer phase engine of the timer screen: work, rest and round-break phases
    driven by a once-per-second tick and by the Space, ArrowRight and ArrowLeft keys. */
module Timer {
  import opened Workout

  datatype Phase = Work | Rest | RoundBreak

  /** Where a workout stands: the phase, the exercise index and the 1-based round. */
  datatype Position = Position(phase: Phase, index: int, round: int)

  /** The engine's state as the screen holds it. */
  datatype Snapshot = Snapshot(pos: Position, timeLeft: int, running: bool, complete: bool, countdown: bool)

  /** The result of a tick or a key: the new state and the cues requested, in order. */
  datatype Step = Step(next: Snapshot, cues: seq<Cue>)

  /** The position names an exercise that exists. */
  predicate InRange(c: WorkoutConfig, p: Position) {
    0 <= p.index < |c.exercises|
  }

  /** The positions a run can reach: rounds stay within `rounds || 1`, a round break
      follows the last exercise of a round that is not the final one, and so does the
      rest of the last exercise. */
  predicate ValidPosition(c: WorkoutConfig, p: Position) {
    && InRange(c, p)
    && 1 <= p.round <= LastRound(c)
    && (p.phase == RoundBreak ==> p.round < Rounds(c) && p.index == |c.exercises| - 1)
    && (p.phase == Rest && p.index == |c.exercises| - 1 ==> p.round < Rounds(c))
  }

  /** The engine invariant: a valid position, a finished workout is not running, and
      nothing runs or is finished while the pre-roll countdown is shown. */
  predicate StateValid(c: WorkoutConfig, s: Snapshot) {
    && ValidPosition(c, s.pos)
    && (s.complete ==> !s.running)
    && (s.countdown ==> !s.running && !s.complete)
  }

  /** The full length of the phase at p when it is entered. */
  function EntryDuration(c: WorkoutConfig, p: Position): int
    requires InRange(c, p)
  {
    match p.phase
    case Work => c.exercises[p.index].workTime
    case Rest => c.exercises[p.index].restTime
    case RoundBreak => BreakTime(c)
  }

  /** The rank of a position: the phases of a full run are numbered 0, 1, 2, ... in the
      order in which the run visits them. */
  function Order(c: WorkoutConfig, p: Position): int {
    var n := |c.exercises|;
    (p.round - 1) * (2 * n + 1) +
    match p.phase
    case Work => 2 * p.index
    case Rest => 2 * p.index + 1
    case RoundBreak => 2 * n
  }

  /** One more than the largest rank a valid position can have. */
  function Horizon(c: WorkoutConfig): int {
    LastRound(c) * (2 * |c.exercises| + 1)
  }

  lemma OrderWithinHorizon(c: WorkoutConfig, p: Position)
    requires ValidPosition(c, p)
    ensures 0 <= Order(c, p) < Horizon(c)
  {
    var w := 2 * |c.exercises| + 1;
    var k := p.round - 1;
    var base := k * w;
    assert Order(c, p) == base + Order(c, p.(round := 1));
    assert 0 <= Order(c, p.(round := 1)) < w;
    MultiplyMonotone(k, LastRound(c) - 1, w);
    assert Horizon(c) == (LastRound(c) - 1) * w + w;
  }

  lemma MultiplyMonotone(a: int, b: int, w: int)
    requires 0 <= a <= b && 0 <= w
    ensures 0 <= a * w <= b * w
  {
  }

  /** How a phase ends: the next phase with its full duration and the cue that announces
      it, or the end of the workout. */
  datatype Outcome = Next(pos: Position, duration: int, cue: Cue) | Finished

  /** The phase-end transition shared by the tick and by skip-forward. */
  function Advance(c: WorkoutConfig, p: Position): (o: Outcome)
    requires InRange(c, p)
    ensures o.Finished? <==>
      p.phase != RoundBreak && p.index == |c.exercises| - 1 && p.round >= Rounds(c)
    ensures o.Next? ==> InRange(c, o.pos) && o.duration == EntryDuration(c, o.pos)
    ensures o.Next? ==> Order(c, o.pos) == Order(c, p) + 1
    ensures o.Next? ==> (o.cue == StartCue <==> p.phase == RoundBreak)
    ensures o.Next? ==> o.cue in {StartCue, PhaseChangeCue}
    ensures ValidPosition(c, p) && o.Next? ==> ValidPosition(c, o.pos)
  {
    var last := |c.exercises| - 1;
    match p.phase
    case Work =>
      if p.index == last then
        if p.round < Rounds(c) then Next(p.(phase := Rest), c.exercises[p.index].restTime, PhaseChangeCue)
        else Finished
      else Next(p.(phase := Rest), c.exercises[p.index].restTime, PhaseChangeCue)
    case Rest =>
      if p.index < last then
        Next(Position(Work, p.index + 1, p.round), c.exercises[p.index + 1].workTime, PhaseChangeCue)
      else if p.round < Rounds(c) then Next(p.(phase := RoundBreak), BreakTime(c), PhaseChangeCue)
      else Finished
    case RoundBreak =>
      Next(Position(Work, 0, p.round + 1), c.exercises[0].workTime, StartCue)
  }

  /** Where skip-back lands: nowhere at the very start, else a position and its full duration. */
  datatype Rewind = AtStart | Back(pos: Position, duration: int)

  /** The skip-back rule, recomputed from the current position. It steps back one phase,
      or two when the phase before is an empty rest, which it passes over. */
  function Retreat(c: WorkoutConfig, p: Position): (b: Rewind)
    requires InRange(c, p)
    ensures b.AtStart? <==> p.phase == Work && p.index == 0 && p.round <= 1
    ensures b.Back? ==> InRange(c, b.pos)
    ensures ValidPosition(c, p) && b.Back? ==>
      ValidPosition(c, b.pos) && b.duration == EntryDuration(c, b.pos)
    ensures ValidPosition(c, p) && b.Back? ==>
      if p.phase == Work && p.index > 0 && c.exercises[p.index - 1].restTime <= 0
      then Order(c, b.pos) == Order(c, p) - 2
      else Order(c, b.pos) == Order(c, p) - 1
  {
    match p.phase
    case Rest => Back(p.(phase := Work), c.exercises[p.index].workTime)
    case RoundBreak => Back(p.(phase := Rest), c.exercises[|c.exercises| - 1].restTime)
    case Work =>
      if p.index > 0 then
        var prev := c.exercises[p.index - 1];
        if prev.restTime > 0 then Back(Position(Rest, p.index - 1, p.round), prev.restTime)
        else Back(Position(Work, p.index - 1, p.round), prev.workTime)
      else if p.round > 1 then
        Back(Position(RoundBreak, |c.exercises| - 1, p.round - 1), BreakTime(c))
      else AtStart
  }

  /** The state on mount and after a restart: first exercise, work phase, round 1, paused,
      with the pre-roll countdown shown. */
  function Restarted(c: WorkoutConfig): (s: Snapshot)
    requires |c.exercises| > 0
    ensures StateValid(c, s) && s.countdown
    ensures s.timeLeft == EntryDuration(c, s.pos) && Order(c, s.pos) == 0
  {
    Snapshot(Position(Work, 0, 1), c.exercises[0].workTime, false, false, true)
  }

  /** The pre-roll countdown has finished: hide it and start running. */
  function Started(s: Snapshot): (r: Snapshot)
    requires s.countdown
    ensures r.running && !r.countdown && r.pos == s.pos && r.timeLeft == s.timeLeft
  {
    s.(countdown := false, running := true)
  }

  /** One firing of the one-second interval. */
  function TickStep(c: WorkoutConfig, s: Snapshot): (r: Step)
    requires InRange(c, s.pos)
    ensures !s.running || s.timeLeft <= 0 ==> r == Step(s, [])
    ensures s.running && s.timeLeft > 1 ==>
      && r.next == s.(timeLeft := s.timeLeft - 1)
      && (r.cues == [CountdownCue] <==> r.next.timeLeft <= 3)
      && (r.cues == [] <==> r.next.timeLeft > 3)
    ensures s.running && s.timeLeft == 1 ==>
      match Advance(c, s.pos)
      case Finished =>
        r.next == s.(running := false, complete := true, timeLeft := 0) && r.cues == [CompleteCue]
      case Next(q, d, cue) => r.next == s.(pos := q, timeLeft := d) && r.cues == [cue]
    ensures CountdownCue in r.cues ==> r.next.pos == s.pos && 1 <= r.next.timeLeft <= 3
    ensures StartCue in r.cues ==> s.pos.phase == RoundBreak && r.next.pos == Position(Work, 0, s.pos.round + 1)
    ensures |r.cues| <= 1 && r.next.countdown == s.countdown
    ensures StateValid(c, s) ==> StateValid(c, r.next)
  {
    if !s.running || s.timeLeft <= 0 then Step(s, [])
    else if s.timeLeft <= 1 then
      match Advance(c, s.pos)
      case Finished => Step(s.(running := false, complete := true, timeLeft := 0), [CompleteCue])
      case Next(q, d, cue) => Step(s.(pos := q, timeLeft := d), [cue])
    else
      var nextSec := s.timeLeft - 1;
      Step(s.(timeLeft := nextSec), if nextSec <= 3 && nextSec > 0 then [CountdownCue] else [])
  }

  /** ArrowRight: restart a finished workout, otherwise end the current phase at once. */
  function ForwardStep(c: WorkoutConfig, s: Snapshot): (r: Step)
    requires InRange(c, s.pos)
    ensures s.countdown ==> r == Step(s, [])
    ensures !s.countdown && s.complete ==> r == Step(Restarted(c), [])
    ensures !s.countdown && !s.complete ==>
      match Advance(c, s.pos)
      case Finished =>
        r.next == s.(running := false, complete := true) && r.cues == [CompleteCue]
      case Next(q, d, _) =>
        r.next == s.(pos := q, timeLeft := EntryDuration(c, q)) && r.cues == []
    ensures StateValid(c, s) ==> StateValid(c, r.next)
  {
    if s.countdown then Step(s, [])
    else if s.complete then Step(Restarted(c), [])
    else
      match Advance(c, s.pos)
      case Finished => Step(s.(running := false, complete := true), [CompleteCue])
      case Next(q, d, _) => Step(s.(pos := q, timeLeft := d), [])
  }

  /** ArrowLeft: restart a finished workout, otherwise go back a phase. */
  function BackStep(c: WorkoutConfig, s: Snapshot): (r: Snapshot)
    requires InRange(c, s.pos)
    ensures s.countdown ==> r == s
    ensures !s.countdown && s.complete ==> r == Restarted(c)
    ensures !s.countdown && !s.complete ==>
      match Retreat(c, s.pos)
      case AtStart => r == s
      case Back(q, d) => r == s.(pos := q, timeLeft := d)
    ensures StateValid(c, s) ==> StateValid(c, r) && r.running == s.running
  {
    if s.countdown then s
    else if s.complete then Restarted(c)
    else
      match Retreat(c, s.pos)
      case AtStart => s
      case Back(q, d) => s.(pos := q, timeLeft := d)
  }

  /** Space: restart a finished workout, otherwise pause or resume. */
  function SpaceStep(c: WorkoutConfig, s: Snapshot): (r: Snapshot)
    requires |c.exercises| > 0
    ensures s.countdown ==> r == s
    ensures !s.countdown && s.complete ==> r == Restarted(c)
    ensures !s.countdown && !s.complete ==>
      r.pos == s.pos && r.timeLeft == s.timeLeft && r.running != s.running
      && r.complete == s.complete && r.countdown == s.countdown
    ensures StateValid(c, s) ==> StateValid(c, r)
  {
    if s.countdown then s
    else if s.complete then Restarted(c)
    else s.(running := !s.running)
  }

  /** Skip-forward then skip-back comes back to the same phase, exercise and round, with
      the phase's full duration and the running flag as it was. The forward step must
      not end the workout, and a rest left forward must not precede an empty rest,
      which skip-back would pass over. */
  lemma SkipForwardThenBack(c: WorkoutConfig, s: Snapshot)
    requires StateValid(c, s) && !s.countdown && !s.complete
    requires !ForwardStep(c, s).next.complete
    requires s.pos.phase == Rest && s.pos.index < |c.exercises| - 1 ==> c.exercises[s.pos.index].restTime > 0
    ensures var r := BackStep(c, ForwardStep(c, s).next);
      r.pos == s.pos && r.timeLeft == EntryDuration(c, s.pos) && r.running == s.running
  {
    var o := Advance(c, s.pos);
    assert o.Next?;
    assert Retreat(c, o.pos) == Back(s.pos, EntryDuration(c, s.pos));
  }

  /** Skip-back then skip-forward comes back to the same phase, exercise and round, with
      the phase's full duration, unless skip-back had nowhere to go or passed over an
      empty rest. */
  lemma SkipBackThenForward(c: WorkoutConfig, s: Snapshot)
    requires StateValid(c, s) && !s.countdown && !s.complete
    requires Retreat(c, s.pos).Back?
    requires s.pos.phase == Work && s.pos.index > 0 ==> c.exercises[s.pos.index - 1].restTime > 0
    ensures var r := ForwardStep(c, BackStep(c, s)).next;
      r.pos == s.pos && r.timeLeft == EntryDuration(c, s.pos) && r.running == s.running && !r.complete
  {
    var b := Retreat(c, s.pos);
    assert Advance(c, b.pos) == Next(s.pos, EntryDuration(c, s.pos), if b.pos.phase == RoundBreak then StartCue else PhaseChangeCue);
  }

  /** Skip-forward takes the branch the tick takes when the phase runs out, but silently:
      no phase-change or start cue, and on completion the time left is kept, where the
      tick sets it to 0. */
  lemma SkipForwardIsSilentPhaseEnd(c: WorkoutConfig, s: Snapshot)
    requires StateValid(c, s) && s.running
    ensures var f, t := ForwardStep(c, s), TickStep(c, s.(timeLeft := 1));
      && f.next.pos == t.next.pos && f.next.complete == t.next.complete && f.next.running == t.next.running
      && (f.next.complete ==> f.next.timeLeft == s.timeLeft && t.next.timeLeft == 0 && f.cues == t.cues == [CompleteCue])
      && (!f.next.complete ==> f.next.timeLeft == t.next.timeLeft && f.cues == [] && |t.cues| == 1)
  {
  }

  /** With `rounds || 1` at most 1 there is never a round break, so the tick never emits
      the round-start cue. */
  lemma SingleRoundHasNoBreak(c: WorkoutConfig, s: Snapshot)
    requires StateValid(c, s) && Rounds(c) <= 1
    ensures s.pos.phase != RoundBreak && StartCue !in TickStep(c, s).cues
  {
  }

  /** Pressing Space twice on a running or paused workout leaves it as it was. */
  lemma TogglePauseTwice(c: WorkoutConfig, s: Snapshot)
    requires |c.exercises| > 0 && !s.countdown && !s.complete
    ensures SpaceStep(c, SpaceStep(c, s)) == s
  {
  }

  /** The timer screen's state, overwritten field by field as the source's setters do.
      Audio requests are appended to `cues`. */
  class Engine {
    const config: WorkoutConfig
    var exerciseIndex: int
    var phase: Phase
    var timeLeft: int
    var isRunning: bool
    var isWorkoutComplete: bool
    var showCountdown: bool
    var round: int
    var cues: seq<Cue>

    function State(): Snapshot
      reads this
    {
      Snapshot(Position(phase, exerciseIndex, round), timeLeft, isRunning, isWorkoutComplete, showCountdown)
    }

    ghost predicate Valid()
      reads this
    {
      StateValid(config, State())
    }

    /** Mounting the screen: the state starts as a restart leaves it, with the first
        exercise's work time loaded. */
    constructor (config: WorkoutConfig)
      requires |config.exercises| > 0
      ensures Valid() && this.config == config
      ensures State() == Restarted(config) && cues == []
    {
      this.config := config;
      exerciseIndex := 0;
      phase := Work;
      timeLeft := config.exercises[0].workTime;
      isRunning := false;
      isWorkoutComplete := false;
      showCountdown := true;
      round := 1;
      cues := [];
    }

    /** The pre-roll countdown calls back: hide it and start running. */
    method StartWorkout()
      requires Valid() && showCountdown
      modifies this
      ensures Valid() && State() == Started(old(State())) && cues == old(cues)
    {
      showCountdown := false;
      isRunning := true;
    }

    method Restart()
      requires Valid()
      modifies this
      ensures Valid() && State() == Restarted(config) && cues == old(cues)
    {
      exerciseIndex := 0;
      phase := Work;
      timeLeft := config.exercises[0].workTime;
      isRunning := false;
      isWorkoutComplete := false;
      showCountdown := true;
      round := 1;
    }

    /** One firing of the interval, which is armed only while running with time left. */
    method Tick()
      requires Valid()
      modifies this
      ensures Valid()
      ensures State() == TickStep(config, old(State())).next
      ensures cues == old(cues) + TickStep(config, old(State())).cues
    {
      if !isRunning || timeLeft <= 0 {
        return;
      }
      if timeLeft <= 1 {
        var last := |config.exercises| - 1;
        if phase == Work {
          if exerciseIndex == last {
            if round < Rounds(config) {
              phase := Rest;
              cues := cues + [PhaseChangeCue];
              timeLeft := config.exercises[exerciseIndex].restTime;
            } else {
              isRunning := false;
              isWorkoutComplete := true;
              cues := cues + [CompleteCue];
              timeLeft := 0;
            }
          } else {
            phase := Rest;
            cues := cues + [PhaseChangeCue];
            timeLeft := config.exercises[exerciseIndex].restTime;
          }
        } else if phase == Rest {
          if exerciseIndex < last {
            var nextIndex := exerciseIndex + 1;
            exerciseIndex := nextIndex;
            phase := Work;
            cues := cues + [PhaseChangeCue];
            timeLeft := config.exercises[nextIndex].workTime;
          } else if round < Rounds(config) {
            phase := RoundBreak;
            cues := cues + [PhaseChangeCue];
            timeLeft := BreakTime(config);
          } else {
            // The rest of the last exercise is entered only when another round follows
            // (ValidPosition), so the source's completion branch here is never taken.
            assert false;
          }
        } else {
          round := round + 1;
          exerciseIndex := 0;
          phase := Work;
          cues := cues + [StartCue];
          timeLeft := config.exercises[0].workTime;
        }
        return;
      }
      var nextSec := timeLeft - 1;
      if nextSec <= 3 && nextSec > 0 {
        cues := cues + [CountdownCue];
      }
      timeLeft := nextSec;
    }

    /** The Space key. */
    method TogglePause()
      requires Valid()
      modifies this
      ensures Valid() && State() == SpaceStep(config, old(State())) && cues == old(cues)
    {
      if showCountdown {
        return;
      }
      if isWorkoutComplete {
        Restart();
      } else {
        isRunning := !isRunning;
      }
    }

    /** The ArrowRight key. */
    method SkipForward()
      requires Valid()
      modifies this
      ensures Valid()
      ensures State() == ForwardStep(config, old(State())).next
      ensures cues == old(cues) + ForwardStep(config, old(State())).cues
    {
      if showCountdown {
        return;
      }
      if isWorkoutComplete {
        Restart();
        return;
      }
      var last := |config.exercises| - 1;
      if phase == Work {
        if exerciseIndex == last {
          if round < Rounds(config) {
            phase := Rest;
            timeLeft := config.exercises[exerciseIndex].restTime;
          } else {
            isRunning := false;
            isWorkoutComplete := true;
            cues := cues + [CompleteCue];
          }
        } else {
          phase := Rest;
          timeLeft := config.exercises[exerciseIndex].restTime;
        }
      } else if phase == Rest {
        if exerciseIndex < last {
          var nextIndex := exerciseIndex + 1;
          exerciseIndex := nextIndex;
          phase := Work;
          timeLeft := config.exercises[nextIndex].workTime;
        } else if round < Rounds(config) {
          phase := RoundBreak;
          timeLeft := BreakTime(config);
        } else {
          // Never taken, as in Tick: a last rest always precedes another round.
          assert false;
        }
      } else {
        round := round + 1;
        exerciseIndex := 0;
        phase := Work;
        timeLeft := config.exercises[0].workTime;
      }
    }

    /** The ArrowLeft key. */
    method SkipBack()
      requires Valid()
      modifies this
      ensures Valid() && State() == BackStep(config, old(State())) && cues == old(cues)
    {
      if showCountdown {
        return;
      }
      if isWorkoutComplete {
        Restart();
        return;
      }
      if phase == Rest {
        phase := Work;
        timeLeft := config.exercises[exerciseIndex].workTime;
      } else if phase == RoundBreak {
        phase := Rest;
        timeLeft := config.exercises[|config.exercises| - 1].restTime;
      } else if exerciseIndex > 0 {
        var prev := config.exercises[exerciseIndex - 1];
        if prev.restTime > 0 {
          exerciseIndex := exerciseIndex - 1;
          phase := Rest;
          timeLeft := prev.restTime;
        } else {
          exerciseIndex := exerciseIndex - 1;
          phase := Work;
          timeLeft := prev.workTime;
        }
      } else if round > 1 {
        round := round - 1;
        exerciseIndex := |config.exercises| - 1;
        phase := RoundBreak;
        timeLeft := BreakTime(config);
      }
    }
  }
}
