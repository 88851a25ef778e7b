/** The configuration screen's logic: the total-time estimate and its display, the
    exercise-list edits, the fallbacks of the number inputs and the start guard. */
module Config {
  import opened Workout
  import opened Decimal

  // ---------------------------------------------------------------- total time

  /** calculateTotalTime: work and rest of every exercise in each round, plus a break
      between consecutive rounds; here a missing break counts as 0. */
  function TotalTime(c: WorkoutConfig): (r: int)
    ensures |c.exercises| == 0 ==> r == 0
    ensures Rounds(c) == 1 ==> r == RoundTime(c.exercises)
  {
    if |c.exercises| == 0 then 0
    else RoundTime(c.exercises) * Rounds(c) + Or(c.roundBreakTime, 0) * (Rounds(c) - 1)
  }

  /** Each further round adds one pass over the exercises and one break before it. */
  lemma TotalTimeNextRound(c: WorkoutConfig)
    requires |c.exercises| > 0 && c.rounds >= 1
    ensures TotalTime(c.(rounds := c.rounds + 1)) ==
      TotalTime(c) + RoundTime(c.exercises) + Or(c.roundBreakTime, 0)
  {
    var p, r, b := RoundTime(c.exercises), c.rounds, Or(c.roundBreakTime, 0);
    assert p * (r + 1) + b * r == p * r + b * (r - 1) + p + b;
  }

  // ---------------------------------------------------------------- formatTime

  /** JavaScript's `seconds % 60`: the remainder takes the sign of the dividend, and
      differs from it by a whole number of minutes. */
  function JsRem60(a: int): (r: int)
    ensures a >= 0 ==> r == a % 60
    ensures a < 0 ==> -60 < r <= 0
    ensures (a - r) % 60 == 0
  {
    if a >= 0 then a % 60 else -((-a) % 60)
  }

  /** formatTime: whole minutes (Math.floor) and the remaining seconds, "Mm Ss", with the
      minutes left out when there are none. */
  function FormatTime(seconds: int): (s: string)
    ensures |s| >= 2 && s[|s| - 1] == 's'
    ensures seconds / 60 > 0 ==> s == IntToString(seconds / 60) + "m " + IntToString(JsRem60(seconds)) + "s"
    ensures seconds / 60 <= 0 ==> s == IntToString(JsRem60(seconds)) + "s"
  {
    // Dafny's `/` rounds down for a positive divisor, as Math.floor(seconds / 60) does.
    var mins := seconds / 60;
    var secs := JsRem60(seconds);
    if mins > 0 then IntToString(mins) + "m " + IntToString(secs) + "s" else IntToString(secs) + "s"
  }

  /** Reads a displayed duration back into seconds; it is the inverse that shows the
      display loses nothing for durations that are not negative. */
  function ReadTime(t: string): Option<int> {
    if |t| < 2 || t[|t| - 1] != 's' then None else ReadBody(t[..|t| - 1])
  }

  /** A display without its final 's': either "S" or "Mm S". */
  function ReadBody(body: string): Option<int> {
    var k := DigitPrefix(body);
    if k == 0 then None
    else if k == |body| then Some(ParseNat(body))
    else if k + 2 < |body| && body[k] == 'm' && body[k + 1] == ' ' && AllDigits(body[k + 2..]) then
      Some(60 * ParseNat(body[..k]) + ParseNat(body[k + 2..]))
    else None
  }

  /** A display without minutes reads back as its seconds. */
  lemma ReadSecondsOnly(secs: nat)
    ensures ReadTime(NatToString(secs) + "s") == Some(secs)
  {
    var ss := NatToString(secs);
    var t := ss + "s";
    assert t[..|t| - 1] == ss;
    DigitPrefixOfDigits(ss, []);
    assert ss + [] == ss;
    ParseNatToString(secs);
  }

  /** Two runs of digits joined by "m " read as 60 times the first plus the second. */
  lemma ReadBodyMinutes(m: string, r: string, body: string)
    requires |m| >= 1 && |r| >= 1 && AllDigits(m) && AllDigits(r)
    requires body == m + ("m " + r)
    ensures body[..|m|] == m && body[|m| + 2..] == r
    ensures ReadBody(body) == Some(60 * ParseNat(body[..|m|]) + ParseNat(body[|m| + 2..]))
  {
    var k := |m|;
    DigitPrefixOfDigits(m, "m " + r);
    assert body[..k] == m;
    assert body[k] == 'm' && body[k + 1] == ' ';
    assert body[k + 2..] == r;
  }

  /** A display "Mm Ss" reads back as 60 * M + S. */
  lemma ReadMinutesAndSeconds(mins: nat, secs: nat)
    ensures ReadTime(NatToString(mins) + "m " + NatToString(secs) + "s") == Some(60 * mins + secs)
  {
    var ms, ss := NatToString(mins), NatToString(secs);
    var body := ms + ("m " + ss);
    var t := ms + "m " + ss + "s";
    assert t[..|t| - 1] == body;
    ReadBodyMinutes(ms, ss, body);
    ParseNatToString(mins);
    ParseNatToString(secs);
  }

  /** For every duration that is not negative the display can be read back exactly. */
  lemma FormatTimeReadsBack(seconds: int)
    requires seconds >= 0
    ensures ReadTime(FormatTime(seconds)) == Some(seconds)
  {
    var mins, secs := seconds / 60, seconds % 60;
    assert JsRem60(seconds) == secs;
    if mins > 0 {
      assert FormatTime(seconds) == NatToString(mins) + "m " + NatToString(secs) + "s";
      ReadMinutesAndSeconds(mins, secs);
    } else {
      assert FormatTime(seconds) == NatToString(secs) + "s";
      ReadSecondsOnly(secs);
    }
  }

  // ---------------------------------------------------------------- list edits

  /** The exercise addExercise appends: numbered after the existing ones, 30 s of work, 15 s of rest. */
  function NewExercise(c: WorkoutConfig, id: string): Exercise {
    Exercise(id, "Exercise " + NatToString(|c.exercises| + 1), 30, 15)
  }

  /** addExercise: one new exercise at the end; everything before it is kept in order. */
  function AddExercise(c: WorkoutConfig, id: string): (r: WorkoutConfig)
    ensures |r.exercises| == |c.exercises| + 1
    ensures r.exercises[..|c.exercises|] == c.exercises
    ensures r.exercises[|c.exercises|] == NewExercise(c, id)
    ensures r.rounds == c.rounds && r.roundBreakTime == c.roundBreakTime
  {
    c.(exercises := c.exercises + [NewExercise(c, id)])
  }

  /** Adding an exercise adds its 45 seconds to every round, and to a first exercise the
      breaks between the rounds as well. */
  lemma TotalTimeAfterAdd(c: WorkoutConfig, id: string)
    ensures TotalTime(AddExercise(c, id)) ==
      TotalTime(c) + 45 * Rounds(c) + (if c.exercises == [] then Or(c.roundBreakTime, 0) * (Rounds(c) - 1) else 0)
  {
    RoundTimeAppend(c.exercises, [NewExercise(c, id)]);
    assert RoundTime([NewExercise(c, id)]) == 45;
  }

  /** The field an edit writes: `updateExercise(id, field, value)`. */
  datatype Edit = SetName(name: string) | SetWorkTime(work: int) | SetRestTime(rest: int)

  function Apply(e: Exercise, edit: Edit): (r: Exercise)
    ensures r.id == e.id
    ensures edit.SetName? ==> r.name == edit.name
    ensures edit.SetWorkTime? ==> r.workTime == edit.work
    ensures edit.SetRestTime? ==> r.restTime == edit.rest
    ensures !edit.SetName? ==> r.name == e.name
    ensures !edit.SetWorkTime? ==> r.workTime == e.workTime
    ensures !edit.SetRestTime? ==> r.restTime == e.restTime
  {
    match edit
    case SetName(name) => e.(name := name)
    case SetWorkTime(work) => e.(workTime := work)
    case SetRestTime(rest) => e.(restTime := rest)
  }

  /** updateExercise: the edit applied to every exercise with the id, nothing else touched. */
  function UpdateExercise(c: WorkoutConfig, id: string, edit: Edit): (r: WorkoutConfig)
    ensures |r.exercises| == |c.exercises|
    ensures r.rounds == c.rounds && r.roundBreakTime == c.roundBreakTime
    ensures forall i :: 0 <= i < |c.exercises| && c.exercises[i].id != id ==> r.exercises[i] == c.exercises[i]
    ensures forall i :: 0 <= i < |c.exercises| && c.exercises[i].id == id ==> r.exercises[i] == Apply(c.exercises[i], edit)
  {
    var ex := c.exercises;
    c.(exercises := seq(|ex|, i requires 0 <= i < |ex| => if ex[i].id == id then Apply(ex[i], edit) else ex[i]))
  }

  /** A later edit of the same field wins over an earlier one. */
  lemma UpdateOverwrites(c: WorkoutConfig, id: string, first: Edit, second: Edit)
    requires first.SetName? == second.SetName? && first.SetWorkTime? == second.SetWorkTime?
    ensures UpdateExercise(UpdateExercise(c, id, first), id, second) == UpdateExercise(c, id, second)
  {
    var a := UpdateExercise(UpdateExercise(c, id, first), id, second).exercises;
    var b := UpdateExercise(c, id, second).exercises;
    assert a == b;
  }

  /** Two lists with the same durations, exercise by exercise, take the same time per round. */
  lemma {:induction false} RoundTimeOfSameDurations(a: seq<Exercise>, b: seq<Exercise>)
    requires |a| == |b|
    requires forall i :: 0 <= i < |a| ==> a[i].workTime == b[i].workTime && a[i].restTime == b[i].restTime
    ensures RoundTime(a) == RoundTime(b)
  {
    if a != [] {
      RoundTimeOfSameDurations(a[1..], b[1..]);
    }
  }

  /** Renaming an exercise leaves the total time as it was. */
  lemma RenameKeepsTotalTime(c: WorkoutConfig, id: string, name: string)
    ensures TotalTime(UpdateExercise(c, id, SetName(name))) == TotalTime(c)
  {
    RoundTimeOfSameDurations(UpdateExercise(c, id, SetName(name)).exercises, c.exercises);
  }

  /** The exercises without the given id, in their original order (the `filter`). */
  function Without(ex: seq<Exercise>, id: string): (r: seq<Exercise>)
    ensures |r| <= |ex|
    ensures forall e :: e in r <==> e in ex && e.id != id
  {
    if ex == [] then []
    else (if ex[0].id == id then [] else [ex[0]]) + Without(ex[1..], id)
  }

  /** removeExercise: the exercise list filtered by id; rounds and break are kept. */
  function RemoveExercise(c: WorkoutConfig, id: string): (r: WorkoutConfig)
    ensures forall e :: e in r.exercises <==> e in c.exercises && e.id != id
    ensures r.rounds == c.rounds && r.roundBreakTime == c.roundBreakTime
  {
    c.(exercises := Without(c.exercises, id))
  }

  /** Filtering distributes over concatenation, so the survivors keep their relative order. */
  lemma {:induction false} WithoutConcat(a: seq<Exercise>, b: seq<Exercise>, id: string)
    ensures Without(a + b, id) == Without(a, id) + Without(b, id)
  {
    if a == [] {
      assert a + b == b;
    } else {
      assert (a + b)[0] == a[0];
      assert (a + b)[1..] == a[1..] + b;
      WithoutConcat(a[1..], b, id);
    }
  }

  /** Removing an id no exercise carries changes nothing. */
  lemma {:induction false} WithoutAbsent(ex: seq<Exercise>, id: string)
    requires forall i :: 0 <= i < |ex| ==> ex[i].id != id
    ensures Without(ex, id) == ex
  {
    if ex != [] {
      WithoutAbsent(ex[1..], id);
      assert [ex[0]] + ex[1..] == ex;
    }
  }

  /** Removing an id every exercise carries leaves nothing. */
  lemma {:induction false} WithoutAll(ex: seq<Exercise>, id: string)
    requires forall i :: 0 <= i < |ex| ==> ex[i].id == id
    ensures Without(ex, id) == []
  {
    if ex != [] {
      WithoutAll(ex[1..], id);
    }
  }

  /** Removing a freshly added exercise by its new id gives back the configuration. */
  lemma RemoveUndoesAdd(c: WorkoutConfig, id: string)
    requires forall i :: 0 <= i < |c.exercises| ==> c.exercises[i].id != id
    ensures RemoveExercise(AddExercise(c, id), id) == c
  {
    WithoutConcat(c.exercises, [NewExercise(c, id)], id);
    WithoutAbsent(c.exercises, id);
    assert Without([NewExercise(c, id)], id) == [];
  }

  // ---------------------------------------------------------------- input fallbacks

  /** The work-time and rest-time inputs store `parseInt(value) || 0`. */
  function DurationInput(parsed: Option<int>): (r: int)
    ensures parsed.None? ==> r == 0
    ensures parsed.Some? ==> r == parsed.value
  {
    OrMissing(parsed, 0)
  }

  /** The work-time input of one exercise. */
  function WorkTimeInput(c: WorkoutConfig, id: string, parsed: Option<int>): (r: WorkoutConfig)
    ensures |r.exercises| == |c.exercises|
    ensures forall i :: 0 <= i < |c.exercises| && c.exercises[i].id == id ==>
      r.exercises[i].workTime == (if parsed.Some? then parsed.value else 0)
  {
    UpdateExercise(c, id, SetWorkTime(DurationInput(parsed)))
  }

  /** The rest-time input of one exercise. */
  function RestTimeInput(c: WorkoutConfig, id: string, parsed: Option<int>): (r: WorkoutConfig)
    ensures |r.exercises| == |c.exercises|
    ensures forall i :: 0 <= i < |c.exercises| && c.exercises[i].id == id ==>
      r.exercises[i].restTime == (if parsed.Some? then parsed.value else 0)
  {
    UpdateExercise(c, id, SetRestTime(DurationInput(parsed)))
  }

  /** The rounds input stores `parseInt(value) || 1`, never 0, so `rounds || 1` reads it unchanged. */
  function RoundsInput(c: WorkoutConfig, parsed: Option<int>): (r: WorkoutConfig)
    ensures r.exercises == c.exercises && r.roundBreakTime == c.roundBreakTime
    ensures r.rounds != 0 && Rounds(r) == r.rounds
    ensures parsed.Some? && parsed.value != 0 ==> r.rounds == parsed.value
    ensures parsed.None? || parsed.value == 0 ==> r.rounds == 1
  {
    c.(rounds := OrMissing(parsed, 1))
  }

  /** The break input stores `parseInt(value) || 30`, never 0, so the total-time estimate
      (fallback 0) and the engine (fallback 30) read the same break. */
  function RoundBreakInput(c: WorkoutConfig, parsed: Option<int>): (r: WorkoutConfig)
    ensures r.exercises == c.exercises && r.rounds == c.rounds
    ensures r.roundBreakTime != 0 && Or(r.roundBreakTime, 0) == BreakTime(r) == r.roundBreakTime
    ensures parsed.Some? && parsed.value != 0 ==> r.roundBreakTime == parsed.value
    ensures parsed.None? || parsed.value == 0 ==> r.roundBreakTime == 30
  {
    c.(roundBreakTime := OrMissing(parsed, 30))
  }

  // ---------------------------------------------------------------- start button

  /** The start button is disabled exactly when there is no exercise. */
  predicate StartDisabled(c: WorkoutConfig) {
    |c.exercises| == 0
  }

  /** Adding an exercise always enables the start button. */
  lemma AddEnablesStart(c: WorkoutConfig, id: string)
    ensures !StartDisabled(AddExercise(c, id))
  {
  }

  /** Removing an id that every exercise carries disables it again; removing any other id
      from a list that has one without it leaves it enabled. */
  lemma RemoveAndStart(c: WorkoutConfig, id: string)
    ensures (forall i :: 0 <= i < |c.exercises| ==> c.exercises[i].id == id) <==>
      StartDisabled(RemoveExercise(c, id))
  {
    var r := RemoveExercise(c, id).exercises;
    if forall i :: 0 <= i < |c.exercises| ==> c.exercises[i].id == id {
      WithoutAll(c.exercises, id);
    } else {
      var i :| 0 <= i < |c.exercises| && c.exercises[i].id != id;
      assert c.exercises[i] in c.exercises;
      assert c.exercises[i] in r;
    }
  }
}
