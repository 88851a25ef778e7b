/** The pre-roll countdown shown before a workout: a counter from 3 down to 0 that
    requests a cue each second and then hands over to the timer. */
module Countdown {
  import opened Workout

  /** The cues requested by the time the counter shows `count`: one on mount, one for
      each step down to 1, and the start cue on reaching 0. */
  function CuesSoFar(count: int): (cues: seq<Cue>)
    requires 0 <= count <= 3
  {
    if count == 0 then [CountdownCue, CountdownCue, CountdownCue, StartCue]
    else seq(4 - count, _ => CountdownCue)
  }

  class PreRoll {
    var count: int
    /** The one-second interval is set. */
    var armed: bool
    /** How many times the completion callback has been scheduled. */
    var completions: nat
    var cues: seq<Cue>

    /** The counter stays within 3..0, ticks exactly while above 0, has scheduled the
        completion once exactly when it is at 0, and has requested the cues for the
        steps taken so far. */
    ghost predicate Valid()
      reads this
    {
      && 0 <= count <= 3
      && (armed <==> count > 0)
      && completions == (if count == 0 then 1 else 0)
      && cues == CuesSoFar(count)
    }

    /** Mounting: the counter shows 3, a countdown cue is requested at once, and the
        interval is set. */
    constructor ()
      ensures Valid() && count == 3 && armed && completions == 0 && cues == [CountdownCue]
    {
      count := 3;
      cues := [CountdownCue];
      armed := true;
      completions := 0;
    }

    /** One firing of the interval; after the counter reaches 0 the interval is cleared
        and further ticks change nothing. */
    method Tick()
      requires Valid()
      modifies this
      ensures Valid()
      ensures !old(armed) ==> count == old(count) && cues == old(cues) && completions == old(completions)
      ensures old(armed) ==> count == old(count) - 1
      ensures old(armed) && old(count) > 1 ==> cues == old(cues) + [CountdownCue] && armed
      ensures old(armed) && old(count) <= 1 ==>
        cues == old(cues) + [StartCue] && !armed && completions == old(completions) + 1
    {
      if !armed {
        return;
      }
      if count <= 1 {
        armed := false;
        cues := cues + [StartCue];
        completions := completions + 1;
        count := 0;
        return;
      }
      cues := cues + [CountdownCue];
      count := count - 1;
    }
  }

  /** The countdown's whole life: mounted and ticked until the interval is gone, it shows
      3, 2, 1, 0 and stays at 0; it requests three countdown cues and then one start cue,
      and schedules the completion exactly once. */
  method MountAndRunDown() returns (shown: seq<int>, cues: seq<Cue>, completions: nat)
    ensures shown == [3, 2, 1, 0, 0]
    ensures cues == [CountdownCue, CountdownCue, CountdownCue, StartCue]
    ensures completions == 1
  {
    var p := new PreRoll();
    shown := [p.count];
    p.Tick();
    shown := shown + [p.count];
    p.Tick();
    shown := shown + [p.count];
    p.Tick();
    shown := shown + [p.count];
    p.Tick();
    shown := shown + [p.count];
    cues := p.cues;
    completions := p.completions;
  }
}
