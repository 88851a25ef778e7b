/** The saved-workout list: one card per saved workout with its name, counts, estimated
    time and the first few exercise names. */
module WorkoutList {
  import opened Workout
  import opened Decimal
  import Config

  /** A named configuration kept by the list. */
  datatype SavedWorkout = SavedWorkout(id: string, name: string, config: WorkoutConfig)

  /** What a card shows. */
  datatype Card = Card(name: string, exerciseCount: int, roundLabel: string, time: string,
                       pills: seq<string>, more: Option<string>)

  datatype ListView = EmptyState | Grid(cards: seq<Card>)

  /** At most this many exercise names are shown on a card. */
  const MaxPills := 8

  /** The names of the first exercises (`slice(0, 8)`), in order. */
  function Pills(ex: seq<Exercise>): (names: seq<string>)
    ensures |names| == if |ex| < MaxPills then |ex| else MaxPills
    ensures forall i :: 0 <= i < |names| ==> names[i] == ex[i].name
  {
    var shown := if |ex| < MaxPills then ex else ex[..MaxPills];
    seq(|shown|, i requires 0 <= i < |shown| => shown[i].name)
  }

  /** The "+n more" pill, present exactly when some exercise names are not shown; n is
      the number left out, so the pills and n together account for every exercise. */
  function MorePill(ex: seq<Exercise>): (pill: Option<string>)
    ensures pill.Some? <==> |ex| > MaxPills
    ensures pill.Some? ==> pill.value == "+" + NatToString(|ex| - |Pills(ex)|) + " more"
  {
    if |ex| > MaxPills then Some("+" + NatToString(|ex| - MaxPills) + " more") else None
  }

  /** The round count label: `rounds || 1`, with a plural "s" whenever the stored count is
      not 1, so a stored 0 reads "1 rounds". */
  function RoundLabel(rounds: int): (text: string)
    ensures |text| > |IntToString(Or(rounds, 1))|
    ensures rounds == 1 ==> text == "1 round"
    ensures rounds == 0 ==> text == "1 rounds"
    ensures text[|text| - 1] == 's' <==> rounds != 1
    ensures text[..|IntToString(Or(rounds, 1))|] == IntToString(Or(rounds, 1))
  {
    IntToString(Or(rounds, 1)) + " round" + (if rounds != 1 then "s" else "")
  }

  function CardOf(w: SavedWorkout): (card: Card)
    ensures card.name == w.name && card.exerciseCount == |w.config.exercises|
    ensures card.roundLabel == RoundLabel(w.config.rounds)
    ensures card.time == Config.FormatTime(Config.TotalTime(w.config))
    ensures card.pills == Pills(w.config.exercises) && card.more == MorePill(w.config.exercises)
    ensures |card.pills| + (if card.more.Some? then |w.config.exercises| - MaxPills else 0) == |w.config.exercises|
  {
    var ex := w.config.exercises;
    Card(w.name, |ex|, RoundLabel(w.config.rounds), Config.FormatTime(Config.TotalTime(w.config)),
         Pills(ex), MorePill(ex))
  }

  /** The screen: the empty-state message exactly when nothing is saved, otherwise one
      card per saved workout in list order. */
  function View(saved: seq<SavedWorkout>): (v: ListView)
    ensures v.EmptyState? <==> |saved| == 0
    ensures v.Grid? ==> |v.cards| == |saved|
    ensures v.Grid? ==> forall i :: 0 <= i < |saved| ==> v.cards[i] == CardOf(saved[i])
  {
    if |saved| == 0 then EmptyState
    else Grid(seq(|saved|, i requires 0 <= i < |saved| => CardOf(saved[i])))
  }
}
