/**
  The data model of the FSRS single-card scheduler: card lifecycle states,
  learner ratings, the card snapshot, the review log, the outcome pair and
  the parameter bundle, together with the state-transition table that the
  scheduling step follows.
 */
module Models {

  datatype Option<+T> = None | Some(value: T)

  /** The lifecycle phase of a card. */
  datatype State = New | Learning | Review | Relearning

  /** The learner's self-assessed recall quality. */
  datatype Rating = Again | Hard | Good | Easy

  /** Every rating; the key set of a complete outcome map. */
  const AllRatings: set<Rating> := {Again, Hard, Good, Easy}

  lemma AllRatingsComplete()
    ensures forall g: Rating :: g in AllRatings
  {
    forall g: Rating ensures g in AllRatings {
      match g
      case Again =>
      case Hard =>
      case Good =>
      case Easy =>
    }
  }

  /** The integer code of a state, as stored by the caller. */
  function StateCode(s: State): (n: nat)
    ensures n == 0 <==> s == New
    ensures n == 1 <==> s == Learning
    ensures n == 2 <==> s == Review
    ensures n == 3 <==> s == Relearning
  {
    match s
    case New => 0
    case Learning => 1
    case Review => 2
    case Relearning => 3
  }

  /** Decodes a stored state code; codes outside 0..3 name no state. */
  function StateFromCode(n: int): (r: Option<State>)
    ensures r.Some? <==> 0 <= n < 4
    ensures r.Some? ==> StateCode(r.value) == n
  {
    if n == 0 then Some(New)
    else if n == 1 then Some(Learning)
    else if n == 2 then Some(Review)
    else if n == 3 then Some(Relearning)
    else None
  }

  lemma StateCodeRoundTrip(s: State, n: int)
    ensures StateFromCode(StateCode(s)) == Some(s)
    ensures StateFromCode(n) == Some(s) ==> StateCode(s) == n
  {
  }

  /** The integer code of a rating: the key of the outcome map. */
  function RatingCode(g: Rating): (n: nat)
    ensures n == 0 <==> g == Again
    ensures n == 1 <==> g == Hard
    ensures n == 2 <==> g == Good
    ensures n == 3 <==> g == Easy
  {
    match g
    case Again => 0
    case Hard => 1
    case Good => 2
    case Easy => 3
  }

  /** Decodes a rating key; keys outside 0..3 name no rating. */
  function RatingFromCode(n: int): (r: Option<Rating>)
    ensures r.Some? <==> 0 <= n < 4
    ensures r.Some? ==> RatingCode(r.value) == n
  {
    if n == 0 then Some(Again)
    else if n == 1 then Some(Hard)
    else if n == 2 then Some(Good)
    else if n == 3 then Some(Easy)
    else None
  }

  lemma RatingCodeRoundTrip(g: Rating, n: int)
    ensures RatingFromCode(RatingCode(g)) == Some(g)
    ensures RatingFromCode(n) == Some(g) ==> RatingCode(g) == n
  {
  }

  /** An audit record of one grading event. The field names are those of the
      source; what `RecordLog` stores in them is crossed (see there). */
  datatype ReviewLog = ReviewLog(rating: Rating, elapsedDays: int, scheduledDays: int, state: State)

  /** The per-item memory-state snapshot. `stability` and `difficulty` are
      carried through unread; `due` and `lastReview` are epoch milliseconds. */
  datatype Card = Card(
    due: int,
    stability: real,
    difficulty: real,
    elapsedDays: int,
    scheduledDays: int,
    reps: int,
    lapses: int,
    state: State,
    lastReview: int)

  /** A card that has never been graded. */
  function NewCard(): (c: Card)
    ensures c.state == New
    ensures c.due == 0 && c.lastReview == 0
    ensures c.stability == 0.0 && c.difficulty == 0.0
    ensures c.elapsedDays == 0 && c.scheduledDays == 0
    ensures c.reps == 0 && c.lapses == 0
  {
    Card(0, 0.0, 0.0, 0, 0, 0, 0, New, 0)
  }

  /** A candidate card paired with the log that explains how it was reached. */
  datatype SchedulingInfo = SchedulingInfo(card: Card, reviewLog: ReviewLog)

  /** The configuration bundle of the scheduler. Its values are
      floating-point in the source; here they are exact reals. */
  datatype Parameters = Parameters(
    requestRetention: real,
    maximumInterval: int,
    easyBonus: real,
    hardFactor: real,
    w: seq<real>)

  /** The default parameters. */
  function DefaultParameters(): (p: Parameters)
    ensures 0.0 < p.requestRetention < 1.0
    ensures p.maximumInterval == 36500
    ensures p.easyBonus >= 1.0
    ensures |p.w| == 13
  {
    Parameters(0.9, 36500, 1.3, 1.2,
      [1.0, 1.0, 5.0, -0.5, -0.5, 0.2, 1.4, -0.12, 0.8, 2.0, -0.2, 0.2, 1.0])
  }

  /** The transition table, read rating by rating: the state the candidate
      for rating `g` takes when the card is graded in state `s`. */
  function Next(s: State, g: Rating): (t: State)
    ensures t != New
    ensures t == Review <==> g == Easy || (g != Again && s != New)
    ensures g == Again ==> (t == s <==> s == Learning || s == Relearning)
    ensures t == Learning <==> (s == New && g != Easy) || (s == Learning && g == Again)
    ensures t == Relearning <==> g == Again && (s == Review || s == Relearning)
  {
    match g
    case Again =>
      (match s
       case New => Learning
       case Review => Relearning
       case _ => s)
    case Easy => Review
    case _ => if s == New then Learning else Review
  }

  /** A lapse is a failing grade that moves the card to another phase:
      exactly a failed first attempt or a failed mature card, never a
      failing grade during (re)learning. */
  predicate IsLapse(s: State, g: Rating)
    ensures IsLapse(s, g) <==> g == Again && (s == New || s == Review)
  {
    g == Again && Next(s, g) != s
  }

  /** The table, read state by state. */
  lemma NextTable(s: State, g: Rating)
    ensures s == New ==> Next(s, g) == (if g == Easy then Review else Learning)
    ensures s == Learning || s == Relearning ==> Next(s, g) == (if g == Again then s else Review)
    ensures s == Review ==> Next(s, g) == (if g == Again then Relearning else Review)
  {
  }
}
