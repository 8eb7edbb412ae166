/**
  The whole grading step as the caller drives it: branch the card, update
  the states, place the intervals, record the logs; then commit the outcome
  for the learner's actual rating. Repeating the commit over a sequence of
  gradings gives the card's history, about which the lifecycle invariants
  of the data model are proved.
 */
module Grading {
  import opened Models
  import opened SchedulingCards

  /** The four outcomes of grading `c` at time `now`. */
  function Outcomes(c: Card, now: int, iv: Intervals): (m: map<Rating, SchedulingInfo>)
    ensures m.Keys == AllRatings
    ensures forall g: Rating :: g in m
    ensures forall g: Rating :: OnlyTransitionFields(c, m[g].card)
    ensures forall g: Rating :: m[g].card.state == Next(c.state, g)
    ensures forall g: Rating :: m[g].card.lapses == c.lapses + (if IsLapse(c.state, g) then 1 else 0)
    ensures m[Again].card.scheduledDays == 0 && m[Again].card.due == now + AgainDelayMs
    ensures forall g: Rating :: g != Again ==>
      m[g].card.scheduledDays == iv.For(g) && m[g].card.due == now + iv.For(g) * DayMs
    ensures forall g: Rating :: m[g].reviewLog == ReviewLog(g, m[g].card.scheduledDays, c.elapsedDays, c.state)
  {
    RecordLog(Schedule(UpdateState(Branch(c), c.state), now, iv), c, now)
  }

  /** `b` differs from `a` at most in the fields one grading step sets. */
  predicate OnlyTransitionFields(a: Card, b: Card) {
    b == a.(state := b.state, lapses := b.lapses, scheduledDays := b.scheduledDays, due := b.due)
  }

  /** A first grading of a fresh card: a failed first attempt is a lapse,
      and Easy graduates to Review without one. */
  lemma FreshCardFirstGrading(now: int, iv: Intervals)
    ensures Outcomes(NewCard(), now, iv)[Again].card.state == Learning
    ensures Outcomes(NewCard(), now, iv)[Again].card.lapses == 1
    ensures Outcomes(NewCard(), now, iv)[Easy].card.state == Review
    ensures Outcomes(NewCard(), now, iv)[Easy].card.lapses == 0
  {
  }

  /** Intervals of 1, 3 and 7 days from time 0 give these exact due dates. */
  lemma DueDatesExample(c: Card)
    ensures Outcomes(c, 0, Intervals(1, 3, 7))[Again].card.due == 300000
    ensures Outcomes(c, 0, Intervals(1, 3, 7))[Hard].card.due == 86400000
    ensures Outcomes(c, 0, Intervals(1, 3, 7))[Good].card.due == 259200000
    ensures Outcomes(c, 0, Intervals(1, 3, 7))[Easy].card.due == 604800000
  {
  }

  /** One grading event: the learner's rating, the time and the predicted intervals. */
  datatype GradingEvent = GradingEvent(rating: Rating, now: int, intervals: Intervals)

  /** The card the caller keeps after a grading: the outcome for the actual rating. */
  function Commit(c: Card, e: GradingEvent): (c': Card)
    ensures OnlyTransitionFields(c, c')
    ensures c'.state == Next(c.state, e.rating)
    ensures c'.lapses == c.lapses + (if IsLapse(c.state, e.rating) then 1 else 0)
    ensures c'.scheduledDays == e.intervals.For(e.rating)
    ensures c'.due == e.now + (if e.rating == Again then AgainDelayMs else e.intervals.For(e.rating) * DayMs)
  {
    Outcomes(c, e.now, e.intervals)[e.rating].card
  }

  /** The card after committing each grading of `es` in turn. */
  function Replay(c: Card, es: seq<GradingEvent>): Card
    decreases |es|
  {
    if |es| == 0 then c else Replay(Commit(c, es[0]), es[1..])
  }

  /** The abstract lifecycle: the state after a sequence of ratings. */
  function Run(s: State, es: seq<GradingEvent>): State
    decreases |es|
  {
    if |es| == 0 then s else Run(Next(s, es[0].rating), es[1..])
  }

  /** The lapses the abstract lifecycle counts along a sequence of ratings. */
  function LapseCount(s: State, es: seq<GradingEvent>): nat
    decreases |es|
  {
    if |es| == 0 then 0
    else (if IsLapse(s, es[0].rating) then 1 else 0) + LapseCount(Next(s, es[0].rating), es[1..])
  }

  /** The number of failing grades in a sequence. */
  function CountAgain(es: seq<GradingEvent>): nat
    decreases |es|
  {
    if |es| == 0 then 0 else (if es[0].rating == Again then 1 else 0) + CountAgain(es[1..])
  }

  /** Committed gradings follow the abstract lifecycle, in state and in lapses. */
  lemma {:induction false} ReplayRefinesRun(c: Card, es: seq<GradingEvent>)
    ensures Replay(c, es).state == Run(c.state, es)
    ensures Replay(c, es).lapses == c.lapses + LapseCount(c.state, es)
    decreases |es|
  {
    if |es| > 0 {
      ReplayRefinesRun(Commit(c, es[0]), es[1..]);
    }
  }

  /** Lapses never fall, and rise at most once per failing grade. */
  lemma {:induction false} LapseCountBounds(s: State, es: seq<GradingEvent>)
    ensures LapseCount(s, es) <= CountAgain(es)
    decreases |es|
  {
    if |es| > 0 {
      LapseCountBounds(Next(s, es[0].rating), es[1..]);
    }
  }

  lemma ReplayLapses(c: Card, es: seq<GradingEvent>)
    ensures c.lapses <= Replay(c, es).lapses <= c.lapses + CountAgain(es)
  {
    ReplayRefinesRun(c, es);
    LapseCountBounds(c.state, es);
  }

  /** A card is New only before its first grading. */
  lemma {:induction false} RunLeavesNew(s: State, es: seq<GradingEvent>)
    requires |es| > 0
    ensures Run(s, es) != New
    decreases |es|
  {
    if |es| > 1 {
      RunLeavesNew(Next(s, es[0].rating), es[1..]);
    }
  }

  lemma ReplayLeavesNew(c: Card, es: seq<GradingEvent>)
    requires |es| > 0
    ensures Replay(c, es).state != New
  {
    ReplayRefinesRun(c, es);
    RunLeavesNew(c.state, es);
  }

  /** The branch, update, schedule and record steps never write the
      memory-model values, the repetition count, the elapsed days or the
      last-review time; the caller sets those outside this core. */
  lemma {:induction false} ReplayKeepsCarriedFields(c: Card, es: seq<GradingEvent>)
    ensures Replay(c, es).stability == c.stability
    ensures Replay(c, es).difficulty == c.difficulty
    ensures Replay(c, es).reps == c.reps
    ensures Replay(c, es).elapsedDays == c.elapsedDays
    ensures Replay(c, es).lastReview == c.lastReview
    decreases |es|
  {
    if |es| > 0 {
      ReplayKeepsCarriedFields(Commit(c, es[0]), es[1..]);
    }
  }
}
