/**
  The four-way branching of one card into its Again/Hard/Good/Easy
  candidates, the state-transition step, the placement of intervals and due
  dates, and the assembly of the rating-keyed outcome map.
 */
module SchedulingCards {
  import opened Models

  /** Five minutes in milliseconds: the fixed re-test delay after Again. */
  const AgainDelayMs: int := 5 * 60 * 1000

  /** One calendar-exact 24-hour day in milliseconds. */
  const DayMs: int := 24 * 60 * 60 * 1000

  /** One candidate card per rating. */
  datatype Candidates = Candidates(again: Card, hard: Card, good: Card, easy: Card) {
    function Get(g: Rating): Card {
      match g
      case Again => again
      case Hard => hard
      case Good => good
      case Easy => easy
    }
  }

  /** `b` differs from `a` at most in its state and lapse count. */
  predicate OnlyStateAndLapses(a: Card, b: Card) {
    b == a.(state := b.state, lapses := b.lapses)
  }

  /** `b` differs from `a` at most in its scheduled interval and due date. */
  predicate OnlyScheduleFields(a: Card, b: Card) {
    b == a.(scheduledDays := b.scheduledDays, due := b.due)
  }

  /** Four independent copies of the source card. */
  function Branch(c: Card): (sc: Candidates)
    ensures forall g: Rating :: sc.Get(g) == c
  {
    Candidates(c, c, c, c)
  }

  /** Assigns each candidate its next state for a card graded in state `s`,
      counting a lapse on the Again candidate where the grade is a lapse. */
  function UpdateState(sc: Candidates, s: State): (r: Candidates)
    ensures forall g: Rating :: OnlyStateAndLapses(sc.Get(g), r.Get(g))
    ensures forall g: Rating :: r.Get(g).state == Next(s, g)
    ensures forall g: Rating :: r.Get(g).lapses == sc.Get(g).lapses + (if IsLapse(s, g) then 1 else 0)
  {
    match s
    case New =>
      Candidates(
        sc.again.(state := Learning, lapses := sc.again.lapses + 1),
        sc.hard.(state := Learning),
        sc.good.(state := Learning),
        sc.easy.(state := Review))
    case Learning | Relearning =>
      Candidates(
        sc.again.(state := s),
        sc.hard.(state := Review),
        sc.good.(state := Review),
        sc.easy.(state := Review))
    case Review =>
      Candidates(
        sc.again.(state := Relearning, lapses := sc.again.lapses + 1),
        sc.hard.(state := Review),
        sc.good.(state := Review),
        sc.easy.(state := Review))
  }

  /** The lapse count rises by exactly one on Again from New or Review and
      is untouched everywhere else. */
  lemma UpdateStateLapses(sc: Candidates, s: State, g: Rating)
    ensures UpdateState(sc, s).Get(g).lapses - sc.Get(g).lapses
         == (if g == Again && (s == New || s == Review) then 1 else 0)
  {
  }

  /** The three interval lengths, in whole days, produced by the external
      prediction step. */
  datatype Intervals = Intervals(hard: nat, good: nat, easy: nat) {
    /** The interval chosen for a passing rating; Again has none. */
    function For(g: Rating): nat {
      match g
      case Again => 0
      case Hard => hard
      case Good => good
      case Easy => easy
    }
  }

  /** Places the scheduled interval and due date of every candidate. */
  function Schedule(sc: Candidates, now: int, iv: Intervals): (r: Candidates)
    ensures forall g: Rating :: OnlyScheduleFields(sc.Get(g), r.Get(g))
    ensures r.again.scheduledDays == 0 && r.again.due == now + AgainDelayMs
    ensures forall g: Rating :: g != Again ==>
      r.Get(g).scheduledDays == iv.For(g) && r.Get(g).due == now + iv.For(g) * DayMs
    ensures forall g: Rating :: g != Again ==> DaysUntil(now, r.Get(g).due) == Some(iv.For(g))
  {
    Candidates(
      sc.again.(scheduledDays := 0, due := now + AgainDelayMs),
      sc.hard.(scheduledDays := iv.hard, due := now + iv.hard * DayMs),
      sc.good.(scheduledDays := iv.good, due := now + iv.good * DayMs),
      sc.easy.(scheduledDays := iv.easy, due := now + iv.easy * DayMs))
  }

  /** The whole number of days from `now` to `due`, when `due` lies a whole
      number of days ahead. */
  function DaysUntil(now: int, due: int): (r: Option<nat>)
    ensures r.Some? <==> due >= now && (due - now) % DayMs == 0
    ensures r.Some? ==> due == now + r.value * DayMs
  {
    if due >= now && (due - now) % DayMs == 0 then Some((due - now) / DayMs) else None
  }

  /** Reading back a due date placed a whole number of days ahead gives that number. */
  lemma DaysUntilWholeDays(now: int, days: nat)
    ensures DaysUntil(now, now + days * DayMs) == Some(days)
  {
  }

  /** Due dates follow the order of the intervals: weakly, and strictly. */
  lemma ScheduleDueOrder(sc: Candidates, now: int, iv: Intervals)
    ensures iv.hard <= iv.good <= iv.easy ==>
      Schedule(sc, now, iv).hard.due <= Schedule(sc, now, iv).good.due <= Schedule(sc, now, iv).easy.due
    ensures iv.hard < iv.good < iv.easy ==>
      Schedule(sc, now, iv).hard.due < Schedule(sc, now, iv).good.due < Schedule(sc, now, iv).easy.due
  {
  }

  /** Two due dates placed from the same time are ordered as their day counts. */
  lemma IntervalOrderIsDueOrder(now: int, a: nat, b: nat, dueA: int, dueB: int)
    requires DaysUntil(now, dueA) == Some(a) && DaysUntil(now, dueB) == Some(b)
    ensures a <= b <==> dueA <= dueB
    ensures a < b <==> dueA < dueB
  {
  }

  /** With every passing interval at least one day, the Again candidate is
      due before all others. */
  lemma AgainDueFirst(sc: Candidates, now: int, iv: Intervals, g: Rating)
    requires iv.hard >= 1 && iv.good >= 1 && iv.easy >= 1
    requires g != Again
    ensures Schedule(sc, now, iv).again.due < Schedule(sc, now, iv).Get(g).due
  {
  }

  /** Pairs each candidate with its log. The log's `elapsedDays` holds the
      candidate's new scheduled interval and its `scheduledDays` holds the
      source card's elapsed days, as the source writes them. `now` is unused. */
  function RecordLog(sc: Candidates, source: Card, now: int): (m: map<Rating, SchedulingInfo>)
    ensures m.Keys == AllRatings
    ensures forall g: Rating :: g in m
    ensures forall g: Rating :: m[g].card == sc.Get(g)
    ensures forall g: Rating :: m[g].reviewLog.rating == g
    ensures forall g: Rating :: m[g].reviewLog.elapsedDays == sc.Get(g).scheduledDays
    ensures forall g: Rating :: m[g].reviewLog.scheduledDays == source.elapsedDays
    ensures forall g: Rating :: m[g].reviewLog.state == source.state
  {
    AllRatingsComplete();
    map[
      Again := SchedulingInfo(sc.again, ReviewLog(Again, sc.again.scheduledDays, source.elapsedDays, source.state)),
      Hard := SchedulingInfo(sc.hard, ReviewLog(Hard, sc.hard.scheduledDays, source.elapsedDays, source.state)),
      Good := SchedulingInfo(sc.good, ReviewLog(Good, sc.good.scheduledDays, source.elapsedDays, source.state)),
      Easy := SchedulingInfo(sc.easy, ReviewLog(Easy, sc.easy.scheduledDays, source.elapsedDays, source.state))]
  }

  /** The four logs record the same pre-grading snapshot: any two of them
      differ only in the rating and the candidate's interval. */
  lemma RecordLogSharedSnapshot(sc: Candidates, source: Card, now: int, g: Rating, h: Rating)
    ensures RecordLog(sc, source, now)[g].reviewLog
         == RecordLog(sc, source, now)[h].reviewLog.(rating := g, elapsedDays := sc.Get(g).scheduledDays)
  {
  }
}
