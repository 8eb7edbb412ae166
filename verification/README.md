# FSRS single-card scheduling core, in Dafny

This project models the single-card scheduling step of a Python FSRS
(Free Spaced Repetition Scheduler) implementation. One card snapshot is
graded, and the model produces the four hypothetical outcomes, one for each
rating: Again, Hard, Good and Easy. Each outcome pairs a candidate card with
its review log.

- `models.dfy`, module `Models`: the data model. It holds the `State` and
  `Rating` enums and their integer codes, the `Card` and `ReviewLog` records,
  the `SchedulingInfo` pair, and the fresh card. It also holds the shape and
  defaults of `Parameters`, and the state-transition table `Next` with its
  lapse predicate `IsLapse`. The contracts of `Next` and `IsLapse` state the
  table's properties.
- `scheduling_cards.dfy`, module `SchedulingCards`: the four-way branching
  `Branch` (the deep copies made by the constructor). Then `UpdateState`,
  `Schedule` and `RecordLog`, one function per method of the source class.
- `grading.dfy`, module `Grading`: the whole step as a caller drives it.
  `Outcomes` composes branch, update, schedule and record. `Commit` keeps the
  outcome for the learner's actual rating. `Replay` commits a sequence of
  gradings. The lifecycle invariants are proved over `Replay`: lapses only
  grow, and only on failing grades; a card is New only before its first
  grading; a concrete replay follows the abstract state machine `Run`.

Every operation is a pure function over immutable datatypes. The source
copies the card four times and mutates the copies. Here the four candidates
are values, so they cannot alias the source card or each other.

The state given to `update_state` is a parameter, separate from the
candidates' own state, as in the source. `Outcomes` passes the source
card's state, as the caller does.

The source's `record_log` crosses two fields. The log's `elapsed_days`
receives the candidate's new `scheduled_days`. The log's `scheduled_days`
receives the source card's `elapsed_days`. The model keeps this exactly
as written (`src/fsrs/models.py:113-116`).

## Model

| member | source | states |
|---|---|---|
| Models.StateCode | src/fsrs/models.py:14-17 | the stored codes are fixed: New is 0, Learning is 1, Review is 2 and Relearning is 3 |
| Models.StateFromCode | src/fsrs/models.py:14-17 | a stored code names a state exactly when it lies in 0..3, and then it names the state whose code it is (0 New, 1 Learning, 2 Review, 3 Relearning) |
| Models.StateCodeRoundTrip | src/fsrs/models.py:14-17 | encoding and decoding a state are mutually inverse |
| Models.RatingCode | src/fsrs/models.py:19-22 | the map keys are fixed: Again is 0, Hard is 1, Good is 2 and Easy is 3 |
| Models.RatingFromCode | src/fsrs/models.py:19-22 | a key names a rating exactly when it lies in 0..3, and then it names the rating whose key it is (0 Again, 1 Hard, 2 Good, 3 Easy) |
| Models.RatingCodeRoundTrip | src/fsrs/models.py:19-22 | encoding and decoding a rating are mutually inverse |
| Models.NewCard | src/fsrs/models.py:49-58 | a fresh card is New, and every counter, timestamp and memory value is 0 |
| Models.DefaultParameters | src/fsrs/models.py:127-132 | the default retention is strictly between 0 and 1; the maximum interval is 36500 days; the easy bonus is at least 1; there are 13 weights |
| Models.Next | src/fsrs/models.py:82-99 | the transition table, read rating by rating: no grading leads to New; a candidate is in Review exactly when it is rated Easy, or rated Hard or Good from a state other than New; it is in Learning exactly when it is rated Again, Hard or Good from New, or Again from Learning; it is in Relearning exactly when it is rated Again from Review or Relearning |
| Models.IsLapse | src/fsrs/models.py:82-99 | a grade is a lapse (the two `lapses += 1` sites) exactly when it is Again from New or from Review |
| Models.NextTable | src/fsrs/models.py:82-99 | read state by state: New goes to Learning, or to Review on Easy; (re)learning stays put on Again and otherwise goes to Review; Review goes to Relearning on Again and otherwise stays in Review |
| SchedulingCards.Branch | src/fsrs/models.py:76-80 | all four candidates equal the source card field for field |
| SchedulingCards.UpdateState | src/fsrs/models.py:82-99 | each candidate takes the table's next state for its rating; its lapse count rises by 1 exactly on a lapse; every other field is unchanged |
| SchedulingCards.UpdateStateLapses | src/fsrs/models.py:82-99 | the lapse count rises by exactly 1 on Again from New or Review, and by 0 for every other rating and state |
| SchedulingCards.Schedule | src/fsrs/models.py:101-109 | Again gets 0 scheduled days and is due 5 minutes (300000 ms) after `now`; each other candidate gets its interval and is due `now + interval * 86400000`, which `DaysUntil` reads back as that interval; nothing else changes |
| SchedulingCards.DaysUntil | src/fsrs/models.py:107-109 | the inverse of due placement: it recovers the day count exactly when the due date lies a whole number of days ahead |
| SchedulingCards.DaysUntilWholeDays | src/fsrs/models.py:107-109 | placing a due date a whole number of days ahead and reading it back returns that number |
| SchedulingCards.ScheduleDueOrder | src/fsrs/models.py:101-109 | ordered intervals give ordered due dates: hard <= good <= easy gives the same order of dues, and strict order gives strict order |
| SchedulingCards.IntervalOrderIsDueOrder | src/fsrs/models.py:107-109 | for two due dates placed from the same `now`, the day counts and the due dates are ordered the same way, both weakly and strictly |
| SchedulingCards.AgainDueFirst | src/fsrs/models.py:106-109 | when every passing interval is at least one day, the Again candidate is due before every other candidate |
| SchedulingCards.RecordLog | src/fsrs/models.py:111-117 | the keys are exactly the four ratings; each entry holds that rating's candidate unchanged and a log carrying the key as its rating, the candidate's scheduled days as elapsed days, and the source card's elapsed days and state |
| SchedulingCards.RecordLogSharedSnapshot | src/fsrs/models.py:111-117 | any two of the four logs differ only in the rating and the candidate's interval: all of them record the same pre-grading snapshot |
| Grading.Outcomes | src/fsrs/models.py:76-117 | the composed step: for every rating, the outcome card differs from the source only in state, lapses, scheduled days and due; these follow the table, the lapse rule and the interval placement; the log is as recorded |
| Grading.FreshCardFirstGrading | src/fsrs/models.py:83-88 | from a fresh card, Again gives Learning with 1 lapse, and Easy gives Review with 0 lapses |
| Grading.DueDatesExample | src/fsrs/models.py:106-109 | from time 0 with intervals 1, 3 and 7 days, the dues are 300000, 86400000, 259200000 and 604800000 ms |
| Grading.Commit | src/fsrs/models.py:76-117 | the committed card follows the transition table and the lapse rule for the actual rating; its scheduled days are the rating's interval (0 for Again); it is due 5 minutes after `now` on Again and `interval * 86400000` ms after `now` otherwise; no other field changes |
| Grading.ReplayRefinesRun | src/fsrs/models.py:82-99 | after any sequence of committed gradings, the card's state is that of the abstract lifecycle, and its lapses grew by exactly the lapses that lifecycle counts |
| Grading.LapseCountBounds | src/fsrs/models.py:82-99 | along any sequence of ratings, the lifecycle counts at most one lapse per Again |
| Grading.ReplayLapses | src/fsrs/models.py:82-99 | lapses never decrease, and grow by at most the number of Again ratings |
| Grading.RunLeavesNew | src/fsrs/models.py:82-99 | after at least one rating, the abstract lifecycle is never in New |
| Grading.ReplayLeavesNew | src/fsrs/models.py:82-99 | a card is New only before its first committed grading |
| Grading.ReplayKeepsCarriedFields | src/fsrs/models.py:76-117 | `update_state`, `schedule` and `record_log` never write stability, difficulty, reps, elapsed days or the last-review time, over any number of committed gradings |

## Left out

- `date_to_ms` and `ms_to_date` (`src/fsrs/models.py:6-11`): these are wall-clock and calendar conversions. `date_to_ms` ignores its argument and reads the current UTC time.
- Floating point: `stability`, `difficulty` and the `Parameters` values are exact reals here. Nothing in this core reads them.
- SchedulingCards.Schedule: takes whole-day `nat` intervals, while the source accepts floats. Fractional days, with float rounding and truncation, are not modelled. Negative intervals cannot be passed. For every whole n from 0 to 999999999, the source's `int(timedelta(days=n).total_seconds() * 1000)` is exactly `n * 86400000`. Above 999999999 days `timedelta` raises `OverflowError`. The model returns `now + n * 86400000` for every `n` and has no such error path. Callers clamp intervals to at most the 36500-day maximum, far below both limits.
- SchedulingCards.UpdateState: the source silently does nothing for a state code outside 0..3. Here `State` has exactly four values, so that branch cannot arise. `StateFromCode` returns `None` for such codes.
- The prediction function that computes the three intervals from the weights and the card's stability and difficulty is not part of this model. The intervals are parameters.
- The `now` argument of `record_log` is unused in the source. It is kept as an unused parameter.
- Grading.ReplayKeepsCarriedFields: `Commit` is only this core's part of a grading. In the full program, the caller also sets the next `stability` and `difficulty` from the prediction step. It also increments `reps` and sets `elapsed_days` and `last_review`. None of that code is part of this model, so `Replay` leaves those five fields unchanged.
- Python object identity and deep-copy aliasing: value-semantics datatypes cannot alias, so there is nothing to state.
