# Scheduling core of a spaced-repetition flashcard tool

A Dafny model of the scheduling core of a flashcard study tool written in Rust.
The core has three parts:

- **Day timing** (`CollectionBuilder::timing_for_timestamp`). It reads the
  collection's persisted creation stamp. If no stamp exists, it stores `now` as
  the stamp. It then derives the whole days elapsed since the stamp and the
  start of the next day.
- **State application** (`Collection::apply_state`, `Collection::answer_card`).
  These move a card into the successor state that the scheduler proposes for
  the user's grade, then write the card back to the card store.
- **Queue building** (`QueueBuilder`). It scans a deck's new, learning and
  review buckets into three vectors. It then builds the study queue in the
  order review, learning, new. Each entry carries the card's current state
  and its four graded successors.

Files:

- `primitives.dfy` (module `Primitives`): `u32` and `i64` as subset types of
  `int`. It also holds the two pieces of Rust arithmetic the core uses: `/` on
  `i64`, which truncates toward zero (`TruncDiv`), and the `as u32` cast,
  which keeps the low 32 bits (`AsU32`).
- `cards.dfy` (module `Cards`): the card as a value (`CardRow`) and as an
  object updated in place (`FlashCard`). It also holds the successor-state
  union (`CardState`), the four graded successors (`SchedulingStates`), the
  grade (`Answer`) and the scheduler collaborator (`Scheduler`).
- `collection.dfy` (module `Collection`): the timing context, the creation-stamp
  store, the specification `Applied` of state application, and the class
  `Collection` with `ApplyState` and `AnswerCard`.
- `queue.dfy` (module `Queue`): the queue records, the class `QueueBuilder`
  and the specification `Entries` of the queue's contents.

Collaborators whose code is not part of this model become parameters:

- `get_current_card_state` and `CardState::next_states` are the two function
  fields of `Cards.Scheduler`. Being functions, they are deterministic, so
  the same card always yields the same states.
- The card store is a `map` from id to `CardRow`. `FlashCard::load` and
  `FlashCard::save` become a map lookup and a map update.
- The creation-stamp store is the class `Collection.SessionStore`.
- `FlashCard::for_each_card_in_deck` is a `Queue.DeckScan` function. For a
  deck and a bucket it gives the cards handed to the callback, in storage
  order, and whether the scan completed or failed after those cards.
- The current time is the parameter `now`.

Behaviour of the code that the model keeps:

- Days elapsed use Rust's `/`, which truncates toward zero, followed by an
  `as u32` cast. A clock exactly one day behind the stamp therefore gives the
  largest `u32` (`Collection.ClockDayBehindStampWraps`), not 0.
- `next_day_at` is `(days_elapsed + 1) * 86400`, a number of seconds after the
  stamp, not a day index.
- A missing card makes `answer_card` abort (`unwrap`), so `AnswerCard`
  requires the id to be stored. It does not return an error.
- A successor variant other than new, learning or review leaves the card
  unchanged.
- A failed bucket scan keeps the cards it delivered before failing; the bucket
  is not emptied, and the later buckets are still scanned.
- The queue's statistics are always zero. The counters are set to 0 before the
  scan and never updated.

## Model

| member | source | states |
|---|---|---|
| `Primitives.TruncDiv` | src/models/collection.rs:43 | the quotient of `i64` division is rounded toward zero: for a non-negative dividend it is the number of whole divisors in it, and for a negative one it is the negation of that, never one below |
| `Primitives.AsU32` | src/models/collection.rs:48 | the `as u32` cast is the identity on values in `u32` range and otherwise differs from its operand by a multiple of 2^32 |
| `Collection.TimingFor` | src/models/collection.rs:43-50 | the timing context records the given `now` unchanged |
| `Collection.TimingForTimestamp` | src/models/collection.rs:31-51 | a missing stamp is replaced by `now` and an existing stamp is never overwritten; the context is computed from the stamp now stored; with no stamp it is day 0 and the next day starts 86 400 seconds after the stamp |
| `Collection.FreshStampIsDayZero` | src/models/collection.rs:35-44 | when the stamp equals `now`, days elapsed is 0 and the next day starts at 86 400 |
| `Collection.DaysElapsedCountsWholeDays` | src/models/collection.rs:43 | with the clock not behind the stamp and the day count within `u32`, `daysElapsed * 86400 <= now - stamp < (daysElapsed + 1) * 86400` |
| `Collection.NextDayFollowsElapsedTime` | src/models/collection.rs:44 | with the clock not behind the stamp, `nextDayAt` is a positive multiple of 86 400, later than the elapsed seconds and at most one day after them |
| `Collection.ClockJustBehindStampIsDayZero` | src/models/collection.rs:43 | a clock less than a day behind the stamp gives day 0 and a next day at 86 400, because the quotient is truncated |
| `Collection.ClockDayBehindStampWraps` | src/models/collection.rs:43-48 | a clock exactly one day behind the stamp gives days elapsed `2^32 - 1` through the `as u32` cast, and a next day at 0 |
| `Collection.Applied` | src/models/collection.rs:96-114 | the card keeps its id; a new, learning or review successor puts the card in that bucket; a new successor sets `due` to the position and keeps interval and memory; a learning successor sets memory and keeps `due` and interval; a review successor sets interval and memory and makes `due` fall `interval` days after today; any other successor leaves the card unchanged |
| `Collection.Collection.ApplyState` | src/models/collection.rs:96-114 | updating the card's fields in place yields exactly `Applied` of the old card, the successor and today's day count; no other object changes |
| `Collection.ApplyingTwiceIsApplyingOnce` | src/models/collection.rs:96-113 | applying the same successor a second time changes nothing more |
| `Collection.Collection.AnswerCard` | src/models/collection.rs:116-143 | the returned card and the stored card both equal `Applied` of the old stored card and the successor that the grade selects from the scheduler's states for that card; every other stored card and the timing are unchanged; every card stays stored under its own id |
| `Collection.NewCardGoodToLearning` | src/models/collection.rs:102-105 | a new card graded Good, for which the scheduler proposes a learning state with memory `m`, becomes a learning card with memory `m` and its old due value and interval |
| `Collection.ReviewCardEasyOnDayFive` | src/models/collection.rs:106-111 | a review card graded Easy on day 5, for which the scheduler proposes 10 days, is due on day 15 with interval 10 |
| `Queue.QueueBuilder.constructor` | src/models/queue.rs:48-55 | a new builder holds the given deck id and three empty bucket vectors |
| `Queue.QueueBuilder.PushEach` | src/models/queue.rs:62-78 | each of the three scan callbacks (lines 62-64, 69-71 and 76-78) appends each delivered card, in order, to the vector of the scanned bucket and to no other |
| `Queue.QueueBuilder.CollectNewCards` | src/models/queue.rs:61-82 | each bucket's vector gains that bucket's delivered cards, in storage order, after what it held before; a failed scan keeps the cards delivered before the failure and does not stop the later scans; the deck id does not change |
| `Queue.QueueBuilder.CollectCards` | src/models/queue.rs:57-59 | collecting from the collection is collecting all three buckets from its storage |
| `Cards.Select` | src/models/collection.rs:122-139 | each grade picks its own successor from the scheduler's states: Again the `again` state, Hard `hard`, Good `good`, Easy `easy` |
| `Cards.Scheduler.StatesFor` | src/models/queue.rs:84-88 | the scheduling states of a card are the scheduler's successors of the card's current state; it sits in `Cards` because `answer_card` (collection.rs:119-120) computes the same two calls |
| `Cards.SameCurrentStateSameStates` | src/models/queue.rs:84-88 | two cards in the same current state get the same scheduling states |
| `Collection.Answered` | src/models/collection.rs:116-143 | the card `answer_card` saves and returns keeps its id, lands in the bucket of the successor the grade selects (or is unchanged for an unhandled successor), and for a review successor is due `interval` days after today |
| `Queue.EntryFor` | src/models/queue.rs:108-113 | an entry carries the card's id and the scheduler's states for the card's current state |
| `Queue.Entries` | src/models/queue.rs:107-114 | one entry per card, in the same order, carrying the card's id and the scheduler's states for the card's current state |
| `Queue.EntriesOfConcatenation` | src/models/queue.rs:101-105 | the entries of two card sequences laid end to end are the two sequences' entries laid end to end |
| `Queue.QueueBuilder.BucketEntries` | src/models/queue.rs:101-105 | the entries of the review, learning and new vectors laid end to end are the entries of the build's scan order |
| `Queue.QueueBuilder.Build` | src/models/queue.rs:94-124 | the queue has one entry per collected card; entry `i` carries the id and the graded states of card `i` of review ++ learning ++ new, so review entries come first, then learning, then new, each in collection order; the statistics are all zero; the builder is not changed |

## Left out

- `CollectionBuilder::new` and `CollectionBuilder::build`: opening the SQLite file, `init_db` (which panics on failure) and reading the system clock are I/O. `now` is a parameter and a `Collection` is constructed from a store and a timing context.
- `Collection::init` and `impl Global for Collection`: registration with the UI framework.
- The `card_queues` field of `Collection`: the core never reads or writes it.
- The commented-out conversion from `Collection` to `CollectionBuilder`: it is not compiled.
- The console messages for a missing stamp and for failed scans: only their effect is modelled, which is that execution continues.
- Storage write failures: `Session::set_creation_stamp` and `FlashCard::save` are unwrapped in the source and abort on failure. The model's writes always succeed.
- Read failures other than absence: any error from `Session::get_creation_stamp` makes the source store `now` as the stamp. The model's stamp store fails only when no stamp is stored.
- Integer overflow: the `i64` subtraction `now - stamp`, the `i64` multiplication for `next_day_at` and the `u32` addition of a review's due day abort in a debug build. `TimingDefined` and `DueFits` require that they do not overflow. The `as u32` casts are modelled exactly.
- `FlashCard` fields other than id, bucket, due, interval and memory state: the core does not touch them.
- The internals of `get_current_card_state` and `CardState::next_states` are not part of this model. Both are arbitrary deterministic functions here, and nothing is assumed about the intervals they propose.
- `Builder::build` for the queue returns a `Result` that is always `Ok`. `Queue.QueueBuilder.Build` returns the queue itself.
- The double-ended queue is modelled as a sequence in front-to-back order. Operations on a built queue are not part of the core.
- Concurrency: all operations are sequential and the store has a single writer.
- Collection.DaysElapsedCountsWholeDays: holds only while the day count fits in `u32` and the clock is not behind the stamp. Outside that range the `as u32` cast wraps, as `Collection.ClockDayBehindStampWraps` shows.
