/** The collection: the day-timing context derived from the store's creation
    stamp, and the application of a graded answer to a stored card. */
module Collection {
  import opened Primitives
  import opened Cards

  const SECONDS_PER_DAY: int := 86_400

  /** `SchedTimingToday`: the time the collection was opened, the whole days
      since the creation stamp, and the start of the next day. */
  datatype SchedTimingToday = SchedTimingToday(now: i64, daysElapsed: u32, nextDayAt: i64)

  // ---------------------------------------------------------------------------
  // Day timing

  /** The elapsed seconds and the start of the next day both fit in `i64`;
      otherwise the subtraction or the multiplication overflows. */
  predicate TimingDefined(stamp: i64, now: i64) {
    InI64(now - stamp) &&
    InI64((TruncDiv(now - stamp, SECONDS_PER_DAY) + 1) * SECONDS_PER_DAY)
  }

  /** The timing context for a creation stamp and the current time. */
  function TimingFor(stamp: i64, now: i64): (t: SchedTimingToday)
    requires TimingDefined(stamp, now)
    ensures t.now == now
  {
    var daysElapsed := TruncDiv(now - stamp, SECONDS_PER_DAY);
    SchedTimingToday(now, AsU32(daysElapsed), (daysElapsed + 1) * SECONDS_PER_DAY)
  }

  /** The one-key session store holding the collection's creation stamp. */
  class SessionStore {
    var creationStamp: Option<i64>

    constructor (stamp: Option<i64>)
      ensures creationStamp == stamp
    {
      creationStamp := stamp;
    }

    /** `Session::get_creation_stamp`: fails when no stamp is stored. */
    method GetCreationStamp() returns (r: Option<i64>)
      ensures r == creationStamp
    {
      r := creationStamp;
    }

    /** `Session::set_creation_stamp`. */
    method SetCreationStamp(stamp: i64)
      modifies this
      ensures creationStamp == Some(stamp)
    {
      creationStamp := Some(stamp);
    }
  }

  /** `CollectionBuilder::timing_for_timestamp`: reads the creation stamp,
      storing `now` as the stamp when there is none, and derives the timing
      context from it. */
  method TimingForTimestamp(session: SessionStore, now: i64) returns (t: SchedTimingToday)
    requires session.creationStamp.Some? ==> TimingDefined(session.creationStamp.value, now)
    modifies session
    ensures session.creationStamp ==
      if old(session.creationStamp).None? then Some(now) else old(session.creationStamp)
    ensures t == TimingFor(session.creationStamp.value, now)
    ensures old(session.creationStamp).None? ==> t == SchedTimingToday(now, 0, SECONDS_PER_DAY)
  {
    var stampRead := session.GetCreationStamp();
    var creationStamp: i64;
    if stampRead.None? {
      // The missing stamp is reported on the console and then initialised.
      session.SetCreationStamp(now);
      creationStamp := now;
    } else {
      creationStamp := stampRead.value;
    }
    var daysElapsed := TruncDiv(now - creationStamp, SECONDS_PER_DAY);
    var nextDayAt := (daysElapsed + 1) * SECONDS_PER_DAY;
    t := SchedTimingToday(now, AsU32(daysElapsed), nextDayAt);
  }

  /** A first opening, with no stamp stored yet, is on day zero and the next
      day starts one day after the stamp. */
  lemma FreshStampIsDayZero(now: i64)
    ensures TimingDefined(now, now)
    ensures TimingFor(now, now) == SchedTimingToday(now, 0, SECONDS_PER_DAY)
  {
  }

  /** When the clock is not behind the stamp and the day count fits in `u32`,
      `daysElapsed` is the number of whole days in the elapsed time. */
  lemma DaysElapsedCountsWholeDays(stamp: i64, now: i64)
    requires TimingDefined(stamp, now)
    requires stamp <= now < stamp + U32_LIMIT * SECONDS_PER_DAY
    ensures TimingFor(stamp, now).daysElapsed * SECONDS_PER_DAY <= now - stamp
    ensures now - stamp < (TimingFor(stamp, now).daysElapsed + 1) * SECONDS_PER_DAY
  {
  }

  /** When the clock is not behind the stamp, the next day starts at a positive
      multiple of a day, after the elapsed time (measured from the stamp). */
  lemma NextDayFollowsElapsedTime(stamp: i64, now: i64)
    requires TimingDefined(stamp, now)
    requires stamp <= now
    ensures 0 < TimingFor(stamp, now).nextDayAt
    ensures TimingFor(stamp, now).nextDayAt % SECONDS_PER_DAY == 0
    ensures now - stamp < TimingFor(stamp, now).nextDayAt <= now - stamp + SECONDS_PER_DAY
  {
  }

  /** A clock less than a day behind the stamp still yields day zero: the
      quotient is truncated toward zero, not rounded down to -1. */
  lemma ClockJustBehindStampIsDayZero(stamp: i64, now: i64)
    requires TimingDefined(stamp, now)
    requires stamp - SECONDS_PER_DAY < now < stamp
    ensures TimingFor(stamp, now).daysElapsed == 0
    ensures TimingFor(stamp, now).nextDayAt == SECONDS_PER_DAY
  {
  }

  /** A clock a whole day behind the stamp gives the quotient -1, which the
      `as u32` cast turns into the largest `u32`; the next day starts at 0. */
  lemma ClockDayBehindStampWraps(stamp: i64, now: i64)
    requires TimingDefined(stamp, now)
    requires now == stamp - SECONDS_PER_DAY
    ensures TimingFor(stamp, now).daysElapsed == U32_LIMIT - 1
    ensures TimingFor(stamp, now).nextDayAt == 0
  {
  }

  // ---------------------------------------------------------------------------
  // State application

  /** A successor `apply_state` acts on; any other variant is ignored. */
  predicate Handled(next: CardState) {
    next.NewState? || next.LearningState? || next.ReviewState?
  }

  /** The bucket a handled successor moves the card into. */
  function BucketOf(next: CardState): CardQueue
    requires Handled(next)
  {
    match next
    case NewState(_) => CardQueue.New
    case LearningState(_) => CardQueue.Learning
    case ReviewState(_, _) => CardQueue.Review
  }

  /** The review due day `daysElapsed + scheduledDays` fits in `u32`; the
      addition of the two `u32` values overflows otherwise. */
  predicate DueFits(next: CardState, daysElapsed: u32) {
    next.ReviewState? ==> daysElapsed + next.scheduledDays < U32_LIMIT
  }

  /** The card after a successor state is applied on day `daysElapsed`. */
  function Applied(card: CardRow, next: CardState, daysElapsed: u32): (r: CardRow)
    requires DueFits(next, daysElapsed)
    ensures r.id == card.id
    ensures Handled(next) ==> r.queue == BucketOf(next)
    ensures !Handled(next) ==> r == card
    ensures next.NewState? ==>
      r.due == AsU32(next.position) &&
      r.interval == card.interval && r.memoryState == card.memoryState
    ensures next.LearningState? ==>
      r.memoryState == next.memoryState &&
      r.due == card.due && r.interval == card.interval
    ensures next.ReviewState? ==>
      r.interval == next.scheduledDays && r.memoryState == next.memoryState &&
      r.due == daysElapsed + r.interval
  {
    match next
    case NewState(position) =>
      card.(queue := CardQueue.New, due := AsU32(position))
    case LearningState(memoryState) =>
      card.(queue := CardQueue.Learning, memoryState := memoryState)
    case ReviewState(scheduledDays, memoryState) =>
      card.(queue := CardQueue.Review, interval := scheduledDays,
            due := daysElapsed + scheduledDays, memoryState := memoryState)
    case Other => card
  }

  /** The stored card after `answer` is applied to it on day `daysElapsed`. */
  function Answered(card: CardRow, answer: Answer, scheduler: Scheduler, daysElapsed: u32): (r: CardRow)
    requires DueFits(Select(scheduler.StatesFor(card), answer), daysElapsed)
    ensures r.id == card.id
    ensures var next := Select(scheduler.StatesFor(card), answer);
      (Handled(next) ==> r.queue == BucketOf(next)) &&
      (!Handled(next) ==> r == card) &&
      (next.ReviewState? ==> r.interval == next.scheduledDays && r.due == daysElapsed + r.interval)
  {
    Applied(card, Select(scheduler.StatesFor(card), answer), daysElapsed)
  }

  /** Applying the same successor a second time changes nothing more. */
  lemma ApplyingTwiceIsApplyingOnce(card: CardRow, next: CardState, daysElapsed: u32)
    requires DueFits(next, daysElapsed)
    ensures Applied(Applied(card, next, daysElapsed), next, daysElapsed) == Applied(card, next, daysElapsed)
  {
  }

  /** A new card graded Good, for which the scheduler proposes a learning
      state with memory `m`, enters learning with memory `m` and keeps its due
      value and interval. */
  lemma NewCardGoodToLearning(card: CardRow, scheduler: Scheduler, daysElapsed: u32, m: MemoryState)
    requires card.queue == CardQueue.New
    requires scheduler.StatesFor(card).good == LearningState(m)
    ensures Answered(card, Good, scheduler, daysElapsed) ==
      CardRow(card.id, CardQueue.Learning, card.due, card.interval, m)
  {
  }

  /** A review card graded Easy on day 5, for which the scheduler proposes a
      review in 10 days, is due on day 15 with interval 10. */
  lemma ReviewCardEasyOnDayFive(card: CardRow, scheduler: Scheduler, m: MemoryState)
    requires card.queue == CardQueue.Review
    requires scheduler.StatesFor(card).easy == ReviewState(10, m)
    ensures Answered(card, Easy, scheduler, 5) == CardRow(card.id, CardQueue.Review, 15, 10, m)
  {
  }

  /** `Collection`: the card store and the timing context fixed when the
      collection was opened. */
  class Collection {
    /** The stored cards, by id. */
    var storage: map<u32, CardRow>
    const timing: SchedTimingToday

    /** Every stored card carries the id it is stored under. */
    ghost predicate Valid()
      reads this
    {
      forall id :: id in storage ==> storage[id].id == Some(id)
    }

    constructor (storage: map<u32, CardRow>, timing: SchedTimingToday)
      requires forall id :: id in storage ==> storage[id].id == Some(id)
      ensures Valid() && this.storage == storage && this.timing == timing
    {
      this.storage := storage;
      this.timing := timing;
    }

    /** `Collection::apply_state`: updates the card's fields in place. */
    method ApplyState(card: FlashCard, next: CardState)
      requires DueFits(next, timing.daysElapsed)
      modifies card
      ensures card.Row() == Applied(old(card.Row()), next, timing.daysElapsed)
    {
      match next
      case NewState(position) =>
        card.due := AsU32(position);
        card.queue := CardQueue.New;
      case LearningState(memoryState) =>
        card.queue := CardQueue.Learning;
        card.memoryState := memoryState;
      case ReviewState(scheduledDays, memoryState) =>
        card.queue := CardQueue.Review;
        card.interval := scheduledDays;
        card.due := timing.daysElapsed + scheduledDays;
        card.memoryState := memoryState;
      case Other =>
    }

    /** `Collection::answer_card`: loads the card, applies the successor its
        grade selects and saves it. Loading a missing card aborts. */
    method AnswerCard(cardId: u32, answer: Answer, scheduler: Scheduler) returns (card: FlashCard)
      requires Valid() && cardId in storage
      requires DueFits(Select(scheduler.StatesFor(storage[cardId]), answer), timing.daysElapsed)
      modifies this
      ensures Valid() && fresh(card)
      ensures card.Row() == Answered(old(storage[cardId]), answer, scheduler, timing.daysElapsed)
      ensures storage == old(storage)[cardId := card.Row()]
    {
      card := new FlashCard.Load(storage[cardId]);
      var currentCardState := scheduler.current(card.Row());
      var nextState := scheduler.next(currentCardState);
      match answer {
        case Again => ApplyState(card, nextState.again);
        case Hard => ApplyState(card, nextState.hard);
        case Good => ApplyState(card, nextState.good);
        case Easy => ApplyState(card, nextState.easy);
      }
      // `FlashCard::save` writes the card back under its own id.
      storage := storage[card.id.value := card.Row()];
    }
  }
}
