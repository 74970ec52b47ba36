/** The card types the scheduling core works on. The card record, its queue
    enum and the card-state enum are declared in files that are not part of
    this model; only the fields and variants the core touches are modelled. */
module Cards {
  import opened Primitives

  /** The scheduler's memory payload. The core carries it from a successor
      state into the card and never looks inside it. */
  type MemoryState(==)

  /** The lifecycle bucket a card sits in (`CardQueue`). */
  datatype CardQueue = New | Learning | Review

  /** A card as a value: a row read from or written to storage, or a clone
      held by the queue builder. `id` is absent until the card is stored. */
  datatype CardRow = CardRow(
    id: Option<u32>,
    queue: CardQueue,
    due: u32,
    interval: u32,
    memoryState: MemoryState)

  /** A card loaded into memory, whose fields `apply_state` updates in place. */
  class FlashCard {
    var id: Option<u32>
    var queue: CardQueue
    var due: u32
    var interval: u32
    var memoryState: MemoryState

    /** The card's current field values. */
    function Row(): CardRow
      reads this
    {
      CardRow(id, queue, due, interval, memoryState)
    }

    /** `FlashCard::load`: the in-memory card built from a stored row. */
    constructor Load(row: CardRow)
      ensures Row() == row
    {
      id := row.id;
      queue := row.queue;
      due := row.due;
      interval := row.interval;
      memoryState := row.memoryState;
    }
  }

  /** A successor state proposed by the scheduler. `Other` stands for every
      further variant of the source's enum (relearning and the like), which
      the core's state application does not handle. */
  datatype CardState =
    | NewState(position: nat)
    | LearningState(memoryState: MemoryState)
    | ReviewState(scheduledDays: u32, memoryState: MemoryState)
    | Other

  /** The scheduler's answer for one current state: the state itself and one
      successor per grade. */
  datatype SchedulingStates = SchedulingStates(
    current: CardState,
    again: CardState,
    hard: CardState,
    good: CardState,
    easy: CardState)

  /** The user's grade of a recall attempt. */
  datatype Answer = Again | Hard | Good | Easy

  /** The successor that goes with a grade: each grade reads its own field
      of the scheduler's states, and the current state is never chosen. */
  function Select(states: SchedulingStates, answer: Answer): (next: CardState)
    ensures answer == Again ==> next == states.again
    ensures answer == Hard ==> next == states.hard
    ensures answer == Good ==> next == states.good
    ensures answer == Easy ==> next == states.easy
  {
    match answer
    case Again => states.again
    case Hard => states.hard
    case Good => states.good
    case Easy => states.easy
  }

  /** The scheduler collaborator, whose internals are not part of this model:
      `current` is `get_current_card_state` and `next` is
      `CardState::next_states`. Both are deterministic because they are
      functions. */
  datatype Scheduler = Scheduler(
    current: CardRow -> CardState,
    next: CardState -> SchedulingStates)
  {
    /** `QueueBuilder::get_scheduling_states`, which `answer_card` also
        computes inline: the scheduler's states for the card's current
        state. */
    function StatesFor(card: CardRow): (states: SchedulingStates)
      ensures states == next(current(card))
    {
      var currentState := current(card);
      next(currentState)
    }
  }

  /** Two cards in the same current state get the same scheduling states,
      whatever else differs between them. */
  lemma SameCurrentStateSameStates(scheduler: Scheduler, a: CardRow, b: CardRow)
    requires scheduler.current(a) == scheduler.current(b)
    ensures scheduler.StatesFor(a) == scheduler.StatesFor(b)
  {
  }
}
