/** The due-card queue builder: scans a deck's cards bucket by bucket and
    assembles the study queue, each entry carrying its card's current state
    and its graded successor states. */
module Queue {
  import opened Primitives
  import opened Cards

  /** Card counts per bucket (the source's fields `new`, `learning` and
      `review`). */
  datatype Stats = Stats(newCount: nat, learningCount: nat, reviewCount: nat)

  /** A queued card: its id and the successor states computed for it. */
  datatype QueueEntry = QueueEntry(cardId: u32, states: SchedulingStates)

  /** The built queue; `core` is the double-ended queue the front end pops
      from, modelled as a sequence in front-to-back order. */
  datatype Queue = Queue(stats: Stats, core: seq<QueueEntry>)

  datatype Outcome = Completed | StorageError

  /** One run of `FlashCard::for_each_card_in_deck`: the cards handed to the
      callback, in storage order, and whether the scan finished or failed
      after handing over those cards. */
  datatype Enumeration = Enumeration(delivered: seq<CardRow>, outcome: Outcome)

  /** The storage scan: the enumeration for a deck and a bucket. */
  type DeckScan = (u32, CardQueue) -> Enumeration

  /** The entry the builder makes for a card. */
  function EntryFor(card: CardRow, scheduler: Scheduler): (entry: QueueEntry)
    requires card.id.Some?
    ensures Some(entry.cardId) == card.id
    ensures entry.states == scheduler.next(scheduler.current(card))
  {
    QueueEntry(card.id.value, scheduler.StatesFor(card))
  }

  predicate AllIdentified(cards: seq<CardRow>) {
    forall i :: 0 <= i < |cards| ==> cards[i].id.Some?
  }

  /** The entries for a sequence of cards, one per card in the same order. */
  function Entries(cards: seq<CardRow>, scheduler: Scheduler): (entries: seq<QueueEntry>)
    requires AllIdentified(cards)
    ensures |entries| == |cards|
    ensures forall i :: 0 <= i < |cards| ==>
      entries[i].cardId == cards[i].id.value &&
      entries[i].states == scheduler.next(scheduler.current(cards[i]))
  {
    if cards == [] then [] else [EntryFor(cards[0], scheduler)] + Entries(cards[1..], scheduler)
  }

  /** Making entries commutes with concatenation, so a queue built from
      buckets laid end to end is the buckets' entries laid end to end. */
  lemma {:induction false} EntriesOfConcatenation(a: seq<CardRow>, b: seq<CardRow>, scheduler: Scheduler)
    requires AllIdentified(a) && AllIdentified(b)
    ensures AllIdentified(a + b)
    ensures Entries(a + b, scheduler) == Entries(a, scheduler) + Entries(b, scheduler)
  {
    if a == [] {
      assert a + b == b;
    } else {
      assert (a + b)[1..] == a[1..] + b;
      EntriesOfConcatenation(a[1..], b, scheduler);
    }
  }

  /** `QueueBuilder`: the deck being scanned and the cards collected so far,
      one growable vector per bucket. */
  class QueueBuilder {
    var deckId: u32
    var newCards: seq<CardRow>
    var learningCards: seq<CardRow>
    var reviewCards: seq<CardRow>

    /** `QueueBuilder::new`: nothing collected yet. */
    constructor (deckId: u32)
      ensures this.deckId == deckId
      ensures newCards == [] && learningCards == [] && reviewCards == []
    {
      this.deckId := deckId;
      newCards := [];
      reviewCards := [];
      learningCards := [];
    }

    /** The scan order of `build`: review, then learning, then new cards. */
    function Ordered(): seq<CardRow>
      reads this
    {
      reviewCards + learningCards + newCards
    }

    /** The callback of one bucket's scan: pushes each delivered card onto the
        vector of that bucket. */
    method PushEach(bucket: CardQueue, cards: seq<CardRow>)
      modifies this
      ensures deckId == old(deckId)
      ensures newCards == old(newCards) + (if bucket.New? then cards else [])
      ensures learningCards == old(learningCards) + (if bucket.Learning? then cards else [])
      ensures reviewCards == old(reviewCards) + (if bucket.Review? then cards else [])
    {
      var i := 0;
      while i < |cards|
        invariant 0 <= i <= |cards|
        invariant deckId == old(deckId)
        invariant newCards == old(newCards) + (if bucket.New? then cards[..i] else [])
        invariant learningCards == old(learningCards) + (if bucket.Learning? then cards[..i] else [])
        invariant reviewCards == old(reviewCards) + (if bucket.Review? then cards[..i] else [])
      {
        match bucket {
          case New => newCards := newCards + [cards[i]];
          case Learning => learningCards := learningCards + [cards[i]];
          case Review => reviewCards := reviewCards + [cards[i]];
        }
        i := i + 1;
      }
      assert cards[..i] == cards;
    }

    /** `collect_new_cards`: scans the new, learning and review buckets in
        turn. A failed scan is only reported: the cards it delivered before
        failing stay collected and the next bucket is still scanned. */
    method CollectNewCards(scan: DeckScan)
      modifies this
      ensures deckId == old(deckId)
      ensures newCards == old(newCards) + scan(deckId, CardQueue.New).delivered
      ensures learningCards == old(learningCards) + scan(deckId, CardQueue.Learning).delivered
      ensures reviewCards == old(reviewCards) + scan(deckId, CardQueue.Review).delivered
    {
      var newScan := scan(deckId, CardQueue.New);
      PushEach(CardQueue.New, newScan.delivered);
      var learningScan := scan(deckId, CardQueue.Learning);
      PushEach(CardQueue.Learning, learningScan.delivered);
      var reviewScan := scan(deckId, CardQueue.Review);
      PushEach(CardQueue.Review, reviewScan.delivered);
    }

    /** `collect_cards`: collects from the collection's storage, which `scan`
        stands for. */
    method CollectCards(scan: DeckScan)
      modifies this
      ensures deckId == old(deckId)
      ensures newCards == old(newCards) + scan(deckId, CardQueue.New).delivered
      ensures learningCards == old(learningCards) + scan(deckId, CardQueue.Learning).delivered
      ensures reviewCards == old(reviewCards) + scan(deckId, CardQueue.Review).delivered
    {
      CollectNewCards(scan);
    }

    /** `Builder::build` for the queue: one entry per collected card, review
        cards first, then learning, then new, each bucket in collection
        order. The statistics are left at zero. Every collected card must have
        an id, which the source unwraps. The builder itself is not changed. */
    method Build(scheduler: Scheduler) returns (queue: Queue)
      requires AllIdentified(reviewCards + learningCards + newCards)
      ensures queue.stats == Stats(0, 0, 0)
      ensures |queue.core| == |reviewCards| + |learningCards| + |newCards|
      ensures forall i :: 0 <= i < |queue.core| ==>
        queue.core[i].cardId == Ordered()[i].id.value &&
        queue.core[i].states == scheduler.next(scheduler.current(Ordered()[i]))
      ensures AllIdentified(reviewCards) && AllIdentified(learningCards) && AllIdentified(newCards)
      ensures queue.core ==
        Entries(reviewCards, scheduler) + Entries(learningCards, scheduler) + Entries(newCards, scheduler)
    {
      var newCount, learningCount, reviewCount := 0, 0, 0;
      var core: seq<QueueEntry> := [];
      var cards := reviewCards + learningCards + newCards;
      var i := 0;
      while i < |cards|
        invariant 0 <= i <= |cards|
        invariant |core| == i
        invariant forall k :: 0 <= k < i ==> core[k] == EntryFor(cards[k], scheduler)
      {
        var states := scheduler.StatesFor(cards[i]);
        core := core + [QueueEntry(cards[i].id.value, states)];
        i := i + 1;
      }
      queue := Queue(Stats(newCount, learningCount, reviewCount), core);
      BucketEntries(scheduler);
    }

    /** The entries of the review, learning and new buckets, laid end to end,
        are the entries of the scan order. */
    lemma BucketEntries(scheduler: Scheduler)
      requires AllIdentified(Ordered())
      ensures AllIdentified(reviewCards) && AllIdentified(learningCards) && AllIdentified(newCards)
      ensures Entries(Ordered(), scheduler) ==
        Entries(reviewCards, scheduler) + Entries(learningCards, scheduler) + Entries(newCards, scheduler)
    {
      var r, l, n := reviewCards, learningCards, newCards;
      assert forall i :: 0 <= i < |r| ==> r[i] == (r + l + n)[i];
      assert forall i :: 0 <= i < |l| ==> l[i] == (r + l + n)[|r| + i];
      assert forall i :: 0 <= i < |n| ==> n[i] == (r + l + n)[|r| + |l| + i];
      EntriesOfConcatenation(r, l, scheduler);
      EntriesOfConcatenation(r + l, n, scheduler);
    }
  }
}
