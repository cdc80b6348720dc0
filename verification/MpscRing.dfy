/**
 The lock-free bounded queue with any number of producers and one consumer.

 Every atomic access is one event, so an interleaving of threads is a sequence of events.
 Positions are unbounded naturals and atomics are sequentially consistent.
 */
module MpscRing {
  import opened Modular
  import opened Basics

  datatype Cell<T> = Cell(sequence: nat, value: T)

  /** Where a thread inside try_enqueue stands. */
  datatype Producer<T> =
    | Loaded(item: T, position: nat)     // holds a copy of the enqueue position
    | Sequenced(item: T, position: nat)  // saw sequence == position, about to compare-exchange
    | Stale(item: T)                     // saw a larger sequence, about to reload
    | Claimed(item: T, position: nat)    // owns the position, about to write the value
    | Written(position: nat)             // value written, about to publish

  /** Where the consumer inside try_dequeue stands. */
  datatype Consumer<T> =
    | Idle
    | AtHead(position: nat)
    | Holding(position: nat)             // saw sequence == position + 1
    | Moved(position: nat, item: T)
    | Released(position: nat, item: T)   // cell handed back, dequeue position not yet stored

  /** `claimed`, `owners` and `taken` are histories: the items in claim order, the threads that
      claimed them, and the items moved out. */
  datatype State<T> = State(
    capacity: nat,
    cells: seq<Cell<T>>,
    enqueuePosition: nat,
    dequeuePosition: nat,
    producers: map<nat, Producer<T>>,
    consumer: Consumer<T>,
    claimed: seq<T>,
    owners: seq<nat>,
    taken: seq<T>)

  datatype Event<T> =
    | BeginEnqueue(t: nat, item: T)
    | LoadSequence(t: nat)
    | Reload(t: nat)
    | CompareExchange(t: nat, spurious: bool)
    | WriteValue(t: nat)
    | Publish(t: nat)
    | BeginDequeue
    | CheckHead
    | MoveOut(leftover: T)               // what a moved-from value looks like is arbitrary
    | ReleaseCell
    | AdvanceHead

  predicate WellFormed<T>(s: State<T>) {
    s.capacity > 0 && |s.cells| == s.capacity
  }

  function CellAt<T>(s: State<T>, position: nat): Cell<T>
    requires WellFormed(s)
  {
    s.cells[position % s.capacity]
  }

  predicate Enabled<T>(s: State<T>, e: Event<T>) {
    match e
    case BeginEnqueue(t, _) => t !in s.producers
    case LoadSequence(t) => t in s.producers && s.producers[t].Loaded?
    case Reload(t) => t in s.producers && s.producers[t].Stale?
    case CompareExchange(t, _) => t in s.producers && s.producers[t].Sequenced?
    case WriteValue(t) => t in s.producers && s.producers[t].Claimed?
    case Publish(t) => t in s.producers && s.producers[t].Written?
    case BeginDequeue => s.consumer.Idle?
    case CheckHead => s.consumer.AtHead?
    case MoveOut(_) => s.consumer.Holding?
    case ReleaseCell => s.consumer.Moved?
    case AdvanceHead => s.consumer.Released?
  }

  function SetCell<T>(s: State<T>, position: nat, cell: Cell<T>): State<T>
    requires WellFormed(s)
  {
    s.(cells := s.cells[position % s.capacity := cell])
  }

  function Do<T>(s: State<T>, e: Event<T>): State<T>
    requires WellFormed(s) && Enabled(s, e)
  {
    match e
    case BeginEnqueue(t, item) =>
      s.(producers := s.producers[t := Loaded(item, s.enqueuePosition)])
    case LoadSequence(t) =>
      var p := s.producers[t];
      var sequence := CellAt(s, p.position).sequence;
      if sequence == p.position then s.(producers := s.producers[t := Sequenced(p.item, p.position)])
      else if sequence < p.position then s.(producers := s.producers - {t})  // returns false
      else s.(producers := s.producers[t := Stale(p.item)])
    case Reload(t) =>
      s.(producers := s.producers[t := Loaded(s.producers[t].item, s.enqueuePosition)])
    case CompareExchange(t, spurious) =>
      var p := s.producers[t];
      if !spurious && s.enqueuePosition == p.position then
        s.(enqueuePosition := p.position + 1,
           producers := s.producers[t := Claimed(p.item, p.position)],
           claimed := s.claimed + [p.item],
           owners := s.owners + [t])
      else
        s.(producers := s.producers[t := Loaded(p.item, s.enqueuePosition)])
    case WriteValue(t) =>
      var p := s.producers[t];
      SetCell(s, p.position, CellAt(s, p.position).(value := p.item))
      .(producers := s.producers[t := Written(p.position)])
    case Publish(t) =>
      var p := s.producers[t];
      SetCell(s, p.position, CellAt(s, p.position).(sequence := p.position + 1))
      .(producers := s.producers - {t})                                      // returns true
    case BeginDequeue =>
      s.(consumer := AtHead(s.dequeuePosition))
    case CheckHead =>
      var position := s.consumer.position;
      if CellAt(s, position).sequence != position + 1 then s.(consumer := Idle)  // returns false
      else s.(consumer := Holding(position))
    case MoveOut(leftover) =>
      var position := s.consumer.position;
      var item := CellAt(s, position).value;
      SetCell(s, position, CellAt(s, position).(value := leftover))
      .(consumer := Moved(position, item), taken := s.taken + [item])
    case ReleaseCell =>
      var Moved(position, item) := s.consumer;
      SetCell(s, position, CellAt(s, position).(sequence := position + s.capacity))
      .(consumer := Released(position, item))
    case AdvanceHead =>
      s.(dequeuePosition := s.consumer.position + 1, consumer := Idle)       // returns true
  }

  function Init<T>(capacity: nat, blank: T): (s: State<T>)
    requires capacity > 0
    ensures WellFormed(s)
  {
    State(capacity, seq(capacity, i requires i >= 0 => Cell(i, blank)), 0, 0, map[], Idle, [], [], [])
  }

  function Exec<T>(s: State<T>, events: seq<Event<T>>): (o: Outcome<State<T>>)
    requires WellFormed(s)
    ensures o.After? ==> WellFormed(o.state) && o.state.capacity == s.capacity
    decreases |events|
  {
    if events == [] then After(s)
    else if !Enabled(s, events[0]) then Stuck
    else Exec(Do(s, events[0]), events[1..])
  }

  // ---------------------------------------------------------------- the invariant

  /** Positions whose cell the consumer has handed back. */
  function Freed<T>(s: State<T>): nat {
    s.dequeuePosition + (if s.consumer.Released? then 1 else 0)
  }

  predicate Owns<T>(s: State<T>, t: nat, position: nat) {
    t in s.producers && (s.producers[t].Claimed? || s.producers[t].Written?) &&
    s.producers[t].position == position
  }

  /** What the cell of a window position holds: free, claimed by its owner, or published. */
  ghost predicate PositionInv<T>(s: State<T>, position: nat)
    requires WellFormed(s)
  {
    var cell := CellAt(s, position);
    if position >= s.enqueuePosition then cell.sequence == position
    else if cell.sequence == position then position < |s.owners| && Owns(s, s.owners[position], position)
    else
      && cell.sequence == position + 1
      && position < |s.claimed|
      && (s.consumer == Moved(position, s.claimed[position]) || cell.value == s.claimed[position])
  }

  ghost predicate ProducerInv<T>(s: State<T>, t: nat)
    requires WellFormed(s)
  {
    t in s.producers ==>
      match s.producers[t]
      case Loaded(_, position) => position <= s.enqueuePosition
      case Sequenced(_, position) => position <= s.enqueuePosition && position < Freed(s) + s.capacity
      case Stale(_) => true
      case Claimed(item, position) =>
        Freed(s) <= position < s.enqueuePosition && position < |s.claimed| && position < |s.owners|
        && s.owners[position] == t && CellAt(s, position).sequence == position
        && item == s.claimed[position]
      case Written(position) =>
        Freed(s) <= position < s.enqueuePosition && position < |s.claimed| && position < |s.owners|
        && s.owners[position] == t && CellAt(s, position) == Cell(position, s.claimed[position])
  }

  ghost predicate ConsumerInv<T>(s: State<T>)
    requires WellFormed(s)
  {
    && (!s.consumer.Idle? ==> s.consumer.position == s.dequeuePosition)
    && (s.consumer.Holding? || s.consumer.Moved? ==>
          s.dequeuePosition < s.enqueuePosition
          && CellAt(s, s.dequeuePosition).sequence == s.dequeuePosition + 1)
    && (s.consumer.Moved? || s.consumer.Released? ==>
          s.dequeuePosition < |s.claimed| && s.consumer.item == s.claimed[s.dequeuePosition])
    && |s.taken| == s.dequeuePosition + (if s.consumer.Moved? || s.consumer.Released? then 1 else 0)
    && s.taken <= s.claimed
  }

  ghost predicate CountInv<T>(s: State<T>) {
    && s.capacity >= 2
    && Freed(s) <= s.enqueuePosition <= Freed(s) + s.capacity
    && |s.claimed| == |s.owners| == s.enqueuePosition
  }

  ghost predicate Inv<T>(s: State<T>) {
    && WellFormed(s)
    && CountInv(s)
    && ConsumerInv(s)
    && (forall p: nat {:trigger PositionInv(s, p)} ::
          Freed(s) <= p < Freed(s) + s.capacity ==> PositionInv(s, p))
    && (forall t: nat {:trigger ProducerInv(s, t)} :: ProducerInv(s, t))
  }

  // ------------------------------------------------ every event keeps the invariant

  /** Changing the cell of one window position leaves the cells of the others alone. */
  lemma OtherCell<T>(s: State<T>, position: nat, cell: Cell<T>, q: nat)
    requires WellFormed(s)
    requires Freed(s) <= position < Freed(s) + s.capacity
    requires Freed(s) <= q < Freed(s) + s.capacity && q != position
    ensures CellAt(SetCell(s, position, cell), q) == CellAt(s, q)
  {
    if q % s.capacity == position % s.capacity {
      SameSlot(s.capacity, if q < position then position else q, if q < position then q else position);
    }
  }

  /** A sequence number equal to the position looked for is found only inside the window: with two
      cells or more a published cell cannot imitate a free one. */
  lemma SequenceMatches<T>(s: State<T>, position: nat)
    requires Inv(s)
    requires position <= s.enqueuePosition
    requires CellAt(s, position).sequence == position
    ensures position < Freed(s) + s.capacity
  {
    var q := WindowPosition(s.capacity, Freed(s), position);
    assert PositionInv(s, q);
    if q != position {
      SameSlot(s.capacity, position, q);
    }
  }

  /** A step that changes only the place of a producer that owns no position. */
  lemma OneProducerMoves<T>(s: State<T>, s': State<T>, t: nat)
    requires Inv(s) && s' == s.(producers := s'.producers) && ProducerInv(s', t)
    requires t in s.producers ==> !s.producers[t].Claimed? && !s.producers[t].Written?
    requires forall u :: u != t ==> (u in s.producers <==> u in s'.producers)
    requires forall u :: u != t && u in s.producers ==> s'.producers[u] == s.producers[u]
    ensures Inv(s')
  {
    forall p: nat | Freed(s) <= p < Freed(s) + s.capacity ensures PositionInv(s', p) {
      assert PositionInv(s, p);
    }
    forall u: nat ensures ProducerInv(s', u) {
      assert ProducerInv(s, u);
    }
  }

  lemma ProducerLoads<T>(s: State<T>, e: Event<T>)
    requires Inv(s) && Enabled(s, e) && (e.BeginEnqueue? || e.Reload?)
    ensures Inv(Do(s, e))
  {
    OneProducerMoves(s, Do(s, e), e.t);
  }

  lemma ProducerLooks<T>(s: State<T>, e: Event<T>)
    requires Inv(s) && Enabled(s, e) && e.LoadSequence?
    ensures Inv(Do(s, e))
  {
    assert ProducerInv(s, e.t);
    if CellAt(s, s.producers[e.t].position).sequence == s.producers[e.t].position {
      SequenceMatches(s, s.producers[e.t].position);
    }
    OneProducerMoves(s, Do(s, e), e.t);
    hide Inv;
  }

  lemma Claiming<T>(s: State<T>, e: Event<T>)
    requires Inv(s) && Enabled(s, e) && e.CompareExchange?
    ensures Inv(Do(s, e))
  {
    assert ProducerInv(s, e.t);
    if e.spurious || s.producers[e.t].position != s.enqueuePosition {
      OneProducerMoves(s, Do(s, e), e.t);
      hide Inv;
    } else {
      ClaimSucceeds(s, e);
    }
  }

  lemma ClaimSucceeds<T>(s: State<T>, e: Event<T>)
    requires Inv(s) && Enabled(s, e) && e.CompareExchange? && !e.spurious
    requires s.producers[e.t].position == s.enqueuePosition
    ensures Inv(Do(s, e))
  {
    var s' := Do(s, e);
    assert ProducerInv(s, e.t) && PositionInv(s, s.enqueuePosition);
    forall p: nat | Freed(s) <= p < Freed(s) + s.capacity ensures PositionInv(s', p) {
      assert PositionInv(s, p);
    }
    forall t: nat ensures ProducerInv(s', t) {
      assert ProducerInv(s, t);
    }
  }

  lemma ProducerWrites<T>(s: State<T>, e: Event<T>)
    requires Inv(s) && Enabled(s, e) && (e.WriteValue? || e.Publish?)
    ensures Inv(Do(s, e))
  {
    var s' := Do(s, e);
    assert ProducerInv(s, e.t);
    forall p: nat | Freed(s) <= p < Freed(s) + s.capacity ensures PositionInv(s', p) {
      WriteKeepsPosition(s, e, p);
    }
    forall t: nat ensures ProducerInv(s', t) {
      WriteKeepsProducer(s, e, t);
    }
    if s.consumer.Holding? || s.consumer.Moved? {
      assert PositionInv(s, s.dequeuePosition);
      OtherCell(s, s.producers[e.t].position, CellAt(s', s.producers[e.t].position), s.dequeuePosition);
    }
    hide PositionInv, ProducerInv;
  }

  lemma WriteKeepsPosition<T>(s: State<T>, e: Event<T>, p: nat)
    requires Inv(s) && Enabled(s, e) && (e.WriteValue? || e.Publish?)
    requires Freed(s) <= p < Freed(s) + s.capacity
    ensures PositionInv(Do(s, e), p)
  {
    var position := s.producers[e.t].position;
    assert ProducerInv(s, e.t) && PositionInv(s, p);
    if p != position {
      OtherCell(s, position, CellAt(Do(s, e), position), p);
    }
    hide Inv;
  }

  lemma WriteKeepsProducer<T>(s: State<T>, e: Event<T>, t: nat)
    requires Inv(s) && Enabled(s, e) && (e.WriteValue? || e.Publish?)
    ensures ProducerInv(Do(s, e), t)
  {
    var position := s.producers[e.t].position;
    assert ProducerInv(s, e.t) && ProducerInv(s, t);
    if t != e.t && t in s.producers && (s.producers[t].Claimed? || s.producers[t].Written?) {
      OtherCell(s, position, CellAt(Do(s, e), position), s.producers[t].position);
    }
    hide Inv;
  }

  lemma ConsumerReads<T>(s: State<T>, e: Event<T>)
    requires Inv(s) && Enabled(s, e)
    requires e.BeginDequeue? || e.CheckHead? || e.AdvanceHead?
    ensures Inv(Do(s, e))
  {
    var s' := Do(s, e);
    assert PositionInv(s, Freed(s));
    forall p: nat | Freed(s) <= p < Freed(s) + s.capacity ensures PositionInv(s', p) {
      assert PositionInv(s, p);
    }
    forall t: nat ensures ProducerInv(s', t) {
      assert ProducerInv(s, t);
    }
  }

  lemma ConsumerMoves<T>(s: State<T>, e: Event<T>)
    requires Inv(s) && Enabled(s, e) && e.MoveOut?
    ensures Inv(Do(s, e))
  {
    var s' := Do(s, e);
    var head := s.dequeuePosition;
    assert PositionInv(s, head);
    forall p: nat | Freed(s) <= p < Freed(s) + s.capacity ensures PositionInv(s', p) {
      assert PositionInv(s, p);
      if p != head {
        OtherCell(s, head, CellAt(s', head), p);
      }
    }
    forall t: nat ensures ProducerInv(s', t) {
      assert ProducerInv(s, t);
      if t in s.producers && (s.producers[t].Claimed? || s.producers[t].Written?) {
        OtherCell(s, head, CellAt(s', head), s.producers[t].position);
      }
    }
  }

  lemma ConsumerReleases<T>(s: State<T>, e: Event<T>)
    requires Inv(s) && Enabled(s, e) && e.ReleaseCell?
    ensures Inv(Do(s, e))
  {
    var s' := Do(s, e);
    var head := s.dequeuePosition;
    OnceRound(s.capacity, head);
    forall p: nat | Freed(s') <= p < Freed(s') + s.capacity ensures PositionInv(s', p) {
      if p < head + s.capacity {
        assert PositionInv(s, p);
        OtherCell(s, head, CellAt(s', head), p);
      }
    }
    forall t: nat ensures ProducerInv(s', t) {
      assert ProducerInv(s, t);
      if t in s.producers && (s.producers[t].Claimed? || s.producers[t].Written?) {
        OtherCell(s, head, CellAt(s', head), s.producers[t].position);
      }
    }
  }

  lemma EventKeepsInv<T>(s: State<T>, e: Event<T>)
    requires Inv(s) && Enabled(s, e)
    ensures Inv(Do(s, e))
  {
    match e
    case BeginEnqueue(_, _) => ProducerLoads(s, e);
    case LoadSequence(_) => ProducerLooks(s, e);
    case Reload(_) => ProducerLoads(s, e);
    case CompareExchange(_, _) => Claiming(s, e);
    case WriteValue(_) => ProducerWrites(s, e);
    case Publish(_) => ProducerWrites(s, e);
    case BeginDequeue => ConsumerReads(s, e);
    case CheckHead => ConsumerReads(s, e);
    case MoveOut(_) => ConsumerMoves(s, e);
    case ReleaseCell => ConsumerReleases(s, e);
    case AdvanceHead => ConsumerReads(s, e);
  }

  lemma InitKeepsInv<T>(capacity: nat, blank: T)
    requires capacity >= 2
    ensures Inv(Init(capacity, blank))
  {
    var s := Init(capacity, blank);
    forall p: nat | p < capacity ensures PositionInv(s, p) {
      Remainder(capacity, p, 0, p);
    }
  }

  lemma {:induction false} RunKeepsInv<T>(s: State<T>, events: seq<Event<T>>)
    requires Inv(s)
    ensures Exec(s, events).After? ==> Inv(Exec(s, events).state)
    decreases |events|
  {
    if events != [] && Enabled(s, events[0]) {
      EventKeepsInv(s, events[0]);
      RunKeepsInv(Do(s, events[0]), events[1..]);
    }
  }

  // ---------------------------------------------------------------- what users rely on

  /** The thread is about to write, or the consumer about to read, the value of this slot. */
  predicate ProducerTouches<T>(s: State<T>, t: nat, slot: nat)
    requires WellFormed(s)
  {
    t in s.producers && s.producers[t].Claimed? && s.producers[t].position % s.capacity == slot
  }

  predicate ConsumerTouches<T>(s: State<T>, slot: nat)
    requires WellFormed(s)
  {
    s.consumer.Holding? && s.consumer.position % s.capacity == slot
  }

  ghost predicate ExclusiveAccess<T>(s: State<T>)
    requires WellFormed(s)
  {
    && (forall t: nat, u: nat, slot: nat ::
          ProducerTouches(s, t, slot) && ProducerTouches(s, u, slot) ==> t == u)
    && (forall t: nat, slot: nat :: !(ProducerTouches(s, t, slot) && ConsumerTouches(s, slot)))
  }

  /** Items come out exactly once and in claim order, no cell value is ever shared, and no more
      positions are claimed than there are cells. */
  ghost predicate Safe<T>(s: State<T>)
    requires WellFormed(s)
  {
    && s.taken <= s.claimed
    && |s.claimed| - Freed(s) <= s.capacity
    && ExclusiveAccess(s)
  }

  lemma InvIsSafe<T>(s: State<T>)
    requires Inv(s)
    ensures Safe(s)
  {
    forall t: nat, u: nat, slot: nat | ProducerTouches(s, t, slot) && ProducerTouches(s, u, slot)
      ensures t == u
    {
      assert ProducerInv(s, t) && ProducerInv(s, u);
      var p, q := s.producers[t].position, s.producers[u].position;
      SameSlot(s.capacity, if p < q then q else p, if p < q then p else q);
    }
    forall t: nat, slot: nat | ProducerTouches(s, t, slot)
      ensures !ConsumerTouches(s, slot)
    {
      assert ProducerInv(s, t);
      if ConsumerTouches(s, slot) {
        SameSlot(s.capacity, s.producers[t].position, s.dequeuePosition);
      }
    }
  }

  /** Main result: with at least two cells, every interleaving is safe. */
  lemma EveryRunIsSafe<T>(capacity: nat, blank: T, events: seq<Event<T>>)
    requires capacity >= 2
    ensures Exec(Init(capacity, blank), events).After? ==> Safe(Exec(Init(capacity, blank), events).state)
  {
    InitKeepsInv(capacity, blank);
    RunKeepsInv(Init(capacity, blank), events);
    if Exec(Init(capacity, blank), events).After? {
      InvIsSafe(Exec(Init(capacity, blank), events).state);
    }
  }

  /** The queue a client sees: claimed and not yet moved out. */
  function Queue<T>(s: State<T>): seq<T>
    requires s.taken <= s.claimed
  {
    s.claimed[|s.taken|..]
  }

  /** Refinement to a FIFO: the successful compare-exchange enqueues, the move dequeues the head,
      and no other event changes the queue. */
  lemma RefinesFifo<T>(s: State<T>, e: Event<T>)
    requires Inv(s) && Enabled(s, e)
    ensures Do(s, e).taken <= Do(s, e).claimed
    ensures match e
            case CompareExchange(t, spurious) =>
              Queue(Do(s, e)) == Queue(s) +
                (if !spurious && s.producers[t].position == s.enqueuePosition
                 then [s.producers[t].item] else [])
            case MoveOut(_) =>
              Queue(s) != [] && Do(s, e).consumer.item == Queue(s)[0] && Queue(Do(s, e)) == Queue(s)[1..]
            case _ => Queue(Do(s, e)) == Queue(s)
  {
    if e.MoveOut? {
      assert PositionInv(s, s.dequeuePosition);
    }
  }

  predicate EnqueueFails<T>(s: State<T>, e: Event<T>)
    requires WellFormed(s) && Enabled(s, e)
  {
    e.LoadSequence? && CellAt(s, s.producers[e.t].position).sequence < s.producers[e.t].position
  }

  /** try_enqueue gives up only at a moment when every cell is claimed and not yet handed back. */
  lemma EnqueueFailsOnlyWhenFull<T>(s: State<T>, e: Event<T>)
    requires Inv(s) && Enabled(s, e) && EnqueueFails(s, e)
    ensures s.enqueuePosition == Freed(s) + s.capacity
    ensures s.producers[e.t].position == s.enqueuePosition
    ensures e.t !in Do(s, e).producers && Do(s, e).claimed == s.claimed && Do(s, e).cells == s.cells
  {
    assert ProducerInv(s, e.t);
    var position := s.producers[e.t].position;
    var q := WindowPosition(s.capacity, Freed(s), position);
    assert PositionInv(s, q);
    if position < Freed(s) + s.capacity {
      SameSlot(s.capacity, position, q);
    }
  }

  /** try_dequeue gives up exactly when the head position is unclaimed or its owner has not
      published it yet. */
  lemma DequeueFailsExactlyWhenHeadUnpublished<T>(s: State<T>)
    requires Inv(s) && s.consumer.AtHead?
    ensures Do(s, CheckHead).consumer.Idle? <==>
            s.enqueuePosition == s.dequeuePosition || exists t: nat :: Owns(s, t, s.dequeuePosition)
  {
    var head := s.dequeuePosition;
    assert PositionInv(s, head);
    if s.enqueuePosition > head && CellAt(s, head).sequence == head {
      assert Owns(s, s.owners[head], head);
    }
    forall t: nat | Owns(s, t, head) ensures CellAt(s, head).sequence == head {
      assert ProducerInv(s, t);
    }
  }

  // ---------------------------------------------------------------- how a call ends

  /** A thread inside try_enqueue that has not claimed a position yet, with this item. */
  ghost predicate Offers<T>(s: State<T>, t: nat, item: T) {
    && t in s.producers && !s.producers[t].Claimed? && !s.producers[t].Written?
    && s.producers[t].item == item
  }

  /** No cell is free: every cell is claimed and not handed back. */
  predicate AllCellsTaken<T>(s: State<T>) { s.enqueuePosition == Freed(s) + s.capacity }

  /** A thread leaves the queue in two ways only: it published the position it owned, or it looked when
      no cell was free. */
  lemma LeavesExactly<T>(s: State<T>, e: Event<T>, t: nat)
    requires Inv(s) && Enabled(s, e) && t in s.producers && t !in Do(s, e).producers
    ensures if s.producers[t].Written? then
              var p := s.producers[t].position;
              Owns(s, t, p) && p < |s.claimed| && CellAt(Do(s, e), p) == Cell(p + 1, s.claimed[p])
            else (exists item :: Offers(s, t, item)) && AllCellsTaken(s) && Do(s, e) == s.(producers := s.producers - {t})
  {
    assert ProducerInv(s, t);
    if !s.producers[t].Written? {
      assert Offers(s, t, s.producers[t].item);
      EnqueueFailsOnlyWhenFull(s, e);
    }
    hide Inv;
  }

  /** What becomes of an offered item in one step: it is still offered, it was claimed by its thread, or
      it was refused because no cell was free. */
  lemma ItemMoves<T>(s: State<T>, e: Event<T>, t: nat, item: T)
    requires Inv(s) && Enabled(s, e) && Offers(s, t, item)
    ensures var s' := Do(s, e);
      || (Offers(s', t, item) && (s'.claimed == s.claimed || s'.owners[|s.claimed|] != t))
      || (s'.claimed == s.claimed + [item] && s'.owners == s.owners + [t] && Owns(s', t, |s.claimed|))
      || (s' == s.(producers := s.producers - {t}) && AllCellsTaken(s))
  {
    if t !in Do(s, e).producers {
      LeavesExactly(s, e, t);
    }
    assert ProducerInv(s, t);
  }

  /** The item was claimed by its thread at a position not claimed before. */
  ghost predicate ClaimedSince<T>(s: State<T>, from: nat, t: nat, item: T) {
    exists p :: from <= p < |s.claimed| && p < |s.owners| && s.owners[p] == t && s.claimed[p] == item
  }

  /** Somewhere along the run no cell was free. */
  predicate RunsFull<T>(s: State<T>, events: seq<Event<T>>)
    requires WellFormed(s)
    decreases |events|
  {
    AllCellsTaken(s) || (events != [] && Enabled(s, events[0]) && RunsFull(Do(s, events[0]), events[1..]))
  }

  lemma {:induction false} ClaimsStay<T>(s: State<T>, events: seq<Event<T>>)
    requires Inv(s) && Exec(s, events).After?
    ensures s.claimed <= Exec(s, events).state.claimed && s.owners <= Exec(s, events).state.owners
    decreases |events|
  {
    if events != [] {
      EventKeepsInv(s, events[0]);
      ClaimsGrow(s, events[0]);
      hide Inv, Do;
      ClaimsStay(Do(s, events[0]), events[1..]);
    }
  }

  lemma ClaimsGrow<T>(s: State<T>, e: Event<T>)
    requires Inv(s) && Enabled(s, e)
    ensures s.claimed <= Do(s, e).claimed && s.owners <= Do(s, e).owners
  {
    hide Inv;
  }

  /** Main result: whatever the other threads do, an item offered to the queue is still being offered by
      its thread, or was claimed for it, or the queue was full at some moment of the run. A call is never
      given up for any other reason and never loses or exchanges its item. */
  lemma {:induction false} OfferedItemIsKept<T>(s: State<T>, events: seq<Event<T>>, t: nat, item: T)
    requires Inv(s) && Offers(s, t, item) && Exec(s, events).After?
    ensures var s' := Exec(s, events).state;
            Offers(s', t, item) || ClaimedSince(s', |s.claimed|, t, item) || RunsFull(s, events)
    decreases |events|
  {
    if events != [] {
      var e, next := events[0], Do(s, events[0]);
      EventKeepsInv(s, e);
      ItemMoves(s, e, t, item);
      if Offers(next, t, item) {
        ClaimsGrow(s, e);
        hide Inv, Do;
        OfferedItemIsKept(next, events[1..], t, item);
      } else if !AllCellsTaken(s) {
        ClaimsStay(next, events[1..]);
        hide Inv, Do;
        assert Exec(s, events).state.claimed[|s.claimed|] == item;
      }
    }
  }

  // ---------------------------------------------------------------- one cell is not enough

  /** With one cell "published at 0" and "free for 1" are the same sequence number, so a second
      producer claims the cell before the first item was taken. */
  function OverwritingRun<T>(first: T, second: T): seq<Event<T>> {
    [BeginEnqueue(0, first), LoadSequence(0), CompareExchange(0, false), WriteValue(0), Publish(0),
     BeginEnqueue(1, second), LoadSequence(1), CompareExchange(1, false)]
  }

  lemma {:induction false} RunOneMore<T>(s: State<T>, events: seq<Event<T>>, n: nat, middle: State<T>)
    requires WellFormed(s) && WellFormed(middle) && n < |events|
    requires Exec(s, events[..n]) == After(middle) && Enabled(middle, events[n])
    ensures Exec(s, events[..n + 1]) == After(Do(middle, events[n]))
    decreases n
  {
    if n > 0 {
      assert events[..n][1..] == events[1..][..n - 1];
      assert events[..n + 1][1..] == events[1..][..n];
      RunOneMore(Do(s, events[0]), events[1..], n - 1, middle);
    }
  }

  lemma OneCellOverwrites<T>(first: T, second: T)
    ensures Exec(Init(1, first), OverwritingRun(first, second)).After?
    ensures !Safe(Exec(Init(1, first), OverwritingRun(first, second)).state)
  {
    var events := OverwritingRun(first, second);
    var s := Init(1, first);
    var s0 := s;
    for n := 0 to 8
      invariant WellFormed(s) && s.capacity == 1
      invariant Exec(s0, events[..n]) == After(s)
      invariant n <= 5 ==> s.consumer.Idle? && s.dequeuePosition == 0
      invariant n == 0 ==> s == s0
      invariant n == 1 ==> s == s0.(producers := map[0 := Loaded(first, 0)])
      invariant n == 2 ==> s == s0.(producers := map[0 := Sequenced(first, 0)])
      invariant n == 3 ==> s.producers == map[0 := Claimed(first, 0)] && s.claimed == [first] && s.enqueuePosition == 1
      invariant n == 4 ==> s.producers == map[0 := Written(0)] && s.claimed == [first] && s.enqueuePosition == 1
      invariant n >= 5 ==> s.cells[0].sequence == 1 && Freed(s) == 0
      invariant n == 5 ==> s.producers == map[] && s.claimed == [first] && s.enqueuePosition == 1
      invariant n == 6 ==> s.producers == map[1 := Loaded(second, 1)] && s.claimed == [first] && s.enqueuePosition == 1
      invariant n == 7 ==> s.producers == map[1 := Sequenced(second, 1)] && s.claimed == [first] && s.enqueuePosition == 1
      invariant n == 8 ==> s.claimed == [first, second]
    {
      RunOneMore(s0, events, n, s);
      s := Do(s, events[n]);
    }
    assert events[..8] == events;
  }

  /** The queue is safe in every interleaving if and only if it has at least two cells. */
  lemma SafeExactlyFromTwoCells<T(!new)>(capacity: nat, blank: T)
    requires capacity > 0
    ensures capacity >= 2 <==>
            forall events: seq<Event<T>> ::
              Exec(Init(capacity, blank), events).After? ==> Safe(Exec(Init(capacity, blank), events).state)
  {
    if capacity >= 2 {
      forall events: seq<Event<T>> | Exec(Init(capacity, blank), events).After?
        ensures Safe(Exec(Init(capacity, blank), events).state)
      {
        EveryRunIsSafe(capacity, blank, events);
      }
    } else {
      OneCellOverwrites(blank, blank);
    }
  }

  // ---------------------------------------------------------------- full()

  const SIZE_MODULUS: nat := 0x1_0000_0000_0000_0000

  /** full() subtracts two separately loaded positions in unsigned arithmetic. */
  function Full(produced: nat, consumed: nat, capacity: nat): bool {
    (produced - consumed) % SIZE_MODULUS >= capacity
  }

  /** The dequeue position never moves back, and stays within the claimed positions. */
  lemma {:induction false} HeadAdvances<T>(s: State<T>, events: seq<Event<T>>)
    requires Inv(s)
    ensures Exec(s, events).After? ==>
              s.dequeuePosition <= Exec(s, events).state.dequeuePosition <= Exec(s, events).state.enqueuePosition
    decreases |events|
  {
    if events != [] && Enabled(s, events[0]) {
      EventKeepsInv(s, events[0]);
      HeadAdvances(Do(s, events[0]), events[1..]);
    }
  }

  /** What full() means when a run passes between its two loads: it reports a full ring when at
      least `capacity` positions claimed at the first load are not handed back at the second, and
      also, spuriously, when the consumer has meanwhile passed the first load's position. */
  lemma FullMeans<T>(s: State<T>, events: seq<Event<T>>)
    requires Inv(s) && Exec(s, events).After?
    requires s.capacity <= SIZE_MODULUS / 2
    requires Exec(s, events).state.enqueuePosition < SIZE_MODULUS / 2
    ensures var s' := Exec(s, events).state;
            Full(s.enqueuePosition, s'.dequeuePosition, s.capacity) <==>
            s'.dequeuePosition > s.enqueuePosition || s.enqueuePosition - s'.dequeuePosition >= s.capacity
  {
    HeadAdvances(s, events);
    RunKeepsInv(s, events);
    var s' := Exec(s, events).state;
    var d := s.enqueuePosition - s'.dequeuePosition;
    if d >= 0 {
      assert d <= s.capacity + 1;
      Remainder(SIZE_MODULUS, d, 0, d);
    } else {
      Remainder(SIZE_MODULUS, d, -1, d + SIZE_MODULUS);
    }
  }

  /** Main result on full(): its answer is that of the two positions it loaded if and only if the
      consumer has not passed the first load in between; and then "full" means that the ring was full
      at the first load. */
  lemma FullIsRightExactly<T>(s: State<T>, events: seq<Event<T>>)
    requires Inv(s) && Exec(s, events).After?
    requires s.capacity <= SIZE_MODULUS / 2
    requires Exec(s, events).state.enqueuePosition < SIZE_MODULUS / 2
    ensures var s' := Exec(s, events).state;
            var answer := Full(s.enqueuePosition, s'.dequeuePosition, s.capacity);
      && ((answer <==> s.enqueuePosition - s'.dequeuePosition >= s.capacity) <==> s'.dequeuePosition <= s.enqueuePosition)
      && (answer && s'.dequeuePosition <= s.enqueuePosition ==> s.enqueuePosition - s.dequeuePosition >= s.capacity)
  {
    FullMeans(s, events);
    HeadAdvances(s, events);
  }

  /** One item passes through the ring. */
  function PassThrough<T>(item: T, leftover: T): seq<Event<T>> {
    [BeginEnqueue(0, item), LoadSequence(0), CompareExchange(0, false), WriteValue(0), Publish(0),
     BeginDequeue, CheckHead, MoveOut(leftover), ReleaseCell, AdvanceHead]
  }

  lemma ItemGoesIn<T>(capacity: nat, item: T, leftover: T)
    requires capacity >= 2
    ensures var o := Exec(Init(capacity, leftover), PassThrough(item, leftover)[..5]);
      && o.After? && o.state.enqueuePosition == 1 && o.state.dequeuePosition == 0
      && o.state.consumer.Idle? && CellAt(o.state, 0).sequence == 1
  {
    var events := PassThrough(item, leftover);
    var s0 := Init(capacity, leftover);
    var s := s0;
    Remainder(capacity, 0, 0, 0);
    for n := 0 to 5
      invariant WellFormed(s) && s.capacity == capacity && Exec(s0, events[..n]) == After(s)
      invariant n <= 2 ==> s == s0.(producers := if n == 0 then map[] else if n == 1 then map[0 := Loaded(item, 0)]
                                                 else map[0 := Producer.Sequenced(item, 0)])
      invariant n == 3 ==> s.producers == map[0 := Producer.Claimed(item, 0)]
      invariant n == 4 ==> s.producers == map[0 := Written(0)]
      invariant 3 <= n ==> s.enqueuePosition == 1 && s.consumer.Idle? && s.dequeuePosition == 0
      invariant n == 5 ==> CellAt(s, 0).sequence == 1
    {
      RunOneMore(s0, events, n, s);
      s := Do(s, events[n]);
    }
  }

  /** Between the two loads of full() on an empty ring one item passes through: the ring is empty at
      both loads, and full() says it is full. */
  lemma FullCanBeSpurious<T>(capacity: nat, item: T, leftover: T)
    requires 2 <= capacity <= SIZE_MODULUS / 2
    ensures var s := Init(capacity, leftover); var o := Exec(s, PassThrough(item, leftover));
      && s.enqueuePosition == s.dequeuePosition == 0
      && o.After? && o.state.enqueuePosition == o.state.dequeuePosition == 1
      && Full(s.enqueuePosition, o.state.dequeuePosition, capacity)
  {
    var events := PassThrough(item, leftover);
    var s0 := Init(capacity, leftover);
    ItemGoesIn(capacity, item, leftover);
    var s := Exec(s0, events[..5]).state;
    Remainder(capacity, 0, 0, 0);
    for n := 5 to 10
      invariant WellFormed(s) && s.capacity == capacity && Exec(s0, events[..n]) == After(s)
      invariant s.enqueuePosition == 1 && s.dequeuePosition == if n == 10 then 1 else 0
      invariant n <= 7 ==> CellAt(s, 0).sequence == 1
      invariant n <= 7 ==> s.consumer == if n == 5 then Idle else if n == 6 then AtHead(0) else Holding(0)
      invariant n == 8 ==> s.consumer.Moved? && s.consumer.position == 0
      invariant n == 9 ==> s.consumer.Released? && s.consumer.position == 0
    {
      RunOneMore(s0, events, n, s);
      s := Do(s, events[n]);
    }
    assert events[..10] == events;
    Remainder(SIZE_MODULUS, -1, -1, SIZE_MODULUS - 1);
  }

  // ---------------------------------------------------------------- without interference

  /** Nobody is inside try_enqueue or try_dequeue. */
  ghost predicate Quiet<T>(s: State<T>) {
    Inv(s) && s.producers == map[] && s.consumer.Idle?
  }

  /** The states of an enqueue that starts in a quiet state. */
  function Loading<T>(s: State<T>, t: nat, item: T): State<T> {
    s.(producers := map[t := Loaded(item, s.enqueuePosition)])
  }

  function Sequencing<T>(s: State<T>, t: nat, item: T): State<T> {
    s.(producers := map[t := Producer.Sequenced(item, s.enqueuePosition)])
  }

  function Claim<T>(s: State<T>, t: nat, item: T): State<T> {
    s.(producers := map[t := Producer.Claimed(item, s.enqueuePosition)], enqueuePosition := s.enqueuePosition + 1,
       claimed := s.claimed + [item], owners := s.owners + [t])
  }

  lemma QuietQueue<T>(s: State<T>)
    requires Inv(s) && s.consumer.Idle?
    ensures |Queue(s)| == s.enqueuePosition - s.dequeuePosition
  {
  }

  lemma QuietLoads<T>(s: State<T>, t: nat, item: T)
    requires Quiet(s)
    ensures Do(s, BeginEnqueue(t, item)) == Loading(s, t, item) && Inv(Loading(s, t, item))
  {
    EventKeepsInv(s, BeginEnqueue(t, item));
    assert s.producers[t := Loaded(item, s.enqueuePosition)] == map[t := Loaded(item, s.enqueuePosition)];
    hide Inv;
  }

  /** Alone in try_enqueue, a freshly loaded position is never stale: it is free, or the ring is full. */
  lemma FreshPositionDecides<T>(s: State<T>)
    requires Quiet(s)
    ensures |Queue(s)| < s.capacity ==> CellAt(s, s.enqueuePosition).sequence == s.enqueuePosition
    ensures |Queue(s)| >= s.capacity ==> CellAt(s, s.enqueuePosition).sequence < s.enqueuePosition
  {
    QuietQueue(s);
    if |Queue(s)| < s.capacity {
      assert PositionInv(s, s.enqueuePosition);
    } else {
      assert PositionInv(s, s.dequeuePosition);
      OnceRound(s.capacity, s.dequeuePosition);
      assert s.enqueuePosition == s.dequeuePosition + s.capacity;
    }
    hide Inv;
  }

  lemma QuietLooks<T>(s: State<T>, t: nat, item: T)
    requires Quiet(s)
    ensures var loaded := Loading(s, t, item); var full := |Queue(s)| >= s.capacity;
      && EnqueueFails(loaded, LoadSequence(t)) == full
      && Do(loaded, LoadSequence(t)) == if full then s else Sequencing(s, t, item)
    ensures |Queue(s)| < s.capacity ==> Inv(Sequencing(s, t, item))
  {
    FreshPositionDecides(s);
    QuietLoads(s, t, item);
    EventKeepsInv(Loading(s, t, item), LoadSequence(t));
    var sequenced := Producer.Sequenced(item, s.enqueuePosition);
    assert map[t := Loaded(item, s.enqueuePosition)][t := sequenced] == map[t := sequenced];
    assert map[t := Loaded(item, s.enqueuePosition)] - {t} == map[];
    hide Inv;
  }

  lemma QuietExchanges<T>(s: State<T>, t: nat, item: T)
    requires Quiet(s) && |Queue(s)| < s.capacity
    ensures Do(Sequencing(s, t, item), CompareExchange(t, true)) == Loading(s, t, item)
    ensures Do(Sequencing(s, t, item), CompareExchange(t, false)) == Claim(s, t, item)
    ensures Inv(Claim(s, t, item)) && Queue(Claim(s, t, item)) == Queue(s) + [item]
  {
    QuietLooks(s, t, item);
    EventKeepsInv(Sequencing(s, t, item), CompareExchange(t, false));
    var sequenced := map[t := Producer.Sequenced(item, s.enqueuePosition)];
    assert sequenced[t := Loaded(item, s.enqueuePosition)] == map[t := Loaded(item, s.enqueuePosition)];
    assert sequenced[t := Producer.Claimed(item, s.enqueuePosition)] == map[t := Producer.Claimed(item, s.enqueuePosition)];
  }

  /** Writing and publishing leave the queue as the claim made it. */
  lemma QuietPublishes<T>(s: State<T>, t: nat, item: T)
    requires Quiet(s) && |Queue(s)| < s.capacity
    ensures var written := Do(Claim(s, t, item), WriteValue(t));
      && Enabled(written, Event.Publish(t))
      && var published := Do(written, Event.Publish(t));
         Quiet(published) && published.capacity == s.capacity && Queue(published) == Queue(s) + [item]
  {
    QuietExchanges(s, t, item);
    var claim := Claim(s, t, item);
    EventKeepsInv(claim, WriteValue(t));
    RefinesFifo(claim, WriteValue(t));
    var written := Do(claim, WriteValue(t));
    EventKeepsInv(written, Event.Publish(t));
    RefinesFifo(written, Event.Publish(t));
    assert written.producers - {t} == map[];
    hide Inv;
  }

  /** A dequeue that starts in a quiet state. */
  lemma QuietTakes<T>(s: State<T>, leftover: T)
    requires Quiet(s)
    ensures var looked := Do(Do(s, BeginDequeue), CheckHead);
      if Queue(s) == [] then looked == s
      else
        && looked.consumer.Holding?
        && var moved := Do(looked, MoveOut(leftover)); var released := Do(moved, ReleaseCell);
           var after := Do(released, AdvanceHead);
           && released.consumer.item == Queue(s)[0]
           && Quiet(after) && after.capacity == s.capacity && Queue(after) == Queue(s)[1..]
  {
    QuietQueue(s);
    EventKeepsInv(s, BeginDequeue);
    var began := Do(s, BeginDequeue);
    DequeueFailsExactlyWhenHeadUnpublished(began);
    EventKeepsInv(began, CheckHead);
    if Queue(s) != [] {
      QuietMoves(s, began, leftover);
    }
    hide Inv;
  }

  lemma QuietMoves<T>(s: State<T>, began: State<T>, leftover: T)
    requires Quiet(s) && began == Do(s, BeginDequeue) && Inv(began)
    requires Do(began, CheckHead).consumer.Holding? && Queue(s) != []
    ensures var moved := Do(Do(began, CheckHead), MoveOut(leftover)); var released := Do(moved, ReleaseCell);
            var after := Do(released, AdvanceHead);
      && released.consumer.item == Queue(s)[0]
      && Quiet(after) && after.capacity == s.capacity && Queue(after) == Queue(s)[1..]
  {
    EventKeepsInv(began, CheckHead);
    var looked := Do(began, CheckHead);
    EventKeepsInv(looked, MoveOut(leftover));
    RefinesFifo(looked, MoveOut(leftover));
    var moved := Do(looked, MoveOut(leftover));
    EventKeepsInv(moved, ReleaseCell);
    RefinesFifo(moved, ReleaseCell);
    var released := Do(moved, ReleaseCell);
    EventKeepsInv(released, AdvanceHead);
    RefinesFifo(released, AdvanceHead);
    hide Inv;
  }

  // ---------------------------------------------------------------- the object

  /** The object itself. `producers` and `consumer` are the local variables of the threads that are
      inside try_enqueue and try_dequeue; each method is one atomic access and the code up to the
      next one. */
  class MpscRingBuffer<T> {
    const cells: array<Cell<T>>
    var enqueuePosition: nat
    var dequeuePosition: nat
    var producers: map<nat, Producer<T>>
    var consumer: Consumer<T>
    ghost var claimed: seq<T>
    ghost var owners: seq<nat>
    ghost var taken: seq<T>

    ghost function Value(): (s: State<T>)
      reads this, cells
    {
      State(cells.Length, cells[..], enqueuePosition, dequeuePosition, producers, consumer,
            claimed, owners, taken)
    }

    constructor (capacity: nat, blank: T)
      requires capacity > 0
      ensures Value() == Init(capacity, blank) && fresh(cells)
    {
      cells := new Cell<T>[capacity]((i: nat) => Cell(i, blank));
      enqueuePosition, dequeuePosition := 0, 0;
      producers, consumer := map[], Idle;
      claimed, owners, taken := [], [], [];
      new;
      assert cells[..] == Init(capacity, blank).cells;
    }

    /** The source's constructor throws for capacity 0, and only for 0. */
    static method Create(capacity: nat, blank: T) returns (ring: MpscRingBuffer?<T>)
      ensures ring == null <==> capacity == 0
      ensures ring != null ==> ring.Value() == Init(capacity, blank) && fresh(ring) && fresh(ring.cells)
    {
      if capacity == 0 {
        ring := null;
      } else {
        ring := new MpscRingBuffer(capacity, blank);
      }
    }

    method BeginEnqueue(t: nat, item: T)
      requires WellFormed(Value()) && Enabled(Value(), Event.BeginEnqueue(t, item))
      modifies this
      ensures Value() == Do(old(Value()), Event.BeginEnqueue(t, item))
    {
      producers := producers[t := Loaded(item, enqueuePosition)];
    }

    method LoadSequence(t: nat) returns (gaveUp: bool)
      requires WellFormed(Value()) && Enabled(Value(), Event.LoadSequence(t))
      modifies this
      ensures Value() == Do(old(Value()), Event.LoadSequence(t))
      ensures gaveUp == EnqueueFails(old(Value()), Event.LoadSequence(t))
      ensures gaveUp <==> t !in producers
      ensures !gaveUp ==> Offers(Value(), t, old(producers)[t].item)
    {
      var Loaded(item, position) := producers[t];
      var difference := cells[position % cells.Length].sequence - position;
      gaveUp := false;
      if difference == 0 {
        producers := producers[t := Sequenced(item, position)];
      } else if difference < 0 {
        producers := producers - {t};
        gaveUp := true;
      } else {
        producers := producers[t := Stale(item)];
      }
    }

    method Reload(t: nat)
      requires WellFormed(Value()) && Enabled(Value(), Event.Reload(t))
      modifies this
      ensures Value() == Do(old(Value()), Event.Reload(t))
    {
      producers := producers[t := Loaded(producers[t].item, enqueuePosition)];
    }

    method CompareExchange(t: nat, spurious: bool)
      requires WellFormed(Value()) && Enabled(Value(), Event.CompareExchange(t, spurious))
      modifies this
      ensures Value() == Do(old(Value()), Event.CompareExchange(t, spurious))
    {
      var Sequenced(item, position) := producers[t];
      if !spurious && enqueuePosition == position {
        enqueuePosition := position + 1;
        producers := producers[t := Claimed(item, position)];
        claimed, owners := claimed + [item], owners + [t];
      } else {
        producers := producers[t := Loaded(item, enqueuePosition)];
      }
    }

    method WriteValue(t: nat)
      requires WellFormed(Value()) && Enabled(Value(), Event.WriteValue(t))
      modifies this, cells
      ensures Value() == Do(old(Value()), Event.WriteValue(t))
    {
      var Claimed(item, position) := producers[t];
      var slot := position % cells.Length;
      cells[slot] := cells[slot].(value := item);
      producers := producers[t := Written(position)];
    }

    method Publish(t: nat)
      requires WellFormed(Value()) && Enabled(Value(), Event.Publish(t))
      modifies this, cells
      ensures Value() == Do(old(Value()), Event.Publish(t))
    {
      var position := producers[t].position;
      var slot := position % cells.Length;
      cells[slot] := cells[slot].(sequence := position + 1);
      producers := producers - {t};
    }

    method BeginDequeue()
      requires WellFormed(Value()) && Enabled(Value(), Event.BeginDequeue)
      modifies this
      ensures Value() == Do(old(Value()), Event.BeginDequeue)
    {
      consumer := AtHead(dequeuePosition);
    }

    method CheckHead() returns (gaveUp: bool)
      requires WellFormed(Value()) && Enabled(Value(), Event.CheckHead)
      modifies this
      ensures Value() == Do(old(Value()), Event.CheckHead)
      ensures gaveUp == consumer.Idle?
    {
      var position := consumer.position;
      gaveUp := cells[position % cells.Length].sequence != position + 1;
      consumer := if gaveUp then Idle else Holding(position);
    }

    method MoveOut(leftover: T)
      requires WellFormed(Value()) && Enabled(Value(), Event.MoveOut(leftover))
      modifies this, cells
      ensures Value() == Do(old(Value()), Event.MoveOut(leftover))
    {
      var position := consumer.position;
      var slot := position % cells.Length;
      consumer := Moved(position, cells[slot].value);
      cells[slot] := cells[slot].(value := leftover);
      taken := taken + [consumer.item];
    }

    method ReleaseCell()
      requires WellFormed(Value()) && Enabled(Value(), Event.ReleaseCell)
      modifies this, cells
      ensures Value() == Do(old(Value()), Event.ReleaseCell)
    {
      var Moved(position, item) := consumer;
      var slot := position % cells.Length;
      cells[slot] := cells[slot].(sequence := position + cells.Length);
      consumer := Released(position, item);
    }

    method AdvanceHead() returns (item: T)
      requires WellFormed(Value()) && Enabled(Value(), Event.AdvanceHead)
      modifies this
      ensures Value() == Do(old(Value()), Event.AdvanceHead)
      ensures item == old(consumer).item
    {
      item := consumer.item;
      dequeuePosition := consumer.position + 1;
      consumer := Idle;
    }

    /** try_enqueue() without interference: its steps in the source's loop. The weak compare-exchange
        may fail spuriously any number of times. */
    method TryEnqueue(t: nat, item: T, spuriousFailures: nat) returns (ok: bool)
      requires Quiet(Value())
      modifies this, cells
      ensures Quiet(Value())
      ensures ok == (|old(Queue(Value()))| < cells.Length)
      ensures Queue(Value()) == if ok then old(Queue(Value())) + [item] else old(Queue(Value()))
    {
      ghost var before := Value();
      QuietLoads(before, t, item);
      QuietLooks(before, t, item);
      if |Queue(before)| < before.capacity {
        QuietExchanges(before, t, item);
        QuietPublishes(before, t, item);
      }
      hide Inv, Quiet, Do, EnqueueFails, Queue;
      BeginEnqueue(t, item);
      var left := spuriousFailures;
      while true
        invariant Value() == Loading(before, t, item)
        decreases left
      {
        var gaveUp := LoadSequence(t);
        if gaveUp {
          return false;
        }
        CompareExchange(t, left > 0);
        if left == 0 {
          WriteValue(t);
          Publish(t);
          return true;
        }
        left := left - 1;
      }
    }

    /** try_dequeue() without interference. */
    method TryDequeue(leftover: T) returns (ok: bool, item: T)
      requires Quiet(Value())
      modifies this, cells
      ensures Quiet(Value())
      ensures ok == (old(Queue(Value())) != [])
      ensures if ok then old(Queue(Value())) == [item] + Queue(Value()) else Value() == old(Value())
    {
      ghost var before := Value();
      QuietTakes(before, leftover);
      hide Inv, Quiet, Do, Queue, EnqueueFails;
      BeginDequeue();
      var gaveUp := CheckHead();
      if gaveUp {
        return false, leftover;
      }
      item := TakeHead(leftover);
      ok := true;
    }

    /** The part of try_dequeue() behind the look at the head. */
    method TakeHead(leftover: T) returns (item: T)
      requires WellFormed(Value()) && consumer.Holding?
      modifies this, cells
      ensures var moved := Do(old(Value()), Event.MoveOut(leftover)); var released := Do(moved, Event.ReleaseCell);
              Value() == Do(released, Event.AdvanceHead) && item == released.consumer.item
    {
      MoveOut(leftover);
      ReleaseCell();
      item := AdvanceHead();
    }
  }
}
