/**
 The logger with its real queue: the accounting machine running on the lock-free ring, access by
 access. From two cells on it behaves as the accounting machine does on a FIFO, so everything proved
 there holds; with one cell it does not.

 A thread inside try_enqueue or try_dequeue takes the ring's steps; all other steps are the logger's.
 The logger's own `ring` field stays empty, the ring takes its place.
 */
module LoggerOnRing {
  import opened Basics
  import Log = AsyncLogger
  import Mpsc = MpscRing
  import Stop = LoggerStop
  import Flush = LoggerFlush
  import Modular

  type Record = Log.Record
  type Ring = Mpsc.State<Record>

  datatype State = State(logger: Log.State, ring: Ring)

  datatype Event = LoggerStep(e: Log.Event) | RingStep(r: Mpsc.Event<Record>)

  predicate IsAttempting(s: Log.State, t: nat) { t in s.producers && s.producers[t].Attempting? }
  predicate IsPublishing(s: Log.State, t: nat) { t in s.producers && s.producers[t] == Log.Publishing }

  /** The thread is where the step is taken from. */
  predicate MayStep(s: Log.State, r: Mpsc.Event<Record>) {
    match r
    case BeginEnqueue(t, item) => IsAttempting(s, t) && s.producers[t].record == item
    case LoadSequence(t) => IsAttempting(s, t)
    case Reload(t) => IsAttempting(s, t)
    case CompareExchange(t, _) => IsAttempting(s, t)
    case WriteValue(t) => IsPublishing(s, t)
    case Publish(t) => IsPublishing(s, t)
    case AdvanceHead => s.worker.Dequeued?
    case _ => s.worker.Draining?
  }

  predicate Enabled(c: State, e: Event)
  {
    match e
    case LoggerStep(e) =>
      && Log.Enabled(c.logger, e) && !e.TryEnqueue? && !e.Publish? && !e.TakeRecord?
      && (e.UncountPending? ==> c.ring.consumer.Idle?)
    case RingStep(r) => Mpsc.WellFormed(c.ring) && Mpsc.Enabled(c.ring, r) && MayStep(c.logger, r)
  }

  predicate Claims(ring: Ring, r: Mpsc.Event<Record>)
    requires Mpsc.Enabled(ring, r)
  {
    r.CompareExchange? && !r.spurious && ring.enqueuePosition == ring.producers[r.t].position
  }

  predicate FindsNothing(ring: Ring, r: Mpsc.Event<Record>)
    requires Mpsc.WellFormed(ring) && Mpsc.Enabled(ring, r)
  {
    r.CheckHead? && Mpsc.Do(ring, r).consumer.Idle?
  }

  /** What a step of the ring means for the thread that takes it. */
  function DoLogger(s: Log.State, ring: Ring, r: Mpsc.Event<Record>): Log.State
    requires Mpsc.WellFormed(ring) && Mpsc.Enabled(ring, r) && MayStep(s, r)
  {
    if Mpsc.EnqueueFails(ring, r) then Log.At(s, r.t, Log.Retracting(s.producers[r.t].record))
    else if Claims(ring, r) then
      Log.At(s, r.t, Log.Publishing).(enqueued := s.enqueued + [s.producers[r.t].record],
                                      sinceLook := s.sinceLook + [s.producers[r.t].record])
    else if r.Publish? then Log.At(s, r.t, Log.Enqueued)
    else if FindsNothing(ring, r) then s.(worker := Log.LoadingState)
    else if r.ReleaseCell? then s.(worker := Log.Dequeued(ring.consumer.item))
    else s
  }

  function Do(c: State, e: Event): State
    requires Enabled(c, e)
  {
    match e
    case LoggerStep(e) => c.(logger := Log.Do(c.logger, e))
    case RingStep(r) => State(DoLogger(c.logger, c.ring, r), Mpsc.Do(c.ring, r))
  }

  function Init(capacity: nat, policy: Log.OverflowPolicy): State
    requires capacity > 0
  {
    State(Log.Init(capacity, policy), Mpsc.Init(capacity, 0))
  }

  function Exec(c: State, events: seq<Event>): Outcome<State>
    decreases |events|
  {
    if events == [] then After(c)
    else if !Enabled(c, events[0]) then Stuck
    else Exec(Do(c, events[0]), events[1..])
  }

  // ---------------------------------------------------------------- what the ring holds

  /** The thread that has claimed this position and not published it. */
  function WriterOf(ring: Ring, p: nat): Option<nat> {
    if p < |ring.owners| && Mpsc.Owns(ring, ring.owners[p], p) then Some(ring.owners[p]) else None
  }

  /** The record of a position: in its writer's hands, moved out by the consumer, or in the cell. */
  function RecordOf(ring: Ring, p: nat): Record
    requires Mpsc.WellFormed(ring)
  {
    var w := WriterOf(ring, p);
    if w.Some? && ring.producers[w.value].Claimed? then ring.producers[w.value].item
    else if ring.consumer.Moved? && ring.consumer.position == p then ring.consumer.item
    else Mpsc.CellAt(ring, p).value
  }

  function SlotOf(ring: Ring, p: nat): Log.Slot
    requires Mpsc.WellFormed(ring)
  {
    Log.Slot(RecordOf(ring, p), WriterOf(ring, p))
  }

  function Slots(ring: Ring): (s: seq<Log.Slot>)
    requires Mpsc.WellFormed(ring)
  {
    if ring.enqueuePosition <= Mpsc.Freed(ring) then []
    else seq(ring.enqueuePosition - Mpsc.Freed(ring), i requires i >= 0 => SlotOf(ring, Mpsc.Freed(ring) + i))
  }

  /** The state as the accounting machine sees it. */
  function View(c: State): Log.State
    requires Mpsc.WellFormed(c.ring)
  {
    c.logger.(ring := Slots(c.ring))
  }

  // ---------------------------------------------------------------- the invariant

  /** Every thread is at the same place in both components. */
  predicate ThreadOf(c: State, t: nat) {
    t in c.ring.producers ==>
      match c.ring.producers[t]
      case Loaded(item, _) => IsAttempting(c.logger, t) && c.logger.producers[t].record == item
      case Sequenced(item, _) => IsAttempting(c.logger, t) && c.logger.producers[t].record == item
      case Stale(item) => IsAttempting(c.logger, t) && c.logger.producers[t].record == item
      case Claimed(_, _) => IsPublishing(c.logger, t)
      case Written(_) => IsPublishing(c.logger, t)
  }

  predicate WorkerAgrees(c: State) {
    match c.ring.consumer
    case Idle => true
    case Released(_, item) => c.logger.worker == Log.Dequeued(item)
    case _ => c.logger.worker.Draining?
  }

  ghost predicate Linked(c: State) {
    && c.ring.capacity == c.logger.capacity && c.logger.ring == []
    && WorkerAgrees(c)
    && forall t: nat :: ThreadOf(c, t)
  }

  ghost predicate Inv(c: State) { Mpsc.Inv(c.ring) && Linked(c) }

  // ------------------------------------------------ the ring's steps on its slots

  /** In a sound ring the record of a position is what was claimed for it. */
  lemma HoldsClaimed(ring: Ring, p: nat)
    requires Mpsc.Inv(ring) && Mpsc.Freed(ring) <= p < ring.enqueuePosition
    ensures RecordOf(ring, p) == ring.claimed[p]
    ensures WriterOf(ring, p).None? <==> Mpsc.CellAt(ring, p).sequence == p + 1
  {
    assert Mpsc.PositionInv(ring, p) && Mpsc.ConsumerInv(ring) && Mpsc.CountInv(ring);
    var w := WriterOf(ring, p);
    if w.Some? {
      assert Mpsc.ProducerInv(ring, w.value) && Mpsc.Owns(ring, w.value, p);
      assert Mpsc.CellAt(ring, p).sequence == p;
    } else {
      assert Mpsc.CellAt(ring, p).sequence == p + 1;
    }
    hide Mpsc.Inv;
  }

  lemma SlotsAt(ring: Ring, i: nat)
    requires Mpsc.Inv(ring) && i < |Slots(ring)|
    ensures Slots(ring)[i] == Log.Slot(ring.claimed[Mpsc.Freed(ring) + i], WriterOf(ring, Mpsc.Freed(ring) + i))
  {
    assert Slots(ring)[i] == SlotOf(ring, Mpsc.Freed(ring) + i);
    HoldsClaimed(ring, Mpsc.Freed(ring) + i);
    hide Mpsc.Inv, Slots, WriterOf, RecordOf;
  }

  /** Only a claim and a publication change who writes a position, and only that position. */
  lemma WritersAfter(ring: Ring, r: Mpsc.Event<Record>, p: nat)
    requires Mpsc.Inv(ring) && Mpsc.Enabled(ring, r) && Mpsc.Freed(ring) <= p < ring.enqueuePosition
    ensures WriterOf(Mpsc.Do(ring, r), p) == if r.Publish? && WriterOf(ring, p) == Some(r.t) then None else WriterOf(ring, p)
  {
    if r.Publish? {
      assert Mpsc.ProducerInv(ring, r.t);
    }
    hide Mpsc.Inv;
  }

  /** Most steps leave the queue alone. */
  predicate KeepsQueue(ring: Ring, r: Mpsc.Event<Record>)
    requires Mpsc.WellFormed(ring) && Mpsc.Enabled(ring, r)
  {
    !Claims(ring, r) && !r.Publish? && !r.ReleaseCell?
  }

  lemma OthersKeepSlots(ring: Ring, r: Mpsc.Event<Record>)
    requires Mpsc.Inv(ring) && Mpsc.Enabled(ring, r) && KeepsQueue(ring, r)
    ensures Slots(Mpsc.Do(ring, r)) == Slots(ring)
  {
    var ring' := Mpsc.Do(ring, r);
    Mpsc.EventKeepsInv(ring, r);
    KeepsPositions(ring, r);
    forall i | 0 <= i < |Slots(ring)| ensures Slots(ring')[i] == Slots(ring)[i] {
      SlotsAt(ring, i);
      SlotsAt(ring', i);
      WritersAfter(ring, r, Mpsc.Freed(ring) + i);
    }
  }

  lemma KeepsPositions(ring: Ring, r: Mpsc.Event<Record>)
    requires Mpsc.Inv(ring) && Mpsc.Enabled(ring, r) && KeepsQueue(ring, r)
    ensures var ring' := Mpsc.Do(ring, r);
      && ring'.claimed == ring.claimed && ring'.enqueuePosition == ring.enqueuePosition
      && Mpsc.Freed(ring') == Mpsc.Freed(ring)
  {
  }

  lemma ClaimAppends(ring: Ring, r: Mpsc.Event<Record>)
    requires Mpsc.Inv(ring) && Mpsc.Enabled(ring, r) && Claims(ring, r)
    ensures |Slots(ring)| < ring.capacity
    ensures Slots(Mpsc.Do(ring, r)) == Slots(ring) + [Log.Slot(ring.producers[r.t].item, Some(r.t))]
  {
    var ring' := Mpsc.Do(ring, r);
    Mpsc.EventKeepsInv(ring, r);
    forall i | 0 <= i < |Slots(ring)| ensures Slots(ring')[i] == Slots(ring)[i] {
      SlotsAt(ring, i);
      SlotsAt(ring', i);
      WritersAfter(ring, r, Mpsc.Freed(ring) + i);
    }
    SlotsAt(ring', |Slots(ring)|);
  }

  lemma PublishPublishes(ring: Ring, r: Mpsc.Event<Record>)
    requires Mpsc.Inv(ring) && Mpsc.Enabled(ring, r) && r.Publish?
    ensures Slots(Mpsc.Do(ring, r)) == Log.PublishIn(Slots(ring), r.t)
  {
    var ring' := Mpsc.Do(ring, r);
    Mpsc.EventKeepsInv(ring, r);
    forall i | 0 <= i < |Slots(ring)| ensures Slots(ring')[i] == Log.PublishIn(Slots(ring), r.t)[i] {
      SlotsAt(ring, i);
      SlotsAt(ring', i);
      WritersAfter(ring, r, Mpsc.Freed(ring) + i);
    }
  }

  lemma ReleaseTakes(ring: Ring, r: Mpsc.Event<Record>)
    requires Mpsc.Inv(ring) && Mpsc.Enabled(ring, r) && r.ReleaseCell?
    ensures Slots(ring) != [] && Slots(ring)[0] == Log.Slot(ring.consumer.item, None)
    ensures Slots(Mpsc.Do(ring, r)) == Slots(ring)[1..]
  {
    var ring' := Mpsc.Do(ring, r);
    Mpsc.EventKeepsInv(ring, r);
    HoldsClaimed(ring, ring.dequeuePosition);
    SlotsAt(ring, 0);
    forall i | 0 <= i < |Slots(ring)| - 1 ensures Slots(ring')[i] == Slots(ring)[1..][i] {
      SlotsAt(ring, i + 1);
      SlotsAt(ring', i);
      WritersAfter(ring, r, Mpsc.Freed(ring) + (i + 1));
    }
  }

  lemma FailureMeansFull(ring: Ring, r: Mpsc.Event<Record>)
    requires Mpsc.Inv(ring) && Mpsc.Enabled(ring, r) && Mpsc.EnqueueFails(ring, r)
    ensures |Slots(ring)| == ring.capacity
  {
    Mpsc.EnqueueFailsOnlyWhenFull(ring, r);
  }

  lemma NothingMeansUnpublished(ring: Ring, r: Mpsc.Event<Record>)
    requires Mpsc.Inv(ring) && Mpsc.Enabled(ring, r) && FindsNothing(ring, r)
    ensures Slots(ring) == [] || Slots(ring)[0].writer.Some?
  {
    Mpsc.DequeueFailsExactlyWhenHeadUnpublished(ring);
    if Slots(ring) != [] {
      HoldsClaimed(ring, ring.dequeuePosition);
      SlotsAt(ring, 0);
      assert Mpsc.PositionInv(ring, ring.dequeuePosition);
    }
  }

  // ---------------------------------------------------------------- the simulation

  /** The step of the accounting machine that a step stands for. */
  function Meaning(c: State, e: Event): Option<Log.Event>
    requires Enabled(c, e)
  {
    match e
    case LoggerStep(e) => Some(e)
    case RingStep(r) =>
      if Mpsc.EnqueueFails(c.ring, r) || Claims(c.ring, r) then Some(Log.TryEnqueue(r.t))
      else if r.Publish? then Some(Log.Event.Publish(r.t))
      else if FindsNothing(c.ring, r) || r.ReleaseCell? then Some(Log.TakeRecord)
      else None
  }

  predicate Simulates(c: State, e: Event)
    requires Enabled(c, e) && Mpsc.WellFormed(c.ring) && Mpsc.WellFormed(Do(c, e).ring)
  {
    var m := Meaning(c, e);
    if m.None? then View(Do(c, e)) == View(c)
    else Log.Enabled(View(c), m.value) && View(Do(c, e)) == Log.Do(View(c), m.value)
  }

  /** The logger's other steps do not look at the queue. */
  predicate OffQueue(e: Log.Event) { !e.TryEnqueue? && !e.Publish? && !e.TakeRecord? }

  predicate Commutes(s: Log.State, ring: seq<Log.Slot>, e: Log.Event)
    requires Log.Enabled(s, e)
  {
    Log.Enabled(s.(ring := ring), e) && Log.Do(s.(ring := ring), e) == Log.Do(s, e).(ring := ring)
  }

  lemma ProducersCommute(s: Log.State, ring: seq<Log.Slot>, e: Log.Event)
    requires Log.Enabled(s, e) && OffQueue(e) && (Log.MovesProducer(e) || e.Finish?)
    ensures Commutes(s, ring, e)
  {
    hide Log.PublishIn, Log.WriteOut;
  }

  lemma WorkerCommutes(s: Log.State, ring: seq<Log.Slot>, e: Log.Event)
    requires Log.Enabled(s, e) && OffQueue(e) && !Log.MovesProducer(e) && !e.Finish?
    requires !e.AppendRecord? && !e.Decide?
    ensures Commutes(s, ring, e)
  {
    hide Log.PublishIn, Log.WriteOut;
  }

  lemma WritingCommutes(s: Log.State, ring: seq<Log.Slot>, e: Log.Event)
    requires Log.Enabled(s, e) && (e.AppendRecord? || e.Decide?)
    ensures Commutes(s, ring, e)
  {
    hide Log.PublishIn;
  }

  lemma LoggerStepSimulates(c: State, e: Event)
    requires Inv(c) && Enabled(c, e) && e.LoggerStep?
    ensures Simulates(c, e)
  {
    if e.e.AppendRecord? || e.e.Decide? {
      WritingCommutes(c.logger, Slots(c.ring), e.e);
    } else if Log.MovesProducer(e.e) || e.e.Finish? {
      ProducersCommute(c.logger, Slots(c.ring), e.e);
    } else {
      WorkerCommutes(c.logger, Slots(c.ring), e.e);
    }
    hide Inv, Slots, Log.Do, Log.Enabled;
  }

  lemma ClaimSimulates(c: State, e: Event)
    requires Inv(c) && Enabled(c, e) && e.RingStep? && Claims(c.ring, e.r)
    ensures Simulates(c, e)
  {
    assert ThreadOf(c, e.r.t);
    ClaimAppends(c.ring, e.r);
    hide Mpsc.Inv, Mpsc.Do, Slots, Linked, Log.PublishIn;
  }

  lemma FailureSimulates(c: State, e: Event)
    requires Inv(c) && Enabled(c, e) && e.RingStep? && Mpsc.EnqueueFails(c.ring, e.r)
    ensures Simulates(c, e)
  {
    FailureMeansFull(c.ring, e.r);
    OthersKeepSlots(c.ring, e.r);
    hide Mpsc.Inv, Mpsc.Do, Slots, Linked, Log.PublishIn;
  }

  lemma PublishSimulates(c: State, e: Event)
    requires Inv(c) && Enabled(c, e) && e.RingStep? && e.r.Publish?
    ensures Simulates(c, e)
  {
    PublishPublishes(c.ring, e.r);
    hide Mpsc.Inv, Mpsc.Do, Slots, Linked, Log.PublishIn;
  }

  lemma ReleaseSimulates(c: State, e: Event)
    requires Inv(c) && Enabled(c, e) && e.RingStep? && e.r.ReleaseCell?
    ensures Simulates(c, e)
  {
    ReleaseTakes(c.ring, e.r);
    hide Mpsc.Inv, Mpsc.Do, Slots, Linked, Log.PublishIn;
  }

  lemma NothingSimulates(c: State, e: Event)
    requires Inv(c) && Enabled(c, e) && e.RingStep? && FindsNothing(c.ring, e.r)
    ensures Simulates(c, e)
  {
    NothingMeansUnpublished(c.ring, e.r);
    OthersKeepSlots(c.ring, e.r);
    hide Mpsc.Inv, Mpsc.Do, Slots, Linked, Log.PublishIn;
  }

  lemma SilentSimulates(c: State, e: Event)
    requires Inv(c) && Enabled(c, e) && e.RingStep? && Meaning(c, e).None?
    ensures Simulates(c, e)
  {
    OthersKeepSlots(c.ring, e.r);
    hide Mpsc.Inv, Mpsc.Do, Slots, Linked, Log.PublishIn;
  }

  /** A thread at a place for the ring's steps is left there by the logger's. */
  lemma OthersKeepThread(s: Log.State, e: Log.Event, t: nat)
    requires Log.Enabled(s, e) && OffQueue(e) && (IsAttempting(s, t) || IsPublishing(s, t))
    ensures var s' := Log.Do(s, e); t in s'.producers && s'.producers[t] == s.producers[t]
  {
    hide Log.PublishIn;
  }

  lemma LoggerStepKeepsThread(c: State, e: Event, t: nat)
    requires Linked(c) && Enabled(c, e) && e.LoggerStep?
    ensures ThreadOf(Do(c, e), t)
  {
    assert ThreadOf(c, t);
    if t in c.ring.producers {
      OthersKeepThread(c.logger, e.e, t);
    }
    hide Linked, Log.Do, Log.Enabled;
  }

  lemma LoggerStepKeepsLinked(c: State, e: Event)
    requires Inv(c) && Enabled(c, e) && e.LoggerStep?
    ensures Linked(Do(c, e))
  {
    forall t: nat ensures ThreadOf(Do(c, e), t) {
      LoggerStepKeepsThread(c, e, t);
    }
    hide Mpsc.Inv, Log.PublishIn, ThreadOf;
  }

  lemma RingStepKeepsThread(c: State, e: Event, t: nat)
    requires Linked(c) && Enabled(c, e) && e.RingStep?
    ensures ThreadOf(Do(c, e), t)
  {
    assert ThreadOf(c, t);
    hide Linked;
  }

  lemma RingStepKeepsLinked(c: State, e: Event)
    requires Inv(c) && Enabled(c, e) && e.RingStep?
    ensures Linked(Do(c, e))
  {
    forall t: nat ensures ThreadOf(Do(c, e), t) {
      RingStepKeepsThread(c, e, t);
    }
    RingStepKeepsWorker(c, e);
    RingStepKeepsRest(c, e);
    hide Mpsc.Inv, ThreadOf, Do, WorkerAgrees;
  }

  lemma RingStepKeepsWorker(c: State, e: Event)
    requires Linked(c) && Enabled(c, e) && e.RingStep?
    ensures WorkerAgrees(Do(c, e))
  {
    hide ThreadOf;
  }

  lemma RingStepKeepsRest(c: State, e: Event)
    requires Enabled(c, e) && e.RingStep?
    ensures var c' := Do(c, e);
            c'.ring.capacity == c.ring.capacity && c'.logger.capacity == c.logger.capacity
            && c'.logger.ring == c.logger.ring
  {
    hide Mpsc.EnqueueFails, Claims, FindsNothing;
  }

  lemma EventKeepsInv(c: State, e: Event)
    requires Inv(c) && Enabled(c, e)
    ensures Inv(Do(c, e))
  {
    if e.RingStep? {
      Mpsc.EventKeepsInv(c.ring, e.r);
      RingStepKeepsLinked(c, e);
    } else {
      LoggerStepKeepsLinked(c, e);
    }
    hide Mpsc.Inv, Linked, DoLogger, Log.Do;
  }

  /** Main result: from two cells on every access is a step of the accounting machine or changes
      nothing that it sees. */
  lemma StepSimulates(c: State, e: Event)
    requires Inv(c) && Enabled(c, e)
    ensures Inv(Do(c, e)) && Simulates(c, e)
  {
    EventKeepsInv(c, e);
    hide Inv;
    if e.LoggerStep? {
      LoggerStepSimulates(c, e);
    } else if Claims(c.ring, e.r) {
      ClaimSimulates(c, e);
    } else if Mpsc.EnqueueFails(c.ring, e.r) {
      FailureSimulates(c, e);
    } else if e.r.Publish? {
      PublishSimulates(c, e);
    } else if e.r.ReleaseCell? {
      ReleaseSimulates(c, e);
    } else if FindsNothing(c.ring, e.r) {
      NothingSimulates(c, e);
    } else {
      SilentSimulates(c, e);
    }
  }

  /** The run of the accounting machine that a run stands for. */
  function Meanings(c: State, events: seq<Event>): seq<Log.Event>
    decreases |events|
  {
    if events == [] || !Enabled(c, events[0]) then []
    else
      var m := Meaning(c, events[0]);
      (if m.Some? then [m.value] else []) + Meanings(Do(c, events[0]), events[1..])
  }

  /** Main result: every run of the logger on its ring is a run of the accounting machine. */
  lemma {:induction false} RunSimulates(c: State, events: seq<Event>)
    requires Inv(c) && Exec(c, events).After?
    ensures Inv(Exec(c, events).state)
    ensures Log.Exec(View(c), Meanings(c, events)) == After(View(Exec(c, events).state))
    decreases |events|
  {
    if events != [] {
      var next, m := Do(c, events[0]), Meaning(c, events[0]);
      StepSimulates(c, events[0]);
      RunSimulates(next, events[1..]);
      if m.Some? {
        assert Meanings(c, events) == [m.value] + Meanings(next, events[1..]);
        LogStep(View(c), m.value, Meanings(next, events[1..]));
      } else {
        assert Meanings(c, events) == Meanings(next, events[1..]);
      }
      hide Inv, Do, View, Log.Do, Log.Exec, Meaning;
    }
  }

  lemma LogStep(s: Log.State, e: Log.Event, later: seq<Log.Event>)
    requires Log.Enabled(s, e)
    ensures Log.Exec(s, [e] + later) == Log.Exec(Log.Do(s, e), later)
  {
    assert ([e] + later)[1..] == later;
    hide Log.Do;
  }

  lemma InitHasInv(capacity: nat, policy: Log.OverflowPolicy)
    requires capacity >= 2
    ensures Inv(Init(capacity, policy)) && View(Init(capacity, policy)) == Log.Init(capacity, policy)
  {
    Mpsc.InitKeepsInv(capacity, 0 as Record);
    hide Mpsc.Inv;
  }

  // ---------------------------------------------------------------- what users rely on

  /** The accounting: every record a producer has enqueued is, in order, in the file, in the buffer, in
      the worker's hands or in the ring, and the counters count it. */
  predicate Accounted(c: State)
    requires Mpsc.WellFormed(c.ring)
  {
    var s := View(c);
    && 0 <= s.active && 0 <= s.pending
    && s.pending == |Log.PendingProducers(s.producers)| + |s.ring| + (if s.worker.Dequeued? then 1 else 0)
    && s.accepted == |s.enqueued| - |Log.UncountedProducers(s.producers)|
    && (!s.worker.Crashed? ==>
          s.enqueued == s.written + s.activeRecords + Log.InHand(s.worker) + Log.Records(s.ring))
    && s.written <= s.enqueued
  }

  /** Main result: with two cells or more the counters are exact in every run and no record is lost,
      reordered or overwritten on its way from log() to the file. */
  lemma EveryRunAccounts(capacity: nat, policy: Log.OverflowPolicy, events: seq<Event>)
    requires capacity >= 2 && Exec(Init(capacity, policy), events).After?
    ensures Mpsc.WellFormed(Exec(Init(capacity, policy), events).state.ring)
    ensures Accounted(Exec(Init(capacity, policy), events).state)
  {
    InitHasInv(capacity, policy);
    RunSimulates(Init(capacity, policy), events);
    Log.EveryRunAccounts(capacity, policy, Meanings(Init(capacity, policy), events));
    hide Exec, View, Mpsc.Inv, Linked, Log.Exec, Meanings;
  }

  /** stop() has seen the logger running, which it still is, and stores Stopping next. */
  predicate AboutToStop(c: State) { c.logger.stopSeen && c.logger.phase == Log.Running }

  /** Main result: with two cells or more a stop() that finds no producer between its look at the phase
      and its pending count loses nothing. */
  lemma StopLosesNothing(capacity: nat, policy: Log.OverflowPolicy, before: seq<Event>, later: seq<Event>)
    requires capacity >= 2 && Exec(Init(capacity, policy), before).After?
    requires AboutToStop(Exec(Init(capacity, policy), before).state)
    requires Stop.NobodyReady(Exec(Init(capacity, policy), before).state.logger)
    requires Exec(Do(Exec(Init(capacity, policy), before).state, LoggerStep(Log.RequestStop)), later).After?
    ensures var c := Exec(Do(Exec(Init(capacity, policy), before).state, LoggerStep(Log.RequestStop)), later).state;
      && Mpsc.WellFormed(c.ring)
      && (c.logger.worker.Exited? ==> Stop.NothingLost(View(c)))
  {
    InitHasInv(capacity, policy);
    RunSimulates(Init(capacity, policy), before);
    var c := Exec(Init(capacity, policy), before).state;
    var e := LoggerStep(Log.RequestStop);
    StepSimulates(c, e);
    RunSimulates(Do(c, e), later);
    Log.InitKeepsInv(capacity, policy);
    Log.RunKeepsInv(Log.Init(capacity, policy), Meanings(Init(capacity, policy), before));
    if Exec(Do(c, e), later).state.logger.worker.Exited? {
      Stop.StopLosesNothing(View(c), Meanings(Do(c, e), later));
    }
  }

  /** Main result: with two cells or more, when a flush() that began in a state returns because enough
      was flushed, the records claimed first, as many as were accepted at that state, are in the file,
      and so is every other record before which the worker could not stop. */
  lemma FlushCovers(capacity: nat, policy: Log.OverflowPolicy, before: seq<Event>, later: seq<Event>)
    requires capacity >= 2 && Exec(Init(capacity, policy), before).After?
    requires Exec(Exec(Init(capacity, policy), before).state, later).After?
    ensures Mpsc.WellFormed(Exec(Init(capacity, policy), before).state.ring)
    ensures var s, s' := Exec(Init(capacity, policy), before).state.logger,
                         Exec(Exec(Init(capacity, policy), before).state, later).state.logger;
      s'.lastFlushed >= s.accepted ==>
        && s.accepted <= |s.enqueued| && s.enqueued[..s.accepted] <= s'.written
        && (Log.UncountedProducers(s.producers) == {} ==> s.enqueued <= s'.written)
        && forall p :: 0 <= p < |s.enqueued|
                       && Flush.MustCover(View(Exec(Init(capacity, policy), before).state), s.accepted, p) ==>
                         p < |s'.written| && s'.written[p] == s.enqueued[p]
  {
    InitHasInv(capacity, policy);
    RunSimulates(Init(capacity, policy), before);
    var c := Exec(Init(capacity, policy), before).state;
    RunSimulates(c, later);
    Log.InitKeepsInv(capacity, policy);
    Log.RunKeepsInv(Log.Init(capacity, policy), Meanings(Init(capacity, policy), before));
    if Exec(c, later).state.logger.lastFlushed >= c.logger.accepted {
      Log.FlushCovers(View(c), Meanings(c, later));
      forall p | 0 <= p < |c.logger.enqueued| && Flush.MustCover(View(c), c.logger.accepted, p)
        ensures var written := Exec(c, later).state.logger.written;
                p < |written| && written[p] == c.logger.enqueued[p]
      {
        Flush.FlushCoversMore(View(c), Meanings(c, later), p);
      }
    }
  }

  /** The run never separates the two looks of the worker's exit test. */
  predicate LooksTogether(events: seq<Event>, justLooked: bool)
    decreases |events|
  {
    events == [] ||
    ((events[0] == LoggerStep(Log.LoadActive) ==> justLooked)
     && LooksTogether(events[1..], events[0] == LoggerStep(Log.LoadPending)))
  }

  lemma {:induction false} SeparatedIsEnough(events: seq<Log.Event>, justLooked: bool)
    requires Log.LooksTogether(events, false)
    ensures Log.LooksTogether(events, justLooked)
  {
  }

  lemma {:induction false} MeaningsLookTogether(c: State, events: seq<Event>, justLooked: bool)
    requires LooksTogether(events, justLooked)
    ensures Log.LooksTogether(Meanings(c, events), justLooked)
    decreases |events|
  {
    if events != [] && Enabled(c, events[0]) {
      var later := Meanings(Do(c, events[0]), events[1..]);
      MeaningsLookTogether(Do(c, events[0]), events[1..], events[0] == LoggerStep(Log.LoadPending));
      var m := Meaning(c, events[0]);
      if m.Some? {
        assert ([m.value] + later)[1..] == later;
      } else {
        SeparatedIsEnough(later, justLooked);
        assert [] + later == later;
      }
      hide Do, Enabled;
    }
  }

  /** Main result: with two cells or more and the two looks of the exit test as one step, an exit leaves
      an empty ring and everything accepted is written and flushed. */
  lemma DrainsWhenLooksAreTogether(capacity: nat, policy: Log.OverflowPolicy, events: seq<Event>)
    requires capacity >= 2 && Exec(Init(capacity, policy), events).After? && LooksTogether(events, false)
    requires Exec(Init(capacity, policy), events).state.logger.worker.Exited?
    ensures var c := Exec(Init(capacity, policy), events).state;
            Mpsc.WellFormed(c.ring) && Stop.NothingLost(View(c))
  {
    InitHasInv(capacity, policy);
    RunSimulates(Init(capacity, policy), events);
    MeaningsLookTogether(Init(capacity, policy), events, false);
    Log.DrainsWhenLooksAreTogether(capacity, policy, Meanings(Init(capacity, policy), events));
  }

  // ---------------------------------------------------------------- a failing worker

  predicate KnownFailed(c: State) {
    c.logger.worker.Crashed? && c.logger.phase == Log.Failed && !c.logger.stopSeen
  }

  lemma {:induction false} RunKeepsFailed(c: State, events: seq<Event>)
    requires KnownFailed(c) && Exec(c, events).After?
    ensures KnownFailed(Exec(c, events).state)
    decreases |events|
  {
    if events != [] {
      EventKeepsFailed(c, events[0]);
      hide Do, KnownFailed;
      RunKeepsFailed(Do(c, events[0]), events[1..]);
    }
  }

  lemma EventKeepsFailed(c: State, e: Event)
    requires KnownFailed(c) && Enabled(c, e)
    ensures KnownFailed(Do(c, e))
  {
    hide Mpsc.Do, Log.PublishIn;
  }

  /** Main result: when the worker fails, the logger is known as failed for good if and only if no stop()
      is between its look at the phase and its store; that store takes the failure back. */
  lemma FailureStaysKnownExactly(c: State)
    requires Enabled(c, LoggerStep(Log.Crash))
    ensures !c.logger.stopSeen <==>
            forall later :: var o := Exec(Do(c, LoggerStep(Log.Crash)), later);
              o.After? ==> o.state.logger.phase == Log.Failed
  {
    var c' := Do(c, LoggerStep(Log.Crash));
    if !c.logger.stopSeen {
      forall later | Exec(c', later).After? ensures Exec(c', later).state.logger.phase == Log.Failed {
        RunKeepsFailed(c', later);
      }
    } else {
      FailureCanBeHidden(c);
      assert Exec(c', [LoggerStep(Log.RequestStop), LoggerStep(Log.CompleteStop)]).After?;
    }
  }

  /** The stop() in between then ends as if the worker had drained everything. */
  lemma FailureCanBeHidden(c: State)
    requires Enabled(c, LoggerStep(Log.Crash)) && c.logger.stopSeen
    ensures var o := Exec(Do(c, LoggerStep(Log.Crash)), [LoggerStep(Log.RequestStop), LoggerStep(Log.CompleteStop)]);
            o.After? && o.state.logger.phase == Log.Stopped && o.state.logger.worker.Crashed?
  {
    var c1 := Do(c, LoggerStep(Log.Crash));
    var c2 := c1.(logger := c1.logger.(phase := Log.Stopping, stopSeen := false));
    var c3 := c2.(logger := c2.logger.(phase := Log.Stopped));
    assert Step(c1, LoggerStep(Log.RequestStop), c2) && Step(c2, LoggerStep(Log.CompleteStop), c3);
    hide Do, Step, Exec;
    Chain([c1, c2, c3], [LoggerStep(Log.RequestStop), LoggerStep(Log.CompleteStop)]);
  }

  // ---------------------------------------------------------------- one cell is not enough

  predicate Step(c: State, e: Event, c': State) {
    Enabled(c, e) && Do(c, e) == c'
  }

  lemma {:induction false} Chain(states: seq<State>, events: seq<Event>)
    requires |states| == |events| + 1
    requires forall i :: 0 <= i < |events| ==> Step(states[i], events[i], states[i + 1])
    ensures Exec(states[0], events) == After(states[|events|])
    decreases |events|
  {
    if events != [] {
      assert Step(states[0], events[0], states[1]);
      hide Do, Enabled, Step;
      forall i | 0 <= i < |events| - 1 ensures Step(states[1..][i], events[1..][i], states[1..][i + 1]) {
        assert Step(states[i + 1], events[i + 1], states[i + 1 + 1]);
      }
      Chain(states[1..], events[1..]);
    }
  }

  lemma {:induction false} ExecInTwo(c: State, first: seq<Event>, second: seq<Event>)
    requires Exec(c, first).After?
    ensures Exec(c, first + second) == Exec(Exec(c, first).state, second)
    decreases |first|
  {
    if first == [] {
      assert first + second == second;
    } else {
      assert (first + second)[1..] == first[1..] + second;
      hide Do;
      ExecInTwo(Do(c, first[0]), first[1..], second);
    }
  }

  /** An undisturbed log(), in three parts: up to the pending count, through the ring, and out. */
  function LogIn(t: nat, record: Record): seq<Event> {
    [LoggerStep(Log.FirstCheck(t)), LoggerStep(Log.Enter(t, record)), LoggerStep(Log.SecondCheck(t)),
     LoggerStep(Log.CountPending(t))]
  }

  function LogClaim(t: nat, record: Record): seq<Event> {
    [RingStep(Mpsc.BeginEnqueue(t, record)), RingStep(Mpsc.LoadSequence(t)), RingStep(Mpsc.CompareExchange(t, false)),
     RingStep(Mpsc.WriteValue(t))]
  }

  function LogThrough(t: nat, record: Record): seq<Event> {
    LogClaim(t, record) + [RingStep(Mpsc.Event.Publish(t))]
  }

  function LogOut(t: nat): seq<Event> { [LoggerStep(Log.CountAccepted(t)), LoggerStep(Log.Finish(t))] }

  function LogCall(t: nat, record: Record): seq<Event> {
    LogIn(t, record) + (LogThrough(t, record) + LogOut(t))
  }

  predicate Outside(c: State, t: nat) {
    c.logger.phase == Log.Running && t !in c.logger.producers && t !in c.logger.checked
  }

  /** The only cell carries the number a producer looks for. */
  predicate LooksFree(ring: Ring) {
    && ring.capacity == 1 && |ring.cells| == 1
    && ring.producers == map[] && ring.cells[0].sequence == ring.enqueuePosition
  }

  function AfterLog(c: State, t: nat, record: Record): State {
    State(c.logger.(pending := c.logger.pending + 1, accepted := c.logger.accepted + 1,
                    enqueued := c.logger.enqueued + [record], sinceLook := c.logger.sinceLook + [record]),
          Overwritten(c.ring, t, record))
  }

  function Overwritten(ring: Ring, t: nat, record: Record): Ring {
    ring.(enqueuePosition := ring.enqueuePosition + 1, cells := [Mpsc.Cell(ring.enqueuePosition + 1, record)],
          claimed := ring.claimed + [record], owners := ring.owners + [t])
  }

  function With(c: State, s: Log.State): State { c.(logger := s) }

  lemma EnteringSteps(c: State, t: nat, record: Record)
    requires Outside(c, t)
    ensures var s := c.logger; var s1 := s.(checked := s.checked + {t});
      && Step(c, LoggerStep(Log.FirstCheck(t)), With(c, s1))
      && Step(With(c, s1), LoggerStep(Log.Enter(t, record)),
              With(c, Log.At(s, t, Log.Entered(record)).(active := s.active + 1)))
  {
    assert c.logger.checked + {t} - {t} == c.logger.checked;
  }

  lemma AtTwice(s: Log.State, t: nat, first: Log.Producer, second: Log.Producer)
    ensures Log.At(Log.At(s, t, first), t, second) == Log.At(s, t, second)
  {
    assert s.producers[t := first][t := second] == s.producers[t := second];
  }

  lemma CountingSteps(c: State, t: nat, record: Record)
    requires Outside(c, t)
    ensures var s := c.logger.(active := c.logger.active + 1);
      && Step(With(c, Log.At(s, t, Log.Entered(record))), LoggerStep(Log.SecondCheck(t)),
              With(c, Log.At(s, t, Log.Ready(record))))
      && Step(With(c, Log.At(s, t, Log.Ready(record))), LoggerStep(Log.CountPending(t)),
              With(c, Log.At(s, t, Log.Attempting(record)).(pending := s.pending + 1)))
  {
    AtTwice(c.logger, t, Log.Entered(record), Log.Ready(record));
    AtTwice(c.logger, t, Log.Ready(record), Log.Attempting(record));
  }

  lemma LogInRuns(c: State, t: nat, record: Record)
    requires Outside(c, t)
    ensures Exec(c, LogIn(t, record)) ==
            After(c.(logger := Log.At(c.logger, t, Log.Attempting(record)).(active := c.logger.active + 1,
                                 pending := c.logger.pending + 1)))
  {
    var s := c.logger.(active := c.logger.active + 1);
    EnteringSteps(c, t, record);
    CountingSteps(c, t, record);
    hide Step, Do, Exec;
    Chain([c, With(c, c.logger.(checked := c.logger.checked + {t})), With(c, Log.At(s, t, Log.Entered(record))),
           With(c, Log.At(s, t, Log.Ready(record))),
           With(c, Log.At(s, t, Log.Attempting(record)).(pending := s.pending + 1))], LogIn(t, record));
  }

  /** A ring step that is not a claim, a failure or a publication leaves the logger alone. */
  lemma QuietStep(c: State, r: Mpsc.Event<Record>, ring: Ring)
    requires Mpsc.WellFormed(c.ring) && Mpsc.Enabled(c.ring, r) && MayStep(c.logger, r)
    requires Mpsc.Do(c.ring, r) == ring
    requires (r.BeginEnqueue? || r.LoadSequence? || r.WriteValue?) && !Mpsc.EnqueueFails(c.ring, r)
    ensures Step(c, RingStep(r), c.(ring := ring))
  {
    hide Mpsc.Do, Mpsc.EnqueueFails;
  }

  lemma ClaimStep(c: State, t: nat, record: Record, ring: Ring)
    requires Mpsc.WellFormed(c.ring) && Mpsc.Enabled(c.ring, Mpsc.CompareExchange(t, false))
    requires IsAttempting(c.logger, t) && c.logger.producers[t].record == record
    requires Claims(c.ring, Mpsc.CompareExchange(t, false)) && Mpsc.Do(c.ring, Mpsc.CompareExchange(t, false)) == ring
    ensures Step(c, RingStep(Mpsc.CompareExchange(t, false)),
                 State(Log.At(c.logger, t, Log.Publishing).(enqueued := c.logger.enqueued + [record],
                                                            sinceLook := c.logger.sinceLook + [record]), ring))
  {
    hide Mpsc.Do;
  }

  lemma PublishStep(c: State, t: nat, ring: Ring)
    requires Mpsc.WellFormed(c.ring) && Mpsc.Enabled(c.ring, Mpsc.Event.Publish(t)) && IsPublishing(c.logger, t)
    requires Mpsc.Do(c.ring, Mpsc.Event.Publish(t)) == ring
    ensures Step(c, RingStep(Mpsc.Event.Publish(t)), State(Log.At(c.logger, t, Log.Enqueued), ring))
  {
    hide Mpsc.Do;
  }

  /** The record is written over whatever the cell holds, and not yet published. */
  function AfterClaim(c: State, t: nat, record: Record): State {
    var p := c.ring.enqueuePosition;
    State(Log.At(c.logger, t, Log.Publishing).(enqueued := c.logger.enqueued + [record],
                                               sinceLook := c.logger.sinceLook + [record]),
          c.ring.(enqueuePosition := p + 1, cells := [Mpsc.Cell(p, record)], producers := map[t := Mpsc.Written(p)],
                  claimed := c.ring.claimed + [record], owners := c.ring.owners + [t]))
  }

  lemma LogClaimRuns(c: State, t: nat, record: Record)
    requires LooksFree(c.ring) && IsAttempting(c.logger, t) && c.logger.producers[t].record == record
    ensures Exec(c, LogClaim(t, record)) == After(AfterClaim(c, t, record))
  {
    var r, p := c.ring, c.ring.enqueuePosition;
    var r1 := r.(producers := map[t := Mpsc.Loaded(record, p)]);
    var r2 := r.(producers := map[t := Mpsc.Sequenced(record, p)]);
    var r3 := r.(producers := map[t := Mpsc.Claimed(record, p)], enqueuePosition := p + 1,
                 claimed := r.claimed + [record], owners := r.owners + [t]);
    var c4 := AfterClaim(c, t, record);
    var c1, c2, c3 := State(c.logger, r1), State(c.logger, r2), State(c4.logger, r3);
    LoadsFree(r, t, record);
    WritesFree(r3, t, record);
    hide Mpsc.Do;
    QuietStep(c, Mpsc.BeginEnqueue(t, record), r1);
    QuietStep(c1, Mpsc.LoadSequence(t), r2);
    ClaimStep(c2, t, record, r3);
    QuietStep(c3, Mpsc.WriteValue(t), c4.ring);
    hide Step, Do, Exec, Enabled;
    Chain([c, c1, c2, c3, c4], LogClaim(t, record));
  }

  lemma LogThroughRuns(c: State, t: nat, record: Record)
    requires LooksFree(c.ring) && IsAttempting(c.logger, t) && c.logger.producers[t].record == record
    ensures Exec(c, LogThrough(t, record)) ==
            After(State(Log.At(c.logger, t, Log.Enqueued).(enqueued := c.logger.enqueued + [record],
                                                           sinceLook := c.logger.sinceLook + [record]),
                        Overwritten(c.ring, t, record)))
  {
    var c1 := AfterClaim(c, t, record);
    var p := c.ring.enqueuePosition;
    LogClaimRuns(c, t, record);
    WritesFree(c1.ring.(producers := map[t := Mpsc.Claimed(record, p)], cells := c.ring.cells), t, record);
    PublishStep(c1, t, Overwritten(c.ring, t, record));
    assert c1.logger.producers[t := Log.Enqueued] == c.logger.producers[t := Log.Enqueued];
    ExecInTwo(c, LogClaim(t, record), [RingStep(Mpsc.Event.Publish(t))]);
    Chain([c1, State(Log.At(c1.logger, t, Log.Enqueued), Overwritten(c.ring, t, record))],
          [RingStep(Mpsc.Event.Publish(t))]);
    hide Exec, Do, Enabled, Step;
  }

  lemma LoadsFree(r: Ring, t: nat, record: Record)
    requires LooksFree(r)
    ensures var p := r.enqueuePosition;
      var r1, r2 := r.(producers := map[t := Mpsc.Loaded(record, p)]), r.(producers := map[t := Mpsc.Sequenced(record, p)]);
      && Mpsc.Do(r, Mpsc.BeginEnqueue(t, record)) == r1
      && Mpsc.Do(r1, Mpsc.LoadSequence(t)) == r2
      && Mpsc.Do(r2, Mpsc.CompareExchange(t, false)) ==
           r.(producers := map[t := Mpsc.Claimed(record, p)], enqueuePosition := p + 1,
              claimed := r.claimed + [record], owners := r.owners + [t])
      && !Mpsc.EnqueueFails(r1, Mpsc.LoadSequence(t)) && Claims(r2, Mpsc.CompareExchange(t, false))
  {
    Modular.Remainder(1, r.enqueuePosition, r.enqueuePosition, 0);
    assert map[t := Mpsc.Loaded(record, r.enqueuePosition)][t := Mpsc.Sequenced(record, r.enqueuePosition)]
        == map[t := Mpsc.Sequenced(record, r.enqueuePosition)];
    assert map[t := Mpsc.Sequenced(record, r.enqueuePosition)][t := Mpsc.Claimed(record, r.enqueuePosition)]
        == map[t := Mpsc.Claimed(record, r.enqueuePosition)];
  }

  lemma WritesFree(r: Ring, t: nat, record: Record)
    requires r.capacity == 1 && |r.cells| == 1 && r.enqueuePosition > 0
    requires var p := r.enqueuePosition - 1; r.producers == map[t := Mpsc.Claimed(record, p)] && r.cells[0].sequence == p
    ensures var p := r.enqueuePosition - 1;
      var r1 := r.(producers := map[t := Mpsc.Written(p)], cells := [Mpsc.Cell(p, record)]);
      && Mpsc.Do(r, Mpsc.WriteValue(t)) == r1
      && Mpsc.Do(r1, Mpsc.Event.Publish(t)) == r.(producers := map[], cells := [Mpsc.Cell(p + 1, record)])
  {
    Modular.Remainder(1, r.enqueuePosition - 1, r.enqueuePosition - 1, 0);
    assert r.producers[t := Mpsc.Written(r.enqueuePosition - 1)] - {t} == map[];
  }

  lemma AcceptStep(c: State, t: nat, others: map<nat, Log.Producer>)
    requires c.logger.producers == others[t := Log.Enqueued]
    ensures Step(c, LoggerStep(Log.CountAccepted(t)),
                 c.(logger := c.logger.(producers := others[t := Log.Leaving(true)], accepted := c.logger.accepted + 1)))
  {
  }

  lemma FinishStep(c: State, t: nat, others: map<nat, Log.Producer>)
    requires t !in others && c.logger.producers == others[t := Log.Leaving(true)]
    ensures Step(c, LoggerStep(Log.Finish(t)),
                 c.(logger := c.logger.(producers := others, active := c.logger.active - 1)))
  {
    assert c.logger.producers - {t} == others;
  }

  lemma LogOutRuns(c: State, t: nat, others: map<nat, Log.Producer>)
    requires t !in others && c.logger.producers == others[t := Log.Enqueued]
    ensures Exec(c, LogOut(t)) ==
            After(c.(logger := c.logger.(producers := others, accepted := c.logger.accepted + 1,
                                         active := c.logger.active - 1)))
  {
    var c1 := c.(logger := c.logger.(producers := others[t := Log.Leaving(true)], accepted := c.logger.accepted + 1));
    AcceptStep(c, t, others);
    FinishStep(c1, t, others);
    hide Step, Do, Exec, Enabled;
    Chain([c, c1, c1.(logger := c1.logger.(producers := others, active := c.logger.active - 1))], LogOut(t));
  }

  /** log() on a single cell that looks free returns true, whatever the cell holds. */
  lemma LogRuns(c: State, t: nat, record: Record)
    requires LooksFree(c.ring) && Outside(c, t)
    ensures Exec(c, LogCall(t, record)) == After(AfterLog(c, t, record))
  {
    hide Exec, LogIn, LogThrough, LogOut;
    LogInRuns(c, t, record);
    var c1 := Exec(c, LogIn(t, record)).state;
    LogThroughRuns(c1, t, record);
    var c2 := Exec(c1, LogThrough(t, record)).state;
    assert c2.logger.producers == c.logger.producers[t := Log.Enqueued];
    LogOutRuns(c2, t, c.logger.producers);
    ExecInTwo(c, LogIn(t, record), LogThrough(t, record) + LogOut(t));
    ExecInTwo(c1, LogThrough(t, record), LogOut(t));
  }

  /** The worker waits for a number that the cell will never carry again. */
  ghost predicate Wedged(c: State) {
    && c.ring.capacity == 1 && |c.ring.cells| == 1
    && c.ring.dequeuePosition == 0 && c.ring.enqueuePosition >= 2 && c.ring.cells[0].sequence >= 2
    && (c.ring.consumer.Idle? || c.ring.consumer == Mpsc.AtHead(0))
    && (forall t :: t in c.ring.producers && !c.ring.producers[t].Stale? ==> c.ring.producers[t].position >= 2)
    && !c.logger.worker.Dequeued? && !c.logger.worker.Appending? && !Stop.PastFirstLook(c.logger.worker)
    && c.logger.written == [] && c.logger.activeRecords == []
    && c.logger.pending >= 2 + |Log.PendingProducers(c.logger.producers)|
  }

  lemma ProducerKeepsWedged(c: State, e: Event)
    requires Wedged(c) && Enabled(c, e) && e.LoggerStep? && (Log.MovesProducer(e.e) || e.e.Finish?)
    ensures Wedged(Do(c, e))
  {
    if e.e.Finish? {
      Log.ProducerLeaves(c.logger.producers, e.e.t);
    } else {
      Log.ProducerMoves(c.logger.producers, e.e.t, Log.Do(c.logger, e.e).producers[e.e.t]);
    }
    hide Log.PendingProducers, Log.UncountedProducers, Log.PublishIn;
  }

  lemma WorkerKeepsWedged(c: State, e: Event)
    requires Wedged(c) && Enabled(c, e) && e.LoggerStep? && !Log.MovesProducer(e.e) && !e.e.Finish?
    ensures Wedged(Do(c, e))
  {
    WedgedWorker(c.logger, e.e);
    hide Log.PendingProducers, Log.UncountedProducers, Log.PublishIn, Log.Do;
  }

  /** With records counted pending and none to take the worker goes round. */
  lemma WedgedWorker(s: Log.State, e: Log.Event)
    requires Log.Enabled(s, e) && OffQueue(e) && !Log.MovesProducer(e) && !e.Finish?
    requires !s.worker.Dequeued? && !s.worker.Appending? && !Stop.PastFirstLook(s.worker) && s.pending >= 2
    requires s.written == [] && s.activeRecords == []
    ensures var s' := Log.Do(s, e);
      && !s'.worker.Dequeued? && !s'.worker.Appending? && !Stop.PastFirstLook(s'.worker)
      && (s'.pending, s'.producers) == (s.pending, s.producers)
      && s'.written == [] && s'.activeRecords == []
  {
    hide Log.PublishIn;
  }

  /** The ring's half. */
  lemma RingStaysWedged(c: State, e: Event)
    requires Wedged(c) && Enabled(c, e) && e.RingStep?
    ensures var r := Do(c, e).ring;
      && r.capacity == 1 && |r.cells| == 1
      && r.dequeuePosition == 0 && r.enqueuePosition >= 2 && r.cells[0].sequence >= 2
      && (r.consumer.Idle? || r.consumer == Mpsc.AtHead(0))
      && (forall t :: t in r.producers && !r.producers[t].Stale? ==> r.producers[t].position >= 2)
    ensures !e.r.ReleaseCell?
  {
    hide DoLogger;
    Modular.Remainder(1, 0, 0, 0);
    if e.r.LoadSequence? || e.r.WriteValue? || e.r.Publish? {
      var p := c.ring.producers[e.r.t].position;
      Modular.Remainder(1, p, p, 0);
    }
  }

  /** The logger's half: at most one pending attempt becomes an enqueued record. */
  lemma ThreadMoves(c: State, e: Event)
    requires Enabled(c, e) && e.RingStep? && !e.r.ReleaseCell?
    ensures var s, s' := c.logger, Do(c, e).logger;
      && (s'.written, s'.activeRecords, s'.pending) == (s.written, s.activeRecords, s.pending)
      && (s'.worker == s.worker || s'.worker == Log.LoadingState)
      && |Log.PendingProducers(s'.producers)| <= |Log.PendingProducers(s.producers)|
  {
    if e.r.Publish? || Mpsc.EnqueueFails(c.ring, e.r) || Claims(c.ring, e.r) {
      Log.ProducerMoves(c.logger.producers, e.r.t, Do(c, e).logger.producers[e.r.t]);
    }
    hide Mpsc.Do, Log.PendingProducers, Log.UncountedProducers;
  }

  lemma RingKeepsWedged(c: State, e: Event)
    requires Wedged(c) && Enabled(c, e) && e.RingStep?
    ensures Wedged(Do(c, e))
  {
    RingStaysWedged(c, e);
    ThreadMoves(c, e);
    hide Mpsc.Do, Log.PendingProducers, Log.UncountedProducers;
  }

  lemma {:induction false} RunStaysWedged(c: State, events: seq<Event>)
    requires Wedged(c) && Exec(c, events).After?
    ensures Wedged(Exec(c, events).state)
    decreases |events|
  {
    if events != [] {
      if events[0].LoggerStep? && (Log.MovesProducer(events[0].e) || events[0].e.Finish?) {
        ProducerKeepsWedged(c, events[0]);
      } else if events[0].LoggerStep? {
        WorkerKeepsWedged(c, events[0]);
      } else {
        RingKeepsWedged(c, events[0]);
      }
      hide Do, Wedged;
      RunStaysWedged(Do(c, events[0]), events[1..]);
    }
  }

  function TwoLogs(a: Record, b: Record): seq<Event> { LogCall(0, a) + LogCall(0, b) }

  lemma TwoLogsRun(policy: Log.OverflowPolicy, a: Record, b: Record)
    ensures var c := Init(1, policy);
            Exec(c, TwoLogs(a, b)) == After(AfterLog(AfterLog(c, 0, a), 0, b))
  {
    var c := Init(1, policy);
    LogRuns(c, 0, a);
    LogRuns(AfterLog(c, 0, a), 0, b);
    ExecInTwo(c, LogCall(0, a), LogCall(0, b));
    hide Exec, LogCall;
  }

  /** Main result: with one cell, one thread that logs twice before the worker looks has both calls
      return true and loses the first record; and from then on, whatever happens, the worker never
      gets a record, nothing is ever written and the worker never finishes a stop. */
  lemma OneCellWedges(policy: Log.OverflowPolicy, a: Record, b: Record, later: seq<Event>)
    requires Exec(Init(1, policy), TwoLogs(a, b) + later).After?
    ensures Exec(Init(1, policy), TwoLogs(a, b)).After?
    ensures var s := Exec(Init(1, policy), TwoLogs(a, b)).state.logger;
            s.accepted == 2 && s.producers == map[] && s.enqueued == [a, b]
    ensures var s' := Exec(Init(1, policy), TwoLogs(a, b) + later).state.logger;
            s'.written == [] && !s'.worker.Exited? && s'.pending >= 2
  {
    TwoLogsRun(policy, a, b);
    var c := Exec(Init(1, policy), TwoLogs(a, b)).state;
    ExecInTwo(Init(1, policy), TwoLogs(a, b), later);
    assert Log.PendingProducers(map[]) == {};
    assert [] + [a] + [b] == [a, b];
    assert Wedged(c);
    RunStaysWedged(c, later);
    hide Exec, TwoLogs;
  }

  /** Both positions read the second record out of the only cell. */
  lemma OneCellReads(ring: Ring)
    requires ring.capacity == 1 && |ring.cells| == 1 && ring.cells[0].value == 1
    requires ring.producers == map[] && ring.consumer.Idle? && ring.dequeuePosition == 0 && ring.enqueuePosition == 2
    ensures |Log.Records(Slots(ring))| == 2 && Log.Records(Slots(ring))[0] == 1
  {
    Modular.Remainder(1, 0, 0, 0);
    assert Slots(ring)[0] == SlotOf(ring, 0);
  }

  lemma OneCellMisaccounts(policy: Log.OverflowPolicy)
    ensures var o := Exec(Init(1, policy), TwoLogs(0, 1));
            o.After? && Mpsc.WellFormed(o.state.ring) && !Accounted(o.state)
  {
    TwoLogsRun(policy, 0, 1);
    var c := AfterLog(AfterLog(Init(1, policy), 0, 0), 0, 1);
    OneCellReads(c.ring);
    assert c.logger.enqueued == [0, 1];
    hide Exec, TwoLogs, Slots, Log.Records, Log.PendingProducers, Log.UncountedProducers;
    var s := View(c);
    assert s.written + s.activeRecords + Log.InHand(s.worker) + Log.Records(s.ring) == Log.Records(s.ring);
  }

  /** Main result: the logger accounts for its records in every run if and only if its queue has two
      cells or more. */
  lemma AccountsExactlyFromTwoCells(capacity: nat, policy: Log.OverflowPolicy)
    requires capacity > 0
    ensures capacity >= 2 <==>
            forall events :: var o := Exec(Init(capacity, policy), events);
              o.After? ==> Mpsc.WellFormed(o.state.ring) && Accounted(o.state)
  {
    hide Exec, Accounted, TwoLogs;
    if capacity >= 2 {
      forall events | Exec(Init(capacity, policy), events).After?
        ensures var c := Exec(Init(capacity, policy), events).state; Mpsc.WellFormed(c.ring) && Accounted(c)
      {
        EveryRunAccounts(capacity, policy, events);
      }
    } else {
      OneCellMisaccounts(policy);
    }
  }
}
