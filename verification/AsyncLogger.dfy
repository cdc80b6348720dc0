/**
 The asynchronous logger's accounting: producers that count themselves in and out, the queue, and the
 worker that drains it and decides when it may stop.

 Every access to a shared variable is one event, except that the worker's writing out with the store of
 the flushed count is one, and so are the reads with which flush() begins. The queue is a bounded FIFO: an
 enqueue takes effect when its position is claimed, and the worker gets a record only once it is
 published. That the lock-free ring behaves like this from two cells on, and not with one, is proved where
 the two are put together. Records are numbers.
 */
module AsyncLogger {
  import opened Basics

  type Record = nat
  datatype OverflowPolicy = Block | DropNewest
  datatype Phase = Running | Stopping | Stopped | Failed

  /** A queued record; `writer` is the producer that has claimed but not yet published it. */
  datatype Slot = Slot(record: Record, writer: Option<nat>)

  /** A producer inside log(), from counting itself active to counting itself out. */
  datatype Producer =
    | Entered(record: Record)        // active, about to look at the phase again
    | Ready(record: Record)          // about to count a pending record
    | Attempting(record: Record)     // counted pending, about to enqueue
    | Retracting(record: Record)     // the queue was full, about to take the count back
    | Blocked(record: Record)        // waiting for space
    | Publishing
    | Enqueued                       // published, not yet counted as accepted
    | Leaving(accepted: bool)

  datatype Worker =
    | Draining
    | Dequeued(record: Record)       // taken off the queue, still counted pending
    | Appending(record: Record)
    | LoadingState
    | LoadingPending
    | LoadingActive
    | Deciding(drained: bool)
    | Exited
    | Crashed

  /** `enqueued`, `returned` and `sinceLook` are histories: the records in claim order, how many log()
      calls returned true, and the records claimed since the worker last loaded the pending count. */
  datatype State = State(
    capacity: nat,
    policy: OverflowPolicy,
    phase: Phase,
    stopSeen: bool,                  // stop() saw the logger running and has not stored Stopping yet
    checked: set<nat>,
    producers: map<nat, Producer>,
    ring: seq<Slot>,
    pending: int,
    active: int,
    accepted: nat,
    droppedCount: nat,
    worker: Worker,
    activeRecords: seq<Record>,
    written: seq<Record>,
    lastFlushed: nat,
    flushers: map<nat, nat>,
    enqueued: seq<Record>,
    sinceLook: seq<Record>)

  datatype Event =
    | FirstCheck(t: nat)
    | Enter(t: nat, record: Record)
    | SecondCheck(t: nat)
    | CountPending(t: nat)
    | TryEnqueue(t: nat)
    | Retract(t: nat)
    | Unblock(t: nat)
    | Publish(t: nat)
    | CountAccepted(t: nat)
    | Finish(t: nat)
    | LookForStop
    | RequestStop
    | TakeRecord
    | UncountPending
    | AppendRecord(bufferFull: bool)
    | LoadState
    | LoadPending
    | LoadActive
    | Decide(flushDue: bool)
    | Crash
    | CompleteStop
    | BeginFlush(t: nat)
    | EndFlush(t: nat)

  predicate Enabled(s: State, e: Event) {
    match e
    case FirstCheck(t) => t !in s.checked && t !in s.producers
    case Enter(t, _) => t in s.checked && t !in s.producers
    case SecondCheck(t) => t in s.producers && s.producers[t].Entered?
    case CountPending(t) => t in s.producers && s.producers[t].Ready?
    case TryEnqueue(t) => t in s.producers && s.producers[t].Attempting?
    case Retract(t) => t in s.producers && s.producers[t].Retracting?
    case Unblock(t) => t in s.producers && s.producers[t].Blocked?
    case Publish(t) => t in s.producers && s.producers[t].Publishing?
    case CountAccepted(t) => t in s.producers && s.producers[t].Enqueued?
    case Finish(t) => t in s.producers && s.producers[t].Leaving?
    case LookForStop => s.phase == Running && !s.stopSeen
    case RequestStop => s.stopSeen
    case TakeRecord => s.worker.Draining?
    case UncountPending => s.worker.Dequeued?
    case AppendRecord(_) => s.worker.Appending?
    case LoadState => s.worker.LoadingState?
    case LoadPending => s.worker.LoadingPending?
    case LoadActive => s.worker.LoadingActive?
    case Decide(_) => s.worker.Deciding?
    case Crash => s.worker.Appending? || s.worker.Deciding?   // appending, writing and flushing may throw
    case CompleteStop => (s.worker.Exited? || s.worker.Crashed?) && !s.stopSeen
    case BeginFlush(t) => t !in s.flushers && (s.phase == Running || s.phase == Stopping)
    case EndFlush(t) => t in s.flushers && (s.lastFlushed >= s.flushers[t] || s.phase == Failed || s.phase == Stopped)
  }

  function At(s: State, t: nat, p: Producer): State {
    s.(producers := s.producers[t := p])
  }

  function PublishIn(ring: seq<Slot>, t: nat): (r: seq<Slot>)
    ensures |r| == |ring|
  {
    seq(|ring|, i requires 0 <= i < |ring| => if ring[i].writer == Some(t) then ring[i].(writer := None) else ring[i])
  }

  /** write_active_buffer(): the records of the buffer reach the file. */
  function WriteOut(s: State): State {
    s.(written := s.written + s.activeRecords, activeRecords := [])
  }

  function Do(s: State, e: Event): State
    requires Enabled(s, e)
  {
    match e
    case FirstCheck(t) => if s.phase == Running then s.(checked := s.checked + {t}) else s
    case Enter(t, record) =>
      At(s, t, Entered(record)).(active := s.active + 1, checked := s.checked - {t})
    case SecondCheck(t) =>
      At(s, t, if s.phase == Running then Ready(s.producers[t].record) else Leaving(false))
    case CountPending(t) => At(s, t, Attempting(s.producers[t].record)).(pending := s.pending + 1)
    case TryEnqueue(t) =>
      var record := s.producers[t].record;
      if |s.ring| >= s.capacity then At(s, t, Retracting(record))
      else At(s, t, Publishing).(ring := s.ring + [Slot(record, Some(t))],
                                 enqueued := s.enqueued + [record], sinceLook := s.sinceLook + [record])
    case Retract(t) =>
      var s1 := s.(pending := s.pending - 1);
      if s.policy == DropNewest then At(s1, t, Leaving(false)).(droppedCount := s.droppedCount + 1)
      else At(s1, t, Blocked(s.producers[t].record))
    case Unblock(t) =>
      At(s, t, if s.phase == Running then Ready(s.producers[t].record) else Leaving(false))
    case Publish(t) => At(s, t, Enqueued).(ring := PublishIn(s.ring, t))
    case CountAccepted(t) => At(s, t, Leaving(true)).(accepted := s.accepted + 1)
    case Finish(t) => s.(producers := s.producers - {t}, active := s.active - 1)
    case LookForStop => s.(stopSeen := true)
    case RequestStop => s.(phase := Stopping, stopSeen := false)
    case TakeRecord =>
      if s.ring == [] || s.ring[0].writer.Some? then s.(worker := LoadingState)
      else s.(worker := Dequeued(s.ring[0].record), ring := s.ring[1..])
    case UncountPending => s.(worker := Appending(s.worker.record), pending := s.pending - 1)
    case AppendRecord(bufferFull) =>
      var s1 := if bufferFull then WriteOut(s) else s;
      s1.(worker := Draining, activeRecords := s1.activeRecords + [s.worker.record])
    case LoadState => s.(worker := if s.phase == Stopping then LoadingPending else Deciding(false))
    case LoadPending =>
      s.(worker := if s.pending == 0 then LoadingActive else Deciding(false), sinceLook := [])
    case LoadActive => s.(worker := Deciding(s.active == 0))
    case Decide(flushDue) =>
      var drained := s.worker.drained;
      var s1 := if flushDue || drained then WriteOut(s).(lastFlushed := |s.written + s.activeRecords|) else s;
      s1.(worker := if drained then Exited else Draining)
    case Crash => s.(worker := Crashed, phase := Failed)
    case CompleteStop => s.(phase := if s.phase == Failed then Failed else Stopped)
    case BeginFlush(t) => s.(flushers := s.flushers[t := s.accepted])
    case EndFlush(t) => s.(flushers := s.flushers - {t})
  }

  function Init(capacity: nat, policy: OverflowPolicy): State {
    State(capacity, policy, Running, false, {}, map[], [], 0, 0, 0, 0, Draining, [], [], 0, map[], [], [])
  }

  function Exec(s: State, events: seq<Event>): Outcome<State>
    decreases |events|
  {
    if events == [] then After(s)
    else if !Enabled(s, events[0]) then Stuck
    else Exec(Do(s, events[0]), events[1..])
  }

  // ---------------------------------------------------------------- the invariant

  predicate CountsPending(p: Producer) { p.Attempting? || p.Retracting? }
  predicate Uncounted(p: Producer) { p.Publishing? || p.Enqueued? }

  /** Producers with a pending count of their own, and producers enqueued but not yet accepted. */
  function PendingProducers(producers: map<nat, Producer>): set<nat> {
    set t | t in producers && CountsPending(producers[t])
  }

  function UncountedProducers(producers: map<nat, Producer>): set<nat> {
    set t | t in producers && Uncounted(producers[t])
  }

  function Records(ring: seq<Slot>): (r: seq<Record>)
    ensures |r| == |ring|
  {
    seq(|ring|, i requires 0 <= i < |ring| => ring[i].record)
  }

  /** The record the worker has in its hands. */
  function InHand(w: Worker): seq<Record> {
    if w.Dequeued? || w.Appending? then [w.record] else []
  }

  /** Counters mean what they say: none of them can underflow. */
  predicate Counted(s: State) {
    && s.active == |s.producers|
    && s.pending == |PendingProducers(s.producers)| + |s.ring| + (if s.worker.Dequeued? then 1 else 0)
    && s.accepted + |UncountedProducers(s.producers)| == |s.enqueued|
  }

  /** Every claimed record is, in order, written, in the buffer, in the worker's hands or queued; a
      crash loses at most what was not written. */
  predicate Accounted(s: State) {
    && (!s.worker.Crashed? ==> s.enqueued == s.written + s.activeRecords + InHand(s.worker) + Records(s.ring))
    && s.written <= s.enqueued
    && s.lastFlushed <= |s.written|
    && |s.ring| <= s.capacity
  }

  /** While the worker is between its looks at the counters, the queue holds just what was claimed
      since the first look; once it has seen nobody active, nobody can claim any more. */
  predicate ExitInv(s: State) {
    && (s.worker.LoadingActive? || s.worker == Deciding(true) || s.worker.Exited? ==> Records(s.ring) == s.sinceLook)
    && (s.worker.LoadingPending? || s.worker.LoadingActive? || s.worker == Deciding(true) || s.worker.Exited? ==>
          s.phase != Running)
    && (s.worker == Deciding(true) || s.worker.Exited? ==>
          forall t :: t in s.producers ==> s.producers[t].Entered? || s.producers[t] == Leaving(false))
    && (s.worker.Exited? ==> s.activeRecords == [] && s.lastFlushed == |s.written|)
  }

  predicate FlushInv(s: State) {
    forall t :: t in s.flushers ==> s.flushers[t] <= s.accepted
  }

  predicate Inv(s: State) {
    Counted(s) && Accounted(s) && ExitInv(s) && FlushInv(s)
  }

  // ------------------------------------------------ every event keeps the invariant

  function One(b: bool): nat { if b then 1 else 0 }

  lemma OneMemberChanges(a: set<nat>, b: set<nat>, t: nat)
    requires forall u :: u != t ==> (u in a <==> u in b)
    ensures |b| == |a| - One(t in a) + One(t in b)
  {
    var others := a - {t};
    assert others == b - {t};
    assert a == others + (if t in a then {t} else {});
    assert b == others + (if t in b then {t} else {});
  }

  /** How the counts change when one producer moves or enters. */
  lemma ProducerMoves(producers: map<nat, Producer>, t: nat, p: Producer)
    ensures var before := if t in producers then Some(producers[t]) else None;
      && |producers[t := p]| == |producers| + One(before.None?)
      && |PendingProducers(producers[t := p])| ==
           |PendingProducers(producers)| - One(before.Some? && CountsPending(before.value)) + One(CountsPending(p))
      && |UncountedProducers(producers[t := p])| ==
           |UncountedProducers(producers)| - One(before.Some? && Uncounted(before.value)) + One(Uncounted(p))
  {
    var moved := producers[t := p];
    OneMemberChanges(producers.Keys, moved.Keys, t);
    OneMemberChanges(PendingProducers(producers), PendingProducers(moved), t);
    OneMemberChanges(UncountedProducers(producers), UncountedProducers(moved), t);
  }

  lemma ProducerLeaves(producers: map<nat, Producer>, t: nat)
    requires t in producers && producers[t].Leaving?
    ensures |producers - {t}| == |producers| - 1
    ensures PendingProducers(producers - {t}) == PendingProducers(producers)
    ensures UncountedProducers(producers - {t}) == UncountedProducers(producers)
  {
    assert (producers - {t}).Keys == producers.Keys - {t};
  }

  predicate MovesProducer(e: Event) {
    || e.Enter? || e.SecondCheck? || e.CountPending? || e.TryEnqueue? || e.Retract? || e.Unblock?
    || e.Publish? || e.CountAccepted?
  }

  /** The producer's part of an event. */
  lemma ProducersPart(s: State, e: Event)
    requires Enabled(s, e) && MovesProducer(e)
    ensures e.t in Do(s, e).producers && Do(s, e).producers == s.producers[e.t := Do(s, e).producers[e.t]]
    ensures Do(s, e).worker == s.worker
  {
    hide PublishIn;
  }

  lemma ProducersKeepCounted(s: State, e: Event)
    requires Counted(s) && Enabled(s, e) && MovesProducer(e)
    ensures Counted(Do(s, e))
  {
    ProducersPart(s, e);
    ProducersCounts(s, e);
    ProducerMoves(s.producers, e.t, Do(s, e).producers[e.t]);
    hide PendingProducers, UncountedProducers, PublishIn, Do, Enabled;
  }

  /** What the producer that moves adds to the counters. */
  lemma ProducersCounts(s: State, e: Event)
    requires Enabled(s, e) && MovesProducer(e)
    ensures var s' := Do(s, e); var inside := e.t in s.producers;
      && e.t in s'.producers
      && s'.active == s.active + One(!inside)
      && s'.pending - |s'.ring| - One(CountsPending(s'.producers[e.t]))
           == s.pending - |s.ring| - One(inside && CountsPending(s.producers[e.t]))
      && s'.accepted - |s'.enqueued| + One(Uncounted(s'.producers[e.t]))
           == s.accepted - |s.enqueued| + One(inside && Uncounted(s.producers[e.t]))
  {
    hide PublishIn, WriteOut;
  }

  lemma OthersKeepCounted(s: State, e: Event)
    requires Counted(s) && Enabled(s, e) && !MovesProducer(e) && !e.Finish?
    ensures Counted(Do(s, e))
  {
    WorkersPart(s, e);
    hide PendingProducers, UncountedProducers, Records, PublishIn, Do;
  }

  /** The rest of an event, as far as the counts go. */
  lemma WorkersPart(s: State, e: Event)
    requires Enabled(s, e) && !MovesProducer(e) && !e.Finish?
    ensures var s' := Do(s, e);
      && (s'.producers, s'.active, s'.accepted, s'.enqueued) == (s.producers, s.active, s.accepted, s.enqueued)
      && s'.pending - |s'.ring| - (if s'.worker.Dequeued? then 1 else 0)
           == s.pending - |s.ring| - (if s.worker.Dequeued? then 1 else 0)
  {
    hide PublishIn;
  }

  lemma EventKeepsCounted(s: State, e: Event)
    requires Counted(s) && Enabled(s, e)
    ensures Counted(Do(s, e))
  {
    if MovesProducer(e) {
      ProducersKeepCounted(s, e);
    } else if e.Finish? {
      ProducerLeaves(s.producers, e.t);
    } else {
      OthersKeepCounted(s, e);
    }
  }

  lemma RecordsOf(ring: seq<Slot>, slot: Slot, t: nat)
    ensures Records(ring + [slot]) == Records(ring) + [slot.record]
    ensures Records(PublishIn(ring, t)) == Records(ring)
    ensures ring != [] ==> Records(ring) == [ring[0].record] + Records(ring[1..])
  {
  }

  lemma QueueKeepsAccounted(s: State, e: Event)
    requires Accounted(s) && Enabled(s, e) && (e.TryEnqueue? || e.Publish?)
    ensures Accounted(Do(s, e))
  {
    if e.TryEnqueue? {
      RecordsOf(s.ring, Slot(s.producers[e.t].record, Some(e.t)), 0);
    } else {
      RecordsOf(s.ring, Slot(0, None), e.t);
    }
    hide Records, PublishIn;
  }

  lemma TakingKeepsAccounted(s: State, e: Event)
    requires Accounted(s) && Enabled(s, e) && e.TakeRecord?
    ensures Accounted(Do(s, e))
  {
    RecordsOf(s.ring, Slot(0, None), 0);
    hide Records, PublishIn;
    if s.ring != [] {
      assert s.enqueued == s.written + s.activeRecords + ([s.ring[0].record] + Records(s.ring[1..]));
    }
  }

  lemma AppendingKeepsAccounted(s: State, e: Event)
    requires Accounted(s) && Enabled(s, e) && e.AppendRecord?
    ensures Accounted(Do(s, e))
  {
    hide Records, PublishIn;
    assert s.enqueued == s.written + (s.activeRecords + [s.worker.record]) + Records(s.ring);
    assert s.enqueued == (s.written + s.activeRecords) + ([] + [s.worker.record]) + Records(s.ring);
  }

  lemma DecidingKeepsAccounted(s: State, e: Event)
    requires Accounted(s) && Enabled(s, e) && e.Decide?
    ensures Accounted(Do(s, e))
  {
    hide Records, PublishIn;
    assert s.enqueued == (s.written + s.activeRecords) + [] + [] + Records(s.ring);
  }

  lemma EventKeepsAccounted(s: State, e: Event)
    requires Accounted(s) && Enabled(s, e)
    ensures Accounted(Do(s, e))
  {
    if e.TryEnqueue? || e.Publish? {
      QueueKeepsAccounted(s, e);
    } else if e.TakeRecord? {
      TakingKeepsAccounted(s, e);
    } else if e.AppendRecord? {
      AppendingKeepsAccounted(s, e);
    } else if e.Decide? {
      DecidingKeepsAccounted(s, e);
    } else {
      hide Records, PublishIn;
    }
  }

  lemma EnqueueKeepsExit(s: State, e: Event)
    requires ExitInv(s) && Enabled(s, e) && e.TryEnqueue?
    ensures ExitInv(Do(s, e))
  {
    RecordsOf(s.ring, Slot(s.producers[e.t].record, Some(e.t)), 0);
    hide Records, PublishIn;
  }

  lemma PublishKeepsExit(s: State, e: Event)
    requires ExitInv(s) && Enabled(s, e) && e.Publish?
    ensures ExitInv(Do(s, e))
  {
    RecordsOf(s.ring, Slot(0, None), e.t);
    hide Records, PublishIn;
  }

  lemma ProducersKeepExit(s: State, e: Event)
    requires ExitInv(s) && Enabled(s, e) && (MovesProducer(e) || e.Finish?)
    ensures ExitInv(Do(s, e))
  {
    if e.TryEnqueue? {
      EnqueueKeepsExit(s, e);
      hide Do, ExitInv;
    } else if e.Publish? {
      PublishKeepsExit(s, e);
      hide Do, ExitInv;
    } else {
      hide Records, PublishIn, WriteOut;
    }
  }

  lemma WorkerKeepsExit(s: State, e: Event)
    requires Inv(s) && Enabled(s, e) && !MovesProducer(e) && !e.Finish?
    ensures ExitInv(Do(s, e))
  {
    hide PublishIn, FlushInv, PendingProducers, UncountedProducers;
    if e.LoadActive? && s.active == 0 {
      assert s.producers.Keys == {};
    }
  }

  lemma EventKeepsFlush(s: State, e: Event)
    requires FlushInv(s) && Enabled(s, e)
    ensures FlushInv(Do(s, e))
  {
    hide Records, PublishIn, PendingProducers, UncountedProducers;
  }

  lemma EventKeepsInv(s: State, e: Event)
    requires Inv(s) && Enabled(s, e)
    ensures Inv(Do(s, e))
  {
    EventKeepsFlush(s, e);
    EventKeepsCounted(s, e);
    EventKeepsAccounted(s, e);
    if MovesProducer(e) || e.Finish? {
      ProducersKeepExit(s, e);
    } else {
      WorkerKeepsExit(s, e);
    }
    hide Counted, Accounted, ExitInv, FlushInv, Do;
  }

  lemma {:induction false} RunKeepsInv(s: State, events: seq<Event>)
    requires Inv(s)
    ensures Exec(s, events).After? ==> Inv(Exec(s, events).state)
    decreases |events|
  {
    hide Inv, Do;
    if events != [] && Enabled(s, events[0]) {
      EventKeepsInv(s, events[0]);
      RunKeepsInv(Do(s, events[0]), events[1..]);
    }
  }

  lemma InitKeepsInv(capacity: nat, policy: OverflowPolicy)
    ensures Inv(Init(capacity, policy))
  {
  }

  // ---------------------------------------------------------------- what users rely on

  /** Main result: in every run the counters are exact. None underflows, no claimed record is lost or
      reordered on its way to the file short of a crash, and accepted lags behind claimed exactly by
      the producers that have not counted yet. */
  lemma EveryRunAccounts(capacity: nat, policy: OverflowPolicy, events: seq<Event>)
    requires Exec(Init(capacity, policy), events).After?
    ensures var s := Exec(Init(capacity, policy), events).state;
      && 0 <= s.active && 0 <= s.pending
      && s.pending == |PendingProducers(s.producers)| + |s.ring| + (if s.worker.Dequeued? then 1 else 0)
      && s.accepted == |s.enqueued| - |UncountedProducers(s.producers)|
      && (!s.worker.Crashed? ==> s.enqueued == s.written + s.activeRecords + InHand(s.worker) + Records(s.ring))
      && s.written <= s.enqueued
  {
    InitKeepsInv(capacity, policy);
    RunKeepsInv(Init(capacity, policy), events);
  }

  /** Nobody is between its claim and its count any more. */
  lemma NobodyUncounted(producers: map<nat, Producer>)
    requires forall t :: t in producers ==> !Uncounted(producers[t])
    ensures UncountedProducers(producers) == {}
  {
  }

  lemma ExitedLoses(s: State)
    requires Inv(s) && s.worker.Exited?
    ensures s.accepted == |s.enqueued| && s.enqueued == s.written + s.sinceLook
    ensures s.lastFlushed == |s.written| && Records(s.ring) == s.sinceLook
  {
    NobodyUncounted(s.producers);
    assert s.written + [] + [] + Records(s.ring) == s.written + s.sinceLook;
  }

  /** What is left behind when the worker exits on its own is what was claimed between its look at the
      pending count and its exit. */
  lemma ExitLosesExactly(capacity: nat, policy: OverflowPolicy, events: seq<Event>)
    requires Exec(Init(capacity, policy), events).After?
    requires Exec(Init(capacity, policy), events).state.worker.Exited?
    ensures var s := Exec(Init(capacity, policy), events).state;
      && s.accepted == |s.enqueued|
      && s.enqueued == s.written + s.sinceLook
      && (s.accepted == |s.written| <==> s.sinceLook == [])
      && s.lastFlushed == |s.written|
  {
    InitKeepsInv(capacity, policy);
    RunKeepsInv(Init(capacity, policy), events);
    ExitedLoses(Exec(Init(capacity, policy), events).state);
  }

  /** The run never separates the look at the active count from the look at the pending count. */
  predicate LooksTogether(events: seq<Event>, justLooked: bool)
    decreases |events|
  {
    events == [] || ((events[0].LoadActive? ==> justLooked) && LooksTogether(events[1..], events[0].LoadPending?))
  }

  predicate NothingSince(s: State) {
    s.worker == Deciding(true) || s.worker.Exited? ==> s.sinceLook == []
  }

  lemma EventKeepsNothingSince(s: State, e: Event)
    requires Inv(s) && Enabled(s, e) && NothingSince(s)
    requires e.LoadActive? ==> s.sinceLook == []
    ensures NothingSince(Do(s, e))
    ensures e.LoadPending? ==> Do(s, e).sinceLook == []
  {
    assert ExitInv(s);
    hide Inv, Counted, Accounted, FlushInv, Records, PublishIn;
  }

  lemma {:induction false} TogetherKeepsNothingSince(s: State, events: seq<Event>, justLooked: bool)
    requires Inv(s) && NothingSince(s) && LooksTogether(events, justLooked)
    requires justLooked ==> s.sinceLook == []
    ensures Exec(s, events).After? ==> NothingSince(Exec(s, events).state)
    decreases |events|
  {
    if events != [] && Enabled(s, events[0]) {
      EventKeepsInv(s, events[0]);
      EventKeepsNothingSince(s, events[0]);
      hide Inv, Do, NothingSince;
      TogetherKeepsNothingSince(Do(s, events[0]), events[1..], events[0].LoadPending?);
    }
  }

  /** Main result: when the two looks are one step, an exit leaves an empty queue and everything
      accepted is written and flushed. */
  lemma DrainsWhenLooksAreTogether(capacity: nat, policy: OverflowPolicy, events: seq<Event>)
    requires Exec(Init(capacity, policy), events).After? && LooksTogether(events, false)
    requires Exec(Init(capacity, policy), events).state.worker.Exited?
    ensures var s := Exec(Init(capacity, policy), events).state;
            s.ring == [] && s.written == s.enqueued && s.accepted == |s.written| == s.lastFlushed
  {
    InitKeepsInv(capacity, policy);
    TogetherKeepsNothingSince(Init(capacity, policy), events, false);
    ExitLosesExactly(capacity, policy, events);
    RunKeepsInv(Init(capacity, policy), events);
    var s := Exec(Init(capacity, policy), events).state;
    assert s.written + [] == s.written;
    assert |Records(s.ring)| == 0;
  }

  // ---------------------------------------------------------------- concrete runs

  predicate Step(s: State, e: Event, s': State) {
    Enabled(s, e) && Do(s, e) == s'
  }

  lemma {:induction false} Chain(states: seq<State>, events: seq<Event>)
    requires |states| == |events| + 1
    requires forall i :: 0 <= i < |events| ==> Step(states[i], events[i], states[i + 1])
    ensures Exec(states[0], events) == After(states[|events|])
    decreases |events|
  {
    if events != [] {
      assert Step(states[0], events[0], states[1]);
      hide Do, Enabled, Step;
      forall i | 0 <= i < |events| - 1 ensures Step(states[1..][i], events[1..][i], states[1..][i + 1]) {
        assert Step(states[i + 1], events[i + 1], states[i + 1 + 1]);
      }
      Chain(states[1..], events[1..]);
    }
  }

  lemma {:induction false} ExecInTwo(s: State, first: seq<Event>, second: seq<Event>)
    requires Exec(s, first).After?
    ensures Exec(s, first + second) == Exec(Exec(s, first).state, second)
    decreases |first|
  {
    if first == [] {
      assert first + second == second;
    } else {
      assert (first + second)[1..] == first[1..] + second;
      hide Do;
      ExecInTwo(Do(s, first[0]), first[1..], second);
    }
  }

  // With separate looks a record can be accepted and never written: its producer was admitted before
  // the stop, and enqueues between the two looks.

  function Admission(record: Record): seq<Event> {
    [FirstCheck(0), Enter(0, record), SecondCheck(0), LookForStop, RequestStop]
  }

  function FirstLook(): seq<Event> { [TakeRecord, LoadState, LoadPending] }

  function LateEnqueue(t: nat): seq<Event> {
    [CountPending(t), TryEnqueue(t), Publish(t), CountAccepted(t)]
  }

  function SecondLook(t: nat): seq<Event> { [Finish(t), LoadActive, Decide(true)] }

  /** The producer is admitted, then the stop comes. */
  lemma AdmissionRuns(capacity: nat, policy: OverflowPolicy, record: Record)
    ensures Exec(Init(capacity, policy), Admission(record)) ==
            After(Init(capacity, policy).(producers := map[0 := Ready(record)], active := 1, phase := Stopping))
  {
    var s0 := Init(capacity, policy);
    var s1 := s0.(checked := {0});
    var s2 := s0.(producers := map[0 := Entered(record)], active := 1);
    var s3 := s2.(producers := map[0 := Ready(record)]);
    var s4, s5 := s3.(stopSeen := true), s3.(phase := Stopping);
    assert Step(s0, FirstCheck(0), s1) by { assert {} + {0} == {0}; }
    assert Step(s1, Enter(0, record), s2) by { assert {0} - {0} == {}; }
    assert Step(s2, SecondCheck(0), s3);
    assert Step(s3, LookForStop, s4) && Step(s4, RequestStop, s5);
    hide Step, Do, Exec;
    Chain([s0, s1, s2, s3, s4, s5], Admission(record));
  }

  /** The worker finds the queue empty and nothing pending. */
  lemma FirstLookRuns(s: State)
    requires s.worker == Draining && s.ring == [] && s.phase == Stopping && s.pending == 0
    ensures Exec(s, FirstLook()) == After(s.(worker := LoadingActive, sinceLook := []))
  {
    var s1, s2 := s.(worker := LoadingState), s.(worker := LoadingPending);
    var s3 := s.(worker := LoadingActive, sinceLook := []);
    assert Step(s, TakeRecord, s1);
    assert Step(s1, LoadState, s2);
    assert Step(s2, LoadPending, s3);
    hide Step, Do, Exec;
    Chain([s, s1, s2, s3], FirstLook());
  }

  /** The producer enqueues, publishes and counts before the worker's second look ... */
  lemma LateEnqueueRuns(s: State, t: nat, record: Record)
    requires s.producers == map[t := Ready(record)] && s.ring == [] && s.capacity >= 1
    ensures Exec(s, LateEnqueue(t)) ==
            After(s.(producers := map[t := Leaving(true)], pending := s.pending + 1, accepted := s.accepted + 1,
                     ring := [Slot(record, None)], enqueued := s.enqueued + [record],
                     sinceLook := s.sinceLook + [record]))
  {
    var s1 := s.(producers := map[t := Attempting(record)], pending := s.pending + 1);
    var s2 := s1.(producers := map[t := Publishing], ring := [Slot(record, Some(t))],
                  enqueued := s.enqueued + [record], sinceLook := s.sinceLook + [record]);
    var s3 := s2.(producers := map[t := Enqueued], ring := [Slot(record, None)]);
    var s4 := s3.(producers := map[t := Leaving(true)], accepted := s.accepted + 1);
    CountsOne(s, t, record);
    EnqueuesOne(s1, t, record);
    PublishesOne(s2, t, record);
    AcceptsOne(s3, t);
    hide Step, Do, Exec;
    Chain([s, s1, s2, s3, s4], LateEnqueue(t));
  }

  lemma CountsOne(s: State, t: nat, record: Record)
    requires s.producers == map[t := Ready(record)]
    ensures Step(s, CountPending(t), s.(producers := map[t := Attempting(record)], pending := s.pending + 1))
  {
    assert s.producers[t := Attempting(record)] == map[t := Attempting(record)];
  }

  lemma EnqueuesOne(s: State, t: nat, record: Record)
    requires s.producers == map[t := Attempting(record)] && s.ring == [] && s.capacity >= 1
    ensures Step(s, TryEnqueue(t), s.(producers := map[t := Publishing], ring := [Slot(record, Some(t))],
                   enqueued := s.enqueued + [record], sinceLook := s.sinceLook + [record]))
  {
    assert s.producers[t := Publishing] == map[t := Publishing];
    assert [] + [Slot(record, Some(t))] == [Slot(record, Some(t))];
  }

  lemma PublishesOne(s: State, t: nat, record: Record)
    requires s.producers == map[t := Publishing] && s.ring == [Slot(record, Some(t))]
    ensures Step(s, Publish(t), s.(producers := map[t := Enqueued], ring := [Slot(record, None)]))
  {
    assert s.producers[t := Enqueued] == map[t := Enqueued];
  }

  lemma AcceptsOne(s: State, t: nat)
    requires s.producers == map[t := Enqueued]
    ensures Step(s, CountAccepted(t), s.(producers := map[t := Leaving(true)], accepted := s.accepted + 1))
  {
    assert s.producers[t := Leaving(true)] == map[t := Leaving(true)];
  }

  /** ... and leaves, so that the second look finds nobody active. */
  lemma SecondLookRuns(s: State, t: nat)
    requires s.producers == map[t := Leaving(true)] && s.active == 1 && s.worker == LoadingActive
    ensures var o := Exec(s, SecondLook(t));
      && o.After? && o.state.worker.Exited? && o.state.accepted == s.accepted && o.state.enqueued == s.enqueued
      && o.state.written == s.written + s.activeRecords
  {
    var s1 := s.(producers := map[], active := 0);
    var s2 := s1.(worker := Deciding(true));
    var s3 := Do(s2, Decide(true));
    assert Step(s, Finish(t), s1) by { assert s.producers - {t} == map[]; }
    assert Step(s1, LoadActive, s2);
    assert Step(s2, Decide(true), s3);
    hide Step, Do, Exec;
    Chain([s, s1, s2, s3], SecondLook(t));
  }

  lemma SplitLooksLose(capacity: nat, policy: OverflowPolicy, record: Record)
    requires capacity >= 1
    ensures var o := Exec(Init(capacity, policy), Admission(record) + (FirstLook() + (LateEnqueue(0) + SecondLook(0))));
            o.After? && o.state.worker.Exited? && o.state.accepted == 1 && o.state.written == []
  {
    var s0 := Init(capacity, policy);
    AdmissionRuns(capacity, policy, record);
    var s1 := Exec(s0, Admission(record)).state;
    FirstLookRuns(s1);
    var s2 := Exec(s1, FirstLook()).state;
    LateEnqueueRuns(s2, 0, record);
    SecondLookRuns(Exec(s2, LateEnqueue(0)).state, 0);
    ExecInTwo(s0, Admission(record), FirstLook() + (LateEnqueue(0) + SecondLook(0)));
    ExecInTwo(s1, FirstLook(), LateEnqueue(0) + SecondLook(0));
    ExecInTwo(s2, LateEnqueue(0), SecondLook(0));
    hide Exec, Admission, FirstLook, LateEnqueue, SecondLook;
  }

  // ---------------------------------------------------------------- flush()

  lemma {:induction false} ClaimsOnlyGrow(s: State, events: seq<Event>)
    ensures Exec(s, events).After? ==> s.enqueued <= Exec(s, events).state.enqueued
    decreases |events|
  {
    if events != [] && Enabled(s, events[0]) {
      ClaimsOnlyGrow(Do(s, events[0]), events[1..]);
    }
  }

  /** What flush() promises when it returns because enough was flushed: the first `accepted` records in
      claim order are in the file, where `accepted` was read when flush() began. When no producer was
      between its claim and its count at that moment, these are all records claimed before. */
  lemma FlushCovers(s: State, events: seq<Event>)
    requires Inv(s) && Exec(s, events).After?
    requires Exec(s, events).state.lastFlushed >= s.accepted
    ensures s.accepted <= |s.enqueued| && s.enqueued[..s.accepted] <= Exec(s, events).state.written
    ensures UncountedProducers(s.producers) == {} ==> s.enqueued <= Exec(s, events).state.written
  {
    RunKeepsInv(s, events);
    ClaimsOnlyGrow(s, events);
    var s' := Exec(s, events).state;
    hide Exec, Records;
    assert s'.written[..s.accepted] == s'.enqueued[..s.accepted] == s.enqueued[..s.accepted];
    if UncountedProducers(s.producers) == {} {
      assert s.enqueued[..s.accepted] == s.enqueued;
    }
  }

  // Records of other producers may make up the count, so a producer that flushes right after its own
  // log() returned may come back before its own record is written.

  /** What a producer does up to claiming a position. */
  function Claim(t: nat, record: Record): seq<Event> {
    [FirstCheck(t), Enter(t, record), SecondCheck(t), CountPending(t), TryEnqueue(t)]
  }

  function Claimed(s: State, t: nat, record: Record): State {
    At(s, t, Publishing).(active := s.active + 1, pending := s.pending + 1, ring := s.ring + [Slot(record, Some(t))],
                          enqueued := s.enqueued + [record], sinceLook := s.sinceLook + [record])
  }

  lemma ClaimRuns(s: State, t: nat, record: Record)
    requires s.phase == Running && t !in s.producers && t !in s.checked && |s.ring| < s.capacity
    ensures Exec(s, Claim(t, record)) == After(Claimed(s, t, record))
  {
    var s1 := s.(checked := s.checked + {t});
    var s2 := At(s, t, Entered(record)).(active := s.active + 1);
    var s3 := At(s2, t, Ready(record));
    var s4 := At(s3, t, Attempting(record)).(pending := s.pending + 1);
    assert Step(s, FirstCheck(t), s1);
    assert Step(s1, Enter(t, record), s2) by { assert s1.checked - {t} == s.checked; }
    assert Step(s2, SecondCheck(t), s3);
    assert Step(s3, CountPending(t), s4);
    assert Step(s4, TryEnqueue(t), Claimed(s, t, record)) by {
      assert s4.producers[t := Publishing] == s.producers[t := Publishing];
    }
    hide Step, Do, Exec, Claimed;
    Chain([s, s1, s2, s3, s4, Claimed(s, t, record)], Claim(t, record));
  }

  /** Producers 0, 1 and 2 claim; 0 and 2 publish; only 2 counts its record and returns true. */
  function ThreeClaims(a: Record, b: Record, c: Record): seq<Event> {
    Claim(0, a) + (Claim(1, b) + (Claim(2, c) + ([Publish(0), Publish(2)] + [CountAccepted(2), Finish(2)])))
  }

  function AfterThreeClaims(capacity: nat, policy: OverflowPolicy, a: Record, b: Record, c: Record): State {
    Init(capacity, policy).(producers := map[0 := Enqueued, 1 := Publishing], active := 2, pending := 3, accepted := 1,
      ring := [Slot(a, None), Slot(b, Some(1)), Slot(c, None)], enqueued := [a, b, c], sinceLook := [a, b, c])
  }

  lemma ThreeClaimsRun(capacity: nat, policy: OverflowPolicy, a: Record, b: Record, c: Record)
    requires capacity >= 3
    ensures Exec(Init(capacity, policy), ThreeClaims(a, b, c)) == After(AfterThreeClaims(capacity, policy, a, b, c))
  {
    var s0 := Init(capacity, policy);
    var s1 := Claimed(s0, 0, a);
    var s2 := Claimed(s1, 1, b);
    var s3 := Claimed(s2, 2, c);
    ClaimRuns(s0, 0, a);
    ClaimRuns(s1, 1, b);
    ClaimRuns(s2, 2, c);
    var last := [Publish(0), Publish(2)] + [CountAccepted(2), Finish(2)];
    ExecInTwo(s2, Claim(2, c), last);
    ExecInTwo(s1, Claim(1, b), Claim(2, c) + last);
    ExecInTwo(s0, Claim(0, a), Claim(1, b) + (Claim(2, c) + last));
    assert s3.producers == map[0 := Publishing, 1 := Publishing, 2 := Publishing];
    assert s3.ring == [Slot(a, Some(0)), Slot(b, Some(1)), Slot(c, Some(2))];
    assert s3.enqueued == s3.sinceLook == [a, b, c];
    PublishesTwo(s3, a, b, c);
    ExecInTwo(s3, [Publish(0), Publish(2)], [CountAccepted(2), Finish(2)]);
    var others := map[0 := Enqueued, 1 := Publishing];
    assert others[2 := Enqueued] == map[0 := Enqueued, 1 := Publishing, 2 := Enqueued];
    CountsAndLeaves(Exec(s3, [Publish(0), Publish(2)]).state, 2, others);
  }

  lemma FirstOfThree(s: State, a: Record, b: Record, c: Record)
    requires s.ring == [Slot(a, Some(0)), Slot(b, Some(1)), Slot(c, Some(2))]
    requires s.producers == map[0 := Publishing, 1 := Publishing, 2 := Publishing]
    ensures Step(s, Publish(0), s.(producers := map[0 := Enqueued, 1 := Publishing, 2 := Publishing],
                                   ring := [Slot(a, None), Slot(b, Some(1)), Slot(c, Some(2))]))
  {
    assert s.producers[0 := Enqueued] == map[0 := Enqueued, 1 := Publishing, 2 := Publishing];
  }

  lemma LastOfThree(s: State, a: Record, b: Record, c: Record)
    requires s.ring == [Slot(a, None), Slot(b, Some(1)), Slot(c, Some(2))]
    requires s.producers == map[0 := Enqueued, 1 := Publishing, 2 := Publishing]
    ensures Step(s, Publish(2), s.(producers := map[0 := Enqueued, 1 := Publishing, 2 := Enqueued],
                                   ring := [Slot(a, None), Slot(b, Some(1)), Slot(c, None)]))
  {
    assert s.producers[2 := Enqueued] == map[0 := Enqueued, 1 := Publishing, 2 := Enqueued];
  }

  lemma PublishesTwo(s: State, a: Record, b: Record, c: Record)
    requires s.ring == [Slot(a, Some(0)), Slot(b, Some(1)), Slot(c, Some(2))]
    requires s.producers == map[0 := Publishing, 1 := Publishing, 2 := Publishing]
    ensures Exec(s, [Publish(0), Publish(2)]) ==
            After(s.(producers := map[0 := Enqueued, 1 := Publishing, 2 := Enqueued],
                     ring := [Slot(a, None), Slot(b, Some(1)), Slot(c, None)]))
  {
    var s1 := s.(producers := map[0 := Enqueued, 1 := Publishing, 2 := Publishing],
                 ring := [Slot(a, None), Slot(b, Some(1)), Slot(c, Some(2))]);
    var s2 := s1.(producers := map[0 := Enqueued, 1 := Publishing, 2 := Enqueued],
                  ring := [Slot(a, None), Slot(b, Some(1)), Slot(c, None)]);
    FirstOfThree(s, a, b, c);
    LastOfThree(s1, a, b, c);
    hide Step, Do, Exec;
    Chain([s, s1, s2], [Publish(0), Publish(2)]);
  }

  lemma CountsAndLeaves(s: State, t: nat, others: map<nat, Producer>)
    requires t !in others && s.producers == others[t := Enqueued]
    ensures Exec(s, [CountAccepted(t), Finish(t)]) ==
            After(s.(producers := others, active := s.active - 1, accepted := s.accepted + 1))
  {
    var s1 := s.(producers := others[t := Leaving(true)], accepted := s.accepted + 1);
    var s2 := s1.(producers := others, active := s.active - 1);
    assert Step(s, CountAccepted(t), s1);
    assert Step(s1, Finish(t), s2) by { assert s1.producers - {t} == others; }
    hide Step, Do, Exec;
    Chain([s, s1, s2], [CountAccepted(t), Finish(t)]);
  }

  /** A look at the queue that finds its head unpublished, and a flush that is due. */
  lemma FlushPass(s: State)
    requires s.worker == Draining && s.phase == Running && s.ring != [] && s.ring[0].writer.Some?
    ensures Exec(s, [TakeRecord, LoadState, Decide(true)]) ==
            After(WriteOut(s).(lastFlushed := |s.written + s.activeRecords|))
  {
    LookFails(s);
    FlushDue(s.(worker := LoadingState));
    hide Step, Do, Exec, WriteOut, Enabled;
    Chain([s, s.(worker := LoadingState), s.(worker := Deciding(false)),
           WriteOut(s).(lastFlushed := |s.written + s.activeRecords|)], [TakeRecord, LoadState, Decide(true)]);
  }

  lemma LookFails(s: State)
    requires s.worker == Draining && s.ring != [] && s.ring[0].writer.Some?
    ensures Step(s, TakeRecord, s.(worker := LoadingState))
  {
  }

  lemma FlushDue(s: State)
    requires s.worker == LoadingState && s.phase == Running
    ensures Step(s, LoadState, s.(worker := Deciding(false)))
    ensures Step(s.(worker := Deciding(false)), Decide(true),
                 WriteOut(s).(lastFlushed := |s.written + s.activeRecords|, worker := Draining))
  {
  }

  lemma FlushBegins(s: State)
    requires s.phase == Running && s.flushers == map[]
    ensures Step(s, BeginFlush(2), s.(flushers := map[2 := s.accepted]))
  {
  }

  lemma LookTakes(s: State, a: Record, later: seq<Slot>)
    requires s.worker == Draining && s.ring == [Slot(a, None)] + later
    ensures Step(s, TakeRecord, s.(worker := Dequeued(a), ring := later))
  {
  }

  /** From the worker's hands into an empty buffer. */
  lemma RecordMoves(s: State, a: Record)
    requires s.worker == Dequeued(a) && s.activeRecords == []
    ensures var s1 := s.(worker := Appending(a), pending := s.pending - 1);
      && Step(s, UncountPending, s1)
      && Step(s1, AppendRecord(false), s1.(worker := Draining, activeRecords := [a]))
  {
    assert [] + [a] == [a];
  }

  /** The flush begins and the worker takes the first record. */
  lemma TakesOne(s: State, a: Record, later: seq<Slot>)
    requires s.worker == Draining && s.phase == Running && s.flushers == map[] && s.activeRecords == []
    requires s.ring == [Slot(a, None)] + later
    ensures Exec(s, [BeginFlush(2), TakeRecord, UncountPending, AppendRecord(false)]) ==
            After(s.(flushers := map[2 := s.accepted], ring := later, pending := s.pending - 1, activeRecords := [a]))
  {
    var s1 := s.(flushers := map[2 := s.accepted]);
    var s2 := s1.(worker := Dequeued(a), ring := later);
    var s3 := s2.(worker := Appending(a), pending := s.pending - 1);
    FlushBegins(s);
    LookTakes(s1, a, later);
    RecordMoves(s2, a);
    hide Step, Do, Exec, Enabled;
    Chain([s, s1, s2, s3, s3.(worker := Draining, activeRecords := [a])],
          [BeginFlush(2), TakeRecord, UncountPending, AppendRecord(false)]);
  }

  /** Producer 2's log() has returned true and it flushes: after this run flush() may return, although
      only producer 0's record is in the file. Exactly as many records as were accepted are covered,
      so that bound is the best there is. */
  lemma FlushCanMissOwnRecord(capacity: nat, policy: OverflowPolicy, a: Record, b: Record, c: Record)
    requires capacity >= 3
    ensures var s := AfterThreeClaims(capacity, policy, a, b, c);
      var o := Exec(s, [BeginFlush(2), TakeRecord, UncountPending, AppendRecord(false)]
                       + [TakeRecord, LoadState, Decide(true)]);
      && Exec(Init(capacity, policy), ThreeClaims(a, b, c)) == After(s)
      && s.accepted == 1 && s.enqueued == [a, b, c]
      && o.After? && Enabled(o.state, EndFlush(2)) && o.state.written == [a]
      && o.state.ring == [Slot(b, Some(1)), Slot(c, None)]
  {
    hide Exec;
    ThreeClaimsRun(capacity, policy, a, b, c);
    var s := AfterThreeClaims(capacity, policy, a, b, c);
    assert s.ring == [Slot(a, None)] + [Slot(b, Some(1)), Slot(c, None)];
    TakesOne(s, a, [Slot(b, Some(1)), Slot(c, None)]);
    ExecInTwo(s, [BeginFlush(2), TakeRecord, UncountPending, AppendRecord(false)], [TakeRecord, LoadState, Decide(true)]);
    var s4 := s.(flushers := map[2 := 1], ring := [Slot(b, Some(1)), Slot(c, None)], pending := 2, activeRecords := [a]);
    FlushPass(s4);
    assert [] + [a] == [a];
  }
}
