/**
 When stopping the logger loses nothing: exactly when no producer is past its look at the phase
 without having counted its record as pending.
 */
module LoggerStop {
  import opened Basics
  import opened AsyncLogger

  predicate NobodyReady(s: State) {
    forall t :: t in s.producers ==> !s.producers[t].Ready?
  }

  // ------------------------------------------------ with nobody ready nothing is lost

  predicate PastFirstLook(w: Worker) { w.LoadingActive? || w == Deciding(true) || w.Exited? }

  /** After the stop nobody counts a record any more; once the worker saw nothing pending, nobody is
      about to enqueue either. */
  predicate Closing(s: State) {
    && s.phase != Running && NobodyReady(s)
    && (PastFirstLook(s.worker) ==>
          s.sinceLook == [] && forall t :: t in s.producers ==> !s.producers[t].Attempting?)
  }

  lemma ProducerKeepsClosing(s: State, e: Event)
    requires Closing(s) && Enabled(s, e) && (MovesProducer(e) || e.Finish?)
    ensures Closing(Do(s, e))
  {
    hide PublishIn;
  }

  lemma WorkerKeepsClosing(s: State, e: Event)
    requires Counted(s) && Closing(s) && Enabled(s, e) && !MovesProducer(e) && !e.Finish?
    ensures Closing(Do(s, e))
  {
    if e.LoadPending? {
      LookKeepsClosing(s, e);
      hide Do, Closing;
    } else {
      hide PublishIn, Counted;
    }
  }

  lemma LookKeepsClosing(s: State, e: Event)
    requires Counted(s) && Closing(s) && Enabled(s, e) && e.LoadPending?
    ensures Closing(Do(s, e))
  {
    if s.pending == 0 {
      NonePending(s.producers);
    }
    hide PendingProducers, UncountedProducers;
  }

  lemma NonePending(producers: map<nat, Producer>)
    requires |PendingProducers(producers)| == 0
    ensures forall t :: t in producers ==> !CountsPending(producers[t])
  {
    forall t | t in producers ensures !CountsPending(producers[t]) {
      assert t !in PendingProducers(producers);
    }
  }

  lemma {:induction false} RunKeepsClosing(s: State, events: seq<Event>)
    requires Inv(s) && Closing(s) && Exec(s, events).After?
    ensures Inv(Exec(s, events).state) && Closing(Exec(s, events).state)
    decreases |events|
  {
    if events != [] {
      EventKeepsInv(s, events[0]);
      if MovesProducer(events[0]) || events[0].Finish? {
        ProducerKeepsClosing(s, events[0]);
      } else {
        WorkerKeepsClosing(s, events[0]);
      }
      hide Inv, Do, Closing;
      RunKeepsClosing(Do(s, events[0]), events[1..]);
    }
  }

  /** Everything the logger accepted is in the file and flushed. */
  predicate NothingLost(s: State) {
    s.written == s.enqueued && s.ring == [] && s.accepted == |s.written| == s.lastFlushed
  }

  lemma StopLosesNothing(s: State, later: seq<Event>)
    requires Inv(s) && s.stopSeen && s.phase == Running && NobodyReady(s)
    requires Exec(Do(s, RequestStop), later).After?
    requires Exec(Do(s, RequestStop), later).state.worker.Exited?
    ensures NothingLost(Exec(Do(s, RequestStop), later).state)
  {
    EventKeepsInv(s, RequestStop);
    RunKeepsClosing(Do(s, RequestStop), later);
    var s' := Exec(Do(s, RequestStop), later).state;
    ExitedLoses(s');
    assert s'.written + [] == s'.written;
    assert |Records(s'.ring)| == 0;
  }

  // ------------------------------------------------ with somebody ready something can be lost

  /** An unpublished slot has its writer; a worker that crashed failed the logger. */
  predicate Backed(s: State) {
    && (forall i :: 0 <= i < |s.ring| && s.ring[i].writer.Some? ==>
          s.ring[i].writer.value in s.producers && s.producers[s.ring[i].writer.value] == Publishing)
    && (s.worker.Crashed? ==> s.phase != Running)
  }

  lemma QueueKeepsBacked(s: State, e: Event)
    requires Backed(s) && Enabled(s, e) && (e.TryEnqueue? || e.Publish? || e.TakeRecord?)
    ensures Backed(Do(s, e))
  {
  }

  lemma EventKeepsBacked(s: State, e: Event)
    requires Backed(s) && Enabled(s, e)
    ensures Backed(Do(s, e))
  {
    if e.TryEnqueue? || e.Publish? || e.TakeRecord? {
      QueueKeepsBacked(s, e);
      hide Do, Backed;
    } else {
      hide PublishIn, PendingProducers, UncountedProducers;
    }
  }

  ghost predicate Good(s: State) { Inv(s) && Backed(s) && s.capacity >= 2 }

  lemma EventKeepsGood(s: State, e: Event)
    requires Good(s) && Enabled(s, e)
    ensures Good(Do(s, e)) && Do(s, e).capacity == s.capacity
  {
    EventKeepsInv(s, e);
    EventKeepsBacked(s, e);
    SameCapacity(s, e);
    hide Inv, Backed, Do;
  }

  lemma SameCapacity(s: State, e: Event)
    requires Enabled(s, e)
    ensures Do(s, e).capacity == s.capacity
  {
    hide PublishIn;
  }

  lemma {:induction false} RunKeepsGood(s: State, events: seq<Event>)
    requires Good(s)
    ensures Exec(s, events).After? ==> Good(Exec(s, events).state)
    decreases |events|
  {
    if events != [] && Enabled(s, events[0]) {
      EventKeepsGood(s, events[0]);
      hide Good, Do;
      RunKeepsGood(Do(s, events[0]), events[1..]);
    }
  }

  /** A run from s to s'. */
  predicate Leads(s: State, events: seq<Event>, s': State) {
    Exec(s, events) == After(s')
  }

  lemma LeadsFirst(s: State, e: Event, events: seq<Event>, s': State)
    requires Enabled(s, e) && Leads(Do(s, e), events, s')
    ensures Leads(s, [e] + events, s')
  {
    assert ([e] + events)[1..] == events;
    hide Do;
  }

  lemma LeadsBoth(s: State, first: seq<Event>, middle: State, second: seq<Event>, s': State)
    requires Leads(s, first, middle) && Leads(middle, second, s')
    ensures Leads(s, first + second, s')
  {
    ExecInTwo(s, first, second);
  }

  function NextOf(t: nat, p: Producer): Event {
    match p
    case Entered(_) => SecondCheck(t)
    case Ready(_) => CountPending(t)
    case Attempting(_) => TryEnqueue(t)
    case Retracting(_) => Retract(t)
    case Blocked(_) => Unblock(t)
    case Publishing => Publish(t)
    case Enqueued => CountAccepted(t)
    case Leaving(_) => Finish(t)
  }

  function StepsLeft(p: Producer): nat {
    match p
    case Entered(_) => 2
    case Ready(_) => 5
    case Attempting(_) => 4
    case Retracting(_) => 3
    case Blocked(_) => 2
    case Publishing => 3
    case Enqueued => 2
    case Leaving(_) => 1
  }

  /** After the stop a producer's next event takes it nearer to leaving and touches nobody else. */
  lemma NextAdvances(s: State, t: nat)
    requires s.phase == Stopping && t in s.producers
    ensures var e := NextOf(t, s.producers[t]); var s' := Do(s, e);
      && Enabled(s, e)
      && s'.phase == Stopping && s'.worker == s.worker
      && (if s.producers[t].Leaving? then s'.producers == s.producers - {t}
          else t in s'.producers && s'.producers - {t} == s.producers - {t}
               && StepsLeft(s'.producers[t]) < StepsLeft(s.producers[t]))
  {
    hide PublishIn;
  }

  lemma {:induction false} FinishOne(s: State, t: nat) returns (events: seq<Event>, s': State)
    requires Good(s) && s.phase == Stopping && t in s.producers
    ensures Leads(s, events, s') && Good(s') && s'.phase == Stopping && s'.worker == s.worker
    ensures s'.producers == s.producers - {t}
    decreases StepsLeft(s.producers[t])
  {
    var e := NextOf(t, s.producers[t]);
    NextAdvances(s, t);
    EventKeepsGood(s, e);
    var next := Do(s, e);
    hide Do, Good, NextOf, StepsLeft;
    if t in next.producers {
      events, s' := FinishOne(next, t);
    } else {
      events, s' := [], next;
      assert s.producers - {t} == next.producers;
    }
    LeadsFirst(s, e, events, s');
    events := [e] + events;
  }

  /** All producers but t leave. */
  lemma {:induction false} FinishOthers(s: State, t: nat) returns (events: seq<Event>, s': State)
    requires Good(s) && s.phase == Stopping && t in s.producers
    ensures Leads(s, events, s') && Good(s') && s'.phase == Stopping && s'.worker == s.worker
    ensures s'.producers == map[t := s.producers[t]]
    decreases |s.producers|
  {
    hide Good;
    if u :| u in s.producers && u != t {
      var first, middle := FinishOne(s, u);
      assert middle.producers.Keys == s.producers.Keys - {u};
      assert |middle.producers| < |s.producers|;
      var second;
      second, s' := FinishOthers(middle, t);
      LeadsBoth(s, first, middle, second, s');
      events := first + second;
    } else {
      events, s' := [], s;
      assert s.producers == map[t := s.producers[t]];
    }
  }

  function WorkerStepsLeft(w: Worker): nat {
    match w
    case Draining => 0
    case Deciding(_) => 1
    case LoadingActive => 2
    case LoadingPending => 3
    case LoadingState => 4
    case Appending(_) => 5
    case Dequeued(_) => 6
    case _ => 7
  }

  function NextOfWorker(w: Worker): Event {
    match w
    case LoadingState => LoadState
    case LoadingPending => LoadPending
    case LoadingActive => LoadActive
    case Deciding(_) => Decide(false)
    case Appending(_) => AppendRecord(false)
    case Dequeued(_) => UncountPending
    case _ => TakeRecord
  }

  /** Only t is left, and it is ready. */
  predicate Alone(s: State, t: nat, record: Record) {
    s.phase == Stopping && !s.worker.Crashed? && s.producers == map[t := Ready(record)]
  }

  lemma WorkerAdvances(s: State, t: nat, record: Record)
    requires Good(s) && Alone(s, t, record) && (s.worker != Draining || s.ring != [])
    ensures var e := NextOfWorker(s.worker); var s' := Do(s, e);
      && Enabled(s, e) && Alone(s', t, record)
      && (|s'.ring| < |s.ring| || (|s'.ring| == |s.ring| && WorkerStepsLeft(s'.worker) < WorkerStepsLeft(s.worker)))
  {
    assert s.active == 1 by { assert s.producers.Keys == {t}; }
    hide PublishIn, Records, PendingProducers, UncountedProducers;
  }

  lemma {:induction false} DrainWorker(s: State, t: nat, record: Record) returns (events: seq<Event>, s': State)
    requires Good(s) && Alone(s, t, record)
    ensures Leads(s, events, s') && Good(s') && Alone(s', t, record)
    ensures s'.worker == Draining && s'.ring == []
    decreases |s.ring|, WorkerStepsLeft(s.worker)
  {
    if s.worker == Draining && s.ring == [] {
      events, s' := [], s;
    } else {
      var e := NextOfWorker(s.worker);
      WorkerAdvances(s, t, record);
      EventKeepsGood(s, e);
      hide Do, Good, Alone;
      events, s' := DrainWorker(Do(s, e), t, record);
      LeadsFirst(s, e, events, s');
      events := [e] + events;
    }
  }

  /** The first look sees nothing pending, t logs its record, the second look sees nobody active. */
  function LastRecord(t: nat): seq<Event> {
    FirstLook() + (LateEnqueue(t) + SecondLook(t))
  }

  lemma LastRecordRuns(s: State, t: nat, record: Record)
    requires Good(s) && Alone(s, t, record) && s.worker == Draining && s.ring == []
    ensures var o := Exec(s, LastRecord(t));
            o.After? && o.state.worker.Exited? && o.state.enqueued == o.state.written + [record]
  {
    OnlyReady(s, t, record);
    assert s.enqueued == s.written + s.activeRecords + [] + [] by { assert Records(s.ring) == []; }
    assert s.enqueued == s.written + s.activeRecords;
    FirstLookRuns(s);
    var s1 := s.(worker := LoadingActive, sinceLook := []);
    LateEnqueueRuns(s1, t, record);
    var s2 := Exec(s1, LateEnqueue(t)).state;
    SecondLookRuns(s2, t);
    ExecInTwo(s, FirstLook(), LateEnqueue(t) + SecondLook(t));
    ExecInTwo(s1, LateEnqueue(t), SecondLook(t));
    hide Exec, FirstLook, LateEnqueue, SecondLook, Good;
  }

  lemma OnlyReady(s: State, t: nat, record: Record)
    requires Counted(s) && Alone(s, t, record) && s.worker == Draining && s.ring == []
    ensures s.pending == 0 && s.active == 1
  {
    assert s.producers.Keys == {t};
    assert PendingProducers(s.producers) == {};
  }

  /** From any such state with a ready producer there is a continuation that exits with the record of
      that producer accepted and not written. */
  lemma ReadyCanLose(s: State, t: nat) returns (later: seq<Event>)
    requires Good(s) && s.stopSeen && s.phase == Running && t in s.producers && s.producers[t].Ready?
    ensures var o := Exec(Do(s, RequestStop), later);
      && o.After? && o.state.worker.Exited?
      && o.state.enqueued == o.state.written + [s.producers[t].record]
  {
    var s0 := Do(s, RequestStop);
    EventKeepsGood(s, RequestStop);
    var record := s.producers[t].record;
    var first, s1 := FinishOthers(s0, t);
    var second, s2 := DrainWorker(s1, t, record);
    LastRecordRuns(s2, t, record);
    LeadsBoth(s0, first, s1, second, s2);
    ExecInTwo(s0, first + second, LastRecord(t));
    later := (first + second) + LastRecord(t);
  }

  /** Over the FIFO: from a reachable state in which stop() is about to store Stopping it loses nothing,
      whatever happens until the worker exits, if and only if at that moment no producer is between its
      look at the phase and its count of a pending record. */
  lemma StopLosesNothingExactly(capacity: nat, policy: OverflowPolicy, before: seq<Event>)
    requires capacity >= 2 && Exec(Init(capacity, policy), before).After?
    requires Exec(Init(capacity, policy), before).state.phase == Running
    requires Exec(Init(capacity, policy), before).state.stopSeen
    ensures var s := Exec(Init(capacity, policy), before).state;
      NobodyReady(s) <==>
      forall later :: var o := Exec(Do(s, RequestStop), later);
        o.After? && o.state.worker.Exited? ==> NothingLost(o.state)
  {
    InitKeepsInv(capacity, policy);
    RunKeepsGood(Init(capacity, policy), before);
    var s := Exec(Init(capacity, policy), before).state;
    if NobodyReady(s) {
      forall later | Exec(Do(s, RequestStop), later).After? && Exec(Do(s, RequestStop), later).state.worker.Exited?
        ensures NothingLost(Exec(Do(s, RequestStop), later).state)
      {
        StopLosesNothing(s, later);
      }
    } else {
      var t :| t in s.producers && s.producers[t].Ready?;
      var later := ReadyCanLose(s, t);
      assert !NothingLost(Exec(Do(s, RequestStop), later).state);
    }
  }

  /** What a caller can see to: a stop() with no log() under way loses nothing. */
  lemma QuietStopLosesNothing(capacity: nat, policy: OverflowPolicy, before: seq<Event>, later: seq<Event>)
    requires capacity >= 2 && Exec(Init(capacity, policy), before).After?
    requires Exec(Init(capacity, policy), before).state.phase == Running
    requires Exec(Init(capacity, policy), before).state.stopSeen
    requires Exec(Init(capacity, policy), before).state.producers == map[]
    requires Exec(Do(Exec(Init(capacity, policy), before).state, RequestStop), later).After?
    requires Exec(Do(Exec(Init(capacity, policy), before).state, RequestStop), later).state.worker.Exited?
    ensures NothingLost(Exec(Do(Exec(Init(capacity, policy), before).state, RequestStop), later).state)
  {
    InitKeepsInv(capacity, policy);
    RunKeepsInv(Init(capacity, policy), before);
    StopLosesNothing(Exec(Init(capacity, policy), before).state, later);
  }
}
