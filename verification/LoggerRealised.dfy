/**
 The other direction of the simulation: whatever the accounting machine can do from a state of the logger
 on its ring, the logger on its ring can do by undisturbed steps of one thread at a time. So what the
 accounting machine can lose, the real logger can lose, and the conditions found there are exact.
 */
module LoggerRealised {
  import opened Basics
  import opened LoggerOnRing
  import Log = AsyncLogger
  import Mpsc = MpscRing
  import Stop = LoggerStop
  import Flush = LoggerFlush
  import Modular

  /** A thread about to publish owns a position of the ring. */
  predicate Held(c: State, t: nat) {
    IsPublishing(c.logger, t) ==>
      t in c.ring.producers && (c.ring.producers[t].Claimed? || c.ring.producers[t].Written?)
  }

  ghost predicate Whole(c: State) { Inv(c) && forall t: nat :: Held(c, t) }

  /** Only a claim leads a thread to a publication. */
  lemma NobodyStartsPublishing(s: Log.State, e: Log.Event, t: nat)
    requires Log.Enabled(s, e) && OffQueue(e) && !IsPublishing(s, t)
    ensures !IsPublishing(Log.Do(s, e), t)
  {
    hide Log.PublishIn;
  }

  lemma RingStepKeepsHeld(c: State, e: Event, t: nat)
    requires Held(c, t) && Enabled(c, e) && e.RingStep?
    ensures Held(Do(c, e), t)
  {
  }

  lemma StepKeepsWhole(c: State, e: Event)
    requires Whole(c) && Enabled(c, e)
    ensures Whole(Do(c, e))
  {
    EventKeepsInv(c, e);
    forall t: nat ensures Held(Do(c, e), t) {
      assert Held(c, t);
      if e.RingStep? {
        RingStepKeepsHeld(c, e, t);
      } else if !IsPublishing(c.logger, t) {
        NobodyStartsPublishing(c.logger, e.e, t);
      }
      hide Inv, Do, Log.Do, Log.Enabled;
    }
  }

  lemma {:induction false} RunKeepsWhole(c: State, events: seq<Event>)
    requires Whole(c)
    ensures Exec(c, events).After? ==> Whole(Exec(c, events).state)
    decreases |events|
  {
    if events != [] && Enabled(c, events[0]) {
      StepKeepsWhole(c, events[0]);
      hide Whole, Do;
      RunKeepsWhole(Do(c, events[0]), events[1..]);
    }
  }

  // ---------------------------------------------------------------- one step of the accounting machine

  function EnqueueNext(ring: Ring, t: nat, record: Record): Mpsc.Event<Record> {
    if t !in ring.producers then Mpsc.BeginEnqueue(t, record)
    else match ring.producers[t]
         case Stale(_) => Mpsc.Reload(t)
         case Sequenced(_, _) => Mpsc.CompareExchange(t, false)
         case _ => Mpsc.LoadSequence(t)
  }

  function DequeueNext(ring: Ring): Mpsc.Event<Record> {
    match ring.consumer
    case Idle => Mpsc.BeginDequeue
    case AtHead(_) => Mpsc.CheckHead
    case Holding(_) => Mpsc.MoveOut(0)
    case _ => Mpsc.ReleaseCell
  }

  /** The next access on the way to an event of the accounting machine. */
  function Next(c: State, e: Log.Event): Event
    requires Log.Enabled(c.logger, e)
  {
    match e
    case TryEnqueue(t) => RingStep(EnqueueNext(c.ring, t, c.logger.producers[t].record))
    case Publish(t) =>
      RingStep(if t in c.ring.producers && c.ring.producers[t].Claimed? then Mpsc.WriteValue(t) else Mpsc.Event.Publish(t))
    case TakeRecord => RingStep(DequeueNext(c.ring))
    case UncountPending => if c.ring.consumer.Released? then RingStep(Mpsc.AdvanceHead) else LoggerStep(e)
    case _ => LoggerStep(e)
  }

  /** A position loaded before is behind when others have claimed it since; then the thread loads again. */
  function EnqueueStepsLeft(ring: Ring, t: nat): nat {
    if t !in ring.producers then 3
    else match ring.producers[t]
         case Loaded(_, position) => if position == ring.enqueuePosition then 2 else 4
         case Sequenced(_, position) => if position == ring.enqueuePosition then 1 else 3
         case _ => 3
  }

  function StepsLeft(c: State, e: Log.Event): nat {
    match e
    case TryEnqueue(t) => EnqueueStepsLeft(c.ring, t)
    case Publish(t) => if t in c.ring.producers && c.ring.producers[t].Claimed? then 1 else 0
    case TakeRecord =>
      (match c.ring.consumer case Idle => 3 case AtHead(_) => 2 case Holding(_) => 1 case _ => 0)
    case UncountPending => if c.ring.consumer.Released? then 1 else 0
    case _ => 0
  }

  /** The next access is possible, and is the event or brings it nearer. */
  predicate Advances(c: State, e: Log.Event)
    requires Log.Enabled(c.logger, e)
  {
    var n := Next(c, e);
    && Enabled(c, n)
    && (Meaning(c, n) == Some(e) || (Meaning(c, n) == None && StepsLeft(Do(c, n), e) < StepsLeft(c, e)))
  }

  /** A position just loaded is free, or the ring is full. */
  lemma FreshPosition(ring: Ring)
    requires Mpsc.Inv(ring)
    ensures Mpsc.CellAt(ring, ring.enqueuePosition).sequence <= ring.enqueuePosition
  {
    if ring.enqueuePosition < Mpsc.Freed(ring) + ring.capacity {
      assert Mpsc.PositionInv(ring, ring.enqueuePosition);
    } else {
      assert Mpsc.PositionInv(ring, Mpsc.Freed(ring));
      Modular.OnceRound(ring.capacity, Mpsc.Freed(ring));
    }
  }

  lemma EnqueueAdvances(c: State, t: nat)
    requires Inv(c) && IsAttempting(c.logger, t)
    ensures Advances(c, Log.TryEnqueue(t))
  {
    FreshPosition(c.ring);
    assert ThreadOf(c, t) && Mpsc.ProducerInv(c.ring, t);
    hide Inv, Linked;
  }

  lemma PublishAdvances(c: State, t: nat)
    requires Inv(c) && Held(c, t) && IsPublishing(c.logger, t)
    ensures Advances(c, Log.Event.Publish(t))
  {
    assert Mpsc.WellFormed(c.ring);
    hide Mpsc.Inv, Linked;
  }

  lemma TakeAdvances(c: State)
    requires Inv(c) && c.logger.worker.Draining?
    ensures Advances(c, Log.TakeRecord)
  {
    assert Mpsc.WellFormed(c.ring);
    hide Mpsc.Inv, ThreadOf;
  }

  lemma OtherAdvances(c: State, e: Log.Event)
    requires Inv(c) && Log.Enabled(c.logger, e) && OffQueue(e)
    ensures Advances(c, e)
  {
    assert Mpsc.WellFormed(c.ring);
    hide Mpsc.Inv, ThreadOf, Log.PublishIn, Log.WriteOut;
  }

  lemma EveryEventAdvances(c: State, e: Log.Event)
    requires Whole(c) && Log.Enabled(c.logger, e)
    ensures Advances(c, e)
  {
    if e.TryEnqueue? {
      EnqueueAdvances(c, e.t);
    } else if e.Publish? {
      PublishAdvances(c, e.t);
    } else if e.TakeRecord? {
      TakeAdvances(c);
    } else {
      OtherAdvances(c, e);
    }
    hide Inv, Advances;
  }

  /** A run of the ring that gets the logger into this state of the accounting machine. */
  ghost predicate Realises(c: State, events: seq<Event>, s: Log.State) {
    var o := Exec(c, events);
    o.After? && Whole(o.state) && View(o.state) == s
  }

  lemma RealisesFirst(c: State, e: Event, events: seq<Event>, s: Log.State)
    requires Enabled(c, e) && Realises(Do(c, e), events, s)
    ensures Realises(c, [e] + events, s)
  {
    assert ([e] + events)[1..] == events;
    hide Whole, Do, Enabled, View;
  }

  lemma RealisesBoth(c: State, first: seq<Event>, s: Log.State, second: seq<Event>, s': Log.State)
    requires Realises(c, first, s) && Realises(Exec(c, first).state, second, s')
    ensures Realises(c, first + second, s')
  {
    ExecInTwo(c, first, second);
    hide Whole, Exec, View;
  }

  /** What an event can do does not depend on the logger's own view of the queue. */
  lemma SameEnabled(s: Log.State, ring: seq<Log.Slot>, e: Log.Event)
    ensures Log.Enabled(s.(ring := ring), e) == Log.Enabled(s, e)
  {
  }

  /** Every step of the accounting machine is realised by steps of one thread. */
  lemma {:induction false} RealiseStep(c: State, e: Log.Event) returns (events: seq<Event>)
    requires Whole(c) && Log.Enabled(c.logger, e)
    ensures Log.Enabled(View(c), e) && Realises(c, events, Log.Do(View(c), e))
    decreases StepsLeft(c, e)
  {
    var n := Next(c, e);
    EveryEventAdvances(c, e);
    StepKeepsWhole(c, n);
    StepSimulates(c, n);
    SameEnabled(c.logger, Slots(c.ring), e);
    if Meaning(c, n) == Some(e) {
      events := [];
    } else {
      SameEnabled(Do(c, n).logger, Slots(Do(c, n).ring), e);
      events := RealiseStep(Do(c, n), e);
    }
    RealisesFirst(c, n, events, Log.Do(View(c), e));
    events := [n] + events;
  }

  /** Main result: every run of the accounting machine from what it sees of a state is realised by a run
      of the logger on its ring. */
  lemma {:induction false} RunRealises(c: State, run: seq<Log.Event>) returns (events: seq<Event>)
    requires Whole(c) && Log.Exec(View(c), run).After?
    ensures Realises(c, events, Log.Exec(View(c), run).state)
    decreases |run|
  {
    if run == [] {
      events := [];
    } else {
      SameEnabled(c.logger, Slots(c.ring), run[0]);
      var first := RealiseStep(c, run[0]);
      var second := RunRealises(Exec(c, first).state, run[1..]);
      RealisesBoth(c, first, Log.Do(View(c), run[0]), second, Log.Exec(View(c), run).state);
      events := first + second;
    }
  }

  // ---------------------------------------------------------------- so the conditions are exact

  lemma ReachableIsWhole(capacity: nat, policy: Log.OverflowPolicy, before: seq<Event>)
    requires capacity >= 2 && Exec(Init(capacity, policy), before).After?
    ensures var c := Exec(Init(capacity, policy), before).state;
            Whole(c) && Stop.Good(View(c)) && Flush.OneEach(View(c))
  {
    var c0, s0 := Init(capacity, policy), Log.Init(capacity, policy);
    InitHasInv(capacity, policy);
    RunKeepsWhole(c0, before);
    RunSimulates(c0, before);
    Log.InitKeepsInv(capacity, policy);
    Stop.RunKeepsGood(s0, Meanings(c0, before));
    Flush.RunKeepsOneEach(s0, Meanings(c0, before));
  }

  /** Main result: from a reachable state of the logger on its ring, stop() loses nothing, whatever
      happens until the worker exits, if and only if at that moment no producer is between its
      look at the phase and its count of a pending record. */
  lemma StopLosesNothingExactly(capacity: nat, policy: Log.OverflowPolicy, before: seq<Event>)
    requires capacity >= 2 && Exec(Init(capacity, policy), before).After?
    requires AboutToStop(Exec(Init(capacity, policy), before).state)
    ensures var c := Exec(Init(capacity, policy), before).state;
      Stop.NobodyReady(c.logger) <==>
      forall later :: var o := Exec(Do(c, LoggerStep(Log.RequestStop)), later);
        o.After? && o.state.logger.worker.Exited? ==> Mpsc.WellFormed(o.state.ring) && Stop.NothingLost(View(o.state))
  {
    ReachableIsWhole(capacity, policy, before);
    var c, e := Exec(Init(capacity, policy), before).state, LoggerStep(Log.RequestStop);
    if Stop.NobodyReady(c.logger) {
      forall later | Exec(Do(c, e), later).After? && Exec(Do(c, e), later).state.logger.worker.Exited?
        ensures var c' := Exec(Do(c, e), later).state; Mpsc.WellFormed(c'.ring) && Stop.NothingLost(View(c'))
      {
        StopLosesNothing(capacity, policy, before, later);
      }
    } else {
      var t :| t in c.logger.producers && c.logger.producers[t].Ready?;
      var later := ReadyCanLose(c, t);
      assert !Stop.NothingLost(View(Exec(Do(c, e), later).state));
    }
  }

  /** The record of a ready producer can be accepted and never written. */
  lemma ReadyCanLose(c: State, t: nat) returns (later: seq<Event>)
    requires Whole(c) && Stop.Good(View(c)) && AboutToStop(c)
    requires t in c.logger.producers && c.logger.producers[t].Ready?
    ensures var o := Exec(Do(c, LoggerStep(Log.RequestStop)), later);
      && o.After? && o.state.logger.worker.Exited? && Mpsc.WellFormed(o.state.ring)
      && o.state.logger.enqueued == o.state.logger.written + [c.logger.producers[t].record]
  {
    var run := Stop.ReadyCanLose(View(c), t);
    StepKeepsWhole(c, LoggerStep(Log.RequestStop));
    StepSimulates(c, LoggerStep(Log.RequestStop));
    later := RunRealises(Do(c, LoggerStep(Log.RequestStop)), run);
  }

  /** Main result: on the ring, a record claimed before a flush() of the running logger began is in the
      file whenever the flush returns by its count, in every continuation, if and only if it was written
      already, or the flush has to wait and the worker cannot stop between the count and the record. */
  lemma FlushCoversExactly(capacity: nat, policy: Log.OverflowPolicy, before: seq<Event>, p: nat)
    requires capacity >= 2 && Exec(Init(capacity, policy), before).After?
    requires Exec(Init(capacity, policy), before).state.logger.phase == Log.Running
    requires p < |Exec(Init(capacity, policy), before).state.logger.enqueued|
    ensures var c := Exec(Init(capacity, policy), before).state;
      Mpsc.WellFormed(c.ring) &&
      (Flush.MustCover(View(c), c.logger.accepted, p) <==>
       forall later :: var o := Exec(c, later);
         o.After? && o.state.logger.lastFlushed >= c.logger.accepted ==>
           p < |o.state.logger.written| && o.state.logger.written[p] == c.logger.enqueued[p])
  {
    ReachableIsWhole(capacity, policy, before);
    var c := Exec(Init(capacity, policy), before).state;
    if Flush.MustCover(View(c), c.logger.accepted, p) {
      forall later | Exec(c, later).After? && Exec(c, later).state.logger.lastFlushed >= c.logger.accepted
        ensures var written := Exec(c, later).state.logger.written;
                p < |written| && written[p] == c.logger.enqueued[p]
      {
        FlushCovers(capacity, policy, before, later);
      }
    } else {
      var run := Flush.CanMiss(View(c), p);
      var later := RunRealises(c, run);
      assert |Exec(c, later).state.logger.written| <= p;
    }
  }

  /** A run whose first step is the logger's own. */
  lemma RealisesAfter(c: State, e: Log.Event, rest: seq<Log.Event>) returns (later: seq<Event>)
    requires Whole(c) && Enabled(c, LoggerStep(e)) && Log.Exec(View(c), [e] + rest).After?
    ensures Realises(Do(c, LoggerStep(e)), later, Log.Exec(View(c), [e] + rest).state)
  {
    StepKeepsWhole(c, LoggerStep(e));
    StepSimulates(c, LoggerStep(e));
    LogStep(View(c), e, rest);
    later := RunRealises(Do(c, LoggerStep(e)), rest);
  }

  /** On the ring, too, log() can return true and its record never be written. */
  lemma SplitLooksLose(capacity: nat, policy: Log.OverflowPolicy, record: Record) returns (events: seq<Event>)
    requires capacity >= 2
    ensures var o := Exec(Init(capacity, policy), events);
            o.After? && o.state.logger.worker.Exited? && o.state.logger.accepted == 1 && o.state.logger.written == []
  {
    Log.SplitLooksLose(capacity, policy, record);
    ReachableIsWhole(capacity, policy, []);
    InitHasInv(capacity, policy);
    events := RunRealises(Init(capacity, policy),
      Log.Admission(record) + (Log.FirstLook() + (Log.LateEnqueue(0) + Log.SecondLook(0))));
  }

  /** The worker takes one record, finds the next unpublished and flushes. */
  function TakeOneAndFlush(): seq<Log.Event> {
    [Log.TakeRecord, Log.UncountPending, Log.AppendRecord(false), Log.TakeRecord, Log.LoadState, Log.Decide(true)]
  }

  predicate ReturnsWith(s: Log.State, a: Record) {
    Log.Enabled(s, Log.EndFlush(2)) && s.written == [a]
  }

  lemma FlushMisses(capacity: nat, policy: Log.OverflowPolicy, a: Record, b: Record, c: Record)
    requires capacity >= 3
    ensures var s := Log.AfterThreeClaims(capacity, policy, a, b, c);
      && Log.Exec(Log.Init(capacity, policy), Log.ThreeClaims(a, b, c)) == After(s)
      && var o := Log.Exec(s, [Log.BeginFlush(2)] + TakeOneAndFlush());
         o.After? && ReturnsWith(o.state, a)
  {
    hide Log.Exec, Log.ThreeClaims, Log.AfterThreeClaims;
    Log.FlushCanMissOwnRecord(capacity, policy, a, b, c);
    assert [Log.BeginFlush(2), Log.TakeRecord, Log.UncountPending, Log.AppendRecord(false)]
           + [Log.TakeRecord, Log.LoadState, Log.Decide(true)] == [Log.BeginFlush(2)] + TakeOneAndFlush();
  }

  lemma FlushMissesFrom(c: State, s: Log.State, a: Record) returns (later: seq<Event>)
    requires Whole(c) && View(c) == s && Enabled(c, LoggerStep(Log.BeginFlush(2)))
    requires Log.Exec(s, [Log.BeginFlush(2)] + TakeOneAndFlush()).After?
    requires ReturnsWith(Log.Exec(s, [Log.BeginFlush(2)] + TakeOneAndFlush()).state, a)
    ensures var o := Exec(Do(c, LoggerStep(Log.BeginFlush(2))), later);
            o.After? && ReturnsWith(o.state.logger, a)
  {
    hide Log.Exec, Exec, TakeOneAndFlush, Whole;
    later := RealisesAfter(c, Log.BeginFlush(2), TakeOneAndFlush());
  }

  /** And a thread whose log() returned true can flush and come back with its own record, the last of
      three claimed, still in the ring. */
  lemma FlushCanMissOwnRecord(capacity: nat, policy: Log.OverflowPolicy, a: Record, b: Record, c: Record)
    returns (before: seq<Event>, later: seq<Event>)
    requires capacity >= 3
    ensures var o := Exec(Init(capacity, policy), before);
      && o.After? && o.state.logger.accepted == 1 && o.state.logger.enqueued == [a, b, c]
      && 2 !in o.state.logger.producers
      && Enabled(o.state, LoggerStep(Log.BeginFlush(2)))
      && var o' := Exec(Do(o.state, LoggerStep(Log.BeginFlush(2))), later);
         o'.After? && ReturnsWith(o'.state.logger, a)
  {
    FlushMisses(capacity, policy, a, b, c);
    ReachableIsWhole(capacity, policy, []);
    InitHasInv(capacity, policy);
    hide Log.ThreeClaims, TakeOneAndFlush, Exec, Log.Exec, Whole, Stop.Good, Flush.OneEach, Inv;
    before := RunRealises(Init(capacity, policy), Log.ThreeClaims(a, b, c));
    var c1 := Exec(Init(capacity, policy), before).state;
    later := FlushMissesFrom(c1, Log.AfterThreeClaims(capacity, policy, a, b, c), a);
  }
}
