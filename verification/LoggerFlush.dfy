/**
 Which records a flush() that returns by its count has put in the file: exactly when the worker cannot
 flush enough records and still stop short of the one in question.
 */
module LoggerFlush {
  import opened Basics
  import opened AsyncLogger
  import opened LoggerStop

  /** How many records, in claim order, have left the queue. */
  function Taken(s: State): int { |s.enqueued| - |s.ring| }

  /** The worker has given up looking for a record and may flush before it takes another. */
  predicate PastLook(w: Worker) { w.LoadingState? || w.LoadingPending? || w.LoadingActive? || w.Deciding? }

  /** The worker cannot stop taking records between the target and record p: it is not past its look
      there, and no record there is unpublished. */
  predicate NoStopBefore(s: State, target: nat, p: nat) {
    && (PastLook(s.worker) && target <= Taken(s) ==> p < Taken(s))
    && forall i :: 0 <= i < |s.ring| && target <= Taken(s) + i <= p ==> s.ring[i].writer.None?
  }

  /** Record p is in the file, or the flush still has to wait and the worker cannot stop before p. */
  predicate MustCover(s: State, target: nat, p: nat) {
    p < |s.written| || (s.lastFlushed < target && NoStopBefore(s, target, p))
  }

  // ------------------------------------------------ what must be covered is covered

  predicate StillCovers(s: State, target: nat, p: nat) {
    || p < |s.written|
    || (s.lastFlushed < target && p < |s.enqueued|
        && (s.worker.Crashed? || s.worker.Exited? || NoStopBefore(s, target, p)))
  }

  lemma QueueKeepsCovering(s: State, e: Event, target: nat, p: nat)
    requires Accounted(s) && Enabled(s, e) && StillCovers(s, target, p)
    requires e.TryEnqueue? || e.Publish? || e.TakeRecord?
    ensures StillCovers(Do(s, e), target, p)
  {
    hide Accounted;
  }

  lemma WritingKeepsCovering(s: State, e: Event, target: nat, p: nat)
    requires Accounted(s) && Enabled(s, e) && StillCovers(s, target, p)
    requires e.AppendRecord? || e.Decide?
    ensures StillCovers(Do(s, e), target, p)
  {
    hide PublishIn;
  }

  lemma EventKeepsCovering(s: State, e: Event, target: nat, p: nat)
    requires Accounted(s) && Enabled(s, e) && StillCovers(s, target, p)
    ensures StillCovers(Do(s, e), target, p)
  {
    if e.TryEnqueue? || e.Publish? || e.TakeRecord? {
      QueueKeepsCovering(s, e, target, p);
      hide Do, StillCovers;
    } else if e.AppendRecord? || e.Decide? {
      WritingKeepsCovering(s, e, target, p);
      hide Do, StillCovers;
    } else {
      hide PublishIn, Accounted;
    }
  }

  lemma {:induction false} RunKeepsCovering(s: State, later: seq<Event>, target: nat, p: nat)
    requires Inv(s) && StillCovers(s, target, p) && Exec(s, later).After?
    ensures StillCovers(Exec(s, later).state, target, p)
    decreases |later|
  {
    if later != [] {
      EventKeepsInv(s, later[0]);
      EventKeepsCovering(s, later[0], target, p);
      hide Inv, Do, StillCovers;
      RunKeepsCovering(Do(s, later[0]), later[1..], target, p);
    }
  }

  /** What must be covered is in the file, at its place, whenever the flush returns by its count. */
  lemma FlushCoversMore(s: State, later: seq<Event>, p: nat)
    requires Inv(s) && p < |s.enqueued| && MustCover(s, s.accepted, p)
    requires Exec(s, later).After? && Exec(s, later).state.lastFlushed >= s.accepted
    ensures p < |Exec(s, later).state.written| && Exec(s, later).state.written[p] == s.enqueued[p]
  {
    RunKeepsInv(s, later);
    RunKeepsCovering(s, later, s.accepted, p);
    ClaimsOnlyGrow(s, later);
    hide Exec;
  }

  // ------------------------------------------------ what need not be covered can be missed

  /** No producer has two unpublished records. */
  predicate OneEach(s: State) {
    forall i, j :: 0 <= i < j < |s.ring| && s.ring[i].writer.Some? ==> s.ring[i].writer != s.ring[j].writer
  }

  lemma EventKeepsOneEach(s: State, e: Event)
    requires Backed(s) && OneEach(s) && Enabled(s, e)
    ensures OneEach(Do(s, e))
  {
  }

  lemma {:induction false} RunKeepsOneEach(s: State, events: seq<Event>)
    requires Good(s) && OneEach(s)
    ensures Exec(s, events).After? ==> OneEach(Exec(s, events).state)
    decreases |events|
  {
    if events != [] && Enabled(s, events[0]) {
      EventKeepsGood(s, events[0]);
      EventKeepsOneEach(s, events[0]);
      hide Good, Do, OneEach;
      RunKeepsOneEach(Do(s, events[0]), events[1..]);
    }
  }

  /** The running logger with record q claimed and not published. */
  ghost predicate StopsAt(s: State, q: nat) {
    && Good(s) && OneEach(s) && s.phase == Running
    && Taken(s) <= q < |s.enqueued| && s.ring[q - Taken(s)].writer.Some?
  }

  /** The next event on the way there: the worker goes on, flushing wherever it may as a requested flush
      makes it, or the head of the queue is published. */
  function Approach(s: State): Event {
    if s.worker == Draining && s.ring != [] && s.ring[0].writer.Some? then Publish(s.ring[0].writer.value)
    else if s.worker.Deciding? then Decide(true)
    else NextOfWorker(s.worker)
  }

  lemma PublishApproaches(s: State, q: nat)
    requires StopsAt(s, q) && Taken(s) < q && s.worker == Draining && s.ring[0].writer.Some?
    ensures var e := Approach(s); var s' := Do(s, e);
      && Enabled(s, e) && StopsAt(s', q) && s'.accepted == s.accepted && Taken(s') == Taken(s)
      && s'.worker == Draining && s'.ring[0].writer.None?
  {
    EventKeepsGood(s, Approach(s));
    EventKeepsOneEach(s, Approach(s));
  }

  lemma WorkerApproaches(s: State, q: nat)
    requires StopsAt(s, q) && (s.worker == Draining ==> Taken(s) < q && s.ring != [] && s.ring[0].writer.None?)
    ensures var e := Approach(s); var s' := Do(s, e);
      && Enabled(s, e) && StopsAt(s', q) && s'.accepted == s.accepted
      && (if s.worker == Draining then Taken(s') == Taken(s) + 1
          else Taken(s') == Taken(s) && WorkerStepsLeft(s'.worker) < WorkerStepsLeft(s.worker))
  {
    EventKeepsGood(s, Approach(s));
    EventKeepsOneEach(s, Approach(s));
    hide PublishIn, OneEach, PendingProducers, UncountedProducers;
  }

  /** The worker takes everything before record q and is about to look at it. */
  lemma {:induction false} Reach(s: State, q: nat) returns (events: seq<Event>, s': State)
    requires StopsAt(s, q)
    ensures Leads(s, events, s') && StopsAt(s', q) && s'.accepted == s.accepted
    ensures s'.worker == Draining && Taken(s') == q
    decreases q - Taken(s), WorkerStepsLeft(s.worker),
              s.worker == Draining && s.ring != [] && s.ring[0].writer.Some?
  {
    if s.worker == Draining && Taken(s) == q {
      events, s' := [], s;
    } else {
      var e := Approach(s);
      if s.worker == Draining && s.ring[0].writer.Some? {
        PublishApproaches(s, q);
      } else {
        WorkerApproaches(s, q);
      }
      hide Do, Good, OneEach;
      events, s' := Reach(Do(s, e), q);
      LeadsFirst(s, e, events, s');
      events := [e] + events;
    }
  }

  /** Where a flush may return with only the first q records in the file. */
  predicate CoversOnly(s: State, later: seq<Event>, q: nat) {
    Exec(s, later).After? && Exec(s, later).state.lastFlushed == |Exec(s, later).state.written| == q
  }

  lemma StopThere(s: State, q: nat) returns (later: seq<Event>)
    requires StopsAt(s, q)
    ensures CoversOnly(s, later, q)
  {
    var first, middle := Reach(s, q);
    FlushPass(middle);
    ExecInTwo(s, first, [TakeRecord, LoadState, Decide(true)]);
    later := first + [TakeRecord, LoadState, Decide(true)];
    hide Exec;
  }

  lemma StopHere(s: State) returns (later: seq<Event>)
    requires Good(s) && s.phase == Running && PastLook(s.worker)
    ensures Taken(s) >= 0 && CoversOnly(s, later, Taken(s))
  {
    var s1 := WriteOut(s).(lastFlushed := |s.written + s.activeRecords|, worker := Draining);
    if s.worker == LoadingState {
      FlushDue(s);
      later := [LoadState, Decide(true)];
      Chain([s, s.(worker := Deciding(false)), s1], later);
    } else {
      later := [Decide(true)];
      assert Step(s, Decide(true), s1);
      Chain([s, s1], later);
    }
  }

  lemma CanMiss(s: State, p: nat) returns (later: seq<Event>)
    requires Good(s) && OneEach(s) && s.phase == Running && p < |s.enqueued| && !MustCover(s, s.accepted, p)
    ensures Exec(s, later).After?
    ensures Exec(s, later).state.lastFlushed >= s.accepted && |Exec(s, later).state.written| <= p
  {
    if s.lastFlushed >= s.accepted {
      later := [];
    } else if PastLook(s.worker) && s.accepted <= Taken(s) <= p {
      later := StopHere(s);
    } else {
      var i :| 0 <= i < |s.ring| && s.accepted <= Taken(s) + i <= p && s.ring[i].writer.Some?;
      later := StopThere(s, Taken(s) + i);
    }
  }

  /** Over the FIFO: a record claimed before a flush() of the running logger began is in the file
      whenever the flush returns by its count, in every continuation, if and only if it was written
      already, or the flush has to wait and the worker cannot stop between the count and the record. */
  lemma FlushCoversExactly(capacity: nat, policy: OverflowPolicy, before: seq<Event>, p: nat)
    requires capacity >= 2 && Exec(Init(capacity, policy), before).After?
    requires Exec(Init(capacity, policy), before).state.phase == Running
    requires p < |Exec(Init(capacity, policy), before).state.enqueued|
    ensures var s := Exec(Init(capacity, policy), before).state;
      MustCover(s, s.accepted, p) <==>
      forall later :: var o := Exec(s, later);
        o.After? && o.state.lastFlushed >= s.accepted ==>
          p < |o.state.written| && o.state.written[p] == s.enqueued[p]
  {
    InitKeepsInv(capacity, policy);
    RunKeepsGood(Init(capacity, policy), before);
    RunKeepsOneEach(Init(capacity, policy), before);
    var s := Exec(Init(capacity, policy), before).state;
    if MustCover(s, s.accepted, p) {
      forall later | Exec(s, later).After? && Exec(s, later).state.lastFlushed >= s.accepted
        ensures p < |Exec(s, later).state.written| && Exec(s, later).state.written[p] == s.enqueued[p]
      {
        FlushCoversMore(s, later, p);
      }
    } else {
      var later := CanMiss(s, p);
    }
  }
}
