/**
 What a single call of log() or flush() may end with, on the ring and under every interference: log()
 refuses a record only for a stop or, when asked to drop, for a full ring, and never loses or exchanges it
 on the way; flush() returns on a working logger only with its records in the file.
 */
module LoggerCalls {
  import opened Basics
  import opened LoggerOnRing
  import Log = AsyncLogger
  import Mpsc = MpscRing

  /** A call of log() whose record is not in the ring yet. */
  predicate Inside(s: Log.State, t: nat, record: Record) {
    && t in s.producers
    && var p := s.producers[t];
       && (p.Entered? || p.Ready? || p.Attempting? || p.Retracting? || p.Blocked?)
       && p.record == record
  }

  predicate Refused(s: Log.State, t: nat) { t in s.producers && s.producers[t] == Log.Leaving(false) }
  predicate Dropping(s: Log.State, t: nat) { t in s.producers && s.producers[t].Retracting? && s.policy.DropNewest? }
  predicate GivingUp(s: Log.State, t: nat) { t in s.producers && s.producers[t].Retracting? }

  /** This step puts the record of the call into the ring, behind all others. */
  predicate Claimed(s: Log.State, s': Log.State, t: nat, record: Record) {
    && t in s.producers && s.producers[t] == Log.Attempting(record)
    && s'.enqueued == s.enqueued + [record] && IsPublishing(s', t)
  }

  /** The rules for one step of one call: it is refused only after a stop or when it drops a record that
      found the ring full, which is counted; a call of a running logger that is not dropping keeps its
      record until the record is claimed. */
  ghost predicate CallMoves(s: Log.State, s': Log.State, t: nat) {
    && (Refused(s', t) && !Refused(s, t) ==>
          (exists record :: Inside(s, t, record))
          && (s.phase != Log.Running || (Dropping(s, t) && s'.droppedCount == s.droppedCount + 1)))
    && (forall record :: Inside(s, t, record) && s.phase == Log.Running && !Dropping(s, t) ==>
          Inside(s', t, record) || Claimed(s, s', t, record))
  }

  /** The steps of the others leave a call where it is. */
  lemma OthersKeepCall(s: Log.State, e: Log.Event, t: nat)
    requires Log.Enabled(s, e) && OffQueue(e) && (!(Log.MovesProducer(e) || e.Finish?) || e.t != t)
    ensures var s' := Log.Do(s, e);
            (t in s'.producers <==> t in s.producers) && (t in s.producers ==> s'.producers[t] == s.producers[t])
  {
    hide Log.PublishIn;
  }

  lemma OwnMoves(s: Log.State, e: Log.Event, t: nat)
    requires Log.Enabled(s, e) && OffQueue(e) && (Log.MovesProducer(e) || e.Finish?) && e.t == t
    ensures CallMoves(s, Log.Do(s, e), t)
    ensures GivingUp(Log.Do(s, e), t) ==> GivingUp(s, t)
  {
    hide Log.PublishIn, Log.WriteOut;
    if t in s.producers && (s.producers[t].Entered? || s.producers[t].Retracting? || s.producers[t].Blocked?) {
      assert Inside(s, t, s.producers[t].record);
    }
  }

  lemma LoggerMoves(s: Log.State, e: Log.Event, t: nat)
    requires Log.Enabled(s, e) && OffQueue(e)
    ensures CallMoves(s, Log.Do(s, e), t)
    ensures GivingUp(Log.Do(s, e), t) ==> GivingUp(s, t)
  {
    if (Log.MovesProducer(e) || e.Finish?) && e.t == t {
      OwnMoves(s, e, t);
      hide Log.Do, CallMoves;
    } else {
      OthersKeepCall(s, e, t);
      hide Log.Do;
    }
  }

  lemma RingMoves(c: State, e: Event, t: nat)
    requires Linked(c) && Enabled(c, e) && e.RingStep?
    ensures CallMoves(c.logger, Do(c, e).logger, t)
    ensures GivingUp(Do(c, e).logger, t) && !GivingUp(c.logger, t) ==> Mpsc.EnqueueFails(c.ring, e.r)
  {
    if e.r.CompareExchange? {
      assert ThreadOf(c, e.r.t);
    }
    hide Linked, Mpsc.Do;
  }

  /** Main result: a call of log() is refused only when the logger was stopping or, with the dropping
      policy, when its attempt found every cell of the ring taken; every drop is counted; and otherwise the
      call goes on with the same record until that record is claimed. */
  lemma RefusedOnlyForAReason(capacity: nat, policy: Log.OverflowPolicy, before: seq<Event>, e: Event, t: nat)
    requires capacity >= 2 && Exec(Init(capacity, policy), before).After?
    requires Enabled(Exec(Init(capacity, policy), before).state, e)
    ensures var c := Exec(Init(capacity, policy), before).state; var c' := Do(c, e);
      && CallMoves(c.logger, c'.logger, t)
      && (GivingUp(c'.logger, t) && !GivingUp(c.logger, t) ==> Mpsc.AllCellsTaken(c.ring))
  {
    InitHasInv(capacity, policy);
    RunSimulates(Init(capacity, policy), before);
    var c := Exec(Init(capacity, policy), before).state;
    if e.LoggerStep? {
      LoggerMoves(c.logger, e.e, t);
    } else {
      RingMoves(c, e, t);
      if Mpsc.EnqueueFails(c.ring, e.r) {
        Mpsc.EnqueueFailsOnlyWhenFull(c.ring, e.r);
      }
    }
    hide Inv, CallMoves, GivingUp, Exec;
  }

  /** The record of the call is claimed in the course of the run. */
  predicate ClaimedIn(c: State, events: seq<Event>, t: nat, record: Record)
    decreases |events|
  {
    events != [] && Enabled(c, events[0]) &&
    (Claimed(c.logger, Do(c, events[0]).logger, t, record) || ClaimedIn(Do(c, events[0]), events[1..], t, record))
  }

  /** The logger runs at every step. */
  predicate StaysRunning(c: State, events: seq<Event>)
    decreases |events|
  {
    c.logger.phase == Log.Running &&
    (events == [] || !Enabled(c, events[0]) || StaysRunning(Do(c, events[0]), events[1..]))
  }

  lemma StepMoves(c: State, e: Event, t: nat)
    requires Inv(c) && Enabled(c, e)
    ensures Inv(Do(c, e)) && CallMoves(c.logger, Do(c, e).logger, t) && Do(c, e).logger.policy == c.logger.policy
  {
    EventKeepsInv(c, e);
    SamePolicy(c, e);
    hide Mpsc.Inv, CallMoves, Log.Do, DoLogger;
    if e.LoggerStep? {
      LoggerMoves(c.logger, e.e, t);
    } else {
      RingMoves(c, e, t);
    }
    hide Do;
  }

  lemma SamePolicy(c: State, e: Event)
    requires Enabled(c, e)
    ensures Do(c, e).logger.policy == c.logger.policy
  {
    hide Mpsc.Do, Log.PublishIn;
  }

  /** Main result: with the blocking policy a call of a logger that keeps running is never given up: it is
      still going on with its record, or the record was claimed. */
  lemma {:induction false} BlockingKeepsRecord(c: State, events: seq<Event>, t: nat, record: Record)
    requires Inv(c) && Inside(c.logger, t, record) && c.logger.policy == Log.Block
    requires StaysRunning(c, events) && Exec(c, events).After?
    ensures Inside(Exec(c, events).state.logger, t, record) || ClaimedIn(c, events, t, record)
    decreases |events|
  {
    if events != [] {
      StepMoves(c, events[0], t);
      if Inside(Do(c, events[0]).logger, t, record) {
        hide Inv, Do, Inside, CallMoves;
        BlockingKeepsRecord(Do(c, events[0]), events[1..], t, record);
      }
    }
  }

  // ---------------------------------------------------------------- returning true

  /** A call returns true only behind its publication, and then it is counted. */
  lemma AcceptedOnlyWhenPublished(c: State, e: Event, t: nat)
    requires Enabled(c, e) && Returns(Do(c, e).logger, t) && !Returns(c.logger, t)
    ensures t in c.logger.producers && c.logger.producers[t] == Log.Enqueued
    ensures Do(c, e).logger.accepted == c.logger.accepted + 1
  {
    if e.LoggerStep? {
      LoggerAccepts(c.logger, e.e, t);
      hide Do;
    } else {
      RingAcceptsNothing(c, e, t);
      hide Do;
    }
  }

  predicate Returns(s: Log.State, t: nat) { t in s.producers && s.producers[t] == Log.Leaving(true) }

  lemma LoggerAccepts(s: Log.State, e: Log.Event, t: nat)
    requires Log.Enabled(s, e) && OffQueue(e) && Returns(Log.Do(s, e), t) && !Returns(s, t)
    ensures t in s.producers && s.producers[t] == Log.Enqueued && Log.Do(s, e).accepted == s.accepted + 1
  {
    hide Log.PublishIn;
  }

  lemma RingAcceptsNothing(c: State, e: Event, t: nat)
    requires Enabled(c, e) && e.RingStep?
    ensures Returns(Do(c, e).logger, t) ==> Returns(c.logger, t)
  {
    hide Mpsc.Do;
  }

  // ---------------------------------------------------------------- flush() returning

  /** Whoever flushes from here on waits for at least this many records. */
  predicate WaitsFor(s: Log.State, t: nat, target: nat) {
    s.accepted >= target && (t in s.flushers ==> s.flushers[t] >= target)
  }

  lemma LoggerKeepsWaiting(s: Log.State, e: Log.Event, t: nat, target: nat)
    requires WaitsFor(s, t, target) && Log.Enabled(s, e)
    ensures WaitsFor(Log.Do(s, e), t, target)
  {
    hide Log.PublishIn;
  }

  lemma EventKeepsWaiting(c: State, e: Event, t: nat, target: nat)
    requires WaitsFor(c.logger, t, target) && Enabled(c, e)
    ensures WaitsFor(Do(c, e).logger, t, target)
  {
    if e.LoggerStep? {
      LoggerKeepsWaiting(c.logger, e.e, t, target);
      hide Log.Do;
    } else {
      hide Mpsc.Do, WaitsFor;
      assert Do(c, e).logger.accepted == c.logger.accepted && Do(c, e).logger.flushers == c.logger.flushers;
      SameWaiting(c.logger, Do(c, e).logger, t, target);
    }
  }

  lemma SameWaiting(s: Log.State, s': Log.State, t: nat, target: nat)
    requires WaitsFor(s, t, target) && s'.accepted == s.accepted && s'.flushers == s.flushers
    ensures WaitsFor(s', t, target)
  {
  }

  lemma {:induction false} RunKeepsWaiting(c: State, events: seq<Event>, t: nat, target: nat)
    requires WaitsFor(c.logger, t, target) && Exec(c, events).After?
    ensures WaitsFor(Exec(c, events).state.logger, t, target)
    decreases |events|
  {
    if events != [] {
      EventKeepsWaiting(c, events[0], t, target);
      hide Do, WaitsFor;
      RunKeepsWaiting(Do(c, events[0]), events[1..], t, target);
    }
  }

  /** Main result: when the flush() of a thread may return and the logger has neither failed nor stopped,
      the records claimed first, as many as were accepted when it began, are in the file. */
  lemma FlushReturnsCovered(capacity: nat, policy: Log.OverflowPolicy, before: seq<Event>, t: nat, later: seq<Event>)
    requires capacity >= 2 && Exec(Init(capacity, policy), before).After?
    requires Enabled(Exec(Init(capacity, policy), before).state, LoggerStep(Log.BeginFlush(t)))
    requires var c := Do(Exec(Init(capacity, policy), before).state, LoggerStep(Log.BeginFlush(t)));
      Exec(c, later).After? && Enabled(Exec(c, later).state, LoggerStep(Log.EndFlush(t)))
    ensures var c := Exec(Init(capacity, policy), before).state;
      var s := c.logger; var s' := Exec(Do(c, LoggerStep(Log.BeginFlush(t))), later).state.logger;
      s'.phase != Log.Failed && s'.phase != Log.Stopped ==>
        s.accepted <= |s.enqueued| && s.enqueued[..s.accepted] <= s'.written
  {
    var begin := LoggerStep(Log.BeginFlush(t));
    var c := Exec(Init(capacity, policy), before).state;
    assert WaitsFor(Do(c, begin).logger, t, c.logger.accepted);
    RunKeepsWaiting(Do(c, begin), later, t, c.logger.accepted);
    assert ([begin] + later)[1..] == later;
    FlushCovers(capacity, policy, before, [begin] + later);
    hide Exec;
  }

  // ---------------------------------------------------------------- the single steps

  /** log() goes on past its looks at the state exactly when the logger runs. */
  lemma LooksExactly(s: Log.State, t: nat)
    ensures Log.Enabled(s, Log.FirstCheck(t)) ==>
              (t in Log.Do(s, Log.FirstCheck(t)).checked <==> s.phase == Log.Running)
    ensures t in s.producers && s.producers[t].Entered? ==>
              Log.Do(s, Log.SecondCheck(t)).producers[t] ==
                if s.phase == Log.Running then Log.Ready(s.producers[t].record) else Log.Leaving(false)
  {
  }

  /** A record that does not fit makes the worker write out the buffer first; otherwise it joins it. */
  lemma AppendsExactly(s: Log.State, bufferFull: bool)
    requires s.worker.Appending?
    ensures var s' := Log.Do(s, Log.AppendRecord(bufferFull));
      && s'.written + s'.activeRecords == s.written + s.activeRecords + [s.worker.record]
      && s'.activeRecords == if bufferFull then [s.worker.record] else s.activeRecords + [s.worker.record]
  {
    assert [] + [s.worker.record] == [s.worker.record];
    if !bufferFull {
      assert s.written + (s.activeRecords + [s.worker.record]) == s.written + s.activeRecords + [s.worker.record];
    }
  }

  /** The worker tests for the exit exactly when the logger stops, passes exactly with nothing pending and
      nobody active, and flushes when it is due or when it leaves. */
  lemma DecidesExactly(s: Log.State, flushDue: bool)
    ensures s.worker.LoadingState? ==>
              (Log.Do(s, Log.LoadState).worker.LoadingPending? <==> s.phase == Log.Stopping)
    ensures s.worker.LoadingPending? ==>
              (Log.Do(s, Log.LoadPending).worker.LoadingActive? <==> s.pending == 0)
    ensures s.worker.LoadingActive? ==>
              (Log.Do(s, Log.LoadActive).worker == Log.Deciding(true) <==> s.active == 0)
    ensures s.worker.Deciding? ==>
              var s' := Log.Do(s, Log.Decide(flushDue));
              && (s'.worker.Exited? <==> s.worker.drained)
              && (if flushDue || s.worker.drained then
                    s'.written == s.written + s.activeRecords && s'.activeRecords == [] && s'.lastFlushed == |s'.written|
                  else s'.written == s.written && s'.activeRecords == s.activeRecords && s'.lastFlushed == s.lastFlushed)
  {
  }

  /** A flush() waits for what was accepted when it began, and is over once it returned. */
  lemma FlushesExactly(s: Log.State, t: nat)
    ensures Log.Enabled(s, Log.BeginFlush(t)) ==>
              Log.Do(s, Log.BeginFlush(t)).flushers == s.flushers[t := s.accepted]
    ensures Log.Enabled(s, Log.EndFlush(t)) ==> t !in Log.Do(s, Log.EndFlush(t)).flushers
  {
  }
}
