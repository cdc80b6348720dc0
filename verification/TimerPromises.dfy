/**
 What a caller of the timer scheduler was promised, event by event and over runs: when a call is refused,
 when a timer expires, that a periodic timer keeps its interval, who is cancelled by stop(), and that the
 scheduler thread neither oversleeps nor submits what it should not.
 */
module TimerPromises {
  import opened Basics
  import opened TimerTable
  import opened TimerScheduler
  import Table = TimerTable

  // ---------------------------------------------------------------- scheduling

  predicate Schedules(e: Event) { e.ScheduleAfter? || e.ScheduleEvery? }

  /** How long after now the new timer expires first. */
  function Wait(e: Event): int
    requires Schedules(e)
  {
    if e.ScheduleAfter? then e.delay else e.interval
  }

  predicate Accepts(s: State, e: Event)
    requires Schedules(e)
  {
    e.callback.Some? && s.shared.phase == Running && (if e.ScheduleAfter? then e.delay >= 0 else e.interval > 0)
  }

  function NewNode(s: State, e: Event): TimerTask
    requires Schedules(e) && e.callback.Some?
  {
    TimerTask(s.shared.nextId, e.now + Wait(e), if e.ScheduleEvery? then e.interval else 0, e.ScheduleEvery?,
              e.callback.value)
  }

  /** A call is accepted exactly when its arguments are valid and the scheduler runs: a fresh id gets one
      node, that many milliseconds ahead, pending, and all other timers stay; a refused call changes
      nothing. */
  lemma SchedulesExactly(s: State, e: Event)
    requires Inv(s) && Schedules(e)
    ensures var s' := Do(s, e); var id := s.shared.nextId;
      if Accepts(s, e) then
        && id !in s.kinds && id !in s.shared.states && s'.shared.nextId == id + 1
        && (forall x :: x in s'.shared.tasks <==> (x in s.shared.tasks || x == NewNode(s, e)))
        && |s'.shared.tasks| == |s.shared.tasks| + 1
        && s'.shared.states == s.shared.states[id := Pending]
        && id in s'.kinds && s'.kinds[id].due == e.now + Wait(e)
      else s' == s
  {
    assert IdInv(s, s.shared.nextId) && PhaseInv(s);
    hide Inv, PhaseInv, Sorted, Distinct, HasId, PlaceOf, Insert;
    if Accepts(s, e) {
      InsertContents(s.shared.tasks, NewNode(s, e));
      InsertGrows(s.shared.tasks, NewNode(s, e));
      AddsExactly(s, e);
      hide Do;
    }
  }

  lemma AddsExactly(s: State, e: Event)
    requires Schedules(e) && Accepts(s, e)
    ensures var s' := Do(s, e); var id := s.shared.nextId;
      && s'.shared.tasks == Insert(s.shared.tasks, NewNode(s, e)) && s'.shared.nextId == id + 1
      && s'.shared.states == s.shared.states[id := Pending]
      && id in s'.kinds && s'.kinds[id].due == e.now + Wait(e)
  {
    hide Insert;
  }

  lemma InsertGrows(tasks: seq<TimerTask>, task: TimerTask)
    ensures |Insert(tasks, task)| == |tasks| + 1
  {
    InsertContents(tasks, task);
    assert |multiset(Insert(tasks, task))| == |multiset(tasks)| + 1;
  }

  // ---------------------------------------------------------------- cancelling and stopping

  /** cancel() succeeds exactly for a timer that is waiting, submitted or executing; afterwards it is
      cancelled, and nothing else has changed. */
  lemma CancelsExactly(s: State, id: nat)
    requires Inv(s)
    ensures CancelSucceeds(s, Event.Cancel(id), id) <==>
            id in s.shared.states && s.shared.states[id] in {Pending, Submitted, Executing}
    ensures var s' := Do(s, Event.Cancel(id));
      && (CancelSucceeds(s, Event.Cancel(id), id) ==>
            s' == s.(shared := s.shared.(states := s.shared.states[id := Table.Cancelled])))
      && (!CancelSucceeds(s, Event.Cancel(id), id) ==> s' == s)
  {
  }

  predicate Stops(e: Event) { e.RequestStop? || e.StopBegin? }

  /** stop() takes a running scheduler to Stopping and cancels exactly the timers that wait; those on
      their way to the executor and those executing are left to finish. */
  lemma StopCancelsWaiting(s: State, e: Event, id: nat)
    requires Enabled(s, e) && Stops(e)
    ensures var s' := Do(s, e);
      && s'.shared.phase == (if s.shared.phase == Running then Stopping
                             else if s.shared.phase == Created then Stopped else s.shared.phase)
      && (id in s'.shared.states <==> id in s.shared.states)
      && (id in s.shared.states ==>
            s'.shared.states[id] == if s.shared.phase == Running && s.shared.states[id] == Pending
                                    then Table.Cancelled else s.shared.states[id])
  {
  }

  /** Main result: a timer that waits when stop() begins never runs. */
  lemma StopSilencesWaiting(before: seq<Event>, e: Event, id: nat, later: seq<Event>)
    requires Exec(INIT, before).After? && Enabled(Exec(INIT, before).state, e) && Stops(e)
    requires var s := Exec(INIT, before).state;
             s.shared.phase == Running && id in s.shared.states && s.shared.states[id] == Pending
    ensures Silent(Do(Exec(INIT, before).state, e), later, id)
  {
    InitKeepsInv();
    RunKeepsInv(INIT, before);
    var s := Exec(INIT, before).state;
    assert IdInv(s, id);
    EventKeepsInv(s, e);
    StopCancelsWaiting(s, e, id);
    DeadIsSilent(Do(s, e), later, id);
  }

  /** start() runs a scheduler that was never started, and only such a one. */
  lemma StartsExactly(s: State)
    ensures var s' := Do(s, Start);
      if s.shared.phase == Created then s'.shared == s.shared.(phase := Running) && s'.worker == AtHead else s' == s
  {
  }

  // ---------------------------------------------------------------- handing over and running

  /** The next ready timer is handed to the executor exactly when it is still submitted and the scheduler
      runs; then one more is in flight. Otherwise it is dropped, and unless it is held elsewhere it is
      forgotten. */
  lemma SubmitsExactly(s: State, e: Event)
    requires Inv(s) && Enabled(s, e) && e.SubmitNext?
    ensures var s' := Do(s, e); var task := s.worker.ready[0];
      && (s'.worker.Posting? <==>
            s.shared.phase == Running && task.id in s.shared.states && s.shared.states[task.id] == Submitted)
      && (s'.worker.Posting? ==>
            s'.shared.inFlight == s.shared.inFlight + 1 && s'.tokens[s.nextToken].task == task
            && s'.shared.states == s.shared.states)
      && (!s'.worker.Posting? ==> task.id !in s'.shared.states && s'.tokens == s.tokens)
      && BatchOf(s'.worker) == s.worker.ready[1..]
  {
    assert BatchInv(s, 0) && IdInv(s, s.worker.ready[0].id);
    hide Inv, HasId;
  }

  /** A queued wrapper runs its callback exactly when the timer is still submitted; otherwise the timer
      is forgotten. */
  lemma BeginsExactly(s: State, e: Event)
    requires Inv(s) && Enabled(s, e) && e.BeginWrapper?
    ensures var id := s.tokens[e.token].task.id; var s' := Do(s, e);
      && (Begins(s, e, id) <==> id in s.shared.states && s.shared.states[id] == Submitted)
      && (Begins(s, e, id) <==> s'.tokens[e.token].wrapper.Calling?)
      && (Begins(s, e, id) ==> s'.shared.states == s.shared.states[id := Executing])
      && (!Begins(s, e, id) ==> id !in s'.shared.states)
  {
    assert TokenInv(s, e.token) && IdInv(s, s.tokens[e.token].task.id);
    hide Inv, HasId;
  }

  /** When a callback is over, its timer waits again exactly when it is periodic, was not cancelled and the
      scheduler runs, for its interval from now; otherwise it is forgotten. Nothing else moves. */
  lemma EndsExactly(s: State, e: Event)
    requires Inv(s) && Enabled(s, e) && e.EndWrapper?
    ensures var task := s.tokens[e.token].task; var s' := Do(s, e);
      && task.id in s.kinds
      && if s.kinds[task.id].repeated && s.shared.phase == Running
            && task.id in s.shared.states && s.shared.states[task.id] == Executing then
           && s'.shared.states == s.shared.states[task.id := Pending]
           && (forall x :: x in s'.shared.tasks <==>
                 (x in s.shared.tasks || x == task.(expiration := e.now + s.kinds[task.id].interval)))
         else s'.shared.tasks == s.shared.tasks && s'.shared.states == s.shared.states - {task.id}
  {
    hide HasId, Insert, PhaseInv, NodeInv, BatchInv, CallerInv, WorkerInv;
    var task := s.tokens[e.token].task;
    assert TokenInv(s, e.token) && IdInv(s, task.id);
    InsertContents(s.shared.tasks, task.(expiration := e.now + task.interval));
    hide Inv;
  }

  /** A timer whose wrapper the executor refused is forgotten. */
  lemma RejectedIsForgotten(s: State)
    requires Inv(s) && Enabled(s, EraseRejected)
    ensures var id := s.tokens[s.worker.token].task.id; var s' := Do(s, EraseRejected);
            id !in s'.shared.states && s'.shared.tasks == s.shared.tasks
  {
    hide Inv;
  }

  // ---------------------------------------------------------------- the scheduler thread's wait

  /** What the scheduler thread does next: it leaves exactly when the scheduler no longer runs, and
      otherwise waits for the first node. */
  lemma LooksExactly(s: State)
    requires Enabled(s, WorkerLook)
    ensures var w := Do(s, WorkerLook).worker;
      && (w.Exited? <==> s.shared.phase != Running)
      && (w.WaitingEmpty? <==> s.shared.phase == Running && s.shared.tasks == [])
      && (w.Waiting? <==> s.shared.phase == Running && s.shared.tasks != [])
      && (w.Waiting? ==> w.id == s.shared.tasks[0].id && w.expiration == s.shared.tasks[0].expiration)
  {
  }

  /** It comes back to look again: from an empty heap that got a node or a scheduler that stopped, and after a
      batch. */
  lemma LooksAgain(s: State)
    ensures Enabled(s, WakeEmpty) <==> s.worker.WaitingEmpty? && (s.shared.phase != Running || s.shared.tasks != [])
    ensures Enabled(s, WakeEmpty) ==> Do(s, WakeEmpty) == s.(worker := AtHead)
    ensures Enabled(s, SubmitDone) ==> Do(s, SubmitDone) == s.(worker := AtHead)
  {
  }

  /** Main result: the scheduler thread never oversleeps. While nothing ends its wait, no timer in the heap
      expires before the time it waits for, and the timer it waits for is live. */
  lemma NeverOversleeps(s: State)
    requires Inv(s) && s.worker.Waiting? && !Enabled(s, WakeInterrupted)
    ensures s.shared.phase == Running
    ensures forall x :: x in s.shared.tasks ==> s.worker.expiration <= x.expiration
    ensures s.worker.id in s.shared.states && s.shared.states[s.worker.id] == Pending
  {
    assert PhaseInv(s) && NodeInv(s, 0) && IdInv(s, s.shared.tasks[0].id);
    hide Inv, HasId;
    forall i | 0 <= i < |s.shared.tasks| ensures s.worker.expiration <= s.shared.tasks[i].expiration {
      assert i > 0 ==> !Before(s.shared.tasks[i], s.shared.tasks[0]);
    }
  }

  // ---------------------------------------------------------------- no start before its time

  /** No start of this id is possible before the worker has seen time x. */
  ghost predicate HeldBack(s: State, id: nat, x: int, latest: Option<int>) {
    && (forall i :: 0 <= i < |s.shared.tasks| && s.shared.tasks[i].id == id ==> x <= s.shared.tasks[i].expiration)
    && (forall i :: 0 <= i < |BatchOf(s.worker)| && BatchOf(s.worker)[i].id == id ==> Reached(latest, x))
    && (forall k :: k in s.tokens && Active(s.tokens[k]) && s.tokens[k].task.id == id ==>
          Reached(latest, x) && !s.tokens[k].wrapper.Calling?)
    && 0 < id < s.shared.nextId
  }

  lemma LaterIsFine(e: Event, latest: Option<int>, x: int)
    requires Reached(latest, x)
    ensures Reached(LatestAfter(e, latest), x)
  {
  }

  lemma BatchHoldsBack(s: State, e: Event, id: nat, x: int, latest: Option<int>)
    requires Inv(s) && Enabled(s, e) && HeldBack(s, id, x, latest) && e.WakeTimedOut?
    ensures HeldBack(Do(s, e), id, x, LatestAfter(e, latest))
  {
    InvHeapOk(s);
    BatchOrigin(s, e.now, id, x, latest);
    var (shared, ready) := Batch(s.shared, e.now);
    assert s.worker.Waiting?;
    hide Inv, Batch, HasId, Reached, LatestAfter, TopDue, WaitOver;
    assert forall k :: k in s.tokens && Active(s.tokens[k]) && s.tokens[k].task.id == id ==>
        Reached(LatestAfter(e, latest), x) by {
      if Reached(latest, x) {
        LaterIsFine(e, latest, x);
      }
    }
  }

  /** Where the nodes left in the heap and those of a batch come from. */
  lemma BatchOrigin(s: State, now: int, id: nat, x: int, latest: Option<int>)
    requires HeapOk(s.shared)
    requires forall i :: 0 <= i < |s.shared.tasks| && s.shared.tasks[i].id == id ==> x <= s.shared.tasks[i].expiration
    ensures var (shared, ready) := Batch(s.shared, now);
      && (forall i :: 0 <= i < |shared.tasks| && shared.tasks[i].id == id ==> x <= shared.tasks[i].expiration)
      && (forall i :: 0 <= i < |ready| && ready[i].id == id ==> Reached(LatestAfter(WakeTimedOut(now), latest), x))
      && shared.nextId == s.shared.nextId
  {
    BatchTakesDueLive(s.shared, now);
    DueLiveSorted(s.shared.tasks, s.shared.states, now);
    BatchFate(s.shared, now, id);
    hide HeapOk, Batch, HasId, DueLive, Sorted, Distinct;
    var (shared, ready) := Batch(s.shared, now);
    forall i | 0 <= i < |shared.tasks| && shared.tasks[i].id == id ensures x <= shared.tasks[i].expiration {
      assert shared.tasks[i] in shared.tasks;
    }
    forall i | 0 <= i < |ready| && ready[i].id == id ensures Reached(LatestAfter(WakeTimedOut(now), latest), x) {
      assert ready[i] in ready;
      var j :| 0 <= j < |s.shared.tasks| && s.shared.tasks[j] == ready[i];
    }
  }

  lemma SubmissionHoldsBack(s: State, e: Event, id: nat, x: int, latest: Option<int>)
    requires Enabled(s, e) && HeldBack(s, id, x, latest) && e.SubmitNext?
    ensures HeldBack(Do(s, e), id, x, latest)
  {
    assert s.worker.ready[0].id == id ==> Reached(latest, x) by { assert BatchOf(s.worker)[0] == s.worker.ready[0]; }
    forall i | 0 <= i < |s.worker.ready| - 1 && s.worker.ready[1..][i].id == id ensures Reached(latest, x) {
      assert s.worker.ready[1..][i] == BatchOf(s.worker)[i + 1];
    }
    hide Reached;
  }

  lemma PurgeHoldsBack(s: State, e: Event, id: nat, x: int, latest: Option<int>)
    requires Inv(s) && Enabled(s, e) && HeldBack(s, id, x, latest) && e.WakeInterrupted?
    ensures HeldBack(Do(s, e), id, x, latest)
  {
    InvHeapOk(s);
    PurgeFate(s.shared, id);
    var n := PurgeRemovesCancelled(s.shared);
    hide Inv, Purge, HasId, Sorted, HeapOk, WaitOver, Reached;
    var tasks := Purge(s.shared).tasks;
    forall i | 0 <= i < |tasks| && tasks[i].id == id ensures x <= tasks[i].expiration {
      assert tasks[i] == s.shared.tasks[n + i];
    }
  }

  lemma SchedulingHoldsBack(s: State, e: Event, id: nat, x: int, latest: Option<int>)
    requires Inv(s) && HeldBack(s, id, x, latest) && Schedules(e)
    ensures HeldBack(Do(s, e), id, x, latest)
  {
    SchedulesExactly(s, e);
    var s' := Do(s, e);
    assert s'.worker == s.worker && s'.tokens == s.tokens;
    hide Inv, Do, Reached;
    forall i | 0 <= i < |s'.shared.tasks| && s'.shared.tasks[i].id == id ensures x <= s'.shared.tasks[i].expiration {
      assert s'.shared.tasks[i] in s'.shared.tasks;
      assert s'.shared.tasks[i] in s.shared.tasks;
    }
  }

  /** An execution of another id that ends. */
  lemma EndHoldsBack(s: State, e: Event, id: nat, x: int, latest: Option<int>)
    requires Inv(s) && Enabled(s, e) && HeldBack(s, id, x, latest) && e.EndWrapper?
    ensures HeldBack(Do(s, e), id, x, latest)
  {
    EndsExactly(s, e);
    assert s.tokens[e.token].task.id != id;
    var s' := Do(s, e);
    forall i | 0 <= i < |s'.shared.tasks| && s'.shared.tasks[i].id == id ensures x <= s'.shared.tasks[i].expiration {
      assert s'.shared.tasks[i] in s'.shared.tasks;
      assert s'.shared.tasks[i] in s.shared.tasks;
    }
    hide Inv, Reached, EndCallback;
  }

  lemma RestHoldsBack(s: State, e: Event, id: nat, x: int, latest: Option<int>)
    requires WorkerInv(s) && Enabled(s, e) && HeldBack(s, id, x, latest) && !Begins(s, e, id)
    requires !e.WakeTimedOut? && !e.SubmitNext? && !e.WakeInterrupted? && !Schedules(e) && !e.EndWrapper?
    ensures HeldBack(Do(s, e), id, x, latest)
  {
    RestTakesNothingUp(s, e);
    RestAddsNoNode(s, e);
    forall k | k in Do(s, e).tokens && Active(Do(s, e).tokens[k]) && Do(s, e).tokens[k].task.id == id
      ensures Reached(latest, x) && !Do(s, e).tokens[k].wrapper.Calling?
    {
      RestWakesNoToken(s, e, k);
    }
    hide Do, BatchOf, Reached, Begins;
  }

  lemma RestAddsNoNode(s: State, e: Event)
    requires Enabled(s, e) && !e.WakeTimedOut? && !e.WakeInterrupted? && !Schedules(e) && !e.EndWrapper?
    ensures Do(s, e).shared.tasks == [] || Do(s, e).shared.tasks == s.shared.tasks
    ensures Do(s, e).shared.nextId == s.shared.nextId
  {
    hide Purge, Batch, Insert, HasId, WaitOver, TopDue, CancelPending;
  }

  lemma RestWakesNoToken(s: State, e: Event, k: nat)
    requires WorkerInv(s) && Enabled(s, e) && !e.WakeTimedOut? && !e.SubmitNext? && !e.WakeInterrupted?
    requires k in Do(s, e).tokens && Active(Do(s, e).tokens[k])
    ensures k in s.tokens && Active(s.tokens[k]) && Do(s, e).tokens[k].task == s.tokens[k].task
    ensures Do(s, e).tokens[k].wrapper.Calling? ==>
              s.tokens[k].wrapper.Calling? || Begins(s, e, s.tokens[k].task.id)
  {
    hide Insert, HasId, WaitOver, TopDue, CancelPending;
  }

  lemma EventHoldsBack(s: State, e: Event, id: nat, x: int, latest: Option<int>)
    requires Inv(s) && Enabled(s, e) && HeldBack(s, id, x, latest) && !Begins(s, e, id)
    ensures HeldBack(Do(s, e), id, x, LatestAfter(e, latest))
  {
    if e.WakeTimedOut? {
      BatchHoldsBack(s, e, id, x, latest);
    } else if e.SubmitNext? {
      SubmissionHoldsBack(s, e, id, x, latest);
    } else if e.WakeInterrupted? {
      PurgeHoldsBack(s, e, id, x, latest);
    } else if Schedules(e) {
      SchedulingHoldsBack(s, e, id, x, latest);
    } else if e.EndWrapper? {
      EndHoldsBack(s, e, id, x, latest);
    } else {
      RestHoldsBack(s, e, id, x, latest);
    }
    hide Inv, Do, HeldBack;
  }

  lemma {:induction false} RunHoldsBack(s: State, events: seq<Event>, id: nat, x: int, latest: Option<int>)
    requires Inv(s) && HeldBack(s, id, x, latest) && NeverBegins(s, events, id) && Exec(s, events).After?
    ensures Inv(Exec(s, events).state) && HeldBack(Exec(s, events).state, id, x, Latest(events, latest))
    decreases |events|
  {
    if events != [] {
      EventHoldsBack(s, events[0], id, x, latest);
      EventKeepsInv(s, events[0]);
      hide Inv, Do, HeldBack, Begins;
      RunHoldsBack(Do(s, events[0]), events[1..], id, x, LatestAfter(events[0], latest));
    }
  }

  /** A timer that waits in the heap until x, and nowhere else, starts next only after the worker has since
      then seen a time not before x. */
  lemma WaitsUntil(s: State, between: seq<Event>, e: Event, id: nat, x: int)
    requires Inv(s) && id in s.shared.states && PlaceOf(s, id) == InHeap
    requires forall task :: task in s.shared.tasks && task.id == id ==> task.expiration == x
    requires NeverBegins(s, between, id) && Exec(s, between).After?
    requires Enabled(Exec(s, between).state, e) && Begins(Exec(s, between).state, e, id)
    ensures Reached(Latest(between, None), x)
  {
    forall i | 0 <= i < |BatchOf(s.worker)| ensures BatchOf(s.worker)[i].id != id {
      assert BatchInv(s, i);
    }
    forall k | k in s.tokens && Active(s.tokens[k]) ensures s.tokens[k].task.id != id {
      assert TokenInv(s, k);
    }
    assert IdInv(s, id);
    assert HeldBack(s, id, x, None);
    RunHoldsBack(s, between, id, x, None);
    hide Inv, Exec, Latest, Reached, NeverBegins;
  }

  /** Main result: a periodic timer keeps its interval. Between the end of one execution and the start of
      the next the worker sees a time not before the end plus the interval it was scheduled with. */
  lemma PeriodicKeepsInterval(before: seq<Event>, end: Event, between: seq<Event>, start: Event, id: nat)
    requires Exec(INIT, before).After? && Enabled(Exec(INIT, before).state, end) && end.EndWrapper?
    requires Exec(INIT, before).state.tokens[end.token].task.id == id
    requires id in Exec(INIT, before).state.kinds && Exec(INIT, before).state.kinds[id].repeated
    requires NeverBegins(Do(Exec(INIT, before).state, end), between, id)
    requires Exec(Do(Exec(INIT, before).state, end), between).After?
    requires Enabled(Exec(Do(Exec(INIT, before).state, end), between).state, start)
    requires Begins(Exec(Do(Exec(INIT, before).state, end), between).state, start, id)
    ensures Reached(Latest(between, None), end.now + Exec(INIT, before).state.kinds[id].interval)
  {
    InitKeepsInv();
    RunKeepsInv(INIT, before);
    var s := Exec(INIT, before).state;
    assert TokenInv(s, end.token) && IdInv(s, id);
    EndsExactly(s, end);
    EventKeepsInv(s, end);
    var s' := Do(s, end);
    NoNodeYet(s, end.token);
    assert IdInv(s', id);
    if id !in s'.shared.states {
      DeadIsSilent(s', between, id);
      ForgottenStaysSilent(s', between, start, id);
    } else {
      HeapPlace(s', id);
      NodeHasId(s', s.tokens[end.token].task.(expiration := end.now + s.kinds[id].interval));
      WaitsUntil(s', between, start, id, end.now + s.kinds[id].interval);
    }
  }

  /** While a wrapper runs the callback its timer has no node. */
  lemma NoNodeYet(s: State, k: nat)
    requires Inv(s) && k in s.tokens && Active(s.tokens[k])
    ensures forall task :: task in s.shared.tasks ==> task.id != s.tokens[k].task.id
  {
    assert TokenInv(s, k);
    forall i | 0 <= i < |s.shared.tasks| ensures s.shared.tasks[i].id != s.tokens[k].task.id {
      assert NodeInv(s, i);
    }
    hide Inv;
  }

  lemma NodeHasId(s: State, task: TimerTask)
    requires task in s.shared.tasks
    ensures HasId(s.shared.tasks, task.id)
  {
    var i :| 0 <= i < |s.shared.tasks| && s.shared.tasks[i] == task;
    assert s.shared.tasks[i].id == task.id;
  }

  lemma {:induction false} ForgottenStaysSilent(s: State, events: seq<Event>, e: Event, id: nat)
    requires Inv(s) && Dead(s, id) && Exec(s, events).After? && Enabled(Exec(s, events).state, e)
    ensures !Begins(Exec(s, events).state, e, id)
    decreases |events|
  {
    if events == [] {
      DeadStaysDead(s, e, id);
    } else {
      DeadStaysDead(s, events[0], id);
      EventKeepsInv(s, events[0]);
      hide Inv, Do, Dead, Begins;
      ForgottenStaysSilent(Do(s, events[0]), events[1..], e, id);
    }
  }

  /** Main result: the first start of a timer, one-shot or periodic, comes only after the worker has seen,
      since the timer was scheduled, a time not before now plus the delay or the interval asked for. */
  lemma FirstStartWaits(before: seq<Event>, e: Event, between: seq<Event>, start: Event)
    requires Exec(INIT, before).After? && Schedules(e) && Accepts(Exec(INIT, before).state, e)
    requires Exec(Do(Exec(INIT, before).state, e), between).After?
    requires NeverBegins(Do(Exec(INIT, before).state, e), between, Exec(INIT, before).state.shared.nextId)
    requires Enabled(Exec(Do(Exec(INIT, before).state, e), between).state, start)
    requires Begins(Exec(Do(Exec(INIT, before).state, e), between).state, start, Exec(INIT, before).state.shared.nextId)
    ensures Reached(Latest(between, None), e.now + Wait(e))
  {
    InitKeepsInv();
    RunKeepsInv(INIT, before);
    var s := Exec(INIT, before).state;
    var id, s' := s.shared.nextId, Do(s, e);
    EventKeepsInv(s, e);
    NewTimerWaits(s, e);
    hide Inv, Do, Exec, Begins;
    WaitsUntil(s', between, start, id, e.now + Wait(e));
  }

  /** The new timer is in the heap, and nowhere else. */
  lemma NewTimerWaits(s: State, e: Event)
    requires Inv(s) && Schedules(e) && Accepts(s, e) && Inv(Do(s, e))
    ensures var s', id := Do(s, e), s.shared.nextId;
      && id in s'.shared.states && PlaceOf(s', id) == InHeap
      && forall task :: task in s'.shared.tasks && task.id == id ==> task.expiration == e.now + Wait(e)
  {
    var s', id := Do(s, e), s.shared.nextId;
    SchedulesExactly(s, e);
    FreshHasNoNode(s);
    hide Do;
    NodeHasId(s', NewNode(s, e));
    HeapPlace(s', id);
    hide Inv;
  }

  lemma FreshHasNoNode(s: State)
    requires Inv(s)
    ensures forall task :: task in s.shared.tasks ==> task.id != s.shared.nextId
  {
    assert IdInv(s, s.shared.nextId);
    forall i | 0 <= i < |s.shared.tasks| ensures s.shared.tasks[i].id != s.shared.nextId {
      assert NodeInv(s, i);
    }
    hide Inv;
  }
}
