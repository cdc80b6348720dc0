/**
 The timer scheduler as a machine: the shared table, the scheduler thread, the wrappers it hands to
 the executor, and the callers of stop() and wait(). Every lock region is one event, so every
 interleaving of those threads is a sequence of events.

 A token stands for one shared completion object: it keeps `inFlight` up until both the scheduler
 thread and the wrapper have let go of it.
 */
module TimerScheduler {
  import opened Basics
  import opened TimerTable
  import Table = TimerTable

  datatype Worker =
    | NotStarted
    | AtHead
    | WaitingEmpty
    | Waiting(id: nat, expiration: int)
    | Submitting(ready: seq<TimerTask>)
    | Posting(token: nat, ready: seq<TimerTask>)
    | Rejected(token: nat, ready: seq<TimerTask>)
    | Releasing(token: nat, ready: seq<TimerTask>)
    | Exited

  /** Finished: both lock regions are over but the wrapper object still exists. */
  datatype Wrapper = Unposted | Queued | Calling | Finished | Destroyed

  datatype Token = Token(task: TimerTask, held: bool, wrapper: Wrapper)

  datatype Caller = StopRequested | Joined(stopping: bool)

  /** What a timer was scheduled as, and for when first. */
  datatype Kind = Kind(repeated: bool, interval: int, callback: nat, due: int)

  /** Who is responsible for a timer. */
  datatype Place = Nowhere | InHeap | InBatch | Wrapped(token: nat) | Rejecting

  /** `kinds`, `places` and `dropped` are histories: what each id was scheduled as, who holds it, and
      which ids the executor destroyed unrun. */
  datatype State = State(
    shared: Shared,
    worker: Worker,
    tokens: map<nat, Token>,
    nextToken: nat,
    callers: map<nat, Caller>,
    kinds: map<nat, Kind>,
    places: map<nat, Place>,
    dropped: set<nat>)

  datatype Event =
    | Start
    | RequestStop
    | StopBegin(caller: nat)              // stop(): its request_stop()
    | StopJoin(caller: nat)               // stop(): join_worker() returned
    | WaitJoin(caller: nat)               // wait(): join_worker() returned
    | Finalize(caller: nat)               // the last lock region of both
    | ScheduleAfter(now: int, delay: int, callback: Option<nat>)
    | ScheduleEvery(now: int, interval: int, callback: Option<nat>)
    | Cancel(id: nat)
    | WorkerLook
    | WakeEmpty
    | WakeInterrupted
    | WakeTimedOut(now: int)
    | SubmitNext
    | SubmitDone
    | PostAccepted
    | PostRejected
    | EraseRejected
    | ReleaseToken
    | BeginWrapper(token: nat)
    | EndWrapper(token: nat, now: int)
    | DestroyWrapper(token: nat)
    | DropWrapper(token: nat)             // the executor destroys the wrapper without running it
    | FinishToken(token: nat)

  const INIT := State(EMPTY_TABLE, NotStarted, map[], 0, map[], map[], map[], {})

  predicate WrapperAt(s: State, k: nat, w: Wrapper) {
    k in s.tokens && s.tokens[k].wrapper == w
  }

  predicate HoldsToken(w: Worker) { w.Posting? || w.Rejected? || w.Releasing? }

  predicate Enabled(s: State, e: Event) {
    match e
    case Start => true
    case RequestStop => true
    case StopBegin(c) => c !in s.callers
    case StopJoin(c) => c in s.callers && s.callers[c] == StopRequested && (s.worker.NotStarted? || s.worker.Exited?)
    case WaitJoin(c) => c !in s.callers && (s.worker.NotStarted? || s.worker.Exited?)
    case Finalize(c) => c in s.callers && s.callers[c].Joined? && s.shared.inFlight == 0
    case ScheduleAfter(_, _, _) => true
    case ScheduleEvery(_, _, _) => true
    case Cancel(_) => true
    case WorkerLook => s.worker.AtHead?
    case WakeEmpty => s.worker.WaitingEmpty? && (s.shared.phase != Running || s.shared.tasks != [])
    case WakeInterrupted => s.worker.Waiting? && WaitOver(s.shared, s.worker.id, s.worker.expiration)
    case WakeTimedOut(_) => s.worker.Waiting? && !WaitOver(s.shared, s.worker.id, s.worker.expiration)
    case SubmitNext => s.worker.Submitting? && s.worker.ready != []
    case SubmitDone => s.worker.Submitting? && s.worker.ready == []
    case PostAccepted => s.worker.Posting? && s.worker.token in s.tokens
    case PostRejected => s.worker.Posting? && s.worker.token in s.tokens
    case EraseRejected => s.worker.Rejected? && s.worker.token in s.tokens
    case ReleaseToken => s.worker.Releasing? && s.worker.token in s.tokens
    case BeginWrapper(k) => WrapperAt(s, k, Queued)
    case EndWrapper(k, _) => WrapperAt(s, k, Calling)
    case DestroyWrapper(k) => WrapperAt(s, k, Finished)
    case DropWrapper(k) => WrapperAt(s, k, Queued)
    case FinishToken(k) => WrapperAt(s, k, Destroyed) && !s.tokens[k].held
  }

  function Scheduling(s: State, r: (Shared, ScheduleResult), kind: Kind): State {
    if r.1.Scheduled? then
      s.(shared := r.0, kinds := s.kinds[r.1.id := kind], places := s.places[r.1.id := InHeap])
    else s.(shared := r.0)
  }

  function SetWrapper(s: State, k: nat, w: Wrapper): State
    requires k in s.tokens
  {
    s.(tokens := s.tokens[k := s.tokens[k].(wrapper := w)])
  }

  function ArgumentOf(callback: Option<nat>): nat {
    if callback.Some? then callback.value else 0
  }

  function AfterPurge(s: State): State {
    var shared := Purge(s.shared);
    s.(shared := shared, worker := AtHead,
       places := map id | id in s.places && (s.places[id] == InHeap ==> HasId(shared.tasks, id)) :: s.places[id])
  }

  function AfterBatch(s: State, now: int): State {
    var (shared, ready) := Batch(s.shared, now);
    s.(shared := shared, worker := Submitting(ready),
       places := map id | id in s.places &&
                          (s.places[id] == InHeap ==> HasId(shared.tasks, id) || HasId(ready, id)) ::
                   if s.places[id] == InHeap && HasId(ready, id) then InBatch else s.places[id])
  }

  function Do(s: State, e: Event): State
    requires Enabled(s, e)
  {
    match e
    case Start =>
      var (shared, started) := Table.Start(s.shared);
      s.(shared := shared, worker := if started then AtHead else s.worker)
    case RequestStop => s.(shared := Table.RequestStop(s.shared))
    case StopBegin(c) => s.(shared := Table.RequestStop(s.shared), callers := s.callers[c := StopRequested])
    case StopJoin(c) => s.(callers := s.callers[c := Joined(true)])
    case WaitJoin(c) => s.(callers := s.callers[c := Joined(false)])
    case Finalize(c) =>
      s.(shared := Table.Finalize(s.shared), callers := s.callers - {c},
         places := map id | id in s.places && s.places[id] != InHeap :: s.places[id])
    case ScheduleAfter(now, delay, callback) =>
      Scheduling(s, Table.ScheduleAfter(s.shared, now, delay, callback),
                 Kind(false, 0, ArgumentOf(callback), now + delay))
    case ScheduleEvery(now, interval, callback) =>
      Scheduling(s, Table.ScheduleEvery(s.shared, now, interval, callback),
                 Kind(true, interval, ArgumentOf(callback), now + interval))
    case Cancel(id) => s.(shared := Table.Cancel(s.shared, id).0)
    case WorkerLook =>
      s.(worker := if s.shared.phase != Running then Exited
                   else if s.shared.tasks == [] then WaitingEmpty
                   else Waiting(s.shared.tasks[0].id, s.shared.tasks[0].expiration))
    case WakeEmpty => s.(worker := AtHead)
    case WakeInterrupted => AfterPurge(s)
    case WakeTimedOut(now) =>
      if !TopDue(s.shared, now) then s.(worker := AtHead) else AfterBatch(s, now)
    case SubmitNext =>
      var task, rest := s.worker.ready[0], s.worker.ready[1..];
      var (shared, proceed) := SubmitCheck(s.shared, task.id);
      if proceed then
        s.(shared := shared, worker := Posting(s.nextToken, rest), nextToken := s.nextToken + 1,
           tokens := s.tokens[s.nextToken := Token(task, true, Unposted)],
           places := s.places[task.id := Wrapped(s.nextToken)])
      else
        s.(shared := shared, worker := Submitting(rest), places := s.places - {task.id})
    case SubmitDone => s.(worker := AtHead)
    case PostAccepted =>
      SetWrapper(s, s.worker.token, Queued).(worker := Releasing(s.worker.token, s.worker.ready))
    case PostRejected =>
      SetWrapper(s, s.worker.token, Destroyed)
      .(worker := Rejected(s.worker.token, s.worker.ready),
        places := s.places[s.tokens[s.worker.token].task.id := Rejecting])
    case EraseRejected =>
      var id := s.tokens[s.worker.token].task.id;
      s.(shared := Erase(s.shared, id), places := s.places - {id},
         worker := Releasing(s.worker.token, s.worker.ready))
    case ReleaseToken =>
      var k := s.worker.token;
      s.(tokens := s.tokens[k := s.tokens[k].(held := false)], worker := Submitting(s.worker.ready))
    case BeginWrapper(k) =>
      var id := s.tokens[k].task.id;
      var (shared, run) := BeginCallback(s.shared, id);
      if run then SetWrapper(s, k, Calling).(shared := shared)
      else SetWrapper(s, k, Finished).(shared := shared, places := s.places - {id})
    case EndWrapper(k, now) =>
      var task := s.tokens[k].task;
      SetWrapper(s, k, Finished)
      .(shared := EndCallback(s.shared, task, now),
        places := if Rearms(s, task) then s.places[task.id := InHeap] else s.places - {task.id})
    case DestroyWrapper(k) => SetWrapper(s, k, Destroyed)
    case DropWrapper(k) =>
      var id := s.tokens[k].task.id;
      SetWrapper(s, k, Destroyed).(places := s.places - {id}, dropped := s.dropped + {id})
    case FinishToken(k) =>
      s.(tokens := s.tokens - {k}, shared := FinishInFlight(s.shared))
  }

  /** The wrapper puts its periodic timer back into the heap. */
  predicate Rearms(s: State, task: TimerTask) {
    task.id in s.shared.states && s.shared.states[task.id] == Executing && task.repeated && s.shared.phase == Running
  }

  function Exec(s: State, events: seq<Event>): Outcome<State>
    decreases |events|
  {
    if events == [] then After(s)
    else if !Enabled(s, events[0]) then Stuck
    else Exec(Do(s, events[0]), events[1..])
  }

  // ---------------------------------------------------------------- the invariant

  function PlaceOf(s: State, id: nat): Place {
    if id in s.places then s.places[id] else Nowhere
  }

  function BatchOf(w: Worker): seq<TimerTask> {
    if w.Submitting? || HoldsToken(w) then w.ready else []
  }

  predicate Active(t: Token) { t.wrapper.Unposted? || t.wrapper.Queued? || t.wrapper.Calling? }

  predicate KindOk(s: State, task: TimerTask) {
    && task.id in s.kinds
    && var kind := s.kinds[task.id];
       && kind.repeated == task.repeated && kind.interval == task.interval && kind.callback == task.callback
       && (!task.repeated ==> kind.due == task.expiration)
  }

  /** The state of an id says who holds it; Cancelled is possible wherever it is held. */
  predicate StateFits(s: State, id: nat, expected: TimerState) {
    id in s.shared.states && s.shared.states[id] in {expected, Cancelled}
  }

  ghost predicate IdInv(s: State, id: nat) {
    && (id == 0 || id >= s.shared.nextId ==> id !in s.shared.states && id !in s.places)
    && (id in s.kinds <==> 0 < id < s.shared.nextId)
    && match PlaceOf(s, id)
       case Nowhere => id in s.shared.states ==> StateFits(s, id, Submitted) && id in s.dropped
       case InHeap => HasId(s.shared.tasks, id) && StateFits(s, id, Pending)
       case InBatch =>
         && HasId(BatchOf(s.worker), id)
         && (StateFits(s, id, Submitted) || (id !in s.shared.states && s.shared.phase == Stopped))
       case Wrapped(k) =>
         && k in s.tokens && Active(s.tokens[k]) && s.tokens[k].task.id == id
         && StateFits(s, id, if s.tokens[k].wrapper.Calling? then Executing else Submitted)
       case Rejecting =>
         && s.worker.Rejected? && s.worker.token in s.tokens && s.tokens[s.worker.token].task.id == id
         && StateFits(s, id, Submitted)
  }

  ghost predicate NodeInv(s: State, i: nat) {
    i < |s.shared.tasks| ==> PlaceOf(s, s.shared.tasks[i].id) == InHeap && KindOk(s, s.shared.tasks[i])
  }

  ghost predicate BatchInv(s: State, i: nat) {
    i < |BatchOf(s.worker)| ==> PlaceOf(s, BatchOf(s.worker)[i].id) == InBatch && KindOk(s, BatchOf(s.worker)[i])
  }

  ghost predicate TokenInv(s: State, k: nat) {
    k in s.tokens ==>
      && k < s.nextToken
      && KindOk(s, s.tokens[k].task)
      && (Active(s.tokens[k]) ==> PlaceOf(s, s.tokens[k].task.id) == Wrapped(k))
      && (s.tokens[k].held ==> HoldsToken(s.worker) && s.worker.token == k)
      && (s.tokens[k].wrapper.Unposted? ==> s.worker.Posting? && s.worker.token == k)
  }

  predicate WorkerInv(s: State) {
    && (HoldsToken(s.worker) ==> s.worker.token in s.tokens && s.tokens[s.worker.token].held)
    && (s.worker.Posting? ==> s.tokens[s.worker.token].wrapper.Unposted?)
    && (s.worker.Rejected? ==>
          s.tokens[s.worker.token].wrapper.Destroyed? && PlaceOf(s, s.tokens[s.worker.token].task.id) == Rejecting)
    && (s.worker.Releasing? ==> !s.tokens[s.worker.token].wrapper.Unposted?)
  }

  ghost predicate PhaseInv(s: State) {
    && s.shared.nextId >= 1
    && s.shared.inFlight == |s.tokens|
    && Sorted(s.shared.tasks) && Distinct(s.shared.tasks) && Distinct(BatchOf(s.worker))
    && (s.shared.phase.Created? || s.worker.NotStarted? || s.shared.phase.Stopped? ==>
          s.shared.tasks == [] && s.shared.states == map[] && s.tokens == map[])
    && (s.shared.phase.Created? ==> s.worker.NotStarted?)
    && (s.worker.NotStarted? ==> s.shared.phase.Created? || s.shared.phase.Stopped?)
    && (s.worker.Exited? ==> s.shared.phase.Stopping? || s.shared.phase.Stopped?)
  }

  predicate CallerInv(s: State, c: nat) {
    c in s.callers && s.callers[c] != Joined(false) ==>
      && (s.shared.phase.Stopping? || s.shared.phase.Stopped?)
      && (s.callers[c].Joined? ==> s.worker.NotStarted? || s.worker.Exited?)
  }

  ghost predicate Inv(s: State) {
    && PhaseInv(s)
    && WorkerInv(s)
    && (forall id: nat {:trigger IdInv(s, id)} :: IdInv(s, id))
    && (forall i: nat {:trigger NodeInv(s, i)} :: NodeInv(s, i))
    && (forall i: nat {:trigger BatchInv(s, i)} :: BatchInv(s, i))
    && (forall k: nat {:trigger TokenInv(s, k)} :: TokenInv(s, k))
    && (forall c: nat {:trigger CallerInv(s, c)} :: CallerInv(s, c))
  }

  lemma InvHeapOk(s: State)
    requires Inv(s)
    ensures HeapOk(s.shared)
  {
    forall i | 0 <= i < |s.shared.tasks|
      ensures s.shared.tasks[i].id in s.shared.states && s.shared.states[s.shared.tasks[i].id] in {Pending, Table.Cancelled}
    {
      assert NodeInv(s, i);
      assert IdInv(s, s.shared.tasks[i].id);
    }
  }

  // ------------------------------------------------ every event keeps the invariant

  lemma LifecycleKeepsParts(s: State, e: Event, n: nat)
    requires Inv(s) && Enabled(s, e)
    requires e.Start? || e.RequestStop? || e.StopBegin? || e.StopJoin? || e.WaitJoin?
    ensures IdInv(Do(s, e), n) && NodeInv(Do(s, e), n) && BatchInv(Do(s, e), n)
    ensures TokenInv(Do(s, e), n) && CallerInv(Do(s, e), n)
  {
    assert IdInv(s, n) && NodeInv(s, n) && BatchInv(s, n) && TokenInv(s, n) && CallerInv(s, n);
    assert PhaseInv(s);
    hide Inv, Purge, Batch, Insert, HasId, Sorted, Distinct, WaitOver, TopDue;
  }

  lemma LifecycleKeepsPhase(s: State, e: Event)
    requires Inv(s) && Enabled(s, e)
    requires e.Start? || e.RequestStop? || e.StopBegin? || e.StopJoin? || e.WaitJoin?
    ensures PhaseInv(Do(s, e)) && WorkerInv(Do(s, e))
  {
    assert Do(s, e).shared.states.Keys == s.shared.states.Keys;
    hide IdInv, NodeInv, BatchInv, TokenInv, CallerInv, Purge, Batch, Insert, HasId, Sorted, Distinct, WaitOver, TopDue;
  }

  lemma LifecycleKeepsInv(s: State, e: Event)
    requires Inv(s) && Enabled(s, e)
    requires e.Start? || e.RequestStop? || e.StopBegin? || e.StopJoin? || e.WaitJoin?
    ensures Inv(Do(s, e))
  {
    LifecycleKeepsPhase(s, e);
    hide Do, IdInv, NodeInv, BatchInv, TokenInv, CallerInv, PhaseInv, WorkerInv;
    forall n: nat
      ensures IdInv(Do(s, e), n) && NodeInv(Do(s, e), n) && BatchInv(Do(s, e), n)
      ensures TokenInv(Do(s, e), n) && CallerInv(Do(s, e), n)
    {
      LifecycleKeepsParts(s, e, n);
    }
  }

  lemma FinalizeKeepsInv(s: State, e: Event)
    requires Inv(s) && Enabled(s, e) && e.Finalize?
    ensures Inv(Do(s, e))
  {
    var s' := Do(s, e);
    assert CallerInv(s, e.caller);
    assert s.tokens == map[] by {
      assert s.tokens.Keys == {};
    }
    forall id: nat ensures IdInv(s', id) { assert IdInv(s, id); }
    forall i: nat ensures NodeInv(s', i) { assert NodeInv(s, i); }
    forall i: nat ensures BatchInv(s', i) { assert BatchInv(s, i); }
    forall c: nat ensures CallerInv(s', c) { assert CallerInv(s, c); }
  }

  /** An id has a heap node exactly when the heap holds it. */
  lemma HeapPlace(s: State, id: nat)
    requires Inv(s)
    ensures HasId(s.shared.tasks, id) <==> PlaceOf(s, id) == InHeap
  {
    assert IdInv(s, id);
    if HasId(s.shared.tasks, id) {
      var i :| 0 <= i < |s.shared.tasks| && s.shared.tasks[i].id == id;
      assert NodeInv(s, i);
    }
  }

  lemma SchedulingKeepsInv(s: State, expiration: int, interval: int, repeated: bool, callback: nat)
    requires Inv(s) && s.shared.phase == Running
    ensures Inv(Scheduling(s, AddTimer(s.shared, expiration, interval, repeated, callback),
                           Kind(repeated, interval, callback, expiration)))
  {
    var id := s.shared.nextId;
    var task := TimerTask(id, expiration, interval, repeated, callback);
    var s' := Scheduling(s, AddTimer(s.shared, expiration, interval, repeated, callback),
                         Kind(repeated, interval, callback, expiration));
    assert IdInv(s, id);
    HeapPlace(s, id);
    InsertSorted(s.shared.tasks, task);
    InsertDistinct(s.shared.tasks, task);
    forall i: nat ensures NodeInv(s', i) {
      if i < |s'.shared.tasks| {
        var j := InsertOrigin(s.shared.tasks, task, i);
        assert NodeInv(s, j);
      }
    }
    forall x: nat ensures IdInv(s', x) { assert IdInv(s, x); }
    forall i: nat ensures BatchInv(s', i) { assert BatchInv(s, i); }
    forall k: nat ensures TokenInv(s', k) { assert TokenInv(s, k); }
    forall c: nat ensures CallerInv(s', c) { assert CallerInv(s, c); }
  }

  lemma CancelKeepsInv(s: State, e: Event)
    requires Inv(s) && Enabled(s, e) && e.Cancel?
    ensures Inv(Do(s, e))
  {
    hide Purge, Batch, Insert, HasId, Sorted, Distinct, WaitOver, TopDue;
    var s' := Do(s, e);
    forall id: nat ensures IdInv(s', id) { assert IdInv(s, id); }
    forall i: nat ensures NodeInv(s', i) { assert NodeInv(s, i); }
    forall i: nat ensures BatchInv(s', i) { assert BatchInv(s, i); }
    forall k: nat ensures TokenInv(s', k) { assert TokenInv(s, k); }
    forall c: nat ensures CallerInv(s', c) { assert CallerInv(s, c); }
  }

  lemma WorkerMovesKeepInv(s: State, e: Event)
    requires Inv(s) && Enabled(s, e)
    requires e.WorkerLook? || e.WakeEmpty? || e.SubmitDone? || (e.WakeTimedOut? && !TopDue(s.shared, e.now))
    ensures Inv(Do(s, e))
  {
    var s' := Do(s, e);
    forall id: nat ensures IdInv(s', id) { assert IdInv(s, id); }
    forall i: nat ensures NodeInv(s', i) { assert NodeInv(s, i); }
    forall i: nat ensures BatchInv(s', i) { assert BatchInv(s, i); }
    forall k: nat ensures TokenInv(s', k) { assert TokenInv(s, k); }
    forall c: nat ensures CallerInv(s', c) { assert CallerInv(s, c); }
  }

  /** What the purge loop does to one id. */
  lemma PurgeFate(s: Shared, id: nat)
    requires HeapOk(s)
    ensures !HasId(s.tasks, id) ==>
              !HasId(Purge(s).tasks, id) && (id in Purge(s).states <==> id in s.states)
    ensures HasId(s.tasks, id) ==> (HasId(Purge(s).tasks, id) <==> id in Purge(s).states)
    ensures id in Purge(s).states ==> id in s.states && Purge(s).states[id] == s.states[id]
    ensures Purge(s) == s.(tasks := Purge(s).tasks, states := Purge(s).states)
    decreases |s.tasks|
  {
    if TopCancelled(s) {
      DropTopKeepsHeap(s);
      var s1 := DropTop(s);
      SplitTop(s.tasks, id);
      PurgeFate(s1, id);
    } else if HasId(s.tasks, id) {
      var i :| 0 <= i < |s.tasks| && s.tasks[i].id == id;
    }
  }

  lemma SplitTop(tasks: seq<TimerTask>, id: nat)
    requires tasks != [] && Distinct(tasks)
    ensures HasId(tasks, id) <==> id == tasks[0].id || HasId(tasks[1..], id)
    ensures !HasId(tasks[1..], tasks[0].id)
  {
    if HasId(tasks[1..], id) {
      var i :| 0 <= i < |tasks[1..]| && tasks[1..][i].id == id;
      assert tasks[i + 1].id == id;
    }
    if HasId(tasks, id) && id != tasks[0].id {
      var i :| 0 <= i < |tasks| && tasks[i].id == id;
      assert tasks[1..][i - 1].id == id;
    }
    assert tasks[0].id == tasks[0].id;
  }

  /** What the batch loop does to one id: it stays in the heap, joins the batch, or is forgotten. */
  lemma BatchFate(s: Shared, now: int, id: nat)
    requires HeapOk(s)
    ensures var (s', ready) := Batch(s, now);
      && Distinct(ready)
      && |s'.tasks| <= |s.tasks|
      && s' == s.(tasks := s'.tasks, states := s'.states)
      && (!HasId(s.tasks, id) ==>
            && !HasId(s'.tasks, id) && !HasId(ready, id)
            && (id in s'.states <==> id in s.states)
            && (id in s.states ==> s'.states[id] == s.states[id]))
      && (HasId(s.tasks, id) ==>
            && (id in s'.states <==> HasId(s'.tasks, id) || HasId(ready, id))
            && !(HasId(s'.tasks, id) && HasId(ready, id))
            && (HasId(s'.tasks, id) ==> s'.states[id] == s.states[id])
            && (HasId(ready, id) ==> s'.states[id] == Table.Submitted))
    decreases |s.tasks|
  {
    if TopDue(s, now) {
      DropTopKeepsHeap(s);
      var (s1, first) := BatchOne(s);
      SplitTop(s.tasks, id);
      BatchFate(s1, now, id);
      BatchFate(s1, now, s.tasks[0].id);
      var (s2, rest) := Batch(s1, now);
      var ready := first + rest;
      if first != [] {
        assert ready[1..] == rest && ready[0] == s.tasks[0];
        assert forall i :: 0 <= i < |rest| ==> ready[i + 1] == rest[i];
        assert Distinct(ready) by {
          forall j | 0 <= j < |rest| ensures rest[j].id != s.tasks[0].id {
            if rest[j].id == s.tasks[0].id {
              assert HasId(rest, s.tasks[0].id);
            }
          }
        }
        SplitTop(ready, id);
      } else {
        assert ready == rest;
      }
    } else if HasId(s.tasks, id) {
      var i :| 0 <= i < |s.tasks| && s.tasks[i].id == id;
    }
  }

  /** The purge and the batch loop as seen from one id: its node stays, moves to the batch, or goes
      together with its state. */
  predicate Fate(s: State, s': State, id: nat) {
    var stays, joins := HasId(s'.shared.tasks, id), HasId(BatchOf(s'.worker), id);
    && !(stays && joins)
    && (if HasId(s.shared.tasks, id)
        then (id in s'.shared.states <==> stays || joins)
             && (stays ==> id in s.shared.states && s'.shared.states[id] == s.shared.states[id])
             && (joins ==> s'.shared.states[id] == Table.Submitted)
        else !stays && !joins && (id in s'.shared.states <==> id in s.shared.states)
             && (id in s.shared.states ==> s'.shared.states[id] == s.shared.states[id]))
    && PlaceOf(s', id) == (if PlaceOf(s, id) != InHeap then PlaceOf(s, id)
                           else if stays then InHeap else if joins then InBatch else Nowhere)
    && (id in s'.places ==> id in s.places)
  }

  ghost predicate OnlyRemoves(s: State, s': State) {
    && s.worker.Waiting? && (s'.worker.AtHead? || s'.worker.Submitting?)
    && s' == s.(shared := s.shared.(tasks := s'.shared.tasks, states := s'.shared.states),
                worker := s'.worker, places := s'.places)
    && Sorted(s'.shared.tasks) && Distinct(s'.shared.tasks) && Distinct(BatchOf(s'.worker))
    && |s'.shared.tasks| <= |s.shared.tasks|
    && (forall x :: x in s'.shared.tasks || x in BatchOf(s'.worker) ==> x in s.shared.tasks)
  }

  lemma RemovingNodesKeepsInv(s: State, s': State)
    requires Inv(s) && OnlyRemoves(s, s')
    requires forall id: nat :: Fate(s, s', id)
    ensures Inv(s')
  {
    forall id: nat ensures IdInv(s', id) {
      assert IdInv(s, id) && Fate(s, s', id);
      HeapPlace(s, id);
    }
    forall i: nat ensures NodeInv(s', i) {
      if i < |s'.shared.tasks| {
        assert s'.shared.tasks[i] in s'.shared.tasks;
        var j :| 0 <= j < |s.shared.tasks| && s.shared.tasks[j] == s'.shared.tasks[i];
        assert NodeInv(s, j) && Fate(s, s', s'.shared.tasks[i].id);
      }
    }
    forall i: nat ensures BatchInv(s', i) {
      if i < |BatchOf(s'.worker)| {
        var task := BatchOf(s'.worker)[i];
        assert task in BatchOf(s'.worker);
        var j :| 0 <= j < |s.shared.tasks| && s.shared.tasks[j] == task;
        assert NodeInv(s, j) && Fate(s, s', task.id);
      }
    }
    forall k: nat ensures TokenInv(s', k) {
      assert TokenInv(s, k);
      if k in s.tokens {
        assert Fate(s, s', s.tokens[k].task.id);
      }
    }
    forall c: nat ensures CallerInv(s', c) { assert CallerInv(s, c); }
    if s.shared.phase.Stopped? {
      forall id: nat ensures id !in s'.shared.states { assert Fate(s, s', id); }
      assert s'.shared.states == map[];
    }
  }

  lemma PurgedFate(s: State, e: Event, id: nat)
    requires Inv(s) && Enabled(s, e) && e.WakeInterrupted?
    ensures Fate(s, Do(s, e), id)
  {
    InvHeapOk(s);
    PurgeFate(s.shared, id);
    HeapPlace(s, id);
    hide Inv, HasId, Purge, HeapOk;
  }

  lemma PurgedHeap(s: Shared)
    requires HeapOk(s)
    ensures Sorted(Purge(s).tasks) && Distinct(Purge(s).tasks) && |Purge(s).tasks| <= |s.tasks|
    ensures forall x :: x in Purge(s).tasks ==> x in s.tasks
  {
    PurgeEndsSpinning(s);
    var n := PurgeRemovesCancelled(s);
    hide Purge, Sorted, Distinct, HasId, WaitOver;
  }

  lemma PurgeOnlyRemoves(s: State, e: Event)
    requires Inv(s) && Enabled(s, e) && e.WakeInterrupted?
    ensures OnlyRemoves(s, Do(s, e))
  {
    InvHeapOk(s);
    PurgedHeap(s.shared);
    PurgeFate(s.shared, 0);
    NothingIsDistinct();
    hide Inv, HasId, Purge, Sorted, Distinct, WaitOver, HeapOk;
  }

  lemma NothingIsDistinct()
    ensures Distinct([])
  {
  }

  lemma PurgeKeepsInv(s: State, e: Event)
    requires Inv(s) && Enabled(s, e) && e.WakeInterrupted?
    ensures Inv(Do(s, e))
  {
    hide Fate, Inv, Do, OnlyRemoves;
    PurgeOnlyRemoves(s, e);
    forall id: nat ensures Fate(s, Do(s, e), id) {
      PurgedFate(s, e, id);
    }
    RemovingNodesKeepsInv(s, Do(s, e));
  }

  lemma BatchKeepsInv(s: State, e: Event)
    requires Inv(s) && Enabled(s, e) && e.WakeTimedOut? && TopDue(s.shared, e.now)
    ensures Inv(Do(s, e))
  {
    var s' := Do(s, e);
    InvHeapOk(s);
    BatchFate(s.shared, e.now, 0);
    BatchTakesDueLive(s.shared, e.now);
    DueLiveSorted(s.shared.tasks, s.shared.states, e.now);
    forall id: nat ensures Fate(s, s', id) {
      BatchFate(s.shared, e.now, id);
      HeapPlace(s, id);
    }
    RemovingNodesKeepsInv(s, s');
  }

  lemma SubmittedSelf(s: State, e: Event)
    requires Inv(s) && Enabled(s, e) && e.SubmitNext?
    ensures IdInv(Do(s, e), s.worker.ready[0].id)
  {
    hide NodeInv, CallerInv, TokenInv, Purge, Batch, Insert, Sorted, WaitOver, TopDue, CancelPending, HasId;
    var id := s.worker.ready[0].id;
    assert BatchInv(s, 0) && IdInv(s, id);
    hide Inv, PhaseInv;
  }

  /** A submission touches nothing of another id. */
  lemma SubmittedKeeps(s: State, e: Event, id: nat)
    requires Enabled(s, e) && e.SubmitNext? && id != s.worker.ready[0].id
    ensures var s' := Do(s, e);
      && PlaceOf(s', id) == PlaceOf(s, id)
      && (id in s'.places <==> id in s.places)
      && (id in s'.shared.states <==> id in s.shared.states)
      && (id in s.shared.states ==> s'.shared.states[id] == s.shared.states[id])
      && (s'.shared.tasks, s'.shared.nextId, s'.shared.phase, s'.kinds, s'.dropped)
           == (s.shared.tasks, s.shared.nextId, s.shared.phase, s.kinds, s.dropped)
      && BatchOf(s'.worker) == s.worker.ready[1..]
      && (forall k :: k in s.tokens && k != s.nextToken ==> k in s'.tokens && s'.tokens[k] == s.tokens[k])
  {
    hide HasId;
  }

  /** An id whose own place, state and token stay as they are keeps its part of the invariant. */
  lemma IdUntouched(s: State, s': State, id: nat)
    requires IdInv(s, id) && PlaceOf(s, id) != Rejecting && PlaceOf(s', id) == PlaceOf(s, id)
    requires id in s'.places <==> id in s.places
    requires id in s'.shared.states <==> id in s.shared.states
    requires id in s.shared.states ==> s'.shared.states[id] == s.shared.states[id]
    requires (s'.shared.tasks, s'.shared.nextId, s'.shared.phase, s'.kinds, s'.dropped)
               == (s.shared.tasks, s.shared.nextId, s.shared.phase, s.kinds, s.dropped)
    requires HasId(BatchOf(s'.worker), id) <==> HasId(BatchOf(s.worker), id)
    requires PlaceOf(s, id).Wrapped? && PlaceOf(s, id).token in s.tokens ==>
               var k := PlaceOf(s, id).token; k in s'.tokens && s'.tokens[k] == s.tokens[k]
    ensures IdInv(s', id)
  {
    hide HasId, PlaceOf, BatchOf;
  }

  lemma SubmittedOther(s: State, e: Event, id: nat)
    requires Inv(s) && Enabled(s, e) && e.SubmitNext? && id != s.worker.ready[0].id
    ensures IdInv(Do(s, e), id)
  {
    assert IdInv(s, id) && TokenInv(s, s.nextToken);
    SplitTop(s.worker.ready, id);
    SubmittedKeeps(s, e, id);
    hide Inv, Do, HasId, PlaceOf, BatchOf;
    assert BatchOf(s.worker) == s.worker.ready by { BatchWhileSubmitting(s.worker); }
    IdUntouched(s, Do(s, e), id);
  }

  lemma BatchWhileSubmitting(w: Worker)
    requires w.Submitting?
    ensures BatchOf(w) == w.ready
  {
  }

  lemma SubmittedIds(s: State, e: Event, id: nat)
    requires Inv(s) && Enabled(s, e) && e.SubmitNext?
    ensures IdInv(Do(s, e), id)
  {
    if id == s.worker.ready[0].id {
      SubmittedSelf(s, e);
    } else {
      SubmittedOther(s, e, id);
    }
    hide Inv, Do, IdInv;
  }

  lemma SubmittedRest(s: State, e: Event, i: nat)
    requires Inv(s) && Enabled(s, e) && e.SubmitNext?
    ensures BatchInv(Do(s, e), i)
  {
    assert BatchInv(s, i + 1) && BatchInv(s, 0);
  }

  lemma SubmittedToken(s: State, e: Event, k: nat)
    requires Inv(s) && Enabled(s, e) && e.SubmitNext?
    ensures TokenInv(Do(s, e), k)
  {
    hide Purge, Batch, Insert, HasId, Sorted, Distinct, WaitOver, TopDue, CancelPending;
    assert BatchInv(s, 0) && TokenInv(s, s.nextToken) && IdInv(s, s.worker.ready[0].id) && TokenInv(s, k);
  }

  lemma OneMoreToken(tokens: map<nat, Token>, k: nat, t: Token)
    requires k !in tokens
    ensures |tokens[k := t]| == |tokens| + 1
  {
    assert tokens[k := t].Keys == tokens.Keys + {k};
  }

  /** A submission adds the next token exactly when it counts one more in flight. */
  lemma SubmittedCount(s: State, e: Event)
    requires Inv(s) && Enabled(s, e) && e.SubmitNext?
    ensures |Do(s, e).tokens| == Do(s, e).shared.inFlight
  {
    assert s.nextToken !in s.tokens by { assert TokenInv(s, s.nextToken); }
    OneMoreToken(s.tokens, s.nextToken, Token(s.worker.ready[0], true, Unposted));
    assert s.shared.inFlight == |s.tokens|;
    hide Inv, PhaseInv;
  }

  lemma SubmittedWorker(s: State, e: Event)
    requires Inv(s) && Enabled(s, e) && e.SubmitNext?
    ensures WorkerInv(Do(s, e))
  {
    hide Purge, Batch, Insert, HasId, Sorted, Distinct, WaitOver, TopDue, CancelPending, IdInv, NodeInv, BatchInv,
         CallerInv, TokenInv;
  }

  lemma SubmittedPhase(s: State, e: Event)
    requires Inv(s) && Enabled(s, e) && e.SubmitNext?
    ensures PhaseInv(Do(s, e))
  {
    SubmittedCount(s, e);
    hide Purge, Batch, Insert, HasId, Sorted, WaitOver, TopDue, CancelPending, NodeInv, CallerInv, TokenInv;
    assert BatchInv(s, 0) && IdInv(s, s.worker.ready[0].id);
  }

  lemma SubmittedOthers(s: State, e: Event, i: nat, c: nat)
    requires Inv(s) && Enabled(s, e) && e.SubmitNext?
    ensures NodeInv(Do(s, e), i) && CallerInv(Do(s, e), c)
  {
    hide Purge, Batch, Insert, HasId, Sorted, Distinct, WaitOver, TopDue, CancelPending, IdInv, TokenInv;
    assert NodeInv(s, i) && CallerInv(s, c) && BatchInv(s, 0);
  }

  lemma SubmitKeepsInv(s: State, e: Event)
    requires Inv(s) && Enabled(s, e) && e.SubmitNext?
    ensures Inv(Do(s, e))
  {
    SubmittedWorker(s, e);
    SubmittedPhase(s, e);
    hide Do, IdInv, NodeInv, BatchInv, TokenInv, CallerInv, PhaseInv, WorkerInv;
    forall k: nat ensures TokenInv(Do(s, e), k) { SubmittedToken(s, e, k); }
    forall id: nat ensures IdInv(Do(s, e), id) { SubmittedIds(s, e, id); }
    forall i: nat ensures BatchInv(Do(s, e), i) { SubmittedRest(s, e, i); }
    forall i: nat ensures NodeInv(Do(s, e), i) { SubmittedOthers(s, e, i, 0); }
    forall c: nat ensures CallerInv(Do(s, e), c) { SubmittedOthers(s, e, 0, c); }
  }

  /** The scheduler thread and the wrapper handle one token at a time. */
  predicate HandlesToken(e: Event) {
    || e.PostAccepted? || e.PostRejected? || e.EraseRejected? || e.ReleaseToken?
    || e.BeginWrapper? || e.EndWrapper? || e.DestroyWrapper? || e.DropWrapper?
  }

  function Subject(s: State, e: Event): (k: nat)
    requires Enabled(s, e) && HandlesToken(e)
    ensures k in s.tokens
  {
    if e.BeginWrapper? || e.EndWrapper? || e.DestroyWrapper? || e.DropWrapper? then e.token else s.worker.token
  }

  lemma PostIds(s: State, e: Event, id: nat)
    requires Inv(s) && Enabled(s, e)
    requires e.PostAccepted? || e.PostRejected? || e.EraseRejected? || e.ReleaseToken?
    ensures IdInv(Do(s, e), id)
  {
    hide Purge, Batch, Insert, HasId, Sorted, Distinct, WaitOver, TopDue, CancelPending;
    assert TokenInv(s, s.worker.token) && IdInv(s, id);
  }

  lemma WrapperIds(s: State, e: Event, id: nat)
    requires Inv(s) && Enabled(s, e) && (e.BeginWrapper? || e.DestroyWrapper? || e.DropWrapper?)
    ensures IdInv(Do(s, e), id)
  {
    hide Purge, Batch, Insert, HasId, Sorted, Distinct, WaitOver, TopDue, CancelPending;
    assert TokenInv(s, e.token) && IdInv(s, id);
  }

  lemma EndWrapperIds(s: State, e: Event, id: nat)
    requires Inv(s) && Enabled(s, e) && e.EndWrapper?
    ensures IdInv(Do(s, e), id)
  {
    var task := s.tokens[e.token].task;
    assert TokenInv(s, e.token) && IdInv(s, id);
    if Rearms(s, task) {
      HeapPlace(s, task.id);
      InsertDistinct(s.shared.tasks, task.(expiration := e.now + task.interval));
    }
  }

  /** The heap after a wrapper finished: unchanged, or with its periodic timer back in order. */
  lemma EndWrapperNodes(s: State, e: Event)
    requires Inv(s) && Enabled(s, e) && e.EndWrapper?
    ensures forall i: nat :: NodeInv(Do(s, e), i)
    ensures Sorted(Do(s, e).shared.tasks) && Distinct(Do(s, e).shared.tasks)
  {
    var s' := Do(s, e);
    var task := s.tokens[e.token].task;
    assert TokenInv(s, e.token);
    if Rearms(s, task) {
      var again := task.(expiration := e.now + task.interval);
      HeapPlace(s, task.id);
      InsertSorted(s.shared.tasks, again);
      InsertDistinct(s.shared.tasks, again);
      forall i: nat ensures NodeInv(s', i) {
        if i < |s'.shared.tasks| {
          var j := InsertOrigin(s.shared.tasks, again, i);
          assert NodeInv(s, j);
        }
      }
    } else {
      forall i: nat ensures NodeInv(s', i) { assert NodeInv(s, i); }
    }
  }

  lemma PostTokens(s: State, e: Event)
    requires Inv(s) && Enabled(s, e)
    requires e.PostAccepted? || e.PostRejected? || e.EraseRejected? || e.ReleaseToken?
    ensures WorkerInv(Do(s, e)) && |Do(s, e).tokens| == |s.tokens|
    ensures forall k: nat :: TokenInv(Do(s, e), k)
  {
    var s' := Do(s, e);
    assert TokenInv(s, s.worker.token) && IdInv(s, s.tokens[s.worker.token].task.id);
    assert s'.tokens.Keys == s.tokens.Keys;
    forall k: nat ensures TokenInv(s', k) { assert TokenInv(s, k); }
  }

  lemma WrapperToken(s: State, e: Event, k: nat)
    requires Inv(s) && Enabled(s, e) && (e.BeginWrapper? || e.EndWrapper? || e.DestroyWrapper? || e.DropWrapper?)
    ensures TokenInv(Do(s, e), k)
  {
    assert TokenInv(s, e.token) && TokenInv(s, k) && IdInv(s, s.tokens[e.token].task.id);
    hide Inv, PhaseInv, NodeInv, BatchInv, CallerInv, Purge, Batch, Insert, HasId, Sorted, Distinct, WaitOver, TopDue,
         CancelPending;
  }

  lemma WrapperTokens(s: State, e: Event)
    requires Inv(s) && Enabled(s, e) && (e.BeginWrapper? || e.EndWrapper? || e.DestroyWrapper? || e.DropWrapper?)
    ensures WorkerInv(Do(s, e)) && |Do(s, e).tokens| == |s.tokens|
    ensures forall k: nat :: TokenInv(Do(s, e), k)
  {
    forall k: nat ensures TokenInv(Do(s, e), k) { WrapperToken(s, e, k); }
    assert TokenInv(s, e.token) && IdInv(s, s.tokens[e.token].task.id);
    assert Do(s, e).tokens.Keys == s.tokens.Keys;
    hide Inv, PhaseInv, NodeInv, BatchInv, CallerInv, TokenInv, Purge, Batch, Insert, HasId, Sorted, Distinct, WaitOver,
         TopDue, CancelPending;
  }

  lemma HandledBatch(s: State, e: Event, n: nat)
    requires Inv(s) && Enabled(s, e) && HandlesToken(e)
    ensures BatchInv(Do(s, e), n)
  {
    assert TokenInv(s, Subject(s, e)) && BatchInv(s, n);
    hide Inv, Purge, Batch, Insert, HasId, Sorted, Distinct, WaitOver, TopDue, CancelPending, IdInv, NodeInv, CallerInv,
         PhaseInv;
  }

  lemma HandledNode(s: State, e: Event, n: nat)
    requires Inv(s) && Enabled(s, e) && HandlesToken(e) && !e.EndWrapper?
    ensures NodeInv(Do(s, e), n)
  {
    assert TokenInv(s, Subject(s, e)) && NodeInv(s, n);
    hide Inv, Purge, Batch, Insert, HasId, Sorted, Distinct, WaitOver, TopDue, CancelPending, IdInv, BatchInv, PhaseInv,
         CallerInv;
  }

  lemma HandledCaller(s: State, e: Event, c: nat)
    requires Inv(s) && Enabled(s, e) && HandlesToken(e)
    ensures CallerInv(Do(s, e), c)
  {
    assert CallerInv(s, c);
    hide Inv, Purge, Batch, Insert, HasId, Sorted, Distinct, WaitOver, TopDue, CancelPending, IdInv, BatchInv, NodeInv,
         PhaseInv, TokenInv;
  }

  lemma HandledRest(s: State, e: Event)
    requires Inv(s) && Enabled(s, e) && HandlesToken(e)
    ensures forall i: nat :: BatchInv(Do(s, e), i)
    ensures forall c: nat :: CallerInv(Do(s, e), c)
    ensures !e.EndWrapper? ==> forall i: nat :: NodeInv(Do(s, e), i)
  {
    hide Inv, Do, BatchInv, CallerInv, NodeInv;
    forall n: nat
      ensures BatchInv(Do(s, e), n) && CallerInv(Do(s, e), n) && (!e.EndWrapper? ==> NodeInv(Do(s, e), n))
    {
      HandledBatch(s, e, n);
      HandledCaller(s, e, n);
      if !e.EndWrapper? {
        HandledNode(s, e, n);
      }
    }
  }

  lemma EndWrapperPhase(s: State, e: Event)
    requires Inv(s) && Enabled(s, e) && e.EndWrapper? && |Do(s, e).tokens| == |s.tokens|
    ensures PhaseInv(Do(s, e))
  {
    EndWrapperNodes(s, e);
    hide Purge, Batch, Insert, HasId, Sorted, Distinct, WaitOver, TopDue, CancelPending;
    assert IdInv(s, s.tokens[e.token].task.id) && TokenInv(s, e.token);
  }

  lemma HandledPhase(s: State, e: Event)
    requires Inv(s) && Enabled(s, e) && HandlesToken(e) && |Do(s, e).tokens| == |s.tokens|
    ensures PhaseInv(Do(s, e))
  {
    assert IdInv(s, s.tokens[Subject(s, e)].task.id) && TokenInv(s, Subject(s, e));
    hide Purge, Batch, Insert, HasId, Sorted, Distinct, WaitOver, TopDue, CancelPending, NodeInv, BatchInv, CallerInv;
    if e.EndWrapper? {
      EndWrapperPhase(s, e);
      hide Inv, Do, PhaseInv;
    }
  }

  lemma HandlingKeepsInv(s: State, e: Event)
    requires Inv(s) && Enabled(s, e) && HandlesToken(e)
    ensures Inv(Do(s, e))
  {
    if e.PostAccepted? || e.PostRejected? || e.EraseRejected? || e.ReleaseToken? {
      PostTokens(s, e);
    } else {
      WrapperTokens(s, e);
    }
    HandledRest(s, e);
    HandledPhase(s, e);
    if e.EndWrapper? {
      EndWrapperNodes(s, e);
    }
    hide Do, IdInv, NodeInv, BatchInv, TokenInv, CallerInv, PhaseInv, WorkerInv;
    forall id: nat ensures IdInv(Do(s, e), id) {
      if e.EndWrapper? {
        EndWrapperIds(s, e, id);
      } else if e.BeginWrapper? || e.DestroyWrapper? || e.DropWrapper? {
        WrapperIds(s, e, id);
      } else {
        PostIds(s, e, id);
      }
    }
  }

  lemma FinishKeepsInv(s: State, e: Event)
    requires Inv(s) && Enabled(s, e) && e.FinishToken?
    ensures Inv(Do(s, e))
  {
    hide Purge, Batch, Insert, HasId, Sorted, Distinct, WaitOver, TopDue, CancelPending;
    var s' := Do(s, e);
    assert TokenInv(s, e.token);
    assert s'.tokens.Keys == s.tokens.Keys - {e.token};
    assert |s'.tokens| == |s.tokens| - 1;
    forall id: nat ensures IdInv(s', id) { assert IdInv(s, id); }
    forall i: nat ensures NodeInv(s', i) { assert NodeInv(s, i); }
    forall i: nat ensures BatchInv(s', i) { assert BatchInv(s, i); }
    forall k: nat ensures TokenInv(s', k) { assert TokenInv(s, k); }
    forall c: nat ensures CallerInv(s', c) { assert CallerInv(s, c); }
  }

  lemma SchedulesKeepInv(s: State, e: Event)
    requires Inv(s) && Enabled(s, e) && (e.ScheduleAfter? || e.ScheduleEvery?)
    ensures Inv(Do(s, e))
  {
    if e.callback.Some? && s.shared.phase == Running {
      if e.ScheduleAfter? && e.delay >= 0 {
        SchedulingKeepsInv(s, e.now + e.delay, 0, false, e.callback.value);
      } else if e.ScheduleEvery? && e.interval > 0 {
        SchedulingKeepsInv(s, e.now + e.interval, e.interval, true, e.callback.value);
      }
    }
    hide Inv;
  }

  lemma EventKeepsInv(s: State, e: Event)
    requires Inv(s) && Enabled(s, e)
    ensures Inv(Do(s, e))
  {
    hide Inv, Do;
    match e
    case Start => LifecycleKeepsInv(s, e);
    case RequestStop => LifecycleKeepsInv(s, e);
    case StopBegin(_) => LifecycleKeepsInv(s, e);
    case StopJoin(_) => LifecycleKeepsInv(s, e);
    case WaitJoin(_) => LifecycleKeepsInv(s, e);
    case Finalize(_) => FinalizeKeepsInv(s, e);
    case ScheduleAfter(_, _, _) => SchedulesKeepInv(s, e);
    case ScheduleEvery(_, _, _) => SchedulesKeepInv(s, e);
    case Cancel(_) => CancelKeepsInv(s, e);
    case WorkerLook => WorkerMovesKeepInv(s, e);
    case WakeEmpty => WorkerMovesKeepInv(s, e);
    case WakeInterrupted => PurgeKeepsInv(s, e);
    case WakeTimedOut(now) =>
      if TopDue(s.shared, now) { BatchKeepsInv(s, e); } else { WorkerMovesKeepInv(s, e); }
    case SubmitNext => SubmitKeepsInv(s, e);
    case SubmitDone => WorkerMovesKeepInv(s, e);
    case PostAccepted => HandlingKeepsInv(s, e);
    case PostRejected => HandlingKeepsInv(s, e);
    case EraseRejected => HandlingKeepsInv(s, e);
    case ReleaseToken => HandlingKeepsInv(s, e);
    case BeginWrapper(_) => HandlingKeepsInv(s, e);
    case EndWrapper(_, _) => HandlingKeepsInv(s, e);
    case DestroyWrapper(_) => HandlingKeepsInv(s, e);
    case DropWrapper(_) => HandlingKeepsInv(s, e);
    case FinishToken(_) => FinishKeepsInv(s, e);
  }

  lemma {:induction false} RunKeepsInv(s: State, events: seq<Event>)
    requires Inv(s)
    ensures Exec(s, events).After? ==> Inv(Exec(s, events).state)
    decreases |events|
  {
    if events != [] && Enabled(s, events[0]) {
      EventKeepsInv(s, events[0]);
      RunKeepsInv(Do(s, events[0]), events[1..]);
    }
  }

  lemma InitKeepsInv()
    ensures Inv(INIT)
  {
    assert forall id: nat :: IdInv(INIT, id);
  }

  // ---------------------------------------------------------------- what users rely on

  /** The tokens whose wrapper may still run the callback of this id, or is running it. */
  predicate Carries(s: State, k: nat, id: nat) {
    k in s.tokens && Active(s.tokens[k]) && s.tokens[k].task.id == id
  }

  /** Each id is held at most once: by one heap node, or one ready task, or one wrapper. */
  ghost predicate Exclusive(s: State) {
    && (forall i, j :: 0 <= i < j < |s.shared.tasks| ==> s.shared.tasks[i].id != s.shared.tasks[j].id)
    && (forall i, j :: 0 <= i < j < |BatchOf(s.worker)| ==> BatchOf(s.worker)[i].id != BatchOf(s.worker)[j].id)
    && (forall id: nat :: !(HasId(s.shared.tasks, id) && HasId(BatchOf(s.worker), id)))
    && (forall id: nat, k: nat {:trigger Carries(s, k, id)} ::
          Carries(s, k, id) ==> !HasId(s.shared.tasks, id) && !HasId(BatchOf(s.worker), id))
    && (forall id: nat, k: nat, l: nat :: Carries(s, k, id) && Carries(s, l, id) ==> k == l)
  }

  /** The state recorded for an id says who holds it, unless the executor destroyed its wrapper. */
  ghost predicate StateTellsHolder(s: State, id: nat) {
    id in s.shared.states && id !in s.dropped ==>
      match s.shared.states[id]
      case Pending => HasId(s.shared.tasks, id)
      case Submitted =>
        || HasId(BatchOf(s.worker), id)
        || (exists k :: Carries(s, k, id) && !s.tokens[k].wrapper.Calling?)
        || (s.worker.Rejected? && s.worker.token in s.tokens && s.tokens[s.worker.token].task.id == id)
      case Executing => exists k :: Carries(s, k, id) && s.tokens[k].wrapper.Calling?
      case Cancelled => true
  }

  lemma InvIsExclusive(s: State)
    requires Inv(s)
    ensures Exclusive(s)
  {
    forall id: nat ensures HasId(BatchOf(s.worker), id) ==> PlaceOf(s, id) == InBatch {
      if HasId(BatchOf(s.worker), id) {
        var i :| 0 <= i < |BatchOf(s.worker)| && BatchOf(s.worker)[i].id == id;
        assert BatchInv(s, i);
      }
    }
    forall id: nat ensures HasId(s.shared.tasks, id) ==> PlaceOf(s, id) == InHeap {
      HeapPlace(s, id);
    }
    forall id: nat, k: nat | Carries(s, k, id) ensures PlaceOf(s, id) == Wrapped(k) {
      assert TokenInv(s, k);
    }
  }

  lemma InvTellsHolder(s: State, id: nat)
    requires Inv(s)
    ensures StateTellsHolder(s, id)
  {
    assert IdInv(s, id);
    if PlaceOf(s, id).Wrapped? {
      assert Carries(s, PlaceOf(s, id).token, id);
    }
  }

  /** Main result: in every run each timer is held at most once, so a periodic timer never overlaps
      itself; its state says by whom; and inFlight counts the live tokens. */
  lemma EveryRunIsExclusive(events: seq<Event>)
    requires Exec(INIT, events).After?
    ensures var s := Exec(INIT, events).state;
            Exclusive(s) && (forall id: nat :: StateTellsHolder(s, id)) && s.shared.inFlight == |s.tokens|
  {
    InitKeepsInv();
    RunKeepsInv(INIT, events);
    var s := Exec(INIT, events).state;
    InvIsExclusive(s);
    forall id: nat ensures StateTellsHolder(s, id) { InvTellsHolder(s, id); }
  }

  /** This event starts the callback of this id. */
  predicate Begins(s: State, e: Event, id: nat)
    requires Enabled(s, e)
  {
    e.BeginWrapper? && s.tokens[e.token].task.id == id && BeginCallback(s.shared, id).1
  }

  predicate CancelSucceeds(s: State, e: Event, id: nat) {
    e == Event.Cancel(id) && Table.Cancel(s.shared, id).1
  }

  /** In this run the callback of the id never starts and no cancel of it succeeds. */
  predicate Silent(s: State, events: seq<Event>, id: nat)
    decreases |events|
  {
    events == [] || !Enabled(s, events[0]) ||
    (!Begins(s, events[0], id) && !CancelSucceeds(s, events[0], id) && Silent(Do(s, events[0]), events[1..], id))
  }

  /** Cancelled, or issued and already forgotten. */
  predicate Dead(s: State, id: nat) {
    0 < id < s.shared.nextId && (id in s.shared.states ==> s.shared.states[id] == Table.Cancelled)
  }

  lemma DeadThroughLoops(s: State, e: Event, id: nat)
    requires Inv(s) && Enabled(s, e) && Dead(s, id) && (e.WakeInterrupted? || e.WakeTimedOut?)
    ensures Dead(Do(s, e), id)
  {
    InvHeapOk(s);
    if e.WakeInterrupted? {
      PurgeFate(s.shared, id);
    } else if TopDue(s.shared, e.now) {
      BatchFate(s.shared, e.now, id);
      BatchTakesDueLive(s.shared, e.now);
      DueLiveSorted(s.shared.tasks, s.shared.states, e.now);
    }
  }

  lemma DeadStaysDead(s: State, e: Event, id: nat)
    requires Inv(s) && Enabled(s, e) && Dead(s, id)
    ensures Dead(Do(s, e), id) && !Begins(s, e, id) && !CancelSucceeds(s, e, id)
  {
    if e.WakeInterrupted? || e.WakeTimedOut? {
      DeadThroughLoops(s, e, id);
      hide Do, Inv;
    } else {
      DeadThroughRest(s, e, id);
      hide Do, Inv;
    }
  }

  lemma DeadThroughRest(s: State, e: Event, id: nat)
    requires Enabled(s, e) && Dead(s, id) && !e.WakeInterrupted? && !e.WakeTimedOut?
    ensures Dead(Do(s, e), id) && !Begins(s, e, id) && !CancelSucceeds(s, e, id)
  {
    hide AfterPurge, AfterBatch, Insert, HasId, Sorted, Distinct, WaitOver, TopDue;
  }

  lemma {:induction false} DeadIsSilent(s: State, events: seq<Event>, id: nat)
    requires Inv(s) && Dead(s, id)
    ensures Silent(s, events, id)
    decreases |events|
  {
    if events != [] && Enabled(s, events[0]) {
      DeadStaysDead(s, events[0], id);
      EventKeepsInv(s, events[0]);
      DeadIsSilent(Do(s, events[0]), events[1..], id);
    }
  }

  /** Main result: once cancel(id) has returned true, no execution of id begins and no later
      cancel(id) returns true, whatever happens afterwards. */
  lemma CancelIsFinal(before: seq<Event>, id: nat, later: seq<Event>)
    requires Exec(INIT, before).After?
    requires CancelSucceeds(Exec(INIT, before).state, Event.Cancel(id), id)
    ensures Silent(Do(Exec(INIT, before).state, Event.Cancel(id)), later, id)
  {
    InitKeepsInv();
    RunKeepsInv(INIT, before);
    var s := Exec(INIT, before).state;
    assert IdInv(s, id);
    EventKeepsInv(s, Event.Cancel(id));
    DeadIsSilent(Do(s, Event.Cancel(id)), later, id);
  }

  /** Main result: a one-shot timer's callback starts at most once in any run. */
  lemma OneShotStartsOnce(before: seq<Event>, e: Event, id: nat, later: seq<Event>)
    requires Exec(INIT, before).After?
    requires Enabled(Exec(INIT, before).state, e) && Begins(Exec(INIT, before).state, e, id)
    requires id in Exec(INIT, before).state.kinds && !Exec(INIT, before).state.kinds[id].repeated
    ensures NeverBegins(Do(Exec(INIT, before).state, e), later, id)
  {
    InitKeepsInv();
    RunKeepsInv(INIT, before);
    var s := Exec(INIT, before).state;
    EventKeepsInv(s, e);
    assert TokenInv(s, e.token) && IdInv(s, id);
    SpentNeverBegins(Do(s, e), later, id);
  }

  predicate NeverBegins(s: State, events: seq<Event>, id: nat)
    decreases |events|
  {
    events == [] || !Enabled(s, events[0]) ||
    (!Begins(s, events[0], id) && NeverBegins(Do(s, events[0]), events[1..], id))
  }

  /** A one-shot timer whose callback has been started. */
  predicate Spent(s: State, id: nat) {
    && 0 < id < s.shared.nextId
    && id in s.kinds && !s.kinds[id].repeated
    && (id in s.shared.states ==> s.shared.states[id] in {Table.Executing, Table.Cancelled})
  }

  lemma SpentStaysSpent(s: State, e: Event, id: nat)
    requires Inv(s) && Enabled(s, e) && Spent(s, id)
    ensures Spent(Do(s, e), id) && !Begins(s, e, id)
  {
    if e.WakeInterrupted? || e.WakeTimedOut? {
      SpentThroughLoops(s, e, id);
      hide Do, Inv;
    } else if e.BeginWrapper? || e.EndWrapper? {
      SpentThroughWrappers(s, e, id);
      hide Do, Inv;
    } else {
      SpentThroughRest(s, e, id);
      hide Do, Inv;
    }
  }

  lemma SpentThroughRest(s: State, e: Event, id: nat)
    requires Enabled(s, e) && Spent(s, id)
    requires !e.WakeInterrupted? && !e.WakeTimedOut? && !e.BeginWrapper? && !e.EndWrapper?
    ensures Spent(Do(s, e), id)
  {
    hide Insert, HasId, Sorted, Distinct, WaitOver, TopDue, AfterPurge, AfterBatch;
  }

  lemma SpentThroughLoops(s: State, e: Event, id: nat)
    requires Inv(s) && Enabled(s, e) && Spent(s, id) && (e.WakeInterrupted? || e.WakeTimedOut?)
    ensures Spent(Do(s, e), id)
  {
    InvHeapOk(s);
    if e.WakeInterrupted? {
      PurgeFate(s.shared, id);
    } else if TopDue(s.shared, e.now) {
      BatchFate(s.shared, e.now, id);
      BatchTakesDueLive(s.shared, e.now);
      DueLiveSorted(s.shared.tasks, s.shared.states, e.now);
    }
  }

  lemma SpentThroughWrappers(s: State, e: Event, id: nat)
    requires Inv(s) && Enabled(s, e) && Spent(s, id) && (e.BeginWrapper? || e.EndWrapper?)
    ensures Spent(Do(s, e), id) && !Begins(s, e, id)
  {
    hide Purge, Batch, Insert, HasId, Sorted, Distinct, WaitOver, TopDue, CancelPending;
    assert TokenInv(s, e.token);
  }

  lemma {:induction false} SpentNeverBegins(s: State, events: seq<Event>, id: nat)
    requires Inv(s) && Spent(s, id)
    ensures NeverBegins(s, events, id)
    decreases |events|
  {
    if events != [] && Enabled(s, events[0]) {
      SpentStaysSpent(s, events[0], id);
      EventKeepsInv(s, events[0]);
      SpentNeverBegins(Do(s, events[0]), events[1..], id);
    }
  }

  /** Main result: when stop(), called outside a callback, returns, nothing of any timer is left, and
      no callback ever starts again. For wait() the second half holds as well. */
  lemma StopIsFinal(before: seq<Event>, caller: nat, later: seq<Event>, id: nat)
    requires Exec(INIT, before).After?
    requires Enabled(Exec(INIT, before).state, Finalize(caller))
    ensures var s := Exec(INIT, before).state;
            var s' := Do(s, Finalize(caller));
            && s'.shared.tasks == [] && s'.tokens == map[] && s'.shared.states == map[]
            && (s.callers[caller] == Joined(true) ==>
                  BatchOf(s'.worker) == [] && (s'.worker.NotStarted? || s'.worker.Exited?))
            && NeverBegins(s', later, id)
  {
    InitKeepsInv();
    RunKeepsInv(INIT, before);
    var s := Exec(INIT, before).state;
    EventKeepsInv(s, Finalize(caller));
    assert CallerInv(s, caller);
    StoppedNeverBegins(Do(s, Finalize(caller)), later, id);
  }

  lemma {:induction false} StoppedNeverBegins(s: State, events: seq<Event>, id: nat)
    requires Inv(s) && s.shared.phase.Stopped?
    ensures NeverBegins(s, events, id)
    decreases |events|
  {
    if events != [] && Enabled(s, events[0]) {
      EventKeepsInv(s, events[0]);
      StoppedStays(s, events[0]);
      StoppedNeverBegins(Do(s, events[0]), events[1..], id);
    }
  }

  lemma StoppedStays(s: State, e: Event)
    requires Inv(s) && Enabled(s, e) && s.shared.phase.Stopped?
    ensures Do(s, e).shared.phase.Stopped?
    ensures !e.BeginWrapper?
  {
    if e.WakeInterrupted? {
      InvHeapOk(s);
      PurgeFate(s.shared, 0);
    }
    assert PhaseInv(s);
    hide Inv, Purge, Insert, HasId, Sorted, Distinct, WaitOver, HeapOk, CancelPending;
  }

  /** The worker never spins with the mutex held: right after an interrupted wait and its purge loop,
      the wait it goes back to does block, unless there is nothing to wait for. */
  lemma WorkerDoesNotSpin(s: State)
    requires Inv(s) && Enabled(s, WakeInterrupted)
    ensures var s' := Do(Do(s, WakeInterrupted), WorkerLook);
            s'.worker.Waiting? ==> !Enabled(s', WakeInterrupted)
  {
    InvHeapOk(s);
    PurgeEndsSpinning(s.shared);
  }

  /** Every batch of a run is exactly the due live timers in (expiration, id) order: nothing early
      joins it and nothing live and due stays behind. */
  lemma BatchesAreExact(s: State, now: int)
    requires Inv(s) && Enabled(s, WakeTimedOut(now)) && TopDue(s.shared, now)
    ensures var s' := Do(s, WakeTimedOut(now));
            && Sorted(BatchOf(s'.worker))
            && (forall x :: x in BatchOf(s'.worker) <==>
                  x in s.shared.tasks && x.expiration <= now && x.id in s.shared.states && s.shared.states[x.id] == Pending)
            && (forall x :: x in s'.shared.tasks <==> x in s.shared.tasks && x.expiration > now)
  {
    InvHeapOk(s);
    BatchTakesDueLive(s.shared, now);
    DueLiveSorted(s.shared.tasks, s.shared.states, now);
  }

  /** The callback that starts is the one the id was scheduled with, and no other execution of the id
      is under way. */
  lemma RunsItsOwnCallback(s: State, e: Event, id: nat)
    requires Inv(s) && Enabled(s, e) && Begins(s, e, id)
    ensures id in s.kinds && s.kinds[id].callback == s.tokens[e.token].task.callback
    ensures forall k: nat :: Carries(s, k, id) ==> k == e.token
  {
    assert TokenInv(s, e.token);
    InvIsExclusive(s);
    assert Carries(s, e.token, id);
  }

  // ---------------------------------------------------------------- nothing runs early

  /** The latest time at which the worker found its wait timed out. */
  function Latest(events: seq<Event>, sofar: Option<int>): Option<int>
    decreases |events|
  {
    if events == [] then sofar else Latest(events[1..], LatestAfter(events[0], sofar))
  }

  function LatestAfter(e: Event, sofar: Option<int>): Option<int> {
    if e.WakeTimedOut? && (sofar.None? || sofar.value < e.now) then Some(e.now) else sofar
  }

  predicate Reached(latest: Option<int>, expiration: int) {
    latest.Some? && expiration <= latest.value
  }

  /** Everything on its way to the executor was due when it was taken. */
  ghost predicate Ripe(s: State, latest: Option<int>) {
    && (forall i :: 0 <= i < |BatchOf(s.worker)| ==> Reached(latest, BatchOf(s.worker)[i].expiration))
    && (forall k :: k in s.tokens ==> Reached(latest, s.tokens[k].task.expiration))
  }

  lemma BatchIsRipe(s: State, e: Event, latest: Option<int>)
    requires Inv(s) && Enabled(s, e) && Ripe(s, latest) && e.WakeTimedOut?
    ensures Ripe(Do(s, e), LatestAfter(e, latest))
  {
    if TopDue(s.shared, e.now) {
      InvHeapOk(s);
      BatchTakesDueLive(s.shared, e.now);
      DueLiveSorted(s.shared.tasks, s.shared.states, e.now);
      var ready := Batch(s.shared, e.now).1;
      forall i | 0 <= i < |ready| ensures ready[i].expiration <= e.now {
        assert ready[i] in ready;
      }
    }
    hide Inv, Batch, HasId;
  }

  lemma SubmissionIsRipe(s: State, e: Event, latest: Option<int>)
    requires Enabled(s, e) && Ripe(s, latest) && e.SubmitNext?
    ensures Ripe(Do(s, e), latest)
  {
    assert Reached(latest, BatchOf(s.worker)[0].expiration);
    forall i | 0 <= i < |s.worker.ready| - 1 ensures Reached(latest, s.worker.ready[1..][i].expiration) {
      assert s.worker.ready[1..][i] == BatchOf(s.worker)[i + 1];
    }
    hide Reached, SubmitCheck;
  }

  lemma RestTakesNothingUp(s: State, e: Event)
    requires Enabled(s, e) && !e.WakeTimedOut? && !e.SubmitNext?
    ensures BatchOf(Do(s, e).worker) == [] || BatchOf(Do(s, e).worker) == BatchOf(s.worker)
  {
    hide Purge, Insert, HasId, Sorted, Distinct, WaitOver, TopDue, CancelPending, AfterBatch;
  }

  lemma RestMakesNoToken(s: State, e: Event)
    requires Enabled(s, e) && !e.WakeTimedOut? && !e.SubmitNext?
    ensures forall k :: k in Do(s, e).tokens ==> k in s.tokens && Do(s, e).tokens[k].task == s.tokens[k].task
  {
    hide Purge, Insert, HasId, Sorted, Distinct, WaitOver, TopDue, CancelPending, AfterBatch;
  }

  lemma RestIsRipe(s: State, e: Event, latest: Option<int>)
    requires Enabled(s, e) && Ripe(s, latest) && !e.WakeTimedOut? && !e.SubmitNext?
    ensures Ripe(Do(s, e), latest)
  {
    RestTakesNothingUp(s, e);
    RestMakesNoToken(s, e);
    hide Do, BatchOf, Reached;
  }

  lemma {:induction false} RunIsRipe(s: State, events: seq<Event>, latest: Option<int>)
    requires Inv(s) && Ripe(s, latest) && Exec(s, events).After?
    ensures Ripe(Exec(s, events).state, Latest(events, latest))
    decreases |events|
  {
    if events != [] {
      var e := events[0];
      if e.WakeTimedOut? {
        BatchIsRipe(s, e, latest);
      } else if e.SubmitNext? {
        SubmissionIsRipe(s, e, latest);
      } else {
        RestIsRipe(s, e, latest);
      }
      EventKeepsInv(s, e);
      hide Inv, Do, Ripe;
      RunIsRipe(Do(s, e), events[1..], LatestAfter(e, latest));
    }
  }

  /** Main result: no callback starts before its time. When one starts, the worker has seen a time not
      before its expiration, and for a one-shot timer that is the time it was scheduled for. */
  lemma NothingStartsEarly(before: seq<Event>, e: Event, id: nat)
    requires Exec(INIT, before).After?
    requires Enabled(Exec(INIT, before).state, e) && Begins(Exec(INIT, before).state, e, id)
    ensures var s := Exec(INIT, before).state;
      && Reached(Latest(before, None), s.tokens[e.token].task.expiration)
      && id in s.kinds && (!s.kinds[id].repeated ==> Reached(Latest(before, None), s.kinds[id].due))
  {
    InitKeepsInv();
    RunIsRipe(INIT, before, None);
    RunKeepsInv(INIT, before);
    var s := Exec(INIT, before).state;
    assert TokenInv(s, e.token);
    assert KindOk(s, s.tokens[e.token].task);
    hide Exec, Latest, Reached, Inv;
  }
}
