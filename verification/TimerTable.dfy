/**
 The state the timer scheduler keeps under its mutex, and what each lock region does to it.

 The heap is kept as the sequence of its nodes in (expiration, id) order: node 0 is the top.
 Callbacks are named by numbers; ids are unbounded naturals.
 */
module TimerTable {
  import opened Basics

  datatype TimerState = Pending | Submitted | Executing | Cancelled
  datatype Phase = Created | Running | Stopping | Stopped
  datatype TimerTask = TimerTask(id: nat, expiration: int, interval: int, repeated: bool, callback: nat)
  datatype ScheduleResult = Scheduled(id: nat) | InvalidDelay | EmptyCallback | NotRunning

  datatype Shared = Shared(
    tasks: seq<TimerTask>,
    states: map<nat, TimerState>,
    phase: Phase,
    nextId: nat,
    inFlight: nat)

  const EMPTY_TABLE := Shared([], map[], Created, 1, 0)

  // ---------------------------------------------------------------- the heap

  predicate Before(a: TimerTask, b: TimerTask) {
    a.expiration < b.expiration || (a.expiration == b.expiration && a.id < b.id)
  }

  function Insert(tasks: seq<TimerTask>, t: TimerTask): seq<TimerTask> {
    if tasks == [] || Before(t, tasks[0]) then [t] + tasks
    else [tasks[0]] + Insert(tasks[1..], t)
  }

  predicate Sorted(tasks: seq<TimerTask>) {
    forall i, j :: 0 <= i < j < |tasks| ==> !Before(tasks[j], tasks[i])
  }

  predicate Distinct(tasks: seq<TimerTask>) {
    forall i, j :: 0 <= i < j < |tasks| ==> tasks[i].id != tasks[j].id
  }

  predicate HasId(tasks: seq<TimerTask>, id: nat) {
    exists i :: 0 <= i < |tasks| && tasks[i].id == id
  }

  lemma {:induction false} InsertContents(tasks: seq<TimerTask>, t: TimerTask)
    ensures multiset(Insert(tasks, t)) == multiset(tasks) + multiset{t}
    ensures forall x :: x in Insert(tasks, t) <==> x == t || x in tasks
  {
    if tasks != [] && !Before(t, tasks[0]) {
      InsertContents(tasks[1..], t);
      assert tasks == [tasks[0]] + tasks[1..];
    }
  }

  /** Every node of the heap after an insertion is the new one or an old one. */
  lemma {:induction false} InsertOrigin(tasks: seq<TimerTask>, t: TimerTask, i: nat) returns (j: nat)
    requires i < |Insert(tasks, t)|
    ensures Insert(tasks, t)[i] == t || (j < |tasks| && Insert(tasks, t)[i] == tasks[j])
  {
    j := i;
    if tasks == [] || Before(t, tasks[0]) {
      if i > 0 {
        j := i - 1;
      }
    } else if i > 0 {
      j := InsertOrigin(tasks[1..], t, i - 1);
      j := j + 1;
    }
  }

  lemma {:induction false} InsertSorted(tasks: seq<TimerTask>, t: TimerTask)
    requires Sorted(tasks)
    ensures Sorted(Insert(tasks, t))
  {
    if tasks != [] && !Before(t, tasks[0]) {
      InsertSorted(tasks[1..], t);
      var rest := Insert(tasks[1..], t);
      InsertContents(tasks[1..], t);
      forall j | 0 <= j < |rest| ensures !Before(rest[j], tasks[0]) {
        assert rest[j] in rest;
        if rest[j] != t {
          var k :| 0 <= k < |tasks[1..]| && tasks[1..][k] == rest[j];
          assert tasks[k + 1] == rest[j];
        }
      }
    }
  }

  lemma {:induction false} InsertDistinct(tasks: seq<TimerTask>, t: TimerTask)
    requires Distinct(tasks) && !HasId(tasks, t.id)
    ensures Distinct(Insert(tasks, t))
    ensures HasId(Insert(tasks, t), t.id)
    ensures forall id :: HasId(tasks, id) ==> HasId(Insert(tasks, t), id)
  {
    if tasks == [] || Before(t, tasks[0]) {
      var inserted := [t] + tasks;
      assert inserted[0].id == t.id;
      forall id | HasId(tasks, id) ensures HasId(inserted, id) {
        var i :| 0 <= i < |tasks| && tasks[i].id == id;
        assert inserted[i + 1].id == id;
      }
    } else {
      assert forall i :: 0 <= i < |tasks[1..]| ==> tasks[1..][i] == tasks[i + 1];
      InsertDistinct(tasks[1..], t);
      InsertContents(tasks[1..], t);
      var rest := Insert(tasks[1..], t);
      var inserted := [tasks[0]] + rest;
      forall j | 0 <= j < |rest| ensures rest[j].id != tasks[0].id {
        assert rest[j] in rest;
      }
      forall id | HasId(tasks, id) || id == t.id ensures HasId(inserted, id) {
        if id == tasks[0].id {
          assert inserted[0].id == id;
        } else {
          if id != t.id {
            var i :| 0 <= i < |tasks| && tasks[i].id == id;
            assert tasks[1..][i - 1].id == id;
            assert HasId(tasks[1..], id);
          }
          assert HasId(rest, id);
          var i :| 0 <= i < |rest| && rest[i].id == id;
          assert inserted[i + 1].id == id;
        }
      }
    }
  }

  // ---------------------------------------------------------------- lock regions

  /** start(); false stands for the exception the source throws. */
  function Start(s: Shared): (Shared, bool) {
    if s.phase != Created then (s, false) else (s.(phase := Running), true)
  }

  function CancelPending(states: map<nat, TimerState>): (r: map<nat, TimerState>) {
    map id | id in states :: if states[id] == Pending then Cancelled else states[id]
  }

  function RequestStop(s: Shared): Shared {
    match s.phase
    case Created => s.(phase := Stopped)
    case Running => s.(phase := Stopping, states := CancelPending(s.states))
    case _ => s
  }

  /** The last lock region of stop() and wait(), entered when nothing is in flight. */
  function Finalize(s: Shared): Shared {
    s.(tasks := [], states := map[], phase := Stopped)
  }

  function AddTimer(s: Shared, expiration: int, interval: int, repeated: bool, callback: nat)
    : (Shared, ScheduleResult)
  {
    if s.phase != Running then (s, NotRunning)
    else (s.(tasks := Insert(s.tasks, TimerTask(s.nextId, expiration, interval, repeated, callback)),
             states := s.states[s.nextId := Pending],
             nextId := s.nextId + 1),
          Scheduled(s.nextId))
  }

  function ScheduleAfter(s: Shared, now: int, delay: int, callback: Option<nat>): (Shared, ScheduleResult) {
    if delay < 0 then (s, InvalidDelay)
    else if callback.None? then (s, EmptyCallback)
    else AddTimer(s, now + delay, 0, false, callback.value)
  }

  function ScheduleEvery(s: Shared, now: int, interval: int, callback: Option<nat>): (Shared, ScheduleResult) {
    if interval <= 0 then (s, InvalidDelay)
    else if callback.None? then (s, EmptyCallback)
    else AddTimer(s, now + interval, interval, true, callback.value)
  }

  function Cancel(s: Shared, id: nat): (Shared, bool) {
    if id !in s.states || s.states[id] == Cancelled then (s, false)
    else (s.(states := s.states[id := Cancelled]), true)
  }

  function FinishInFlight(s: Shared): Shared {
    if s.inFlight > 0 then s.(inFlight := s.inFlight - 1) else s
  }

  /** The predicate the worker waits with, for the top it saw before waiting. */
  predicate WaitOver(s: Shared, waitingId: nat, expiration: int) {
    || s.phase != Running
    || s.tasks == []
    || s.tasks[0].id != waitingId
    || s.tasks[0].expiration < expiration
    || waitingId !in s.states
    || s.states[waitingId] == Cancelled
  }

  predicate TopCancelled(s: Shared) {
    s.tasks != [] && s.tasks[0].id in s.states && s.states[s.tasks[0].id] == Cancelled
  }

  function DropTop(s: Shared): Shared
    requires s.tasks != []
  {
    s.(tasks := s.tasks[1..], states := s.states - {s.tasks[0].id})
  }

  function Purge(s: Shared): Shared
    decreases |s.tasks|
  {
    if TopCancelled(s) then Purge(DropTop(s)) else s
  }

  predicate TopDue(s: Shared, now: int) {
    s.tasks != [] && s.tasks[0].expiration <= now
  }

  /** One turn of the batch loop: the top leaves the heap, and joins the batch if it is live. */
  function BatchOne(s: Shared): (Shared, seq<TimerTask>)
    requires s.tasks != []
  {
    var top := s.tasks[0];
    if top.id !in s.states then (s.(tasks := s.tasks[1..]), [])
    else if s.states[top.id] == Cancelled then (DropTop(s), [])
    else if s.states[top.id] != Pending then (s.(tasks := s.tasks[1..]), [])
    else (s.(tasks := s.tasks[1..], states := s.states[top.id := Submitted]), [top])
  }

  function Batch(s: Shared, now: int): (Shared, seq<TimerTask>)
    decreases |s.tasks|
  {
    if !TopDue(s, now) then (s, [])
    else
      var (s1, first) := BatchOne(s);
      var (s2, rest) := Batch(s1, now);
      (s2, first + rest)
  }

  /** The check just before a ready task is handed to the pool; true means go ahead. */
  function SubmitCheck(s: Shared, id: nat): (Shared, bool) {
    if id !in s.states || s.states[id] == Cancelled || s.phase != Running then
      (s.(states := s.states - {id}), false)
    else if s.states[id] != Submitted then (s, false)
    else (s.(inFlight := s.inFlight + 1), true)
  }

  function Erase(s: Shared, id: nat): Shared {
    s.(states := s.states - {id})
  }

  /** The first lock region of the wrapper; true means the callback runs. */
  function BeginCallback(s: Shared, id: nat): (Shared, bool) {
    if id !in s.states then (s, false)
    else if s.states[id] == Cancelled then (Erase(s, id), false)
    else if s.states[id] != Submitted then (s, false)
    else (s.(states := s.states[id := Executing]), true)
  }

  /** The second lock region of the wrapper, after the callback returned or threw. */
  function EndCallback(s: Shared, task: TimerTask, now: int): Shared {
    if task.id !in s.states then s
    else if s.states[task.id] != Executing then Erase(s, task.id)
    else if task.repeated && s.phase == Running then
      s.(states := s.states[task.id := Pending],
         tasks := Insert(s.tasks, task.(expiration := now + task.interval)))
    else Erase(s, task.id)
  }

  // ------------------------------------------------ what the purge and batch loops achieve

  /** The heap's nodes are in order, one per id, and each is pending or cancelled. */
  predicate HeapOk(s: Shared) {
    && Sorted(s.tasks)
    && Distinct(s.tasks)
    && (forall i :: 0 <= i < |s.tasks| ==>
          s.tasks[i].id in s.states && s.states[s.tasks[i].id] in {Pending, Cancelled})
  }

  lemma DropTopKeepsHeap(s: Shared)
    requires HeapOk(s) && s.tasks != []
    ensures HeapOk(DropTop(s)) && HeapOk(BatchOne(s).0)
  {
  }

  /** After the purge loop the wait predicate is false for the new top: the worker cannot go round
      the loop again without releasing the mutex. */
  lemma {:induction false} PurgeEndsSpinning(s: Shared)
    requires HeapOk(s)
    ensures var p := Purge(s);
            HeapOk(p) &&
            (p.phase == Running && p.tasks != [] ==> !WaitOver(p, p.tasks[0].id, p.tasks[0].expiration))
    decreases |s.tasks|
  {
    if TopCancelled(s) {
      DropTopKeepsHeap(s);
      PurgeEndsSpinning(DropTop(s));
    }
  }

  lemma IdsWithTop(tasks: seq<TimerTask>, n: nat, id: nat)
    requires 1 <= n <= |tasks|
    ensures HasId(tasks[..n], id) <==> id == tasks[0].id || HasId(tasks[1..][..n - 1], id)
  {
    var rest := tasks[1..][..n - 1];
    if HasId(rest, id) {
      var i :| 0 <= i < n - 1 && rest[i].id == id;
      assert tasks[..n][i + 1].id == id;
    }
    if HasId(tasks[..n], id) && id != tasks[0].id {
      var i :| 0 <= i < n && tasks[..n][i].id == id;
      assert rest[i - 1].id == id;
    }
    assert tasks[..n][0].id == tasks[0].id;
  }

  /** The purge loop removes only cancelled timers, and exactly a first stretch of them. */
  lemma {:induction false} PurgeRemovesCancelled(s: Shared) returns (n: nat)
    requires HeapOk(s)
    ensures n <= |s.tasks|
    ensures Purge(s).tasks == s.tasks[n..]
    ensures forall i :: 0 <= i < n ==> s.states[s.tasks[i].id] == Cancelled
    ensures forall id :: id in Purge(s).states <==> id in s.states && !HasId(s.tasks[..n], id)
    ensures forall id :: id in Purge(s).states ==> Purge(s).states[id] == s.states[id]
    decreases |s.tasks|
  {
    n := 0;
    if TopCancelled(s) {
      DropTopKeepsHeap(s);
      var s1 := DropTop(s);
      var k := PurgeRemovesCancelled(s1);
      n := k + 1;
      forall id ensures HasId(s.tasks[..n], id) <==> id == s.tasks[0].id || HasId(s1.tasks[..k], id) {
        IdsWithTop(s.tasks, n, id);
      }
      forall i | 0 <= i < n ensures s.states[s.tasks[i].id] == Cancelled {
        if i > 0 {
          assert s1.tasks[i - 1] == s.tasks[i];
        }
      }
    }
  }

  /** The live timers that are due, in heap order. */
  function DueLive(tasks: seq<TimerTask>, states: map<nat, TimerState>, now: int): (r: seq<TimerTask>)
  {
    if tasks == [] then []
    else (if tasks[0].expiration <= now && tasks[0].id in states && states[tasks[0].id] == Pending
          then [tasks[0]] else [])
         + DueLive(tasks[1..], states, now)
  }

  lemma {:induction false} NothingDue(tasks: seq<TimerTask>, states: map<nat, TimerState>, now: int)
    requires forall i :: 0 <= i < |tasks| ==> tasks[i].expiration > now
    ensures DueLive(tasks, states, now) == []
  {
    if tasks != [] {
      NothingDue(tasks[1..], states, now);
    }
  }

  lemma {:induction false} DueLiveDependsOnItsIds(
    tasks: seq<TimerTask>, s1: map<nat, TimerState>, s2: map<nat, TimerState>, now: int)
    requires forall i :: 0 <= i < |tasks| ==>
               tasks[i].id in s1 && tasks[i].id in s2 && s1[tasks[i].id] == s2[tasks[i].id]
    ensures DueLive(tasks, s1, now) == DueLive(tasks, s2, now)
  {
    if tasks != [] {
      DueLiveDependsOnItsIds(tasks[1..], s1, s2, now);
    }
  }

  lemma TopIsFirst(s: Shared, now: int)
    requires HeapOk(s) && !TopDue(s, now)
    ensures forall i :: 0 <= i < |s.tasks| ==> s.tasks[i].expiration > now
  {
    forall i | 0 <= i < |s.tasks| ensures s.tasks[i].expiration > now {
      assert i > 0 ==> !Before(s.tasks[i], s.tasks[0]);
    }
  }

  /** The batch is exactly the live timers that are due, in (expiration, id) order; nothing due stays
      in the heap, and nothing that is not due leaves it. */
  lemma {:induction false} BatchTakesDueLive(s: Shared, now: int)
    requires HeapOk(s)
    ensures var (s', ready) := Batch(s, now);
      && ready == DueLive(s.tasks, s.states, now)
      && HeapOk(s')
      && (forall i :: 0 <= i < |s'.tasks| ==> s'.tasks[i].expiration > now)
      && (forall x :: x in s'.tasks <==> x in s.tasks && x.expiration > now)
      && (forall x :: x in ready ==> x.id in s'.states && s'.states[x.id] == Submitted)
    decreases |s.tasks|
  {
    var (s', ready) := Batch(s, now);
    if TopDue(s, now) {
      var top := s.tasks[0];
      var (s1, first) := BatchOne(s);
      DropTopKeepsHeap(s);
      BatchTakesDueLive(s1, now);
      DueLiveDependsOnItsIds(s1.tasks, s.states, s1.states, now);
      assert s.tasks == [top] + s1.tasks;
      BatchLeavesOthers(s1, now, top.id);
    } else {
      TopIsFirst(s, now);
      NothingDue(s.tasks, s.states, now);
    }
  }

  lemma {:induction false} BatchLeavesOthers(s: Shared, now: int, id: nat)
    requires !HasId(s.tasks, id)
    ensures (id in Batch(s, now).0.states) == (id in s.states)
    ensures id in s.states ==> Batch(s, now).0.states[id] == s.states[id]
    decreases |s.tasks|
  {
    if TopDue(s, now) {
      assert s.tasks[0].id != id;
      var s1 := BatchOne(s).0;
      assert forall i :: 0 <= i < |s1.tasks| ==> s1.tasks[i] == s.tasks[i + 1];
      BatchLeavesOthers(s1, now, id);
    }
  }

  /** A batch is in (expiration, id) order. */
  lemma {:induction false} DueLiveSorted(tasks: seq<TimerTask>, states: map<nat, TimerState>, now: int)
    requires Sorted(tasks)
    ensures Sorted(DueLive(tasks, states, now))
    ensures forall x :: x in DueLive(tasks, states, now) <==>
              x in tasks && x.expiration <= now && x.id in states && states[x.id] == Pending
  {
    if tasks != [] {
      DueLiveSorted(tasks[1..], states, now);
      var rest := DueLive(tasks[1..], states, now);
      assert tasks == [tasks[0]] + tasks[1..];
      forall j | 0 <= j < |rest| ensures !Before(rest[j], tasks[0]) {
        assert rest[j] in rest;
        var k :| 0 <= k < |tasks[1..]| && tasks[1..][k] == rest[j];
        assert tasks[k + 1] == rest[j];
      }
    }
  }

  /** One turn of the batch loop. */
  lemma BatchStep(s: Shared, now: int, taken: seq<TimerTask>)
    ensures !TopDue(s, now) ==> Batch(s, now) == (s, [])
    ensures TopDue(s, now) ==>
              var (next, first) := BatchOne(s);
              taken + Batch(s, now).1 == (taken + first) + Batch(next, now).1 && Batch(s, now).0 == Batch(next, now).0
  {
  }
}
