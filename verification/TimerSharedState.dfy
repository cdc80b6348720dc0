/** The timer scheduler's record behind its mutex, updated in place, one method per lock region. */
module TimerSharedState {
  import opened Basics
  import opened TimerTable
  import Table = TimerTable

  /** The record behind the mutex; each method is one lock region. */
  class SharedState {
    var tasks: seq<TimerTask>
    var states: map<nat, TimerState>
    var phase: Phase
    var nextId: nat
    var inFlight: nat

    ghost function Value(): Shared
      reads this
    {
      Shared(tasks, states, phase, nextId, inFlight)
    }

    constructor ()
      ensures Value() == EMPTY_TABLE
    {
      tasks, states, phase, nextId, inFlight := [], map[], Created, 1, 0;
    }

    /** False where the source throws: the scheduler was started or stopped before. */
    method Start() returns (started: bool)
      modifies this
      ensures (Value(), started) == Table.Start(old(Value()))
    {
      if phase != Created {
        return false;
      }
      phase := Running;
      return true;
    }

    method RequestStop()
      modifies this
      ensures Value() == Table.RequestStop(old(Value()))
    {
      if phase == Created {
        phase := Stopped;
      } else if phase == Running {
        phase := Stopping;
        var before := states;
        var todo := states.Keys;
        while todo != {}
          invariant todo <= states.Keys == before.Keys
          invariant forall id :: id in before ==>
                      states[id] == if id !in todo && before[id] == Pending then Cancelled else before[id]
          invariant unchanged(`tasks) && unchanged(`nextId) && unchanged(`inFlight) && phase == Stopping
          decreases todo
        {
          var id :| id in todo;
          if states[id] == Pending {
            states := states[id := Cancelled];
          }
          todo := todo - {id};
        }
        assert states == CancelPending(before);
      }
    }

    method ScheduleAfter(now: int, delay: int, callback: Option<nat>) returns (r: ScheduleResult, wakeUp: bool)
      modifies this
      ensures (Value(), r) == Table.ScheduleAfter(old(Value()), now, delay, callback)
      ensures wakeUp <==> r.Scheduled? && (old(tasks) == [] || now + delay < old(tasks)[0].expiration)
    {
      wakeUp := false;
      if delay < 0 {
        r := InvalidDelay;
      } else if callback.None? {
        r := EmptyCallback;
      } else {
        r, wakeUp := Add(now + delay, 0, false, callback.value);
      }
    }

    method ScheduleEvery(now: int, interval: int, callback: Option<nat>) returns (r: ScheduleResult, wakeUp: bool)
      modifies this
      ensures (Value(), r) == Table.ScheduleEvery(old(Value()), now, interval, callback)
      ensures wakeUp <==> r.Scheduled? && (old(tasks) == [] || now + interval < old(tasks)[0].expiration)
    {
      wakeUp := false;
      if interval <= 0 {
        r := InvalidDelay;
      } else if callback.None? {
        r := EmptyCallback;
      } else {
        r, wakeUp := Add(now + interval, interval, true, callback.value);
      }
    }

    method Add(expiration: int, interval: int, repeated: bool, callback: nat)
      returns (r: ScheduleResult, wakeUp: bool)
      modifies this
      ensures (Value(), r) == AddTimer(old(Value()), expiration, interval, repeated, callback)
      ensures wakeUp <==> r.Scheduled? && (old(tasks) == [] || expiration < old(tasks)[0].expiration)
    {
      if phase != Running {
        return NotRunning, false;
      }
      var id := nextId;
      nextId := nextId + 1;
      wakeUp := tasks == [] || expiration < tasks[0].expiration;
      states := states[id := Pending];
      tasks := Insert(tasks, TimerTask(id, expiration, interval, repeated, callback));
      r := Scheduled(id);
    }

    method Cancel(id: nat) returns (cancelled: bool, wakeUp: bool)
      modifies this
      ensures (Value(), cancelled) == Table.Cancel(old(Value()), id)
      ensures wakeUp <==> cancelled && tasks != [] && tasks[0].id == id
    {
      if id !in states || states[id] == Cancelled {
        return false, false;
      }
      states := states[id := Cancelled];
      return true, tasks != [] && tasks[0].id == id;
    }

    /** The worker's inner loop after an interrupted wait. */
    method PurgeCancelled()
      modifies this
      ensures Value() == Purge(old(Value()))
    {
      while tasks != []
        invariant Purge(Value()) == Purge(old(Value()))
        decreases |tasks|
      {
        var topId := tasks[0].id;
        if topId !in states || states[topId] != Cancelled {
          break;
        }
        tasks, states := tasks[1..], states - {topId};
      }
    }

    /** The worker's loop that moves the due timers into the batch. */
    method TakeDue(now: int) returns (ready: seq<TimerTask>)
      modifies this
      ensures (Value(), ready) == Batch(old(Value()), now)
    {
      ready := [];
      hide Batch;
      assert [] + Batch(Value(), now).1 == Batch(Value(), now).1;
      while tasks != [] && tasks[0].expiration <= now
        invariant Batch(old(Value()), now) == (Batch(Value(), now).0, ready + Batch(Value(), now).1)
        decreases |tasks|
      {
        ghost var before, taken := Value(), ready;
        BatchStep(before, now, taken);
        var top := tasks[0];
        if top.id !in states {
          tasks := tasks[1..];
        } else if states[top.id] == Cancelled {
          tasks, states := tasks[1..], states - {top.id};
        } else if states[top.id] != Pending {
          tasks := tasks[1..];
        } else {
          states := states[top.id := Submitted];
          ready := ready + [top];
          tasks := tasks[1..];
        }
        assert Value() == BatchOne(before).0 && ready == taken + BatchOne(before).1;
      }
      BatchStep(Value(), now, ready);
      assert ready + [] == ready;
    }

    method SubmitCheck(id: nat) returns (proceed: bool)
      modifies this
      ensures (Value(), proceed) == Table.SubmitCheck(old(Value()), id)
    {
      if id !in states || states[id] == Cancelled || phase != Running {
        states := states - {id};
        return false;
      }
      if states[id] != Submitted {
        return false;
      }
      inFlight := inFlight + 1;
      return true;
    }

    /** The pool rejected the wrapper of this timer. */
    method Erase(id: nat)
      modifies this
      ensures Value() == Table.Erase(old(Value()), id)
    {
      states := states - {id};
    }

    method BeginCallback(id: nat) returns (run: bool)
      modifies this
      ensures (Value(), run) == Table.BeginCallback(old(Value()), id)
    {
      if id !in states {
        return false;
      }
      if states[id] == Cancelled {
        states := states - {id};
        return false;
      }
      if states[id] != Submitted {
        return false;
      }
      states := states[id := Executing];
      return true;
    }

    method EndCallback(task: TimerTask, now: int) returns (wakeUp: bool)
      modifies this
      ensures Value() == Table.EndCallback(old(Value()), task, now)
      ensures wakeUp <==>
              (|tasks| > old(|tasks|) && (old(tasks) == [] || now + task.interval < old(tasks)[0].expiration))
    {
      InsertContents(tasks, task.(expiration := now + task.interval));
      assert |Insert(tasks, task.(expiration := now + task.interval))| == |tasks| + 1 by {
        assert |multiset(Insert(tasks, task.(expiration := now + task.interval)))| == |multiset(tasks)| + 1;
      }
      wakeUp := false;
      if task.id !in states {
        return;
      }
      if states[task.id] != Executing {
        states := states - {task.id};
        return;
      }
      if task.repeated && phase == Running {
        wakeUp := tasks == [] || now + task.interval < tasks[0].expiration;
        states := states[task.id := Pending];
        tasks := Insert(tasks, task.(expiration := now + task.interval));
      } else {
        states := states - {task.id};
      }
    }

    method FinishInFlight() returns (finished: bool)
      modifies this
      ensures Value() == Table.FinishInFlight(old(Value()))
      ensures finished == (inFlight == 0)
    {
      if inFlight > 0 {
        inFlight := inFlight - 1;
      }
      finished := inFlight == 0;
    }

    method Finalize()
      modifies this
      ensures Value() == Table.Finalize(old(Value()))
    {
      tasks, states, phase := [], map[], Stopped;
    }
  }
}
