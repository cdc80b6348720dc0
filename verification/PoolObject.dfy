/**
 The pool object: the global ring and the workers' deques as objects updated in place. Each method is
 the code of one operation when no other thread intervenes; the interleavings are the pool machine's.
 */
module PoolObject {
  import opened Modular
  import opened Basics
  import opened ThreadPool
  import opened LocalTaskQueue
  import BoundedRingQueue

  datatype SubmitResult = Accepted | QueueFull | PoolStopping

  /** How one turn of a worker's loop ends: with a task to run, asleep or gone. */
  datatype Turn = Runs(task: Task) | Sleeps | Exits

  /** What post() does, its exceptions included. */
  datatype PostResult = Posted | ThrewStopped | ThrewFull | Dropped | RunHere

  /** The deque a scan looks at after `offset` steps. */
  function Victim(count: nat, worker: nat, offset: nat): (v: nat)
    requires count > 0
    ensures v < count
  {
    (worker + offset) % count
  }

  lemma VictimIsOther(count: nat, worker: nat, offset: nat)
    requires worker < count && 1 <= offset < count
    ensures Victim(count, worker, offset) != worker
  {
    if worker + offset < count {
      Remainder(count, worker + offset, 0, worker + offset);
    } else {
      Remainder(count, worker + offset, 1, worker + offset - count);
    }
  }

  lemma VictimReaches(count: nat, worker: nat, v: nat) returns (offset: nat)
    requires worker < count && v < count && v != worker
    ensures 1 <= offset < count && Victim(count, worker, offset) == v
  {
    if v > worker {
      offset := v - worker;
      Remainder(count, v, 0, v);
    } else {
      offset := v + count - worker;
      Remainder(count, v + count, 1, v);
    }
  }

  class Pool {
    const tasks: BoundedRingQueue.Queue<Task>
    const localQueues: seq<Deque<Task>>
    const rejectPolicy: RejectPolicy
    var stopping: bool

    ghost predicate Valid()
      reads this, tasks
    {
      && tasks.Valid()
      && |localQueues| > 0
      && (forall i, j :: 0 <= i < j < |localQueues| ==> localQueues[i] != localQueues[j])
    }

    ghost function Ring(): seq<Task>
      reads this, tasks, tasks.buffer
      requires Valid()
    {
      tasks.Contents()
    }

    ghost function Locals(): (s: seq<seq<Task>>)
      reads this, localQueues
      ensures |s| == |localQueues|
      ensures forall i :: 0 <= i < |s| ==> s[i] == localQueues[i].queue
    {
      seq(|localQueues|, i requires 0 <= i < |localQueues| reads this, localQueues => localQueues[i].queue)
    }

    constructor (workers: nat, capacity: nat, policy: RejectPolicy)
      requires workers > 0 && capacity > 0
      ensures Valid() && fresh(tasks) && fresh(tasks.buffer) && fresh(localQueues)
      ensures |localQueues| == workers && tasks.buffer.Length == capacity && rejectPolicy == policy
      ensures !stopping && Ring() == [] && Locals() == Init(workers, capacity, policy).locals
    {
      var ring := new BoundedRingQueue.Queue<Task>(capacity, 0);
      var queues: seq<Deque<Task>> := [];
      while |queues| < workers
        invariant |queues| <= workers && fresh(queues) && fresh(ring) && fresh(ring.buffer)
        invariant forall i :: 0 <= i < |queues| ==> queues[i].queue == []
        invariant forall i, j :: 0 <= i < j < |queues| ==> queues[i] != queues[j]
        invariant ring.Valid() && ring.Contents() == [] && ring.buffer.Length == capacity
      {
        var queue := new Deque<Task>();
        queues := queues + [queue];
      }
      tasks := ring;
      localQueues := queues;
      rejectPolicy := policy;
      stopping := false;
    }

    /** try_post: `local` is the calling worker's index, or None for a thread outside the pool. */
    method TryPost(local: Option<nat>, task: Task) returns (r: SubmitResult)
      requires Valid() && (local.Some? ==> local.value < |localQueues|)
      modifies tasks, tasks.buffer, localQueues
      ensures Valid()
      ensures local.Some? ==> r == Accepted && Ring() == old(Ring())
      ensures local.Some? ==> Locals() == old(Locals())[local.value := [task] + old(Locals())[local.value]]
      ensures local.None? ==> Locals() == old(Locals())
      ensures local.None? ==> (r == PoolStopping <==> stopping)
      ensures local.None? ==> (r == Accepted <==> !stopping && |old(Ring())| < tasks.buffer.Length)
      ensures local.None? ==> Ring() == old(Ring()) + (if r == Accepted then [task] else [])
    {
      if local.Some? {
        localQueues[local.value].PushOwner(task);
        return Accepted;
      }
      if stopping {
        return PoolStopping;
      }
      var ok := tasks.Push(task);
      r := if ok then Accepted else QueueFull;
    }

    /** post(): the reject policy decides what a full ring means. */
    method Post(local: Option<nat>, task: Task) returns (r: PostResult)
      requires Valid() && (local.Some? ==> local.value < |localQueues|)
      modifies tasks, tasks.buffer, localQueues
      ensures Valid()
      ensures local.Some? ==> r == Posted && Ring() == old(Ring())
      ensures local.Some? ==> Locals() == old(Locals())[local.value := [task] + old(Locals())[local.value]]
      ensures local.None? ==> Locals() == old(Locals())
      ensures local.None? ==>
                r == (if stopping then ThrewStopped
                      else if |old(Ring())| < tasks.buffer.Length then Posted
                      else match rejectPolicy
                           case Abort => ThrewFull
                           case Discard => Dropped
                           case CallerRuns => RunHere)
      ensures local.None? ==> Ring() == old(Ring()) + (if r == Posted then [task] else [])
    {
      if local.Some? {
        localQueues[local.value].PushOwner(task);
        return Posted;
      }
      if stopping {
        return ThrewStopped;
      }
      var full := tasks.Full();
      if full {
        match rejectPolicy
        case Abort => return ThrewFull;
        case Discard => return Dropped;
        case CallerRuns => return RunHere;
      }
      var _ := tasks.Push(task);
      return Posted;
    }

    /** The victims are tried in cyclic order after the thief; the first non-empty one loses its last task. */
    method TrySteal(thief: nat) returns (task: Option<Task>, ghost victim: nat)
      requires Valid() && thief < |localQueues|
      modifies localQueues
      ensures task == None ==> Locals() == old(Locals())
      ensures task == None ==> forall v :: 0 <= v < |localQueues| && v != thief ==> old(Locals())[v] == []
      ensures task.Some? ==>
                && victim < |localQueues| && victim != thief
                && old(Locals())[victim] == Locals()[victim] + [task.value]
                && Locals() == old(Locals())[victim := Locals()[victim]]
    {
      victim := thief;
      task := None;
      var offset := 1;
      while offset < |localQueues|
        invariant 1 <= offset <= |localQueues|
        invariant forall o :: 1 <= o < offset ==> localQueues[Victim(|localQueues|, thief, o)].queue == []
        invariant task == None && Locals() == old(Locals())
      {
        victim := Victim(|localQueues|, thief, offset);
        VictimIsOther(|localQueues|, thief, offset);
        var v := Victim(|localQueues|, thief, offset);
        task := localQueues[v].TrySteal();
        if task.Some? {
          return;
        }
        offset := offset + 1;
      }
      forall v | 0 <= v < |localQueues| && v != thief ensures localQueues[v].queue == [] {
        var o := VictimReaches(|localQueues|, thief, v);
      }
    }

    method AllLocalEmpty() returns (empty: bool)
      requires Valid()
      ensures empty <==> forall v :: 0 <= v < |localQueues| ==> Locals()[v] == []
    {
      for i := 0 to |localQueues|
        invariant forall v :: 0 <= v < i ==> Locals()[v] == []
      {
        var e := localQueues[i].Empty();
        if !e {
          assert Locals()[i] != [];
          return false;
        }
      }
      return true;
    }

    /** The wait predicate's scan: the global ring, the worker's own deque, then the others. */
    method HasAnyWork(worker: nat) returns (any: bool)
      requires Valid() && worker < |localQueues|
      ensures any <==> Ring() != [] || exists v :: 0 <= v < |localQueues| && Locals()[v] != []
    {
      if tasks.size != 0 {
        return true;
      }
      var own := localQueues[worker].Empty();
      if !own {
        assert Locals()[worker] != [];
        return true;
      }
      var offset := 1;
      while offset < |localQueues|
        invariant 1 <= offset <= |localQueues|
        invariant forall o :: 1 <= o < offset ==> Locals()[Victim(|localQueues|, worker, o)] == []
      {
        var v := Victim(|localQueues|, worker, offset);
        var e := localQueues[v].Empty();
        if !e {
          assert Locals()[v] != [];
          return true;
        }
        offset := offset + 1;
      }
      forall v | 0 <= v < |localQueues| && v != worker ensures Locals()[v] == [] {
        var o := VictimReaches(|localQueues|, worker, v);
      }
      return false;
    }

    /** One turn of WorkerLoop: the own deque from the front, then the global ring, then another deque
        from the back. The worker leaves exactly when the pool is stopping and nothing is left. */
    method WorkerTurn(worker: nat) returns (turn: Turn, ghost victim: nat)
      requires Valid() && worker < |localQueues|
      modifies tasks, tasks.buffer, localQueues
      ensures Valid()
      ensures old(Locals())[worker] != [] ==>
                && turn == Runs(old(Locals())[worker][0]) && Ring() == old(Ring())
                && Locals() == old(Locals())[worker := old(Locals())[worker][1..]]
      ensures old(Locals())[worker] == [] && old(Ring()) != [] ==>
                turn == Runs(old(Ring())[0]) && Ring() == old(Ring())[1..] && Locals() == old(Locals())
      ensures old(Locals())[worker] == [] && old(Ring()) == [] ==>
                && Ring() == []
                && (if turn.Runs? then
                      && victim < |localQueues| && victim != worker
                      && old(Locals())[victim] == Locals()[victim] + [turn.task]
                      && Locals() == old(Locals())[victim := Locals()[victim]]
                    else Locals() == old(Locals()) && forall v :: 0 <= v < |localQueues| ==> Locals()[v] == [])
      ensures turn.Exits? ==> stopping
      ensures turn.Sleeps? ==> !stopping
    {
      victim := worker;
      var own := localQueues[worker].TryPopOwner();
      if own.Some? {
        return Runs(own.value), victim;
      }
      if tasks.size != 0 {
        var task := tasks.Pop();
        return Runs(task.value), victim;
      }
      var stolen;
      stolen, victim := TrySteal(worker);
      if stolen.Some? {
        return Runs(stolen.value), victim;
      }
      var any := HasAnyWork(worker);
      if !(stopping || any) {
        return Sleeps, victim;
      }
      var empty := AllLocalEmpty();
      if stopping && tasks.size == 0 && empty {
        return Exits, victim;
      }
      turn := Sleeps;
      assert false;
    }
  }
}
