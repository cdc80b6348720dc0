/** A worker's own deque: the owner works at the front, thieves take from the back. */
module LocalTaskQueue {
  import opened Basics

  class Deque<T> {
    var queue: seq<T>

    constructor ()
      ensures queue == []
    {
      queue := [];
    }

    method PushOwner(task: T)
      modifies this
      ensures queue == [task] + old(queue)
    {
      queue := [task] + queue;
    }

    method TryPopOwner() returns (task: Option<T>)
      modifies this
      ensures old(queue) == [] ==> task == None && queue == []
      ensures old(queue) != [] ==> task.Some? && old(queue) == [task.value] + queue
    {
      if queue == [] {
        return None;
      }
      task := Some(queue[0]);
      queue := queue[1..];
    }

    method TrySteal() returns (task: Option<T>)
      modifies this
      ensures old(queue) == [] ==> task == None && queue == []
      ensures old(queue) != [] ==> task.Some? && old(queue) == queue + [task.value]
    {
      if queue == [] {
        return None;
      }
      var last := |queue| - 1;
      task := Some(queue[last]);
      queue := queue[..last];
    }

    method Empty() returns (empty: bool)
      ensures empty <==> queue == []
    {
      empty := queue == [];
    }
  }
}
