/** The blocking queue's object: every method is the lock region of one operation, on the ring itself. */
module BlockingQueueObject {
  import opened Basics
  import opened BlockingQueue
  import Ring = RingBufferObject

  class Monitor<T> {
    const buffer: Ring.RingBuffer<T>
    var closed: bool

    ghost predicate Valid()
      reads this, buffer, buffer.buffer
    {
      buffer.Valid()
    }

    ghost function Value(): (q: Queue<T>)
      reads this, buffer, buffer.buffer
      requires Valid()
      ensures |q.contents| <= q.capacity
    {
      Queue(buffer.buffer.Length, buffer.contents, closed)
    }

    constructor (capacity: nat)
      requires capacity > 0
      ensures Valid() && Value() == Queue(capacity, [], false)
      ensures fresh(buffer) && fresh(buffer.buffer)
    {
      buffer := new Ring.RingBuffer<T>(capacity);
      closed := false;
    }

    /** push, emplace and push_for: with the mutex held, once or after each wake-up. */
    method Push(value: T) returns (verdict: Verdict)
      requires Valid()
      modifies this, buffer, buffer.buffer
      ensures Valid()
      ensures (Value(), verdict) == PushRegion(old(Value()), PushCall([value], false, false))
    {
      if !closed && buffer.size == buffer.buffer.Length {
        return MustWait;
      }
      if closed {
        return Refused;
      }
      assert [value][..1] == [value];
      var _ := buffer.Emplace(value);
      return Done;
    }

    method TryPush(value: T) returns (pushed: bool)
      requires Valid()
      modifies this, buffer, buffer.buffer
      ensures Valid()
      ensures pushed == (!closed && |old(Value()).contents| < old(Value()).capacity)
      ensures Value() == if pushed then PushRegion(old(Value()), PushCall([value], false, false)).0 else old(Value())
    {
      if closed || buffer.size == buffer.buffer.Length {
        return false;
      }
      assert [value][..1] == [value];
      pushed := buffer.Emplace(value);
    }

    method PushBatch(values: seq<T>) returns (verdict: Verdict, pushed: nat)
      requires Valid()
      modifies this, buffer, buffer.buffer
      ensures Valid()
      ensures (Value(), verdict) == PushRegion(old(Value()), PushCall(values, true, false))
      ensures pushed == |Value().contents| - |old(Value()).contents|
    {
      if !closed && values != [] && buffer.size == buffer.buffer.Length {
        return MustWait, 0;
      }
      if values == [] || closed {
        return Refused, 0;
      }
      pushed := buffer.PushBatch(values);
      verdict := Done;
    }

    /** pop and pop_for. */
    method Pop() returns (verdict: Verdict, value: Option<T>)
      requires Valid()
      modifies this, buffer, buffer.buffer
      ensures Valid()
      ensures (Value(), verdict) == PopRegion(old(Value()), PopCall(1, false, false))
      ensures value == if verdict.Done? then Some(old(Value()).contents[0]) else None
    {
      if !closed && buffer.size == 0 {
        return MustWait, None;
      }
      if buffer.size == 0 {
        return Refused, None;
      }
      value := buffer.Pop();
      verdict := Done;
    }

    method PopBatch(output: array<T>) returns (verdict: Verdict, popped: nat)
      requires Valid() && output as object != buffer.buffer
      modifies this, buffer, buffer.buffer, output
      ensures Valid()
      ensures (Value(), verdict) == PopRegion(old(Value()), PopCall(output.Length, true, false))
      ensures popped <= output.Length && output[..popped] + Value().contents == old(Value()).contents
    {
      if !closed && output.Length != 0 && buffer.size == 0 {
        return MustWait, 0;
      }
      if output.Length == 0 {
        return Refused, 0;
      }
      popped := buffer.PopBatch(output);
      verdict := if popped > 0 then Done else Refused;
    }

    /** True when notify_all follows on both condition variables. */
    method Close() returns (notify: bool)
      requires Valid()
      modifies this
      ensures Valid() && Value() == old(Value()).(closed := true)
      ensures notify == !old(closed)
    {
      notify := !closed;
      closed := true;
    }
  }
}
