/** The pool's bounded queue: an array with head, tail and size updated in place. */
module BoundedRingQueue {
  import opened Modular
  import opened RingView
  import opened Basics

  class Queue<T(0)> {
    const buffer: array<T>
    const blank: T
    var head: nat
    var tail: nat
    var size: nat

    ghost predicate Valid()
      reads this
    {
      && buffer.Length > 0
      && head < buffer.Length
      && size <= buffer.Length
      && tail == SlotOf(buffer.Length, head, size)
    }

    ghost function Contents(): (s: seq<T>)
      reads this, buffer
      requires Valid()
    {
      View(buffer[..], head, size)
    }

    constructor (capacity: nat, blank: T)
      requires capacity > 0
      ensures Valid() && fresh(buffer) && buffer.Length == capacity && Contents() == []
    {
      buffer := new T[capacity](_ => blank);
      this.blank := blank;
      head, tail, size := 0, 0, 0;
      new;
      Remainder(capacity, 0, 0, 0);
    }

    method Full() returns (full: bool)
      requires Valid()
      ensures full <==> |Contents()| == buffer.Length
    {
      full := size == buffer.Length;
    }

    /** False where the source throws "queue is full". */
    method Push(value: T) returns (ok: bool)
      requires Valid()
      modifies this, buffer
      ensures Valid()
      ensures ok == (|old(Contents())| < buffer.Length)
      ensures Contents() == if ok then old(Contents()) + [value] else old(Contents())
    {
      if size == buffer.Length {
        return false;
      }
      ViewAppend(buffer[..], head, size, value);
      SlotAfter(buffer.Length, head + size, 1);
      buffer[tail] := value;
      tail := (tail + 1) % buffer.Length;
      size := size + 1;
      return true;
    }

    /** None where the source throws "queue is empty". */
    method Pop() returns (value: Option<T>)
      requires Valid()
      modifies this, buffer
      ensures Valid()
      ensures old(Contents()) == [] ==> value == None && Contents() == []
      ensures old(Contents()) != [] ==> value == Some(old(Contents())[0]) && Contents() == old(Contents())[1..]
    {
      if size == 0 {
        return None;
      }
      Remainder(buffer.Length, head, 0, head);
      ViewDropHead(buffer[..], head, size, blank);
      SlotShift(buffer.Length, head, size - 1);
      value := Some(buffer[head]);
      buffer[head] := blank;
      head := (head + 1) % buffer.Length;
      size := size - 1;
    }

    method Clear()
      requires Valid()
      modifies this, buffer
      ensures Valid() && Contents() == []
    {
      while size > 0
        invariant Valid()
        decreases size
      {
        var _ := Pop();
      }
    }
  }
}
