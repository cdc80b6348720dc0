/** The blocking queue's ring: optional slots, emptied when an element leaves. */
module RingBufferObject {
  import opened Basics
  import opened Modular
  import opened RingView

  function Wrapped<T>(values: seq<T>): (s: seq<Option<T>>)
    ensures |s| == |values|
    ensures forall i :: 0 <= i < |s| ==> s[i] == Some(values[i])
  {
    seq(|values|, i requires 0 <= i < |values| => Some(values[i]))
  }

  class RingBuffer<T> {
    const buffer: array<Option<T>>
    var head: nat
    var tail: nat
    var size: nat
    ghost var contents: seq<T>

    /** The slots hold exactly the contents, which are n elements. */
    ghost predicate Holds(n: nat)
      reads `head, `tail, `contents, buffer
      ensures Holds(n) ==> |contents| == n <= buffer.Length
    {
      && head < buffer.Length
      && n <= buffer.Length
      && tail == SlotOf(buffer.Length, head, n)
      && View(buffer[..], head, n) == Wrapped(contents)
    }

    ghost predicate Valid()
      reads this, buffer
    {
      Holds(size)
    }

    constructor (capacity: nat)
      requires capacity > 0
      ensures Valid() && fresh(buffer) && buffer.Length == capacity && contents == []
    {
      buffer := new Option<T>[capacity](_ => None);
      head, tail, size := 0, 0, 0;
      contents := [];
      new;
      Remainder(capacity, 0, 0, 0);
    }

    /** One element into the slot at the tail; the caller counts it. */
    method PutAtTail(value: T, ghost n: nat)
      requires Holds(n) && n < buffer.Length
      modifies `tail, `contents, buffer
      ensures Holds(n + 1) && contents == old(contents) + [value]
    {
      ViewAppend(buffer[..], head, n, Some(value));
      SlotAfter(buffer.Length, head + n, 1);
      buffer[tail] := Some(value);
      tail := (tail + 1) % buffer.Length;
      contents := contents + [value];
      assert Wrapped(contents) == Wrapped(old(contents)) + [Some(value)];
    }

    /** One element out of the slot at the head, which is reset; the caller counts it. */
    method TakeAtHead(ghost n: nat) returns (value: T)
      requires 0 < n && Holds(n)
      modifies `head, `contents, buffer
      ensures Holds(n - 1) && old(contents) == [value] + contents
    {
      Remainder(buffer.Length, head, 0, head);
      assert View(buffer[..], head, n)[0] == buffer[head] == Some(contents[0]);
      ViewDropHead(buffer[..], head, n, None);
      SlotShift(buffer.Length, head, n - 1);
      value := buffer[head].value;
      buffer[head] := None;
      head := (head + 1) % buffer.Length;
      contents := contents[1..];
      assert Wrapped(contents) == Wrapped(old(contents))[1..];
    }

    /** False where the source throws "RingBuffer is full". */
    method Emplace(value: T) returns (ok: bool)
      requires Valid()
      modifies this, buffer
      ensures Valid()
      ensures ok == (|old(contents)| < buffer.Length)
      ensures contents == if ok then old(contents) + [value] else old(contents)
    {
      if size == buffer.Length {
        return false;
      }
      PutAtTail(value, size);
      size := size + 1;
      return true;
    }

    /** None where the source throws "RingBuffer is empty". */
    method Pop() returns (value: Option<T>)
      requires Valid()
      modifies this, buffer
      ensures Valid()
      ensures old(contents) == [] ==> value == None && contents == []
      ensures old(contents) != [] ==> value.Some? && old(contents) == [value.value] + contents
    {
      if size == 0 {
        return None;
      }
      var front := TakeAtHead(size);
      size := size - 1;
      return Some(front);
    }

    /** Takes as many of the values as fit, in order. */
    method PushBatch(values: seq<T>) returns (pushed: nat)
      requires Valid()
      modifies this, buffer
      ensures Valid()
      ensures pushed == if |values| <= buffer.Length - |old(contents)| then |values| else buffer.Length - |old(contents)|
      ensures contents == old(contents) + values[..pushed]
    {
      hide Holds;
      var available := buffer.Length - size;
      pushed := if |values| <= available then |values| else available;
      for i := 0 to pushed
        invariant size == |old(contents)| && Holds(size + i)
        invariant contents == old(contents) + values[..i]
      {
        PutAtTail(values[i], size + i);
      }
      size := size + pushed;
    }

    /** Fills the front of the output with as many elements as there are, oldest first. */
    method PopBatch(output: array<T>) returns (popped: nat)
      requires Valid() && output as object != buffer
      modifies this, buffer, output
      ensures Valid()
      ensures popped == if output.Length <= |old(contents)| then output.Length else |old(contents)|
      ensures output[..popped] + contents == old(contents)
      ensures output[popped..] == old(output[popped..])
    {
      hide Holds;
      popped := if output.Length <= size then output.Length else size;
      for i := 0 to popped
        invariant size == |old(contents)| && Holds(size - i)
        invariant output[..i] + contents == old(contents)
        invariant output[i..] == old(output[i..])
      {
        assert output[i + 1..] == old(output[i..])[1..];
        var value := TakeAtHead(size - i);
        output[i] := value;
        assert output[..i + 1] == output[..i] + [value];
      }
      size := size - popped;
    }
  }
}
