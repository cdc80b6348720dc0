/** A ring buffer's slots read as the sequence of its elements, oldest first. */
module RingView {
  import opened Modular

  /** The slot of the i-th element. */
  function SlotOf(n: nat, head: nat, i: nat): (k: nat)
    requires n > 0
    ensures k < n
  {
    (head + i) % n
  }

  function View<T>(buffer: seq<T>, head: nat, size: nat): (s: seq<T>)
    requires |buffer| > 0
    ensures |s| == size
    ensures forall i :: 0 <= i < size ==> s[i] == buffer[SlotOf(|buffer|, head, i)]
  {
    seq(size, i requires 0 <= i < size => buffer[SlotOf(|buffer|, head, i)])
  }

  lemma SlotsDiffer(n: nat, head: nat, i: nat, j: nat)
    requires i < j < i + n
    ensures SlotOf(n, head, i) != SlotOf(n, head, j)
  {
    if SlotOf(n, head, i) == SlotOf(n, head, j) {
      SameSlot(n, head + j, head + i);
    }
  }

  lemma SlotShift(n: nat, head: nat, i: nat)
    requires n > 0
    ensures SlotOf(n, SlotOf(n, head, 1), i) == SlotOf(n, head, i + 1)
  {
    SlotAfter(n, head + 1, i);
  }

  /** Writing the slot after the last element appends to the view. */
  lemma ViewAppend<T>(buffer: seq<T>, head: nat, size: nat, value: T)
    requires size < |buffer|
    ensures View(buffer[SlotOf(|buffer|, head, size) := value], head, size + 1) == View(buffer, head, size) + [value]
  {
    var n := |buffer|;
    var after := View(buffer[SlotOf(n, head, size) := value], head, size + 1);
    var expected := View(buffer, head, size) + [value];
    forall i | 0 <= i < |expected| ensures after[i] == expected[i] {
      if i < size {
        SlotsDiffer(n, head, i, size);
      }
    }
  }

  /** Overwriting the first slot and stepping past it drops the head of the view. */
  lemma ViewDropHead<T>(buffer: seq<T>, head: nat, size: nat, blank: T)
    requires 0 < size <= |buffer|
    ensures View(buffer[SlotOf(|buffer|, head, 0) := blank], SlotOf(|buffer|, head, 1), size - 1)
         == View(buffer, head, size)[1..]
  {
    var n := |buffer|;
    var after := View(buffer[SlotOf(n, head, 0) := blank], SlotOf(n, head, 1), size - 1);
    var expected := View(buffer, head, size)[1..];
    forall i | 0 <= i < |expected| ensures after[i] == expected[i] {
      SlotShift(n, head, i);
      SlotsDiffer(n, head, 0, i + 1);
    }
  }
}
