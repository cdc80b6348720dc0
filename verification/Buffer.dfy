/** The growable, compacting byte buffer of the reactor. */
module NetBuffer {
  import opened Basics

  const CHEAP_PREPEND: nat := 8
  const INITIAL_SIZE: nat := 1024

  class Buffer {
    var data: array<Byte>
    var readerIndex: nat
    var writerIndex: nat

    ghost predicate Valid()
      reads this
    {
      readerIndex <= writerIndex <= data.Length && CHEAP_PREPEND <= data.Length
    }

    /** The readable bytes. */
    ghost function Contents(): seq<Byte>
      reads this, data
      requires Valid()
    {
      data[readerIndex..writerIndex]
    }

    constructor ()
      ensures Valid() && fresh(data) && Contents() == [] && readerIndex == CHEAP_PREPEND
    {
      data := new Byte[CHEAP_PREPEND + INITIAL_SIZE](_ => 0);
      readerIndex, writerIndex := CHEAP_PREPEND, CHEAP_PREPEND;
    }

    method Append(bytes: seq<Byte>)
      requires Valid()
      modifies this, data
      ensures Valid() && (data == old(data) || fresh(data))
      ensures Contents() == old(Contents()) + bytes
    {
      EnsureWritableBytes(|bytes|);
      ghost var before := Contents();
      var end := writerIndex + |bytes|;
      forall i | writerIndex <= i < end {
        data[i] := bytes[i - writerIndex];
      }
      assert data[readerIndex..writerIndex] == before;
      assert data[writerIndex..end] == bytes;
      assert data[readerIndex..end] == data[readerIndex..writerIndex] + data[writerIndex..end];
      writerIndex := end;
    }

    /** False where the source throws: not enough room before the readable bytes. */
    method Prepend(bytes: seq<Byte>) returns (ok: bool)
      requires Valid()
      modifies this, data
      ensures Valid() && data == old(data)
      ensures ok == (|bytes| <= old(readerIndex))
      ensures Contents() == if ok then bytes + old(Contents()) else old(Contents())
    {
      if |bytes| > readerIndex {
        return false;
      }
      readerIndex := readerIndex - |bytes|;
      forall i | 0 <= i < |bytes| {
        data[readerIndex + i] := bytes[i];
      }
      assert Contents()[|bytes|..] == old(Contents());
      return true;
    }

    method Peek() returns (bytes: seq<Byte>)
      requires Valid()
      ensures bytes == Contents()
    {
      bytes := data[readerIndex..writerIndex];
    }

    method ReadableBytes() returns (n: nat)
      requires Valid()
      ensures n == |Contents()|
    {
      n := writerIndex - readerIndex;
    }

    /** False where the source throws: fewer readable bytes than asked for. */
    method Retrieve(length: nat) returns (ok: bool)
      requires Valid()
      modifies this
      ensures Valid() && data == old(data)
      ensures ok == (length <= |old(Contents())|)
      ensures Contents() == if ok then old(Contents())[length..] else old(Contents())
    {
      if length > writerIndex - readerIndex {
        return false;
      }
      readerIndex := readerIndex + length;
      if readerIndex == writerIndex {
        RetrieveAll();
      }
      return true;
    }

    method RetrieveAll()
      requires Valid()
      modifies this
      ensures Valid() && data == old(data)
      ensures Contents() == [] && readerIndex == CHEAP_PREPEND
    {
      readerIndex, writerIndex := CHEAP_PREPEND, CHEAP_PREPEND;
    }

    method RetrieveAllAsString() returns (bytes: seq<Byte>)
      requires Valid()
      modifies this
      ensures Valid() && data == old(data)
      ensures bytes == old(Contents()) && Contents() == []
    {
      bytes := Peek();
      RetrieveAll();
    }

    method EnsureWritableBytes(length: nat)
      requires Valid()
      modifies this, data
      ensures Valid() && (data == old(data) || fresh(data))
      ensures data.Length - writerIndex >= length
      ensures Contents() == old(Contents())
    {
      if data.Length - writerIndex < length {
        MakeSpace(length);
      }
    }

    /** Grows when even the space in front does not suffice, else moves the readable bytes to the
        front. They only ever move backwards, so copying them in ascending order is sound although
        the ranges may overlap. */
    method MakeSpace(length: nat)
      requires Valid() && data.Length - writerIndex < length
      modifies this, data
      ensures Valid() && data.Length - writerIndex >= length
      ensures Contents() == old(Contents())
      ensures if old(data.Length - writerIndex + readerIndex) < length + CHEAP_PREPEND
              then fresh(data) && data.Length == old(writerIndex) + length && readerIndex == old(readerIndex)
              else data == old(data) && old(readerIndex) > CHEAP_PREPEND == readerIndex
    {
      if data.Length - writerIndex + readerIndex < length + CHEAP_PREPEND {
        Grow(writerIndex + length);
      } else {
        MoveToFront();
      }
    }

    /** data_.resize(): a longer array with the same beginning. */
    method Grow(size: nat)
      requires Valid() && data.Length < size
      modifies this`data
      ensures Valid() && fresh(data) && data.Length == size
      ensures Contents() == old(Contents())
    {
      var grown := new Byte[size](_ => 0);
      forall i | 0 <= i < writerIndex {
        grown[i] := data[i];
      }
      data := grown;
    }

    method MoveToFront()
      requires Valid() && readerIndex > CHEAP_PREPEND
      modifies this`readerIndex, this`writerIndex, data
      ensures Valid() && readerIndex == CHEAP_PREPEND
      ensures Contents() == old(Contents())
    {
      var readable := writerIndex - readerIndex;
      ghost var moved := Contents();
      for i := 0 to readable
        modifies data
        invariant forall k :: 0 <= k < i ==> data[CHEAP_PREPEND + k] == moved[k]
        invariant forall k :: i <= k < readable ==> data[readerIndex + k] == moved[k]
      {
        data[CHEAP_PREPEND + i] := data[readerIndex + i];
      }
      readerIndex := CHEAP_PREPEND;
      writerIndex := readerIndex + readable;
    }
  }
}
