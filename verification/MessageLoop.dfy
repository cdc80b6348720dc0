/** The decoder and the message loops working on the connection's buffer in place. */
module MessageLoop {
  import opened Basics
  import opened Codec
  import opened CodecProofs
  import opened NetBuffer

  /** Consumes bytes only when a message is complete. */
  method TryDecode(buffer: Buffer, expected: MessageType) returns (verdict: Decoded)
    requires buffer.Valid()
    modifies buffer
    ensures buffer.Valid() && buffer.data == old(buffer.data)
    ensures verdict == Decode(old(buffer.Contents()), expected)
    ensures buffer.Contents() ==
            if verdict.Complete? then old(buffer.Contents())[verdict.consumed..] else old(buffer.Contents())
  {
    var bytes := buffer.Peek();
    verdict := Decode(bytes, expected);
    CompleteConsumes(bytes, expected);
    if verdict.Complete? {
      var _ := buffer.Retrieve(verdict.consumed);
    }
  }

  /** onMessage of server and client: true means the connection is closed after an invalid message.
      The loop ends because every complete message takes at least a header out of the buffer. */
  method OnMessage(buffer: Buffer, expected: MessageType) returns (delivered: seq<Message>, closed: bool)
    requires buffer.Valid()
    modifies buffer
    ensures buffer.Valid() && buffer.data == old(buffer.data)
    ensures Batch(delivered, buffer.Contents(), closed) == DecodeAll(old(buffer.Contents()), expected)
  {
    hide Decode, DecodeAll;
    delivered, closed := [], false;
    ghost var whole := DecodeAll(buffer.Contents(), expected);
    while true
      invariant buffer.Valid() && buffer.data == old(buffer.data)
      invariant whole.messages == delivered + DecodeAll(buffer.Contents(), expected).messages
      invariant whole.rest == DecodeAll(buffer.Contents(), expected).rest
      invariant whole.failed == DecodeAll(buffer.Contents(), expected).failed
      invariant !closed
      decreases |buffer.Contents()|
    {
      OneTurn(buffer.Contents(), expected);
      var verdict := TryDecode(buffer, expected);
      if verdict.NeedMoreData? {
        return;
      }
      if verdict.ProtocolError? {
        closed := true;
        return;
      }
      delivered := delivered + [verdict.message];
    }
  }

  /** One turn of the loop. */
  lemma OneTurn(b: seq<Byte>, expected: MessageType)
    ensures Decode(b, expected).NeedMoreData? ==> DecodeAll(b, expected) == Batch([], b, false)
    ensures Decode(b, expected).ProtocolError? ==> DecodeAll(b, expected) == Batch([], b, true)
    ensures Decode(b, expected).Complete? ==>
              && 0 < Decode(b, expected).consumed <= |b|
              && var next := DecodeAll(b[Decode(b, expected).consumed..], expected);
                 DecodeAll(b, expected) == next.(messages := [Decode(b, expected).message] + next.messages)
  {
    CompleteConsumes(b, expected);
    hide Decode;
  }

  /** A chunk arrives: it is appended and the loop runs. */
  method Receive(buffer: Buffer, chunk: seq<Byte>, expected: MessageType)
    returns (delivered: seq<Message>, closed: bool)
    requires buffer.Valid()
    modifies buffer, buffer.data
    ensures buffer.Valid() && (buffer.data == old(buffer.data) || fresh(buffer.data))
    ensures Batch(delivered, buffer.Contents(), closed) == DecodeAll(old(buffer.Contents()) + chunk, expected)
  {
    buffer.Append(chunk);
    delivered, closed := OnMessage(buffer, expected);
  }
}
