/** From the sender's connection to the receiver's decoder: what the layers together deliver. */
module EndToEnd {
  import opened Basics
  import opened Codec
  import opened CodecProofs
  import Tcp = TcpConnection

  /** Decoding a prefix of a stream of frames never fails and gives a prefix of the messages. */
  lemma PrefixDecodes(messages: seq<Message>, received: seq<Byte>, expected: MessageType)
    requires forall i :: 0 <= i < |messages| ==> Encode(messages[i]).Ok? && TypeOf(messages[i]) == expected
    requires received <= Stream(messages)
    ensures !DecodeAll(received, expected).failed
    ensures DecodeAll(received, expected).messages <= AllNormalized(messages)
    ensures received == Stream(messages) ==> DecodeAll(received, expected) == Batch(AllNormalized(messages), [], false)
  {
    var more := Stream(messages)[|received|..];
    assert received + more == Stream(messages);
    StreamDecodes(messages, expected);
    DecodeAllInTwoParts(received, more, expected);
    hide DecodeAll, Encode, AllNormalized;
  }

  /** Main result: let a connection accept the frames of some messages, in any run and for every
      behaviour of the kernel, and let any part of what the kernel took arrive in any chunks; the rest
      is in flight or lost. The receiver then delivers a prefix of the messages, in order, without
      error. Once all that the kernel took has arrived and the sender's buffer has drained, in
      particular after the half-close, it has delivered all of them and its buffer is empty. */
  lemma DeliversInOrder(events: seq<Tcp.Event>, messages: seq<Message>, chunks: seq<seq<Byte>>,
                        expected: MessageType)
    requires Tcp.Exec(Tcp.Init(), events).After?
    requires forall i :: 0 <= i < |messages| ==> Encode(messages[i]).Ok? && TypeOf(messages[i]) == expected
    requires Tcp.AcceptedBytes(Tcp.Init(), events) == Stream(messages)
    requires Concat(chunks) <= Tcp.Exec(Tcp.Init(), events).state.wire
    ensures var sender, received := Tcp.Exec(Tcp.Init(), events).state, Feed([], chunks, expected);
      && !received.failed && received.messages <= AllNormalized(messages)
      && (Concat(chunks) == sender.wire && (sender.shuts == 1 || (Tcp.IsOpen(sender) && sender.output == [])) ==>
            received == Batch(AllNormalized(messages), [], false))
  {
    Tcp.EveryRunKeepsOrder(events);
    var sender := Tcp.Exec(Tcp.Init(), events).state;
    assert sender.output == [] ==> sender.wire + sender.output == sender.wire;
    EmptyNeedsMore(expected);
    FragmentationIsInvisible([], chunks, expected);
    assert [] + Concat(chunks) == Concat(chunks);
    PrefixDecodes(messages, Concat(chunks), expected);
    hide Tcp.Exec, Tcp.AcceptedBytes, Feed, Concat, Encode, AllNormalized, Stream, Decode;
  }
}
