/** Round trips, stability of verdicts and independence of fragmentation for the RPC wire format. */
module CodecProofs {
  import opened Basics
  import opened Codec

  // ---------------------------------------------------------------- reading back what was put

  /** The bytes of x stand at this offset of b. */
  predicate At(b: seq<Byte>, offset: nat, x: seq<Byte>) {
    offset + |x| <= |b| && b[offset..offset + |x|] == x
  }

  lemma AtBoth(b: seq<Byte>, offset: nat, x: seq<Byte>, y: seq<Byte>)
    requires At(b, offset, x + y)
    ensures At(b, offset, x) && At(b, offset + |x|, y)
  {
    assert b[offset..offset + |x|] == (x + y)[..|x|];
    assert b[offset + |x|..offset + |x| + |y|] == (x + y)[|x|..];
  }

  lemma TakesU32(b: seq<Byte>, offset: nat, v: U32)
    requires At(b, offset, PutU32(v))
    ensures TakeU32(b, offset) == Some((v, offset + 4))
  {
    ReadsBackU32(v);
  }

  lemma TakesU64(b: seq<Byte>, offset: nat, v: U64)
    requires At(b, offset, PutU64(v))
    ensures TakeU64(b, offset) == Some((v, offset + 8))
  {
    IntegersRoundTrip(0, 0, v, 0);
  }

  lemma TakesString(b: seq<Byte>, offset: nat, s: seq<Byte>)
    requires |s| <= UINT32_MAX && At(b, offset, PutString(s))
    ensures TakeString(b, offset) == Some((s, offset + |PutString(s)|))
  {
    AtBoth(b, offset, PutU32(|s|), s);
    TakesU32(b, offset, |s|);
  }

  lemma TakesExtensionHeader(b: seq<Byte>, offset: nat)
    requires At(b, offset, PutU32(EXTENSION_MAGIC) + PutU16(EXTENSION_VERSION))
    ensures TakeExtensionHeader(b, offset) == Some(offset + 6)
  {
    AtBoth(b, offset, PutU32(EXTENSION_MAGIC), PutU16(EXTENSION_VERSION));
    TakesU32(b, offset, EXTENSION_MAGIC);
    IntegersRoundTrip(EXTENSION_VERSION, 0, 0, 0);
  }

  lemma TakesTail(b: seq<Byte>, offset: nat, traceId: seq<Byte>, serializer: seq<Byte>)
    requires |traceId| <= UINT32_MAX && |serializer| <= UINT32_MAX
    requires At(b, offset, PutString(traceId) + PutString(serializer))
    requires offset + |PutString(traceId)| + |PutString(serializer)| == |b|
    ensures TakeTail(b, offset) == Some((traceId, RawIfEmpty(serializer)))
  {
    AtBoth(b, offset, PutString(traceId), PutString(serializer));
    TakesString(b, offset, traceId);
    TakesString(b, offset + |PutString(traceId)|, serializer);
  }

  // ---------------------------------------------------------------- one message

  /** What arrives: an empty serializer stands for "raw". */
  function Normalized(m: Message): Message {
    m.(serializer := RawIfEmpty(m.serializer))
  }

  function FrameOf(m: Message): Parsed
    requires StringsFit(m)
  {
    Frame(m.requestId, Metadata(m), m.payload, RPC_HEADER_SIZE + |Metadata(m)| + |m.payload|)
  }

  lemma TakesRequestExtension(b: seq<Byte>, offset: nat, m: Message)
    requires m.Request? && StringsFit(m)
    requires At(b, offset, Extension(m)) && offset + |Extension(m)| == |b|
    ensures TakeExtensionHeader(b, offset) == Some(offset + 6)
    ensures TakeU64(b, offset + 6) == Some((m.timeoutMs, offset + 14))
    ensures TakeU32(b, offset + 14) == Some((m.attempt, offset + 18))
    ensures TakeTail(b, offset + 18) == Some((m.traceId, RawIfEmpty(m.serializer)))
  {
    hide TakeExtensionHeader, TakeU64, TakeU32, TakeTail, At, PutU64, PutString;
    var header := PutU32(EXTENSION_MAGIC) + PutU16(EXTENSION_VERSION);
    var numbers := PutU64(m.timeoutMs) + PutU32(m.attempt);
    var tail := PutString(m.traceId) + PutString(m.serializer);
    AtBoth(b, offset, header + numbers, tail);
    AtBoth(b, offset, header, numbers);
    AtBoth(b, offset + 6, PutU64(m.timeoutMs), PutU32(m.attempt));
    TakesExtensionHeader(b, offset);
    TakesU64(b, offset + 6, m.timeoutMs);
    TakesU32(b, offset + 14, m.attempt);
    TakesTail(b, offset + 18, m.traceId, m.serializer);
  }

  lemma TakesResponseExtension(b: seq<Byte>, offset: nat, m: Message)
    requires m.Response? && StringsFit(m)
    requires At(b, offset, Extension(m)) && offset + |Extension(m)| == |b|
    ensures TakeExtensionHeader(b, offset) == Some(offset + 6)
    ensures TakeU64(b, offset + 6) == Some((m.serverCostUs, offset + 14))
    ensures TakeTail(b, offset + 14) == Some((m.traceId, RawIfEmpty(m.serializer)))
  {
    hide TakeExtensionHeader, TakeU64, TakeTail, At, PutU64, PutString;
    var header := PutU32(EXTENSION_MAGIC) + PutU16(EXTENSION_VERSION);
    var tail := PutString(m.traceId) + PutString(m.serializer);
    AtBoth(b, offset, header + PutU64(m.serverCostUs), tail);
    AtBoth(b, offset, header, PutU64(m.serverCostUs));
    TakesExtensionHeader(b, offset);
    TakesU64(b, offset + 6, m.serverCostUs);
    TakesTail(b, offset + 14, m.traceId, m.serializer);
  }

  lemma MetadataParts(m: Message)
    requires StringsFit(m)
    ensures At(Metadata(m), 0, Fields(m))
    ensures HasExtension(m) ==> At(Metadata(m), |Fields(m)|, Extension(m)) && |Fields(m)| + |Extension(m)| == |Metadata(m)|
    ensures HasExtension(m) <==> |Fields(m)| != |Metadata(m)|
  {
  }

  lemma RequestMetadataRoundTrip(m: Message)
    requires m.Request? && StringsFit(m)
    ensures DecodeRequest(FrameOf(m)) == Some(Normalized(m))
  {
    hide TakeString, TakeExtensionHeader, TakeU64, TakeU32, TakeTail, PutString, Extension, At, Metadata;
    var b := Metadata(m);
    MetadataParts(m);
    AtBoth(b, 0, PutString(m.serviceName), PutString(m.methodName));
    TakesString(b, 0, m.serviceName);
    TakesString(b, |PutString(m.serviceName)|, m.methodName);
    if HasExtension(m) {
      TakesRequestExtension(b, |Fields(m)|, m);
    }
  }

  lemma ResponseMetadataRoundTrip(m: Message)
    requires m.Response? && StringsFit(m)
    ensures DecodeResponse(FrameOf(m)) == Some(Normalized(m))
  {
    hide TakeString, TakeExtensionHeader, TakeU64, TakeU32, TakeTail, PutString, Extension, At, Metadata;
    var b := Metadata(m);
    MetadataParts(m);
    AtBoth(b, 0, PutU32(ToU32(m.errorCode)), PutString(m.errorMessage));
    TakesU32(b, 0, ToU32(m.errorCode));
    TakesString(b, 4, m.errorMessage);
    if HasExtension(m) {
      TakesResponseExtension(b, |Fields(m)|, m);
    }
  }

  lemma HeaderReadsBack(t: MessageType, requestId: U64, metadataLength: U32, bodyLength: U32)
    ensures var h := Header(t, requestId, metadataLength, bodyLength);
      && ReadU32(h[0..4]) == RPC_MAGIC && ReadU16(h[4..6]) == PROTOCOL_VERSION && ReadU16(h[6..8]) == TypeCode(t)
      && ReadU64(h[8..16]) == requestId && ReadU32(h[16..20]) == metadataLength && ReadU32(h[20..24]) == bodyLength
  {
    var h := Header(t, requestId, metadataLength, bodyLength);
    assert h[0..4] == PutU32(RPC_MAGIC);
    assert h[4..6] == PutU16(PROTOCOL_VERSION);
    assert h[6..8] == PutU16(TypeCode(t));
    assert h[8..16] == PutU64(requestId);
    assert h[16..20] == PutU32(metadataLength);
    assert h[20..24] == PutU32(bodyLength);
    IntegersRoundTrip(TypeCode(t), RPC_MAGIC, requestId, 0);
    ReadsBackU32(metadataLength);
    ReadsBackU32(bodyLength);
  }

  /** The parser finds an encoded frame at the front of whatever follows it. */
  lemma ParsesEncodedFrame(m: Message, rest: seq<Byte>)
    requires Encode(m).Ok?
    ensures ParseFrame(Encode(m).value + rest, TypeOf(m)) == FrameOf(m)
    ensures |Encode(m).value| == FrameOf(m).totalLength
  {
    hide Metadata, Header, At;
    var metadata := Metadata(m);
    var h := Header(TypeOf(m), m.requestId, |metadata|, |m.payload|);
    var b := Encode(m).value + rest;
    ThreeParts(h, metadata, m.payload, rest);
    HeaderReadsBack(TypeOf(m), m.requestId, |metadata|, |m.payload|);
    SameHeader(h, b);
  }

  lemma ThreeParts(h: seq<Byte>, metadata: seq<Byte>, body: seq<Byte>, rest: seq<Byte>)
    ensures var b := h + metadata + body + rest;
      && h <= b
      && b[|h|..|h| + |metadata|] == metadata
      && b[|h| + |metadata|..|h| + |metadata| + |body|] == body
  {
    var b := h + metadata + body + rest;
    assert b == h + (metadata + body + rest);
  }

  lemma SameHeader(a: seq<Byte>, b: seq<Byte>)
    requires 24 <= |a| && a <= b
    ensures a[0..4] == b[0..4] && a[4..6] == b[4..6] && a[6..8] == b[6..8] && a[8..16] == b[8..16]
    ensures a[16..20] == b[16..20] && a[20..24] == b[20..24]
  {
  }

  /** Round trip: what was encoded decodes to the message, whatever follows it, and exactly its own
      bytes are consumed. */
  lemma RoundTrip(m: Message, rest: seq<Byte>)
    requires Encode(m).Ok?
    ensures Decode(Encode(m).value + rest, TypeOf(m)) == Complete(Normalized(m), |Encode(m).value|)
  {
    ParsesEncodedFrame(m, rest);
    if m.Request? {
      RequestMetadataRoundTrip(m);
    } else {
      ResponseMetadataRoundTrip(m);
    }
  }

  // ---------------------------------------------------------------- stability of verdicts

  /** Bytes that arrive later never change a verdict other than NeedMoreData. */
  lemma VerdictsAreStable(b: seq<Byte>, more: seq<Byte>, expected: MessageType)
    requires Decode(b, expected) != NeedMoreData
    ensures Decode(b + more, expected) == Decode(b, expected)
  {
    hide DecodeRequest, DecodeResponse;
    SameHeader(b, b + more);
    var p := ParseFrame(b, expected);
    if p.Frame? {
      var bodyAt := RPC_HEADER_SIZE + |p.metadata|;
      assert (b + more)[RPC_HEADER_SIZE..bodyAt] == b[RPC_HEADER_SIZE..bodyAt];
      assert (b + more)[bodyAt..p.totalLength] == b[bodyAt..p.totalLength];
    }
    assert ParseFrame(b + more, expected) == p;
  }

  /** A Complete verdict consumes at least a header and never more than there is. */
  lemma CompleteConsumes(b: seq<Byte>, expected: MessageType)
    ensures Decode(b, expected).Complete? ==> RPC_HEADER_SIZE <= Decode(b, expected).consumed <= |b|
  {
  }

  /** A strict prefix of an encoded message only ever asks for more data. */
  lemma PrefixesNeedMore(m: Message, n: nat)
    requires Encode(m).Ok? && n < |Encode(m).value|
    ensures Decode(Encode(m).value[..n], TypeOf(m)) == NeedMoreData
  {
    var frame := Encode(m).value;
    var b := frame[..n];
    if n >= RPC_HEADER_SIZE {
      ParsesEncodedFrame(m, []);
      assert frame + [] == frame;
      SameHeader(b, frame);
    }
  }

  /** Distinct messages have distinct encodings, up to the empty serializer. */
  lemma EncodingIsInjective(m1: Message, m2: Message)
    requires Encode(m1).Ok? && Encode(m2).Ok? && TypeOf(m1) == TypeOf(m2)
    requires Encode(m1).value == Encode(m2).value
    ensures Normalized(m1) == Normalized(m2)
  {
    RoundTrip(m1, []);
    RoundTrip(m2, []);
    assert Encode(m1).value + [] == Encode(m1).value;
    assert Encode(m2).value + [] == Encode(m2).value;
  }

  // ---------------------------------------------------------------- streams

  /** What the message loop makes of the buffered bytes. */
  datatype Batch = Batch(messages: seq<Message>, rest: seq<Byte>, failed: bool)

  function DecodeAll(b: seq<Byte>, expected: MessageType): Batch
    decreases |b|
  {
    CompleteConsumes(b, expected);
    match Decode(b, expected)
    case NeedMoreData => Batch([], b, false)
    case ProtocolError => Batch([], b, true)
    case Complete(message, consumed) =>
      var batch := DecodeAll(b[consumed..], expected);
      batch.(messages := [message] + batch.messages)
  }

  /** Chunks arrive one by one; each is appended and the loop runs. After an error the connection is
      closed and nothing more is read. */
  function Feed(b: seq<Byte>, chunks: seq<seq<Byte>>, expected: MessageType): Batch
    decreases |chunks|
  {
    if chunks == [] then Batch([], b, false)
    else
      var first := DecodeAll(b + chunks[0], expected);
      if first.failed then first
      else
        var later := Feed(first.rest, chunks[1..], expected);
        later.(messages := first.messages + later.messages)
  }

  function Concat(chunks: seq<seq<Byte>>): seq<Byte> {
    if chunks == [] then [] else chunks[0] + Concat(chunks[1..])
  }

  lemma {:induction false} DecodeAllInTwoParts(b: seq<Byte>, more: seq<Byte>, expected: MessageType)
    ensures var first, whole := DecodeAll(b, expected), DecodeAll(b + more, expected);
            if first.failed then whole == first.(rest := first.rest + more)
            else var second := DecodeAll(first.rest + more, expected);
                 whole == second.(messages := first.messages + second.messages)
    decreases |b|
  {
    hide Decode;
    match Decode(b, expected)
    case NeedMoreData =>
      assert [] + DecodeAll(b + more, expected).messages == DecodeAll(b + more, expected).messages;
    case ProtocolError => VerdictsAreStable(b, more, expected);
    case Complete(message, consumed) =>
      CompleteConsumes(b, expected);
      VerdictsAreStable(b, more, expected);
      assert (b + more)[consumed..] == b[consumed..] + more;
      DecodeAllInTwoParts(b[consumed..], more, expected);
      DecodesFirst(b, expected);
      DecodesFirst(b + more, expected);
      var first := DecodeAll(b[consumed..], expected);
      hide DecodeAll;
      if !first.failed {
        var second := DecodeAll(first.rest + more, expected);
        assert [message] + (first.messages + second.messages) == ([message] + first.messages) + second.messages;
      }
  }

  lemma DecodesFirst(b: seq<Byte>, expected: MessageType)
    requires Decode(b, expected).Complete?
    ensures 0 < Decode(b, expected).consumed <= |b|
    ensures var d := Decode(b, expected); var later := DecodeAll(b[d.consumed..], expected);
            DecodeAll(b, expected) == later.(messages := [d.message] + later.messages)
  {
    CompleteConsumes(b, expected);
    hide Decode;
  }

  /** Fragmentation does not matter: however a byte stream, valid or not, is cut into chunks, the
      messages delivered and the error verdict are those of the whole stream, and without an error so
      are the bytes left in the buffer. */
  lemma {:induction false} FragmentationIsInvisible(b: seq<Byte>, chunks: seq<seq<Byte>>, expected: MessageType)
    requires DecodeAll(b, expected) == Batch([], b, false)
    ensures var fed, whole := Feed(b, chunks, expected), DecodeAll(b + Concat(chunks), expected);
            && fed.messages == whole.messages && fed.failed == whole.failed
            && (!fed.failed ==> fed.rest == whole.rest)
    decreases |chunks|
  {
    hide Decode, DecodeAll;
    if chunks == [] {
      assert b + Concat(chunks) == b;
    } else {
      var first := DecodeAll(b + chunks[0], expected);
      var later := Concat(chunks[1..]);
      assert b + Concat(chunks) == (b + chunks[0]) + later;
      DecodeAllInTwoParts(b + chunks[0], later, expected);
      if !first.failed {
        RestIsQuiet(b + chunks[0], expected);
        FragmentationIsInvisible(first.rest, chunks[1..], expected);
      }
    }
  }

  /** What the loop leaves behind holds no further message. */
  lemma {:induction false} RestIsQuiet(b: seq<Byte>, expected: MessageType)
    requires !DecodeAll(b, expected).failed
    ensures var rest := DecodeAll(b, expected).rest; DecodeAll(rest, expected) == Batch([], rest, false)
    decreases |b|
  {
    if Decode(b, expected).Complete? {
      CompleteConsumes(b, expected);
      RestIsQuiet(b[Decode(b, expected).consumed..], expected);
    }
  }

  /** The frames of a list of messages, one after the other. */
  function Stream(messages: seq<Message>): seq<Byte>
    requires forall i :: 0 <= i < |messages| ==> Encode(messages[i]).Ok?
  {
    if messages == [] then [] else Encode(messages[0]).value + Stream(messages[1..])
  }

  function AllNormalized(messages: seq<Message>): (r: seq<Message>)
    ensures |r| == |messages|
  {
    seq(|messages|, i requires 0 <= i < |messages| => Normalized(messages[i]))
  }

  lemma EmptyNeedsMore(expected: MessageType)
    ensures Decode([], expected) == NeedMoreData
  {
  }

  lemma NormalizedHead(messages: seq<Message>)
    requires messages != []
    ensures AllNormalized(messages) == [Normalized(messages[0])] + AllNormalized(messages[1..])
  {
    hide Normalized;
  }

  lemma {:induction false} StreamDecodes(messages: seq<Message>, expected: MessageType)
    requires forall i :: 0 <= i < |messages| ==> Encode(messages[i]).Ok? && TypeOf(messages[i]) == expected
    ensures DecodeAll(Stream(messages), expected) == Batch(AllNormalized(messages), [], false)
  {
    EmptyNeedsMore(expected);
    hide Decode, Encode, AllNormalized, Normalized;
    if messages == [] {
      assert AllNormalized(messages) == [];
    } else {
      var frame, rest := Encode(messages[0]).value, Stream(messages[1..]);
      RoundTrip(messages[0], rest);
      assert Stream(messages)[|frame|..] == rest;
      StreamDecodes(messages[1..], expected);
      NormalizedHead(messages);
    }
  }

  /** Main result: for every list of encodable messages of one kind and every way to cut their frames
      into chunks, feeding the chunks delivers exactly that list, in order, and leaves the buffer
      empty. */
  lemma AnyFragmentationDelivers(messages: seq<Message>, chunks: seq<seq<Byte>>, expected: MessageType)
    requires forall i :: 0 <= i < |messages| ==> Encode(messages[i]).Ok? && TypeOf(messages[i]) == expected
    requires Concat(chunks) == Stream(messages)
    ensures Feed([], chunks, expected) == Batch(AllNormalized(messages), [], false)
  {
    StreamDecodes(messages, expected);
    FragmentationIsInvisible([], chunks, expected);
    assert [] + Concat(chunks) == Stream(messages);
  }
}
