/**
 The wire format byte by byte, without the codec's own readers and writers, and what it has to do with
 them: the encoder writes exactly these bytes, and the decoder accepts exactly these frames, reports a
 protocol error for everything else it can judge, and asks for more data otherwise.
 */
module WireFormat {
  import opened Basics
  import opened Codec
  import opened CodecProofs
  import opened Modular

  // ---------------------------------------------------------------- the format

  /** n bytes, the most significant first. */
  function Big(n: nat, v: nat): (b: seq<Byte>)
    ensures |b| == n
  {
    if n == 0 then [] else Big(n - 1, v / 256) + [v % 256]
  }

  /** The number that bytes stand for, the most significant first. */
  function Number(b: seq<Byte>): nat {
    if b == [] then 0 else 256 * Number(b[..|b| - 1]) + b[|b| - 1]
  }

  function Text(s: seq<Byte>): seq<Byte> { Big(4, |s|) + s }

  /** "MRPC", version 1 and the type. */
  function Preamble(t: MessageType): seq<Byte> {
    [0x4D, 0x52, 0x50, 0x43, 0, 1, 0, if t.RequestType? then 1 else 2]
  }

  /** "META", version 1. */
  const EXTENSION_MARK: seq<Byte> := [0x4D, 0x45, 0x54, 0x41, 0, 1]

  /** Every extended field has the value that stands for an absent extension. */
  predicate Plain(m: Message) {
    match m
    case Request(_, _, _, _, timeoutMs, traceId, serializer, attempt) =>
      timeoutMs == 0 && traceId == [] && serializer == [114, 97, 119] && attempt == 0
    case Response(_, _, _, _, traceId, serverCostUs, serializer) =>
      traceId == [] && serverCostUs == 0 && serializer == [114, 97, 119]
  }

  function SpelledFields(m: Message): seq<Byte> {
    match m
    case Request(_, serviceName, methodName, _, _, _, _, _) => Text(serviceName) + Text(methodName)
    case Response(_, errorCode, errorMessage, _, _, _, _) =>
      Big(4, if errorCode < 0 then errorCode + 0x1_0000_0000 else errorCode) + Text(errorMessage)
  }

  function SpelledExtension(m: Message): seq<Byte> {
    match m
    case Request(_, _, _, _, timeoutMs, traceId, serializer, attempt) =>
      EXTENSION_MARK + (Big(8, timeoutMs) + Big(4, attempt)) + (Text(traceId) + Text(serializer))
    case Response(_, _, _, _, traceId, serverCostUs, serializer) =>
      EXTENSION_MARK + Big(8, serverCostUs) + (Text(traceId) + Text(serializer))
  }

  function SpelledMetadata(m: Message, extended: bool): seq<Byte> {
    SpelledFields(m) + if extended then SpelledExtension(m) else []
  }

  function SpelledHeader(t: MessageType, requestId: U64, metadataLength: nat, bodyLength: nat): (h: seq<Byte>)
    ensures |h| == 24
  {
    Preamble(t) + Big(8, requestId) + (Big(4, metadataLength) + Big(4, bodyLength))
  }

  function Spelled(m: Message, extended: bool): seq<Byte> {
    var metadata := SpelledMetadata(m, extended);
    SpelledHeader(TypeOf(m), m.requestId, |metadata|, |m.payload|) + metadata + m.payload
  }

  /** Strings below 2^32 bytes, metadata and body together at most 16 MiB. */
  predicate Fits(m: Message, extended: bool) {
    StringsFit(m) && |SpelledMetadata(m, extended)| + |m.payload| <= 16 * 1024 * 1024
  }

  /** A frame of this message stands at the front of the bytes; only a plain message may go without its
      extension. */
  predicate Carries(b: seq<Byte>, t: MessageType, m: Message, extended: bool) {
    TypeOf(m) == t && Fits(m, extended) && (extended || Plain(m)) && Spelled(m, extended) <= b
  }

  // ---------------------------------------------------------------- numbers

  function Power256(n: nat): (p: nat)
    ensures p > 0
  {
    if n == 0 then 1 else 256 * Power256(n - 1)
  }

  /** A number put together from a high part and k low bytes is spelled part by part. */
  lemma {:induction false} SpellsParts(n: nat, high: nat, k: nat, low: nat)
    requires low < Power256(k)
    ensures Big(n + k, high * Power256(k) + low) == Big(n, high) + Big(k, low)
    decreases k
  {
    if k == 0 {
      assert Big(n, high) + [] == Big(n, high);
    } else {
      var p, q, r := Power256(k - 1), low / 256, low % 256;
      var v := high * Power256(k) + low;
      assert high * (256 * p) == 256 * (high * p);
      Remainder(256, v, high * p + q, r);
      SpellsParts(n, high, k - 1, q);
      assert Big(n, high) + (Big(k - 1, q) + [r]) == (Big(n, high) + Big(k - 1, q)) + [r];
    }
  }

  lemma SpellsNumbers(a: U16, b: U32, c: U64)
    ensures PutU16(a) == Big(2, a) && PutU32(b) == Big(4, b) && PutU64(c) == Big(8, c)
  {
    SpellsU16(a);
    SpellsU32(b);
    SpellsU64(c);
    hide PutU16, PutU32, PutU64, Big;
  }

  lemma SpellsU64(c: U64)
    ensures PutU64(c) == Big(8, c)
  {
    assert Power256(4) == 0x1_0000_0000 by { assert Power256(2) == 0x1_0000; }
    hide PutU32, Big, Power256;
    SpellsU32(c % 0x1_0000_0000);
    SpellsU32(c / 0x1_0000_0000);
    SpellsParts(4, c / 0x1_0000_0000, 4, c % 0x1_0000_0000);
  }

  lemma SpellsU16(v: U16)
    ensures PutU16(v) == Big(2, v)
  {
    assert Big(1, v / 256) == Big(0, v / 256 / 256) + [v / 256 % 256];
    assert Big(2, v) == [v / 256] + [v % 256];
  }

  lemma SpellsU32(v: U32)
    ensures PutU32(v) == Big(4, v)
  {
    var high, low := v / 0x1_0000, v % 0x1_0000;
    SpellsU16(high);
    SpellsU16(low);
    assert Power256(2) == 0x1_0000;
    SpellsParts(2, high, 2, low);
    assert PutU32(v) == PutU16(high) + PutU16(low);
    hide Big, PutU16;
  }

  lemma ReadsNumbers(a: seq<Byte>, b: seq<Byte>)
    requires |a| == 2 && |b| == 4
    ensures ReadU16(a) == Number(a) && ReadU32(b) == Number(b)
  {
    NumberOfTwo(a[0], a[1]);
    NumberOfFour(b[0], b[1], b[2], b[3]);
    hide Number;
    assert a == [a[0], a[1]] && b == [b[0], b[1], b[2], b[3]];
  }

  lemma NumberOfTwo(b0: Byte, b1: Byte)
    ensures Number([b0, b1]) == 256 * b0 + b1
  {
    NumberOf([], b0);
    NumberOf([b0], b1);
    assert Number([]) == 0;
    hide Number;
    assert [] + [b0] == [b0] && [b0] + [b1] == [b0, b1];
  }

  lemma NumberOfFour(b0: Byte, b1: Byte, b2: Byte, b3: Byte)
    ensures Number([b0, b1, b2, b3]) == 256 * (256 * (256 * b0 + b1) + b2) + b3
  {
    hide Number;
    NumberOfTwo(b0, b1);
    NumberOf([b0, b1], b2);
    NumberOf([b0, b1, b2], b3);
    assert [b0, b1] + [b2] == [b0, b1, b2] && [b0, b1, b2] + [b3] == [b0, b1, b2, b3];
  }

  lemma NumberOf(high: seq<Byte>, low: Byte)
    ensures Number(high + [low]) == 256 * Number(high) + low
  {
    assert (high + [low])[..|high|] == high;
  }

  /** Reading and writing again gives the same bytes. */
  lemma WritesBack(a: seq<Byte>, b: seq<Byte>, c: seq<Byte>)
    requires |a| == 2 && |b| == 4 && |c| == 8
    ensures PutU16(ReadU16(a)) == a && PutU32(ReadU32(b)) == b && PutU64(ReadU64(c)) == c
  {
    WritesBackU16(a);
    WritesBackU32(b);
    WritesBackU32(c[..4]);
    WritesBackU32(c[4..]);
    Remainder(0x1_0000_0000, ReadU64(c), ReadU32(c[..4]), ReadU32(c[4..]));
    hide PutU32, ReadU32;
    assert c == c[..4] + c[4..];
  }

  lemma WritesBackU16(b: seq<Byte>)
    requires |b| == 2
    ensures PutU16(ReadU16(b)) == b
  {
    Remainder(0x100, ReadU16(b), b[0], b[1]);
  }

  lemma WritesBackU32(b: seq<Byte>)
    requires |b| == 4
    ensures PutU32(ReadU32(b)) == b
  {
    var high, low := ReadU16(b[..2]), ReadU16(b[2..]);
    Remainder(0x1_0000, ReadU32(b), high, low);
    Remainder(0x100, high, b[0], b[1]);
    Remainder(0x100, low, b[2], b[3]);
  }

  // ---------------------------------------------------------------- the encoder

  lemma SpellsText(s: seq<Byte>)
    requires |s| <= UINT32_MAX
    ensures PutString(s) == Text(s)
  {
    SpellsNumbers(0, |s|, 0);
  }

  lemma SpellsMarks()
    ensures PutU32(EXTENSION_MAGIC) + PutU16(EXTENSION_VERSION) == EXTENSION_MARK
    ensures PutU32(RPC_MAGIC) + PutU16(PROTOCOL_VERSION) + PutU16(TypeCode(RequestType)) == Preamble(RequestType)
    ensures PutU32(RPC_MAGIC) + PutU16(PROTOCOL_VERSION) + PutU16(TypeCode(ResponseType)) == Preamble(ResponseType)
  {
  }

  lemma SpellsFields(m: Message)
    requires StringsFit(m)
    ensures Fields(m) == SpelledFields(m)
  {
    hide PutString, Text, PutU32;
    if m.Request? {
      SpellsText(m.serviceName);
      SpellsText(m.methodName);
    } else {
      SpellsText(m.errorMessage);
      SpellsNumbers(0, ToU32(m.errorCode), 0);
    }
  }

  lemma SpellsExtension(m: Message)
    requires StringsFit(m)
    ensures Extension(m) == SpelledExtension(m)
  {
    SpellsMarks();
    SpellsText(m.traceId);
    SpellsText(m.serializer);
    if m.Request? {
      SpellsNumbers(0, m.attempt, m.timeoutMs);
    } else {
      SpellsNumbers(0, 0, m.serverCostUs);
    }
    hide PutString, Text, PutU32, PutU64, PutU16, Big;
  }

  lemma SpellsHeader(t: MessageType, requestId: U64, metadataLength: U32, bodyLength: U32)
    ensures Header(t, requestId, metadataLength, bodyLength) == SpelledHeader(t, requestId, metadataLength, bodyLength)
  {
    SpellsMarks();
    SpellsNumbers(0, metadataLength, requestId);
    SpellsNumbers(0, bodyLength, 0);
    hide PutU32, PutU64, PutU16, Big;
  }

  /** Main result: the encoder succeeds exactly when the message fits, and then writes exactly the bytes
      of the format, with the extension exactly when some extended field is not the default. */
  lemma EncodesExactly(m: Message)
    ensures Encode(m).Ok? <==> Fits(m, !Plain(m))
    ensures Encode(m).Ok? ==> Encode(m).value == Spelled(m, !Plain(m))
    ensures Encode(m).Err? ==>
              Encode(m).error == if StringsFit(m) && |SpelledMetadata(m, !Plain(m))| <= UINT32_MAX && |m.payload| <= UINT32_MAX
                                 then MessageTooLarge else StringTooLong
  {
    if StringsFit(m) {
      SpellsFields(m);
      SpellsExtension(m);
      assert Metadata(m) == SpelledMetadata(m, !Plain(m));
      if |Metadata(m)| <= UINT32_MAX && |m.payload| <= UINT32_MAX {
        SpellsHeader(TypeOf(m), m.requestId, |Metadata(m)|, |m.payload|);
      }
    }
    hide Metadata, SpelledMetadata, Header, SpelledHeader;
  }

  // ---------------------------------------------------------------- the decoder's header

  /** What the decoder can judge: the header is of the format and its lengths are allowed. */
  predicate HeaderOk(b: seq<Byte>, t: MessageType)
    requires |b| >= 24
  {
    b[..8] == Preamble(t) && Number(b[16..20]) + Number(b[20..24]) <= 16 * 1024 * 1024
  }

  function FrameLength(b: seq<Byte>): nat
    requires |b| >= 24
  {
    24 + Number(b[16..20]) + Number(b[20..24])
  }

  lemma PreambleReads(b: seq<Byte>, t: MessageType)
    requires |b| >= 24
    ensures b[..8] == Preamble(t) <==>
            ReadU32(b[0..4]) == RPC_MAGIC && ReadU16(b[4..6]) == PROTOCOL_VERSION && ReadU16(b[6..8]) == TypeCode(t)
  {
    var p := Preamble(t);
    SpellsMarks();
    assert p[0..4] == PutU32(RPC_MAGIC) && p[4..6] == PutU16(PROTOCOL_VERSION) && p[6..8] == PutU16(TypeCode(t));
    IntegersRoundTrip(PROTOCOL_VERSION, RPC_MAGIC, 0, 0);
    IntegersRoundTrip(TypeCode(t), RPC_MAGIC, 0, 0);
    WritesBackU32(b[0..4]);
    WritesBack(b[4..6], b[0..4], b[0..8]);
    WritesBack(b[6..8], b[0..4], b[0..8]);
    hide PutU32, PutU16, ReadU32, ReadU16, PutU64, ReadU64;
    assert b[..8] == b[0..4] + b[4..6] + b[6..8];
    assert p == p[0..4] + p[4..6] + p[6..8];
    if b[..8] == p {
      assert b[0..4] == b[..8][0..4] && b[4..6] == b[..8][4..6] && b[6..8] == b[..8][6..8];
    }
  }

  lemma ParsesExactly(b: seq<Byte>, t: MessageType)
    requires |b| >= 24
    ensures ParseFrame(b, t) ==
      if !HeaderOk(b, t) then Invalid
      else if |b| < FrameLength(b) then Incomplete
      else Frame(ReadU64(b[8..16]), b[24..24 + Number(b[16..20])], b[24 + Number(b[16..20])..FrameLength(b)],
                 FrameLength(b))
  {
    PreambleReads(b, t);
    ReadsNumbers([0, 0], b[16..20]);
    ReadsNumbers([0, 0], b[20..24]);
    hide ReadU32, ReadU16, ReadU64, Number, Preamble;
  }

  /** Main result: what the decoder asks for and what it rejects, from the bytes of the header alone. */
  lemma JudgesHeaderExactly(b: seq<Byte>, t: MessageType)
    ensures Decode(b, t) == NeedMoreData <==> |b| < 24 || (HeaderOk(b, t) && |b| < FrameLength(b))
    ensures |b| >= 24 && !HeaderOk(b, t) ==> Decode(b, t) == ProtocolError
  {
    if |b| >= 24 {
      ParsesExactly(b, t);
    }
    hide ReadU64, Number, DecodeRequest, DecodeResponse, Preamble;
  }

  // ---------------------------------------------------------------- what is accepted is of the format

  /** A string that was read stands there with its length in front. */
  lemma TakesStringBack(b: seq<Byte>, offset: nat)
    requires TakeString(b, offset).Some?
    ensures var (s, end) := TakeString(b, offset).value;
      |s| <= UINT32_MAX && end == offset + |Text(s)| <= |b| && b[offset..end] == Text(s)
  {
    var (s, end) := TakeString(b, offset).value;
    WritesBackU32(b[offset..offset + 4]);
    SpellsNumbers(0, |s|, 0);
    assert b[offset..end] == b[offset..offset + 4] + b[offset + 4..end];
  }

  lemma TakesMarkBack(b: seq<Byte>, offset: nat)
    requires TakeExtensionHeader(b, offset).Some?
    ensures TakeExtensionHeader(b, offset).value == offset + 6 <= |b| && b[offset..offset + 6] == EXTENSION_MARK
  {
    WritesBackU32(b[offset..offset + 4]);
    WritesBackU16(b[offset + 4..offset + 6]);
    SpellsMarks();
    assert b[offset..offset + 6] == b[offset..offset + 4] + b[offset + 4..offset + 6];
    hide PutU32, PutU16, ReadU32, ReadU16;
  }

  lemma TakesNumberBack(b: seq<Byte>, offset: nat)
    ensures TakeU32(b, offset).Some? ==>
              var (v, end) := TakeU32(b, offset).value; end == offset + 4 <= |b| && b[offset..end] == Big(4, v)
    ensures TakeU64(b, offset).Some? ==>
              var (v, end) := TakeU64(b, offset).value; end == offset + 8 <= |b| && b[offset..end] == Big(8, v)
  {
    if TakeU32(b, offset).Some? {
      WritesBackU32(b[offset..offset + 4]);
      SpellsNumbers(0, ReadU32(b[offset..offset + 4]), 0);
    }
    if TakeU64(b, offset).Some? {
      WritesBack([0, 0], b[offset..offset + 4], b[offset..offset + 8]);
      SpellsNumbers(0, 0, ReadU64(b[offset..offset + 8]));
    }
    hide ReadU32, ReadU64, PutU32, PutU64, Big;
  }

  /** The last two strings, and what an empty serializer was read as. */
  lemma TakesTailBack(b: seq<Byte>, offset: nat) returns (traceId: seq<Byte>, serializer: seq<Byte>)
    requires TakeTail(b, offset).Some?
    ensures |traceId| <= UINT32_MAX && |serializer| <= UINT32_MAX && offset <= |b|
    ensures TakeTail(b, offset).value == (traceId, RawIfEmpty(serializer))
    ensures b[offset..] == Text(traceId) + Text(serializer)
  {
    TakesStringBack(b, offset);
    var at := TakeString(b, offset).value.1;
    TakesStringBack(b, at);
    traceId, serializer := TakeString(b, offset).value.0, TakeString(b, at).value.0;
    hide TakeString, Text;
    assert b[offset..] == b[offset..at] + b[at..];
  }

  lemma RequestExtensionBack(b: seq<Byte>, offset: nat, timeoutMs: U64, attempt: U32)
    returns (traceId: seq<Byte>, serializer: seq<Byte>)
    requires TakeExtensionHeader(b, offset) == Some(offset + 6)
    requires TakeU64(b, offset + 6) == Some((timeoutMs, offset + 14))
    requires TakeU32(b, offset + 14) == Some((attempt, offset + 18)) && TakeTail(b, offset + 18).Some?
    ensures |traceId| <= UINT32_MAX && |serializer| <= UINT32_MAX && offset <= |b|
    ensures TakeTail(b, offset + 18).value == (traceId, RawIfEmpty(serializer))
    ensures b[offset..] == EXTENSION_MARK + (Big(8, timeoutMs) + Big(4, attempt)) + (Text(traceId) + Text(serializer))
  {
    hide TakeExtensionHeader, TakeU64, TakeU32, TakeTail, Text, Big;
    TakesMarkBack(b, offset);
    TakesNumberBack(b, offset + 6);
    TakesNumberBack(b, offset + 14);
    traceId, serializer := TakesTailBack(b, offset + 18);
    InFourParts(b, offset, offset + 6, offset + 14, offset + 18);
  }

  lemma InFourParts(b: seq<Byte>, o: nat, p: nat, q: nat, r: nat)
    requires o <= p <= q <= r <= |b|
    ensures b[o..] == b[o..p] + (b[p..q] + b[q..r]) + b[r..]
    ensures b[o..] == b[o..p] + b[p..q] + b[q..]
  {
    assert b[o..] == b[o..p] + b[p..];
    assert b[p..] == b[p..q] + b[q..];
    assert b[q..] == b[q..r] + b[r..];
    Associates(b[o..p], b[p..q], b[q..]);
    Associates(b[o..p], b[p..q] + b[q..r], b[r..]);
    Associates(b[p..q], b[q..r], b[r..]);
  }

  lemma Associates(x: seq<Byte>, y: seq<Byte>, z: seq<Byte>)
    ensures (x + y) + z == x + (y + z)
  {
  }

  lemma ResponseExtensionBack(b: seq<Byte>, offset: nat, cost: U64)
    returns (traceId: seq<Byte>, serializer: seq<Byte>)
    requires TakeExtensionHeader(b, offset) == Some(offset + 6)
    requires TakeU64(b, offset + 6) == Some((cost, offset + 14)) && TakeTail(b, offset + 14).Some?
    ensures |traceId| <= UINT32_MAX && |serializer| <= UINT32_MAX && offset <= |b|
    ensures TakeTail(b, offset + 14).value == (traceId, RawIfEmpty(serializer))
    ensures b[offset..] == EXTENSION_MARK + Big(8, cost) + (Text(traceId) + Text(serializer))
  {
    hide TakeExtensionHeader, TakeU64, TakeTail, Text, Big;
    TakesMarkBack(b, offset);
    TakesNumberBack(b, offset + 6);
    traceId, serializer := TakesTailBack(b, offset + 14);
    InFourParts(b, offset, offset + 6, offset + 14, offset + 14);
  }

  /** The two strings that every request begins with. */
  lemma RequestFieldsBack(b: seq<Byte>, at1: nat)
    requires TakeString(b, 0).Some? && TakeString(b, 0).value.1 == at1 && TakeString(b, at1).Some?
    ensures var service, (name, at2) := TakeString(b, 0).value.0, TakeString(b, at1).value;
      && |service| <= UINT32_MAX && |name| <= UINT32_MAX && at2 <= |b|
      && b[..at2] == Text(service) + Text(name)
  {
    TakesStringBack(b, 0);
    TakesStringBack(b, at1);
    hide TakeString, Text;
    var at2 := TakeString(b, at1).value.1;
    assert b[..at2] == b[0..at1] + b[at1..at2];
  }

  /** How far the reader of an accepted request gets. */
  lemma RequestStages(frame: Parsed) returns (at1: nat, at2: nat)
    requires frame.Frame? && DecodeRequest(frame).Some?
    ensures var b := frame.metadata;
      && TakeString(b, 0).Some? && TakeString(b, 0).value.1 == at1
      && TakeString(b, at1).Some? && TakeString(b, at1).value.1 == at2
      && (at2 != |b| ==>
            && TakeExtensionHeader(b, at2) == Some(at2 + 6)
            && TakeU64(b, at2 + 6).Some? && TakeU64(b, at2 + 6).value.1 == at2 + 14
            && TakeU32(b, at2 + 14).Some? && TakeU32(b, at2 + 14).value.1 == at2 + 18
            && TakeTail(b, at2 + 18).Some?)
  {
    var b := frame.metadata;
    hide TakeString, TakeTail, TakeExtensionHeader, TakeU64, TakeU32;
    at1 := TakeString(b, 0).value.1;
    at2 := TakeString(b, at1).value.1;
    TakesEnd(b, at2);
    TakesEnd(b, at2 + 6);
    TakesEnd(b, at2 + 14);
  }

  lemma TakesEnd(b: seq<Byte>, offset: nat)
    ensures TakeExtensionHeader(b, offset).Some? ==> TakeExtensionHeader(b, offset).value == offset + 6
    ensures TakeU32(b, offset).Some? ==> TakeU32(b, offset).value.1 == offset + 4
    ensures TakeU64(b, offset).Some? ==> TakeU64(b, offset).value.1 == offset + 8
  {
    hide ReadU16, ReadU32, ReadU64;
  }

  lemma PlainRequest(frame: Parsed, at1: nat, m: Message)
    requires frame.Frame? && m.Request? && var b := frame.metadata;
      TakeString(b, 0) == Some((m.serviceName, at1)) && TakeString(b, at1) == Some((m.methodName, |b|))
    requires m == Request(frame.requestId, m.serviceName, m.methodName, frame.body, 0, [], RAW, 0)
    ensures DecodeRequest(frame) == Some(m)
  {
    hide TakeString;
  }

  lemma ExtendedRequest(frame: Parsed, at1: nat, at2: nat, m: Message)
    requires frame.Frame? && m.Request? && var b := frame.metadata;
      && TakeString(b, 0) == Some((m.serviceName, at1))
      && TakeString(b, at1) == Some((m.methodName, at2)) && at2 != |b|
      && TakeExtensionHeader(b, at2) == Some(at2 + 6)
      && TakeU64(b, at2 + 6) == Some((m.timeoutMs, at2 + 14))
      && TakeU32(b, at2 + 14) == Some((m.attempt, at2 + 18))
      && TakeTail(b, at2 + 18) == Some((m.traceId, m.serializer))
    requires m.requestId == frame.requestId && m.payload == frame.body
    ensures DecodeRequest(frame) == Some(m)
  {
    hide TakeString, TakeExtensionHeader, TakeU64, TakeU32, TakeTail;
  }

  lemma SpelledInParts(b: seq<Byte>, at: nat, m: Message, extended: bool)
    requires at <= |b| && b[..at] == SpelledFields(m)
    requires b[at..] == if extended then SpelledExtension(m) else []
    ensures b == SpelledMetadata(m, extended)
  {
    hide SpelledFields, SpelledExtension;
    assert b == b[..at] + b[at..];
  }

  lemma ExtendedRequestBack(frame: Parsed, service: seq<Byte>, at1: nat, name: seq<Byte>, at2: nat)
    returns (m: Message)
    requires frame.Frame? && DecodeRequest(frame).Some? && |service| <= UINT32_MAX && |name| <= UINT32_MAX
    requires var b := frame.metadata;
      && TakeString(b, 0) == Some((service, at1)) && TakeString(b, at1) == Some((name, at2)) && at2 != |b|
      && TakeExtensionHeader(b, at2) == Some(at2 + 6)
      && TakeU64(b, at2 + 6).Some? && TakeU64(b, at2 + 6).value.1 == at2 + 14
      && TakeU32(b, at2 + 14).Some? && TakeU32(b, at2 + 14).value.1 == at2 + 18
      && TakeTail(b, at2 + 18).Some?
    ensures m.Request? && StringsFit(m) && at2 <= |frame.metadata|
    ensures frame.metadata[at2..] == SpelledExtension(m) && SpelledFields(m) == Text(service) + Text(name)
    ensures DecodeRequest(frame).value == Normalized(m) && m.payload == frame.body && m.requestId == frame.requestId
  {
    hide TakeString, Text, Big, DecodeRequest, TakeExtensionHeader, TakeU64, TakeU32, TakeTail;
    var b := frame.metadata;
    var timeoutMs, attempt := TakeU64(b, at2 + 6).value.0, TakeU32(b, at2 + 14).value.0;
    var traceId, serializer := RequestExtensionBack(b, at2, timeoutMs, attempt);
    m := Request(frame.requestId, service, name, frame.body, timeoutMs, traceId, serializer, attempt);
    ExtendedRequest(frame, at1, at2, Normalized(m));
  }

  /** Accepted metadata is spelled metadata of a message that reads as the accepted one. */
  lemma RequestMetadataBack(frame: Parsed) returns (m: Message, extended: bool)
    requires frame.Frame? && DecodeRequest(frame).Some?
    ensures m.Request? && StringsFit(m) && (extended || Plain(m))
    ensures frame.metadata == SpelledMetadata(m, extended)
    ensures DecodeRequest(frame).value == Normalized(m) && m.payload == frame.body && m.requestId == frame.requestId
  {
    var b := frame.metadata;
    var at1, at2 := RequestStages(frame);
    RequestFieldsBack(b, at1);
    hide TakeString, Text, Big, DecodeRequest, TakeExtensionHeader, TakeU64, TakeU32, TakeTail, SpelledMetadata;
    var service, name := TakeString(b, 0).value.0, TakeString(b, at1).value.0;
    extended := at2 != |b|;
    if extended {
      hide SpelledExtension, SpelledFields, StringsFit;
      m := ExtendedRequestBack(frame, service, at1, name, at2);
    } else {
      m := Request(frame.requestId, service, name, frame.body, 0, [], RAW, 0);
      PlainRequest(frame, at1, m);
    }
    hide StringsFit, Plain, Normalized;
    SpelledInParts(b, at2, m, extended);
  }

  lemma ErrorCodeBack(code: U32)
    ensures var c := ToI32(code); (if c < 0 then c + 0x1_0000_0000 else c) == code
  {
  }

  lemma ResponseFieldsBack(b: seq<Byte>)
    requires TakeU32(b, 0).Some? && TakeU32(b, 0).value.1 == 4 && TakeString(b, 4).Some?
    ensures var code, (text, at2) := TakeU32(b, 0).value.0, TakeString(b, 4).value;
      && |text| <= UINT32_MAX && at2 <= |b| && b[..at2] == Big(4, code) + Text(text)
  {
    TakesNumberBack(b, 0);
    TakesStringBack(b, 4);
    hide TakeString, TakeU32, Text, Big;
    var at2 := TakeString(b, 4).value.1;
    assert b[..at2] == b[0..4] + b[4..at2];
  }

  lemma ResponseStages(frame: Parsed) returns (at2: nat)
    requires frame.Frame? && DecodeResponse(frame).Some?
    ensures var b := frame.metadata;
      && TakeU32(b, 0).Some? && TakeU32(b, 0).value.1 == 4
      && TakeString(b, 4).Some? && TakeString(b, 4).value.1 == at2
      && (at2 != |b| ==>
            && TakeExtensionHeader(b, at2) == Some(at2 + 6)
            && TakeU64(b, at2 + 6).Some? && TakeU64(b, at2 + 6).value.1 == at2 + 14
            && TakeTail(b, at2 + 14).Some?)
  {
    hide TakeString, TakeTail, TakeExtensionHeader, TakeU64, TakeU32;
    TakesEnd(frame.metadata, 0);
    at2 := TakeString(frame.metadata, 4).value.1;
    TakesEnd(frame.metadata, at2);
    TakesEnd(frame.metadata, at2 + 6);
  }

  lemma PlainResponse(frame: Parsed, code: U32, m: Message)
    requires frame.Frame? && m.Response? && var b := frame.metadata;
      TakeU32(b, 0) == Some((code, 4)) && TakeString(b, 4) == Some((m.errorMessage, |b|))
    requires m == Response(frame.requestId, ToI32(code), m.errorMessage, frame.body, [], 0, RAW)
    ensures DecodeResponse(frame) == Some(m)
  {
    hide TakeString, TakeU32;
  }

  lemma ExtendedResponse(frame: Parsed, code: U32, at2: nat, m: Message)
    requires frame.Frame? && m.Response? && var b := frame.metadata;
      && TakeU32(b, 0) == Some((code, 4)) && TakeString(b, 4) == Some((m.errorMessage, at2)) && at2 != |b|
      && TakeExtensionHeader(b, at2) == Some(at2 + 6)
      && TakeU64(b, at2 + 6) == Some((m.serverCostUs, at2 + 14))
      && TakeTail(b, at2 + 14) == Some((m.traceId, m.serializer))
    requires m.requestId == frame.requestId && m.payload == frame.body && m.errorCode == ToI32(code)
    ensures DecodeResponse(frame) == Some(m)
  {
    hide TakeString, TakeExtensionHeader, TakeU64, TakeU32, TakeTail;
  }

  lemma ExtendedResponseBack(frame: Parsed, code: U32, text: seq<Byte>, at2: nat) returns (m: Message)
    requires frame.Frame? && DecodeResponse(frame).Some? && |text| <= UINT32_MAX
    requires var b := frame.metadata;
      && TakeU32(b, 0) == Some((code, 4)) && TakeString(b, 4) == Some((text, at2)) && at2 != |b|
      && TakeExtensionHeader(b, at2) == Some(at2 + 6)
      && TakeU64(b, at2 + 6).Some? && TakeU64(b, at2 + 6).value.1 == at2 + 14 && TakeTail(b, at2 + 14).Some?
    ensures m.Response? && StringsFit(m) && at2 <= |frame.metadata|
    ensures frame.metadata[at2..] == SpelledExtension(m) && SpelledFields(m) == Big(4, code) + Text(text)
    ensures DecodeResponse(frame).value == Normalized(m) && m.payload == frame.body && m.requestId == frame.requestId
  {
    hide TakeString, Text, Big, DecodeResponse, TakeExtensionHeader, TakeU64, TakeU32, TakeTail;
    var cost := TakeU64(frame.metadata, at2 + 6).value.0;
    var traceId, serializer := ResponseExtensionBack(frame.metadata, at2, cost);
    m := Response(frame.requestId, ToI32(code), text, frame.body, traceId, cost, serializer);
    ErrorCodeBack(code);
    ExtendedResponse(frame, code, at2, Normalized(m));
  }

  lemma ResponseMetadataBack(frame: Parsed) returns (m: Message, extended: bool)
    requires frame.Frame? && DecodeResponse(frame).Some?
    ensures m.Response? && StringsFit(m) && (extended || Plain(m))
    ensures frame.metadata == SpelledMetadata(m, extended)
    ensures DecodeResponse(frame).value == Normalized(m) && m.payload == frame.body && m.requestId == frame.requestId
  {
    var b := frame.metadata;
    var at2 := ResponseStages(frame);
    ResponseFieldsBack(b);
    hide TakeString, Text, Big, DecodeResponse, TakeExtensionHeader, TakeU64, TakeU32, TakeTail, SpelledMetadata;
    var code, text := TakeU32(b, 0).value.0, TakeString(b, 4).value.0;
    extended := at2 != |b|;
    if extended {
      hide SpelledExtension, SpelledFields, StringsFit, ToI32;
      m := ExtendedResponseBack(frame, code, text, at2);
    } else {
      ErrorCodeBack(code);
      m := Response(frame.requestId, ToI32(code), text, frame.body, [], 0, RAW);
      PlainResponse(frame, code, m);
    }
    hide StringsFit, Plain, Normalized;
    SpelledInParts(b, at2, m, extended);
  }

  /** The header of a frame that was parsed. */
  lemma HeaderBack(b: seq<Byte>, t: MessageType)
    requires |b| >= 24 && b[..8] == Preamble(t)
    ensures b[..24] == SpelledHeader(t, ReadU64(b[8..16]), Number(b[16..20]), Number(b[20..24]))
  {
    WritesBack([0, 0], b[16..20], b[8..16]);
    WritesBackU32(b[20..24]);
    ReadsNumbers([0, 0], b[16..20]);
    ReadsNumbers([0, 0], b[20..24]);
    SpellsNumbers(0, ReadU32(b[16..20]), ReadU64(b[8..16]));
    SpellsNumbers(0, ReadU32(b[20..24]), 0);
    hide PutU32, PutU64, ReadU32, ReadU64, Number, Big, Preamble;
    assert b[..24] == b[..8] + b[8..16] + (b[16..20] + b[20..24]);
  }

  /** What an accepted frame looks like in the bytes. */
  predicate ParsedFrom(b: seq<Byte>, t: MessageType, frame: Parsed) {
    && frame.Frame? && frame.totalLength == 24 + |frame.metadata| + |frame.body| <= |b|
    && |frame.metadata| + |frame.body| <= 16 * 1024 * 1024
    && b[..24] == SpelledHeader(t, frame.requestId, |frame.metadata|, |frame.body|)
    && b[24..24 + |frame.metadata|] == frame.metadata
    && b[24 + |frame.metadata|..frame.totalLength] == frame.body
  }

  lemma AcceptedIsParsed(b: seq<Byte>, t: MessageType)
    requires Decode(b, t).Complete?
    ensures var frame := ParseFrame(b, t);
      && ParsedFrom(b, t, frame) && Decode(b, t).consumed == frame.totalLength
      && Some(Decode(b, t).message) == if t.RequestType? then DecodeRequest(frame) else DecodeResponse(frame)
  {
    hide ParseFrame, Number, Preamble, SpelledHeader, ReadU64, DecodeRequest, DecodeResponse;
    JudgesHeaderExactly(b, t);
    ParsesExactly(b, t);
    HeaderBack(b, t);
  }

  /** Whatever the decoder accepts is a frame of the format at the front of the bytes. */
  lemma AcceptsOnlyFrames(b: seq<Byte>, t: MessageType) returns (m: Message, extended: bool)
    requires Decode(b, t).Complete?
    ensures Carries(b, t, m, extended)
    ensures Decode(b, t) == Complete(Normalized(m), |Spelled(m, extended)|)
  {
    AcceptedIsParsed(b, t);
    var frame := ParseFrame(b, t);
    hide Decode, ParseFrame, SpelledHeader, SpelledMetadata, Plain, StringsFit, Carries, Spelled;
    if t.RequestType? {
      m, extended := RequestMetadataBack(frame);
    } else {
      m, extended := ResponseMetadataBack(frame);
    }
    hide DecodeRequest, DecodeResponse, Normalized;
    CarriedFrame(b, t, frame, m, extended);
  }

  lemma CarriedFrame(b: seq<Byte>, t: MessageType, frame: Parsed, m: Message, extended: bool)
    requires ParsedFrom(b, t, frame) && TypeOf(m) == t && StringsFit(m) && (extended || Plain(m))
    requires frame.metadata == SpelledMetadata(m, extended)
    requires frame.body == m.payload && frame.requestId == m.requestId
    ensures Carries(b, t, m, extended) && |Spelled(m, extended)| == frame.totalLength
  {
    FrameInParts(b, frame.metadata, frame.body);
    hide SpelledMetadata, SpelledHeader, StringsFit, Plain;
  }

  lemma FrameInParts(b: seq<Byte>, metadata: seq<Byte>, body: seq<Byte>)
    requires 24 + |metadata| + |body| <= |b|
    requires b[24..24 + |metadata|] == metadata
    requires b[24 + |metadata|..24 + |metadata| + |body|] == body
    ensures b[..24] + metadata + body == b[..24 + |metadata| + |body|] <= b
  {
  }

  // ---------------------------------------------------------------- what is of the format is accepted

  lemma RequestFieldsRead(b: seq<Byte>, m: Message)
    requires m.Request? && StringsFit(m) && Fields(m) <= b
    ensures var at1 := |PutString(m.serviceName)|;
      TakeString(b, 0) == Some((m.serviceName, at1)) && TakeString(b, at1) == Some((m.methodName, |Fields(m)|))
  {
    assert At(b, 0, Fields(m));
    AtBoth(b, 0, PutString(m.serviceName), PutString(m.methodName));
    hide At, PutString, TakeString;
    TakesString(b, 0, m.serviceName);
    TakesString(b, |PutString(m.serviceName)|, m.methodName);
  }

  /** The format's metadata in the words of the writer. */
  lemma SpelledIsWritten(m: Message, extended: bool)
    requires StringsFit(m)
    ensures SpelledMetadata(m, extended) == Fields(m) + if extended then Extension(m) else []
    ensures Extension(m) != []
  {
    SpellsFields(m);
    SpellsExtension(m);
    ExtensionIsLong(m);
    hide SpelledFields, SpelledExtension, Fields, Extension, StringsFit;
  }

  lemma RequestMetadataReads(frame: Parsed, m: Message, extended: bool)
    requires m.Request? && StringsFit(m) && (extended || Plain(m))
    requires frame.Frame? && frame.metadata == SpelledMetadata(m, extended)
    requires frame.requestId == m.requestId && frame.body == m.payload
    ensures DecodeRequest(frame) == Some(Normalized(m))
  {
    SpelledIsWritten(m, extended);
    hide SpelledMetadata, Fields, Extension, At, DecodeRequest, TakeString, PutString;
    RequestFieldsRead(frame.metadata, m);
    if extended {
      ExtensionFollows(frame.metadata, Fields(m), Extension(m));
      RequestExtensionReads(frame, |PutString(m.serviceName)|, |Fields(m)|, m);
    } else {
      assert Fields(m) + [] == Fields(m);
      PlainRequest(frame, |PutString(m.serviceName)|, m);
    }
  }

  lemma ExtensionIsLong(m: Message)
    requires StringsFit(m)
    ensures Extension(m) != []
  {
  }

  lemma ExtensionFollows(b: seq<Byte>, fields: seq<Byte>, extension: seq<Byte>)
    requires b == fields + extension
    ensures At(b, |fields|, extension) && |fields| + |extension| == |b|
  {
  }

  lemma RequestExtensionReads(frame: Parsed, at1: nat, at2: nat, m: Message)
    requires m.Request? && StringsFit(m) && frame.Frame?
    requires frame.requestId == m.requestId && frame.body == m.payload
    requires var b := frame.metadata;
      && TakeString(b, 0) == Some((m.serviceName, at1)) && TakeString(b, at1) == Some((m.methodName, at2))
      && At(b, at2, Extension(m)) && at2 + |Extension(m)| == |b| != at2
    ensures DecodeRequest(frame) == Some(Normalized(m))
  {
    hide TakeString, TakeExtensionHeader, TakeU64, TakeU32, TakeTail, At, Extension, DecodeRequest, StringsFit;
    TakesRequestExtension(frame.metadata, at2, m);
    ExtendedRequest(frame, at1, at2, Normalized(m));
  }

  lemma ResponseFieldsRead(b: seq<Byte>, m: Message)
    requires m.Response? && StringsFit(m) && Fields(m) <= b
    ensures TakeU32(b, 0) == Some((ToU32(m.errorCode), 4)) && TakeString(b, 4) == Some((m.errorMessage, |Fields(m)|))
  {
    assert At(b, 0, Fields(m));
    AtBoth(b, 0, PutU32(ToU32(m.errorCode)), PutString(m.errorMessage));
    hide At, TakeString, TakeU32, ToU32;
    TakesU32(b, 0, ToU32(m.errorCode));
    TakesString(b, 4, m.errorMessage);
  }

  lemma ResponseMetadataReads(frame: Parsed, m: Message, extended: bool)
    requires m.Response? && StringsFit(m) && (extended || Plain(m))
    requires frame.Frame? && frame.metadata == SpelledMetadata(m, extended)
    requires frame.requestId == m.requestId && frame.body == m.payload
    ensures DecodeResponse(frame) == Some(Normalized(m))
  {
    SpelledIsWritten(m, extended);
    ErrorCodeReads(m.errorCode);
    hide SpelledMetadata, Fields, Extension, At, DecodeResponse, TakeString, TakeU32, ToU32, ToI32;
    ResponseFieldsRead(frame.metadata, m);
    if extended {
      ExtensionFollows(frame.metadata, Fields(m), Extension(m));
      ResponseExtensionReads(frame, ToU32(m.errorCode), |Fields(m)|, m);
    } else {
      assert Fields(m) + [] == Fields(m);
      PlainResponse(frame, ToU32(m.errorCode), m);
    }
  }

  lemma ErrorCodeReads(code: I32)
    ensures ToI32(ToU32(code)) == code
  {
  }

  lemma ResponseExtensionReads(frame: Parsed, code: U32, at2: nat, m: Message)
    requires m.Response? && StringsFit(m) && frame.Frame? && ToI32(code) == m.errorCode
    requires frame.requestId == m.requestId && frame.body == m.payload
    requires var b := frame.metadata;
      && TakeU32(b, 0) == Some((code, 4)) && TakeString(b, 4) == Some((m.errorMessage, at2))
      && At(b, at2, Extension(m)) && at2 + |Extension(m)| == |b| != at2
    ensures DecodeResponse(frame) == Some(Normalized(m))
  {
    hide TakeString, TakeExtensionHeader, TakeU64, TakeU32, TakeTail, At, Extension, DecodeResponse, StringsFit;
    TakesResponseExtension(frame.metadata, at2, m);
    ExtendedResponse(frame, code, at2, Normalized(m));
  }

  lemma HeaderReads(b: seq<Byte>, t: MessageType, requestId: U64, metadataLength: U32, bodyLength: U32)
    requires |b| >= 24 && b[..24] == SpelledHeader(t, requestId, metadataLength, bodyLength)
    ensures b[..8] == Preamble(t) && ReadU64(b[8..16]) == requestId
    ensures Number(b[16..20]) == metadataLength && Number(b[20..24]) == bodyLength
  {
    SpellsHeader(t, requestId, metadataLength, bodyLength);
    HeaderReadsBack(t, requestId, metadataLength, bodyLength);
    SameHeader(b[..24], b);
    ReadsNumbers([0, 0], b[16..20]);
    ReadsNumbers([0, 0], b[20..24]);
    hide ReadU32, ReadU64, ReadU16, Number, Header;
    assert b[..8] == b[..24][..8];
  }

  lemma CarriedIsParsed(b: seq<Byte>, t: MessageType, m: Message, extended: bool)
    requires Carries(b, t, m, extended)
    ensures ParseFrame(b, t) ==
            Frame(m.requestId, SpelledMetadata(m, extended), m.payload, |Spelled(m, extended)|)
  {
    var metadata := SpelledMetadata(m, extended);
    var h := SpelledHeader(t, m.requestId, |metadata|, |m.payload|);
    hide SpelledHeader, SpelledMetadata, Number, Preamble, ReadU64, StringsFit, Plain;
    var rest := b[|Spelled(m, extended)|..];
    assert b == h + metadata + m.payload + rest;
    ThreeParts(h, metadata, m.payload, rest);
    assert b[..24] == h;
    HeaderReads(b, t, m.requestId, |metadata|, |m.payload|);
    ParsesExactly(b, t);
    hide ParseFrame;
  }

  lemma AcceptsEveryFrame(b: seq<Byte>, t: MessageType, m: Message, extended: bool)
    requires Carries(b, t, m, extended)
    ensures Decode(b, t) == Complete(Normalized(m), |Spelled(m, extended)|)
  {
    CarriedIsParsed(b, t, m, extended);
    hide ParseFrame, Spelled, SpelledMetadata, DecodeRequest, DecodeResponse;
    if t.RequestType? {
      RequestMetadataReads(ParseFrame(b, t), m, extended);
    } else {
      ResponseMetadataReads(ParseFrame(b, t), m, extended);
    }
  }

  /** Main result: the decoder delivers a message exactly when a frame of it stands at the front of the
      bytes, and consumes exactly that frame; an empty serializer is delivered as "raw". */
  lemma DecodesExactly(b: seq<Byte>, t: MessageType, message: Message, consumed: nat)
    ensures Decode(b, t) == Complete(message, consumed) <==>
            exists m, extended ::
              && Carries(b, t, m, extended) && consumed == |Spelled(m, extended)|
              && message == m.(serializer := if m.serializer == [] then [114, 97, 119] else m.serializer)
  {
    hide Decode, Spelled, Carries;
    if Decode(b, t) == Complete(message, consumed) {
      var m, extended := AcceptsOnlyFrames(b, t);
    }
    forall m, extended | Carries(b, t, m, extended)
      ensures Decode(b, t) == Complete(Normalized(m), |Spelled(m, extended)|)
    {
      AcceptsEveryFrame(b, t, m, extended);
    }
  }

  /** Main result: a protocol error is reported exactly when the header is not of the format, or all the
      bytes it announces are there and are no frame. */
  lemma RejectsExactly(b: seq<Byte>, t: MessageType)
    ensures Decode(b, t) == ProtocolError <==>
            && |b| >= 24
            && (!HeaderOk(b, t)
                || (|b| >= FrameLength(b) && forall m, extended :: !Carries(b, t, m, extended)))
  {
    JudgesHeaderExactly(b, t);
    hide Decode, HeaderOk, Carries, Spelled, Number;
    if Decode(b, t).Complete? {
      var m, extended := AcceptsOnlyFrames(b, t);
    }
    forall m, extended | Carries(b, t, m, extended) ensures Decode(b, t).Complete? {
      AcceptsEveryFrame(b, t, m, extended);
    }
  }

  // ---------------------------------------------------------------- the message loop

  /** Main result: the message loop stops where the decoder does not deliver any more: after an error at a
      position where the decoder reports one, otherwise where it asks for more. What it took are the frames of
      the delivered messages, one behind the other. */
  lemma {:induction false} LoopStopsExactly(b: seq<Byte>, t: MessageType)
    ensures var d := DecodeAll(b, t);
      && Decode(d.rest, t) == (if d.failed then ProtocolError else NeedMoreData)
      && |d.rest| <= |b| && b[|b| - |d.rest|..] == d.rest
      && (d.messages == [] <==> !Decode(b, t).Complete?)
      && (Decode(b, t).Complete? ==>
            && 0 < Decode(b, t).consumed <= |b| && d.messages[0] == Decode(b, t).message
            && d.messages[1..] == DecodeAll(b[Decode(b, t).consumed..], t).messages)
    decreases |b|
  {
    CompleteConsumes(b, t);
    hide Decode;
    if Decode(b, t).Complete? {
      LoopStopsExactly(b[Decode(b, t).consumed..], t);
    }
  }
}
