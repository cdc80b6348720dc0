/**
 The RPC wire format: 24-byte header, metadata with an optional extension block, body.

 Strings are byte sequences; all integers are big-endian.
 */
module Codec {
  import opened Basics

  const RPC_MAGIC: U32 := 0x4D525043
  const PROTOCOL_VERSION: U16 := 1
  const RPC_HEADER_SIZE: nat := 24
  const MAX_MESSAGE_SIZE: nat := 16 * 1024 * 1024
  const EXTENSION_MAGIC: U32 := 0x4d455441
  const EXTENSION_VERSION: U16 := 1
  const UINT32_MAX: nat := 0xffff_ffff
  const RAW: seq<Byte> := [114, 97, 119]

  type U16 = n: nat | n < 0x1_0000
  type U32 = n: nat | n < 0x1_0000_0000
  type U64 = n: nat | n < 0x1_0000_0000_0000_0000
  type I32 = n: int | -0x8000_0000 <= n < 0x8000_0000

  datatype MessageType = RequestType | ResponseType

  datatype Message =
    | Request(requestId: U64, serviceName: seq<Byte>, methodName: seq<Byte>, payload: seq<Byte>,
              timeoutMs: U64, traceId: seq<Byte>, serializer: seq<Byte>, attempt: U32)
    | Response(requestId: U64, errorCode: I32, errorMessage: seq<Byte>, payload: seq<Byte>,
               traceId: seq<Byte>, serverCostUs: U64, serializer: seq<Byte>)

  datatype EncodeError = StringTooLong | MessageTooLarge

  datatype Decoded = NeedMoreData | ProtocolError | Complete(message: Message, consumed: nat)

  function TypeOf(m: Message): MessageType {
    if m.Request? then RequestType else ResponseType
  }

  function TypeCode(t: MessageType): U16 {
    if t == RequestType then 1 else 2
  }

  // ---------------------------------------------------------------- integers

  function PutU16(v: U16): (b: seq<Byte>)
    ensures |b| == 2
  {
    [v / 0x100, v % 0x100]
  }

  function PutU32(v: U32): (b: seq<Byte>)
    ensures |b| == 4
  {
    var high, low := v / 0x1_0000, v % 0x1_0000;
    [high / 0x100, high % 0x100, low / 0x100, low % 0x100]
  }

  function PutU64(v: U64): (b: seq<Byte>)
    ensures |b| == 8
  {
    PutU32(v / 0x1_0000_0000) + PutU32(v % 0x1_0000_0000)
  }

  function ReadU16(b: seq<Byte>): U16
    requires |b| == 2
  {
    var b0: int, b1: int := b[0], b[1];
    b0 * 0x100 + b1
  }

  function ReadU32(b: seq<Byte>): U32
    requires |b| == 4
  {
    var b0: int, b1: int, b2: int, b3: int := b[0], b[1], b[2], b[3];
    b0 * 0x100_0000 + b1 * 0x1_0000 + b2 * 0x100 + b3
  }

  function ReadU64(b: seq<Byte>): U64
    requires |b| == 8
  {
    ReadU32(b[..4]) * 0x1_0000_0000 + ReadU32(b[4..])
  }

  /** static_cast<uint32_t>(int) and back. */
  function ToU32(v: I32): U32 {
    if v < 0 then v + 0x1_0000_0000 else v
  }

  function ToI32(v: U32): I32 {
    if v >= 0x8000_0000 then v - 0x1_0000_0000 else v
  }

  lemma IntegersRoundTrip(a: U16, b: U32, c: U64, d: I32)
    ensures ReadU16(PutU16(a)) == a
    ensures ReadU32(PutU32(b)) == b
    ensures ReadU64(PutU64(c)) == c
    ensures ToI32(ToU32(d)) == d
  {
    ReadsBackU32(b);
    ReadsBackU32(c / 0x1_0000_0000);
    ReadsBackU32(c % 0x1_0000_0000);
    assert PutU64(c)[..4] == PutU32(c / 0x1_0000_0000);
    assert PutU64(c)[4..] == PutU32(c % 0x1_0000_0000);
  }

  lemma ReadsBackU32(v: U32)
    ensures ReadU32(PutU32(v)) == v
  {
    var high, low := v / 0x1_0000, v % 0x1_0000;
    assert high == high / 0x100 * 0x100 + high % 0x100;
    assert low == low / 0x100 * 0x100 + low % 0x100;
  }

  // ---------------------------------------------------------------- encoding

  function PutString(s: seq<Byte>): seq<Byte>
    requires |s| <= UINT32_MAX
  {
    PutU32(|s|) + s
  }

  predicate HasExtension(m: Message) {
    match m
    case Request(_, _, _, _, timeoutMs, traceId, serializer, attempt) =>
      timeoutMs != 0 || traceId != [] || serializer != RAW || attempt != 0
    case Response(_, _, _, _, traceId, serverCostUs, serializer) =>
      traceId != [] || serverCostUs != 0 || serializer != RAW
  }

  /** Every string fits a 32-bit length. */
  predicate StringsFit(m: Message) {
    match m
    case Request(_, serviceName, methodName, _, _, traceId, serializer, _) =>
      |serviceName| <= UINT32_MAX && |methodName| <= UINT32_MAX && |traceId| <= UINT32_MAX && |serializer| <= UINT32_MAX
    case Response(_, _, errorMessage, _, traceId, _, serializer) =>
      |errorMessage| <= UINT32_MAX && |traceId| <= UINT32_MAX && |serializer| <= UINT32_MAX
  }

  function Fields(m: Message): seq<Byte>
    requires StringsFit(m)
  {
    match m
    case Request(_, serviceName, methodName, _, _, _, _, _) => PutString(serviceName) + PutString(methodName)
    case Response(_, errorCode, errorMessage, _, _, _, _) => PutU32(ToU32(errorCode)) + PutString(errorMessage)
  }

  function Extension(m: Message): seq<Byte>
    requires StringsFit(m)
  {
    var header := PutU32(EXTENSION_MAGIC) + PutU16(EXTENSION_VERSION);
    match m
    case Request(_, _, _, _, timeoutMs, traceId, serializer, attempt) =>
      header + (PutU64(timeoutMs) + PutU32(attempt)) + (PutString(traceId) + PutString(serializer))
    case Response(_, _, _, _, traceId, serverCostUs, serializer) =>
      header + PutU64(serverCostUs) + (PutString(traceId) + PutString(serializer))
  }

  function Metadata(m: Message): seq<Byte>
    requires StringsFit(m)
  {
    Fields(m) + if HasExtension(m) then Extension(m) else []
  }

  function Header(t: MessageType, requestId: U64, metadataLength: U32, bodyLength: U32): (h: seq<Byte>)
    ensures |h| == RPC_HEADER_SIZE
  {
    (PutU32(RPC_MAGIC) + PutU16(PROTOCOL_VERSION) + PutU16(TypeCode(t))) + PutU64(requestId)
    + (PutU32(metadataLength) + PutU32(bodyLength))
  }

  function EncodeFrame(t: MessageType, requestId: U64, metadata: seq<Byte>, body: seq<Byte>)
    : Result<seq<Byte>, EncodeError>
  {
    if |metadata| > UINT32_MAX || |body| > UINT32_MAX then Err(StringTooLong)
    else if |metadata| > MAX_MESSAGE_SIZE || |body| > MAX_MESSAGE_SIZE - |metadata| then Err(MessageTooLarge)
    else Ok(Header(t, requestId, |metadata|, |body|) + metadata + body)
  }

  /** encodeRequest and encodeResponse. */
  function Encode(m: Message): Result<seq<Byte>, EncodeError> {
    if !StringsFit(m) then Err(StringTooLong)
    else EncodeFrame(TypeOf(m), m.requestId, Metadata(m), m.payload)
  }

  // ---------------------------------------------------------------- decoding

  datatype Parsed =
    | Incomplete
    | Invalid
    | Frame(requestId: U64, metadata: seq<Byte>, body: seq<Byte>, totalLength: nat)

  function ParseFrame(b: seq<Byte>, expected: MessageType): (p: Parsed)
  {
    if |b| < RPC_HEADER_SIZE then Incomplete
    else
      var metadataLength, bodyLength := ReadU32(b[16..20]), ReadU32(b[20..24]);
      if ReadU32(b[0..4]) != RPC_MAGIC || ReadU16(b[4..6]) != PROTOCOL_VERSION || ReadU16(b[6..8]) != TypeCode(expected)
      then Invalid
      else if metadataLength > MAX_MESSAGE_SIZE || bodyLength > MAX_MESSAGE_SIZE - metadataLength then Invalid
      else
        var bodyAt := RPC_HEADER_SIZE + metadataLength;
        var totalLength := bodyAt + bodyLength;
        if |b| < totalLength then Incomplete
        else Frame(ReadU64(b[8..16]), b[RPC_HEADER_SIZE..bodyAt], b[bodyAt..totalLength], totalLength)
  }

  /** The metadata readers: the value and the offset after it, or None. */
  function TakeU16(b: seq<Byte>, offset: nat): Option<(U16, nat)> {
    if offset > |b| || |b| - offset < 2 then None else Some((ReadU16(b[offset..offset + 2]), offset + 2))
  }

  function TakeU32(b: seq<Byte>, offset: nat): Option<(U32, nat)> {
    if offset > |b| || |b| - offset < 4 then None else Some((ReadU32(b[offset..offset + 4]), offset + 4))
  }

  function TakeU64(b: seq<Byte>, offset: nat): Option<(U64, nat)> {
    if offset > |b| || |b| - offset < 8 then None else Some((ReadU64(b[offset..offset + 8]), offset + 8))
  }

  function TakeBytes(b: seq<Byte>, offset: nat, length: nat): Option<(seq<Byte>, nat)> {
    if offset > |b| || length > |b| - offset then None else Some((b[offset..offset + length], offset + length))
  }

  function TakeString(b: seq<Byte>, offset: nat): Option<(seq<Byte>, nat)> {
    var (length, at) :- TakeU32(b, offset);
    TakeBytes(b, at, length)
  }

  /** The offset after a valid extension header. */
  function TakeExtensionHeader(b: seq<Byte>, offset: nat): Option<nat> {
    var (magic, at) :- TakeU32(b, offset);
    var (version, end) :- TakeU16(b, at);
    if magic == EXTENSION_MAGIC && version == EXTENSION_VERSION then Some(end) else None
  }

  function RawIfEmpty(serializer: seq<Byte>): seq<Byte> {
    if serializer == [] then RAW else serializer
  }

  /** The last two strings of an extension, which must end the metadata. */
  function TakeTail(b: seq<Byte>, offset: nat): Option<(seq<Byte>, seq<Byte>)> {
    var (traceId, at) :- TakeString(b, offset);
    var (serializer, end) :- TakeString(b, at);
    if end != |b| then None else Some((traceId, RawIfEmpty(serializer)))
  }

  function DecodeRequest(frame: Parsed): Option<Message>
    requires frame.Frame?
  {
    var b := frame.metadata;
    var (serviceName, at1) :- TakeString(b, 0);
    var (methodName, at2) :- TakeString(b, at1);
    if at2 == |b| then Some(Request(frame.requestId, serviceName, methodName, frame.body, 0, [], RAW, 0))
    else
      var at3 :- TakeExtensionHeader(b, at2);
      var (timeoutMs, at4) :- TakeU64(b, at3);
      var (attempt, at5) :- TakeU32(b, at4);
      var (traceId, serializer) :- TakeTail(b, at5);
      Some(Request(frame.requestId, serviceName, methodName, frame.body, timeoutMs, traceId, serializer, attempt))
  }

  function DecodeResponse(frame: Parsed): Option<Message>
    requires frame.Frame?
  {
    var b := frame.metadata;
    var (errorCode, at1) :- TakeU32(b, 0);
    var (errorMessage, at2) :- TakeString(b, at1);
    if at2 == |b| then Some(Response(frame.requestId, ToI32(errorCode), errorMessage, frame.body, [], 0, RAW))
    else
      var at3 :- TakeExtensionHeader(b, at2);
      var (serverCostUs, at4) :- TakeU64(b, at3);
      var (traceId, serializer) :- TakeTail(b, at4);
      Some(Response(frame.requestId, ToI32(errorCode), errorMessage, frame.body, traceId, serverCostUs, serializer))
  }

  /** tryDecodeRequest and tryDecodeResponse, on the readable bytes. */
  function Decode(b: seq<Byte>, expected: MessageType): Decoded {
    match ParseFrame(b, expected)
    case Incomplete => NeedMoreData
    case Invalid => ProtocolError
    case Frame(requestId, metadata, body, totalLength) =>
      var frame := Frame(requestId, metadata, body, totalLength);
      var message := if expected == RequestType then DecodeRequest(frame) else DecodeResponse(frame);
      if message.None? then ProtocolError else Complete(message.value, totalLength)
  }
}
