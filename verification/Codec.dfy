/** The wire format: what the serializers produce, the deserializers, and that they are inverse. */
module Codec {
  import opened Options
  import opened Bytes
  import opened Frames

  const SETUP_TYPE := 0x01
  const LEASE_TYPE := 0x02
  const KEEPALIVE_TYPE := 0x03
  const REQUEST_RESPONSE_TYPE := 0x04
  const REQUEST_FNF_TYPE := 0x05
  const REQUEST_STREAM_TYPE := 0x06
  const REQUEST_CHANNEL_TYPE := 0x07
  const REQUEST_N_TYPE := 0x08
  const CANCEL_TYPE := 0x09
  const PAYLOAD_TYPE := 0x0a
  const ERROR_TYPE := 0x0b
  const METADATA_PUSH_TYPE := 0x0c
  const RESUME_TYPE := 0x0d
  const RESUME_OK_TYPE := 0x0e
  const EXT_TYPE := 0x3f

  // Sizes, as computed before a buffer is allocated

  function Length(b: Option<bytes>): nat {
    |OrEmpty(b)|
  }

  function PayloadLength(flags: Flags, data: Option<bytes>, metadata: Option<bytes>): nat {
    Length(data) + if HasMetadata(flags) then 3 + Length(metadata) else 0
  }

  /** Byte size of a frame without its length prefix. The source has no case for EXT, whose
      size is `undefined` there; callers exclude it. */
  function SizeOf(f: Frame): nat
    requires !f.Ext?
  {
    match f
    case Setup(flags, _, _, _, _, token, mm, dm, data, metadata) =>
      6 + 14 + (if Length(token) > 0 then 2 + Length(token) else 0) + Length(mm) + Length(dm)
      + PayloadLength(flags, data, metadata)
    case Lease(_, _, _, metadata) => 6 + 8 + Length(metadata)
    case KeepAlive(_, _, data) => 6 + 8 + Length(data)
    case RequestResponse(_, flags, data, metadata) => 6 + PayloadLength(flags, data, metadata)
    case RequestFnf(_, flags, data, metadata) => 6 + PayloadLength(flags, data, metadata)
    case RequestStream(_, flags, _, data, metadata) => 6 + 4 + PayloadLength(flags, data, metadata)
    case RequestChannel(_, flags, _, data, metadata) => 6 + 4 + PayloadLength(flags, data, metadata)
    case RequestN(_, _, _) => 6 + 4
    case Cancel(_, _) => 6
    case Payload(_, flags, data, metadata) => 6 + PayloadLength(flags, data, metadata)
    case Error(_, _, _, message) => 6 + 4 + Length(message)
    case MetadataPush(_, metadata) => 6 + Length(metadata)
    case Resume(_, _, _, token, _, _) => 6 + 22 + |token|
    case ResumeOk(_, _) => 6 + 8
  }

  // Which frames Node's Buffer can write

  predicate Fits16(v: int) { 0 <= v < TWO_16 }
  predicate Fits32(v: int) { 0 <= v < TWO_32 }
  predicate PositionFits(v: int) { 0 <= v < TWO_53 }
  predicate StreamIdFits(v: int) { 0 <= v < TWO_31 }

  predicate MetadataFits(flags: Flags, metadata: Option<bytes>) {
    HasMetadata(flags) ==> Length(metadata) < TWO_24
  }

  /** The fields are in the ranges of the integer fields that carry them: outside them Node throws a
      RangeError, or, for a token above 32767 bytes, the reader takes its length as negative. */
  predicate Serializable(f: Frame) {
    match f
    case Setup(flags, major, minor, keepAlive, lifetime, token, mm, dm, _, metadata) =>
      && Fits16(major) && Fits16(minor) && Fits32(keepAlive) && Fits32(lifetime)
      && Length(token) < 0x8000 && Length(mm) < 256 && Length(dm) < 256
      && MetadataFits(flags, metadata)
    case Lease(_, ttl, requestCount, _) => Fits32(ttl) && Fits32(requestCount)
    case KeepAlive(_, position, _) => PositionFits(position)
    case RequestResponse(id, flags, _, metadata) => StreamIdFits(id) && MetadataFits(flags, metadata)
    case RequestFnf(id, flags, _, metadata) => StreamIdFits(id) && MetadataFits(flags, metadata)
    case RequestStream(id, flags, n, _, metadata) =>
      StreamIdFits(id) && Fits32(n) && MetadataFits(flags, metadata)
    case RequestChannel(id, flags, n, _, metadata) =>
      StreamIdFits(id) && Fits32(n) && MetadataFits(flags, metadata)
    case RequestN(id, _, n) => StreamIdFits(id) && Fits32(n)
    case Cancel(id, _) => StreamIdFits(id)
    case Payload(id, flags, _, metadata) => StreamIdFits(id) && MetadataFits(flags, metadata)
    case Error(id, _, code, _) => StreamIdFits(id) && Fits32(code)
    case MetadataPush(_, _) => true
    case Resume(_, major, minor, token, server, client) =>
      Fits16(major) && Fits16(minor) && |token| < 0x8000 && PositionFits(server) && PositionFits(client)
    case ResumeOk(_, client) => PositionFits(client)
    case Ext(_, _, _, _) => false
  }

  /** SETUP sizes its token by the token's presence but writes it by the flag. */
  predicate TokenMatchesFlag(f: Frame) {
    f.Setup? ==> (HasResume(f.flags) <==> Length(f.resumeToken) > 0)
  }

  // Encoding

  function Header(streamId: int, frameType: nat, flags: Flags): (h: bytes)
    requires StreamIdFits(streamId) && frameType < 64
  {
    U32(streamId) + U16(frameType * 1024 + FlagWord(flags))
  }

  function PayloadBytes(flags: Flags, data: Option<bytes>, metadata: Option<bytes>): bytes
    requires MetadataFits(flags, metadata)
  {
    if HasMetadata(flags)
    then U24(Length(metadata)) + (OrEmpty(metadata) + OrEmpty(data))
    else OrEmpty(data)
  }

  function TokenBytes(flags: Flags, token: Option<bytes>): bytes
    requires Length(token) < 0x8000
  {
    if HasResume(flags) then U16(Length(token)) + OrEmpty(token) else []
  }

  /** The two mime types, each preceded by its length, and the payload of a SETUP frame. */
  function SetupTail(metadataMime: bytes, dataMime: bytes, payload: bytes): bytes
    requires |metadataMime| < 256 && |dataMime| < 256
  {
    U8(|metadataMime|) + (metadataMime + (U8(|dataMime|) + (dataMime + payload)))
  }

  /** The bytes a serializer writes after the header, in the order in which it writes them. */
  function Body(f: Frame): bytes
    requires Serializable(f)
  {
    match f
    case Setup(flags, major, minor, keepAlive, lifetime, token, mm, dm, data, metadata) =>
      U16(major) + (U16(minor) + (U32(keepAlive) + (U32(lifetime) + (TokenBytes(flags, token)
      + SetupTail(OrEmpty(mm), OrEmpty(dm), PayloadBytes(flags, data, metadata))))))
    case Lease(_, ttl, requestCount, metadata) => U32(ttl) + (U32(requestCount) + OrEmpty(metadata))
    case KeepAlive(_, position, data) => U64(position) + OrEmpty(data)
    case RequestResponse(_, flags, data, metadata) => PayloadBytes(flags, data, metadata)
    case RequestFnf(_, flags, data, metadata) => PayloadBytes(flags, data, metadata)
    case RequestStream(_, flags, n, data, metadata) => U32(n) + PayloadBytes(flags, data, metadata)
    case RequestChannel(_, flags, n, data, metadata) => U32(n) + PayloadBytes(flags, data, metadata)
    case RequestN(_, _, n) => U32(n)
    case Cancel(_, _) => []
    case Payload(_, flags, data, metadata) => PayloadBytes(flags, data, metadata)
    case Error(_, _, code, message) => U32(code) + OrEmpty(message)
    case MetadataPush(_, metadata) => OrEmpty(metadata)
    case Resume(_, major, minor, token, server, client) =>
      U16(major) + (U16(minor) + (U16(|token|) + (token + (U64(server) + U64(client)))))
    case ResumeOk(_, client) => U64(client)
  }

  function TypeCode(f: Frame): (t: nat)
    ensures t < 64
  {
    match f
    case Setup(_, _, _, _, _, _, _, _, _, _) => SETUP_TYPE
    case Lease(_, _, _, _) => LEASE_TYPE
    case KeepAlive(_, _, _) => KEEPALIVE_TYPE
    case RequestResponse(_, _, _, _) => REQUEST_RESPONSE_TYPE
    case RequestFnf(_, _, _, _) => REQUEST_FNF_TYPE
    case RequestStream(_, _, _, _, _) => REQUEST_STREAM_TYPE
    case RequestChannel(_, _, _, _, _) => REQUEST_CHANNEL_TYPE
    case RequestN(_, _, _) => REQUEST_N_TYPE
    case Cancel(_, _) => CANCEL_TYPE
    case Payload(_, _, _, _) => PAYLOAD_TYPE
    case Error(_, _, _, _) => ERROR_TYPE
    case MetadataPush(_, _) => METADATA_PUSH_TYPE
    case Resume(_, _, _, _, _, _) => RESUME_TYPE
    case ResumeOk(_, _) => RESUME_OK_TYPE
    case Ext(_, _, _, _) => EXT_TYPE
  }

  function Encode(f: Frame): bytes
    requires Serializable(f)
  {
    Header(f.StreamId(), TypeCode(f), f.flags) + Body(f)
  }

  // Decoding

  /** `readPayload`: data and metadata of the frame, with the slices clamped as Node clamps them. */
  function ReadPayload(b: bytes, flags: Flags, offset: int): Option<AppPayload>
    requires 0 <= offset
  {
    if HasMetadata(flags) then
      var length :- GetU24(b, offset);
      var metadata := if length > 0 then Some(JsSlice(b, offset + 3, offset + 3 + length)) else None;
      Some(AppPayload(ReadRest(b, offset + 3 + length), metadata))
    else
      Some(AppPayload(ReadRest(b, offset), None))
  }

  function ReadRest(b: bytes, offset: nat): Option<bytes> {
    if offset < |b| then Some(b[offset..]) else None
  }

  /** `Buffer.toString("ascii")` drops the top bit of every byte. */
  function Ascii(b: bytes): (r: bytes)
    ensures |r| == |b|
  {
    seq(|b|, i requires 0 <= i < |b| => b[i] % 128)
  }

  /** A mime type, preceded by its length. */
  function ReadMimeType(b: bytes, offset: int): Option<(bytes, int)> {
    var length :- GetU8(b, offset);
    Some((Ascii(JsSlice(b, offset + 1, offset + 1 + length)), offset + 1 + length))
  }

  function DecodeSetup(b: bytes, flags: Flags): Option<Frame> {
    var major :- GetU16(b, 6);
    var minor :- GetU16(b, 8);
    var keepAlive :- GetI32(b, 10);
    var lifetime :- GetI32(b, 14);
    var (token, offset) :- ReadToken(b, flags);
    var (metadataMimeType, o1) :- ReadMimeType(b, offset);
    var (dataMimeType, o2) :- ReadMimeType(b, o1);
    if o2 < 0 then None else
    var p :- ReadPayload(b, flags, o2);
    Some(Setup(flags, major, minor, keepAlive, lifetime, token, Some(metadataMimeType), Some(dataMimeType),
               p.data, p.metadata))
  }

  function ReadToken(b: bytes, flags: Flags): Option<(Option<bytes>, int)> {
    if HasResume(flags) then
      var length :- GetI16(b, 18);
      Some((Some(JsSlice(b, 20, 20 + length)), 20 + length))
    else
      Some((None, 18))
  }

  function DecodeResume(b: bytes, flags: Flags): Option<Frame> {
    var major :- GetU16(b, 6);
    var minor :- GetU16(b, 8);
    var length :- GetI16(b, 10);
    var server :- GetU64(b, 12 + length);
    var client :- GetU64(b, 12 + length + 8);
    Some(Resume(flags, major, minor, JsSlice(b, 12, 12 + length), server, client))
  }

  /** `deserializeFrame`. `None` is an exception, an unknown frame type (for which the source returns
      `undefined`, and its caller then throws), or METADATA_PUSH, whose reader refers to an undeclared
      variable. */
  function Decode(b: bytes): Option<Frame> {
    var streamId :- GetI32(b, 0);
    var typeAndFlags :- GetU16(b, 4);
    var frameType := typeAndFlags / 1024;
    var flags := FlagsOf(typeAndFlags % 1024);
    if frameType == SETUP_TYPE then DecodeSetup(b, flags)
    else if frameType == PAYLOAD_TYPE then
      var p :- ReadPayload(b, flags, 6);
      Some(Payload(streamId, flags, p.data, p.metadata))
    else if frameType == ERROR_TYPE then
      var code :- GetI32(b, 6);
      Some(Error(streamId, flags, code, Some(b[10..])))
    else if frameType == KEEPALIVE_TYPE then
      var position :- GetU64(b, 6);
      Some(KeepAlive(flags, position, ReadRest(b, 14)))
    else if frameType == REQUEST_FNF_TYPE then
      var p :- ReadPayload(b, flags, 6);
      Some(RequestFnf(streamId, flags, p.data, p.metadata))
    else if frameType == REQUEST_RESPONSE_TYPE then
      var p :- ReadPayload(b, flags, 6);
      Some(RequestResponse(streamId, flags, p.data, p.metadata))
    else if frameType == REQUEST_STREAM_TYPE then
      var n :- GetI32(b, 6);
      var p :- ReadPayload(b, flags, 10);
      Some(RequestStream(streamId, flags, n, p.data, p.metadata))
    else if frameType == REQUEST_CHANNEL_TYPE then
      var n :- GetI32(b, 6);
      var p :- ReadPayload(b, flags, 10);
      Some(RequestChannel(streamId, flags, n, p.data, p.metadata))
    else if frameType == REQUEST_N_TYPE then
      var n :- GetI32(b, 6);
      Some(RequestN(streamId, flags, n))
    else if frameType == RESUME_TYPE then DecodeResume(b, flags)
    else if frameType == RESUME_OK_TYPE then
      var client :- GetU64(b, 6);
      Some(ResumeOk(flags, client))
    else if frameType == CANCEL_TYPE then
      Some(Cancel(streamId, flags))
    else if frameType == LEASE_TYPE then
      var ttl :- GetU32(b, 6);
      var requestCount :- GetU32(b, 10);
      Some(Lease(flags, ttl, requestCount, ReadRest(b, 14)))
    else None
  }

  // The frame a peer sees

  /** A frame as it arrives at the peer: metadata not announced by its flag is lost, empty buffers arrive as
      absent, and the fields that are read as signed 32-bit numbers wrap. */
  function Received(f: Frame): Frame
    requires Serializable(f)
  {
    match f
    case Setup(flags, major, minor, keepAlive, lifetime, token, mm, dm, data, metadata) =>
      Setup(flags, major, minor, ToInt32(keepAlive), ToInt32(lifetime),
            if HasResume(flags) then Some(OrEmpty(token)) else None,
            Some(Ascii(OrEmpty(mm))), Some(Ascii(OrEmpty(dm))), NonEmpty(data), Announced(flags, metadata))
    case Lease(flags, ttl, requestCount, metadata) => Lease(flags, ttl, requestCount, NonEmpty(metadata))
    case KeepAlive(flags, position, data) => KeepAlive(flags, position, NonEmpty(data))
    case RequestResponse(id, flags, data, metadata) =>
      RequestResponse(id, flags, NonEmpty(data), Announced(flags, metadata))
    case RequestFnf(id, flags, data, metadata) =>
      RequestFnf(id, flags, NonEmpty(data), Announced(flags, metadata))
    case RequestStream(id, flags, n, data, metadata) =>
      RequestStream(id, flags, ToInt32(n), NonEmpty(data), Announced(flags, metadata))
    case RequestChannel(id, flags, n, data, metadata) =>
      RequestChannel(id, flags, ToInt32(n), NonEmpty(data), Announced(flags, metadata))
    case RequestN(id, flags, n) => RequestN(id, flags, ToInt32(n))
    case Cancel(id, flags) => Cancel(id, flags)
    case Payload(id, flags, data, metadata) =>
      Payload(id, flags, NonEmpty(data), Announced(flags, metadata))
    case Error(id, flags, code, message) => Error(id, flags, ToInt32(code), Some(OrEmpty(message)))
    case MetadataPush(flags, metadata) => MetadataPush(flags, NonEmpty(metadata))
    case Resume(flags, major, minor, token, server, client) =>
      Resume(flags, major, minor, token, server, client)
    case ResumeOk(flags, client) => ResumeOk(flags, client)
  }

  function Announced(flags: Flags, metadata: Option<bytes>): Option<bytes> {
    if HasMetadata(flags) then NonEmpty(metadata) else None
  }

  // Proofs

  /** A serializer fills the buffer it sized exactly, except a SETUP whose token and flag disagree. */
  lemma FillsItsBuffer(f: Frame)
    requires Serializable(f)
    ensures |Encode(f)| == SizeOf(f) <==> TokenMatchesFlag(f)
  {
  }

  /** Such as a SETUP with a token of one byte and without the flag: its buffer is three bytes too long. */
  lemma TokenWithoutFlag()
    ensures var f := Setup(NO_FLAGS, 1, 0, 60000, 300000, Some([7]), Some([]), Some([]), None, None);
            Serializable(f) && SizeOf(f) == |Encode(f)| + 3
  {
    var f := Setup(NO_FLAGS, 1, 0, 60000, 300000, Some([7]), Some([]), Some([]), None, None);
    assert |Header(0, SETUP_TYPE, NO_FLAGS)| == 6;
    assert |Body(f)| == 14;
  }

  /** The header of `f` has been read off `b`, and the body is what is left. */
  ghost predicate HeaderRead(b: bytes, f: Frame)
    requires Serializable(f)
  {
    && GetI32(b, 0) == Some(f.StreamId())
    && GetU16(b, 4).Some?
    && GetU16(b, 4).value / 1024 == TypeCode(f) && FlagsOf(GetU16(b, 4).value % 1024) == f.flags
    && |b| >= 6 && b[6..] == Body(f)
  }

  lemma ReadHeaderNumbers(b: bytes, streamId: int, word: nat, body: bytes)
    requires StreamIdFits(streamId) && Fits16(word)
    requires b == U32(streamId) + U16(word) + body
    ensures GetI32(b, 0) == Some(streamId) && GetU16(b, 4) == Some(word)
    ensures |b| >= 6 && b[6..] == body
  {
    assert b == U32(streamId) + (U16(word) + body);
    assert b[0..] == b;
    ReadU32(b, 0, streamId, U16(word) + body);
    ReadU16(b, 4, word, body);
  }

  lemma ReadHeader(f: Frame)
    requires Serializable(f)
    ensures HeaderRead(Encode(f), f)
  {
    var t, w := TypeCode(f), FlagWord(f.flags);
    ReadHeaderNumbers(Encode(f), f.StreamId(), t * 1024 + w, Body(f));
    QuotientIsUnique(1024 * t + w, 1024, t, w);
    FlagsReadBack(f.flags);
  }

  lemma ReadBackPayload(b: bytes, offset: nat, flags: Flags, data: Option<bytes>, metadata: Option<bytes>)
    requires MetadataFits(flags, metadata)
    requires offset <= |b| && b[offset..] == PayloadBytes(flags, data, metadata)
    ensures ReadPayload(b, flags, offset)
         == Some(AppPayload(NonEmpty(data), Announced(flags, metadata)))
  {
    if HasMetadata(flags) {
      ReadU24(b, offset, Length(metadata), OrEmpty(metadata) + OrEmpty(data));
      ReadSlice(b, offset + 3, OrEmpty(metadata), OrEmpty(data));
    }
  }

  lemma ReadBackMimeType(b: bytes, offset: nat, mime: bytes, rest: bytes)
    requires |mime| < 256
    requires offset <= |b| && b[offset..] == U8(|mime|) + (mime + rest)
    ensures ReadMimeType(b, offset) == Some((Ascii(mime), offset + 1 + |mime|))
    ensures offset + 1 + |mime| <= |b| && b[offset + 1 + |mime|..] == rest
  {
    ReadU8(b, offset, |mime|, mime + rest);
    ReadSlice(b, offset + 1, mime, rest);
  }

  lemma ReadBackToken(b: bytes, flags: Flags, token: Option<bytes>, rest: bytes)
    requires Length(token) < 0x8000
    requires 18 <= |b| && b[18..] == TokenBytes(flags, token) + rest
    ensures var tokenEnd := 18 + |TokenBytes(flags, token)|;
            && tokenEnd <= |b| && b[tokenEnd..] == rest
            && ReadToken(b, flags)
               == Some((if HasResume(flags) then Some(OrEmpty(token)) else None, tokenEnd))
  {
    if HasResume(flags) {
      assert b[18..] == U16(Length(token)) + (OrEmpty(token) + rest);
      ReadU16(b, 18, Length(token), OrEmpty(token) + rest);
      ReadSlice(b, 20, OrEmpty(token), rest);
    }
  }

  lemma ReadBackSetupNumbers(b: bytes, f: Frame, rest: bytes)
    requires f.Setup? && Serializable(f)
    requires 6 <= |b|
    requires b[6..] == U16(f.majorVersion) + (U16(f.minorVersion) + (U32(f.keepAlive) + (U32(f.lifetime) + rest)))
    ensures GetU16(b, 6) == Some(f.majorVersion) && GetU16(b, 8) == Some(f.minorVersion)
    ensures GetI32(b, 10) == Some(ToInt32(f.keepAlive)) && GetI32(b, 14) == Some(ToInt32(f.lifetime))
    ensures 18 <= |b| && b[18..] == rest
  {
    hide U16, U32, GetU16, GetU32;
    ReadBackVersions(b, f.majorVersion, f.minorVersion, U32(f.keepAlive) + (U32(f.lifetime) + rest));
    ReadU32(b, 10, f.keepAlive, U32(f.lifetime) + rest);
    ReadU32(b, 14, f.lifetime, rest);
  }

  lemma ReadBackSetupTail(b: bytes, offset: nat, metadataMime: bytes, dataMime: bytes, payload: bytes)
    requires |metadataMime| < 256 && |dataMime| < 256
    requires offset <= |b| && b[offset..] == SetupTail(metadataMime, dataMime, payload)
    ensures var o1 := offset + 1 + |metadataMime|;
            var o2 := o1 + 1 + |dataMime|;
            && ReadMimeType(b, offset) == Some((Ascii(metadataMime), o1))
            && ReadMimeType(b, o1) == Some((Ascii(dataMime), o2))
            && o2 <= |b| && b[o2..] == payload
  {
    hide U8, ReadMimeType, Ascii;
    ReadBackMimeType(b, offset, metadataMime, U8(|dataMime|) + (dataMime + payload));
    ReadBackMimeType(b, offset + 1 + |metadataMime|, dataMime, payload);
  }

  /** The whole of a SETUP frame is read back when each of its parts is. */
  lemma AssembleSetup(b: bytes, f: Frame, offset: nat, o1: nat, o2: nat)
    requires Serializable(f) && f.Setup?
    requires GetU16(b, 6) == Some(f.majorVersion) && GetU16(b, 8) == Some(f.minorVersion)
    requires GetI32(b, 10) == Some(ToInt32(f.keepAlive)) && GetI32(b, 14) == Some(ToInt32(f.lifetime))
    requires ReadToken(b, f.flags)
          == Some((if HasResume(f.flags) then Some(OrEmpty(f.resumeToken)) else None, offset))
    requires ReadMimeType(b, offset) == Some((Ascii(OrEmpty(f.metadataMimeType)), o1))
    requires ReadMimeType(b, o1) == Some((Ascii(OrEmpty(f.dataMimeType)), o2))
    requires ReadPayload(b, f.flags, o2)
          == Some(AppPayload(NonEmpty(f.data), Announced(f.flags, f.metadata)))
    ensures DecodeSetup(b, f.flags) == Some(Received(f))
  {
  }

  lemma ReadBackSetupEnd(b: bytes, offset: nat, mm: bytes, dm: bytes, payload: bytes,
                         flags: Flags, data: Option<bytes>, metadata: Option<bytes>)
    returns (o1: nat, o2: nat)
    requires |mm| < 256 && |dm| < 256 && MetadataFits(flags, metadata)
    requires payload == PayloadBytes(flags, data, metadata)
    requires offset <= |b| && b[offset..] == SetupTail(mm, dm, payload)
    ensures ReadMimeType(b, offset) == Some((Ascii(mm), o1))
    ensures ReadMimeType(b, o1) == Some((Ascii(dm), o2))
    ensures ReadPayload(b, flags, o2) == Some(AppPayload(NonEmpty(data), Announced(flags, metadata)))
  {
    o1 := offset + 1 + |mm|;
    o2 := o1 + 1 + |dm|;
    ReadBackSetupTail(b, offset, mm, dm, payload);
    ReadBackPayload(b, o2, flags, data, metadata);
  }

  lemma SetupBodyRoundTrip(b: bytes, f: Frame)
    requires Serializable(f) && f.Setup?
    requires 6 <= |b| && b[6..] == Body(f)
    ensures DecodeSetup(b, f.flags) == Some(Received(f))
  {
    hide SetupTail, PayloadBytes, DecodeSetup, Received;
    var mm, dm := OrEmpty(f.metadataMimeType), OrEmpty(f.dataMimeType);
    var offset := ReadBackSetupStart(b, f, SetupTail(mm, dm, PayloadBytes(f.flags, f.data, f.metadata)));
    var o1, o2 := ReadBackSetupEnd(b, offset, mm, dm, PayloadBytes(f.flags, f.data, f.metadata),
                                   f.flags, f.data, f.metadata);
    AssembleSetup(b, f, offset, o1, o2);
  }

  lemma ReadBackSetupStart(b: bytes, f: Frame, tail: bytes) returns (offset: nat)
    requires f.Setup? && Serializable(f)
    requires 6 <= |b|
    requires b[6..] == U16(f.majorVersion) + (U16(f.minorVersion) + (U32(f.keepAlive) + (U32(f.lifetime)
                       + (TokenBytes(f.flags, f.resumeToken) + tail))))
    ensures GetU16(b, 6) == Some(f.majorVersion) && GetU16(b, 8) == Some(f.minorVersion)
    ensures GetI32(b, 10) == Some(ToInt32(f.keepAlive)) && GetI32(b, 14) == Some(ToInt32(f.lifetime))
    ensures ReadToken(b, f.flags)
         == Some((if HasResume(f.flags) then Some(OrEmpty(f.resumeToken)) else None, offset))
    ensures offset <= |b| && b[offset..] == tail
  {
    var tokenBytes := TokenBytes(f.flags, f.resumeToken);
    ReadBackSetupNumbers(b, f, tokenBytes + tail);
    ReadBackToken(b, f.flags, f.resumeToken, tail);
    offset := 18 + |tokenBytes|;
  }

  lemma ReadBackPositions(b: bytes, offset: nat, server: nat, client: nat)
    requires PositionFits(server) && PositionFits(client)
    requires offset <= |b| && b[offset..] == U64(server) + U64(client)
    ensures GetU64(b, offset) == Some(server) && GetU64(b, offset + 8) == Some(client)
  {
    ReadU64(b, offset, server, U64(client));
    assert U64(client) == U64(client) + [];
    ReadU64(b, offset + 8, client, []);
  }

  lemma ReadBackVersions(b: bytes, major: nat, minor: nat, rest: bytes)
    requires Fits16(major) && Fits16(minor)
    requires 6 <= |b| && b[6..] == U16(major) + (U16(minor) + rest)
    ensures GetU16(b, 6) == Some(major) && GetU16(b, 8) == Some(minor)
    ensures 10 <= |b| && b[10..] == rest
  {
    hide U16, GetU16;
    ReadU16(b, 6, major, U16(minor) + rest);
    ReadU16(b, 8, minor, rest);
  }

  lemma ReadBackResumeToken(b: bytes, token: bytes, rest: bytes)
    requires |token| < 0x8000
    requires 10 <= |b| && b[10..] == U16(|token|) + (token + rest)
    ensures GetI16(b, 10) == Some(|token|) && JsSlice(b, 12, 12 + |token|) == token
    ensures 12 + |token| <= |b| && b[12 + |token|..] == rest
  {
    ReadU16(b, 10, |token|, token + rest);
    ReadSlice(b, 12, token, rest);
  }

  lemma ResumeBodyRoundTrip(b: bytes, f: Frame)
    requires Serializable(f) && f.Resume?
    requires 6 <= |b| && b[6..] == Body(f)
    ensures DecodeResume(b, f.flags) == Some(Received(f))
  {
    hide U16, U64, GetU16, GetI16, GetU64, JsSlice;
    var positions := U64(f.serverPosition) + U64(f.clientPosition);
    ReadBackVersions(b, f.majorVersion, f.minorVersion, U16(|f.token|) + (f.token + positions));
    ReadBackResumeToken(b, f.token, positions);
    ReadBackPositions(b, 12 + |f.token|, f.serverPosition, f.clientPosition);
  }

  /** A field alone at the end of a frame. */
  lemma ReadLastU32(b: bytes, offset: nat, v: int)
    requires 0 <= v < TWO_32 && offset <= |b| && b[offset..] == U32(v)
    ensures GetU32(b, offset) == Some(v)
  {
    assert U32(v) == U32(v) + [];
    ReadU32(b, offset, v, []);
  }

  lemma PayloadRoundTrip(f: Frame)
    requires f.Payload? || f.RequestResponse? || f.RequestFnf?
    requires Serializable(f)
    ensures Decode(Encode(f)) == Some(Received(f))
  {
    ReadHeader(f);
    var b := Encode(f);
    ReadBackPayload(b, 6, f.flags, f.data, f.metadata);
  }

  lemma RequestManyRoundTrip(f: Frame)
    requires f.RequestStream? || f.RequestChannel?
    requires Serializable(f)
    ensures Decode(Encode(f)) == Some(Received(f))
  {
    ReadHeader(f);
    var b := Encode(f);
    ReadU32(b, 6, f.requestN, PayloadBytes(f.flags, f.data, f.metadata));
    ReadBackPayload(b, 10, f.flags, f.data, f.metadata);
  }

  lemma NumbersRoundTrip(f: Frame)
    requires f.Lease? || f.KeepAlive? || f.RequestN? || f.Cancel? || f.Error? || f.ResumeOk?
    requires Serializable(f)
    ensures Decode(Encode(f)) == Some(Received(f))
  {
    ReadHeader(f);
    var b := Encode(f);
    match f
    case Lease(_, ttl, requestCount, metadata) =>
      ReadU32(b, 6, ttl, U32(requestCount) + OrEmpty(metadata));
      ReadU32(b, 10, requestCount, OrEmpty(metadata));
    case KeepAlive(_, position, data) => ReadU64(b, 6, position, OrEmpty(data));
    case RequestN(_, _, n) => ReadLastU32(b, 6, n);
    case Cancel(_, _) =>
    case Error(_, _, code, message) => ReadU32(b, 6, code, OrEmpty(message));
    case ResumeOk(_, client) =>
      assert U64(client) == U64(client) + [];
      ReadU64(b, 6, client, []);
  }

  lemma SetupRoundTrip(b: bytes, f: Frame)
    requires f.Setup? && Serializable(f) && HeaderRead(b, f)
    ensures Decode(b) == Some(Received(f))
  {
    hide DecodeResume, DecodeSetup, Body, GetI32, GetU16, FlagsOf, ReadPayload;
    SetupBodyRoundTrip(b, f);
  }

  lemma ResumeRoundTrip(b: bytes, f: Frame)
    requires f.Resume? && Serializable(f) && HeaderRead(b, f)
    ensures Decode(b) == Some(Received(f))
  {
    hide DecodeResume, DecodeSetup, Body, GetI32, GetU16, FlagsOf, ReadPayload;
    ResumeBodyRoundTrip(b, f);
  }

  /** Codec round trip: what `deserializeFrame` returns for a serialized frame is that frame as the peer
      is to see it. */
  lemma RoundTrip(f: Frame)
    requires Serializable(f) && !f.MetadataPush?
    ensures Decode(Encode(f)) == Some(Received(f))
  {
    if f.Setup? {
      ReadHeader(f);
      SetupRoundTrip(Encode(f), f);
    } else if f.Resume? {
      ReadHeader(f);
      ResumeRoundTrip(Encode(f), f);
    } else if f.RequestStream? || f.RequestChannel? {
      RequestManyRoundTrip(f);
    } else if f.Payload? || f.RequestResponse? || f.RequestFnf? {
      PayloadRoundTrip(f);
    } else {
      NumbersRoundTrip(f);
    }
  }

  /** Decoding keeps a frame's size. */
  lemma ReceivedSize(f: Frame)
    requires Serializable(f) && TokenMatchesFlag(f)
    ensures SizeOf(Received(f)) == SizeOf(f) >= 6
  {
  }

  /** Both peers count the same bytes: the size that a sender stores is the length it writes, and is the
      size that the receiver records for the frame it decoded. */
  lemma PeersCountTheSame(f: Frame)
    requires Serializable(f) && !f.MetadataPush? && TokenMatchesFlag(f)
    ensures Decode(Encode(f)).Some? && !Decode(Encode(f)).value.Ext?
    ensures SizeOf(f) == |Encode(f)| == SizeOf(Decode(Encode(f)).value)
  {
    RoundTrip(f);
    FillsItsBuffer(f);
    ReceivedSize(f);
  }
}
