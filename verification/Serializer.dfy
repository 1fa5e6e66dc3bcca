/** The serializers: they allocate a buffer of the computed size and fill it at a running offset.
    Every write extends the filled prefix `buffer[..offset]`; array bounds make an overflow impossible,
    and a filled prefix that is the whole buffer means that no byte was left unwritten. */
module Serializer {
  import opened Options
  import opened Bytes
  import opened Frames
  import opened Codec

  method WriteUInt8(buffer: array<byte>, v: int, offset: nat) returns (next: nat)
    requires 0 <= v < 256 && offset + 1 <= buffer.Length
    modifies buffer
    ensures next == offset + 1 && buffer[..next] == old(buffer[..offset]) + U8(v)
    ensures buffer[next..] == old(buffer[offset + 1..])
  {
    buffer[offset] := v;
    next := offset + 1;
  }

  method WriteUInt16(buffer: array<byte>, v: int, offset: nat) returns (next: nat)
    requires Fits16(v) && offset + 2 <= buffer.Length
    modifies buffer
    ensures next == offset + 2 && buffer[..next] == old(buffer[..offset]) + U16(v)
    ensures buffer[next..] == old(buffer[offset + 2..])
  {
    next := WriteUInt8(buffer, v / 0x100, offset);
    next := WriteUInt8(buffer, v % 0x100, next);
  }

  method WriteUInt24(buffer: array<byte>, v: int, offset: nat) returns (next: nat)
    requires 0 <= v < TWO_24 && offset + 3 <= buffer.Length
    modifies buffer
    ensures next == offset + 3 && buffer[..next] == old(buffer[..offset]) + U24(v)
    ensures buffer[next..] == old(buffer[offset + 3..])
  {
    next := WriteUInt8(buffer, v / 0x1_0000, offset);
    next := WriteUInt8(buffer, v / 0x100 % 0x100, next);
    next := WriteUInt8(buffer, v % 0x100, next);
  }

  method WriteUInt32(buffer: array<byte>, v: int, offset: nat) returns (next: nat)
    requires Fits32(v) && offset + 4 <= buffer.Length
    modifies buffer
    ensures next == offset + 4 && buffer[..next] == old(buffer[..offset]) + U32(v)
    ensures buffer[next..] == old(buffer[offset + 4..])
  {
    next := WriteUInt16(buffer, v / TWO_16, offset);
    next := WriteUInt16(buffer, v % TWO_16, next);
  }

  method WriteUInt64(buffer: array<byte>, v: int, offset: nat) returns (next: nat)
    requires PositionFits(v) && offset + 8 <= buffer.Length
    modifies buffer
    ensures next == offset + 8 && buffer[..next] == old(buffer[..offset]) + U64(v)
    ensures buffer[next..] == old(buffer[offset + 8..])
  {
    next := WriteUInt32(buffer, v / TWO_32, offset);
    next := WriteUInt32(buffer, v % TWO_32, next);
  }

  /** `source.copy(buffer, offset)`, where there is room for all of it; nothing for a null source. */
  method Copy(source: Option<bytes>, buffer: array<byte>, offset: nat) returns (next: nat)
    requires offset + Length(source) <= buffer.Length
    modifies buffer
    ensures next == offset + Length(source) && buffer[..next] == old(buffer[..offset]) + OrEmpty(source)
    ensures buffer[next..] == old(buffer[offset + Length(source)..])
  {
    var s := OrEmpty(source);
    for i := 0 to |s|
      invariant buffer[..offset + i] == old(buffer[..offset]) + s[..i]
      invariant buffer[offset + i..] == old(buffer[offset + i..])
    {
      buffer[offset + i] := s[i];
    }
    next := offset + |s|;
    assert s[..|s|] == s;
  }

  method WriteHeader(f: Frame, buffer: array<byte>) returns (next: nat)
    requires Serializable(f) && 6 <= buffer.Length
    modifies buffer
    ensures next == 6 && buffer[..next] == Header(f.StreamId(), TypeCode(f), f.flags)
  {
    next := WriteUInt32(buffer, f.StreamId(), 0);
    next := WriteUInt16(buffer, TypeCode(f) * 1024 + FlagWord(f.flags), next);
  }

  method WritePayload(flags: Flags, data: Option<bytes>, metadata: Option<bytes>, buffer: array<byte>, offset: nat)
    returns (next: nat)
    requires MetadataFits(flags, metadata)
    requires offset + PayloadLength(flags, data, metadata) <= buffer.Length
    modifies buffer
    ensures next == offset + PayloadLength(flags, data, metadata)
    ensures buffer[..next] == old(buffer[..offset]) + PayloadBytes(flags, data, metadata)
  {
    next := offset;
    if HasMetadata(flags) {
      next := WriteUInt24(buffer, Length(metadata), next);
      next := Copy(metadata, buffer, next);
    }
    next := Copy(data, buffer, next);
  }

  method SerializeSetup(f: Frame) returns (buffer: array<byte>)
    requires f.Setup? && Serializable(f) && TokenMatchesFlag(f)
    ensures fresh(buffer) && buffer[..] == Encode(f)
  {
    buffer := new byte[SizeOf(f)];
    var offset := WriteHeader(f, buffer);
    offset := WriteUInt16(buffer, f.majorVersion, offset);
    offset := WriteUInt16(buffer, f.minorVersion, offset);
    offset := WriteUInt32(buffer, f.keepAlive, offset);
    offset := WriteUInt32(buffer, f.lifetime, offset);
    offset := WriteToken(f.flags, f.resumeToken, buffer, offset);
    offset := WriteSetupTail(f, buffer, offset);
    assert buffer[..] == buffer[..offset];
    Regroup7(Header(0, SETUP_TYPE, f.flags), U16(f.majorVersion), U16(f.minorVersion), U32(f.keepAlive),
             U32(f.lifetime), TokenBytes(f.flags, f.resumeToken),
             SetupTail(OrEmpty(f.metadataMimeType), OrEmpty(f.dataMimeType),
                       PayloadBytes(f.flags, f.data, f.metadata)));
  }

  method WriteToken(flags: Flags, token: Option<bytes>, buffer: array<byte>, offset: nat) returns (next: nat)
    requires Length(token) < 0x8000 && offset + |TokenBytes(flags, token)| <= buffer.Length
    modifies buffer
    ensures next == offset + |TokenBytes(flags, token)|
    ensures buffer[..next] == old(buffer[..offset]) + TokenBytes(flags, token)
  {
    next := offset;
    if HasResume(flags) {
      next := WriteUInt16(buffer, Length(token), next);
      next := Copy(token, buffer, next);
    }
  }

  method WriteSetupTail(f: Frame, buffer: array<byte>, offset: nat) returns (next: nat)
    requires f.Setup? && Serializable(f)
    requires offset + 2 + Length(f.metadataMimeType) + Length(f.dataMimeType)
             + PayloadLength(f.flags, f.data, f.metadata) <= buffer.Length
    modifies buffer
    ensures next == offset + 2 + Length(f.metadataMimeType) + Length(f.dataMimeType)
                    + PayloadLength(f.flags, f.data, f.metadata)
    ensures buffer[..next] == old(buffer[..offset])
                              + SetupTail(OrEmpty(f.metadataMimeType), OrEmpty(f.dataMimeType),
                                          PayloadBytes(f.flags, f.data, f.metadata))
  {
    RegroupTail(buffer[..offset], OrEmpty(f.metadataMimeType), OrEmpty(f.dataMimeType), PayloadBytes(f.flags, f.data, f.metadata));
    next := WriteMimeType(f.metadataMimeType, buffer, offset);
    next := WriteMimeType(f.dataMimeType, buffer, next);
    next := WritePayload(f.flags, f.data, f.metadata, buffer, next);
  }

  lemma RegroupTail(start: bytes, metadataMime: bytes, dataMime: bytes, payload: bytes)
    requires |metadataMime| < 256 && |dataMime| < 256
    ensures ((start + (U8(|metadataMime|) + metadataMime)) + (U8(|dataMime|) + dataMime)) + payload
         == start + SetupTail(metadataMime, dataMime, payload)
  {
  }

  method WriteMimeType(mimeType: Option<bytes>, buffer: array<byte>, offset: nat) returns (next: nat)
    requires Length(mimeType) < 256 && offset + 1 + Length(mimeType) <= buffer.Length
    modifies buffer
    ensures next == offset + 1 + Length(mimeType)
    ensures buffer[..next] == old(buffer[..offset]) + (U8(Length(mimeType)) + OrEmpty(mimeType))
  {
    next := WriteUInt8(buffer, Length(mimeType), offset);
    next := Copy(mimeType, buffer, next);
  }

  method SerializeLease(f: Frame) returns (buffer: array<byte>)
    requires f.Lease? && Serializable(f)
    ensures fresh(buffer) && buffer[..] == Encode(f)
  {
    buffer := new byte[SizeOf(f)];
    var offset := WriteHeader(f, buffer);
    offset := WriteUInt32(buffer, f.ttl, offset);
    offset := WriteUInt32(buffer, f.requestCount, offset);
    offset := Copy(f.metadata, buffer, offset);
    assert buffer[..] == buffer[..offset];
    Regroup4(Header(0, LEASE_TYPE, f.flags), U32(f.ttl), U32(f.requestCount), OrEmpty(f.metadata));
  }

  method SerializeKeepAlive(f: Frame) returns (buffer: array<byte>)
    requires f.KeepAlive? && Serializable(f)
    ensures fresh(buffer) && buffer[..] == Encode(f)
  {
    buffer := new byte[SizeOf(f)];
    var offset := WriteHeader(f, buffer);
    offset := WriteUInt64(buffer, f.lastReceivedPosition, offset);
    offset := Copy(f.data, buffer, offset);
    assert buffer[..] == buffer[..offset];
    Regroup3(Header(0, KEEPALIVE_TYPE, f.flags), U64(f.lastReceivedPosition), OrEmpty(f.data));
  }

  /** PAYLOAD, REQUEST_FNF and REQUEST_RESPONSE have the same shape. */
  method SerializePayload(f: Frame) returns (buffer: array<byte>)
    requires f.Payload? || f.RequestFnf? || f.RequestResponse?
    requires Serializable(f)
    ensures fresh(buffer) && buffer[..] == Encode(f)
  {
    buffer := new byte[SizeOf(f)];
    var offset := WriteHeader(f, buffer);
    offset := WritePayload(f.flags, f.data, f.metadata, buffer, offset);
    assert buffer[..] == buffer[..offset];
  }

  method SerializeRequestMany(f: Frame) returns (buffer: array<byte>)
    requires f.RequestStream? || f.RequestChannel?
    requires Serializable(f)
    ensures fresh(buffer) && buffer[..] == Encode(f)
  {
    buffer := new byte[SizeOf(f)];
    var offset := WriteHeader(f, buffer);
    offset := WriteUInt32(buffer, f.requestN, offset);
    offset := WritePayload(f.flags, f.data, f.metadata, buffer, offset);
    assert buffer[..] == buffer[..offset];
    Regroup3(Header(f.streamId, TypeCode(f), f.flags), U32(f.requestN), PayloadBytes(f.flags, f.data, f.metadata));
  }

  method SerializeRequestN(f: Frame) returns (buffer: array<byte>)
    requires f.RequestN? && Serializable(f)
    ensures fresh(buffer) && buffer[..] == Encode(f)
  {
    buffer := new byte[SizeOf(f)];
    var offset := WriteHeader(f, buffer);
    offset := WriteUInt32(buffer, f.requestN, offset);
    assert buffer[..] == buffer[..offset];
  }

  method SerializeCancel(f: Frame) returns (buffer: array<byte>)
    requires f.Cancel? && Serializable(f)
    ensures fresh(buffer) && buffer[..] == Encode(f)
  {
    buffer := new byte[SizeOf(f)];
    var offset := WriteHeader(f, buffer);
    assert buffer[..] == buffer[..offset];
  }

  method SerializeError(f: Frame) returns (buffer: array<byte>)
    requires f.Error? && Serializable(f)
    ensures fresh(buffer) && buffer[..] == Encode(f)
  {
    buffer := new byte[SizeOf(f)];
    var offset := WriteHeader(f, buffer);
    offset := WriteUInt32(buffer, f.code, offset);
    offset := Copy(f.message, buffer, offset);
    assert buffer[..] == buffer[..offset];
    Regroup3(Header(f.streamId, ERROR_TYPE, f.flags), U32(f.code), OrEmpty(f.message));
  }

  method SerializeMetadataPush(f: Frame) returns (buffer: array<byte>)
    requires f.MetadataPush? && Serializable(f)
    ensures fresh(buffer) && buffer[..] == Encode(f)
  {
    buffer := new byte[SizeOf(f)];
    var offset := WriteHeader(f, buffer);
    offset := Copy(f.metadata, buffer, offset);
    assert buffer[..] == buffer[..offset];
  }

  method SerializeResume(f: Frame) returns (buffer: array<byte>)
    requires f.Resume? && Serializable(f)
    ensures fresh(buffer) && buffer[..] == Encode(f)
  {
    buffer := new byte[SizeOf(f)];
    var offset := WriteHeader(f, buffer);
    offset := WriteUInt16(buffer, f.majorVersion, offset);
    offset := WriteUInt16(buffer, f.minorVersion, offset);
    offset := WriteUInt16(buffer, |f.token|, offset);
    offset := Copy(Some(f.token), buffer, offset);
    offset := WriteUInt64(buffer, f.serverPosition, offset);
    offset := WriteUInt64(buffer, f.clientPosition, offset);
    assert buffer[..] == buffer[..offset];
    Regroup7(Header(0, RESUME_TYPE, f.flags), U16(f.majorVersion), U16(f.minorVersion), U16(|f.token|), f.token,
             U64(f.serverPosition), U64(f.clientPosition));
  }

  method SerializeResumeOk(f: Frame) returns (buffer: array<byte>)
    requires f.ResumeOk? && Serializable(f)
    ensures fresh(buffer) && buffer[..] == Encode(f)
  {
    buffer := new byte[SizeOf(f)];
    var offset := WriteHeader(f, buffer);
    offset := WriteUInt64(buffer, f.clientPosition, offset);
    assert buffer[..] == buffer[..offset];
  }

  /** `serializeFrame`: a buffer of exactly `SizeOf(f)` bytes that the deserializer reads back as the
      frame the peer is to see. */
  method SerializeFrame(f: Frame) returns (buffer: array<byte>)
    requires Serializable(f) && TokenMatchesFlag(f)
    ensures fresh(buffer) && buffer[..] == Encode(f)
    ensures buffer.Length == SizeOf(f)
    ensures !f.MetadataPush? ==> Decode(buffer[..]) == Some(Received(f))
  {
    match f {
      case Setup(_, _, _, _, _, _, _, _, _, _) => buffer := SerializeSetup(f);
      case Payload(_, _, _, _) => buffer := SerializePayload(f);
      case Error(_, _, _, _) => buffer := SerializeError(f);
      case KeepAlive(_, _, _) => buffer := SerializeKeepAlive(f);
      case RequestFnf(_, _, _, _) => buffer := SerializePayload(f);
      case RequestResponse(_, _, _, _) => buffer := SerializePayload(f);
      case RequestStream(_, _, _, _, _) => buffer := SerializeRequestMany(f);
      case RequestChannel(_, _, _, _, _) => buffer := SerializeRequestMany(f);
      case MetadataPush(_, _) => buffer := SerializeMetadataPush(f);
      case RequestN(_, _, _) => buffer := SerializeRequestN(f);
      case Resume(_, _, _, _, _, _) => buffer := SerializeResume(f);
      case ResumeOk(_, _) => buffer := SerializeResumeOk(f);
      case Cancel(_, _) => buffer := SerializeCancel(f);
      case Lease(_, _, _, _) => buffer := SerializeLease(f);
    }
    FillsItsBuffer(f);
    if !f.MetadataPush? {
      RoundTrip(f);
    }
  }

  /** `serializeFrameWithLength`. */
  method SerializeFrameWithLength(f: Frame) returns (lengthPrefixed: array<byte>)
    requires Serializable(f) && TokenMatchesFlag(f) && SizeOf(f) < TWO_24
    ensures fresh(lengthPrefixed)
    ensures lengthPrefixed[..] == U24(SizeOf(f)) + Encode(f)
  {
    var buffer := SerializeFrame(f);
    lengthPrefixed := new byte[buffer.Length + 3];
    var offset := WriteUInt24(lengthPrefixed, buffer.Length, 0);
    offset := Copy(Some(buffer[..]), lengthPrefixed, offset);
    assert lengthPrefixed[..] == lengthPrefixed[..offset];
  }
}
