/** The bytes of every frame, field by field: what a peer reads that knows nothing of this codec. The
    numbers of the frame types and of the flags are those of the protocol. */
module WireFormat {
  import opened Options
  import opened Bytes
  import opened Frames
  import opened Codec
  import Framing

  /** The number that some bytes stand for, the first one counting most. */
  function BigEndian(b: bytes): nat {
    if b == [] then 0 else 256 * BigEndian(b[..|b| - 1]) + b[|b| - 1]
  }

  /** The `width` bytes at `offset` stand for `value`. */
  ghost predicate Field(b: bytes, offset: nat, width: nat, value: int) {
    offset + width <= |b| && BigEndian(b[offset..offset + width]) == value
  }

  /** The bytes at `offset` are `part`. */
  ghost predicate Holds(b: bytes, offset: nat, part: bytes) {
    offset + |part| <= |b| && b[offset..offset + |part|] == part
  }

  function TypeNumber(f: Frame): nat {
    match f
    case Setup(_, _, _, _, _, _, _, _, _, _) => 1
    case Lease(_, _, _, _) => 2
    case KeepAlive(_, _, _) => 3
    case RequestResponse(_, _, _, _) => 4
    case RequestFnf(_, _, _, _) => 5
    case RequestStream(_, _, _, _, _) => 6
    case RequestChannel(_, _, _, _, _) => 7
    case RequestN(_, _, _) => 8
    case Cancel(_, _) => 9
    case Payload(_, _, _, _) => 10
    case Error(_, _, _, _) => 11
    case MetadataPush(_, _) => 12
    case Resume(_, _, _, _, _, _) => 13
    case ResumeOk(_, _) => 14
    case Ext(_, _, _, _) => 63
  }

  /** Ten bits: IGNORE, METADATA, FOLLOWS, COMPLETE, NEXT, and five that nothing uses. */
  function FlagBits(flags: Flags): nat {
    (if flags.ignore then 512 else 0) + (if flags.metadata then 256 else 0) + (if flags.follows then 128 else 0)
    + (if flags.complete then 64 else 0) + (if flags.next then 32 else 0) + flags.reserved
  }

  /** The stream id, the type and the flags. */
  ghost predicate HeaderLayout(f: Frame, b: bytes) {
    Field(b, 0, 4, f.StreamId()) && Field(b, 4, 2, 1024 * TypeNumber(f) + FlagBits(f.flags))
  }

  /** Metadata behind its length, if the flag announces it, and then data up to the end. */
  ghost predicate PayloadLayout(b: bytes, offset: nat, flags: Flags, data: bytes, metadata: bytes) {
    if flags.metadata
    then Field(b, offset, 3, |metadata|) && Holds(b, offset + 3, metadata) && Holds(b, offset + 3 + |metadata|, data)
         && |b| == offset + 3 + |metadata| + |data|
    else Holds(b, offset, data) && |b| == offset + |data|
  }

  ghost predicate SetupLayout(b: bytes, offset: nat, metadataMime: bytes, dataMime: bytes, flags: Flags, data: bytes, metadata: bytes) {
    && Field(b, offset, 1, |metadataMime|) && Holds(b, offset + 1, metadataMime)
    && Field(b, offset + 1 + |metadataMime|, 1, |dataMime|) && Holds(b, offset + 2 + |metadataMime|, dataMime)
    && PayloadLayout(b, offset + 2 + |metadataMime| + |dataMime|, flags, data, metadata)
  }

  /** What follows the header. */
  ghost predicate BodyLayout(f: Frame, b: bytes) {
    match f
    case Setup(flags, major, minor, keepAlive, lifetime, token, mm, dm, data, metadata) =>
      && Field(b, 6, 2, major) && Field(b, 8, 2, minor) && Field(b, 10, 4, keepAlive) && Field(b, 14, 4, lifetime)
      && var t := OrEmpty(token);
         if flags.follows then Field(b, 18, 2, |t|) && Holds(b, 20, t)
                               && SetupLayout(b, 20 + |t|, OrEmpty(mm), OrEmpty(dm), flags, OrEmpty(data), OrEmpty(metadata))
         else SetupLayout(b, 18, OrEmpty(mm), OrEmpty(dm), flags, OrEmpty(data), OrEmpty(metadata))
    case Lease(_, ttl, count, metadata) =>
      Field(b, 6, 4, ttl) && Field(b, 10, 4, count) && Holds(b, 14, OrEmpty(metadata)) && |b| == 14 + |OrEmpty(metadata)|
    case KeepAlive(_, position, data) =>
      Field(b, 6, 8, position) && Holds(b, 14, OrEmpty(data)) && |b| == 14 + |OrEmpty(data)|
    case RequestResponse(_, flags, data, metadata) => PayloadLayout(b, 6, flags, OrEmpty(data), OrEmpty(metadata))
    case RequestFnf(_, flags, data, metadata) => PayloadLayout(b, 6, flags, OrEmpty(data), OrEmpty(metadata))
    case RequestStream(_, flags, n, data, metadata) =>
      Field(b, 6, 4, n) && PayloadLayout(b, 10, flags, OrEmpty(data), OrEmpty(metadata))
    case RequestChannel(_, flags, n, data, metadata) =>
      Field(b, 6, 4, n) && PayloadLayout(b, 10, flags, OrEmpty(data), OrEmpty(metadata))
    case RequestN(_, _, n) => Field(b, 6, 4, n) && |b| == 10
    case Cancel(_, _) => |b| == 6
    case Payload(_, flags, data, metadata) => PayloadLayout(b, 6, flags, OrEmpty(data), OrEmpty(metadata))
    case Error(_, _, code, message) => Field(b, 6, 4, code) && Holds(b, 10, OrEmpty(message)) && |b| == 10 + |OrEmpty(message)|
    case MetadataPush(_, metadata) => Holds(b, 6, OrEmpty(metadata)) && |b| == 6 + |OrEmpty(metadata)|
    case Resume(_, major, minor, token, server, client) =>
      && Field(b, 6, 2, major) && Field(b, 8, 2, minor) && Field(b, 10, 2, |token|) && Holds(b, 12, token)
      && Field(b, 12 + |token|, 8, server) && Field(b, 20 + |token|, 8, client) && |b| == 28 + |token|
    case ResumeOk(_, client) => Field(b, 6, 8, client) && |b| == 14
    case Ext(_, _, _, _) => false
  }

  // Numbers

  lemma {:induction false} BigEndianAppend(a: bytes, v: byte)
    ensures BigEndian(a + [v]) == 256 * BigEndian(a) + v
  {
    assert (a + [v])[..|a|] == a;
  }

  lemma BigEndian1(v: byte)
    ensures BigEndian([v]) == v
  {
    BigEndianAppend([], v);
    assert [] + [v] == [v];
  }

  lemma BigEndianU16(v: int)
    requires 0 <= v < 65536
    ensures BigEndian(U16(v)) == v
  {
    BigEndian1(v / 256);
    BigEndianAppend([v / 256], v % 256);
    assert U16(v) == [v / 256] + [v % 256];
  }

  lemma BigEndianU24(v: int)
    requires 0 <= v < 16777216
    ensures BigEndian(U24(v)) == v
  {
    BigEndianU16(v / 256);
    BigEndianAppend(U16(v / 256), v % 256);
    assert v / 256 / 256 == v / 65536;
    assert U24(v) == U16(v / 256) + [v % 256];
  }

  lemma {:induction false} BigEndianConcat(a: bytes, b: bytes)
    ensures BigEndian(a + b) == BigEndian(a) * Power256(|b|) + BigEndian(b)
    decreases |b|
  {
    if b == [] {
      assert a + b == a;
    } else {
      var init, last := b[..|b| - 1], b[|b| - 1];
      assert a + b == (a + init) + [last] && b == init + [last];
      BigEndianAppend(a + init, last);
      BigEndianAppend(init, last);
      BigEndianConcat(a, init);
      Times256(BigEndian(a), Power256(|init|), BigEndian(init));
    }
  }

  function Power256(n: nat): nat {
    if n == 0 then 1 else 256 * Power256(n - 1)
  }

  lemma Times256(a: nat, p: nat, c: nat)
    ensures 256 * (a * p + c) == a * (256 * p) + 256 * c
  {
  }

  lemma BigEndianU32(v: int)
    requires 0 <= v < 4294967296
    ensures BigEndian(U32(v)) == v
  {
    BigEndianU16(v / 65536);
    BigEndianU16(v % 65536);
    BigEndianConcat(U16(v / 65536), U16(v % 65536));
    assert Power256(2) == 65536;
  }

  lemma BigEndianU64(v: int)
    requires 0 <= v < 9007199254740992
    ensures BigEndian(U64(v)) == v
  {
    BigEndianU32(v / 4294967296);
    BigEndianU32(v % 4294967296);
    BigEndianConcat(U32(v / 4294967296), U32(v % 4294967296));
    assert Power256(4) == 4294967296;
  }

  // Fields

  /** The part of `b` that begins at `offset` is `part` followed by `rest`. */
  lemma Splits(b: bytes, offset: nat, part: bytes, rest: bytes)
    requires offset <= |b| && b[offset..] == part + rest
    ensures Holds(b, offset, part) && b[offset + |part|..] == rest && |b| == offset + |part| + |rest|
  {
    assert |b| - offset == |part| + |rest|;
    assert b[offset..offset + |part|] == b[offset..][..|part|];
    assert b[offset + |part|..] == b[offset..][|part|..];
  }

  lemma Number1(b: bytes, offset: nat, v: int, rest: bytes)
    requires 0 <= v < 256 && offset <= |b| && b[offset..] == U8(v) + rest
    ensures Field(b, offset, 1, v) && offset + 1 <= |b| && b[offset + 1..] == rest
  {
    Splits(b, offset, U8(v), rest);
    BigEndian1(v);
  }

  lemma Number2(b: bytes, offset: nat, v: int, rest: bytes)
    requires 0 <= v < 65536 && offset <= |b| && b[offset..] == U16(v) + rest
    ensures Field(b, offset, 2, v) && offset + 2 <= |b| && b[offset + 2..] == rest
  {
    Splits(b, offset, U16(v), rest);
    BigEndianU16(v);
  }

  lemma Number3(b: bytes, offset: nat, v: int, rest: bytes)
    requires 0 <= v < 16777216 && offset <= |b| && b[offset..] == U24(v) + rest
    ensures Field(b, offset, 3, v) && offset + 3 <= |b| && b[offset + 3..] == rest
  {
    Splits(b, offset, U24(v), rest);
    BigEndianU24(v);
  }

  lemma Number4(b: bytes, offset: nat, v: int, rest: bytes)
    requires 0 <= v < 4294967296 && offset <= |b| && b[offset..] == U32(v) + rest
    ensures Field(b, offset, 4, v) && offset + 4 <= |b| && b[offset + 4..] == rest
  {
    Splits(b, offset, U32(v), rest);
    BigEndianU32(v);
  }

  lemma Number8(b: bytes, offset: nat, v: int, rest: bytes)
    requires 0 <= v < 9007199254740992 && offset <= |b| && b[offset..] == U64(v) + rest
    ensures Field(b, offset, 8, v) && offset + 8 <= |b| && b[offset + 8..] == rest
  {
    Splits(b, offset, U64(v), rest);
    BigEndianU64(v);
  }

  // Frames

  lemma PayloadHasLayout(b: bytes, offset: nat, flags: Flags, data: Option<bytes>, metadata: Option<bytes>)
    requires MetadataFits(flags, metadata) && offset <= |b| && b[offset..] == PayloadBytes(flags, data, metadata)
    ensures PayloadLayout(b, offset, flags, OrEmpty(data), OrEmpty(metadata))
  {
    hide U24;
    var d, m := OrEmpty(data), OrEmpty(metadata);
    assert d + [] == d;
    if HasMetadata(flags) {
      Number3(b, offset, |m|, m + d);
      Splits(b, offset + 3, m, d);
      Splits(b, offset + 3 + |m|, d, []);
    } else {
      Splits(b, offset, d, []);
    }
  }

  lemma SetupHasLayout(b: bytes, offset: nat, mm: Option<bytes>, dm: Option<bytes>, flags: Flags, data: Option<bytes>,
                       metadata: Option<bytes>)
    requires MetadataFits(flags, metadata) && Length(mm) < 256 && Length(dm) < 256 && offset <= |b|
    requires b[offset..] == SetupTail(OrEmpty(mm), OrEmpty(dm), PayloadBytes(flags, data, metadata))
    ensures SetupLayout(b, offset, OrEmpty(mm), OrEmpty(dm), flags, OrEmpty(data), OrEmpty(metadata))
  {
    hide U8, PayloadBytes, PayloadLayout;
    var m, d, p := OrEmpty(mm), OrEmpty(dm), PayloadBytes(flags, data, metadata);
    Number1(b, offset, |m|, m + (U8(|d|) + (d + p)));
    Splits(b, offset + 1, m, U8(|d|) + (d + p));
    Number1(b, offset + 1 + |m|, |d|, d + p);
    Splits(b, offset + 2 + |m|, d, p);
    PayloadHasLayout(b, offset + 2 + |m| + |d|, flags, data, metadata);
  }

  lemma SetupFrameHasLayout(f: Frame, b: bytes)
    requires f.Setup? && Serializable(f) && 6 <= |b| && b[6..] == Body(f)
    ensures BodyLayout(f, b)
  {
    hide U16, U32, SetupTail, SetupLayout, PayloadBytes;
    var tail := SetupTail(OrEmpty(f.metadataMimeType), OrEmpty(f.dataMimeType), PayloadBytes(f.flags, f.data, f.metadata));
    var t, rest := OrEmpty(f.resumeToken), TokenBytes(f.flags, f.resumeToken) + tail;
    Number2(b, 6, f.majorVersion, U16(f.minorVersion) + (U32(f.keepAlive) + (U32(f.lifetime) + rest)));
    Number2(b, 8, f.minorVersion, U32(f.keepAlive) + (U32(f.lifetime) + rest));
    Number4(b, 10, f.keepAlive, U32(f.lifetime) + rest);
    Number4(b, 14, f.lifetime, rest);
    if HasResume(f.flags) {
      Regroup3(U16(|t|), t, tail);
      Number2(b, 18, |t|, t + tail);
      Splits(b, 20, t, tail);
      SetupHasLayout(b, 20 + |t|, f.metadataMimeType, f.dataMimeType, f.flags, f.data, f.metadata);
    } else {
      assert [] + tail == tail;
      SetupHasLayout(b, 18, f.metadataMimeType, f.dataMimeType, f.flags, f.data, f.metadata);
    }
  }

  lemma ResumeFrameHasLayout(f: Frame, b: bytes)
    requires f.Resume? && Serializable(f) && 6 <= |b| && b[6..] == Body(f)
    ensures BodyLayout(f, b)
  {
    hide U16, U64;
    var t, ends := f.token, U64(f.serverPosition) + U64(f.clientPosition);
    assert U64(f.clientPosition) + [] == U64(f.clientPosition);
    Number2(b, 6, f.majorVersion, U16(f.minorVersion) + (U16(|t|) + (t + ends)));
    Number2(b, 8, f.minorVersion, U16(|t|) + (t + ends));
    Number2(b, 10, |t|, t + ends);
    Splits(b, 12, t, ends);
    Number8(b, 12 + |t|, f.serverPosition, U64(f.clientPosition));
    Number8(b, 20 + |t|, f.clientPosition, []);
  }

  lemma RequestHasLayout(f: Frame, b: bytes, n: int, data: Option<bytes>, metadata: Option<bytes>)
    requires 6 <= |b| && MetadataFits(f.flags, metadata) && Fits32(n)
    requires b[6..] == U32(n) + PayloadBytes(f.flags, data, metadata)
    ensures Field(b, 6, 4, n) && PayloadLayout(b, 10, f.flags, OrEmpty(data), OrEmpty(metadata))
  {
    hide U32, PayloadBytes;
    Number4(b, 6, n, PayloadBytes(f.flags, data, metadata));
    PayloadHasLayout(b, 10, f.flags, data, metadata);
  }

  /** Fixed fields, and a part that goes on to the end. */
  lemma NumbersHaveLayout(f: Frame, b: bytes)
    requires f.Lease? || f.KeepAlive? || f.RequestN? || f.Cancel? || f.Error? || f.ResumeOk? || f.MetadataPush?
    requires Serializable(f) && 6 <= |b| && b[6..] == Body(f)
    ensures BodyLayout(f, b)
  {
    hide U32, U64;
    match f
    case Lease(_, ttl, count, metadata) =>
      Number4(b, 6, ttl, U32(count) + OrEmpty(metadata));
      Number4(b, 10, count, OrEmpty(metadata));
      ToTheEnd(b, 14, OrEmpty(metadata));
    case KeepAlive(_, position, data) =>
      Number8(b, 6, position, OrEmpty(data));
      ToTheEnd(b, 14, OrEmpty(data));
    case RequestN(_, _, n) =>
      assert U32(n) + [] == U32(n);
      Number4(b, 6, n, []);
    case Cancel(_, _) =>
    case Error(_, _, code, message) =>
      Number4(b, 6, code, OrEmpty(message));
      ToTheEnd(b, 10, OrEmpty(message));
    case MetadataPush(_, metadata) => ToTheEnd(b, 6, OrEmpty(metadata));
    case ResumeOk(_, client) =>
      assert U64(client) + [] == U64(client);
      Number8(b, 6, client, []);
  }

  lemma ToTheEnd(b: bytes, offset: nat, part: bytes)
    requires offset <= |b| && b[offset..] == part
    ensures Holds(b, offset, part) && |b| == offset + |part|
  {
    assert part + [] == part;
    Splits(b, offset, part, []);
  }

  lemma HeaderHasLayout(f: Frame)
    requires Serializable(f)
    ensures HeaderLayout(f, Encode(f)) && |Encode(f)| >= 6 && Encode(f)[6..] == Body(f)
  {
    hide U32, U16, Body;
    var b, word := Encode(f), TypeCode(f) * 1024 + FlagWord(f.flags);
    Regroup3(U32(f.StreamId()), U16(word), Body(f));
    assert b[0..] == b;
    Number4(b, 0, f.StreamId(), U16(word) + Body(f));
    Number2(b, 4, word, Body(f));
  }

  /** The layout of every frame that the codec can write. */
  lemma EncodedLayout(f: Frame)
    requires Serializable(f)
    ensures HeaderLayout(f, Encode(f)) && BodyLayout(f, Encode(f))
  {
    hide Encode, Body, HeaderLayout;
    var b := Encode(f);
    HeaderHasLayout(f);
    if f.Setup? {
      SetupFrameHasLayout(f, b);
    } else if f.Resume? {
      ResumeFrameHasLayout(f, b);
    } else {
      OtherHasLayout(f, b);
    }
  }

  lemma OtherHasLayout(f: Frame, b: bytes)
    requires Serializable(f) && !f.Setup? && !f.Resume? && 6 <= |b| && b[6..] == Body(f)
    ensures BodyLayout(f, b)
  {
    hide U32, PayloadBytes, PayloadLayout;
    match f
    case RequestStream(_, flags, n, data, metadata) => RequestHasLayout(f, b, n, data, metadata);
    case RequestChannel(_, flags, n, data, metadata) => RequestHasLayout(f, b, n, data, metadata);
    case RequestResponse(_, flags, data, metadata) => PayloadHasLayout(b, 6, flags, data, metadata);
    case RequestFnf(_, flags, data, metadata) => PayloadHasLayout(b, 6, flags, data, metadata);
    case Payload(_, flags, data, metadata) => PayloadHasLayout(b, 6, flags, data, metadata);
    case _ => NumbersHaveLayout(f, b);
  }

  // Some frames, byte by byte

  lemma CancelBytes()
    ensures Encode(Cancel(1, NO_FLAGS))
         == [0, 0, 0, 1, 0x24, 0]
  {
  }

  lemma RequestNBytes()
    ensures Encode(RequestN(3, NO_FLAGS, 258))
         == [0, 0, 0, 3, 0x20, 0, 0, 0, 1, 2]
  {
  }

  lemma ErrorBytes()
    ensures Encode(Error(0, NO_FLAGS, 0x203, Some([65])))
         == [0, 0, 0, 0, 0x2c, 0, 0, 0, 2, 3, 65]
  {
  }

  lemma KeepAliveBytes()
    ensures Encode(KeepAlive(NO_FLAGS.(follows := true), 1, None))
         == [0, 0, 0, 0, 0x0c, 0x80, 0, 0, 0, 0, 0, 0, 0, 1]
  {
  }

  lemma LeaseBytes()
    ensures Encode(Lease(NO_FLAGS, 5, 7, None))
         == [0, 0, 0, 0, 0x08, 0, 0, 0, 0, 5, 0, 0, 0, 7]
  {
  }

  lemma PayloadFrameBytes()
    ensures Encode(Payload(1, PayloadFlags(true, true, false, true), Some([7]), Some([8, 9])))
         == [0, 0, 0, 1, 0x29, 0x60, 0, 0, 2, 8, 9, 7]
  {
  }

  lemma RequestChannelBytes()
    ensures Encode(RequestChannel(5, PayloadFlags(false, false, true, false), 2, Some([6]), None))
         == [0, 0, 0, 5, 0x1c, 0x80, 0, 0, 0, 2, 6]
  {
  }

  lemma MetadataPushBytes()
    ensures Encode(MetadataPush(NO_FLAGS.(metadata := true), Some([5])))
         == [0, 0, 0, 0, 0x31, 0, 5]
  {
  }

  lemma SetupBytes()
    ensures Encode(Setup(NO_FLAGS.(follows := true), 1, 0, 2, 3, Some([4]), Some([97]), Some([98]), None, None))
         == [0, 0, 0, 0, 0x04, 0x80, 0, 1, 0, 0, 0, 0, 0, 2, 0, 0, 0, 3, 0, 1, 4, 1, 97, 1, 98]
  {
  }

  lemma ResumeBytes()
    ensures Encode(Resume(NO_FLAGS, 0, 1, [4], 5, 6))
         == [0, 0, 0, 0, 0x34, 0, 0, 0, 0, 1, 0, 1, 4, 0, 0, 0, 0, 0, 0, 0, 5, 0, 0, 0, 0, 0, 0, 0, 6]
  {
  }

  lemma ResumeOkBytes()
    ensures Encode(ResumeOk(NO_FLAGS, 9))
         == [0, 0, 0, 0, 0x38, 0, 0, 0, 0, 0, 0, 0, 0, 9]
  {
  }

  /** On a byte stream a frame is preceded by the number of its bytes, in three bytes. */
  lemma PrefixBytes(encoded: bytes)
    requires Framing.PrefixFits(encoded)
    ensures var b := Framing.Prefixed(encoded);
            Field(b, 0, 3, |encoded|) && Holds(b, 3, encoded) && |b| == 3 + |encoded|
  {
    var b := Framing.Prefixed(encoded);
    assert b[0..] == U24(|encoded|) + encoded;
    Number3(b, 0, |encoded|, encoded);
    assert encoded + [] == encoded;
    Splits(b, 3, encoded, []);
  }
}
