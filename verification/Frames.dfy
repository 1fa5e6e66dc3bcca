/** The frames of the RSocket protocol, their flags and the fixed lengths. */
module Frames {
  import opened Options
  import opened Bytes

  /** Size of a metadata length field, and what the fragmenter charges for requestN. */
  const METADATA_LENGTH := 3
  const REQUEST_LENGTH := 3

  type ReservedBits = x: nat | x < 32

  /** The ten flag bits that are written. Some mean different things in different frames: `complete` is
      LEASE in SETUP, `follows` is RESUME_ENABLE in SETUP and RESPOND in KEEPALIVE. */
  datatype Flags = Flags(ignore: bool, metadata: bool, follows: bool, complete: bool, next: bool,
                         reserved: ReservedBits)

  const NO_FLAGS := Flags(false, false, false, false, false, 0)

  const IGNORE := 0x200
  const METADATA := 0x100
  const FOLLOWS := 0x80
  const COMPLETE := 0x40
  const NEXT := 0x20

  predicate HasMetadata(flags: Flags) { flags.metadata }
  predicate HasComplete(flags: Flags) { flags.complete }
  predicate HasNext(flags: Flags) { flags.next }
  predicate HasFollows(flags: Flags) { flags.follows }
  predicate HasIgnore(flags: Flags) { flags.ignore }
  predicate HasResume(flags: Flags) { flags.follows }

  /** The number that stands for the flags on the wire. */
  function FlagWord(flags: Flags): (word: nat)
    ensures word < 1024
  {
    Bit(flags.ignore, IGNORE) + Bit(flags.metadata, METADATA) + Bit(flags.follows, FOLLOWS)
    + Bit(flags.complete, COMPLETE) + Bit(flags.next, NEXT) + flags.reserved
  }

  function Bit(on: bool, mask: nat): nat {
    if on then mask else 0
  }

  function FlagsOf(word: nat): Flags {
    Flags(word / IGNORE % 2 == 1, word / METADATA % 2 == 1, word / FOLLOWS % 2 == 1, word / COMPLETE % 2 == 1,
          word / NEXT % 2 == 1, word % NEXT)
  }

  lemma Ordered(d: nat, a: nat, b: nat)
    requires a <= b
    ensures d * a <= d * b
  {
  }

  lemma QuotientIsUnique(v: nat, d: nat, q: nat, r: nat)
    requires r < d && v == d * q + r
    ensures v / d == q
  {
    if v / d < q {
      Ordered(d, v / d + 1, q);
    } else if v / d > q {
      Ordered(d, q + 1, v / d);
    }
  }

  /** The bit that `mask` selects. */
  lemma SelectedBit(word: nat, mask: nat, above: nat, on: bool, below: nat)
    requires below < mask && word == mask * (2 * above + Bit(on, 1)) + below
    ensures (word / mask % 2 == 1) == on
  {
    QuotientIsUnique(word, mask, 2 * above + Bit(on, 1), below);
  }

  lemma FlagsReadBack(flags: Flags)
    ensures FlagsOf(FlagWord(flags)) == flags
  {
    var i, m, f, c, n := Bit(flags.ignore, 1), Bit(flags.metadata, 1), Bit(flags.follows, 1),
                         Bit(flags.complete, 1), Bit(flags.next, 1);
    var word, r: nat := FlagWord(flags), flags.reserved;
    SelectedBit(word, IGNORE, 0, flags.ignore, 256 * m + 128 * f + 64 * c + 32 * n + r);
    SelectedBit(word, METADATA, i, flags.metadata, 128 * f + 64 * c + 32 * n + r);
    SelectedBit(word, FOLLOWS, 2 * i + m, flags.follows, 64 * c + 32 * n + r);
    SelectedBit(word, COMPLETE, 4 * i + 2 * m + f, flags.complete, 32 * n + r);
    SelectedBit(word, NEXT, 8 * i + 4 * m + 2 * f + c, flags.next, r);
    QuotientIsUnique(word, NEXT, 16 * i + 8 * m + 4 * f + 2 * c + n, r);
  }

  /** The union of the payload flags chosen. */
  function PayloadFlags(next: bool, complete: bool, follows: bool, metadata: bool): Flags {
    Flags(false, metadata, follows, complete, next, 0)
  }

  /** Every frame type; connection frames carry no stream id field, it is always 0. */
  datatype Frame =
    | Setup(flags: Flags, majorVersion: nat, minorVersion: nat, keepAlive: int, lifetime: int,
            resumeToken: Option<bytes>, metadataMimeType: Option<bytes>, dataMimeType: Option<bytes>,
            data: Option<bytes>, metadata: Option<bytes>)
    | Lease(flags: Flags, ttl: nat, requestCount: nat, metadata: Option<bytes>)
    | KeepAlive(flags: Flags, lastReceivedPosition: nat, data: Option<bytes>)
    | RequestResponse(streamId: int, flags: Flags, data: Option<bytes>, metadata: Option<bytes>)
    | RequestFnf(streamId: int, flags: Flags, data: Option<bytes>, metadata: Option<bytes>)
    | RequestStream(streamId: int, flags: Flags, requestN: int, data: Option<bytes>, metadata: Option<bytes>)
    | RequestChannel(streamId: int, flags: Flags, requestN: int, data: Option<bytes>, metadata: Option<bytes>)
    | RequestN(streamId: int, flags: Flags, requestN: int)
    | Cancel(streamId: int, flags: Flags)
    | Payload(streamId: int, flags: Flags, data: Option<bytes>, metadata: Option<bytes>)
    | Error(streamId: int, flags: Flags, code: int, message: Option<bytes>)
    | MetadataPush(flags: Flags, metadata: Option<bytes>)
    | Resume(flags: Flags, majorVersion: nat, minorVersion: nat, token: bytes,
             serverPosition: nat, clientPosition: nat)
    | ResumeOk(flags: Flags, clientPosition: nat)
    | Ext(streamId: int, flags: Flags, extendedType: int, extendedContent: Option<bytes>)
  {
    /** `frame.streamId`, which is 0 for the connection-only frame types. */
    function StreamId(): int {
      match this
      case RequestResponse(id, _, _, _) => id
      case RequestFnf(id, _, _, _) => id
      case RequestStream(id, _, _, _, _) => id
      case RequestChannel(id, _, _, _, _) => id
      case RequestN(id, _, _) => id
      case Cancel(id, _) => id
      case Payload(id, _, _, _) => id
      case Error(id, _, _, _) => id
      case Ext(id, _, _, _) => id
      case _ => 0
    }
  }

  /** What an application sends: data is required, metadata is optional. */
  datatype AppPayload = AppPayload(data: Option<bytes>, metadata: Option<bytes>)

  /** Absent and empty buffers are the same thing to a peer: the codec reads both as absent. */
  function NonEmpty(b: Option<bytes>): Option<bytes> {
    if b == Some([]) then None else b
  }

  function OrEmpty(b: Option<bytes>): bytes {
    b.GetOr([])
  }
}
