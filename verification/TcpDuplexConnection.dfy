/** Length-prefixed frames in a byte stream, read by any deserializer: the connection is given its
    deserializer as a parameter. */
module Framing {
  import opened Options
  import opened Bytes

  /** What a connection has done so far: the frames handed to the multiplexer, the bytes of a frame that
      is not complete yet, and whether an undecodable frame has closed it. */
  datatype Inbound<F> = Inbound(handed: seq<F>, remaining: bytes, done: bool)

  type Deserializer<F> = bytes -> Option<F>

  /** Where the frame that starts at `offset` ends, if all of it is there. A buffer with only three bytes
      left is not read, even when they announce an empty frame. */
  function FrameEnd(b: bytes, offset: nat): (frameEnd: Option<nat>)
    requires offset <= |b|
    ensures frameEnd.Some? ==> offset + 3 <= frameEnd.value <= |b|
  {
    if offset + 3 >= |b| || offset + 3 + GetU24(b, offset).value > |b| then None
    else Some(offset + 3 + GetU24(b, offset).value)
  }

  /** Hand over every complete frame of `b` from `offset` on, up to one that the deserializer rejects. */
  function Parse<F>(decode: Deserializer<F>, handed: seq<F>, b: bytes, offset: nat): (c: Inbound<F>)
    requires offset <= |b|
    decreases |b| - offset
  {
    match FrameEnd(b, offset)
    case None => Inbound(handed, b[offset..], false)
    case Some(frameEnd) =>
      match decode(b[offset + 3..frameEnd])
      case None => Inbound(handed, b[offset..], true)
      case Some(f) => Parse(decode, handed + [f], b, frameEnd)
  }

  /** One `data` event. A closed connection has removed its listener; an exception leaves the buffer
      that was kept from earlier chunks. */
  function Feed<F>(decode: Deserializer<F>, c: Inbound<F>, chunk: bytes): Inbound<F> {
    if c.done then c
    else
      var next := Parse(decode, c.handed, c.remaining + chunk, 0);
      if next.done then next.(remaining := c.remaining) else next
  }

  function FeedAll<F>(decode: Deserializer<F>, c: Inbound<F>, chunks: seq<bytes>): Inbound<F>
    decreases |chunks|
  {
    if chunks == [] then c else FeedAll(decode, Feed(decode, c, chunks[0]), chunks[1..])
  }

  function Flatten(chunks: seq<bytes>): bytes {
    if chunks == [] then [] else chunks[0] + Flatten(chunks[1..])
  }

  /** A buffer from which no frame can be read. */
  predicate Waiting(b: bytes) {
    FrameEnd(b, 0) == None
  }

  lemma FrameEndShift(b: bytes, from: nat, k: nat)
    requires from + k <= |b|
    ensures FrameEnd(b, from + k)
         == match FrameEnd(b[from..], k)
            case None => None
            case Some(frameEnd) => Some(from + frameEnd)
    ensures FrameEnd(b, from + k).Some? ==>
              b[from + k + 3..FrameEnd(b, from + k).value] == b[from..][k + 3..FrameEnd(b[from..], k).value]
    ensures b[from + k..] == b[from..][k..]
  {
    if from + k + 3 < |b| {
      assert GetU24(b, from + k) == GetU24(b[from..], k);
    }
  }

  lemma {:induction false} ParseShift<F>(decode: Deserializer<F>, handed: seq<F>, b: bytes, from: nat, k: nat)
    requires from + k <= |b|
    ensures Parse(decode, handed, b, from + k) == Parse(decode, handed, b[from..], k)
    decreases |b| - from - k
  {
    FrameEndShift(b, from, k);
    match FrameEnd(b[from..], k)
    case None =>
    case Some(frameEnd) =>
      match decode(b[from..][k + 3..frameEnd])
      case None =>
      case Some(f) => ParseShift(decode, handed + [f], b, from, frameEnd);
  }

  lemma FrameEndAppend(a: bytes, b: bytes, offset: nat)
    requires offset <= |a| && FrameEnd(a, offset).Some?
    ensures FrameEnd(a + b, offset) == FrameEnd(a, offset)
    ensures (a + b)[offset + 3..FrameEnd(a, offset).value] == a[offset + 3..FrameEnd(a, offset).value]
  {
    assert GetU24(a + b, offset) == GetU24(a, offset);
  }

  /** Reading more bytes later resumes exactly where the shorter buffer stopped. */
  lemma {:induction false} ParseAppend<F>(decode: Deserializer<F>, handed: seq<F>, a: bytes, b: bytes, offset: nat)
    requires offset <= |a|
    ensures var first, whole := Parse(decode, handed, a, offset), Parse(decode, handed, a + b, offset);
            if first.done then whole.done && whole.handed == first.handed
            else whole == Parse(decode, first.handed, first.remaining + b, 0) && Waiting(first.remaining)
    decreases |a| - offset
  {
    match FrameEnd(a, offset)
    case None =>
      FrameEndShift(a, offset, 0);
      ParseShift(decode, handed, a + b, offset, 0);
      assert (a + b)[offset..] == a[offset..] + b;
    case Some(frameEnd) =>
      FrameEndAppend(a, b, offset);
      match decode(a[offset + 3..frameEnd])
      case None =>
      case Some(f) => ParseAppend(decode, handed + [f], a, b, frameEnd);
  }

  /** Chunking does not matter: whatever the bytes, well formed or not, and however they are cut, the
      frames handed over and the fate of the connection are those of a single chunk. */
  lemma {:induction false} ChunkingDoesNotMatter<F>(decode: Deserializer<F>, c: Inbound<F>, chunks: seq<bytes>)
    requires Waiting(c.remaining)
    ensures var one, many := Feed(decode, c, Flatten(chunks)), FeedAll(decode, c, chunks);
            && many.handed == one.handed && many.done == one.done
            && (!one.done ==> many == one && Waiting(many.remaining))
    decreases |chunks|
  {
    if chunks == [] {
      assert c.remaining + [] == c.remaining;
      assert c.remaining[0..] == c.remaining;
    } else {
      var next := Feed(decode, c, chunks[0]);
      var tail := Flatten(chunks[1..]);
      assert c.remaining + Flatten(chunks) == c.remaining + chunks[0] + tail;
      ParseAppend(decode, c.handed, c.remaining + chunks[0], tail, 0);
      if next.done {
        FeedAllWhenDone(decode, next, chunks[1..]);
      } else {
        ChunkingDoesNotMatter(decode, next, chunks[1..]);
      }
    }
  }

  lemma {:induction false} FeedAllWhenDone<F>(decode: Deserializer<F>, c: Inbound<F>, chunks: seq<bytes>)
    requires c.done
    ensures FeedAll(decode, c, chunks) == c
    decreases |chunks|
  {
    if chunks != [] {
      FeedAllWhenDone(decode, c, chunks[1..]);
    }
  }

  // Streams of encoded frames

  predicate PrefixFits(encoded: bytes) {
    0 < |encoded| < TWO_24
  }

  predicate AllPrefixesFit(encoded: seq<bytes>) {
    forall i | 0 <= i < |encoded| :: PrefixFits(encoded[i])
  }

  function Prefixed(encoded: bytes): bytes
    requires PrefixFits(encoded)
  {
    U24(|encoded|) + encoded
  }

  function Stream(encoded: seq<bytes>): bytes
    requires AllPrefixesFit(encoded)
  {
    if encoded == [] then [] else Prefixed(encoded[0]) + Stream(encoded[1..])
  }

  /** Every encoding fits its prefix and is decoded to the frame at the same place of `frames`. */
  ghost predicate Decodes<F>(decode: Deserializer<F>, encoded: seq<bytes>, frames: seq<F>) {
    && |encoded| == |frames|
    && AllPrefixesFit(encoded)
    && forall i | 0 <= i < |encoded| :: decode(encoded[i]) == Some(frames[i])
  }

  /** The prefix tells where a frame ends, and what comes after it is left. */
  lemma PrefixRead(e: bytes, rest: bytes)
    requires PrefixFits(e)
    ensures var b := Prefixed(e) + rest; FrameEnd(b, 0) == Some(3 + |e|) && b[3..3 + |e|] == e && b[3 + |e|..] == rest
  {
    hide U24;
    var b := Prefixed(e) + rest;
    assert b == U24(|e|) + (e + rest);
    assert b[0..] == b;
    ReadU24(b, 0, |e|, e + rest);
  }

  lemma ParseFirst<F>(decode: Deserializer<F>, handed: seq<F>, e: bytes, f: F, rest: bytes)
    requires PrefixFits(e) && decode(e) == Some(f)
    ensures Parse(decode, handed, Prefixed(e) + rest, 0) == Parse(decode, handed + [f], rest, 0)
  {
    hide FrameEnd, Prefixed;
    PrefixRead(e, rest);
    ParseShift(decode, handed + [f], Prefixed(e) + rest, 3 + |e|, 0);
  }

  lemma ParseHead<F>(decode: Deserializer<F>, handed: seq<F>, encoded: seq<bytes>, frames: seq<F>, rest: bytes)
    requires encoded != [] && Decodes(decode, encoded, frames)
    ensures Parse(decode, handed, Stream(encoded) + rest, 0)
         == Parse(decode, handed + [frames[0]], Stream(encoded[1..]) + rest, 0)
  {
    var head, tail := Prefixed(encoded[0]), Stream(encoded[1..]);
    Regroup3(head, tail, rest);
    ParseFirst(decode, handed, encoded[0], frames[0], tail + rest);
  }

  lemma AppendHead<F>(handed: seq<F>, frames: seq<F>)
    requires frames != []
    ensures handed + [frames[0]] + frames[1..] == handed + frames
  {
  }

  lemma {:induction false} ParseStream<F>(decode: Deserializer<F>, handed: seq<F>, encoded: seq<bytes>,
                                          frames: seq<F>, rest: bytes)
    requires Decodes(decode, encoded, frames)
    ensures Parse(decode, handed, Stream(encoded) + rest, 0) == Parse(decode, handed + frames, rest, 0)
    decreases |encoded|
  {
    if encoded == [] {
      assert Stream(encoded) + rest == rest && handed + frames == handed;
    } else {
      ParseHead(decode, handed, encoded, frames, rest);
      ParseStream(decode, handed + [frames[0]], encoded[1..], frames[1..], rest);
      AppendHead(handed, frames);
    }
  }

  function Opened<F>(): Inbound<F> {
    Inbound([], [], false)
  }

  /** Any list of encoded frames, concatenated and cut anywhere, is handed over exactly once and in
      order, and nothing is left in the buffer. */
  lemma FramesSurviveChunking<F>(decode: Deserializer<F>, encoded: seq<bytes>, frames: seq<F>, chunks: seq<bytes>)
    requires Decodes(decode, encoded, frames) && Flatten(chunks) == Stream(encoded)
    ensures FeedAll(decode, Opened(), chunks) == Inbound(frames, [], false)
  {
    ChunkingDoesNotMatter(decode, Opened(), chunks);
    ParseStream(decode, [], encoded, frames, []);
    assert Stream(encoded) + [] == Stream(encoded) == [] + Stream(encoded);
    assert [] + frames == frames;
  }

  /** Wherever the stream is interrupted, the connection is open and what it has handed over is a prefix
      of what was sent. */
  lemma PartialDelivery<F>(decode: Deserializer<F>, encoded: seq<bytes>, frames: seq<F>, chunks: seq<bytes>,
                           missing: bytes)
    requires Decodes(decode, encoded, frames) && Flatten(chunks) + missing == Stream(encoded)
    ensures FeedAll(decode, Opened(), chunks).handed <= frames
    ensures !FeedAll(decode, Opened(), chunks).done
  {
    var arrived := Flatten(chunks);
    ChunkingDoesNotMatter(decode, Opened(), chunks);
    assert [] + arrived == arrived;
    ParseAppend(decode, [], arrived, missing, 0);
    ParseStream(decode, [], encoded, frames, []);
    assert Stream(encoded) + [] == Stream(encoded);
    assert [] + frames == frames;
    var first := Parse(decode, [], arrived, 0);
    if !first.done {
      ParseExtends(decode, first.handed, first.remaining + missing, 0);
    }
  }

  lemma {:induction false} ParseExtends<F>(decode: Deserializer<F>, handed: seq<F>, b: bytes, offset: nat)
    requires offset <= |b|
    ensures handed <= Parse(decode, handed, b, offset).handed
    decreases |b| - offset
  {
    match FrameEnd(b, offset)
    case None =>
    case Some(frameEnd) =>
      match decode(b[offset + 3..frameEnd])
      case None =>
      case Some(f) => ParseExtends(decode, handed + [f], b, frameEnd);
  }

  /** A frame that cannot be decoded closes the connection: what was handed over are the frames before it,
      whatever follows it and however the bytes are cut. */
  lemma UndecodableCloses<F>(decode: Deserializer<F>, encoded: seq<bytes>, frames: seq<F>, bad: bytes, rest: bytes,
                             chunks: seq<bytes>)
    requires Decodes(decode, encoded, frames) && PrefixFits(bad) && decode(bad) == None
    requires Flatten(chunks) == Stream(encoded) + (Prefixed(bad) + rest)
    ensures var c := FeedAll(decode, Opened(), chunks); c.done && c.handed == frames
  {
    var b := Prefixed(bad) + rest;
    ChunkingDoesNotMatter(decode, Opened(), chunks);
    assert [] + (Stream(encoded) + b) == Stream(encoded) + b;
    ParseStream(decode, [], encoded, frames, b);
    assert [] + frames == frames;
    ParseBad(decode, frames, bad, rest);
  }

  lemma ParseBad<F>(decode: Deserializer<F>, handed: seq<F>, bad: bytes, rest: bytes)
    requires PrefixFits(bad) && decode(bad) == None
    ensures var c := Parse(decode, handed, Prefixed(bad) + rest, 0); c.done && c.handed == handed
  {
    hide FrameEnd, Prefixed;
    PrefixRead(bad, rest);
  }

  /** A frame that is announced to be empty waits until a byte follows; then it is given to the deserializer. */
  lemma EmptyFrameWaits<F>(decode: Deserializer<F>, rest: bytes)
    ensures Parse(decode, [], [0, 0, 0], 0) == Inbound([], [0, 0, 0], false)
    ensures rest != [] ==>
              Parse(decode, [], [0, 0, 0] + rest, 0)
              == match decode([])
                 case None => Inbound([], [0, 0, 0] + rest, true)
                 case Some(f) => Parse(decode, [f], rest, 0)
  {
    var empty: bytes := [0, 0, 0];
    var b := empty + rest;
    assert b[0..] == b && empty[0..] == empty && b[3..] == rest;
    if rest != [] {
      assert b[3..3] == [];
      assert FrameEnd(b, 0) == Some(3);
      match decode([])
      case None =>
      case Some(f) =>
        assert [] + [f] == [f];
        assert b[3..3] == [] && Parse(decode, [], b, 0) == Parse(decode, [f], b, 3);
        ParseShift(decode, [f], b, 3, 0);
    }
  }

  class TcpDuplexConnection<F> {
    const deserializer: Deserializer<F>
    var remainingBuffer: bytes
    var done: bool
    /** The frames given to the multiplexer, oldest first. */
    var handed: seq<F>

    constructor (deserializer: Deserializer<F>)
      ensures this.deserializer == deserializer && View() == Opened()
    {
      this.deserializer := deserializer;
      remainingBuffer, done, handed := [], false, [];
    }

    function View(): Inbound<F>
      reads this
    {
      Inbound(handed, remainingBuffer, done)
    }

    /** The loop of `deserializeFrames`, giving each frame to the multiplexer as it is read: where the
        reading stopped, and whether a frame could not be decoded. */
    method ReadFrames(buffer: bytes) returns (offset: nat, failed: bool)
      modifies this`handed
      ensures offset <= |buffer|
      ensures Parse(deserializer, old(handed), buffer, 0) == Inbound(handed, buffer[offset..], failed)
    {
      offset, failed := 0, false;
      while offset + 3 < |buffer|
        invariant offset <= |buffer| && !failed
        invariant Parse(deserializer, old(handed), buffer, 0) == Parse(deserializer, handed, buffer, offset)
      {
        var frameLength := GetU24(buffer, offset).value;
        var frameStart := offset + 3;
        var frameEnd := frameStart + frameLength;
        if frameEnd > |buffer| {
          return;
        }
        var frame := deserializer(buffer[frameStart..frameEnd]);
        if frame.None? {
          failed := true;
          return;
        }
        offset := frameEnd;
        handed := handed + [frame.value];
      }
    }

    /** The listener of the socket's `data` event. */
    method HandleData(chunk: bytes)
      requires !done
      modifies this
      ensures View() == Feed(deserializer, old(View()), chunk)
    {
      var buffer := remainingBuffer + chunk;
      var lastOffset, failed := ReadFrames(buffer);
      if failed {
        done := true;
      } else {
        remainingBuffer := buffer[lastOffset..];
      }
    }
  }
}
