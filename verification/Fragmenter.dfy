/** Cutting a payload into frames. */
module Fragmenter {
  import opened Options
  import opened Bytes
  import opened Frames
  import opened Codec
  import opened Reassembler

  /** What a list of fragments begins with: a frame of a request, or just a PAYLOAD frame. */
  datatype Kind =
    | PayloadKind
    | FnfKind
    | ResponseKind
    | StreamKind(requestN: int)
    | ChannelKind(requestN: int)
  {
    /** What the fragmenter charges for requestN. */
    function RequestCost(): nat {
      if StreamKind? || ChannelKind? then REQUEST_LENGTH else 0
    }

    function FirstFrame(id: int, flags: Flags, data: Option<bytes>, metadata: Option<bytes>): (f: Frame)
      ensures CarriesPayload(f) && f.flags == flags && f.data == data && f.metadata == metadata
      ensures f.StreamId() == id
    {
      match this
      case PayloadKind => Payload(id, flags, data, metadata)
      case FnfKind => RequestFnf(id, flags, data, metadata)
      case ResponseKind => RequestResponse(id, flags, data, metadata)
      case StreamKind(n) => RequestStream(id, flags, n, data, metadata)
      case ChannelKind(n) => RequestChannel(id, flags, n, data, metadata)
    }
  }

  function Min(a: int, b: int): int {
    if a <= b then a else b
  }

  /** `isFragmentable`; the metadata length field counts whenever there is metadata, empty or not. */
  predicate IsFragmentable(data: bytes, metadata: Option<bytes>, fragmentSize: nat, kind: Kind) {
    && fragmentSize != 0
    && |data| + (if metadata.Some? then |metadata.value| + METADATA_LENGTH else 0) + kind.RequestCost() > fragmentSize
  }

  // What the two generators yield

  /** The loop over metadata, from `position` on with `remaining` bytes left in the current frame: the
      frames it yields, the metadata it keeps for the next frame, and the room left in that frame. */
  datatype MetadataPart = MetadataPart(frames: seq<Frame>, pending: Option<bytes>, remaining: int)

  function MetadataLoop(id: int, metadata: bytes, position: int, remaining: int, pending: Option<bytes>,
                        dataLength: nat, fragmentSize: nat, isComplete: bool): (p: MetadataPart)
    requires fragmentSize > METADATA_LENGTH
    requires 0 <= position <= |metadata|
    requires position < |metadata| ==> remaining > METADATA_LENGTH
    ensures AllCarryPayload(p.frames)
    decreases |metadata| - position
  {
    if position >= |metadata| then MetadataPart([], pending, remaining)
    else
      var room := remaining - METADATA_LENGTH;
      var next := Min(|metadata|, position + room);
      var piece := JsSlice(metadata, position, next);
      if room - |piece| == 0 || dataLength == 0 then
        var complete := next == |metadata| && isComplete && dataLength == 0;
        var f := Payload(id, PayloadFlags(true, complete, !complete, true), None, Some(piece));
        var p := MetadataLoop(id, metadata, next, fragmentSize, None, dataLength, fragmentSize, isComplete);
        p.(frames := [f] + p.frames)
      else
        MetadataLoop(id, metadata, next, room - |piece|, Some(piece), dataLength, fragmentSize, isComplete)
  }

  /** The loop over data. */
  function DataLoop(id: int, data: bytes, position: int, remaining: int, pending: Option<bytes>,
                    fragmentSize: nat, isComplete: bool): (frames: seq<Frame>)
    requires fragmentSize > 0
    requires position <= |data|
    requires position < |data| ==> remaining > 0
    ensures AllCarryPayload(frames)
    decreases |data| - position
  {
    if position >= |data| then []
    else
      var next := Min(|data|, position + remaining);
      [DataFrame(id, data, position, next, pending, isComplete)]
      + DataLoop(id, data, next, fragmentSize, None, fragmentSize, isComplete)
  }

  function DataFrame(id: int, data: bytes, position: int, next: int, pending: Option<bytes>, isComplete: bool): (f: Frame)
    ensures f.Payload?
  {
    var last := next == |data|;
    Payload(id, PayloadFlags(true, last && isComplete, !last, pending.Some?),
            Some(JsSlice(data, position, next)), pending)
  }

  /** The first frame of a request, whose FOLLOWS flag is always set, and the loop over the data that the
      first frame left. The room for the data of that frame can be negative. */
  function RequestThenData(kind: Kind, id: int, data: bytes, metadata: Option<bytes>, room: int,
                           fragmentSize: nat, isComplete: bool): (frames: seq<Frame>)
    requires fragmentSize > 0
    ensures AllCarryPayload(frames)
  {
    var next := Min(|data|, room);
    [kind.FirstFrame(id, PayloadFlags(false, false, true, metadata.Some?), Some(JsSlice(data, 0, next)), metadata)]
    + DataLoop(id, data, next, fragmentSize, None, fragmentSize, isComplete)
  }

  /** The loop over metadata from `position` on, and the loop over all data. */
  function MetadataThenData(id: int, data: bytes, metadata: bytes, position: int, fragmentSize: nat, isComplete: bool)
    : (frames: seq<Frame>)
    requires fragmentSize > METADATA_LENGTH && 0 <= position <= |metadata|
    ensures AllCarryPayload(frames)
  {
    var p := MetadataLoop(id, metadata, position, fragmentSize, None, |data|, fragmentSize, isComplete);
    MetadataLoopRoom(id, metadata, position, fragmentSize, None, |data|, fragmentSize, isComplete);
    p.frames + DataLoop(id, data, 0, p.remaining, p.pending, fragmentSize, isComplete)
  }

  /** A request whose first frame is full of metadata. */
  function RequestFullOfMetadata(kind: Kind, id: int, data: bytes, metadata: bytes, room: nat,
                                 fragmentSize: nat, isComplete: bool): (frames: seq<Frame>)
    requires fragmentSize > METADATA_LENGTH && room <= |metadata|
    ensures AllCarryPayload(frames)
  {
    [kind.FirstFrame(id, PayloadFlags(false, false, true, true), None, Some(JsSlice(metadata, 0, room)))]
    + MetadataThenData(id, data, metadata, room, fragmentSize, isComplete)
  }

  /** `fragment` and `fragmentWithRequestN`, which charge differently for the first frame. */
  function Fragments(kind: Kind, id: int, data: bytes, metadata: Option<bytes>,
                     fragmentSize: nat, isComplete: bool): (frames: seq<Frame>)
    requires fragmentSize >= 7
    ensures AllCarryPayload(frames)
  {
    if OrEmpty(metadata) == [] then
      var remaining := if metadata.Some? then fragmentSize - METADATA_LENGTH else fragmentSize;
      if kind.PayloadKind? then DataLoop(id, data, 0, remaining, metadata, fragmentSize, isComplete)
      else RequestThenData(kind, id, data, metadata, remaining - kind.RequestCost(), fragmentSize, isComplete)
    else if kind.PayloadKind? then
      MetadataThenData(id, data, metadata.value, 0, fragmentSize, isComplete)
    else
      var room := fragmentSize - METADATA_LENGTH - kind.RequestCost();
      if room <= |metadata.value| then
        RequestFullOfMetadata(kind, id, data, metadata.value, room, fragmentSize, isComplete)
      else
        RequestThenData(kind, id, data, metadata, room - |metadata.value| - kind.RequestCost(), fragmentSize, isComplete)
  }

  lemma {:induction false} MetadataLoopRoom(id: int, metadata: bytes, position: int, remaining: int,
                                            pending: Option<bytes>, dataLength: nat, fragmentSize: nat, isComplete: bool)
    requires fragmentSize > METADATA_LENGTH
    requires 0 <= position <= |metadata| && remaining > 0
    requires position < |metadata| ==> remaining > METADATA_LENGTH
    ensures MetadataLoop(id, metadata, position, remaining, pending, dataLength, fragmentSize, isComplete).remaining > 0
    decreases |metadata| - position
  {
    if position < |metadata| {
      var room := remaining - METADATA_LENGTH;
      var next := Min(|metadata|, position + room);
      var piece := JsSlice(metadata, position, next);
      if room - |piece| == 0 || dataLength == 0 {
        MetadataLoopRoom(id, metadata, next, fragmentSize, None, dataLength, fragmentSize, isComplete);
      } else {
        MetadataLoopRoom(id, metadata, next, room - |piece|, Some(piece), dataLength, fragmentSize, isComplete);
      }
    }
  }
}
