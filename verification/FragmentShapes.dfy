/** The shape and the sizes of the frames that the fragmenter yields. */
module FragmentShapes {
  import opened Options
  import opened Bytes
  import opened Frames
  import opened Codec
  import opened Reassembler
  import opened Fragmenter
  import opened FragmentationLaws

  /** A PAYLOAD frame within the fragment size: the size counts neither the frame header nor anything
      else but the metadata length field, metadata and data. */
  ghost predicate Ordinary(f: Frame, id: int, fragmentSize: nat) {
    && f.Payload? && f.streamId == id
    && HasNext(f.flags) && HasMetadata(f.flags) == f.metadata.Some?
    && SizeOf(f) <= fragmentSize + 6
  }

  ghost predicate Continues(f: Frame) {
    CarriesPayload(f) && HasFollows(f.flags) && !HasComplete(f.flags)
  }

  /** Ordinary frames that all announce another one. */
  ghost predicate Unfinished(frames: seq<Frame>, id: int, fragmentSize: nat) {
    forall i | 0 <= i < |frames| :: Ordinary(frames[i], id, fragmentSize) && Continues(frames[i])
  }

  /** Ordinary frames of which only the last can be without FOLLOWS, and only the last can be COMPLETE. */
  ghost predicate Run(frames: seq<Frame>, id: int, fragmentSize: nat, isComplete: bool, finished: bool) {
    && frames != []
    && Unfinished(frames[..|frames| - 1], id, fragmentSize)
    && var last := frames[|frames| - 1];
       Ordinary(last, id, fragmentSize) && HasComplete(last.flags) == isComplete && HasFollows(last.flags) == !finished
  }

  lemma Prepend(f: Frame, frames: seq<Frame>, id: int, fragmentSize: nat, isComplete: bool, finished: bool)
    requires Ordinary(f, id, fragmentSize) && Continues(f) && Run(frames, id, fragmentSize, isComplete, finished)
    ensures Run([f] + frames, id, fragmentSize, isComplete, finished)
  {
    var all := [f] + frames;
    assert all[..|all| - 1] == [f] + frames[..|frames| - 1];
  }

  lemma SingleRun(f: Frame, id: int, fragmentSize: nat, isComplete: bool)
    requires Ordinary(f, id, fragmentSize) && HasComplete(f.flags) == isComplete && !HasFollows(f.flags)
    ensures Run([f], id, fragmentSize, isComplete, true)
  {
  }

  lemma UnfinishedPrepend(f: Frame, frames: seq<Frame>, id: int, fragmentSize: nat)
    requires Ordinary(f, id, fragmentSize) && Continues(f) && Unfinished(frames, id, fragmentSize)
    ensures Unfinished([f] + frames, id, fragmentSize)
  {
  }

  lemma {:induction false} PrependAll(first: seq<Frame>, frames: seq<Frame>, id: int, fragmentSize: nat,
                                      isComplete: bool, finished: bool)
    requires Unfinished(first, id, fragmentSize) && Run(frames, id, fragmentSize, isComplete, finished)
    ensures Run(first + frames, id, fragmentSize, isComplete, finished)
    decreases |first|
  {
    if first == [] {
      assert first + frames == frames;
    } else {
      PrependAll(first[1..], frames, id, fragmentSize, isComplete, finished);
      Prepend(first[0], first[1..] + frames, id, fragmentSize, isComplete, finished);
      assert first + frames == [first[0]] + (first[1..] + frames);
    }
  }

  lemma DataFrameShape(id: int, data: bytes, position: int, next: int, pending: Option<bytes>, fragmentSize: nat,
                       isComplete: bool)
    requires -2 <= position < next <= |data| && 0 <= next
    requires (if position < 0 then 2 else next - position)
             + (if pending.Some? then METADATA_LENGTH + |pending.value| else 0) <= fragmentSize
    ensures var f := DataFrame(id, data, position, next, pending, isComplete);
            && Ordinary(f, id, fragmentSize) && CarriesPayload(f)
            && HasComplete(f.flags) == (next == |data| && isComplete) && HasFollows(f.flags) == (next < |data|)
  {
  }

  lemma {:induction false} DataLoopRun(id: int, data: bytes, position: int, remaining: int, pending: Option<bytes>,
                                       fragmentSize: nat, isComplete: bool)
    requires fragmentSize > 2 && -2 <= position < |data| && remaining > 0
    requires position < 0 ==> remaining == fragmentSize && pending.None?
    requires remaining + (if pending.Some? then METADATA_LENGTH + |pending.value| else 0) <= fragmentSize
    ensures Run(DataLoop(id, data, position, remaining, pending, fragmentSize, isComplete),
                id, fragmentSize, isComplete, true)
    decreases |data| - position
  {
    var next := Min(|data|, position + remaining);
    var f := DataFrame(id, data, position, next, pending, isComplete);
    var rest := DataLoop(id, data, next, fragmentSize, None, fragmentSize, isComplete);
    DataFrameShape(id, data, position, next, pending, fragmentSize, isComplete);
    if next == |data| {
      assert [f] + rest == [f];
      SingleRun(f, id, fragmentSize, isComplete);
    } else {
      DataLoopRun(id, data, next, fragmentSize, None, fragmentSize, isComplete);
      Prepend(f, rest, id, fragmentSize, isComplete, true);
    }
  }

  /** Before data, the metadata loop only yields frames with FOLLOWS, and what it keeps fits the frame. */
  lemma {:induction false} MetadataLoopUnfinished(id: int, metadata: bytes, position: nat, dataLength: nat,
                                                  fragmentSize: nat, isComplete: bool)
    requires fragmentSize > METADATA_LENGTH && position <= |metadata| && dataLength > 0
    ensures var p := MetadataLoop(id, metadata, position, fragmentSize, None, dataLength, fragmentSize, isComplete);
            && Unfinished(p.frames, id, fragmentSize) && p.remaining > 0
            && p.remaining + (if p.pending.Some? then METADATA_LENGTH + |p.pending.value| else 0) <= fragmentSize
    decreases |metadata| - position
  {
    if position < |metadata| {
      var room := fragmentSize - METADATA_LENGTH;
      var next := Min(|metadata|, position + room);
      if room - (next - position) == 0 {
        MetadataLoopUnfinished(id, metadata, next, dataLength, fragmentSize, isComplete);
        var f := Payload(id, PayloadFlags(true, false, true, true), None, Some(JsSlice(metadata, position, next)));
        var rest := MetadataLoop(id, metadata, next, fragmentSize, None, dataLength, fragmentSize, isComplete).frames;
        UnfinishedPrepend(f, rest, id, fragmentSize);
      } else {
        assert next == |metadata|;
      }
    }
  }

  lemma {:induction false} MetadataLoopRun(id: int, metadata: bytes, position: nat, fragmentSize: nat, isComplete: bool)
    requires fragmentSize > METADATA_LENGTH && position < |metadata|
    ensures Run(MetadataLoop(id, metadata, position, fragmentSize, None, 0, fragmentSize, isComplete).frames,
                id, fragmentSize, isComplete, isComplete)
    decreases |metadata| - position
  {
    var next := Min(|metadata|, position + fragmentSize - METADATA_LENGTH);
    var piece := JsSlice(metadata, position, next);
    var complete := next == |metadata| && isComplete;
    var f := Payload(id, PayloadFlags(true, complete, !complete, true), None, Some(piece));
    var rest := MetadataLoop(id, metadata, next, fragmentSize, None, 0, fragmentSize, isComplete).frames;
    if next == |metadata| {
      assert [f] + rest == [f];
    } else {
      MetadataLoopRun(id, metadata, next, fragmentSize, isComplete);
      Prepend(f, rest, id, fragmentSize, isComplete, isComplete);
    }
  }

  lemma MetadataThenDataRun(id: int, data: bytes, metadata: bytes, position: nat, fragmentSize: nat, isComplete: bool)
    requires fragmentSize > METADATA_LENGTH && position <= |metadata|
    requires data != [] || position < |metadata|
    ensures Run(MetadataThenData(id, data, metadata, position, fragmentSize, isComplete),
                id, fragmentSize, isComplete, data != [] || isComplete)
  {
    var p := MetadataLoop(id, metadata, position, fragmentSize, None, |data|, fragmentSize, isComplete);
    if data == [] {
      MetadataLoopRun(id, metadata, position, fragmentSize, isComplete);
      assert p.frames + [] == p.frames;
    } else {
      MetadataLoopUnfinished(id, metadata, position, |data|, fragmentSize, isComplete);
      DataLoopRun(id, data, 0, p.remaining, p.pending, fragmentSize, isComplete);
      PrependAll(p.frames, DataLoop(id, data, 0, p.remaining, p.pending, fragmentSize, isComplete),
                 id, fragmentSize, isComplete, true);
    }
  }

  /** The first frame of a fragmented request, without regard to its size. */
  ghost predicate FirstOfRequest(f: Frame, kind: Kind, id: int) {
    && Continues(f) && f == kind.FirstFrame(id, f.flags, f.data, f.metadata)
    && !HasNext(f.flags) && HasMetadata(f.flags) == f.metadata.Some?
  }

  /** A fragmented payload: at least two frames; all but the last carry FOLLOWS; COMPLETE stands on the
      last one alone, exactly when the payload is complete; every frame but the first of a request is
      within the fragment size. The last frame is without FOLLOWS exactly when `finished`. */
  ghost predicate WellShaped(frames: seq<Frame>, kind: Kind, id: int, fragmentSize: nat, isComplete: bool, finished: bool) {
    && |frames| >= 2
    && if kind.PayloadKind? then Run(frames, id, fragmentSize, isComplete, finished)
       else FirstOfRequest(frames[0], kind, id) && Run(frames[1..], id, fragmentSize, isComplete, finished)
  }

  /** The first frame of REQUEST_STREAM and REQUEST_CHANNEL may be one byte larger than the others: the
      fragmenter charges three bytes for the four of requestN. */
  function FirstFrameLimit(kind: Kind, fragmentSize: nat): nat {
    fragmentSize + 6 + if kind.RequestCost() > 0 then 1 else 0
  }

  /** Every fragmentable payload is cut into frames of the right shape, with FOLLOWS left on the last one
      exactly when there is metadata alone and it is not complete. */
  lemma FragmentsWellShaped(kind: Kind, id: int, data: bytes, metadata: Option<bytes>, fragmentSize: nat, isComplete: bool)
    requires fragmentSize >= 7 && IsFragmentable(data, metadata, fragmentSize, kind)
    ensures WellShaped(Fragments(kind, id, data, metadata, fragmentSize, isComplete), kind, id, fragmentSize,
                       isComplete, data != [] || isComplete)
  {
    if kind.PayloadKind? {
      ResponseShape(id, data, metadata, fragmentSize, isComplete);
    } else {
      RequestShape(kind, id, data, metadata, fragmentSize, isComplete);
    }
  }

  /** A run whose frames are too small for the payload has more than one of them. */
  lemma ResponseShape(id: int, data: bytes, metadata: Option<bytes>, fragmentSize: nat, isComplete: bool)
    requires fragmentSize >= 7 && IsFragmentable(data, metadata, fragmentSize, PayloadKind)
    ensures var frames := Fragments(PayloadKind, id, data, metadata, fragmentSize, isComplete);
            |frames| >= 2 && Run(frames, id, fragmentSize, isComplete, data != [] || isComplete)
  {
    if OrEmpty(metadata) == [] {
      var remaining := if metadata.Some? then fragmentSize - METADATA_LENGTH else fragmentSize;
      DataLoopRun(id, data, 0, remaining, metadata, fragmentSize, isComplete);
    } else {
      MetadataThenDataRun(id, data, metadata.value, 0, fragmentSize, isComplete);
      TwoFrames(id, data, metadata.value, fragmentSize, isComplete);
    }
  }

  lemma TwoFrames(id: int, data: bytes, metadata: bytes, fragmentSize: nat, isComplete: bool)
    requires fragmentSize >= 7 && IsFragmentable(data, Some(metadata), fragmentSize, PayloadKind) && metadata != []
    ensures |MetadataThenData(id, data, metadata, 0, fragmentSize, isComplete)| >= 2
  {
    var room := fragmentSize - METADATA_LENGTH;
    if |metadata| >= room {
      MetadataThenDataRun(id, data, metadata, room, fragmentSize, isComplete);
      assert |MetadataThenData(id, data, metadata, 0, fragmentSize, isComplete)|
          == 1 + |MetadataThenData(id, data, metadata, room, fragmentSize, isComplete)|;
    } else {
      var left := room - |metadata|;
      assert MetadataLoop(id, metadata, 0, fragmentSize, None, |data|, fragmentSize, isComplete)
          == MetadataPart([], Some(JsSlice(metadata, 0, |metadata|)), left);
      DataLoopRun(id, data, left, fragmentSize, None, fragmentSize, isComplete);
    }
  }

  lemma RequestShape(kind: Kind, id: int, data: bytes, metadata: Option<bytes>, fragmentSize: nat, isComplete: bool)
    requires fragmentSize >= 7 && IsFragmentable(data, metadata, fragmentSize, kind) && !kind.PayloadKind?
    ensures WellShaped(Fragments(kind, id, data, metadata, fragmentSize, isComplete), kind, id, fragmentSize,
                       isComplete, data != [] || isComplete)
  {
    hide WellShaped, RequestFullOfMetadata, RequestThenData;
    if OrEmpty(metadata) != [] && fragmentSize - METADATA_LENGTH - kind.RequestCost() <= |metadata.value| {
      RequestFullShape(kind, id, data, metadata.value, fragmentSize - METADATA_LENGTH - kind.RequestCost(), fragmentSize,
                       isComplete);
    } else {
      RequestThenDataShape(kind, id, data, metadata, RoomForData(kind, metadata, fragmentSize), fragmentSize, isComplete);
    }
  }

  lemma RequestFullShape(kind: Kind, id: int, data: bytes, metadata: bytes, room: nat, fragmentSize: nat, isComplete: bool)
    requires fragmentSize >= 7 && !kind.PayloadKind? && 0 < room <= |metadata| && (data == [] ==> room < |metadata|)
    ensures WellShaped(RequestFullOfMetadata(kind, id, data, metadata, room, fragmentSize, isComplete), kind, id, fragmentSize,
                       isComplete, data != [] || isComplete)
  {
    hide MetadataThenData, Run;
    var rest := MetadataThenData(id, data, metadata, room, fragmentSize, isComplete);
    MetadataThenDataRun(id, data, metadata, room, fragmentSize, isComplete);
    RequestFirst(kind.FirstFrame(id, PayloadFlags(false, false, true, true), None, Some(JsSlice(metadata, 0, room))), rest,
                 kind, id, fragmentSize, isComplete, data != [] || isComplete);
  }

  lemma RequestThenDataShape(kind: Kind, id: int, data: bytes, metadata: Option<bytes>, room: int, fragmentSize: nat,
                             isComplete: bool)
    requires fragmentSize >= 7 && !kind.PayloadKind? && -2 <= room < |data|
    ensures WellShaped(RequestThenData(kind, id, data, metadata, room, fragmentSize, isComplete), kind, id, fragmentSize,
                       isComplete, true)
  {
    hide DataLoop, Run;
    var next := Min(|data|, room);
    var rest := DataLoop(id, data, next, fragmentSize, None, fragmentSize, isComplete);
    DataLoopRun(id, data, next, fragmentSize, None, fragmentSize, isComplete);
    RequestFirst(kind.FirstFrame(id, PayloadFlags(false, false, true, metadata.Some?), Some(JsSlice(data, 0, next)), metadata),
                 rest, kind, id, fragmentSize, isComplete, true);
  }

  lemma RequestFirst(first: Frame, rest: seq<Frame>, kind: Kind, id: int, fragmentSize: nat, isComplete: bool, finished: bool)
    requires !kind.PayloadKind? && FirstOfRequest(first, kind, id) && Run(rest, id, fragmentSize, isComplete, finished)
    ensures WellShaped([first] + rest, kind, id, fragmentSize, isComplete, finished)
  {
    assert ([first] + rest)[1..] == rest;
  }

  /** What is left for data in a first frame that takes all metadata. */
  function RoomForData(kind: Kind, metadata: Option<bytes>, fragmentSize: nat): int {
    if metadata.None? then fragmentSize - kind.RequestCost()
    else if metadata.value == [] then fragmentSize - METADATA_LENGTH - kind.RequestCost()
    else fragmentSize - METADATA_LENGTH - kind.RequestCost() - |metadata.value| - kind.RequestCost()
  }

  /** The first frame of a request keeps to its limit, except when REQUEST was charged twice and there
      are more than three bytes of data. */
  lemma FirstFrameSize(kind: Kind, id: int, data: bytes, metadata: Option<bytes>, fragmentSize: nat, isComplete: bool)
    requires fragmentSize >= 7 && IsFragmentable(data, metadata, fragmentSize, kind) && !kind.PayloadKind?
    ensures var frames := Fragments(kind, id, data, metadata, fragmentSize, isComplete);
            && frames != [] && !frames[0].Ext?
            && (SizeOf(frames[0]) <= FirstFrameLimit(kind, fragmentSize)
                <==> !(DoubleCharged(kind, metadata, fragmentSize) && |data| > 3))
  {
    FirstFrameIs(kind, id, data, metadata, fragmentSize, isComplete);
    if !FullOfMetadata(kind, metadata, fragmentSize) {
      FirstFrameWithData(kind, id, data, metadata, RoomForData(kind, metadata, fragmentSize), fragmentSize);
    }
  }

  predicate FullOfMetadata(kind: Kind, metadata: Option<bytes>, fragmentSize: nat) {
    OrEmpty(metadata) != [] && fragmentSize - METADATA_LENGTH - kind.RequestCost() <= |metadata.value|
  }

  lemma FirstFrameIs(kind: Kind, id: int, data: bytes, metadata: Option<bytes>, fragmentSize: nat, isComplete: bool)
    requires fragmentSize >= 7 && !kind.PayloadKind?
    ensures var frames := Fragments(kind, id, data, metadata, fragmentSize, isComplete);
            && frames != []
            && frames[0] == if FullOfMetadata(kind, metadata, fragmentSize)
                            then FirstOf(kind, id, None,
                                         Some(JsSlice(metadata.value, 0, fragmentSize - METADATA_LENGTH - kind.RequestCost())))
                            else FirstOf(kind, id, Some(JsSlice(data, 0, Min(|data|, RoomForData(kind, metadata, fragmentSize)))),
                                         metadata)
  {
    hide DataLoop, MetadataThenData, JsSlice, SizeOf;
  }

  function FirstOf(kind: Kind, id: int, data: Option<bytes>, metadata: Option<bytes>): (f: Frame)
    ensures !f.Ext?
    ensures !kind.PayloadKind? ==>
              SizeOf(f) == 6 + (if kind.RequestCost() > 0 then 4 else 0) + Length(data)
                           + (if metadata.Some? then 3 + |metadata.value| else 0)
  {
    kind.FirstFrame(id, PayloadFlags(false, false, true, metadata.Some?), data, metadata)
  }

  lemma FirstFrameWithData(kind: Kind, id: int, data: bytes, metadata: Option<bytes>, dataRoom: int, fragmentSize: nat)
    requires fragmentSize >= 7 && IsFragmentable(data, metadata, fragmentSize, kind) && !kind.PayloadKind?
    requires OrEmpty(metadata) == [] || |metadata.value| < fragmentSize - METADATA_LENGTH - kind.RequestCost()
    requires dataRoom == RoomForData(kind, metadata, fragmentSize)
    ensures SizeOf(FirstOf(kind, id, Some(JsSlice(data, 0, Min(|data|, dataRoom))), metadata))
            <= FirstFrameLimit(kind, fragmentSize)
       <==> !(DoubleCharged(kind, metadata, fragmentSize) && |data| > 3)
  {
    var piece := JsSlice(data, 0, Min(|data|, dataRoom));
    assert |piece| == if dataRoom >= 0 then dataRoom else if |data| + dataRoom >= 0 then |data| + dataRoom else 0;
  }
}
