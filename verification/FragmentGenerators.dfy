/** The two generators, with the loops that update `remaining` and the positions; the frames they yield
    are collected in a sequence. */
module FragmentGenerators {
  import opened Options
  import opened Bytes
  import opened Frames
  import opened Reassembler
  import opened Fragmenter
  import opened FragmentationLaws
  import opened FragmentShapes

  /** One round of the metadata loop. */
  lemma MetadataLoopStep(id: int, metadata: bytes, position: nat, remaining: int, pending: Option<bytes>, dataLength: nat,
                         fragmentSize: nat, isComplete: bool)
    requires fragmentSize > METADATA_LENGTH && position < |metadata| && remaining > METADATA_LENGTH
    ensures var room := remaining - METADATA_LENGTH;
            var next := Min(|metadata|, position + room);
            var piece := JsSlice(metadata, position, next);
            var complete := next == |metadata| && isComplete && dataLength == 0;
            var f := Payload(id, PayloadFlags(true, complete, !complete, true), None, Some(piece));
            && position < next <= |metadata| && |piece| == next - position
            && (next < |metadata| ==> room == |piece|)
            && MetadataLoop(id, metadata, position, remaining, pending, dataLength, fragmentSize, isComplete)
               == if room == |piece| || dataLength == 0
                  then var p := MetadataLoop(id, metadata, next, fragmentSize, None, dataLength, fragmentSize, isComplete);
                       p.(frames := [f] + p.frames)
                  else MetadataLoop(id, metadata, next, room - |piece|, Some(piece), dataLength, fragmentSize, isComplete)
  {
  }

  /** The metadata loop, the same in both generators. */
  method YieldMetadata(streamId: int, metadata: bytes, start: nat, dataLength: nat, fragmentSize: nat, isComplete: bool)
    returns (frames: seq<Frame>, pending: Option<bytes>, remaining: int)
    requires fragmentSize > METADATA_LENGTH && start <= |metadata|
    ensures MetadataPart(frames, pending, remaining)
         == MetadataLoop(streamId, metadata, start, fragmentSize, None, dataLength, fragmentSize, isComplete)
  {
    frames, pending, remaining := [], None, fragmentSize;
    var metadataPosition: int := start;
    ghost var all := MetadataLoop(streamId, metadata, start, fragmentSize, None, dataLength, fragmentSize, isComplete);
    while metadataPosition < |metadata|
      invariant 0 <= metadataPosition <= |metadata|
      invariant metadataPosition < |metadata| ==> remaining > METADATA_LENGTH
      invariant var p := MetadataLoop(streamId, metadata, metadataPosition, remaining, pending, dataLength,
                                      fragmentSize, isComplete);
                all.pending == p.pending && all.remaining == p.remaining && all.frames == frames + p.frames
    {
      MetadataLoopStep(streamId, metadata, metadataPosition, remaining, pending, dataLength, fragmentSize, isComplete);
      remaining := remaining - METADATA_LENGTH;
      var nextMetadataPosition := Min(|metadata|, metadataPosition + remaining);
      pending := Some(JsSlice(metadata, metadataPosition, nextMetadataPosition));
      remaining := remaining - |pending.value|;
      metadataPosition := nextMetadataPosition;
      if remaining == 0 || dataLength == 0 {
        var complete := metadataPosition == |metadata| && isComplete && dataLength == 0;
        var frame := Payload(streamId, PayloadFlags(true, complete, !complete, true), None, pending);
        ghost var rest := MetadataLoop(streamId, metadata, metadataPosition, fragmentSize, None, dataLength,
                                       fragmentSize, isComplete).frames;
        assert all.frames == frames + ([frame] + rest);
        Regroup3(frames, [frame], rest);
        frames := frames + [frame];
        pending := None;
        remaining := fragmentSize;
      }
    }
  }

  /** The data loop, the same in both generators. */
  method YieldData(streamId: int, data: bytes, start: int, room: int, metadata: Option<bytes>,
                   fragmentSize: nat, isComplete: bool) returns (frames: seq<Frame>)
    requires fragmentSize > 0 && start <= |data|
    requires start < |data| ==> room > 0
    ensures frames == DataLoop(streamId, data, start, room, metadata, fragmentSize, isComplete)
  {
    frames := [];
    var dataPosition, remaining, pending := start, room, metadata;
    ghost var all := DataLoop(streamId, data, start, room, metadata, fragmentSize, isComplete);
    while dataPosition < |data|
      invariant dataPosition <= |data|
      invariant dataPosition < |data| ==> remaining > 0
      invariant all == frames + DataLoop(streamId, data, dataPosition, remaining, pending, fragmentSize, isComplete)
    {
      var nextDataPosition := Min(|data|, dataPosition + remaining);
      var piece := JsSlice(data, dataPosition, nextDataPosition);
      var last := nextDataPosition == |data|;
      var frame := Payload(streamId, PayloadFlags(true, last && isComplete, !last, pending.Some?), Some(piece), pending);
      Regroup3(frames, [frame], DataLoop(streamId, data, nextDataPosition, fragmentSize, None, fragmentSize, isComplete));
      frames := frames + [frame];
      dataPosition := nextDataPosition;
      pending := None;
      remaining := fragmentSize;
    }
  }

  /** `fragment`. */
  method Fragment(streamId: int, data: bytes, metadata: Option<bytes>, fragmentSize: nat, kind: Kind, isComplete: bool)
    returns (frames: seq<Frame>)
    requires fragmentSize >= 7 && kind.RequestCost() == 0
    ensures frames == Fragments(kind, streamId, data, metadata, fragmentSize, isComplete)
    ensures IsFragmentable(data, metadata, fragmentSize, kind) ==>
              WellShaped(frames, kind, streamId, fragmentSize, isComplete, data != [] || isComplete)
  {
    frames := FragmentCharging(streamId, data, metadata, fragmentSize, kind, isComplete);
    if IsFragmentable(data, metadata, fragmentSize, kind) {
      FragmentsWellShaped(kind, streamId, data, metadata, fragmentSize, isComplete);
    }
  }

  /** `fragmentWithRequestN`. */
  method FragmentWithRequestN(streamId: int, data: bytes, metadata: Option<bytes>, fragmentSize: nat, kind: Kind,
                              isComplete: bool) returns (frames: seq<Frame>)
    requires fragmentSize >= 7 && kind.RequestCost() > 0
    ensures frames == Fragments(kind, streamId, data, metadata, fragmentSize, isComplete)
    ensures IsFragmentable(data, metadata, fragmentSize, kind) ==>
              WellShaped(frames, kind, streamId, fragmentSize, isComplete, data != [] || isComplete)
  {
    frames := FragmentCharging(streamId, data, metadata, fragmentSize, kind, isComplete);
    if IsFragmentable(data, metadata, fragmentSize, kind) {
      FragmentsWellShaped(kind, streamId, data, metadata, fragmentSize, isComplete);
    }
  }

  /** The body the two generators share; they differ in `RequestCost`, which only `fragmentWithRequestN`
      charges, once with the metadata and once more with the data. */
  method FragmentCharging(streamId: int, data: bytes, metadata: Option<bytes>, fragmentSize: nat, kind: Kind,
                          isComplete: bool) returns (frames: seq<Frame>)
    requires fragmentSize >= 7
    ensures frames == Fragments(kind, streamId, data, metadata, fragmentSize, isComplete)
  {
    var firstFrame := !kind.PayloadKind?;
    var remaining := fragmentSize;
    var pending := metadata;
    frames := [];
    if metadata.Some? && |metadata.value| == 0 {
      remaining := remaining - METADATA_LENGTH;
    } else if metadata.Some? {
      frames, pending, remaining, firstFrame :=
        MetadataPhase(streamId, metadata.value, |data|, fragmentSize, kind, isComplete);
      if !firstFrame {
        FragmentsOfLongMetadata(kind, streamId, data, metadata.value, fragmentSize, isComplete);
      }
    }
    var tail := DataPhase(streamId, data, pending, remaining, firstFrame, fragmentSize, kind, isComplete);
    frames := frames + tail;
  }

  lemma FragmentsOfLongMetadata(kind: Kind, id: int, data: bytes, metadata: bytes, fragmentSize: nat, isComplete: bool)
    requires fragmentSize >= 7 && metadata != []
    requires kind.PayloadKind? || |metadata| >= fragmentSize - METADATA_LENGTH - kind.RequestCost()
    ensures var start := MetadataStart(metadata, fragmentSize, kind);
            var p := MetadataLoop(id, metadata, start, fragmentSize, None, |data|, fragmentSize, isComplete);
            var head := if kind.PayloadKind? then [] else
                          [kind.FirstFrame(id, PayloadFlags(false, false, true, true), None,
                                           Some(JsSlice(metadata, 0, start)))];
            && p.remaining > 0
            && Fragments(kind, id, data, Some(metadata), fragmentSize, isComplete)
               == head + p.frames + DataLoop(id, data, 0, p.remaining, p.pending, fragmentSize, isComplete)
  {
    var start := MetadataStart(metadata, fragmentSize, kind);
    MetadataLoopRoom(id, metadata, start, fragmentSize, None, |data|, fragmentSize, isComplete);
    var p := MetadataLoop(id, metadata, start, fragmentSize, None, |data|, fragmentSize, isComplete);
    var tail := DataLoop(id, data, 0, p.remaining, p.pending, fragmentSize, isComplete);
    if kind.PayloadKind? {
      assert [] + p.frames == p.frames;
    } else {
      Regroup3([kind.FirstFrame(id, PayloadFlags(false, false, true, true), None, Some(JsSlice(metadata, 0, start)))],
               p.frames, tail);
    }
  }

  /** Where the metadata loop starts: after what a full first frame has taken. */
  function MetadataStart(metadata: bytes, fragmentSize: nat, kind: Kind): (start: nat)
    requires fragmentSize >= 7
    ensures start <= |metadata|
  {
    if kind.PayloadKind? then 0 else Min(|metadata|, fragmentSize - METADATA_LENGTH - kind.RequestCost())
  }

  /** Non-empty metadata: either the first frame takes it all and has room left, or that frame is full and
      the loop goes on from where it stopped. */
  method MetadataPhase(streamId: int, metadata: bytes, dataLength: nat, fragmentSize: nat, kind: Kind, isComplete: bool)
    returns (frames: seq<Frame>, pending: Option<bytes>, remaining: int, firstFrame: bool)
    requires fragmentSize >= 7 && metadata != []
    ensures var room := fragmentSize - METADATA_LENGTH - kind.RequestCost();
            var start := MetadataStart(metadata, fragmentSize, kind);
            if !kind.PayloadKind? && |metadata| < room then
              firstFrame && frames == [] && pending == Some(metadata) && remaining == room - |metadata|
            else
              var p := MetadataLoop(streamId, metadata, start, fragmentSize, None, dataLength, fragmentSize, isComplete);
              && !firstFrame && remaining > 0
              && pending == p.pending && remaining == p.remaining
              && frames == (if kind.PayloadKind? then [] else
                              [kind.FirstFrame(streamId, PayloadFlags(false, false, true, true), None,
                                               Some(JsSlice(metadata, 0, start)))]) + p.frames
  {
    firstFrame := !kind.PayloadKind?;
    frames, pending, remaining := [], None, fragmentSize;
    var metadataPosition := 0;
    if firstFrame {
      remaining := remaining - (METADATA_LENGTH + kind.RequestCost());
      var nextMetadataPosition := Min(|metadata|, metadataPosition + remaining);
      pending := Some(JsSlice(metadata, metadataPosition, nextMetadataPosition));
      remaining := remaining - |pending.value|;
      metadataPosition := nextMetadataPosition;
      if remaining != 0 {
        // all metadata is in the first frame, and the loop over metadata has nothing to do
        assert pending.value == metadata;
        return;
      }
      firstFrame := false;
      frames := [kind.FirstFrame(streamId, PayloadFlags(false, false, true, true), None, pending)];
    }
    MetadataLoopRoom(streamId, metadata, metadataPosition, fragmentSize, None, dataLength, fragmentSize, isComplete);
    var more;
    more, pending, remaining := YieldMetadata(streamId, metadata, metadataPosition, dataLength, fragmentSize, isComplete);
    frames := frames + more;
  }

  /** The first frame, if it has not been yielded with metadata alone, and the loop over data. */
  method DataPhase(streamId: int, data: bytes, metadata: Option<bytes>, room: int, firstFrame: bool, fragmentSize: nat,
                   kind: Kind, isComplete: bool) returns (frames: seq<Frame>)
    requires fragmentSize >= 7 && (!firstFrame ==> room > 0)
    ensures frames == if firstFrame
                      then RequestThenData(kind, streamId, data, metadata, room - kind.RequestCost(), fragmentSize, isComplete)
                      else DataLoop(streamId, data, 0, room, metadata, fragmentSize, isComplete)
  {
    if !firstFrame {
      frames := YieldData(streamId, data, 0, room, metadata, fragmentSize, isComplete);
      return;
    }
    var remaining := room - kind.RequestCost();
    var dataPosition := Min(|data|, remaining);
    var piece := JsSlice(data, 0, dataPosition);
    frames := [kind.FirstFrame(streamId, PayloadFlags(false, false, true, metadata.Some?), Some(piece), metadata)];
    var tail := YieldData(streamId, data, dataPosition, fragmentSize, None, fragmentSize, isComplete);
    frames := frames + tail;
  }
}
