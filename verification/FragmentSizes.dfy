/** The fragmenter wastes nothing: every fragment but the last one is full. */
module FragmentSizes {
  import opened Options
  import opened Bytes
  import opened Frames
  import opened Codec
  import opened Reassembler
  import opened Fragmenter
  import opened FragmentationLaws
  import opened FragmentShapes
  import opened Sending

  predicate HasSize(f: Frame, size: int) {
    f.Payload? && SizeOf(f) == size
  }

  /** All frames are as large as the fragment size allows. */
  predicate AllFull(frames: seq<Frame>, fragmentSize: nat) {
    forall i | 0 <= i < |frames| :: HasSize(frames[i], fragmentSize + 6)
  }

  predicate FullButLast(frames: seq<Frame>, fragmentSize: nat) {
    frames != [] ==> AllFull(frames[..|frames| - 1], fragmentSize)
  }

  /** What metadata that is kept for a frame takes up of it. */
  function Taken(pending: Option<bytes>): nat {
    if pending.Some? then METADATA_LENGTH + |pending.value| else 0
  }

  lemma FullPrepend(f: Frame, frames: seq<Frame>, fragmentSize: nat)
    requires frames != [] ==> HasSize(f, fragmentSize + 6)
    requires FullButLast(frames, fragmentSize)
    ensures FullButLast([f] + frames, fragmentSize)
  {
    var all := [f] + frames;
    if frames != [] {
      assert all[..|all| - 1] == [f] + frames[..|frames| - 1];
    }
  }

  lemma FullConcat(first: seq<Frame>, frames: seq<Frame>, fragmentSize: nat)
    requires AllFull(first, fragmentSize) && FullButLast(frames, fragmentSize) && frames != []
    ensures FullButLast(first + frames, fragmentSize)
  {
    var all := first + frames;
    assert all[..|all| - 1] == first + frames[..|frames| - 1];
  }

  lemma {:induction false} DataIsFull(id: int, data: bytes, position: int, remaining: int, pending: Option<bytes>,
                                      fragmentSize: nat, isComplete: bool)
    requires 0 <= position < |data| && remaining > 0 && remaining + Taken(pending) == fragmentSize
    ensures FullButLast(DataLoop(id, data, position, remaining, pending, fragmentSize, isComplete), fragmentSize)
    decreases |data| - position
  {
    var next := Min(|data|, position + remaining);
    var rest := DataLoop(id, data, next, fragmentSize, None, fragmentSize, isComplete);
    if next < |data| {
      DataIsFull(id, data, next, fragmentSize, None, fragmentSize, isComplete);
    }
    FullPrepend(DataFrame(id, data, position, next, pending, isComplete), rest, fragmentSize);
  }

  /** Before data, the loop over metadata yields full frames, and what it keeps fills the next one. */
  lemma {:induction false} MetadataIsFull(id: int, metadata: bytes, position: nat, dataLength: nat, fragmentSize: nat, isComplete: bool)
    requires fragmentSize > METADATA_LENGTH && position <= |metadata| && dataLength > 0
    ensures var p := MetadataLoop(id, metadata, position, fragmentSize, None, dataLength, fragmentSize, isComplete);
            AllFull(p.frames, fragmentSize) && p.remaining > 0 && p.remaining + Taken(p.pending) == fragmentSize
    decreases |metadata| - position
  {
    if position < |metadata| {
      var room := fragmentSize - METADATA_LENGTH;
      var next := Min(|metadata|, position + room);
      if room - (next - position) == 0 {
        MetadataIsFull(id, metadata, next, dataLength, fragmentSize, isComplete);
      }
    }
  }

  lemma {:induction false} MetadataAloneIsFull(id: int, metadata: bytes, position: nat, fragmentSize: nat, isComplete: bool)
    requires fragmentSize > METADATA_LENGTH && position <= |metadata|
    ensures FullButLast(MetadataLoop(id, metadata, position, fragmentSize, None, 0, fragmentSize, isComplete).frames, fragmentSize)
    decreases |metadata| - position
  {
    if position < |metadata| {
      var next := Min(|metadata|, position + fragmentSize - METADATA_LENGTH);
      var complete := next == |metadata| && isComplete;
      var f := Payload(id, PayloadFlags(true, complete, !complete, true), None, Some(JsSlice(metadata, position, next)));
      var rest := MetadataLoop(id, metadata, next, fragmentSize, None, 0, fragmentSize, isComplete).frames;
      MetadataAloneIsFull(id, metadata, next, fragmentSize, isComplete);
      FullPrepend(f, rest, fragmentSize);
    }
  }

  lemma MetadataThenDataIsFull(id: int, data: bytes, metadata: bytes, position: nat, fragmentSize: nat, isComplete: bool)
    requires fragmentSize > METADATA_LENGTH && position <= |metadata|
    ensures FullButLast(MetadataThenData(id, data, metadata, position, fragmentSize, isComplete), fragmentSize)
  {
    var p := MetadataLoop(id, metadata, position, fragmentSize, None, |data|, fragmentSize, isComplete);
    if data == [] {
      MetadataAloneIsFull(id, metadata, position, fragmentSize, isComplete);
      assert p.frames + [] == p.frames;
    } else {
      MetadataIsFull(id, metadata, position, |data|, fragmentSize, isComplete);
      DataIsFull(id, data, 0, p.remaining, p.pending, fragmentSize, isComplete);
      FullConcat(p.frames, DataLoop(id, data, 0, p.remaining, p.pending, fragmentSize, isComplete), fragmentSize);
    }
  }

  /** The first frame of a request that begins with data too, unless its room is negative: REQUEST is charged
      a second time when there is metadata. */
  function Wasted(kind: Kind, metadata: Option<bytes>, fragmentSize: nat): nat {
    if OrEmpty(metadata) != [] && !FullOfMetadata(kind, metadata, fragmentSize) then kind.RequestCost() else 0
  }

  /** Every fragment but the last one, and but the first one of a request, is exactly as large as the fragment
      size allows; the first one of a request is as large as its limit, but for the bytes that are charged
      twice. The exception is a first frame whose room for data is negative. */
  lemma FragmentsAreFull(kind: Kind, id: int, data: bytes, metadata: Option<bytes>, fragmentSize: nat, isComplete: bool)
    requires fragmentSize >= 7 && IsFragmentable(data, metadata, fragmentSize, kind)
    requires FullOfMetadata(kind, metadata, fragmentSize) || RoomForData(kind, metadata, fragmentSize) >= 0
    ensures var frames := Fragments(kind, id, data, metadata, fragmentSize, isComplete);
            && frames != []
            && if kind.PayloadKind? then FullButLast(frames, fragmentSize)
               else FullButLast(frames[1..], fragmentSize) && !frames[0].Ext?
                    && SizeOf(frames[0]) + Wasted(kind, metadata, fragmentSize) == FirstFrameLimit(kind, fragmentSize)
  {
    FragmentsWellShaped(kind, id, data, metadata, fragmentSize, isComplete);
    if kind.PayloadKind? {
      ElementIsFull(id, data, metadata, fragmentSize, isComplete);
    } else {
      FirstFrameIs(kind, id, data, metadata, fragmentSize, isComplete);
      RequestIsFull(kind, id, data, metadata, fragmentSize, isComplete);
      if !FullOfMetadata(kind, metadata, fragmentSize) {
        RoomIsUsed(kind, id, data, metadata, fragmentSize);
      }
    }
  }

  /** A payload is sent whole only if its frame keeps to the limit; and only then. */
  lemma WholeIfItFits(kind: Kind, id: int, item: Item, fragmentSize: nat)
    requires ValidFragmentSize(fragmentSize) && fragmentSize > 0
    ensures var frames := SentFrames(kind, id, item, fragmentSize);
            var whole := kind.FirstFrame(id, PayloadFlags(kind.PayloadKind?, item.complete, false, item.metadata.Some?),
                                         Some(item.data), item.metadata);
            && !whole.Ext? && (frames == [whole] <==> |frames| == 1)
            && (|frames| == 1 <==> SizeOf(whole) <= FirstFrameLimit(kind, fragmentSize))
  {
    hide Fragments, FragmentShapes.Run, FirstOfRequest;
    if IsFragmentable(item.data, item.metadata, fragmentSize, kind) {
      FragmentsWellShaped(kind, id, item.data, item.metadata, fragmentSize, item.complete);
    }
  }

  lemma ElementIsFull(id: int, data: bytes, metadata: Option<bytes>, fragmentSize: nat, isComplete: bool)
    requires fragmentSize >= 7 && IsFragmentable(data, metadata, fragmentSize, PayloadKind)
    ensures FullButLast(Fragments(PayloadKind, id, data, metadata, fragmentSize, isComplete), fragmentSize)
  {
    if OrEmpty(metadata) == [] {
      DataIsFull(id, data, 0, fragmentSize - Taken(metadata), metadata, fragmentSize, isComplete);
    } else {
      MetadataThenDataIsFull(id, data, metadata.value, 0, fragmentSize, isComplete);
    }
  }

  lemma RequestIsFull(kind: Kind, id: int, data: bytes, metadata: Option<bytes>, fragmentSize: nat, isComplete: bool)
    requires fragmentSize >= 7 && IsFragmentable(data, metadata, fragmentSize, kind) && !kind.PayloadKind?
    requires FullOfMetadata(kind, metadata, fragmentSize) || RoomForData(kind, metadata, fragmentSize) >= 0
    ensures var frames := Fragments(kind, id, data, metadata, fragmentSize, isComplete);
            frames != [] && FullButLast(frames[1..], fragmentSize)
  {
    hide DataLoop, MetadataThenData, JsSlice, FullButLast;
    var frames := Fragments(kind, id, data, metadata, fragmentSize, isComplete);
    if FullOfMetadata(kind, metadata, fragmentSize) {
      var room := fragmentSize - METADATA_LENGTH - kind.RequestCost();
      MetadataThenDataIsFull(id, data, metadata.value, room, fragmentSize, isComplete);
      assert frames[1..] == MetadataThenData(id, data, metadata.value, room, fragmentSize, isComplete);
    } else {
      var next := Min(|data|, RoomForData(kind, metadata, fragmentSize));
      DataIsFull(id, data, next, fragmentSize, None, fragmentSize, isComplete);
      assert frames[1..] == DataLoop(id, data, next, fragmentSize, None, fragmentSize, isComplete);
    }
  }

  /** A first frame with room for data uses it up. */
  lemma RoomIsUsed(kind: Kind, id: int, data: bytes, metadata: Option<bytes>, fragmentSize: nat)
    requires fragmentSize >= 7 && IsFragmentable(data, metadata, fragmentSize, kind) && !kind.PayloadKind?
    requires !FullOfMetadata(kind, metadata, fragmentSize) && RoomForData(kind, metadata, fragmentSize) >= 0
    ensures var room := RoomForData(kind, metadata, fragmentSize);
            SizeOf(FirstOf(kind, id, Some(JsSlice(data, 0, Min(|data|, room))), metadata)) + Wasted(kind, metadata, fragmentSize)
            == FirstFrameLimit(kind, fragmentSize)
  {
  }
}
