/** Fragmentation followed by reassembly. */
module FragmentationLaws {
  import opened Options
  import opened Bytes
  import opened Frames
  import opened Codec
  import opened Reassembler
  import opened Fragmenter

  /** A holder that has collected this metadata and no data; nothing at all when there is none yet. */
  function Collected(metadata: bytes): Holder {
    if metadata == [] then EMPTY else Holder(true, None, Some(metadata))
  }

  lemma ReceiveNothing(wire: bool, b: Inbox)
    ensures ReceiveAll(wire, b, []) == Some(b)
  {
  }

  // The data loop

  /** The payload that comes out when the holder's data is followed by the rest of `data`. */
  function Finished(wire: bool, h: Holder, data: bytes, position: nat, pending: Option<bytes>): AppPayload
    requires position <= |data|
  {
    if h.hasFragments
    then AppPayload(Some(OrEmpty(h.data) + data[position..]), JoinedMetadata(h.metadata, Crossed(wire, pending)))
    else AppPayload(Some(data[position..]), Crossed(wire, pending))
  }

  /** Adding a data fragment does not change what comes out in the end. */
  lemma FinishedStep(wire: bool, h: Holder, data: bytes, position: nat, next: nat, pending: Option<bytes>)
    requires position < next <= |data|
    requires !h.hasFragments ==> h == EMPTY
    ensures var h' := Add(h, Some(data[position..next]), Crossed(wire, pending));
            && h'.Some? && h'.value.hasFragments
            && Finished(wire, h'.value, data, next, None) == Finished(wire, h, data, position, pending)
  {
    var piece, tail := data[position..next], data[next..];
    assert piece + tail == data[position..];
    Regroup3(OrEmpty(h.data), piece, tail);
    assert [] + piece == piece;
  }

  /** Whatever has been collected, the data loop appends exactly the data from its position on, delivers
      one payload and leaves the holder empty. */
  lemma {:induction false} DataLoopDelivers(wire: bool, b: Inbox, id: int, data: bytes, position: nat, remaining: int,
                                            pending: Option<bytes>, fragmentSize: nat, isComplete: bool)
    requires fragmentSize > 0 && position < |data| && remaining > 0
    requires !b.holder.hasFragments ==> b.holder == EMPTY
    ensures ReceiveAll(wire, b, DataLoop(id, data, position, remaining, pending, fragmentSize, isComplete))
         == Some(Inbox(EMPTY, b.payloads + [Finished(wire, b.holder, data, position, pending)]))
    decreases |data| - position
  {
    var next := Min(|data|, position + remaining);
    var f := DataFrame(id, data, position, next, pending, isComplete);
    var rest := DataLoop(id, data, next, fragmentSize, None, fragmentSize, isComplete);
    ReceiveFirst(wire, b, f, rest);
    assert f.data == Some(data[position..next]);
    if next == |data| {
      assert data[position..next] == data[position..];
      assert [] + data[position..] == data[position..];
    } else {
      FinishedStep(wire, b.holder, data, position, next, pending);
      DataLoopDelivers(wire, Receive(wire, b, f).value, id, data, next, fragmentSize, None, fragmentSize, isComplete);
    }
  }

  // The metadata loop

  /** One more piece of metadata, with FOLLOWS. */
  lemma PieceCollected(wire: bool, h: Holder, metadata: bytes, position: nat, next: nat)
    requires position < next <= |metadata|
    requires h == Collected(metadata[..position])
    ensures Crossed(wire, Some(metadata[position..next])) == Some(metadata[position..next])
    ensures Add(h, None, Some(metadata[position..next])) == Some(Collected(metadata[..next]))
  {
    assert metadata[..position] + metadata[position..next] == metadata[..next];
  }

  function PieceFrame(id: int, metadata: bytes, position: nat, next: nat): (f: Frame)
    requires position <= next <= |metadata|
    ensures CarriesPayload(f)
  {
    Payload(id, PayloadFlags(true, false, true, true), None, Some(metadata[position..next]))
  }

  lemma PieceReceived(wire: bool, b: Inbox, id: int, metadata: bytes, position: nat, next: nat, rest: seq<Frame>)
    requires position < next <= |metadata| && b.holder == Collected(metadata[..position]) && AllCarryPayload(rest)
    ensures AllCarryPayload([PieceFrame(id, metadata, position, next)] + rest)
    ensures ReceiveAll(wire, b, [PieceFrame(id, metadata, position, next)] + rest)
         == ReceiveAll(wire, b.(holder := Collected(metadata[..next])), rest)
  {
    hide ReceiveAll, Collected;
    ReceiveFirst(wire, b, PieceFrame(id, metadata, position, next), rest);
    PieceCollected(wire, b.holder, metadata, position, next);
  }

  /** With data to follow, the metadata loop has collected all the metadata but the part it keeps for the
      first data frame, and has delivered nothing. */
  lemma {:induction false} MetadataLoopCollects(wire: bool, b: Inbox, id: int, metadata: bytes, position: nat,
                                                dataLength: nat, fragmentSize: nat, isComplete: bool)
    requires fragmentSize > METADATA_LENGTH && position <= |metadata| && dataLength > 0
    requires b.holder == Collected(metadata[..position])
    ensures var p := MetadataLoop(id, metadata, position, fragmentSize, None, dataLength, fragmentSize, isComplete);
            var kept := OrEmpty(p.pending);
            && |kept| <= |metadata| && metadata[|metadata| - |kept|..] == kept
            && p.pending != Some([])
            && ReceiveAll(wire, b, p.frames) == Some(b.(holder := Collected(metadata[..|metadata| - |kept|])))
    decreases |metadata| - position
  {
    hide ReceiveAll, Collected;
    ReceiveNothing(wire, b);
    if position == |metadata| {
      assert metadata[|metadata|..] == [] && metadata[..|metadata|] == metadata[..position];
    } else {
      var room := fragmentSize - METADATA_LENGTH;
      var next := Min(|metadata|, position + room);
      var piece := JsSlice(metadata, position, next);
      assert piece == metadata[position..next];
      if room - |piece| == 0 {
        var p := MetadataLoop(id, metadata, next, fragmentSize, None, dataLength, fragmentSize, isComplete);
        PieceReceived(wire, b, id, metadata, position, next, p.frames);
        MetadataLoopCollects(wire, b.(holder := Collected(metadata[..next])), id, metadata, next,
                             dataLength, fragmentSize, isComplete);
      } else {
        assert next == |metadata|;
        assert metadata[|metadata| - |piece|..] == piece && metadata[..|metadata| - |piece|] == metadata[..position];
      }
    }
  }

  /** Without data the metadata loop sends everything; only a COMPLETE last frame lets the payload out. */
  lemma {:induction false} MetadataLoopAlone(wire: bool, b: Inbox, id: int, metadata: bytes, position: nat,
                                             fragmentSize: nat, isComplete: bool)
    requires fragmentSize > METADATA_LENGTH && position < |metadata|
    requires b.holder == Collected(metadata[..position])
    ensures var p := MetadataLoop(id, metadata, position, fragmentSize, None, 0, fragmentSize, isComplete);
            ReceiveAll(wire, b, p.frames)
            == Some(if isComplete then Inbox(EMPTY, b.payloads + [AppPayload(None, Some(metadata))])
                    else b.(holder := Collected(metadata)))
    decreases |metadata| - position
  {
    hide ReceiveAll;
    var room := fragmentSize - METADATA_LENGTH;
    var next := Min(|metadata|, position + room);
    var piece := JsSlice(metadata, position, next);
    assert piece == metadata[position..next];
    var complete := next == |metadata| && isComplete;
    var f := Payload(id, PayloadFlags(true, complete, !complete, true), None, Some(piece));
    var p := MetadataLoop(id, metadata, next, fragmentSize, None, 0, fragmentSize, isComplete);
    ReceiveFirst(wire, b, f, p.frames);
    PieceCollected(wire, b.holder, metadata, position, next);
    assert metadata[..position] + piece == metadata[..next];
    if next < |metadata| {
      MetadataLoopAlone(wire, b.(holder := Collected(metadata[..next])), id, metadata, next, fragmentSize, isComplete);
    } else {
      assert metadata[..next] == metadata;
      ReceiveNothing(wire, Receive(wire, b, f).GetOr(b));
    }
  }

  // The whole of a payload

  /** What a peer is to be given: empty data is the same as none. */
  function Expected(wire: bool, data: bytes, metadata: Option<bytes>): AppPayload {
    AppPayload(NonEmpty(Some(data)), Crossed(wire, metadata))
  }

  /** The inbox after exactly that payload has been delivered, with the holder as new. */
  function Delivered(wire: bool, b: Inbox, data: bytes, metadata: Option<bytes>): Inbox {
    Inbox(EMPTY, b.payloads + [Expected(wire, data, metadata)])
  }

  lemma RequestThenDataDelivers(wire: bool, b: Inbox, kind: Kind, id: int, data: bytes, metadata: Option<bytes>,
                                room: nat, fragmentSize: nat, isComplete: bool)
    requires b.holder == EMPTY && fragmentSize > 0 && room < |data|
    ensures ReceiveAll(wire, b, RequestThenData(kind, id, data, metadata, room, fragmentSize, isComplete))
         == Some(Delivered(wire, b, data, metadata))
  {
    var flags := PayloadFlags(false, false, true, metadata.Some?);
    var f := kind.FirstFrame(id, flags, Some(JsSlice(data, 0, room)), metadata);
    var rest := DataLoop(id, data, room, fragmentSize, None, fragmentSize, isComplete);
    ReceiveFirst(wire, b, f, rest);
    assert data[0..room] + data[room..] == data;
    assert room == 0 ==> [] + data[room..] == data;
    DataLoopDelivers(wire, Receive(wire, b, f).value, id, data, room, fragmentSize, None, fragmentSize, isComplete);
  }

  lemma FinishedWhole(wire: bool, data: bytes, metadata: bytes, pending: Option<bytes>)
    requires data != [] && metadata != [] && pending != Some([])
    requires var kept := OrEmpty(pending); |kept| <= |metadata| && metadata[|metadata| - |kept|..] == kept
    ensures Finished(wire, Collected(metadata[..|metadata| - |OrEmpty(pending)|]), data, 0, pending)
         == Expected(wire, data, Some(metadata))
  {
    var kept := OrEmpty(pending);
    var collected := metadata[..|metadata| - |kept|];
    assert collected + kept == metadata;
    assert collected == [] ==> kept == metadata;
    assert kept == [] ==> collected == metadata;
    assert data[0..] == data && [] + data == data;
  }

  /** The metadata loop, from where the first frame left it, and the data loop. */
  lemma MetadataThenDataDelivers(wire: bool, b: Inbox, id: int, data: bytes, metadata: bytes, position: nat,
                                 fragmentSize: nat, isComplete: bool)
    requires fragmentSize > METADATA_LENGTH && position <= |metadata| && data != [] && metadata != []
    requires b.holder == Collected(metadata[..position])
    ensures ReceiveAll(wire, b, MetadataThenData(id, data, metadata, position, fragmentSize, isComplete))
         == Some(Delivered(wire, b, data, Some(metadata)))
  {
    var p := MetadataLoop(id, metadata, position, fragmentSize, None, |data|, fragmentSize, isComplete);
    MetadataLoopRoom(id, metadata, position, fragmentSize, None, |data|, fragmentSize, isComplete);
    MetadataLoopCollects(wire, b, id, metadata, position, |data|, fragmentSize, isComplete);
    var collected := metadata[..|metadata| - |OrEmpty(p.pending)|];
    ReceiveConcat(wire, b, p.frames, DataLoop(id, data, 0, p.remaining, p.pending, fragmentSize, isComplete));
    FinishedWhole(wire, data, metadata, p.pending);
    DataLoopDelivers(wire, b.(holder := Collected(collected)), id, data, 0, p.remaining, p.pending, fragmentSize,
                     isComplete);
  }

  /** REQUEST is charged twice when metadata and data share the first frame; with one or two bytes left
      after the metadata the room for data becomes negative. */
  predicate DoubleCharged(kind: Kind, metadata: Option<bytes>, fragmentSize: nat) {
    && kind.RequestCost() > 0
    && OrEmpty(metadata) != []
    && 0 < fragmentSize - METADATA_LENGTH - REQUEST_LENGTH - |metadata.value| < REQUEST_LENGTH
  }

  /** A negative room makes the first frame carry all data but the last `k` bytes and the second frame
      start `k` bytes before the end. Short data survives this; longer data is garbled, or, once an empty
      fragment has become an absent one on the wire, the reassembler throws. */
  lemma NegativeRoom(wire: bool, b: Inbox, kind: Kind, id: int, data: bytes, metadata: bytes, k: int,
                     fragmentSize: nat, isComplete: bool)
    requires b.holder == EMPTY && fragmentSize >= 7 && 1 <= k <= 2 && |data| > 3 - k && metadata != []
    ensures var r := ReceiveAll(wire, b, RequestThenData(kind, id, data, Some(metadata), 0 - k, fragmentSize, isComplete));
            if |data| < fragmentSize || (!wire && |data| == fragmentSize)
            then r == Some(Delivered(wire, b, data, Some(metadata)))
            else if wire then r.None?
            else r == Some(Inbox(EMPTY, b.payloads
                        + [AppPayload(Some(data[..|data| - k] + data[fragmentSize - k..]), Some(metadata))]))
  {
    hide ReceiveAll;
    var rest := DataLoop(id, data, 0 - k, fragmentSize, None, fragmentSize, isComplete);
    OverfullFirstFrame(wire, b, kind, id, data, metadata, k, rest);
    AfterOverfull(wire, b, id, data, metadata, k, fragmentSize, isComplete);
  }

  /** From the second frame on. */
  lemma AfterOverfull(wire: bool, b: Inbox, id: int, data: bytes, metadata: bytes, k: int, fragmentSize: nat, isComplete: bool)
    requires b.holder == EMPTY && fragmentSize >= 7 && 1 <= k <= 2 && |data| > 3 - k && metadata != []
    ensures var b1 := b.(holder := Holder(true, Crossed(wire, Some(data[..|data| - k])), Some(metadata)));
            var r := ReceiveAll(wire, b1, DataLoop(id, data, 0 - k, fragmentSize, None, fragmentSize, isComplete));
            if |data| < fragmentSize || (!wire && |data| == fragmentSize)
            then r == Some(Delivered(wire, b, data, Some(metadata)))
            else if wire then r.None?
            else r == Some(Inbox(EMPTY, b.payloads
                        + [AppPayload(Some(data[..|data| - k] + data[fragmentSize - k..]), Some(metadata))]))
  {
    hide ReceiveAll;
    var b1 := b.(holder := Holder(true, Crossed(wire, Some(data[..|data| - k])), Some(metadata)));
    var next := Min(|data|, fragmentSize - k);
    var second := DataFrame(id, data, 0 - k, next, None, isComplete);
    var others := DataLoop(id, data, next, fragmentSize, None, fragmentSize, isComplete);
    ReceiveFirst(wire, b1, second, others);
    SecondFrame(data, k, next, fragmentSize);
    if next == |data| {
      ReceiveNothing(wire, Receive(wire, b1, second).GetOr(b1));
    } else if Receive(wire, b1, second).Some? {
      DataLoopDelivers(wire, Receive(wire, b1, second).value, id, data, next, fragmentSize, None, fragmentSize, isComplete);
    }
  }

  lemma OverfullFirstFrame(wire: bool, b: Inbox, kind: Kind, id: int, data: bytes, metadata: bytes, k: int,
                           rest: seq<Frame>)
    requires b.holder == EMPTY && 1 <= k <= |data| && AllCarryPayload(rest) && metadata != []
    ensures var f := kind.FirstFrame(id, PayloadFlags(false, false, true, true), Some(JsSlice(data, 0, 0 - k)), Some(metadata));
            ReceiveAll(wire, b, [f] + rest)
            == ReceiveAll(wire, b.(holder := Holder(true, Crossed(wire, Some(data[..|data| - k])), Some(metadata))), rest)
  {
    var f := kind.FirstFrame(id, PayloadFlags(false, false, true, true), Some(JsSlice(data, 0, 0 - k)), Some(metadata));
    assert JsSlice(data, 0, 0 - k) == data[..|data| - k];
    ReceiveFirst(wire, b, f, rest);
  }

  /** What the second frame carries, and what it makes of the data of the first frame. */
  lemma SecondFrame(data: bytes, k: int, next: nat, fragmentSize: nat)
    requires fragmentSize >= 7 && 1 <= k <= 2 && |data| > 3 - k
    requires next == Min(|data|, fragmentSize - k)
    ensures var head, piece := data[..|data| - k], JsSlice(data, 0 - k, next);
            && (if |data| < fragmentSize then piece != [] && head + piece == data[..next]
                else piece == [] && head + piece == head && head != [])
            && (head == [] ==> piece == data[..next])
            && data[..next] + data[next..] == data
            && (next == |data| ==> data[..next] == data)
            && (|data| == fragmentSize ==> head == data[..next])
  {
    if |data| < fragmentSize {
      assert JsSlice(data, 0 - k, next) == data[|data| - k..next];
    }
  }

  /** Data longer than a fragment comes out with another length. */
  lemma Garbled(b: Inbox, data: bytes, metadata: bytes, k: int, fragmentSize: nat)
    requires 1 <= k <= 2 < fragmentSize < |data|
    ensures Inbox(EMPTY, b.payloads + [AppPayload(Some(data[..|data| - k] + data[fragmentSize - k..]), Some(metadata))])
         != Delivered(false, b, data, Some(metadata))
  {
    var wrong := AppPayload(Some(data[..|data| - k] + data[fragmentSize - k..]), Some(metadata));
    assert (b.payloads + [wrong])[|b.payloads|] == wrong;
    assert |wrong.data.value| == 2 * |data| - fragmentSize;
    assert Delivered(false, b, data, Some(metadata)).payloads[|b.payloads|].data == Some(data);
  }

  /** Exactly when a fragmented payload is reassembled. */
  predicate Reassembles(wire: bool, kind: Kind, data: bytes, metadata: Option<bytes>, fragmentSize: nat, isComplete: bool) {
    && (data != [] || isComplete)
    && !(DoubleCharged(kind, metadata, fragmentSize) && (if wire then |data| >= fragmentSize else |data| > fragmentSize))
  }

  /** Fragmentation followed by reassembly, from any inbox whose holder is empty: the payload, and only
      the payload, is delivered and the holder is empty again, if and only if `Reassembles`. */
  lemma FragmentsReassemble(wire: bool, b: Inbox, kind: Kind, id: int, data: bytes, metadata: Option<bytes>,
                            fragmentSize: nat, isComplete: bool)
    requires fragmentSize >= 7 && IsFragmentable(data, metadata, fragmentSize, kind)
    requires b.holder == EMPTY
    ensures ReceiveAll(wire, b, Fragments(kind, id, data, metadata, fragmentSize, isComplete))
            == Some(Delivered(wire, b, data, metadata))
       <==> Reassembles(wire, kind, data, metadata, fragmentSize, isComplete)
  {
    if OrEmpty(metadata) == [] {
      WithoutMetadata(wire, b, kind, id, data, metadata, fragmentSize, isComplete);
    } else if data == [] {
      WithoutData(wire, b, kind, id, metadata.value, fragmentSize, isComplete);
    } else {
      WithBoth(wire, b, kind, id, data, metadata.value, fragmentSize, isComplete);
    }
  }

  /** The data loop on its own, as a response without metadata or with empty metadata uses it. */
  lemma DataLoopAlone(wire: bool, b: Inbox, id: int, data: bytes, remaining: int, metadata: Option<bytes>,
                      fragmentSize: nat, isComplete: bool)
    requires b.holder == EMPTY && fragmentSize > 0 && remaining > 0 && data != []
    ensures ReceiveAll(wire, b, DataLoop(id, data, 0, remaining, metadata, fragmentSize, isComplete))
         == Some(Delivered(wire, b, data, metadata))
  {
    assert data[0..] == data;
    DataLoopDelivers(wire, b, id, data, 0, remaining, metadata, fragmentSize, isComplete);
  }

  lemma WithoutMetadata(wire: bool, b: Inbox, kind: Kind, id: int, data: bytes, metadata: Option<bytes>,
                        fragmentSize: nat, isComplete: bool)
    requires fragmentSize >= 7 && IsFragmentable(data, metadata, fragmentSize, kind)
    requires b.holder == EMPTY && OrEmpty(metadata) == []
    ensures data != []
    ensures ReceiveAll(wire, b, Fragments(kind, id, data, metadata, fragmentSize, isComplete))
            == Some(Delivered(wire, b, data, metadata))
  {
    hide ReceiveAll, RequestThenData, DataLoop, Delivered;
    var remaining := if metadata.Some? then fragmentSize - METADATA_LENGTH else fragmentSize;
    if kind.PayloadKind? {
      DataLoopAlone(wire, b, id, data, remaining, metadata, fragmentSize, isComplete);
    } else {
      RequestThenDataDelivers(wire, b, kind, id, data, metadata, remaining - kind.RequestCost(), fragmentSize, isComplete);
    }
  }

  lemma MetadataThenNothing(wire: bool, b: Inbox, id: int, metadata: bytes, position: nat, fragmentSize: nat,
                            isComplete: bool)
    requires fragmentSize > METADATA_LENGTH && position < |metadata|
    requires b.holder == Collected(metadata[..position])
    ensures ReceiveAll(wire, b, MetadataThenData(id, [], metadata, position, fragmentSize, isComplete))
            == Some(if isComplete then Delivered(wire, b, [], Some(metadata)) else b.(holder := Collected(metadata)))
  {
    MetadataLoopAlone(wire, b, id, metadata, position, fragmentSize, isComplete);
    var p := MetadataLoop(id, metadata, position, fragmentSize, None, 0, fragmentSize, isComplete);
    assert p.frames + [] == p.frames;
  }

  /** After a first frame full of metadata the inbox is where the rest goes on from. */
  lemma FirstFrameFull(wire: bool, b: Inbox, kind: Kind, id: int, data: bytes, metadata: bytes, room: nat,
                       fragmentSize: nat, isComplete: bool)
    requires fragmentSize > METADATA_LENGTH && 0 < room <= |metadata| && b.holder == EMPTY
    ensures ReceiveAll(wire, b, RequestFullOfMetadata(kind, id, data, metadata, room, fragmentSize, isComplete))
         == ReceiveAll(wire, b.(holder := Collected(metadata[..room])),
                       MetadataThenData(id, data, metadata, room, fragmentSize, isComplete))
  {
    var piece := metadata[..room];
    assert JsSlice(metadata, 0, room) == piece;
    var f := kind.FirstFrame(id, PayloadFlags(false, false, true, true), None, Some(piece));
    ReceiveFirst(wire, b, f, MetadataThenData(id, data, metadata, room, fragmentSize, isComplete));
  }

  lemma WithoutData(wire: bool, b: Inbox, kind: Kind, id: int, metadata: bytes, fragmentSize: nat, isComplete: bool)
    requires fragmentSize >= 7 && IsFragmentable([], Some(metadata), fragmentSize, kind)
    requires b.holder == EMPTY && metadata != []
    ensures ReceiveAll(wire, b, Fragments(kind, id, [], Some(metadata), fragmentSize, isComplete))
            == Some(if isComplete then Delivered(wire, b, [], Some(metadata)) else b.(holder := Collected(metadata)))
    ensures Collected(metadata).hasFragments
  {
    if kind.PayloadKind? {
      assert metadata[..0] == [];
      MetadataThenNothing(wire, b, id, metadata, 0, fragmentSize, isComplete);
    } else {
      var room := fragmentSize - METADATA_LENGTH - kind.RequestCost();
      FirstFrameFull(wire, b, kind, id, [], metadata, room, fragmentSize, isComplete);
      MetadataThenNothing(wire, b.(holder := Collected(metadata[..room])), id, metadata, room, fragmentSize, isComplete);
    }
  }

  lemma RequestFullDelivers(wire: bool, b: Inbox, kind: Kind, id: int, data: bytes, metadata: bytes, room: nat,
                            fragmentSize: nat, isComplete: bool)
    requires fragmentSize > METADATA_LENGTH && 0 < room <= |metadata| && data != []
    requires b.holder == EMPTY
    ensures ReceiveAll(wire, b, RequestFullOfMetadata(kind, id, data, metadata, room, fragmentSize, isComplete))
            == Some(Delivered(wire, b, data, Some(metadata)))
  {
    FirstFrameFull(wire, b, kind, id, data, metadata, room, fragmentSize, isComplete);
    MetadataThenDataDelivers(wire, b.(holder := Collected(metadata[..room])), id, data, metadata, room, fragmentSize,
                             isComplete);
  }

  lemma WithBoth(wire: bool, b: Inbox, kind: Kind, id: int, data: bytes, metadata: bytes, fragmentSize: nat, isComplete: bool)
    requires fragmentSize >= 7 && IsFragmentable(data, Some(metadata), fragmentSize, kind)
    requires b.holder == EMPTY && metadata != [] && data != []
    ensures ReceiveAll(wire, b, Fragments(kind, id, data, Some(metadata), fragmentSize, isComplete))
            == Some(Delivered(wire, b, data, Some(metadata)))
       <==> Reassembles(wire, kind, data, Some(metadata), fragmentSize, isComplete)
  {
    hide ReceiveAll, RequestFullOfMetadata, MetadataThenData, RequestThenData, Delivered;
    var room := fragmentSize - METADATA_LENGTH - kind.RequestCost();
    if kind.PayloadKind? {
      assert metadata[..0] == [];
      MetadataThenDataDelivers(wire, b, id, data, metadata, 0, fragmentSize, isComplete);
    } else if room <= |metadata| {
      RequestFullDelivers(wire, b, kind, id, data, metadata, room, fragmentSize, isComplete);
    } else {
      SharedFirstFrame(wire, b, kind, id, data, metadata, room - |metadata| - kind.RequestCost(), fragmentSize, isComplete);
    }
  }

  lemma SharedFirstFrame(wire: bool, b: Inbox, kind: Kind, id: int, data: bytes, metadata: bytes, dataRoom: int,
                         fragmentSize: nat, isComplete: bool)
    requires fragmentSize >= 7 && !kind.PayloadKind? && IsFragmentable(data, Some(metadata), fragmentSize, kind)
    requires |metadata| < fragmentSize - METADATA_LENGTH - kind.RequestCost()
    requires dataRoom == fragmentSize - METADATA_LENGTH - |metadata| - 2 * kind.RequestCost()
    requires b.holder == EMPTY && metadata != [] && data != []
    ensures ReceiveAll(wire, b, RequestThenData(kind, id, data, Some(metadata), dataRoom, fragmentSize, isComplete))
            == Some(Delivered(wire, b, data, Some(metadata)))
       <==> Reassembles(wire, kind, data, Some(metadata), fragmentSize, isComplete)
  {
    hide ReceiveAll, RequestThenData;
    if dataRoom >= 0 {
      RequestThenDataDelivers(wire, b, kind, id, data, Some(metadata), dataRoom, fragmentSize, isComplete);
    } else {
      NegativeRoom(wire, b, kind, id, data, metadata, -dataRoom, fragmentSize, isComplete);
      if !wire && |data| > fragmentSize {
        Garbled(b, data, metadata, -dataRoom, fragmentSize);
      }
    }
  }

  // The two failures at an input

  /** A request-stream with one byte of metadata, whose first frame would have one byte left for data: two
      bytes of the data arrive twice, and over the wire the reassembler throws. */
  lemma DoubleChargeGarbles()
    ensures var data: bytes := [1, 2, 3, 4, 5, 6, 7, 8, 9];
            var frames := Fragments(StreamKind(1), 1, data, Some([0]), 8, false);
            && ReceiveAll(false, Inbox(EMPTY, []), frames)
               == Some(Inbox(EMPTY, [AppPayload(Some([1, 2, 3, 4, 5, 6, 7, 7, 8, 9]), Some([0]))]))
            && ReceiveAll(true, Inbox(EMPTY, []), frames).None?
  {
    hide ReceiveAll, RequestThenData;
    var data: bytes := [1, 2, 3, 4, 5, 6, 7, 8, 9];
    NegativeRoom(false, Inbox(EMPTY, []), StreamKind(1), 1, data, [0], 2, 8, false);
    NegativeRoom(true, Inbox(EMPTY, []), StreamKind(1), 1, data, [0], 2, 8, false);
    assert data[..7] + data[6..] == [1, 2, 3, 4, 5, 6, 7, 7, 8, 9];
    var garbled := [AppPayload(Some([1, 2, 3, 4, 5, 6, 7, 7, 8, 9]), Some([0]))];
    assert [] + garbled == garbled;
  }

  /** A request-response with five bytes of metadata and no data: after all its frames the holder has the
      metadata and waits for more. */
  lemma MetadataAloneNeverEnds()
    ensures ReceiveAll(true, Inbox(EMPTY, []), Fragments(ResponseKind, 1, [], Some([1, 2, 3, 4, 5]), 7, false))
         == Some(Inbox(Holder(true, None, Some([1, 2, 3, 4, 5])), []))
  {
    hide ReceiveAll;
    WithoutData(true, Inbox(EMPTY, []), ResponseKind, 1, [1, 2, 3, 4, 5], 7, false);
  }
}
