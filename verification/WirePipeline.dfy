/** From an application's payload to the peer's application: fragmenter, serializer, byte stream,
    parser and reassembler together. */
module WirePipeline {
  import opened Options
  import opened Bytes
  import opened Frames
  import opened Codec
  import opened Framing
  import opened Reassembler
  import opened Fragmenter
  import opened FragmentationLaws
  import opened FragmentShapes
  import opened Sending
  import ChannelQueues

  /** The frames for which what the peer receives is what they carry, up to empty buffers. */
  predicate Faithful(f: Frame) {
    && CarriesPayload(f) && Serializable(f) && SizeOf(f) < TWO_24
    && HasMetadata(f.flags) == f.metadata.Some?
  }

  ghost predicate AllFaithful(fs: seq<Frame>) {
    forall i | 0 <= i < |fs| :: Faithful(fs[i])
  }

  function AllEncoded(fs: seq<Frame>): (r: seq<bytes>)
    requires AllFaithful(fs)
    ensures |r| == |fs|
    ensures forall i | 0 <= i < |fs| :: r[i] == Encode(fs[i])
  {
    if fs == [] then [] else [Encode(fs[0])] + AllEncoded(fs[1..])
  }

  function AllReceived(fs: seq<Frame>): (r: seq<Frame>)
    requires AllFaithful(fs)
    ensures |r| == |fs|
    ensures forall i | 0 <= i < |fs| :: r[i] == Received(fs[i])
  {
    if fs == [] then [] else [Received(fs[0])] + AllReceived(fs[1..])
  }

  lemma FrameArrives(f: Frame)
    requires Faithful(f)
    ensures PrefixFits(Encode(f)) && Decode(Encode(f)) == Some(Received(f))
    ensures CarriesPayload(Received(f)) && Received(f).flags == f.flags
    ensures Received(f).data == NonEmpty(f.data) && Received(f).metadata == NonEmpty(f.metadata)
  {
    RoundTrip(f);
    FillsItsBuffer(f);
  }

  lemma FramesArrive(fs: seq<Frame>)
    requires AllFaithful(fs)
    ensures Decodes(Decode, AllEncoded(fs), AllReceived(fs))
    ensures AllCarryPayload(fs) && AllCarryPayload(AllReceived(fs))
  {
    var encoded, received := AllEncoded(fs), AllReceived(fs);
    forall i | 0 <= i < |fs|
      ensures PrefixFits(encoded[i]) && Decode(encoded[i]) == Some(received[i])
      ensures CarriesPayload(received[i])
    {
      assert Faithful(fs[i]);
      FrameArrives(fs[i]);
    }
  }

  lemma ReceivingDecodedFrame(b: Inbox, f: Frame)
    requires Faithful(f)
    ensures CarriesPayload(Received(f)) && Receive(false, b, Received(f)) == Receive(true, b, f)
  {
    FrameArrives(f);
  }

  /** Reassembling the decoded frames is reassembling the sent ones as they cross the wire. */
  lemma {:induction false} ReceivingDecoded(b: Inbox, fs: seq<Frame>)
    requires AllFaithful(fs) && AllCarryPayload(fs) && AllCarryPayload(AllReceived(fs))
    ensures ReceiveAll(false, b, AllReceived(fs)) == ReceiveAll(true, b, fs)
    decreases |fs|
  {
    if fs != [] {
      ReceivingDecodedFrame(b, fs[0]);
      var next := Receive(true, b, fs[0]);
      assert AllReceived(fs)[1..] == AllReceived(fs[1..]);
      if next.Some? {
        ReceivingDecoded(next.value, fs[1..]);
      }
    }
  }

  /** The fragments fit the length prefix: the fragment size does, or the whole payload does. */
  predicate FragmentsFit(kind: Kind, data: bytes, metadata: Option<bytes>, fragmentSize: nat) {
    && fragmentSize + 7 < TWO_24
    && (DoubleCharged(kind, metadata, fragmentSize) && |data| > 3 ==> |data| + fragmentSize + 7 < TWO_24)
  }

  predicate RequestFits(kind: Kind) {
    kind.StreamKind? || kind.ChannelKind? ==> Fits32(kind.requestN)
  }

  lemma OrdinaryIsFaithful(f: Frame, id: int, fragmentSize: nat)
    requires Ordinary(f, id, fragmentSize) && StreamIdFits(id) && fragmentSize + 7 < TWO_24
    ensures Faithful(f)
  {
  }

  lemma RunIsFaithful(frames: seq<Frame>, id: int, fragmentSize: nat, isComplete: bool, finished: bool)
    requires Run(frames, id, fragmentSize, isComplete, finished) && StreamIdFits(id) && fragmentSize + 7 < TWO_24
    ensures AllFaithful(frames)
  {
    forall i | 0 <= i < |frames| ensures Faithful(frames[i]) {
      if i < |frames| - 1 {
        assert frames[i] == frames[..|frames| - 1][i];
      }
      OrdinaryIsFaithful(frames[i], id, fragmentSize);
    }
  }

  lemma FirstOfIsFaithful(f: Frame, kind: Kind, id: int, data: Option<bytes>, metadata: Option<bytes>)
    requires f == FirstOf(kind, id, data, metadata) && !kind.PayloadKind?
    requires StreamIdFits(id) && RequestFits(kind) && SizeOf(f) < TWO_24
    ensures Faithful(f)
  {
  }

  lemma FirstFrameFits(kind: Kind, data: bytes, metadata: Option<bytes>, fragmentSize: nat)
    requires fragmentSize >= 7 && !kind.PayloadKind? && FragmentsFit(kind, data, metadata, fragmentSize)
    requires !FullOfMetadata(kind, metadata, fragmentSize)
    ensures SizeOf(FirstOf(kind, 1, Some(JsSlice(data, 0, Min(|data|, RoomForData(kind, metadata, fragmentSize)))), metadata))
            < TWO_24
  {
    var room := RoomForData(kind, metadata, fragmentSize);
    var piece := JsSlice(data, 0, Min(|data|, room));
    assert |piece| <= if room >= 0 then room else |data|;
  }

  lemma FirstFrameIsFaithful(kind: Kind, id: int, data: bytes, metadata: Option<bytes>, fragmentSize: nat, isComplete: bool)
    requires fragmentSize >= 7 && IsFragmentable(data, metadata, fragmentSize, kind) && !kind.PayloadKind?
    requires StreamIdFits(id) && RequestFits(kind) && FragmentsFit(kind, data, metadata, fragmentSize)
    ensures var frames := Fragments(kind, id, data, metadata, fragmentSize, isComplete);
            frames != [] && Faithful(frames[0])
  {
    FirstFrameIs(kind, id, data, metadata, fragmentSize, isComplete);
    if FullOfMetadata(kind, metadata, fragmentSize) {
      var part := JsSlice(metadata.value, 0, fragmentSize - METADATA_LENGTH - kind.RequestCost());
      FirstOfIsFaithful(FirstOf(kind, id, None, Some(part)), kind, id, None, Some(part));
    } else {
      FirstFrameFits(kind, data, metadata, fragmentSize);
      var part := JsSlice(data, 0, Min(|data|, RoomForData(kind, metadata, fragmentSize)));
      FirstOfIsFaithful(FirstOf(kind, id, Some(part), metadata), kind, id, Some(part), metadata);
    }
  }

  lemma FragmentsAreFaithful(kind: Kind, id: int, data: bytes, metadata: Option<bytes>, fragmentSize: nat, isComplete: bool)
    requires fragmentSize >= 7 && IsFragmentable(data, metadata, fragmentSize, kind)
    requires StreamIdFits(id) && RequestFits(kind) && FragmentsFit(kind, data, metadata, fragmentSize)
    ensures AllFaithful(Fragments(kind, id, data, metadata, fragmentSize, isComplete))
  {
    var frames := Fragments(kind, id, data, metadata, fragmentSize, isComplete);
    FragmentsWellShaped(kind, id, data, metadata, fragmentSize, isComplete);
    if kind.PayloadKind? {
      RunIsFaithful(frames, id, fragmentSize, isComplete, data != [] || isComplete);
    } else {
      RunIsFaithful(frames[1..], id, fragmentSize, isComplete, data != [] || isComplete);
      FirstFrameIsFaithful(kind, id, data, metadata, fragmentSize, isComplete);
      assert frames == [frames[0]] + frames[1..];
    }
  }

  // Payloads back to back

  /** A payload whose frames fit the length prefix. */
  predicate ItemFits(kind: Kind, item: Item, fragmentSize: nat) {
    if IsFragmentable(item.data, item.metadata, fragmentSize, kind)
    then FragmentsFit(kind, item.data, item.metadata, fragmentSize)
    else SizeOf(FirstOf(kind, 1, Some(item.data), item.metadata)) < TWO_24
  }

  lemma WholeIsFaithful(kind: Kind, id: int, item: Item, f: Frame)
    requires f == kind.FirstFrame(id, PayloadFlags(kind.PayloadKind?, item.complete, false, item.metadata.Some?),
                                  Some(item.data), item.metadata)
    requires StreamIdFits(id) && RequestFits(kind) && SizeOf(FirstOf(kind, 1, Some(item.data), item.metadata)) < TWO_24
    ensures Faithful(f)
  {
  }

  lemma SentFramesAreFaithful(kind: Kind, id: int, item: Item, fragmentSize: nat)
    requires ValidFragmentSize(fragmentSize) && StreamIdFits(id) && RequestFits(kind) && ItemFits(kind, item, fragmentSize)
    ensures AllFaithful(SentFrames(kind, id, item, fragmentSize))
  {
    hide Faithful, Fragments;
    if IsFragmentable(item.data, item.metadata, fragmentSize, kind) {
      FragmentsAreFaithful(kind, id, item.data, item.metadata, fragmentSize, item.complete);
    } else {
      WholeIsFaithful(kind, id, item, SentFrames(kind, id, item, fragmentSize)[0]);
    }
  }

  lemma {:induction false} AllSentAreFaithful(id: int, items: seq<Item>, fragmentSize: nat)
    requires ValidFragmentSize(fragmentSize) && StreamIdFits(id)
    requires forall i | 0 <= i < |items| :: ItemFits(PayloadKind, items[i], fragmentSize)
    ensures AllFaithful(AllSentFrames(id, items, fragmentSize))
    decreases |items|
  {
    hide Faithful, SentFrames, ItemFits;
    if items != [] {
      SentFramesAreFaithful(PayloadKind, id, items[0], fragmentSize);
      AllSentAreFaithful(id, items[1..], fragmentSize);
    }
  }

  // How many payloads come out

  /** The frames that announce no other one. */
  function Lasts(fs: seq<Frame>): nat
    requires AllCarryPayload(fs)
  {
    if fs == [] then 0 else (if HasFollows(fs[0].flags) then 0 else 1) + Lasts(fs[1..])
  }

  /** Each of them lets one payload out. */
  lemma {:induction false} ReceiveCounts(b: Inbox, fs: seq<Frame>)
    requires AllCarryPayload(fs)
    ensures var r := ReceiveAll(true, b, fs); r.Some? ==> |r.value.payloads| == |b.payloads| + Lasts(fs)
    decreases |fs|
  {
    if fs != [] {
      var next := Receive(true, b, fs[0]);
      if next.Some? {
        ReceiveCounts(next.value, fs[1..]);
      }
    }
  }

  lemma {:induction false} RunLasts(frames: seq<Frame>, id: int, fragmentSize: nat, isComplete: bool, finished: bool)
    requires Run(frames, id, fragmentSize, isComplete, finished)
    ensures AllCarryPayload(frames) && Lasts(frames) == if finished then 1 else 0
    decreases |frames|
  {
    ChannelQueues.RunHead(frames, id, fragmentSize, isComplete, finished);
    if |frames| > 1 {
      RunLasts(frames[1..], id, fragmentSize, isComplete, finished);
      assert frames == [frames[0]] + frames[1..];
    } else {
      assert frames[1..] == [];
    }
  }

  /** An element has one last frame, unless it is metadata alone and not complete. */
  lemma ElementLasts(id: int, item: Item, fragmentSize: nat)
    requires ValidFragmentSize(fragmentSize)
    ensures Lasts(SentFrames(PayloadKind, id, item, fragmentSize)) == if Deliverable(PayloadKind, item, fragmentSize) then 1 else 0
  {
    var frames := SentFrames(PayloadKind, id, item, fragmentSize);
    if IsFragmentable(item.data, item.metadata, fragmentSize, PayloadKind) {
      hide Fragments, Run;
      FragmentsWellShaped(PayloadKind, id, item.data, item.metadata, fragmentSize, item.complete);
      RunLasts(frames, id, fragmentSize, item.complete, item.data != [] || item.complete);
    } else {
      assert frames[1..] == [];
    }
  }

  /** Whatever the holder, elements let out at most one payload each, and fewer if one is undeliverable. */
  lemma {:induction false} ElementsCount(b: Inbox, id: int, items: seq<Item>, fragmentSize: nat)
    requires ValidFragmentSize(fragmentSize)
    ensures var r := ReceiveAll(true, b, AllSentFrames(id, items, fragmentSize));
            && (r.Some? ==> |r.value.payloads| <= |b.payloads| + |items|)
            && (r.Some? && (exists i | 0 <= i < |items| :: !Deliverable(PayloadKind, items[i], fragmentSize)) ==>
                  |r.value.payloads| < |b.payloads| + |items|)
    decreases |items|
  {
    hide SentFrames, Deliverable, Lasts;
    if items != [] {
      var first, rest := SentFrames(PayloadKind, id, items[0], fragmentSize), AllSentFrames(id, items[1..], fragmentSize);
      ReceiveConcat(true, b, first, rest);
      ReceiveCounts(b, first);
      ElementLasts(id, items[0], fragmentSize);
      var next := ReceiveAll(true, b, first);
      if next.Some? {
        ElementsCount(next.value, id, items[1..], fragmentSize);
        assert forall i | 0 < i < |items| :: items[i] == items[1..][i - 1];
      }
    }
  }

  /** An undeliverable payload makes the reassembler throw, or lets nothing out. */
  lemma UndeliverableFirst(b: Inbox, kind: Kind, id: int, item: Item, fragmentSize: nat)
    requires ValidFragmentSize(fragmentSize) && b.holder == EMPTY && !Deliverable(kind, item, fragmentSize)
    ensures var r := ReceiveAll(true, b, SentFrames(kind, id, item, fragmentSize)); r.Some? ==> |r.value.payloads| == |b.payloads|
  {
    hide ReceiveAll;
    if item.data == [] {
      WithoutData(true, b, kind, id, item.metadata.value, fragmentSize, item.complete);
    } else {
      var room := fragmentSize - METADATA_LENGTH - |item.metadata.value| - 2 * kind.RequestCost();
      NegativeRoom(true, b, kind, id, item.data, item.metadata.value, -room, fragmentSize, item.complete);
    }
  }

  /** A payload followed by elements comes out one by one, in order, with the holder as new, if and only if
      the fragmenter can deliver each of them. */
  lemma AllArriveExactly(b: Inbox, kind: Kind, id: int, first: Item, items: seq<Item>, fragmentSize: nat)
    requires ValidFragmentSize(fragmentSize) && b.holder == EMPTY
    ensures ReceiveAll(true, b, SentFrames(kind, id, first, fragmentSize) + AllSentFrames(id, items, fragmentSize))
            == Some(Inbox(EMPTY, b.payloads + [Arrives(first)] + AllArrive(items)))
       <==> Deliverable(kind, first, fragmentSize) && forall i | 0 <= i < |items| :: Deliverable(PayloadKind, items[i], fragmentSize)
  {
    hide SentFrames, Deliverable, ReceiveAll, Arrives;
    var head, rest := SentFrames(kind, id, first, fragmentSize), AllSentFrames(id, items, fragmentSize);
    var after := Inbox(EMPTY, b.payloads + [Arrives(first)]);
    ReceiveConcat(true, b, head, rest);
    ItemArrives(b, kind, id, first, fragmentSize);
    if !Deliverable(kind, first, fragmentSize) {
      UndeliverableFirst(b, kind, id, first, fragmentSize);
      var next := ReceiveAll(true, b, head);
      if next.Some? { ElementsCount(next.value, id, items, fragmentSize); }
    } else if forall i | 0 <= i < |items| :: Deliverable(PayloadKind, items[i], fragmentSize) {
      BackToBack(after, id, items, fragmentSize);
    } else {
      ElementsCount(after, id, items, fragmentSize);
    }
  }

  /** The whole way: a payload of any kind and elements after it, fragmented or not, are serialized with
      their lengths, the bytes cut into any chunks, parsed, and reassembled. Every frame is handed over,
      nothing stays in the buffer, and the payloads come out, in order and nothing else, if and only if the
      fragmenter can deliver each of them. */
  lemma PayloadsCrossTheWire(kind: Kind, id: int, first: Item, items: seq<Item>, fragmentSize: nat, chunks: seq<bytes>)
    requires ValidFragmentSize(fragmentSize) && StreamIdFits(id) && RequestFits(kind) && ItemFits(kind, first, fragmentSize)
    requires forall i | 0 <= i < |items| :: ItemFits(PayloadKind, items[i], fragmentSize)
    ensures var frames := SentFrames(kind, id, first, fragmentSize) + AllSentFrames(id, items, fragmentSize);
            && AllFaithful(frames) && AllPrefixesFit(AllEncoded(frames))
            && (Flatten(chunks) == Stream(AllEncoded(frames)) ==>
                  var c := FeedAll(Decode, Opened(), chunks);
                  && c.remaining == [] && !c.done && AllCarryPayload(c.handed)
                  && (ReceiveAll(false, Inbox(EMPTY, []), c.handed)
                      == Some(Inbox(EMPTY, [Arrives(first)] + AllArrive(items)))
                      <==> Deliverable(kind, first, fragmentSize)
                           && forall i | 0 <= i < |items| :: Deliverable(PayloadKind, items[i], fragmentSize)))
  {
    hide SentFrames, Deliverable, Faithful, Arrives, FeedAll, Encode, Received, Decode, ItemFits;
    var frames := SentFrames(kind, id, first, fragmentSize) + AllSentFrames(id, items, fragmentSize);
    SentFramesAreFaithful(kind, id, first, fragmentSize);
    AllSentAreFaithful(id, items, fragmentSize);
    FramesArrive(frames);
    if Flatten(chunks) == Stream(AllEncoded(frames)) {
      FramesSurviveChunking(Decode, AllEncoded(frames), AllReceived(frames), chunks);
      ReceivingDecoded(Inbox(EMPTY, []), frames);
      AllArriveExactly(Inbox(EMPTY, []), kind, id, first, items, fragmentSize);
      assert [] + [Arrives(first)] == [Arrives(first)];
    }
  }
}
