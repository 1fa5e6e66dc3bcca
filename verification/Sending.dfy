/** What a stream sends for one payload, fragmented or not, and what its peer makes of it. */
module Sending {
  import opened Options
  import opened Bytes
  import opened Frames
  import opened Reassembler
  import opened Fragmenter
  import opened FragmentationLaws

  /** A payload that an application hands to a stream, and whether it is the last one. */
  datatype Item = Item(data: bytes, metadata: Option<bytes>, complete: bool)

  /** 0 switches fragmentation off. */
  predicate ValidFragmentSize(fragmentSize: nat) {
    fragmentSize == 0 || fragmentSize >= 7
  }

  /** The frames of a payload: those of a request, or of `onNext`. COMPLETE can stand on an unfragmented
      REQUEST_CHANNEL or PAYLOAD frame only. */
  function SentFrames(kind: Kind, id: int, item: Item, fragmentSize: nat): (frames: seq<Frame>)
    requires ValidFragmentSize(fragmentSize)
    ensures AllCarryPayload(frames)
  {
    if IsFragmentable(item.data, item.metadata, fragmentSize, kind) then
      Fragments(kind, id, item.data, item.metadata, fragmentSize, item.complete)
    else
      [kind.FirstFrame(id, PayloadFlags(kind.PayloadKind?, item.complete, false, item.metadata.Some?),
                       Some(item.data), item.metadata)]
  }

  /** The payload as the peer's application gets it. */
  function Arrives(item: Item): AppPayload {
    Expected(true, item.data, item.metadata)
  }

  /** Exactly the payloads that get through. */
  predicate Deliverable(kind: Kind, item: Item, fragmentSize: nat) {
    IsFragmentable(item.data, item.metadata, fragmentSize, kind) ==>
      Reassembles(true, kind, item.data, item.metadata, fragmentSize, item.complete)
  }

  lemma ItemArrives(b: Inbox, kind: Kind, id: int, item: Item, fragmentSize: nat)
    requires ValidFragmentSize(fragmentSize) && b.holder == EMPTY
    ensures ReceiveAll(true, b, SentFrames(kind, id, item, fragmentSize))
            == Some(Inbox(EMPTY, b.payloads + [Arrives(item)]))
       <==> Deliverable(kind, item, fragmentSize)
  {
    if IsFragmentable(item.data, item.metadata, fragmentSize, kind) {
      FragmentsReassemble(true, b, kind, id, item.data, item.metadata, fragmentSize, item.complete);
    } else {
      var frames := SentFrames(kind, id, item, fragmentSize);
      ReceiveFirst(true, b, frames[0], []);
      assert frames == [frames[0]] + [];
    }
  }

  function AllSentFrames(id: int, items: seq<Item>, fragmentSize: nat): (frames: seq<Frame>)
    requires ValidFragmentSize(fragmentSize)
    ensures AllCarryPayload(frames)
  {
    if items == [] then []
    else SentFrames(PayloadKind, id, items[0], fragmentSize) + AllSentFrames(id, items[1..], fragmentSize)
  }

  function AllArrive(items: seq<Item>): (r: seq<AppPayload>)
    ensures |r| == |items|
  {
    if items == [] then [] else [Arrives(items[0])] + AllArrive(items[1..])
  }

  /** Payloads sent back to back come out one by one, in order, and the holder is as new. */
  lemma {:induction false} BackToBack(b: Inbox, id: int, items: seq<Item>, fragmentSize: nat)
    requires ValidFragmentSize(fragmentSize) && b.holder == EMPTY
    requires forall i | 0 <= i < |items| :: Deliverable(PayloadKind, items[i], fragmentSize)
    ensures ReceiveAll(true, b, AllSentFrames(id, items, fragmentSize))
         == Some(Inbox(EMPTY, b.payloads + AllArrive(items)))
    decreases |items|
  {
    if items == [] {
      assert b.payloads + [] == b.payloads;
    } else {
      var first, rest := SentFrames(PayloadKind, id, items[0], fragmentSize), AllSentFrames(id, items[1..], fragmentSize);
      ItemArrives(b, PayloadKind, id, items[0], fragmentSize);
      ReceiveConcat(true, b, first, rest);
      BackToBack(Inbox(EMPTY, b.payloads + [Arrives(items[0])]), id, items[1..], fragmentSize);
      Regroup3(b.payloads, [Arrives(items[0])], AllArrive(items[1..]));
    }
  }
}
