/** What the frames in flight on a channel amount to, and that appending to a queue adds it up. */
module ChannelQueues {
  import opened Options
  import opened Bytes
  import opened Frames
  import opened Reassembler
  import opened Fragmenter
  import opened FragmentationLaws
  import opened FragmentShapes
  import opened Sending
  import opened StreamSignals
  import opened ChannelStreams

  /** CANCEL or ERROR. */
  predicate Aborts(f: Frame) {
    f.Cancel? || f.Error?
  }

  predicate Finishes(f: Frame) {
    CarriesPayload(f) && HasComplete(f.flags)
  }

  /** The frame that lets a peer know that nothing more will come. */
  predicate Ends(f: Frame) {
    Finishes(f) || f.Error?
  }

  predicate IsRequest(f: Frame) {
    f.RequestChannel? || f.RequestStream? || f.RequestResponse? || f.RequestFnf?
  }

  /** The demand that a frame carries. */
  function AskedBy(f: Frame): int {
    match f
    case RequestChannel(_, _, n, _, _) => n
    case RequestStream(_, _, n, _, _) => n
    case RequestN(_, _, n) => n
    case _ => 0
  }

  /** A PAYLOAD frame that completes the stream without carrying an element. */
  predicate BareCompletion(f: Frame) {
    f.Payload? && HasComplete(f.flags) && !HasNext(f.flags) && !HasFollows(f.flags)
  }

  /** What neither end sends: COMPLETE with FOLLOWS, which the two read differently, and the frames that
      are not about a stream. */
  predicate Irregular(f: Frame) {
    if CarriesPayload(f) then HasComplete(f.flags) && HasFollows(f.flags)
    else !(f.Cancel? || f.Error? || f.RequestN? || f.Ext?)
  }

  predicate Carries(f: Frame) {
    CarriesPayload(f) && !BareCompletion(f)
  }

  /** What an inbox will be when everything in flight has arrived; `None` if that would fail, which it
      does when a frame other than a fragment comes between fragments. */
  function Outcome(b: Inbox, q: seq<Frame>): Option<Inbox>
    decreases |q|
  {
    if q == [] then Some(b)
    else if Carries(q[0]) then
      var next :- Receive(true, b, q[0]);
      Outcome(next, q[1..])
    else if b.holder.hasFragments then None
    else Outcome(b, q[1..])
  }

  lemma {:induction false} OutcomeAppend(b: Inbox, q: seq<Frame>, frames: seq<Frame>)
    ensures Outcome(b, q + frames)
         == var next := Outcome(b, q);
            if next.None? then None else Outcome(next.value, frames)
    decreases |q|
  {
    if q == [] {
      assert q + frames == frames;
    } else {
      assert (q + frames)[1..] == q[1..] + frames;
      if Carries(q[0]) {
        var next := Receive(true, b, q[0]);
        if next.Some? {
          OutcomeAppend(next.value, q[1..], frames);
        }
      } else {
        OutcomeAppend(b, q[1..], frames);
      }
    }
  }

  /** What will have been delivered begins with what has been delivered. */
  lemma {:induction false} OutcomeExtends(b: Inbox, q: seq<Frame>)
    ensures var r := Outcome(b, q); r.Some? ==> b.payloads <= r.value.payloads
    decreases |q|
  {
    if q != [] {
      if Carries(q[0]) {
        var next := Receive(true, b, q[0]);
        if next.Some? {
          OutcomeExtends(next.value, q[1..]);
        }
      } else {
        OutcomeExtends(b, q[1..]);
      }
    }
  }

  /** What there is among a list of frames, and how much demand they carry. It is `orderly` if no payload
      comes after the end, and says its last word `once` if no error does either. */
  datatype Summary = Summary(aborts: bool, ends: bool, pays: bool, errs: bool, requests: bool, irregular: bool,
                             asked: int, orderly: bool, once: bool)

  function SumOf(f: Frame): Summary {
    Summary(Aborts(f), Ends(f), CarriesPayload(f), f.Error?, IsRequest(f), Irregular(f), AskedBy(f), true, true)
  }

  function Sum(q: seq<Frame>): Summary {
    if q == [] then Summary(false, false, false, false, false, false, 0, true, true)
    else
      var f, rest := q[0], Sum(q[1..]);
      Summary(Aborts(f) || rest.aborts, Ends(f) || rest.ends, CarriesPayload(f) || rest.pays, f.Error? || rest.errs,
              IsRequest(f) || rest.requests, Irregular(f) || rest.irregular, AskedBy(f) + rest.asked,
              rest.orderly && (Ends(f) ==> !rest.pays), rest.once && (Ends(f) ==> !rest.pays && !rest.errs))
  }

  /** What two lists of frames amount to, one after the other. */
  ghost predicate IsBoth(m: Summary, a: Summary, b: Summary) {
    && m.aborts == (a.aborts || b.aborts) && m.ends == (a.ends || b.ends)
    && m.pays == (a.pays || b.pays) && m.errs == (a.errs || b.errs)
    && m.requests == (a.requests || b.requests) && m.irregular == (a.irregular || b.irregular)
    && m.asked == a.asked + b.asked
    && m.orderly == (a.orderly && b.orderly && (a.ends ==> !b.pays))
    && m.once == (a.once && b.once && (a.ends ==> !b.pays && !b.errs))
  }

  /** Frames in good order that make no request. */
  ghost predicate Says(m: Summary, aborts: bool, ends: bool, pays: bool, errs: bool, asked: int) {
    && m.aborts == aborts && m.ends == ends && m.pays == pays && m.errs == errs && m.asked == asked
    && !m.requests && !m.irregular && m.orderly && m.once
  }

  lemma {:induction false} SumAppend(a: seq<Frame>, b: seq<Frame>)
    ensures IsBoth(Sum(a + b), Sum(a), Sum(b))
    decreases |a|
  {
    if a == [] {
      assert a + b == b;
    } else {
      assert (a + b)[1..] == a[1..] + b;
      SumAppend(a[1..], b);
    }
  }

  lemma SumHead(q: seq<Frame>)
    requires q != []
    ensures IsBoth(Sum(q), SumOf(q[0]), Sum(q[1..]))
  {
  }

  lemma SumOne(f: Frame)
    ensures Sum([f]) == SumOf(f)
  {
    assert [f][1..] == [];
  }

  lemma SumNone()
    ensures Says(Sum([]), false, false, false, false, 0)
  {
  }

  // The frames of one payload

  predicate AllCarry(q: seq<Frame>) {
    forall i | 0 <= i < |q| :: Carries(q[i])
  }

  lemma {:induction false} OutcomeIsReceiveAll(b: Inbox, q: seq<Frame>)
    requires AllCarry(q) && AllCarryPayload(q)
    ensures Outcome(b, q) == ReceiveAll(true, b, q)
    decreases |q|
  {
    if q != [] {
      assert Carries(q[0]);
      var next := Receive(true, b, q[0]);
      if next.Some? {
        OutcomeIsReceiveAll(next.value, q[1..]);
      }
    }
  }

  lemma RunHead(frames: seq<Frame>, id: int, fragmentSize: nat, isComplete: bool, finished: bool)
    requires Run(frames, id, fragmentSize, isComplete, finished)
    ensures Ordinary(frames[0], id, fragmentSize)
    ensures if |frames| == 1 then HasComplete(frames[0].flags) == isComplete && HasFollows(frames[0].flags) == !finished
            else Continues(frames[0]) && Run(frames[1..], id, fragmentSize, isComplete, finished)
  {
    if |frames| > 1 {
      var init := frames[..|frames| - 1];
      assert init[0] == frames[0];
      assert frames[1..][..|frames| - 2] == init[1..];
    }
  }

  /** Whatever the fragments of an element make up, they are in order and end with the element. */
  lemma {:induction false} RunSum(frames: seq<Frame>, id: int, fragmentSize: nat, isComplete: bool, finished: bool)
    requires Run(frames, id, fragmentSize, isComplete, finished) && (isComplete ==> finished)
    ensures Says(Sum(frames), false, isComplete, true, false, 0) && AllCarry(frames)
    decreases |frames|
  {
    RunHead(frames, id, fragmentSize, isComplete, finished);
    if |frames| > 1 {
      RunSum(frames[1..], id, fragmentSize, isComplete, finished);
      assert frames == [frames[0]] + frames[1..];
    } else {
      assert frames[1..] == [];
    }
  }

  lemma ElementSum(id: int, item: Item, fragmentSize: nat)
    requires ValidFragmentSize(fragmentSize)
    ensures var frames := SentFrames(PayloadKind, id, item, fragmentSize);
            Says(Sum(frames), false, item.complete, true, false, 0) && AllCarry(frames)
  {
    var frames := SentFrames(PayloadKind, id, item, fragmentSize);
    if IsFragmentable(item.data, item.metadata, fragmentSize, PayloadKind) {
      FragmentsWellShaped(PayloadKind, id, item.data, item.metadata, fragmentSize, item.complete);
      RunSum(frames, id, fragmentSize, item.complete, item.data != [] || item.complete);
    } else {
      SumOne(frames[0]);
    }
  }

  /** An element in flight will be delivered. */
  lemma ElementOutcome(b: Inbox, id: int, item: Item, fragmentSize: nat)
    requires ValidFragmentSize(fragmentSize) && Deliverable(PayloadKind, item, fragmentSize) && b.holder == EMPTY
    ensures Outcome(b, SentFrames(PayloadKind, id, item, fragmentSize))
         == Some(Inbox(EMPTY, b.payloads + [Arrives(item)]))
  {
    ElementSum(id, item, fragmentSize);
    OutcomeIsReceiveAll(b, SentFrames(PayloadKind, id, item, fragmentSize));
    ItemArrives(b, PayloadKind, id, item, fragmentSize);
  }

  /** The demand that a request carries. */
  function KindAsks(kind: Kind): int {
    match kind
    case StreamKind(n) => n
    case ChannelKind(n) => n
    case _ => 0
  }

  /** The frames of a request: first the request, with the demand, and no other one. */
  ghost predicate RequestSays(q: seq<Frame>, kind: Kind, id: int, complete: bool) {
    && q != [] && CarriesPayload(q[0]) && IsRequest(q[0])
    && q[0] == kind.FirstFrame(id, q[0].flags, q[0].data, q[0].metadata)
    && !Sum(q[1..]).requests
    && var m := Sum(q);
       && !m.aborts && m.ends == complete && m.pays && !m.errs && m.asked == KindAsks(kind)
       && !m.irregular && m.orderly && m.once
  }

  lemma RequestOfParts(frames: seq<Frame>, kind: Kind, id: int, complete: bool)
    requires frames != [] && FirstOfRequest(frames[0], kind, id) && !kind.PayloadKind?
    requires Says(Sum(frames[1..]), false, complete, true, false, 0) && AllCarry(frames[1..])
    ensures RequestSays(frames, kind, id, complete) && AllCarry(frames)
  {
    SumHead(frames);
    assert frames == [frames[0]] + frames[1..];
  }

  lemma WholeRequest(f: Frame, kind: Kind, id: int, flags: Flags, data: Option<bytes>, metadata: Option<bytes>)
    requires f == kind.FirstFrame(id, flags, data, metadata) && !kind.PayloadKind? && !HasFollows(flags)
    ensures RequestSays([f], kind, id, HasComplete(flags)) && AllCarry([f])
  {
    SumOne(f);
    SumNone();
    assert [f][1..] == [];
  }

  lemma RequestSum(kind: Kind, id: int, item: Item, fragmentSize: nat)
    requires ValidFragmentSize(fragmentSize) && !kind.PayloadKind?
    ensures var frames := SentFrames(kind, id, item, fragmentSize);
            RequestSays(frames, kind, id, item.complete) && AllCarry(frames)
  {
    var frames := SentFrames(kind, id, item, fragmentSize);
    if IsFragmentable(item.data, item.metadata, fragmentSize, kind) {
      FragmentsWellShaped(kind, id, item.data, item.metadata, fragmentSize, item.complete);
      RunSum(frames[1..], id, fragmentSize, item.complete, item.data != [] || item.complete);
      RequestOfParts(frames, kind, id, item.complete);
    } else {
      WholeRequest(frames[0], kind, id, PayloadFlags(false, item.complete, false, item.metadata.Some?),
                   Some(item.data), item.metadata);
    }
  }

  lemma RequestOutcome(b: Inbox, kind: Kind, id: int, item: Item, fragmentSize: nat)
    requires ValidFragmentSize(fragmentSize) && Deliverable(kind, item, fragmentSize) && !kind.PayloadKind?
    requires b.holder == EMPTY
    ensures Outcome(b, SentFrames(kind, id, item, fragmentSize)) == Some(Inbox(EMPTY, b.payloads + [Arrives(item)]))
  {
    RequestSum(kind, id, item, fragmentSize);
    OutcomeIsReceiveAll(b, SentFrames(kind, id, item, fragmentSize));
    ItemArrives(b, kind, id, item, fragmentSize);
  }
}
