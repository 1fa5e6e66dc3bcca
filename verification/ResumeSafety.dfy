/** Resumption is exactly-once and in order, and never fails between honest peers. */
module ResumeSafety {
  import opened Options
  import opened Bytes
  import opened Frames
  import opened Codec
  import opened FrameStores
  import opened ResumableMultiplexers
  import opened ResumeProtocol

  // Lists

  lemma {:induction false} StreamPartAppend(a: seq<Frame>, b: seq<Frame>)
    ensures StreamPart(a + b) == StreamPart(a) + StreamPart(b)
    decreases |a|
  {
    if a == [] {
      assert a + b == b;
    } else {
      assert (a + b)[1..] == a[1..] + b;
      StreamPartAppend(a[1..], b);
    }
  }

  lemma StreamPartOne(f: Frame)
    ensures StreamPart([f]) == if f.StreamId() != 0 then [f] else []
  {
    assert [f][1..] == [];
  }

  lemma StreamPartPush(fs: seq<Frame>, f: Frame)
    ensures StreamPart(fs + [f]) == if f.StreamId() != 0 then StreamPart(fs) + [f] else StreamPart(fs)
  {
    StreamPartAppend(fs, [f]);
    StreamPartOne(f);
    assert StreamPart(fs) + [] == StreamPart(fs);
  }

  lemma {:induction false} StreamPartOfStream(fs: seq<Frame>)
    requires StreamFrames(fs)
    ensures StreamPart(fs) == fs
    decreases |fs|
  {
    if fs != [] {
      StreamPartOfStream(fs[1..]);
    }
  }

  lemma {:induction false} AllSeenPush(fs: seq<Frame>, f: Frame)
    requires AllCountable(fs) && Countable(f)
    ensures AllSeen(fs + [f]) == AllSeen(fs) + [Seen(f)]
    decreases |fs|
  {
    if fs == [] {
      assert fs + [f] == [f] && [f][1..] == [];
    } else {
      assert (fs + [f])[1..] == fs[1..] + [f];
      AllSeenPush(fs[1..], f);
    }
  }

  lemma TotalPush(log: seq<Frame>, f: Frame)
    requires AllCountable(log) && Countable(f)
    ensures AllCountable(log + [f]) && Total(log + [f]) == Total(log) + Size(f)
  {
    TotalAppend(log, [f]);
    assert [f][1..] == [];
  }

  lemma SeenStreamFrame(f: Frame)
    requires StreamFrame(f)
    ensures Seen(f).StreamId() != 0 && Size(Seen(f)) == Size(f)
  {
    ReceivedSize(f);
  }

  lemma StreamFramesPush(fs: seq<Frame>, f: Frame)
    requires StreamFrames(fs) && StreamFrame(f) && AllCountable(fs)
    ensures StreamFrames(fs + [f]) && AllCountable(fs + [f])
  {
  }

  lemma SlicesOfPush<T>(list: seq<T>, x: T, k: nat)
    requires k <= |list|
    ensures (list + [x])[..k] == list[..k] && (list + [x])[k..] == list[k..] + [x]
  {
  }

  lemma SliceStep<T>(list: seq<T>, k: nat)
    requires k < |list|
    ensures list[..k + 1] == list[..k] + [list[k]] && list[k..] == [list[k]] + list[k + 1..]
  {
  }

  lemma TailOf<T>(x: T, rest: seq<T>)
    ensures ([x] + rest)[0] == x && ([x] + rest)[1..] == rest
  {
  }

  // Boundaries and acknowledgements

  /** A boundary's frame count, from the positions around it. */
  lemma BoundaryCount(log: seq<Frame>, position: nat, low: nat, high: nat) returns (k: nat)
    requires AllCountable(log) && Boundary(log, position)
    requires low <= high <= |log| && Total(log[..low]) <= position <= Total(log[..high])
    ensures low <= k <= high && position == Total(log[..k])
  {
    k :| k <= |log| && position == Total(log[..k]);
    if k < low {
      PositionsGrow(log, k, low);
    } else if k > high {
      PositionsGrow(log, high, k);
    }
  }

  lemma PositionsOrdered(log: seq<Frame>, j: nat, k: nat)
    requires AllCountable(log) && j <= k <= |log|
    ensures Total(log[..j]) <= Total(log[..k])
  {
    if j < k {
      PositionsGrow(log, j, k);
    }
  }

  lemma BoundaryStays(log: seq<Frame>, f: Frame, position: nat)
    requires AllCountable(log) && Countable(f) && Boundary(log, position)
    ensures AllCountable(log + [f]) && Boundary(log + [f], position)
  {
    var k: nat :| k <= |log| && position == Total(log[..k]);
    assert (log + [f])[..k] == log[..k];
  }

  lemma {:induction false} AcksWhenLogGrows(queue: seq<Frame>, log: seq<Frame>, f: Frame, low: nat, high: nat)
    requires AllCountable(log) && Countable(f) && AcksInOrder(queue, log, low, high)
    ensures AllCountable(log + [f]) && AcksInOrder(queue, log + [f], low, high)
    decreases |queue|
  {
    if queue != [] {
      match Acknowledged(queue[0])
      case None => AcksWhenLogGrows(queue[1..], log, f, low, high);
      case Some(a) =>
        BoundaryStays(log, f, a);
        AcksWhenLogGrows(queue[1..], log, f, a, high);
    }
  }

  lemma {:induction false} AcksWiden(queue: seq<Frame>, log: seq<Frame>, low: nat, high: nat, higher: nat)
    requires AllCountable(log) && AcksInOrder(queue, log, low, high) && high <= higher
    ensures AcksInOrder(queue, log, low, higher)
    decreases |queue|
  {
    if queue != [] {
      match Acknowledged(queue[0])
      case None => AcksWiden(queue[1..], log, low, high, higher);
      case Some(a) => AcksWiden(queue[1..], log, a, high, higher);
    }
  }

  /** Acknowledging the latest position keeps the order; so does a frame that acknowledges nothing. */
  lemma {:induction false} AcksPush(queue: seq<Frame>, f: Frame, log: seq<Frame>, low: nat, high: nat)
    requires AllCountable(log) && AcksInOrder(queue, log, low, high) && low <= high
    requires Acknowledged(f).Some? ==> Acknowledged(f).value == high && Boundary(log, high)
    ensures AcksInOrder(queue + [f], log, low, high)
    decreases |queue|
  {
    if queue == [] {
      assert queue + [f] == [f] && [f][1..] == [];
    } else {
      assert (queue + [f])[1..] == queue[1..] + [f];
      match Acknowledged(queue[0])
      case None => AcksPush(queue[1..], f, log, low, high);
      case Some(a) => AcksPush(queue[1..], f, log, a, high);
    }
  }

  lemma {:induction false} StreamFramesAcknowledgeNothing(queue: seq<Frame>, log: seq<Frame>, low: nat, high: nat)
    requires AllCountable(log) && StreamFrames(queue)
    ensures AcksInOrder(queue, log, low, high)
    decreases |queue|
  {
    if queue != [] {
      StreamFramesAcknowledgeNothing(queue[1..], log, low, high);
    }
  }

  // What every direction keeps

  /** The position ranges of a direction. */
  lemma DirectionRanges(sender: Store, receiver: Peer, log: seq<Frame>, flying: seq<Frame>, sending: bool, acks: seq<Frame>)
    requires Direction(sender, receiver, log, flying, sending, acks)
    ensures sender.firstAvailable <= receiver.store.lastReceived <= sender.lastSent
    ensures Boundary(log, receiver.store.lastReceived)
  {
    var got, dropped := |Recorded(receiver)|, Dropped(sender, log);
    PositionsOrdered(log, dropped, got);
    PositionsOrdered(log, got, |log|);
    assert log[..|log|] == log;
  }

  lemma SendingStream(sender: Store, receiver: Peer, log: seq<Frame>, flying: seq<Frame>, sending: bool,
                      acks: seq<Frame>, f: Frame)
    requires Direction(sender, receiver, log, flying, sending, acks) && StreamFrame(f)
    ensures Direction(StoreFrame(sender, f), receiver, log + [f], if sending then flying + [f] else flying, sending, acks)
  {
    var got, dropped := |Recorded(receiver)|, Dropped(sender, log);
    StoringExtendsTheLog(sender, log, dropped, f);
    AcksWhenLogGrows(acks, log, f, sender.firstAvailable, receiver.store.lastReceived);
    StreamFramesPush(log, f);
    SlicesOfPush(log, f, got);
    if sending {
      StreamPartPush(flying, f);
    }
  }

  /** What a peer sends does not disturb the direction in which it receives. */
  lemma SendingWhileReceiving(sender: Store, receiver: Peer, receiver': Peer, log: seq<Frame>, flying: seq<Frame>,
                              sending: bool, acks: seq<Frame>, f: Frame)
    requires Direction(sender, receiver, log, flying, sending, acks)
    requires receiver'.handled == receiver.handled && receiver'.store.lastReceived == receiver.store.lastReceived
    requires Acknowledged(f).Some? ==> Acknowledged(f).value == receiver.store.lastReceived
    ensures Direction(sender, receiver', log, flying, sending, acks)
    ensures Direction(sender, receiver', log, flying, sending, acks + [f])
  {
    DirectionRanges(sender, receiver, log, flying, sending, acks);
    AcksPush(acks, f, log, sender.firstAvailable, receiver.store.lastReceived);
  }

  lemma SendingOnStreamZero(sender: Store, receiver: Peer, log: seq<Frame>, flying: seq<Frame>, sending: bool,
                            acks: seq<Frame>, f: Frame)
    requires Direction(sender, receiver, log, flying, sending, acks) && f.StreamId() == 0
    ensures Direction(sender, receiver, log, flying + [f], sending, acks)
  {
    StreamPartPush(flying, f);
  }

  /** A stream frame arrives: it is the next one of the log. */
  lemma ReceivingStream(sender: Store, receiver: Peer, log: seq<Frame>, f: Frame, rest: seq<Frame>, sending: bool,
                        acks: seq<Frame>)
    requires receiver.store.Valid() && StreamFrame(f)
    requires Direction(sender, receiver, log, [f] + rest, sending, acks)
    ensures Direction(sender, Handle(receiver, Seen(f)).0, log, rest, sending, acks)
  {
    hide Total, AcksInOrder, AllSeen, Size;
    var got := |Recorded(receiver)|;
    SeenStreamFrame(f);
    TailOf(f, rest);
    assert log[got..] == [f] + StreamPart(rest);
    assert log[got] == f;
    SliceStep(log, got);
    assert StreamPart(rest) == log[got + 1..];
    AllSeenPush(log[..got], f);
    TotalPush(log[..got], f);
    StreamPartPush(receiver.handled, Seen(f));
    AcksWiden(acks, log, sender.firstAvailable, receiver.store.lastReceived, receiver.store.lastReceived + Size(f));
  }

  /** The other direction is not affected by it. */
  lemma ReceivingStreamWhileSending(sender: Store, sender': Store, receiver: Peer, log: seq<Frame>, flying: seq<Frame>,
                                    sending: bool, f: Frame, rest: seq<Frame>)
    requires Direction(sender, receiver, log, flying, sending, [f] + rest) && Acknowledged(f) == None
    requires sender' == sender.(lastReceived := sender'.lastReceived)
    ensures Direction(sender', receiver, log, flying, sending, rest)
  {
    assert ([f] + rest)[1..] == rest;
  }

  /** An acknowledgement arrives: dropping succeeds, and the window now begins at its position. */
  lemma ReceivingAck(sender: Store, receiver: Peer, log: seq<Frame>, flying: seq<Frame>, sending: bool,
                     f: Frame, rest: seq<Frame>)
    requires Direction(sender, receiver, log, flying, sending, [f] + rest) && Acknowledged(f).Some?
    ensures sender.Valid() && DropTo(sender, Acknowledged(f).value).1
    ensures Direction(DropTo(sender, Acknowledged(f).value).0, receiver, log, flying, sending, rest)
    ensures Acknowledged(f).value == receiver.store.lastReceived ==>
              DropTo(sender, Acknowledged(f).value).0.frames == log[|Recorded(receiver)|..]
  {
    var got, dropped := |Recorded(receiver)|, Dropped(sender, log);
    var position := Acknowledged(f).value;
    assert ([f] + rest)[0] == f && ([f] + rest)[1..] == rest;
    var k := BoundaryCount(log, position, dropped, got);
    DropToMovesTheWindow(sender, log, dropped, position);
    assert WindowOf(DropTo(sender, position).0, log, k);
    if position == receiver.store.lastReceived && k < got {
      PositionsGrow(log, k, got);
    }
  }

  /** A connection frame does not disturb the direction it travels in. */
  lemma ReceivingConnectionFrame(sender: Store, receiver: Peer, receiver': Peer, log: seq<Frame>, f: Frame,
                                 rest: seq<Frame>, sending: bool, acks: seq<Frame>)
    requires Direction(sender, receiver, log, [f] + rest, sending, acks) && f.StreamId() == 0
    requires receiver'.handled == receiver.handled || receiver'.handled == receiver.handled + [f]
    requires receiver'.store.lastReceived == receiver.store.lastReceived
    ensures Direction(sender, receiver', log, rest, sending, acks)
  {
    assert ([f] + rest)[1..] == rest;
    StreamPartPush(receiver.handled, f);
  }

  /** A lost or not yet resumed connection: nothing is in flight. */
  lemma NothingInFlight(sender: Store, receiver: Peer, log: seq<Frame>, flying: seq<Frame>, sending: bool, acks: seq<Frame>)
    requires Direction(sender, receiver, log, flying, sending, acks)
    ensures Direction(sender, receiver, log, [], false, [])
  {
  }

  /** Resuming: the acknowledgement of everything recorded arrives on a new connection, and the stored
      frames, which are exactly those the receiver has not recorded, go out after `prefix`. */
  lemma ResumingSends(sender: Store, receiver: Peer, log: seq<Frame>, f: Frame, rest: seq<Frame>, prefix: seq<Frame>)
    requires Direction(sender, receiver, log, [], false, [f] + rest)
    requires Acknowledged(f) == Some(receiver.store.lastReceived) && StreamPart(prefix) == []
    ensures sender.Valid() && DropTo(sender, receiver.store.lastReceived).1
    ensures var sender' := DropTo(sender, receiver.store.lastReceived).0;
            && StreamFrames(sender'.frames) && sender'.lastReceived == sender.lastReceived
            && Direction(sender', receiver, log, prefix + sender'.frames, true, rest)
  {
    ReceivingAck(sender, receiver, log, [], false, f, rest);
    var stored := log[|Recorded(receiver)|..];
    StreamPartOfStream(stored);
    StreamPartAppend(prefix, stored);
    assert [] + stored == stored;
  }

  /** RESUME_OK and the stored frames are on their way to the sender. */
  lemma AcceptanceInFlight(sender: Store, receiver: Peer, log: seq<Frame>, accepted: Frame, stored: seq<Frame>)
    requires Direction(sender, receiver, log, [], false, [])
    requires Acknowledged(accepted) == Some(receiver.store.lastReceived) && StreamFrames(stored)
    ensures Direction(sender, receiver, log, [], false, [accepted] + stored)
  {
    var position := receiver.store.lastReceived;
    DirectionRanges(sender, receiver, log, [], false, []);
    assert ([accepted] + stored)[1..] == stored;
    StreamFramesAcknowledgeNothing(stored, log, position, position);
  }

  lemma OrdinaryHead(f: Frame, rest: seq<Frame>)
    requires Ordinary([f] + rest)
    ensures (StreamFrame(f) || ConnectionFrame(f)) && Ordinary(rest)
  {
    var queue := [f] + rest;
    assert queue[0] == f;
    forall i | 0 <= i < |rest| ensures StreamFrame(rest[i]) || ConnectionFrame(rest[i]) {
      assert rest[i] == queue[i + 1];
    }
  }

  lemma OrdinaryPush(queue: seq<Frame>, f: Frame)
    requires Ordinary(queue) && (StreamFrame(f) || ConnectionFrame(f))
    ensures Ordinary(queue + [f])
  {
  }
}
