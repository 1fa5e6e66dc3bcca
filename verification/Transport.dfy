/** What a stream works with: the multiplexer, which sends its frames and routes frames to it by stream
    id, and the receiver, the application's side of the stream. */
module Transport {
  import opened Options
  import opened Bytes
  import opened Frames
  import opened Fragmenter
  import opened FragmentGenerators
  import opened Sending
  import opened StreamSignals

  class Stream {
    var registry: set<nat>
    var sent: seq<Frame>

    constructor ()
      ensures registry == {} && sent == []
    {
      registry, sent := {}, [];
    }

    method Connect(id: nat)
      modifies `registry
      ensures registry == old(registry) + {id}
    {
      registry := registry + {id};
    }

    method Disconnect(id: nat)
      modifies `registry
      ensures registry == old(registry) - {id}
    {
      registry := registry - {id};
    }

    method SendFrame(f: Frame)
      modifies `sent
      ensures sent == old(sent) + [f]
    {
      sent := sent + [f];
    }

    method SendAll(frames: seq<Frame>)
      modifies `sent
      ensures sent == old(sent) + frames
    {
      for i := 0 to |frames|
        invariant sent == old(sent) + frames[..i]
      {
        SendFrame(frames[i]);
        assert frames[..i + 1] == frames[..i] + [frames[i]];
      }
      assert frames[..|frames|] == frames;
    }

    /** A payload, in fragments if it needs them. */
    method SendPayload(kind: Kind, id: int, item: Item, fragmentSize: nat)
      requires ValidFragmentSize(fragmentSize)
      modifies `sent
      ensures sent == old(sent) + SentFrames(kind, id, item, fragmentSize)
    {
      if IsFragmentable(item.data, item.metadata, fragmentSize, kind) {
        var frames := YieldFragments(kind, id, item, fragmentSize);
        SendAll(frames);
      } else {
        SendFrame(kind.FirstFrame(id, PayloadFlags(kind.PayloadKind?, item.complete, false, item.metadata.Some?),
                                  Some(item.data), item.metadata));
      }
    }
  }

  /** The generator that the kind of payload asks for. */
  method YieldFragments(kind: Kind, id: int, item: Item, fragmentSize: nat) returns (frames: seq<Frame>)
    requires fragmentSize >= 7
    ensures frames == Fragments(kind, id, item.data, item.metadata, fragmentSize, item.complete)
  {
    if kind.RequestCost() > 0 {
      frames := FragmentWithRequestN(id, item.data, item.metadata, fragmentSize, kind, item.complete);
    } else {
      frames := Fragment(id, item.data, item.metadata, fragmentSize, kind, item.complete);
    }
  }

  class Receiver {
    var signals: seq<Signal>

    constructor ()
      ensures signals == []
    {
      signals := [];
    }

    method Log(s: Signal)
      modifies this
      ensures signals == old(signals) + [s]
    {
      signals := signals + [s];
    }

    method OnNext(payload: AppPayload, last: bool)
      modifies this
      ensures signals == old(signals) + [Signal.Next(payload, last)]
    {
      Log(Signal.Next(payload, last));
    }

    method OnComplete()
      modifies this
      ensures signals == old(signals) + [Completed]
    {
      Log(Completed);
    }

    method OnError()
      modifies this
      ensures signals == old(signals) + [Failed]
    {
      Log(Failed);
    }

    method OnExtension(e: Signal)
      requires e.Extension?
      modifies this
      ensures signals == old(signals) + [e]
    {
      Log(e);
    }

    method Request(n: int)
      modifies this
      ensures signals == old(signals) + [Requested(n)]
    {
      Log(Requested(n));
    }

    method Cancel()
      modifies this
      ensures signals == old(signals) + [Cancelled]
    {
      Log(Cancelled);
    }

    /** The application's handler for an incoming request. */
    method Start(payload: AppPayload, initialRequestN: int, last: bool)
      modifies this
      ensures signals == old(signals) + [Started(payload, initialRequestN, last)]
    {
      Log(Started(payload, initialRequestN, last));
    }
  }
}
