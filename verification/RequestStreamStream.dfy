/** The two ends of a request-stream and of a request-response as the objects that change their fields,
    method by method. The code has a class for each, which differ only in what a `single` one does: no
    demand, and one payload that is the last one whether it says so or not. */
module RequestStreamStreams {
  import opened Options
  import opened Bytes
  import opened Frames
  import opened Reassembler
  import opened Fragmenter
  import opened Sending
  import opened StreamSignals
  import opened ChannelStreams
  import opened RequestStreams
  import opened Transport

  class RequestRequesterStream {
    const single: bool
    const payload: Item
    const receiver: Receiver
    const stream: Stream
    const fragmentSize: nat
    const fragments: FragmentsHolder
    var initialRequestN: int
    var streamId: nat
    var done: bool
    var extension: Option<Signal>
    var thrown: bool

    constructor (single: bool, payload: Item, receiver: Receiver, fragmentSize: nat, initialRequestN: int, stream: Stream)
      requires ValidFragmentSize(fragmentSize) && receiver.signals == []
      ensures this.receiver == receiver && this.stream == stream && fresh(fragments)
      ensures View() == NewOneRequester(single, payload, fragmentSize, initialRequestN) && View().Valid()
    {
      this.single, this.payload, this.receiver, this.stream, this.fragmentSize := single, payload, receiver, stream, fragmentSize;
      this.initialRequestN, streamId, done, extension, thrown := if single then 0 else initialRequestN, 0, false, None, false;
      fragments := new FragmentsHolder();
    }

    function HalfView(): Half
      reads this, receiver, stream, fragments
    {
      Half(done, streamId > 0 && streamId in stream.registry, fragments.View(), receiver.signals, thrown)
    }

    function View(): OneRequester
      reads this, receiver, stream, fragments
    {
      OneRequester(single, payload.(complete := false), fragmentSize, initialRequestN, streamId, extension, HalfView())
    }

    /** The other streams of the multiplexer stay registered as they are. */
    twostate predicate OthersKept()
      reads this, stream
    {
      forall id | id != streamId :: id in stream.registry <==> id in old(stream.registry)
    }

    method HandleReady(id: nat) returns (ready: bool)
      requires View().Valid() && id > 0 && streamId == 0
      modifies this, stream
      ensures ready == !old(done) && OthersKept()
      ensures View() == OneReady(old(View()), id).state
      ensures stream.sent == old(stream.sent) + OneReady(old(View()), id).frames
    {
      if done {
        return false;
      }
      streamId := id;
      stream.Connect(id);
      stream.SendPayload(if single then ResponseKind else StreamKind(initialRequestN), id, payload.(complete := false), fragmentSize);
      if extension.Some? {
        stream.SendFrame(ExtFrame(id, extension.value));
      }
      return true;
    }

    method HandleReject()
      modifies this, receiver
      ensures View() == old(View()).(half := OneRejected(old(HalfView())))
    {
      if done {
        return;
      }
      done := true;
      receiver.OnError();
    }

    method Handle(frame: Frame)
      requires streamId > 0
      modifies this, receiver, stream, fragments
      ensures OthersKept()
      ensures View() == old(View()).(half := OneHandles(single, streamId, old(HalfView()), frame).state)
      ensures stream.sent == old(stream.sent) + OneHandles(single, streamId, old(HalfView()), frame).frames
    {
      hide OneGetsPayload, OneFails;
      if frame.Payload? {
        HandlePayload(frame);
      } else if frame.Error? {
        HandleError();
      } else if frame.Ext? && !fragments.hasFragments {
        receiver.OnExtension(ExtensionOf(frame));
      } else {
        Reject();
      }
    }

    method HandleError()
      requires streamId > 0
      modifies this, receiver, stream, fragments
      ensures OthersKept() && stream.sent == old(stream.sent)
      ensures View() == old(View()).(half := old(HalfView()).Over().(holder := EMPTY).Signalled(Failed))
    {
      done := true;
      stream.Disconnect(streamId);
      fragments.CancelFragments();
      receiver.OnError();
    }

    method HandlePayload(frame: Frame)
      requires streamId > 0 && frame.Payload?
      modifies this, receiver, stream, fragments
      ensures OthersKept() && stream.sent == old(stream.sent)
      ensures View() == old(View()).(half := OneHandles(single, streamId, old(HalfView()), frame).state)
    {
      var hasComplete := HasComplete(frame.flags);
      if hasComplete || !HasFollows(frame.flags) {
        if single || hasComplete {
          done := true;
          stream.Disconnect(streamId);
          if !HasNext(frame.flags) {
            receiver.OnComplete();
            return;
          }
        }
        var p := Some(AppPayload(frame.data, frame.metadata));
        if fragments.hasFragments {
          p := fragments.ReassemblePayload(frame.data, frame.metadata);
        }
        if p.None? {
          thrown := true;
        } else {
          receiver.OnNext(p.value, single || hasComplete);
        }
        return;
      }
      var failed := fragments.AddFragment(frame.data, frame.metadata);
      thrown := thrown || failed;
    }

    /** An unexpected frame. */
    method Reject()
      requires streamId > 0
      modifies this, receiver, stream, fragments
      ensures OthersKept()
      ensures View() == old(View()).(half := OneFails(streamId, old(HalfView())).state)
      ensures stream.sent == old(stream.sent) + OneFails(streamId, old(HalfView())).frames
    {
      Close(true);
      stream.SendFrame(CancelFrame(streamId));
      stream.Disconnect(streamId);
    }

    /** Of a request-stream only. */
    method RequestMore(n: int)
      requires !single
      modifies this, stream
      ensures OthersKept()
      ensures View() == OneRequests(old(View()), n).state
      ensures stream.sent == old(stream.sent) + OneRequests(old(View()), n).frames
    {
      if done {
        return;
      }
      if streamId == 0 {
        initialRequestN := initialRequestN + n;
        return;
      }
      stream.SendFrame(RequestNFrame(streamId, n));
    }

    method CancelStream()
      modifies this, stream, fragments
      ensures OthersKept()
      ensures View() == old(View()).(half := OneCancels(streamId, old(HalfView())).state)
      ensures stream.sent == old(stream.sent) + OneCancels(streamId, old(HalfView())).frames
    {
      if done {
        return;
      }
      done := true;
      if streamId == 0 {
        return;
      }
      stream.SendFrame(CancelFrame(streamId));
      stream.Disconnect(streamId);
      fragments.CancelFragments();
    }

    method OnExtension(e: Signal)
      requires e.Extension?
      modifies this, stream
      ensures OthersKept()
      ensures View() == OneExtends(old(View()), e).state
      ensures stream.sent == old(stream.sent) + OneExtends(old(View()), e).frames
    {
      if done {
        return;
      }
      if streamId == 0 {
        extension := Some(e);
        return;
      }
      stream.SendFrame(ExtFrame(streamId, e));
    }

    method Close(withError: bool)
      modifies this, receiver, fragments
      ensures View() == old(View()).(half := OneCloses(old(HalfView()), withError))
    {
      if done {
        return;
      }
      done := true;
      fragments.CancelFragments();
      if withError {
        receiver.OnError();
      } else {
        receiver.OnComplete();
      }
    }
  }

  /** `hasReceiver` tells whether the application's handler has been called and has returned a receiver;
      the log of the receiver starts with that call. */
  class RequestResponderStream {
    const single: bool
    const receiver: Receiver
    const stream: Stream
    const fragmentSize: nat
    const streamId: nat
    const fragments: FragmentsHolder
    const initialRequestN: int
    var hasReceiver: bool
    var done: bool
    var thrown: bool

    constructor (single: bool, stream: Stream, fragmentSize: nat, receiver: Receiver, frame: Frame)
      requires IsOneRequest(single, frame) && frame.streamId > 0 && ValidFragmentSize(fragmentSize) && receiver.signals == []
      modifies stream, receiver
      ensures this.receiver == receiver && this.stream == stream && fresh(fragments)
      ensures stream.registry == old(stream.registry) + {frame.streamId} && stream.sent == old(stream.sent)
      ensures View() == OneBorn(single, fragmentSize, frame)
    {
      this.single, this.receiver, this.stream, this.fragmentSize := single, receiver, stream, fragmentSize;
      streamId, initialRequestN := frame.streamId, if HasFollows(frame.flags) then DemandIn(frame) else 0;
      hasReceiver, done, thrown := false, false, false;
      fragments := new FragmentsHolder();
      new;
      stream.Connect(streamId);
      if HasFollows(frame.flags) {
        var failed := fragments.AddFragment(frame.data, frame.metadata);
        thrown := failed;
        return;
      }
      receiver.Start(AppPayload(frame.data, frame.metadata), DemandIn(frame), false);
      hasReceiver := true;
    }

    function HalfView(): Half
      reads this, receiver, stream, fragments
    {
      Half(done, streamId in stream.registry, fragments.View(), receiver.signals, thrown)
    }

    function ServingView(): Serving
      reads this, receiver, stream, fragments
    {
      Serving(if hasReceiver then Served else Gathering, HalfView())
    }

    function View(): OneResponder
      reads this, receiver, stream, fragments
    {
      OneResponder(single, streamId, fragmentSize, initialRequestN, ServingView())
    }

    twostate predicate OthersKept()
      reads this, stream
    {
      forall id | id != streamId :: id in stream.registry <==> id in old(stream.registry)
    }

    method Handle(frame: Frame)
      modifies this, receiver, stream, fragments
      ensures OthersKept()
      ensures var v := old(ServingView());
              var e := ResponderTurns(single, streamId, initialRequestN, v.stage, v.half, frame);
              ServingView() == e.state && stream.sent == old(stream.sent) + e.frames
    {
      if !hasReceiver || fragments.hasFragments {
        if frame.Payload? {
          HandleFragment(frame);
          return;
        }
      } else if frame.RequestN? && !single {
        receiver.Request(frame.requestN);
        return;
      } else if frame.Ext? {
        receiver.OnExtension(ExtensionOf(frame));
        return;
      }
      Stop(frame);
    }

    /** A fragment of the request; the last one calls the handler. */
    method HandleFragment(frame: Frame)
      requires (!hasReceiver || fragments.hasFragments) && frame.Payload?
      modifies this, receiver, fragments
      ensures var v := old(ServingView());
              var e := ResponderTurns(single, streamId, initialRequestN, v.stage, v.half, frame);
              ServingView() == e.state && e.frames == []
    {
      if HasFollows(frame.flags) {
        var failed := fragments.AddFragment(frame.data, frame.metadata);
        thrown := thrown || failed;
        return;
      }
      var p := fragments.ReassemblePayload(frame.data, frame.metadata);
      if p.None? {
        thrown := true;
      } else {
        receiver.Start(p.value, initialRequestN, false);
        hasReceiver := true;
      }
    }

    /** The stream ends, by the peer's word or over an unexpected frame. */
    method Stop(frame: Frame)
      modifies this, receiver, stream, fragments
      ensures OthersKept()
      ensures var v := old(ServingView());
              var e := ResponderStops(streamId, v.stage, v.half, frame);
              ServingView() == e.state && stream.sent == old(stream.sent) + e.frames
    {
      done := true;
      fragments.CancelFragments();
      if hasReceiver {
        receiver.Cancel();
      }
      if !frame.Cancel? && !frame.Error? {
        stream.SendFrame(ErrorFrame(streamId, CANCELED_CODE));
      }
      stream.Disconnect(streamId);
    }

    method OnError()
      modifies this, stream
      ensures OthersKept() && hasReceiver == old(hasReceiver)
      ensures HalfView() == OneErrors(streamId, old(HalfView())).state
      ensures stream.sent == old(stream.sent) + OneErrors(streamId, old(HalfView())).frames
    {
      if done {
        return;
      }
      done := true;
      stream.SendFrame(ErrorFrame(streamId, APPLICATION_ERROR));
      stream.Disconnect(streamId);
    }

    method OnNext(item: Item)
      requires ValidFragmentSize(fragmentSize)
      modifies this, stream
      ensures OthersKept() && hasReceiver == old(hasReceiver)
      ensures HalfView() == OneSends(single, streamId, fragmentSize, old(HalfView()), item).state
      ensures stream.sent == old(stream.sent) + OneSends(single, streamId, fragmentSize, old(HalfView()), item).frames
    {
      if done {
        return;
      }
      var last := single || item.complete;
      if last {
        done := true;
      }
      stream.SendPayload(PayloadKind, streamId, item.(complete := last), fragmentSize);
      if last {
        stream.Disconnect(streamId);
      }
    }

    method OnComplete()
      modifies this, stream
      ensures OthersKept() && hasReceiver == old(hasReceiver)
      ensures HalfView() == OneCompletes(streamId, old(HalfView())).state
      ensures stream.sent == old(stream.sent) + OneCompletes(streamId, old(HalfView())).frames
    {
      if done {
        return;
      }
      done := true;
      stream.SendFrame(CompleteFrame(streamId));
      stream.Disconnect(streamId);
    }

    method OnExtension(e: Signal)
      requires e.Extension?
      modifies stream
      ensures View() == old(View()) && stream.registry == old(stream.registry)
      ensures stream.sent == old(stream.sent) + OneResponderExtends(streamId, old(HalfView()), e)
    {
      if done {
        return;
      }
      stream.SendFrame(ExtFrame(streamId, e));
    }

    /** The connection closes: the receiver is cancelled, and the stream stays as it is. */
    method Close()
      modifies this, receiver, fragments
      ensures ServingView() == old(ServingView()).(half := OneResponderCloses(old(ServingView()).stage, old(HalfView())))
    {
      if done {
        return;
      }
      fragments.CancelFragments();
      if hasReceiver {
        receiver.Cancel();
      }
    }
  }
}
