/** The two ends of a channel as the objects that change their fields, method by method. */
module RequestChannelStreams {
  import opened Options
  import opened Bytes
  import opened Frames
  import opened Reassembler
  import opened Fragmenter
  import opened Sending
  import opened StreamSignals
  import opened ChannelStreams
  import opened Transport

  class RequestChannelRequesterStream {
    const payload: Item
    const receiver: Receiver
    const stream: Stream
    const fragmentSize: nat
    const fragments: FragmentsHolder
    var isComplete: bool
    var initialRequestN: int
    var streamId: nat
    var inboundDone: bool
    var outboundDone: bool
    var extension: Option<Signal>
    var thrown: bool

    constructor (payload: Item, isComplete: bool, receiver: Receiver, fragmentSize: nat, initialRequestN: int, stream: Stream)
      requires ValidFragmentSize(fragmentSize) && receiver.signals == []
      ensures this.receiver == receiver && this.stream == stream && fresh(fragments)
      ensures View() == NewRequester(payload, isComplete, fragmentSize, initialRequestN) && View().Valid()
    {
      this.payload, this.receiver, this.stream, this.fragmentSize := payload, receiver, stream, fragmentSize;
      this.isComplete, this.initialRequestN, streamId := isComplete, initialRequestN, 0;
      inboundDone, outboundDone, extension, thrown := false, false, None, false;
      fragments := new FragmentsHolder();
    }

    function CoreView(): Core
      reads this, receiver, stream, fragments
    {
      Core(inboundDone, outboundDone, streamId > 0 && streamId in stream.registry, fragments.View(),
           receiver.signals, thrown)
    }

    function View(): Requester
      reads this, receiver, stream, fragments
    {
      Requester(payload, isComplete, fragmentSize, initialRequestN, streamId, extension, CoreView())
    }

    /** The other streams of the multiplexer stay registered as they are. */
    twostate predicate OthersKept()
      reads this, stream
    {
      forall id | id != streamId :: id in stream.registry <==> id in old(stream.registry)
    }

    method HandleReady(id: nat) returns (ready: bool)
      requires View().Valid() && id > 0 && streamId == 0
      modifies this, stream
      ensures ready == !old(outboundDone) && OthersKept()
      ensures View() == RequesterReady(old(View()), id).state
      ensures stream.sent == old(stream.sent) + RequesterReady(old(View()), id).frames
    {
      if outboundDone {
        return false;
      }
      streamId := id;
      stream.Connect(id);
      if isComplete {
        outboundDone := true;
      }
      stream.SendPayload(ChannelKind(initialRequestN), id, payload.(complete := isComplete), fragmentSize);
      if extension.Some? {
        stream.SendFrame(ExtFrame(id, extension.value));
      }
      return true;
    }

    method HandleReject()
      modifies this, receiver
      ensures View() == old(View()).(core := RequesterRejected(old(CoreView())))
    {
      if inboundDone {
        return;
      }
      inboundDone, outboundDone := true, true;
      receiver.OnError();
    }

    method Handle(frame: Frame)
      requires streamId > 0
      modifies this, receiver, stream, fragments
      ensures OthersKept()
      ensures View() == old(View()).(core := RequesterHandles(streamId, old(CoreView()), frame).state)
      ensures stream.sent == old(stream.sent) + RequesterHandles(streamId, old(CoreView()), frame).frames
    {
      hide RequesterGetsPayload, RequesterFails;
      if frame.Payload? {
        HandlePayload(frame);
      } else if frame.Cancel? {
        HandleCancel();
      } else if frame.RequestN? {
        HandleRequestN(frame.requestN);
      } else if frame.Error? {
        HandleError();
      } else if frame.Ext? {
        receiver.OnExtension(ExtensionOf(frame));
      } else {
        Reject();
      }
    }

    method HandleCancel()
      requires streamId > 0
      modifies this, receiver, stream
      ensures OthersKept() && stream.sent == old(stream.sent)
      ensures View() == old(View()).(core := if old(outboundDone) then old(CoreView())
                                             else old(CoreView()).OutboundEnds().Signalled(Cancelled))
    {
      if outboundDone {
        return;
      }
      outboundDone := true;
      if inboundDone {
        stream.Disconnect(streamId);
      }
      receiver.Cancel();
    }

    /** Refused while fragments are held. */
    method HandleRequestN(n: int)
      requires streamId > 0
      modifies this, receiver, stream, fragments
      ensures OthersKept()
      ensures var c := old(CoreView());
              var e := if c.outboundDone then Effect(c, []) else if c.holder.hasFragments then RequesterFails(streamId, c)
                       else Effect(c.Signalled(Requested(n)), []);
              View() == old(View()).(core := e.state) && stream.sent == old(stream.sent) + e.frames
    {
      if outboundDone {
        return;
      }
      if fragments.hasFragments {
        Reject();
      } else {
        receiver.Request(n);
      }
    }

    method HandlePayload(frame: Frame)
      requires streamId > 0 && frame.Payload?
      modifies this, receiver, stream, fragments
      ensures OthersKept() && stream.sent == old(stream.sent)
      ensures View() == old(View()).(core := RequesterHandles(streamId, old(CoreView()), frame).state)
    {
      var hasComplete := HasComplete(frame.flags);
      if hasComplete || !HasFollows(frame.flags) {
        if hasComplete {
          inboundDone := true;
          if outboundDone {
            stream.Disconnect(streamId);
          }
          if !HasNext(frame.flags) {
            receiver.OnComplete();
            return;
          }
        }
        var p := Some(AppPayload(frame.data, frame.metadata));
        if fragments.hasFragments {
          p := fragments.ReassemblePayload(frame.data, frame.metadata);
        }
        if p.None? {
          thrown := true;
        } else {
          receiver.OnNext(p.value, hasComplete);
        }
        return;
      }
      var failed := fragments.AddFragment(frame.data, frame.metadata);
      thrown := thrown || failed;
    }

    method HandleError()
      requires streamId > 0
      modifies this, receiver, stream, fragments
      ensures OthersKept() && stream.sent == old(stream.sent)
      ensures View() == old(View()).(core := old(CoreView()).Done().(registered := false, holder := EMPTY)
                                               .CancelledUnless(old(outboundDone)).Signalled(Failed))
    {
      var wasDone := outboundDone;
      inboundDone, outboundDone := true, true;
      stream.Disconnect(streamId);
      fragments.CancelFragments();
      if !wasDone {
        receiver.Cancel();
      }
      receiver.OnError();
    }

    /** An unexpected frame. */
    method Reject()
      requires streamId > 0
      modifies this, receiver, stream, fragments
      ensures OthersKept()
      ensures View() == old(View()).(core := RequesterFails(streamId, old(CoreView())).state)
      ensures stream.sent == old(stream.sent) + RequesterFails(streamId, old(CoreView())).frames
    {
      Close(true);
      stream.SendFrame(CancelFrame(streamId));
      stream.Disconnect(streamId);
    }

    method RequestMore(n: int)
      modifies this, stream
      ensures OthersKept()
      ensures View() == RequesterRequests(old(View()), n).state
      ensures stream.sent == old(stream.sent) + RequesterRequests(old(View()), n).frames
    {
      if inboundDone {
        return;
      }
      if streamId == 0 {
        initialRequestN := initialRequestN + n;
        return;
      }
      stream.SendFrame(RequestNFrame(streamId, n));
    }

    method CancelStream()
      modifies this, receiver, stream, fragments
      ensures OthersKept()
      ensures View() == old(View()).(core := RequesterCancels(streamId, old(CoreView())).state)
      ensures stream.sent == old(stream.sent) + RequesterCancels(streamId, old(CoreView())).frames
    {
      var wasInboundDone, wasOutboundDone := inboundDone, outboundDone;
      if wasInboundDone && wasOutboundDone {
        return;
      }
      inboundDone, outboundDone := true, true;
      if !wasOutboundDone {
        receiver.Cancel();
      }
      if streamId == 0 {
        return;
      }
      stream.SendFrame(if wasInboundDone then ErrorFrame(streamId, CANCELED_CODE) else CancelFrame(streamId));
      stream.Disconnect(streamId);
      fragments.CancelFragments();
    }

    method OnNext(item: Item)
      requires View().Valid() && streamId > 0
      modifies this, stream
      ensures OthersKept()
      ensures View() == old(View()).(core := Sends(streamId, fragmentSize, old(CoreView()), item).state)
      ensures stream.sent == old(stream.sent) + Sends(streamId, fragmentSize, old(CoreView()), item).frames
    {
      if outboundDone {
        return;
      }
      if item.complete {
        outboundDone := true;
        if inboundDone {
          stream.Disconnect(streamId);
        }
      }
      stream.SendPayload(PayloadKind, streamId, item, fragmentSize);
    }

    method OnComplete()
      modifies this, stream
      ensures OthersKept()
      ensures View() == RequesterCompletes(old(View())).state
      ensures stream.sent == old(stream.sent) + RequesterCompletes(old(View())).frames
    {
      if streamId == 0 {
        isComplete := true;
        return;
      }
      if outboundDone {
        return;
      }
      outboundDone := true;
      stream.SendFrame(CompleteFrame(streamId));
      if inboundDone {
        stream.Disconnect(streamId);
      }
    }

    method OnError()
      requires streamId > 0
      modifies this, receiver, stream
      ensures OthersKept()
      ensures View() == old(View()).(core := RequesterErrors(streamId, old(CoreView())).state)
      ensures stream.sent == old(stream.sent) + RequesterErrors(streamId, old(CoreView())).frames
    {
      if outboundDone {
        return;
      }
      var wasInboundDone := inboundDone;
      outboundDone, inboundDone := true, true;
      stream.SendFrame(ErrorFrame(streamId, APPLICATION_ERROR));
      stream.Disconnect(streamId);
      if !wasInboundDone {
        receiver.OnError();
      }
    }

    method OnExtension(e: Signal)
      requires e.Extension?
      modifies this, stream
      ensures OthersKept()
      ensures View() == RequesterExtends(old(View()), e).state
      ensures stream.sent == old(stream.sent) + RequesterExtends(old(View()), e).frames
    {
      if outboundDone {
        return;
      }
      if streamId == 0 {
        extension := Some(e);
        return;
      }
      stream.SendFrame(ExtFrame(streamId, e));
    }

    method Close(withError: bool)
      modifies this, receiver, fragments
      ensures View() == old(View()).(core := RequesterCloses(old(CoreView()), withError))
    {
      if inboundDone && outboundDone {
        return;
      }
      var wasInboundDone, wasOutboundDone := inboundDone, outboundDone;
      inboundDone, outboundDone := true, true;
      fragments.CancelFragments();
      if !wasOutboundDone {
        receiver.Cancel();
      }
      if !wasInboundDone {
        if withError {
          receiver.OnError();
        } else {
          receiver.OnComplete();
        }
      }
    }
  }

  /** The application's handler runs within the constructor or within `Handle`; until it returns there is
      no receiver, but the application already holds the responder. `HandlerHasReturned` is the rest of
      that call. The log of the receiver starts with the call of the handler. */
  class RequestChannelResponderStream {
    const receiver: Receiver
    const stream: Stream
    const fragmentSize: nat
    const streamId: nat
    const fragments: FragmentsHolder
    const initialRequestN: int
    const isComplete: bool
    var hasReceiver: bool
    var inHandler: bool
    var fromConstructor: bool
    var deferredError: bool
    var inboundDone: bool
    var outboundDone: bool
    var thrown: bool

    constructor (stream: Stream, fragmentSize: nat, receiver: Receiver, frame: Frame)
      requires frame.RequestChannel? && frame.streamId > 0 && ValidFragmentSize(fragmentSize) && receiver.signals == []
      modifies stream, receiver
      ensures this.receiver == receiver && this.stream == stream && fresh(fragments)
      ensures stream.registry == old(stream.registry) + {frame.streamId} && stream.sent == old(stream.sent)
      ensures View() == ResponderBorn(fragmentSize, frame)
    {
      this.receiver, this.stream, this.fragmentSize, streamId := receiver, stream, fragmentSize, frame.streamId;
      initialRequestN, isComplete := frame.requestN, HasComplete(frame.flags);
      fromConstructor := !HasFollows(frame.flags);
      hasReceiver, inHandler, deferredError := false, false, false;
      inboundDone, outboundDone, thrown := false, false, false;
      fragments := new FragmentsHolder();
      new;
      stream.Connect(streamId);
      if HasFollows(frame.flags) {
        var failed := fragments.AddFragment(frame.data, frame.metadata);
        thrown := failed;
        return;
      }
      inboundDone := HasComplete(frame.flags);
      inHandler := true;
      receiver.Start(AppPayload(frame.data, frame.metadata), frame.requestN, HasComplete(frame.flags));
    }

    function CoreView(): Core
      reads this, receiver, stream, fragments
    {
      Core(inboundDone, outboundDone, streamId in stream.registry, fragments.View(), receiver.signals, thrown)
    }

    function PhaseView(): Phase
      reads this
    {
      if hasReceiver then Running
      else if inHandler then InHandler(fromConstructor, deferredError)
      else Assembling(initialRequestN, isComplete)
    }

    function View(): Responder
      reads this, receiver, stream, fragments
    {
      Responder(streamId, fragmentSize, PhaseView(), CoreView())
    }

    function ReceivingView(): Receiving
      reads this, receiver, stream, fragments
    {
      Receiving(PhaseView(), CoreView())
    }

    twostate predicate OthersKept()
      reads this, stream
    {
      forall id | id != streamId :: id in stream.registry <==> id in old(stream.registry)
    }

    method HandlerHasReturned()
      requires PhaseView().InHandler?
      modifies this, receiver
      ensures View() == HandlerReturns(old(View()))
    {
      hasReceiver, inHandler := true, false;
      if fromConstructor && outboundDone && deferredError {
        receiver.OnError();
      }
    }

    method Handle(frame: Frame)
      requires !PhaseView().InHandler?
      modifies this, receiver, stream, fragments
      ensures OthersKept()
      ensures ReceivingView() == ResponderHandles(streamId, old(PhaseView()), old(CoreView()), frame).state
      ensures stream.sent == old(stream.sent) + ResponderHandles(streamId, old(PhaseView()), old(CoreView()), frame).frames
    {
      hide ResponderGetsPayload, ResponderFails, ResponderAborted;
      if frame.Payload? {
        HandlePayload(frame);
      } else if frame.Error? || frame.Cancel? {
        Abort();
      } else if frame.RequestN? && hasReceiver && !fragments.hasFragments {
        receiver.Request(frame.requestN);
      } else if frame.Ext? && hasReceiver && !fragments.hasFragments {
        receiver.OnExtension(ExtensionOf(frame));
      } else {
        Reject();
      }
    }

    method HandlePayload(frame: Frame)
      requires !PhaseView().InHandler? && frame.Payload?
      modifies this, receiver, stream, fragments
      ensures OthersKept() && stream.sent == old(stream.sent)
      ensures ReceivingView() == ResponderHandles(streamId, old(PhaseView()), old(CoreView()), frame).state
    {
      if HasFollows(frame.flags) {
        var failed := fragments.AddFragment(frame.data, frame.metadata);
        thrown := thrown || failed;
        return;
      }
      var p := Some(AppPayload(frame.data, frame.metadata));
      if fragments.hasFragments {
        p := fragments.ReassemblePayload(frame.data, frame.metadata);
      }
      if p.None? {
        thrown := true;
        return;
      }
      TakePayload(p.value, HasComplete(frame.flags), HasNext(frame.flags));
    }

    /** A complete payload: the request, with which the handler is called, or an element. */
    method TakePayload(p: AppPayload, hasComplete: bool, hasNext: bool)
      requires !PhaseView().InHandler?
      modifies this, receiver, stream
      ensures OthersKept() && stream.sent == old(stream.sent)
      ensures var last := hasComplete || (!old(hasReceiver) && isComplete);
              var c := if last then old(CoreView()).InboundEnds() else old(CoreView());
              ReceivingView() == if old(hasReceiver)
                                 then Receiving(Running, c.Signalled(if hasComplete && !hasNext then Completed
                                                                     else Signal.Next(p, hasComplete)))
                                 else Receiving(InHandler(false, false), c.Signalled(Started(p, initialRequestN, last)))
    {
      if !hasReceiver {
        var done := isComplete || hasComplete;
        if done {
          EndInbound();
        }
        inHandler, fromConstructor, deferredError := true, false, false;
        receiver.Start(p, initialRequestN, done);
      } else {
        if hasComplete {
          EndInbound();
          if !hasNext {
            receiver.OnComplete();
            return;
          }
        }
        receiver.OnNext(p, hasComplete);
      }
    }

    method EndInbound()
      modifies this, stream
      ensures OthersKept() && stream.sent == old(stream.sent)
      ensures ReceivingView() == old(ReceivingView()).(core := old(CoreView()).InboundEnds())
    {
      inboundDone := true;
      if outboundDone {
        stream.Disconnect(streamId);
      }
    }

    /** ERROR or CANCEL from the peer. */
    method Abort()
      requires !PhaseView().InHandler?
      modifies this, receiver, stream, fragments
      ensures OthersKept() && stream.sent == old(stream.sent)
      ensures ReceivingView() == Receiving(old(PhaseView()), ResponderAborted(old(PhaseView()), old(CoreView())))
    {
      var wasInboundDone, wasOutboundDone := inboundDone, outboundDone;
      inboundDone, outboundDone := true, true;
      stream.Disconnect(streamId);
      fragments.CancelFragments();
      if !hasReceiver {
        return;
      }
      if !wasOutboundDone {
        receiver.Cancel();
      }
      if !wasInboundDone {
        receiver.OnError();
      }
    }

    /** An unexpected frame. */
    method Reject()
      modifies this, receiver, stream, fragments
      ensures OthersKept()
      ensures ReceivingView() == ResponderFails(streamId, old(PhaseView()), old(CoreView())).state
      ensures stream.sent == old(stream.sent) + ResponderFails(streamId, old(PhaseView()), old(CoreView())).frames
    {
      stream.SendFrame(ErrorFrame(streamId, CANCELED_CODE));
      stream.Disconnect(streamId);
      Close(true);
    }

    method OnError()
      requires View().Live()
      modifies this, receiver, stream
      ensures OthersKept()
      ensures ReceivingView() == ResponderErrors(streamId, old(PhaseView()), old(CoreView())).state
      ensures stream.sent == old(stream.sent) + ResponderErrors(streamId, old(PhaseView()), old(CoreView())).frames
    {
      if outboundDone {
        return;
      }
      var wasInboundDone := inboundDone;
      outboundDone, inboundDone := true, true;
      stream.SendFrame(ErrorFrame(streamId, APPLICATION_ERROR));
      stream.Disconnect(streamId);
      if !wasInboundDone {
        if hasReceiver {
          receiver.OnError();
        } else {
          deferredError := true;
        }
      }
    }

    method OnNext(item: Item)
      requires View().Valid() && View().Live()
      modifies this, stream
      ensures OthersKept() && PhaseView() == old(PhaseView())
      ensures CoreView() == Sends(streamId, fragmentSize, old(CoreView()), item).state
      ensures stream.sent == old(stream.sent) + Sends(streamId, fragmentSize, old(CoreView()), item).frames
    {
      if outboundDone {
        return;
      }
      if item.complete {
        outboundDone := true;
      }
      stream.SendPayload(PayloadKind, streamId, item, fragmentSize);
      if item.complete && inboundDone {
        stream.Disconnect(streamId);
      }
    }

    method OnComplete()
      requires View().Live()
      modifies this, stream
      ensures OthersKept() && PhaseView() == old(PhaseView())
      ensures CoreView() == Completes(streamId, old(CoreView())).state
      ensures stream.sent == old(stream.sent) + Completes(streamId, old(CoreView())).frames
    {
      if outboundDone {
        return;
      }
      outboundDone := true;
      stream.SendFrame(CompleteFrame(streamId));
      if inboundDone {
        stream.Disconnect(streamId);
      }
    }

    method OnExtension(e: Signal)
      requires View().Live() && e.Extension?
      modifies stream
      ensures View() == old(View()) && stream.registry == old(stream.registry)
      ensures stream.sent == old(stream.sent) + ResponderExtends(streamId, old(CoreView()), e)
    {
      if outboundDone && inboundDone {
        return;
      }
      stream.SendFrame(ExtFrame(streamId, e));
    }

    method RequestMore(n: int)
      requires View().Live()
      modifies stream
      ensures View() == old(View()) && stream.registry == old(stream.registry)
      ensures stream.sent == old(stream.sent) + ResponderRequests(streamId, old(CoreView()), n)
    {
      if inboundDone {
        return;
      }
      stream.SendFrame(RequestNFrame(streamId, n));
    }

    method CancelStream()
      requires View().Live()
      modifies this, stream
      ensures OthersKept() && PhaseView() == old(PhaseView())
      ensures CoreView() == ResponderCancels(streamId, old(CoreView())).state
      ensures stream.sent == old(stream.sent) + ResponderCancels(streamId, old(CoreView())).frames
    {
      if inboundDone {
        return;
      }
      inboundDone := true;
      stream.SendFrame(CancelFrame(streamId));
      if outboundDone {
        stream.Disconnect(streamId);
      }
    }

    method Close(withError: bool)
      modifies this, receiver, fragments
      ensures PhaseView() == old(PhaseView())
      ensures CoreView() == ResponderCloses(old(PhaseView()), old(CoreView()), withError)
    {
      if inboundDone && outboundDone {
        return;
      }
      var wasInboundDone, wasOutboundDone := inboundDone, outboundDone;
      inboundDone, outboundDone := true, true;
      fragments.CancelFragments();
      if !hasReceiver {
        return;
      }
      if !wasOutboundDone {
        receiver.Cancel();
      }
      if !wasInboundDone {
        if withError {
          receiver.OnError();
        } else {
          receiver.OnComplete();
        }
      }
    }
  }
}
