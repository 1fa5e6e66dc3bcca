/** What the ends of a stream send, call by call and frame by frame, and what an end gives the stream up
    over, whatever its peer sends: also frames that no end of this library would send. */
module AnyPeer {
  import opened Options
  import opened Bytes
  import opened Frames
  import opened Reassembler
  import opened Fragmenter
  import opened FragmentShapes
  import opened Sending
  import opened StreamSignals
  import opened ChannelStreams
  import ChannelSystem
  import opened ChannelQueues
  import opened ChannelDeliveries
  import opened RequestStreams
  import RequestPair

  /** The frames that an end of a stream takes; any other is unexpected. */
  predicate Expected(f: Frame) {
    f.Payload? || f.Cancel? || f.RequestN? || f.Error? || f.Ext?
  }

  ghost predicate SaysCancel(q: seq<Frame>) {
    exists f | f in q :: f.Cancel?
  }

  ghost predicate SaysError(q: seq<Frame>) {
    exists f | f in q :: f.Error?
  }

  /** Every frame is about the stream, and every ERROR has the code. */
  ghost predicate Addressed(q: seq<Frame>, id: int, code: int) {
    forall f | f in q :: f.StreamId() == id && (f.Error? ==> f == Error(id, NO_FLAGS, code, None))
  }

  // Payloads

  lemma {:induction false} RunIsAddressed(q: seq<Frame>, id: int, size: nat, isComplete: bool, finished: bool, code: int)
    requires FragmentShapes.Run(q, id, size, isComplete, finished)
    ensures Addressed(q, id, code) && !SaysCancel(q) && !SaysError(q)
    decreases |q|
  {
    RunHead(q, id, size, isComplete, finished);
    if |q| > 1 {
      RunIsAddressed(q[1..], id, size, isComplete, finished, code);
    }
    assert q == [q[0]] + q[1..];
  }

  /** Whatever is sent of a payload, it is about the stream, and neither CANCEL nor ERROR. */
  lemma PayloadIsAddressed(kind: Kind, id: int, item: Item, size: nat, code: int)
    requires ValidFragmentSize(size)
    ensures var q := SentFrames(kind, id, item, size); Addressed(q, id, code) && !SaysCancel(q) && !SaysError(q)
  {
    var q := SentFrames(kind, id, item, size);
    if IsFragmentable(item.data, item.metadata, size, kind) {
      FragmentsWellShaped(kind, id, item.data, item.metadata, size, item.complete);
      var finished := item.data != [] || item.complete;
      if kind.PayloadKind? {
        RunIsAddressed(q, id, size, item.complete, finished, code);
      } else {
        RunIsAddressed(q[1..], id, size, item.complete, finished, code);
        assert q == [q[0]] + q[1..];
      }
    }
  }

  lemma OneAtMost(q: seq<Frame>)
    requires |q| <= 1
    ensures SaysCancel(q) <==> q != [] && q[0].Cancel?
    ensures SaysError(q) <==> q != [] && q[0].Error?
  {
    if q != [] {
      assert q[0] in q;
    }
  }

  lemma ThenAnother(q: seq<Frame>, f: Frame, id: int, code: int)
    requires Addressed(q, id, code) && !SaysCancel(q) && !SaysError(q) && f.StreamId() == id && !f.Cancel? && !f.Error?
    ensures Addressed(q + [f], id, code) && !SaysCancel(q + [f]) && !SaysError(q + [f])
  {
  }

  // A channel's requester

  /** A requester sends CANCEL exactly when its application cancels an open inbound half, and ERROR exactly
      when it raises an error, or cancels what only the outbound half was left of: code 0x201 or 0x203. */
  lemma RequesterSays(r: Requester, up: bool, call: ChannelSystem.Call)
    requires r.Valid()
    ensures var e, c := ChannelSystem.RequesterCalled(r, up, call), r.core;
            && Addressed(e.frames, e.state.streamId, if call.Errs? then 0x201 else 0x203)
            && (SaysCancel(e.frames) <==> call.Cancels? && r.streamId > 0 && !c.inboundDone)
            && (SaysError(e.frames) <==> r.streamId > 0 && !c.outboundDone && (call.Errs? || (call.Cancels? && c.inboundDone)))
            && (call.Cancels? && e.frames != [] ==> e.state.core.holder == EMPTY && !e.state.core.registered)
  {
    hide SentFrames;
    var frames := ChannelSystem.RequesterCalled(r, up, call).frames;
    match call
    case Ready(id) =>
      var request := SentFrames(ChannelKind(r.initialRequestN), id, r.Request(), r.fragmentSize);
      PayloadIsAddressed(ChannelKind(r.initialRequestN), id, r.Request(), r.fragmentSize, 0x203);
      if r.streamId == 0 && id > 0 && r.extension.Some? {
        ThenAnother(request, ExtFrame(id, r.extension.value), id, 0x203);
      }
      assert request + [] == request;
    case Sends(item) => PayloadIsAddressed(PayloadKind, r.streamId, item, r.fragmentSize, 0x203);
    case _ =>
      OneAtMost(frames);
  }

  /** A requester gives the stream up over an unexpected frame, and over REQUEST_N between fragments. It says
      CANCEL, tells its application of each open half, and holds no fragment any more. */
  lemma RequesterGivesUp(id: nat, c: Core, f: Frame)
    ensures var e := RequesterHandles(id, c, f);
            && e.frames == (if !Expected(f) || (f.RequestN? && !c.outboundDone && c.holder.hasFragments)
                            then [Cancel(id, NO_FLAGS)] else [])
            && (e.frames != [] ==>
                  && e.state.inboundDone && e.state.outboundDone && !e.state.registered
                  && ((c.inboundDone && c.outboundDone) || e.state.holder == EMPTY)
                  && HasQuit(e.state.Heard(), c.Heard(), c.outboundDone, c.inboundDone))
            && (f.Error? ==> e.state.inboundDone && e.state.outboundDone && !e.state.registered && e.state.holder == EMPTY)
  {
    hide HeardFrom;
    Quits(c.Done().(holder := EMPTY), c.outboundDone, c.inboundDone);
  }

  // A channel's responder

  /** A responder sends CANCEL exactly when its application cancels an open inbound half, and ERROR exactly
      when it raises an error with its outbound half open: code 0x201. */
  lemma ResponderSays(r: Responder, call: ChannelSystem.Call)
    requires r.Valid() && r.Live()
    ensures var e, c := ChannelSystem.ResponderCalled(r, call), r.core;
            && Addressed(e.frames, r.streamId, 0x201)
            && (SaysCancel(e.frames) <==> call.Cancels? && !c.inboundDone)
            && (SaysError(e.frames) <==> call.Errs? && !c.outboundDone)
  {
    hide SentFrames;
    var frames := ChannelSystem.ResponderCalled(r, call).frames;
    if call.Sends? {
      PayloadIsAddressed(PayloadKind, r.streamId, call.item, r.fragmentSize, 0x201);
    } else {
      OneAtMost(frames);
    }
  }

  /** A responder gives the stream up over an unexpected frame, and over REQUEST_N and EXT between fragments
      and while it puts the request together. It says ERROR with code 0x203 and holds no fragment any more;
      and it tells its application, once there is a receiver, of each open half. */
  lemma ResponderGivesUp(id: nat, phase: Phase, c: Core, f: Frame)
    requires phase.Assembling? || phase.Running?
    ensures var e := ResponderHandles(id, phase, c, f); var c' := e.state.core;
            && e.frames == (if !Expected(f) || ((f.RequestN? || f.Ext?) && (phase.Assembling? || c.holder.hasFragments))
                            then [Error(id, NO_FLAGS, 0x203, None)] else [])
            && (e.frames != [] || f.Error? || f.Cancel? ==>
                  && c'.inboundDone && c'.outboundDone && !c'.registered && e.state.phase == phase
                  && ((c.inboundDone && c.outboundDone) || c'.holder == EMPTY)
                  && if phase.Assembling? then c'.signals == c.signals
                     else HasQuit(c'.Heard(), c.Heard(), c.outboundDone, c.inboundDone))
  {
    hide HeardFrom, ResponderGetsPayload, Add;
    Quits(c.Done().(registered := false, holder := EMPTY), c.outboundDone, c.inboundDone);
  }

  /** A request makes a responder of its stream, which the registry knows from then on. */
  lemma BornUnderItsId(single: bool, size: nat, f: Frame)
    ensures f.RequestChannel? && f.streamId > 0 ==>
              var r := ResponderBorn(size, f); r.streamId == f.streamId && r.fragmentSize == size && r.core.registered
    ensures (f.RequestStream? || f.RequestResponse?) && f.streamId > 0 ==>
              var r := OneBorn(single, size, f); r.streamId == f.streamId && r.fragmentSize == size && r.serving.half.registered
  {
  }

  /** COMPLETE together with FOLLOWS is the end of the stream to a requester, and a fragment to a responder. */
  lemma CompleteWithFollows(id: nat, c: Core, phase: Phase, f: Frame)
    requires (phase.Assembling? || phase.Running?) && f.Payload? && HasComplete(f.flags) && HasFollows(f.flags)
    ensures var c1, c2 := RequesterHandles(id, c, f).state, ResponderHandles(id, phase, c, f).state.core;
            && c1.inboundDone && (c1.signals != c.signals || c1.thrown)
            && c2.inboundDone == c.inboundDone && c2.signals == c.signals && (c2.thrown || c2.holder.hasFragments)
  {
  }

  /** A request whose first fragment says COMPLETE is the last element of its direction, whatever its last
      fragment says; the handler is told so, and of the demand of the first fragment. */
  lemma CompleteIsKept(first: Frame, size: nat, id: nat, f: Frame)
    requires first.RequestChannel? && first.streamId > 0 && HasFollows(first.flags) && f.Payload? && !HasFollows(f.flags)
    ensures var r := ResponderBorn(size, first);
            && r.phase.Assembling?
            && var s := ResponderHandles(id, r.phase, r.core, f).state;
               !s.core.thrown ==>
                 && s.core.signals != [] && s.core.signals[0].Started? && s.core.signals[0].initialRequestN == first.requestN
                 && s.core.signals[0].last == s.core.inboundDone == (HasComplete(first.flags) || HasComplete(f.flags))
  {
  }

  // The ends with one flag

  /** A requester sends CANCEL exactly when its application cancels a stream that is not done, and no ERROR. */
  lemma OneRequesterSays(r: OneRequester, up: bool, call: ChannelSystem.Call)
    requires r.Valid()
    ensures var e := RequestPair.OneRequesterCalled(r, up, call);
            && Addressed(e.frames, e.state.streamId, 0) && !SaysError(e.frames)
            && (SaysCancel(e.frames) <==> call.Cancels? && r.streamId > 0 && !r.half.done)
            && (call.Cancels? && e.frames != [] ==> e.state.half.holder == EMPTY && !e.state.half.registered)
  {
    hide SentFrames;
    var frames := RequestPair.OneRequesterCalled(r, up, call).frames;
    if call.Ready? {
      var request := SentFrames(r.RequestKind(), call.id, r.request, r.fragmentSize);
      PayloadIsAddressed(r.RequestKind(), call.id, r.request, r.fragmentSize, 0);
      if r.streamId == 0 && call.id > 0 && r.extension.Some? {
        ThenAnother(request, ExtFrame(call.id, r.extension.value), call.id, 0);
      }
      assert request + [] == request;
    } else {
      OneAtMost(frames);
    }
  }

  /** A requester gives the stream up over any frame but PAYLOAD, ERROR and EXT, and over EXT between
      fragments: it says CANCEL and tells its application of the error. */
  lemma OneRequesterGivesUp(single: bool, id: nat, h: Half, f: Frame)
    ensures var e := OneHandles(single, id, h, f);
            && e.frames == (if !(f.Payload? || f.Error? || f.Ext?) || (f.Ext? && h.holder.hasFragments)
                            then [Cancel(id, NO_FLAGS)] else [])
            && (e.frames != [] ==>
                  && e.state.done && !e.state.registered && (h.done || e.state.holder == EMPTY)
                  && e.state.signals == h.signals + (if h.done then [] else [Failed]))
            && (f.Error? ==> e.state.done && !e.state.registered && e.state.holder == EMPTY)
  {
    assert h.signals + [] == h.signals;
  }

  /** Which payloads finish a requester: those that say COMPLETE and, for a single one, any that is not
      followed by another; and what it is told of them, when the reassembler does not throw. */
  lemma OneRequesterReads(single: bool, id: nat, h: Half, f: Frame)
    requires f.Payload?
    ensures var h' := OneHandles(single, id, h, f).state;
            var whole := HasComplete(f.flags) || !HasFollows(f.flags);
            var last := HasComplete(f.flags) || (single && whole);
            && h'.done == (h.done || last) && h'.registered == (h.registered && !last)
            && (h'.thrown == h.thrown ==>
                  && (!whole ==> h'.signals == h.signals)
                  && (whole && last && !HasNext(f.flags) ==> h'.signals == h.signals + [Completed])
                  && (whole && !(last && !HasNext(f.flags)) && !h.thrown ==>
                        |h'.signals| == |h.signals| + 1 && h'.signals[|h.signals|].Next?
                        && h'.signals[|h.signals|].last == last))
  {
  }

  /** A responder sends ERROR exactly when its application raises an error on a stream that is not done,
      with code 0x201, and never CANCEL. */
  lemma OneResponderSays(r: OneResponder, call: ChannelSystem.Call)
    requires ValidFragmentSize(r.fragmentSize)
    ensures var e := RequestPair.OneResponderCalled(r, call);
            && Addressed(e.frames, r.streamId, 0x201) && !SaysCancel(e.frames)
            && (SaysError(e.frames) <==> call.Errs? && !r.serving.half.done)
  {
    hide SentFrames;
    var frames := RequestPair.OneResponderCalled(r, call).frames;
    if call.Sends? {
      PayloadIsAddressed(PayloadKind, r.streamId, call.item.(complete := r.single || call.item.complete), r.fragmentSize, 0x201);
    } else {
      OneAtMost(frames);
    }
  }

  /** While a responder puts the request together it takes fragments only, afterwards demand and extensions
      only. It is finished by any other frame, and answers ERROR with code 0x203, unless that frame was
      CANCEL or ERROR; it holds no fragment any more, and cancels its application, if it serves. */
  lemma OneResponderGivesUp(single: bool, id: nat, n: int, stage: Stage, h: Half, f: Frame)
    requires !stage.Awaited?
    ensures var e := ResponderTurns(single, id, n, stage, h, f); var h' := e.state.half;
            var takes := if stage.Gathering? || h.holder.hasFragments then f.Payload? else f.Ext? || (f.RequestN? && !single);
            && e.frames == (if takes || f.Cancel? || f.Error? then [] else [Error(id, NO_FLAGS, 0x203, None)])
            && (!takes ==>
                  && h'.done && !h'.registered && h'.holder == EMPTY && e.state.stage == stage
                  && h'.signals == h.signals + (if stage.Served? then [Cancelled] else []))
  {
    assert h.signals + [] == h.signals;
  }

  /** The connection closes: a requester that is not done is, and its application hears of it; a responder
      cancels its application and is not done, so that what it sends goes to the closed connection. */
  lemma OneFlagClosing(h: Half, withError: bool, stage: Stage)
    ensures var h', g := OneCloses(h, withError), OneResponderCloses(stage, h);
            && h'.done && (h.done || h'.holder == EMPTY) && h'.registered == h.registered
            && h'.signals == h.signals + (if h.done then [] else [if withError then Failed else Completed])
            && g.done == h.done && (h.done || g.holder == EMPTY) && g.registered == h.registered
            && g.signals == h.signals + (if !h.done && stage.Served? then [Cancelled] else [])
  {
    assert h.signals + [] == h.signals;
  }
}
