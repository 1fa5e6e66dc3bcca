/** A request-stream or request-response requester against any peer: whatever frames arrive, in whatever
    order, between the calls of the application. */
module RequesterRule {
  import opened Options
  import opened Bytes
  import opened Frames
  import opened Reassembler
  import opened Fragmenter
  import opened FragmentShapes
  import opened Sending
  import opened StreamSignals
  import opened ChannelStreams
  import opened ChannelQueues
  import opened RequestStreams

  datatype Event =
    | Ready(id: nat)
    | Rejected
    | Asks(n: int)
    | Cancels
    | Extends(e: Signal)
    | Arrives(f: Frame)
    | ConnectionCloses(withError: bool)

  /** `connected` until the multiplexer closes, after which it routes no frames. `demanded` is the demand
      accepted from the application, `cancelled` says that it has cancelled a stream that was not done. */
  datatype Situation = Situation(rq: OneRequester, connected: bool, sent: seq<Frame>, demanded: int, cancelled: bool)

  function Beginning(single: bool, payload: Item, fragmentSize: nat, initialRequestN: int): Situation {
    Situation(NewOneRequester(single, payload, fragmentSize, initialRequestN), true, [],
              if single then 0 else initialRequestN, false)
  }

  function Closed(s: Situation, withError: bool): Situation {
    s.(connected := false, rq := if s.rq.half.registered then s.rq.(half := OneCloses(s.rq.half, withError)) else s.rq)
  }

  function Does(s: Situation, e: Effect<OneRequester>): Situation {
    s.(rq := e.state, sent := s.sent + e.frames)
  }

  /** An exception in a stream's `handle` closes the connection. */
  function Receives(s: Situation, f: Frame): Situation {
    var e := OneHandles(s.rq.single, s.rq.streamId, s.rq.half, f);
    var s' := s.(rq := s.rq.(half := e.state), sent := s.sent + e.frames);
    if e.state.thrown && !s.rq.half.thrown then Closed(s', true) else s'
  }

  function Happens(s: Situation, event: Event): (s': Situation)
    requires s.rq.Valid()
    ensures s'.rq.Valid()
  {
    var h := s.rq.half;
    match event
    case Ready(id) =>
      if s.rq.streamId > 0 || id == 0 then s
      else if s.connected then Does(s, OneReady(s.rq, id))
      else s.(rq := s.rq.(half := OneRejected(h)))
    case Rejected => if s.rq.streamId == 0 then s.(rq := s.rq.(half := OneRejected(h))) else s
    case Asks(n) => if s.rq.single then s else Does(s, OneRequests(s.rq, n)).(demanded := if h.done then s.demanded else s.demanded + n)
    case Cancels =>
      var e := OneCancels(s.rq.streamId, h);
      s.(rq := s.rq.(half := e.state), sent := s.sent + e.frames, cancelled := s.cancelled || !h.done)
    case Extends(e) => if e.Extension? then Does(s, OneExtends(s.rq, e)) else s
    case Arrives(f) => if s.connected && h.registered then Receives(s, f) else s
    case ConnectionCloses(withError) => if s.connected then Closed(s, withError) else s
  }

  function Unfold(s: Situation, events: seq<Event>): (s': Situation)
    requires s.rq.Valid()
    ensures s'.rq.Valid()
    decreases |events|
  {
    if events == [] then s else Unfold(Happens(s, events[0]), events[1..])
  }

  /** A CANCEL frame, if there is one, is the last frame, and the stream is done. */
  ghost predicate CancelIsLast(sent: seq<Frame>, done: bool) {
    forall i | 0 <= i < |sent| && sent[i].Cancel? :: i == |sent| - 1 && done
  }

  /** The demand that a list of frames carries. */
  function Asked(q: seq<Frame>): int {
    if q == [] then 0 else AskedBy(q[0]) + Asked(q[1..])
  }

  lemma {:induction false} AskedAppend(a: seq<Frame>, b: seq<Frame>)
    ensures Asked(a + b) == Asked(a) + Asked(b)
    decreases |a|
  {
    if a == [] {
      assert a + b == b;
    } else {
      assert (a + b)[1..] == a[1..] + b;
      AskedAppend(a[1..], b);
    }
  }

  // The invariant

  /** A receiver that has heard a terminal signal belongs to a stream that is done; a stream is done for no
      other reason than that, the application's `cancel`, or an exception. */
  ghost predicate HalfInv(h: Half, cancelled: bool) {
    && h.Heard().wellFormed && !h.Heard().cancelled
    && (h.Heard().terminated || cancelled ==> h.done) && !(h.Heard().terminated && cancelled)
    && (h.done ==> h.Heard().terminated || cancelled || h.thrown)
  }

  ghost predicate RuleInv(s: Situation) {
    var r, h := s.rq, s.rq.half;
    && r.Valid() && HalfInv(h, s.cancelled)
    && (h.registered ==> r.streamId > 0)
    && (s.connected && r.streamId > 0 ==> (h.registered <==> !h.done))
    && CancelIsLast(s.sent, h.done)
    && if r.streamId > 0 then Asked(s.sent) == s.demanded else s.sent == [] && r.initialRequestN == s.demanded
  }

  // Signals

  /** One signal more, on a stream that was not done. */
  lemma HearsSignal(h: Half, signal: Signal, h': Half)
    requires HalfInv(h, false) && !h.done && signal != Cancelled
    requires h'.signals == h.signals + [signal] && h'.done == Terminal(signal)
    ensures HalfInv(h', false)
  {
    PushSignal(h.signals, signal);
  }

  lemma GetsPayloadKeeps(single: bool, h: Half, f: Frame)
    requires HalfInv(h, false) && h.registered && !h.done && f.Payload?
    ensures var h' := OneGetsPayload(single, h, f); HalfInv(h', false) && h'.registered == !h'.done
  {
    var h' := OneGetsPayload(single, h, f);
    var last := single || HasComplete(f.flags);
    if last && !HasNext(f.flags) {
      HearsSignal(h, Completed, h');
    } else if Assembled(h.holder, f).Some? {
      HearsSignal(h, Signal.Next(Assembled(h.holder, f).value, last), h');
    }
  }

  lemma ClosesKeeps(h: Half, withError: bool, cancelled: bool)
    requires HalfInv(h, cancelled)
    ensures var h' := OneCloses(h, withError);
            HalfInv(h', cancelled) && h'.done && h'.registered == h.registered && (h.done ==> h' == h)
  {
    if !h.done {
      HearsSignal(h, if withError then Failed else Completed, OneCloses(h, withError));
    }
  }

  /** What handling a frame may result in. */
  ghost predicate Handled(id: nat, e: Effect<Half>) {
    && HalfInv(e.state, false) && e.state.registered == !e.state.done
    && (e.frames == [] || (e.frames == [CancelFrame(id)] && e.state.done))
  }

  lemma FailsKeeps(id: nat, h: Half)
    requires HalfInv(h, false) && h.registered && !h.done
    ensures Handled(id, OneFails(id, h))
  {
    ClosesKeeps(h, true, false);
  }

  lemma HearsKeeps(id: nat, h: Half, signal: Signal, h': Half)
    requires HalfInv(h, false) && !h.done && signal != Cancelled
    requires h'.signals == h.signals + [signal] && h'.done == Terminal(signal) && h'.registered == !h'.done
    ensures Handled(id, Effect(h', []))
  {
    HearsSignal(h, signal, h');
  }

  lemma HandlesKeeps(single: bool, id: nat, h: Half, f: Frame)
    requires HalfInv(h, false) && h.registered && !h.done
    ensures Handled(id, OneHandles(single, id, h, f))
  {
    hide HeardFrom;
    var h' := OneHandles(single, id, h, f).state;
    match f
    case Payload(_, _, _, _) => GetsPayloadKeeps(single, h, f);
    case Error(_, _, _, _) => HearsKeeps(id, h, Failed, h');
    case Ext(_, _, _, _) =>
      if h.holder.hasFragments {
        FailsKeeps(id, h);
      } else {
        HearsKeeps(id, h, ExtensionOf(f), h');
      }
    case _ => FailsKeeps(id, h);
  }

  lemma PayloadLeavesUntold(single: bool, h: Half, f: Frame)
    requires !h.Heard().terminated && !h.done && f.Payload?
    ensures var h' := OneGetsPayload(single, h, f);
            h'.done && !h'.Heard().terminated
            <==> (single || HasComplete(f.flags)) && HasNext(f.flags)
                 && h.holder.hasFragments && h.holder.data.Some? && f.data.None?
  {
    PushSignal(h.signals, Completed);
    var p := Assembled(h.holder, f);
    if p.Some? {
      PushSignal(h.signals, Signal.Next(p.value, single || HasComplete(f.flags)));
    }
  }

  lemma OthersTell(single: bool, id: nat, h: Half, f: Frame)
    requires !h.done && !f.Payload?
    ensures var h' := OneHandles(single, id, h, f).state; h'.done ==> h'.Heard().terminated
  {
    PushSignal(h.signals, Failed);
  }

  /** Exactly the frames that finish a stream without a word to its receiver: the last fragment comes
      without data after fragments with data, and putting them together throws. */
  lemma LeftUntold(single: bool, id: nat, h: Half, f: Frame)
    requires HalfInv(h, false) && h.registered && !h.done
    ensures var h' := OneHandles(single, id, h, f).state;
            h'.done && !h'.Heard().terminated
            <==> f.Payload? && (HasComplete(f.flags) || (single && !HasFollows(f.flags))) && HasNext(f.flags)
                 && h.holder.hasFragments && h.holder.data.Some? && f.data.None?
  {
    if f.Payload? {
      PayloadLeavesUntold(single, h, f);
    } else {
      OthersTell(single, id, h, f);
    }
  }

  /** So the rule leaves a gap: a receiver that is never told how its stream ended. */
  lemma ReceiverNeverTold(payload: Item)
    ensures var fragment := Payload(1, PayloadFlags(true, false, true, false), Some([1]), None);
            var last := Payload(1, PayloadFlags(true, true, false, false), None, None);
            var s := Unfold(Beginning(false, payload, 0, 1), [Ready(1), Arrives(fragment), Arrives(last)]);
            s.rq.half.done && !s.connected && !s.cancelled && s.rq.half.signals == []
  {
    hide SentFrames, Unfold;
    var fragment := Payload(1, PayloadFlags(true, false, true, false), Some([1]), None);
    var last := Payload(1, PayloadFlags(true, true, false, false), None, None);
    var s0 := Beginning(false, payload, 0, 1);
    var s1 := Happens(s0, Ready(1));
    var s2 := Happens(s1, Arrives(fragment));
    var s3 := Happens(s2, Arrives(last));
    assert s3.rq.half.done && !s3.connected && !s3.cancelled && s3.rq.half.signals == [];
    ThreeEvents(s0, Ready(1), Arrives(fragment), Arrives(last));
  }

  lemma ThreeEvents(s: Situation, a: Event, b: Event, c: Event)
    requires s.rq.Valid()
    ensures Unfold(s, [a, b, c]) == Happens(Happens(Happens(s, a), b), c)
  {
    var s1 := Happens(s, a);
    var s2 := Happens(s1, b);
    assert [a, b, c][1..] == [b, c] && [b, c][1..] == [c] && [c][1..] == [];
    assert Unfold(s, [a, b, c]) == Unfold(s1, [b, c]);
    assert Unfold(s1, [b, c]) == Unfold(s2, [c]);
    assert Unfold(s2, [c]) == Happens(s2, c);
  }

  // Frames

  ghost predicate NoCancel(frames: seq<Frame>) {
    forall i | 0 <= i < |frames| :: !frames[i].Cancel?
  }

  lemma SendsMore(sent: seq<Frame>, frames: seq<Frame>, done: bool)
    requires CancelIsLast(sent, false)
    requires NoCancel(frames) || (|frames| == 1 && done)
    ensures CancelIsLast(sent + frames, done)
  {
  }

  /** PAYLOAD frames carry no demand. */
  lemma {:induction false} PayloadsAskNothing(frames: seq<Frame>)
    requires forall i | 0 <= i < |frames| :: frames[i].Payload?
    ensures Asked(frames) == 0
    decreases |frames|
  {
    if frames != [] {
      PayloadsAskNothing(frames[1..]);
    }
  }

  lemma RunIsPayloads(frames: seq<Frame>, id: int, size: nat, isComplete: bool, finished: bool)
    requires Run(frames, id, size, isComplete, finished)
    ensures forall i | 0 <= i < |frames| :: frames[i].Payload?
  {
    forall i | 0 <= i < |frames| ensures frames[i].Payload? {
      if i < |frames| - 1 {
        assert frames[..|frames| - 1][i] == frames[i];
      }
    }
  }

  /** Only the first frame of a request carries its demand. */
  lemma RequestAsks(single: bool, n: int, id: int, item: Item, size: nat)
    requires ValidFragmentSize(size) && (single ==> n == 0)
    ensures Asked(SentFrames(if single then ResponseKind else StreamKind(n), id, item, size)) == n
  {
    var kind := if single then ResponseKind else StreamKind(n);
    var frames := SentFrames(kind, id, item, size);
    if IsFragmentable(item.data, item.metadata, size, kind) {
      FragmentsWellShaped(kind, id, item.data, item.metadata, size, item.complete);
      RunIsPayloads(frames[1..], id, size, item.complete, item.data != [] || item.complete);
      PayloadsAskNothing(frames[1..]);
    } else {
      assert frames[1..] == [];
    }
  }

  lemma ReadyFrames(r: OneRequester, id: nat)
    requires r.Valid() && id > 0 && !r.half.done
    ensures var frames := OneReady(r, id).frames; NoCancel(frames) && Asked(frames) == r.initialRequestN
  {
    var request := SentFrames(r.RequestKind(), id, r.request, r.fragmentSize);
    RequestAsks(r.single, r.initialRequestN, id, r.request, r.fragmentSize);
    if r.extension.Some? {
      var f := ExtFrame(id, r.extension.value);
      AskedAppend(request, [f]);
      assert [f][1..] == [];
    } else {
      assert OneReady(r, id).frames == request;
    }
  }

  lemma OneFrameAsks(f: Frame)
    ensures Asked([f]) == AskedBy(f)
  {
    assert [f][1..] == [];
  }

  // Each event

  lemma ClosedKeeps(s: Situation, withError: bool)
    requires RuleInv(s)
    ensures RuleInv(Closed(s, withError))
  {
    ClosesKeeps(s.rq.half, withError, s.cancelled);
  }

  lemma ReceivesKeeps(s: Situation, f: Frame)
    requires RuleInv(s) && s.connected && s.rq.half.registered
    ensures RuleInv(Receives(s, f))
  {
    hide HeardFrom;
    var e := OneHandles(s.rq.single, s.rq.streamId, s.rq.half, f);
    var s1 := s.(rq := s.rq.(half := e.state), sent := s.sent + e.frames);
    HandlesKeeps(s.rq.single, s.rq.streamId, s.rq.half, f);
    SendsMore(s.sent, e.frames, e.state.done);
    AskedAppend(s.sent, e.frames);
    OneFrameAsks(CancelFrame(s.rq.streamId));
    assert RuleInv(s1);
    ClosedKeeps(s1, true);
  }

  lemma ReadyKeeps(s: Situation, id: nat)
    requires RuleInv(s)
    ensures RuleInv(Happens(s, Ready(id)))
  {
    if s.rq.streamId == 0 && id > 0 {
      if !s.connected {
        RejectedKeeps(s);
      } else if !s.rq.half.done {
        ReadyFrames(s.rq, id);
        SendsMore([], OneReady(s.rq, id).frames, false);
        assert [] + OneReady(s.rq, id).frames == OneReady(s.rq, id).frames;
      } else {
        assert s.sent + [] == s.sent;
      }
    }
  }

  lemma RejectedKeeps(s: Situation)
    requires RuleInv(s) && s.rq.streamId == 0
    ensures RuleInv(s.(rq := s.rq.(half := OneRejected(s.rq.half))))
  {
    if !s.rq.half.done {
      HearsSignal(s.rq.half, Failed, OneRejected(s.rq.half));
    }
  }

  lemma CallKeeps(s: Situation, event: Event)
    requires RuleInv(s) && (event.Asks? || event.Cancels? || event.Extends?)
    ensures RuleInv(Happens(s, event))
  {
    var h, id := s.rq.half, s.rq.streamId;
    assert s.sent + [] == s.sent;
    if !h.done && id > 0 && (event.Extends? ==> event.e.Extension?) {
      var f := match event
        case Asks(n) => RequestNFrame(id, n)
        case Extends(e) => ExtFrame(id, e)
        case _ => CancelFrame(id);
      SendsMore(s.sent, [f], event.Cancels?);
      AskedAppend(s.sent, [f]);
      OneFrameAsks(f);
    }
  }

  lemma EventKeeps(s: Situation, event: Event)
    requires RuleInv(s)
    ensures RuleInv(Happens(s, event))
  {
    match event
    case Ready(id) => ReadyKeeps(s, id);
    case Rejected => if s.rq.streamId == 0 { RejectedKeeps(s); }
    case Arrives(f) => if s.connected && s.rq.half.registered { ReceivesKeeps(s, f); }
    case ConnectionCloses(withError) => ClosedKeeps(s, withError);
    case _ => CallKeeps(s, event);
  }

  lemma {:induction false} UnfoldKeeps(s: Situation, events: seq<Event>)
    requires RuleInv(s)
    ensures RuleInv(Unfold(s, events))
    decreases |events|
  {
    if events != [] {
      EventKeeps(s, events[0]);
      UnfoldKeeps(Happens(s, events[0]), events[1..]);
    }
  }

  // The rule

  /** Whatever happens, the receiver gets at most one terminal signal and no element after it; a CANCEL
      frame is the last frame sent; and the registry routes frames to exactly the streams that are ready
      and not done. A stream is done when its receiver has been told so, or the application has cancelled
      it, but not both, or else after an exception. */
  lemma SingleTerminal(single: bool, payload: Item, size: nat, n: int, events: seq<Event>)
    requires ValidFragmentSize(size)
    ensures var s := Unfold(Beginning(single, payload, size, n), events);
            var h := s.rq.half;
            && WellFormedLog(h.signals) && CancelIsLast(s.sent, h.done)
            && (s.connected ==> (h.registered <==> s.rq.streamId > 0 && !h.done))
            && (h.Heard().terminated || s.cancelled ==> h.done) && !(h.Heard().terminated && s.cancelled)
            && (h.done && !h.thrown ==> h.Heard().terminated || s.cancelled)
  {
    UnfoldKeeps(Beginning(single, payload, size, n), events);
    WellFormedMeans(Unfold(Beginning(single, payload, size, n), events).rq.half.signals);
  }

  lemma DoneStays(s: Situation, event: Event)
    requires RuleInv(s) && s.rq.half.done
    ensures var s' := Happens(s, event);
            s'.rq.half.done && s'.rq.half.signals == s.rq.half.signals && s'.sent == s.sent
  {
    assert s.sent + [] == s.sent;
  }

  /** A stream that is done stays as it is: no signal, no frame, whatever else happens. */
  lemma {:induction false} DoneIsFinal(s: Situation, events: seq<Event>)
    requires RuleInv(s) && s.rq.half.done
    ensures var s' := Unfold(s, events);
            s'.rq.half.done && s'.rq.half.signals == s.rq.half.signals && s'.sent == s.sent
    decreases |events|
  {
    if events != [] {
      EventKeeps(s, events[0]);
      DoneStays(s, events[0]);
      DoneIsFinal(Happens(s, events[0]), events[1..]);
    }
  }

  /** The demand sent is all the demand there was: that of the constructor and all that was requested
      while the stream was not done. */
  lemma DemandIsSent(single: bool, payload: Item, size: nat, n: int, events: seq<Event>)
    requires ValidFragmentSize(size)
    ensures var s := Unfold(Beginning(single, payload, size, n), events);
            if s.rq.streamId > 0 then Asked(s.sent) == s.demanded
            else s.sent == [] && s.rq.initialRequestN == s.demanded
  {
    UnfoldKeeps(Beginning(single, payload, size, n), events);
  }
}
