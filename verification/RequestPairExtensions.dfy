/** The extensions of a request-stream or request-response arrive in order, each once. */
module RequestPairExtensions {
  import opened Options
  import opened Bytes
  import opened Frames
  import opened Reassembler
  import opened Fragmenter
  import opened Sending
  import opened StreamSignals
  import opened ChannelStreams
  import opened ChannelQueues
  import opened RequestStreams
  import ChannelSystem
  import opened ChannelInvariant
  import opened RequestPair
  import opened RequestPairMoves
  import opened RequestPairRuns
  import opened RequestPairTheorems
  import opened Extensions

  function Told(h: Half): seq<Signal> {
    ExtensionsTold(h.signals)
  }

  /** Whether the responder's end takes frames, or will. */
  predicate Listens(s: Pair) {
    s.responderUp && (s.rs.serving.stage.Awaited? || s.rs.serving.half.registered)
  }

  ghost predicate Relayed(s: Pair) {
    var r := s.record;
    if s.rq.streamId == 0 then
      && Told(s.rq.half) == [] && r.replied == []
      && r.extended == if s.rq.extension.Some? then [s.rq.extension.value] else []
    else
      && Relays(Listens(s), Told(s.rs.serving.half), ExtensionsIn(s.toResponder), r.extended)
      && Relays(s.requesterUp && s.rq.half.registered, Told(s.rq.half), ExtensionsIn(s.toRequester), r.replied)
  }

  lemma NothingIn()
    ensures ExtensionsIn([]) == [] && ExtensionsTold([]) == []
  {
  }

  // Calls

  lemma RequesterCallExtends(r: OneRequester, up: bool, call: ChannelSystem.Call, before: seq<Signal>)
    requires r.Valid() && r.streamId > 0
    ensures var e := OneRequesterCalled(r, up, call);
            && Told(e.state.half) == Told(r.half) && OneExtended(r, call, before) == before + ExtensionsIn(e.frames)
            && e.state.streamId == r.streamId && (e.state.half.registered ==> r.half.registered)
  {
    hide ExtensionsTold, ExtensionsIn, SentFrames;
    var frames := OneRequesterCalled(r, up, call).frames;
    NothingIn();
    if frames != [] {
      assert frames == [frames[0]];
      ExtensionInOne(frames[0]);
    }
  }

  lemma EarlyCallExtends(r: OneRequester, up: bool, call: ChannelSystem.Call, before: seq<Signal>)
    requires r.Valid() && r.streamId == 0
    requires before == if r.extension.Some? then [r.extension.value] else []
    ensures var e, after := OneRequesterCalled(r, up, call), OneExtended(r, call, before);
            && Told(e.state.half) == Told(r.half)
            && if e.state.streamId == 0 then after == if e.state.extension.Some? then [e.state.extension.value] else []
               else after == before == ExtensionsIn(e.frames)
  {
    hide ExtensionsTold, ExtensionsIn, OneReady;
    ExtensionToldNext(r.half.signals, Failed);
    if call.Ready? && call.id > 0 {
      ReadySendsExtension(r, call.id);
    }
  }

  /** The extension that was kept follows the request. */
  lemma ReadySendsExtension(r: OneRequester, id: nat)
    requires r.Valid() && r.streamId == 0 && id > 0
    ensures var e := OneReady(r, id);
            && e.state.extension == r.extension && e.state.half.signals == r.half.signals
            && (e.state.streamId == 0 || ExtensionsIn(e.frames) == if r.extension.Some? then [r.extension.value] else [])
  {
    hide ExtensionsIn, SentFrames, AllCarry;
    var request := SentFrames(r.RequestKind(), id, r.request, r.fragmentSize);
    RequestSum(r.RequestKind(), id, r.request, r.fragmentSize);
    NoExtensionAmongPayloads(request);
    NothingIn();
    if r.extension.Some? {
      ExtensionReadBack(id, r.extension.value);
      ExtensionsAppend(request, [ExtFrame(id, r.extension.value)]);
    } else {
      ExtensionsAppend(request, []);
    }
  }

  lemma ResponderCallExtends(r: OneResponder, call: ChannelSystem.Call, before: seq<Signal>)
    requires ValidFragmentSize(r.fragmentSize)
    ensures var e := OneResponderCalled(r, call);
            && Told(e.state) == Told(r.serving.half) && OneReplied(r.serving.half, call, before) == before + ExtensionsIn(e.frames)
            && (e.state.registered ==> r.serving.half.registered)
  {
    hide ExtensionsTold, ExtensionsIn, SentFrames, AllCarry;
    var frames := OneResponderCalled(r, call).frames;
    NothingIn();
    if call.Sends? {
      var item := call.item.(complete := r.single || call.item.complete);
      ElementSum(r.streamId, item, r.fragmentSize);
      NoExtensionAmongPayloads(SentFrames(PayloadKind, r.streamId, item, r.fragmentSize));
    } else if frames != [] {
      assert frames == [frames[0]];
      ExtensionInOne(frames[0]);
    }
  }

  // Frames

  /** An extension that is not told is refused: the end takes no more frames. */
  ghost predicate Passes(h: Half, f: Frame, h': Half) {
    && (Told(h') == Told(h) + ExtensionsIn([f]) || (Told(h') == Told(h) && (h'.thrown || !h'.registered)))
    && (h'.registered ==> h.registered)
  }

  lemma RequesterHandlesExtension(single: bool, id: nat, h: Half, f: Frame)
    ensures var e := OneHandles(single, id, h, f); Passes(h, f, e.state) && ExtensionsIn(e.frames) == []
  {
    hide ExtensionsTold, ExtensionsIn, Assembled, Add;
    ExtensionInOne(f);
    ExtensionInOne(CancelFrame(id));
    NothingIn();
    ExtensionToldNext(h.signals, Failed);
    ExtensionToldNext(h.signals, Completed);
    match f
    case Payload(_, flags, _, _) =>
      if Assembled(h.holder, f).Some? {
        ExtensionToldNext(h.signals, Signal.Next(Assembled(h.holder, f).value, single || HasComplete(flags)));
      }
    case Ext(_, _, _, _) => ExtensionToldNext(h.signals, ExtensionOf(f));
    case _ =>
  }

  lemma RequesterFrameExtends(single: bool, id: nat, h: Half, f: Frame)
    ensures var e := OneRequesterTurns(single, id, h, f); Passes(h, f, e.state) && ExtensionsIn(e.frames) == []
  {
    hide ExtensionsTold, ExtensionsIn, OneHandles;
    var h1 := OneHandles(single, id, h, f).state;
    RequesterHandlesExtension(single, id, h, f);
    ExtensionToldNext(h1.signals, Failed);
  }

  lemma ResponderHandlesExtension(single: bool, id: nat, n: int, stage: Stage, g: Half, f: Frame)
    requires !stage.Awaited?
    ensures var e := ResponderTurns(single, id, n, stage, g, f);
            Passes(g, f, e.state.half) && ExtensionsIn(e.frames) == [] && !e.state.stage.Awaited?
  {
    hide ExtensionsTold, ExtensionsIn, Reassemble, Add;
    ExtensionInOne(f);
    ExtensionInOne(ErrorFrame(id, CANCELED_CODE));
    NothingIn();
    ExtensionToldNext(g.signals, Cancelled);
    match f
    case Payload(_, _, data, metadata) =>
      if Reassemble(g.holder, data, metadata).Some? {
        ExtensionToldNext(g.signals, Started(Reassemble(g.holder, data, metadata).value, n, false));
      }
    case RequestN(_, _, m) => ExtensionToldNext(g.signals, Requested(m));
    case Ext(_, _, _, _) => ExtensionToldNext(g.signals, ExtensionOf(f));
    case _ =>
  }

  lemma ResponderFrameExtends(single: bool, id: nat, n: int, stage: Stage, g: Half, f: Frame)
    requires !stage.Awaited?
    ensures var e := OneResponderTurns(single, id, n, stage, g, f);
            Passes(g, f, e.state.half) && ExtensionsIn(e.frames) == [] && !e.state.stage.Awaited?
  {
    hide ExtensionsTold, ExtensionsIn, ResponderTurns;
    var g1 := ResponderTurns(single, id, n, stage, g, f).state.half;
    ResponderHandlesExtension(single, id, n, stage, g, f);
    ExtensionToldNext(g1.signals, Cancelled);
  }

  lemma BirthTellsNone(single: bool, size: nat, f: Frame)
    requires (f.RequestStream? || f.RequestResponse?) && f.streamId > 0
    ensures Told(OneBorn(single, size, f).serving.half) == []
  {
    NothingIn();
    ExtensionToldNext([], Started(AppPayload(f.data, f.metadata), DemandIn(f), false));
  }

  lemma LossTellsNone(h: Half, stage: Stage, g: Half)
    ensures Told(OneRequesterLost(h)) == Told(h) && Told(OneResponderLost(stage, g)) == Told(g)
  {
    ExtensionToldNext(h.signals, Failed);
    ExtensionToldNext(g.signals, Cancelled);
  }

  // Steps

  lemma EarlyCallRelays(s: Pair, call: ChannelSystem.Call)
    requires PairInv(s) && Relayed(s) && s.rq.streamId == 0
    ensures Relayed(AfterRequesterCall(s, call))
  {
    hide HeardFrom, ExtensionsTold, ExtensionsIn, OneRequesterCalled, OneExtended, IdleHalf, Deliverable, DemandAdded, Relays;
    var e := OneRequesterCalled(s.rq, s.requesterUp, call);
    EarlyCallExtends(s.rq, s.requesterUp, call, s.record.extended);
    NothingBefore(s.toResponder, e.frames);
    NothingIn();
    RelaysFirst(Listens(s), ExtensionsIn(e.frames));
    RelaysFirst(true, []);
    RelaysFirst(false, []);
  }

  lemma RequesterCallRelays(s: Pair, call: ChannelSystem.Call)
    requires PairInv(s) && Relayed(s) && s.rq.streamId > 0
    ensures Relayed(AfterRequesterCall(s, call))
  {
    hide InTouch, ExtensionsTold, ExtensionsIn, OneRequesterCalled, OneExtended;
    var e, before := OneRequesterCalled(s.rq, s.requesterUp, call), s.record.extended;
    RequesterCallExtends(s.rq, s.requesterUp, call, before);
    ExtensionsAppend(s.toResponder, e.frames);
    RelaysMore(Listens(s), Told(s.rs.serving.half), ExtensionsIn(s.toResponder), before, ExtensionsIn(e.frames));
  }

  lemma ResponderCallRelays(s: Pair, call: ChannelSystem.Call)
    requires PairInv(s) && Relayed(s) && s.rs.serving.stage.Served?
    ensures Relayed(AfterResponderCall(s, call))
  {
    hide Coupled, Lone, BeginsWith, AllAsk, AllAnswer, ExtensionsTold, ExtensionsIn, OneResponderCalled, OneReplied;
    var e, before := OneResponderCalled(s.rs, call), s.record.replied;
    ResponderCallExtends(s.rs, call, before);
    ExtensionsAppend(s.toRequester, e.frames);
    RelaysMore(s.requesterUp && s.rq.half.registered, Told(s.rq.half), ExtensionsIn(s.toRequester), before, ExtensionsIn(e.frames));
  }

  /** The frame that arrives, and the others. */
  lemma FirstArrives(q: seq<Frame>)
    requires q != []
    ensures ExtensionsIn(q) == ExtensionsIn([ChannelSystem.Cross(q[0])]) + ExtensionsIn(q[1..])
  {
    hide ExtensionsIn;
    ExtensionsHead(q);
    ExtensionInOne(ChannelSystem.Cross(q[0]));
  }

  lemma ToRequesterRelays(s: Pair)
    requires PairInv(s) && Relayed(s) && s.requesterUp && s.toRequester != []
    ensures Relayed(AfterToRequester(s))
  {
    hide Coupled, Lone, BeginsWith, AllAsk, AllAnswer, ExtensionsTold, ExtensionsIn, OneRequesterTurns;
    var f, h, t := ChannelSystem.Cross(s.toRequester[0]), s.rq.half, AfterToRequester(s);
    FirstArrives(s.toRequester);
    RequesterFrameExtends(s.rq.single, s.rq.streamId, h, f);
    ExtensionsAppend(s.toResponder, OneRequesterGets(s.rq, f).frames);
    NothingIn();
    if h.registered {
      RelaysArrival(Told(h), ExtensionsIn([f]), ExtensionsIn(s.toRequester[1..]), s.record.replied, Told(t.rq.half),
                    t.requesterUp && t.rq.half.registered);
    }
  }

  /** A responder is born by a request, which carries no extension, and by one only. */
  lemma RequestIsNoExtension(s: Pair)
    requires PairInv(s) && s.rq.streamId > 0 && s.toResponder != []
    ensures var f := ChannelSystem.Cross(s.toResponder[0]);
            && (s.rs.serving.stage.Awaited? ==>
                  (f.RequestStream? || f.RequestResponse?) && f.streamId > 0 && ExtensionsIn([f]) == [] && Told(s.rs.serving.half) == [])
            && (!s.rs.serving.stage.Awaited? ==> !f.RequestStream? && !f.RequestResponse?)
  {
    hide HeardFrom, Sum, Lone, ExtensionsIn, ExtensionsTold;
    ExtensionInOne(ChannelSystem.Cross(s.toResponder[0]));
    CrossKeeps(s.rq.single, s.toResponder[0]);
    SumHead(s.toResponder);
    NothingIn();
  }

  lemma ToResponderRelays(s: Pair)
    requires PairInv(s) && Relayed(s) && s.rq.streamId > 0 && s.responderUp && s.toResponder != []
    ensures Relayed(AfterToResponder(s))
  {
    hide InTouch, ExtensionsTold, ExtensionsIn, OneResponderTurns, OneBorn;
    var f, r, t := ChannelSystem.Cross(s.toResponder[0]), s.rs, AfterToResponder(s);
    FirstArrives(s.toResponder);
    ExtensionsAppend(s.toRequester, OneResponderGets(r, f).frames);
    NothingIn();
    RequestIsNoExtension(s);
    if r.serving.stage.Awaited? {
      BirthTellsNone(f.RequestResponse?, r.fragmentSize, f);
      BirthEndsWaiting(f.RequestResponse?, r.fragmentSize, f);
      RelaysArrival(Told(r.serving.half), ExtensionsIn([f]), ExtensionsIn(s.toResponder[1..]), s.record.extended,
                    Told(t.rs.serving.half), Listens(t));
    } else if r.serving.half.registered {
      ResponderFrameExtends(r.single, r.streamId, r.initialRequestN, r.serving.stage, r.serving.half, f);
      RelaysArrival(Told(r.serving.half), ExtensionsIn([f]), ExtensionsIn(s.toResponder[1..]), s.record.extended,
                    Told(t.rs.serving.half), Listens(t));
    }
  }

  lemma BirthEndsWaiting(single: bool, size: nat, f: Frame)
    requires (f.RequestStream? || f.RequestResponse?) && f.streamId > 0
    ensures !OneBorn(single, size, f).serving.stage.Awaited?
  {
  }

  lemma LossRelays(s: Pair)
    requires PairInv(s) && Relayed(s)
    ensures s.requesterUp ==> Relayed(AfterRequesterLoses(s))
    ensures s.responderUp ==> Relayed(AfterResponderLoses(s))
  {
    hide Coupled, Lone, BeginsWith, AllAsk, AllAnswer, ExtensionsTold, ExtensionsIn, OneRequesterLost, OneResponderLost;
    LossTellsNone(s.rq.half, s.rs.serving.stage, s.rs.serving.half);
  }

  lemma StepRelays(s: Pair, step: ChannelSystem.Step)
    requires PairInv(s) && Relayed(s)
    ensures Relayed(Goes(s, step))
  {
    hide AfterRequesterCall, AfterResponderCall, AfterToRequester, AfterToResponder, AfterRequesterLoses, AfterResponderLoses,
         InTouch, Relayed;
    match step
    case RequesterCalls(call) =>
      if s.rq.streamId > 0 { RequesterCallRelays(s, call); } else { EarlyCallRelays(s, call); }
    case ResponderCalls(call) => if s.rs.serving.stage.Served? { ResponderCallRelays(s, call); }
    case ToResponder => if s.responderUp && s.toResponder != [] { ToResponderRelays(s); }
    case ToRequester => if s.requesterUp && s.toRequester != [] { ToRequesterRelays(s); }
    case _ => LossRelays(s);
  }

  lemma {:induction false} PlayRelays(s: Pair, steps: seq<ChannelSystem.Step>)
    requires PairInv(s) && Relayed(s)
    ensures Relayed(Play(s, steps))
    decreases |steps|
  {
    hide Goes, InTouch, Relayed;
    if steps != [] {
      StepKeeps(s, steps[0]);
      StepRelays(s, steps[0]);
      PlayRelays(Goes(s, steps[0]), steps[1..]);
    }
  }

  /** The extensions that an application is told of are, unchanged and in order, a prefix of those that the
      other end has accepted; as long as it takes frames, the missing ones are in flight. */
  lemma OneFlagExtensionsArrive(s: Pair)
    requires Possible(s)
    ensures s.rq.streamId > 0 ==> ExtensionsTold(s.rs.serving.half.signals) <= s.record.extended
    ensures ExtensionsTold(s.rq.half.signals) <= s.record.replied
    ensures s.rq.streamId > 0 && s.responderUp && s.rs.serving.half.registered ==>
              ExtensionsTold(s.rs.serving.half.signals) + ExtensionsIn(s.toResponder) == s.record.extended
    ensures s.rq.streamId > 0 && s.requesterUp && s.rq.half.registered ==>
              ExtensionsTold(s.rq.half.signals) + ExtensionsIn(s.toRequester) == s.record.replied
  {
    hide InTouch, Goes;
    var single, payload, n, size, peerSize, steps :|
      ValidFragmentSize(size) && ValidFragmentSize(peerSize) && s == Play(Outset(single, payload, n, size, peerSize), steps);
    NothingIn();
    OutsetInv(single, payload, n, size, peerSize);
    PlayRelays(Outset(single, payload, n, size, peerSize), steps);
  }
}
