/** The extensions of a channel arrive in order, each once. */
module ChannelExtensions {
  import opened Options
  import opened Bytes
  import opened Frames
  import opened Reassembler
  import opened Fragmenter
  import opened Sending
  import opened StreamSignals
  import opened ChannelStreams
  import opened ChannelSystem
  import opened ChannelQueues
  import opened ChannelInvariant
  import opened ChannelRuns
  import opened ChannelTheorems
  import opened Extensions

  function Told(c: Core): seq<Signal> {
    ExtensionsTold(c.signals)
  }

  /** Both directions. Before the stream is ready the requester keeps the extension. */
  ghost predicate Relayed(s: System) {
    var h := s.history;
    if s.rq.streamId == 0 then
      && Told(s.rq.core) == [] && h.replied == []
      && h.extended == if s.rq.extension.Some? then [s.rq.extension.value] else []
    else
      && Relays(Takes(s.rs.phase, s.rs.core, s.responderUp), Told(s.rs.core), ExtensionsIn(s.toResponder), h.extended)
      && Relays(s.requesterUp && s.rq.core.registered, Told(s.rq.core), ExtensionsIn(s.toRequester), h.replied)
  }

  lemma QuittingTellsNone(c: Core, outboundDone: bool, inboundDone: bool, last: Signal)
    requires !last.Extension?
    ensures Told(c.CancelledUnless(outboundDone).SignalledUnless(inboundDone, last)) == Told(c)
  {
    hide ExtensionsTold;
    ExtensionToldNext(c.signals, Cancelled);
    ExtensionToldNext(c.CancelledUnless(outboundDone).signals, last);
  }

  // Calls

  /** What a call puts on the wire, and that it tells nothing. */
  lemma RequesterCallExtends(r: Requester, up: bool, call: Call, before: seq<Signal>)
    requires r.Valid() && r.streamId > 0
    ensures var e := RequesterCalled(r, up, call);
            && Told(e.state.core) == Told(r.core) && RequesterExtended(r, call, before) == before + ExtensionsIn(e.frames)
            && e.state.streamId == r.streamId && (e.state.core.registered ==> r.core.registered)
  {
    hide ExtensionsTold, ExtensionsIn, SentFrames, AllCarry;
    var c, frames := r.core, RequesterCalled(r, up, call).frames;
    NothingIn();
    if call.Sends? {
      ElementSum(r.streamId, call.item, r.fragmentSize);
      NoExtensionAmongPayloads(SentFrames(PayloadKind, r.streamId, call.item, r.fragmentSize));
    } else if frames != [] {
      assert frames == [frames[0]];
      ExtensionInOne(frames[0]);
    }
    ExtensionToldNext(c.signals, Cancelled);
    ExtensionToldNext(c.signals, Failed);
  }

  lemma NothingIn()
    ensures ExtensionsIn([]) == []
  {
  }

  lemma EarlyCallExtends(r: Requester, up: bool, call: Call, before: seq<Signal>)
    requires r.Valid() && r.streamId == 0
    requires before == if r.extension.Some? then [r.extension.value] else []
    ensures var e, after := RequesterCalled(r, up, call), RequesterExtended(r, call, before);
            && Told(e.state.core) == Told(r.core)
            && if e.state.streamId == 0 then after == if e.state.extension.Some? then [e.state.extension.value] else []
               else after == before == ExtensionsIn(e.frames)
  {
    hide ExtensionsTold, ExtensionsIn, RequesterReady;
    ExtensionToldNext(r.core.signals, Cancelled);
    ExtensionToldNext(r.core.signals, Failed);
    if call.Ready? && call.id > 0 {
      ReadySendsExtension(r, call.id);
    }
  }

  /** The extension that was kept follows the request. */
  lemma ReadySendsExtension(r: Requester, id: nat)
    requires r.Valid() && r.streamId == 0 && id > 0
    ensures var e := RequesterReady(r, id);
            && e.state.extension == r.extension && e.state.core.signals == r.core.signals
            && (e.state.streamId == 0 || ExtensionsIn(e.frames) == if r.extension.Some? then [r.extension.value] else [])
  {
    hide ExtensionsIn, SentFrames, AllCarry;
    var request := SentFrames(ChannelKind(r.initialRequestN), id, r.Request(), r.fragmentSize);
    RequestSum(ChannelKind(r.initialRequestN), id, r.Request(), r.fragmentSize);
    NoExtensionAmongPayloads(request);
    NothingIn();
    if r.extension.Some? {
      ExtensionReadBack(id, r.extension.value);
      ExtensionsAppend(request, [ExtFrame(id, r.extension.value)]);
    } else {
      ExtensionsAppend(request, []);
    }
  }

  lemma ResponderCallExtends(r: Responder, call: Call, before: seq<Signal>)
    requires r.Valid() && r.Live()
    ensures var e := ResponderCalled(r, call);
            && Told(e.state.core) == Told(r.core) && ResponderExtended(r.core, call, before) == before + ExtensionsIn(e.frames)
            && !e.state.phase.Unborn? && (e.state.core.registered ==> r.core.registered)
  {
    hide ExtensionsTold, ExtensionsIn, SentFrames, AllCarry;
    var c, frames := r.core, ResponderCalled(r, call).frames;
    NothingIn();
    if call.Sends? {
      ElementSum(r.streamId, call.item, r.fragmentSize);
      NoExtensionAmongPayloads(SentFrames(PayloadKind, r.streamId, call.item, r.fragmentSize));
    } else if frames != [] {
      assert frames == [frames[0]];
      ExtensionInOne(frames[0]);
    }
    ExtensionToldNext(c.signals, Failed);
  }

  // Frames

  lemma RequesterHandlesExtension(id: nat, c: Core, f: Frame)
    ensures var e := RequesterHandles(id, c, f);
            Told(e.state) == Told(c) + ExtensionsIn([f]) && ExtensionsIn(e.frames) == []
  {
    hide ExtensionsTold, ExtensionsIn, Assembled;
    ExtensionInOne(f);
    ExtensionInOne(CancelFrame(id));
    NothingIn();
    match f
    case Payload(_, flags, _, _) => RequesterPayloadTellsNone(c, f);
    case Cancel(_, _) => ExtensionToldNext(c.signals, Cancelled);
    case RequestN(_, _, n) =>
      ExtensionToldNext(c.signals, Requested(n));
      QuittingTellsNone(c.Done().(holder := EMPTY), c.outboundDone, c.inboundDone, Failed);
    case Error(_, _, _, _) =>
      QuittingTellsNone(c.Done().(registered := false, holder := EMPTY), c.outboundDone, false, Failed);
    case Ext(_, _, _, _) => ExtensionToldNext(c.signals, ExtensionOf(f));
    case _ => QuittingTellsNone(c.Done().(holder := EMPTY), c.outboundDone, c.inboundDone, Failed);
  }

  lemma RequesterPayloadTellsNone(c: Core, f: Frame)
    requires f.Payload?
    ensures Told(RequesterGetsPayload(c, f)) == Told(c)
  {
    hide ExtensionsTold, Assembled;
    ExtensionToldNext(c.signals, Completed);
    if Assembled(c.holder, f).Some? {
      ExtensionToldNext(c.signals, Signal.Next(Assembled(c.holder, f).value, HasComplete(f.flags)));
    }
  }

  lemma RequesterFrameExtends(id: nat, c: Core, f: Frame)
    ensures var e := RequesterTurns(id, c, f);
            Told(e.state) == Told(c) + ExtensionsIn([f]) && ExtensionsIn(e.frames) == []
  {
    hide ExtensionsTold, ExtensionsIn, RequesterHandles;
    RequesterHandlesExtension(id, c, f);
    LossTellsNone(Running, RequesterHandles(id, c, f).state);
  }

  /** An extension that is not told is refused: the responder takes no more frames. */
  lemma ResponderHandlesExtension(id: nat, phase: Phase, c: Core, f: Frame)
    requires phase.Assembling? || phase.Running?
    ensures var e := ResponderHandles(id, phase, c, f);
            && ExtensionsIn(e.frames) == [] && !e.state.phase.Unborn?
            && (Told(e.state.core) == Told(c) + ExtensionsIn([f]) || (Told(e.state.core) == Told(c) && !e.state.core.registered))
            && (e.state.core.registered ==> c.registered)
  {
    hide ExtensionsTold, ExtensionsIn, ResponderGetsPayload, ResponderAborted, ResponderFails, Add;
    ExtensionInOne(f);
    ExtensionInOne(ErrorFrame(id, CANCELED_CODE));
    NothingIn();
    ResponderQuitTellsNone(id, phase, c);
    assert ResponderFails(id, phase, c).frames == [ErrorFrame(id, CANCELED_CODE)] by { RefusalIsError(id, phase, c); }
    match f
    case Payload(_, flags, _, _) => ResponderPayloadTellsNone(phase, c, f);
    case RequestN(_, _, n) => ExtensionToldNext(c.signals, Requested(n));
    case Ext(_, _, _, _) => ExtensionToldNext(c.signals, ExtensionOf(f));
    case _ =>
  }

  lemma RefusalIsError(id: nat, phase: Phase, c: Core)
    ensures ResponderFails(id, phase, c).frames == [ErrorFrame(id, CANCELED_CODE)]
  {
  }

  lemma ResponderQuitTellsNone(id: nat, phase: Phase, c: Core)
    ensures Told(ResponderAborted(phase, c)) == Told(c) && !ResponderAborted(phase, c).registered
    ensures var e := ResponderFails(id, phase, c).state; Told(e.core) == Told(c) && !e.core.registered && e.phase == phase
  {
    hide ExtensionsTold;
    QuittingTellsNone(c.Done().(registered := false, holder := EMPTY), c.outboundDone, c.inboundDone, Failed);
  }

  lemma ResponderPayloadTellsNone(phase: Phase, c: Core, f: Frame)
    requires f.Payload? && (phase.Assembling? || phase.Running?)
    ensures var e := ResponderGetsPayload(phase, c, f);
            Told(e.core) == Told(c) && !e.phase.Unborn? && (e.core.registered ==> c.registered)
  {
    hide ExtensionsTold, Assembled;
    ExtensionToldNext(c.signals, Completed);
    if Assembled(c.holder, f).Some? {
      var p, last := Assembled(c.holder, f).value, HasComplete(f.flags);
      ExtensionToldNext(c.signals, Signal.Next(p, last));
      if phase.Assembling? {
        ExtensionToldNext(c.signals, Started(p, phase.initialRequestN, last || phase.isComplete));
      }
    }
  }

  lemma ResponderFrameExtends(id: nat, phase: Phase, c: Core, f: Frame)
    requires phase.Assembling? || phase.Running?
    ensures var e := ResponderTurns(id, phase, c, f);
            && ExtensionsIn(e.frames) == [] && !e.state.phase.Unborn?
            && (Told(e.state.core) == Told(c) + ExtensionsIn([f])
                || (Told(e.state.core) == Told(c) && (e.state.core.thrown || !e.state.core.registered)))
            && (e.state.core.registered ==> c.registered)
  {
    hide ExtensionsTold, ExtensionsIn, ResponderHandles;
    ResponderHandlesExtension(id, phase, c, f);
    LossTellsNone(ResponderHandles(id, phase, c, f).state.phase, ResponderHandles(id, phase, c, f).state.core);
  }

  lemma BirthTellsNone(size: nat, f: Frame)
    requires f.RequestChannel? && f.streamId > 0
    ensures Told(ResponderBorn(size, f).core) == []
  {
    if !HasFollows(f.flags) {
      ExtensionToldNext([], Started(AppPayload(f.data, f.metadata), f.requestN, HasComplete(f.flags)));
    }
  }

  lemma LossTellsNone(phase: Phase, c: Core)
    ensures Told(RequesterLost(c)) == Told(c) && Told(ResponderLost(phase, c)) == Told(c)
  {
    QuittingTellsNone(c.Done().(holder := EMPTY), c.outboundDone, c.inboundDone, Failed);
  }

  // Steps

  lemma EarlyCallRelays(s: System, call: Call)
    requires Inv(s) && Relayed(s) && s.rq.streamId == 0
    ensures Relayed(AfterRequesterCall(s, call))
  {
    hide HeardFrom, ExtensionsTold, ExtensionsIn, RequesterCalled, RequesterExtended, RequesterAccepts, RequesterOwn,
         RequestIsDeliverable, AreDeliverable, NotReadyCore, AskedIn, Relays;
    var e := RequesterCalled(s.rq, s.requesterUp, call);
    EarlyCallExtends(s.rq, s.requesterUp, call, s.history.extended);
    NothingBefore(s.toResponder, e.frames);
    NothingIn();
    NothingToldYet();
    RelaysFirst(Takes(s.rs.phase, s.rs.core, s.responderUp), ExtensionsIn(e.frames));
    RelaysFirst(true, []);
    RelaysFirst(false, []);
  }

  lemma RequesterCallRelays(s: System, call: Call)
    requires Inv(s) && Relayed(s) && s.rq.streamId > 0
    ensures Relayed(AfterRequesterCall(s, call))
  {
    hide Linked, RequestAhead, ExtensionsTold, ExtensionsIn, RequesterCalled, RequesterExtended;
    var e, h := RequesterCalled(s.rq, s.requesterUp, call), s.history;
    RequesterCallExtends(s.rq, s.requesterUp, call, h.extended);
    ExtensionsAppend(s.toResponder, e.frames);
    RelaysMore(Takes(s.rs.phase, s.rs.core, s.responderUp), Told(s.rs.core), ExtensionsIn(s.toResponder), h.extended,
               ExtensionsIn(e.frames));
  }

  lemma NothingToldYet()
    ensures Told(FRESH) == []
  {
  }

  lemma ResponderCallRelays(s: System, call: Call)
    requires Inv(s) && Relayed(s) && s.rs.Live()
    ensures Relayed(AfterResponderCall(s, call))
  {
    hide Linked, ExtensionsTold, ExtensionsIn, ResponderCalled, ResponderExtended;
    var e, h := ResponderCalled(s.rs, call), s.history;
    ResponderCallExtends(s.rs, call, h.replied);
    ExtensionsAppend(s.toRequester, e.frames);
    RelaysMore(s.requesterUp && s.rq.core.registered, Told(s.rq.core), ExtensionsIn(s.toRequester), h.replied, ExtensionsIn(e.frames));
  }

  /** The frame that arrives, and the others. */
  lemma FirstArrives(q: seq<Frame>)
    requires q != []
    ensures ExtensionsIn(q) == ExtensionsIn([Cross(q[0])]) + ExtensionsIn(q[1..])
  {
    hide ExtensionsIn;
    ExtensionsHead(q);
    ExtensionInOne(Cross(q[0]));
  }

  lemma ToRequesterRelays(s: System)
    requires Inv(s) && Relayed(s) && s.requesterUp && s.toRequester != []
    ensures Relayed(AfterToRequester(s))
  {
    hide Linked, ExtensionsTold, ExtensionsIn, RequesterTurns;
    var f, c, t := Cross(s.toRequester[0]), s.rq.core, AfterToRequester(s);
    FirstArrives(s.toRequester);
    RequesterFrameExtends(s.rq.streamId, c, f);
    ExtensionsAppend(s.toResponder, RequesterGets(s.rq, f).frames);
    NothingIn();
    if c.registered {
      RelaysArrival(Told(c), ExtensionsIn([f]), ExtensionsIn(s.toRequester[1..]), s.history.replied, Told(t.rq.core),
                    t.requesterUp && t.rq.core.registered);
    }
  }

  lemma ToResponderRelays(s: System)
    requires Inv(s) && Relayed(s) && CanTakeResponder(s)
    ensures Relayed(AfterToResponder(s))
  {
    hide Linked, ExtensionsTold, ExtensionsIn, ResponderTurns, ResponderBorn;
    var f, r, t := Cross(s.toResponder[0]), s.rs, AfterToResponder(s);
    FirstArrives(s.toResponder);
    ExtensionsAppend(s.toRequester, ResponderGets(r, f).frames);
    NothingIn();
    RequestIsNoExtension(s);
    if r.phase.Unborn? {
      BirthTellsNone(r.fragmentSize, f);
      RelaysArrival(Told(r.core), ExtensionsIn([f]), ExtensionsIn(s.toResponder[1..]), s.history.extended, Told(t.rs.core),
                    Takes(t.rs.phase, t.rs.core, t.responderUp));
    } else if r.core.registered {
      ResponderFrameExtends(r.streamId, r.phase, r.core, f);
      RelaysArrival(Told(r.core), ExtensionsIn([f]), ExtensionsIn(s.toResponder[1..]), s.history.extended, Told(t.rs.core),
                    Takes(t.rs.phase, t.rs.core, t.responderUp));
    }
  }

  /** A responder is born by a request, which carries no extension, and by one only. */
  lemma RequestIsNoExtension(s: System)
    requires Inv(s) && CanTakeResponder(s)
    ensures var f := Cross(s.toResponder[0]);
            && (s.rs.phase.Unborn? ==> f.RequestChannel? && f.streamId > 0 && ExtensionsIn([f]) == [] && Told(s.rs.core) == [])
            && (!s.rs.phase.Unborn? ==> !f.RequestChannel?)
  {
    hide HeardFrom, Sum, ExtensionsIn, ExtensionsTold;
    ExtensionInOne(Cross(s.toResponder[0]));
    CrossKeepsSum(s.toResponder[0]);
    SumHead(s.toResponder);
    NothingToldYet();
  }

  lemma LossRelays(s: System)
    requires Inv(s) && Relayed(s)
    ensures s.requesterUp ==> Relayed(AfterRequesterLoses(s))
    ensures s.responderUp ==> Relayed(AfterResponderLoses(s))
  {
    hide Linked, ExtensionsTold, ExtensionsIn, RequesterLost, ResponderLost;
    LossTellsNone(Running, s.rq.core);
    LossTellsNone(s.rs.phase, s.rs.core);
  }

  lemma StepRelays(s: System, step: Step)
    requires Inv(s) && Relayed(s)
    ensures Relayed(ChannelSystem.Next(s, step))
  {
    hide AfterRequesterCall, AfterResponderCall, AfterToRequester, AfterToResponder, AfterRequesterLoses, AfterResponderLoses,
         Linked, NotReady, RequestAhead, Relayed;
    match step
    case RequesterCalls(call) =>
      if s.rq.streamId > 0 { RequesterCallRelays(s, call); } else { EarlyCallRelays(s, call); }
    case ResponderCalls(call) => if s.rs.Live() { ResponderCallRelays(s, call); }
    case ToResponder => if CanTakeResponder(s) { ToResponderRelays(s); }
    case ToRequester => if s.requesterUp && s.toRequester != [] { ToRequesterRelays(s); }
    case _ => LossRelays(s);
  }

  lemma {:induction false} RunRelays(s: System, steps: seq<Step>)
    requires Inv(s) && Relayed(s)
    ensures Relayed(Run(s, steps))
    decreases |steps|
  {
    hide ChannelSystem.Next, Linked, NotReady, RequestAhead, Relayed;
    if steps != [] {
      StepKeepsInv(s, steps[0]);
      StepRelays(s, steps[0]);
      RunRelays(ChannelSystem.Next(s, steps[0]), steps[1..]);
    }
  }

  /** The extensions that an application is told of are, unchanged and in order, a prefix of those that the
      other end has accepted; as long as it takes frames, the missing ones are in flight. */
  lemma ExtensionsArriveInOrder(s: System)
    requires Reachable(s)
    ensures ExtensionsTold(s.rs.core.signals) <= s.history.extended
    ensures ExtensionsTold(s.rq.core.signals) <= s.history.replied
    ensures s.rq.streamId > 0 && s.responderUp && s.rs.core.registered ==>
              ExtensionsTold(s.rs.core.signals) + ExtensionsIn(s.toResponder) == s.history.extended
    ensures s.requesterUp && s.rq.core.registered ==>
              ExtensionsTold(s.rq.core.signals) + ExtensionsIn(s.toRequester) == s.history.replied
  {
    hide Linked, RequestAhead, ChannelSystem.Next;
    var payload, isComplete, n, size, peerSize, steps :|
      ValidFragmentSize(size) && ValidFragmentSize(peerSize)
      && s == Run(Start(payload, isComplete, n, size, peerSize), steps);
    var start := Start(payload, isComplete, n, size, peerSize);
    StartInv(payload, isComplete, n, size, peerSize);
    NothingToldYet();
    RunKeepsInv(start, steps);
    RunRelays(start, steps);
  }
}
