/** The payloads of a channel: as long as the fragmenter can deliver all of them, they arrive. */
module ChannelPayloads {
  import opened Options
  import opened Bytes
  import opened Frames
  import opened Reassembler
  import opened Fragmenter
  import opened Sending
  import opened StreamSignals
  import opened ChannelStreams
  import opened ChannelSystem
  import opened ChannelQueues
  import opened ChannelInvariant
  import opened ChannelMoves
  import opened ChannelDeliveries
  import opened ChannelRuns

  // One direction

  lemma {:induction false} AllArriveAppend(a: seq<Item>, b: seq<Item>)
    ensures AllArrive(a + b) == AllArrive(a) + AllArrive(b)
    decreases |a|
  {
    if a == [] {
      assert a + b == b;
    } else {
      assert (a + b)[1..] == a[1..] + b;
      AllArriveAppend(a[1..], b);
    }
  }

  lemma AllArrivePush(items: seq<Item>, item: Item)
    ensures AllArrive(items + [item]) == AllArrive(items) + [Arrives(item)]
  {
    AllArriveAppend(items, [item]);
    assert [item][1..] == [];
  }

  /** Frames appended to a direction that, on an empty holder, deliver the new items and nothing else. */
  ghost predicate Delivers(frames: seq<Frame>, items: seq<Item>, items': seq<Item>) {
    && Outcome(Inbox(EMPTY, AllArrive(items)), frames) == Some(Inbox(EMPTY, AllArrive(items')))
    && AllArrive(items) <= AllArrive(items')
  }

  /** The sender sends. */
  lemma FlowPush(open: bool, c: Core, q: seq<Frame>, items: seq<Item>, done: bool, frames: seq<Frame>, items': seq<Item>,
                 done': bool)
    requires Flow(open, c, q, items, done) && Delivers(frames, items, items')
    requires done ==> done' && items' == items
    ensures Flow(open, c, q + frames, items', done')
  {
    hide HeardFrom, AllArrive;
    OutcomeAppend(Expected(c), q, frames);
  }

  /** The receiver changes without a frame: it may stop taking frames. */
  lemma FlowKeeps(open: bool, c: Core, q: seq<Frame>, items: seq<Item>, done: bool, open': bool, c': Core)
    requires Flow(open, c, q, items, done) && (open' ==> open && c'.holder == c.holder)
    requires var h, h' := c.Heard(), c'.Heard();
             h'.elements == h.elements && h'.completed == h.completed && (h.terminated ==> h'.terminated)
    ensures Flow(open', c', q, items, done)
  {
    hide HeardFrom, AllArrive;
    OutcomeExtends(Expected(c), q);
  }

  /** The arriving frame suits the fragments held: a frame with a payload reassembles, and any other frame
      finds none. */
  ghost predicate Suits(c: Core, f: Frame) {
    if Carries(f) then Receive(false, Expected(c), f).Some? else !c.holder.hasFragments
  }

  /** The inbox after an arriving frame. */
  function Taken(c: Core, f: Frame): Inbox
    requires Suits(c, f)
  {
    if Carries(f) then Receive(false, Expected(c), f).value else Expected(c)
  }

  lemma CrossReceive(b: Inbox, f: Frame)
    requires CarriesPayload(f)
    ensures CarriesPayload(Cross(f)) && Receive(false, b, Cross(f)) == Receive(true, b, f)
  {
  }

  lemma FlowSuits(c: Core, q: seq<Frame>, items: seq<Item>, done: bool)
    requires Flow(true, c, q, items, done) && q != []
    ensures Suits(c, Cross(q[0])) && Outcome(Taken(c, Cross(q[0])), q[1..]) == Some(Inbox(EMPTY, AllArrive(items)))
  {
    hide HeardFrom, AllArrive;
    CrossKeepsSum(q[0]);
    if Carries(q[0]) {
      CrossReceive(Expected(c), q[0]);
    }
  }

  /** The receiver takes what it is given, and is told of the completion only by the frame that says so. */
  ghost predicate TakesWell(c: Core, open': bool, c': Core, f: Frame)
    requires Suits(c, f)
  {
    && (if open' then Expected(c') == Taken(c, f) else c'.Heard().elements == Taken(c, f).payloads)
    && (c.Heard().terminated ==> c'.Heard().terminated)
    && (c'.Heard().completed && !c.Heard().completed ==> Ends(f) && c'.Heard().terminated)
    && (c.Heard().completed ==> c'.Heard().completed)
  }

  /** Frames without payloads deliver nothing. */
  lemma {:induction false} QuietOutcome(b: Inbox, q: seq<Frame>)
    requires !Sum(q).pays && Outcome(b, q).Some?
    ensures Outcome(b, q) == Some(b)
    decreases |q|
  {
    if q != [] {
      QuietOutcome(b, q[1..]);
    }
  }

  lemma FlowTakes(c: Core, q: seq<Frame>, items: seq<Item>, done: bool, open': bool, c': Core)
    requires Flow(true, c, q, items, done) && q != []
    requires Sum(q).orderly && (Sum(q).ends ==> done) && (c.Heard().terminated ==> !Sum(q).pays)
    requires Suits(c, Cross(q[0])) ==> TakesWell(c, open', c', Cross(q[0]))
    ensures Flow(open', c', q[1..], items, done)
  {
    hide HeardFrom, AllArrive, Sum;
    FlowSuits(c, q, items, done);
    CrossKeepsSum(q[0]);
    SumHead(q);
    OutcomeExtends(Taken(c, Cross(q[0])), q[1..]);
    if c'.Heard().completed && !c.Heard().completed {
      QuietOutcome(Taken(c, Cross(q[0])), q[1..]);
    }
  }

  // What is sent

  lemma NothingDelivers(items: seq<Item>)
    ensures Delivers([], items, items)
  {
  }

  lemma ControlDelivers(f: Frame, items: seq<Item>)
    requires !Carries(f)
    ensures Delivers([f], items, items)
  {
    assert [f][1..] == [];
  }

  lemma SendsDelivers(id: nat, size: nat, c: Core, item: Item, items: seq<Item>)
    requires ValidFragmentSize(size) && Deliverable(PayloadKind, item, size) && !c.outboundDone
    ensures Delivers(ChannelStreams.Sends(id, size, c, item).frames, items, items + [item])
  {
    ElementOutcome(Inbox(EMPTY, AllArrive(items)), id, item, size);
    AllArrivePush(items, item);
  }

  lemma RequesterCallDelivers(r: Requester, up: bool, call: Call, items: seq<Item>)
    requires r.Valid() && r.streamId > 0 && AreDeliverable(RequesterAccepts(r, up, call), r.fragmentSize)
    ensures Delivers(RequesterCalled(r, up, call).frames, items, items + RequesterAccepts(r, up, call))
  {
    hide Outcome, AllArrive, Delivers, SentFrames;
    var c, id := r.core, r.streamId;
    NothingDelivers(items);
    assert items + [] == items;
    match call
    case Sends(item) => if !c.outboundDone { SendsDelivers(id, r.fragmentSize, c, item, items); }
    case Asks(n) => ControlDelivers(RequestNFrame(id, n), items);
    case Extends(e) => if e.Extension? { ControlDelivers(ExtFrame(id, e), items); }
    case _ =>
      ControlDelivers(CancelFrame(id), items);
      ControlDelivers(ErrorFrame(id, CANCELED_CODE), items);
      ControlDelivers(ErrorFrame(id, APPLICATION_ERROR), items);
      ControlDelivers(CompleteFrame(id), items);
  }

  lemma ResponderCallDelivers(r: Responder, call: Call, items: seq<Item>)
    requires r.Valid() && r.Live() && AreDeliverable(ResponderAccepts(r, call), r.fragmentSize)
    ensures Delivers(ResponderCalled(r, call).frames, items, items + ResponderAccepts(r, call))
  {
    hide Outcome, AllArrive, Delivers, SentFrames;
    var c, id := r.core, r.streamId;
    NothingDelivers(items);
    assert items + [] == items;
    match call
    case Sends(item) => if !c.outboundDone { SendsDelivers(id, r.fragmentSize, c, item, items); }
    case Asks(n) => ControlDelivers(RequestNFrame(id, n), items);
    case Extends(e) => if e.Extension? { ControlDelivers(ExtFrame(id, e), items); }
    case _ =>
      ControlDelivers(CancelFrame(id), items);
      ControlDelivers(ErrorFrame(id, APPLICATION_ERROR), items);
      ControlDelivers(CompleteFrame(id), items);
  }

  // What is taken

  /** What a frame without a payload makes an end hear: no element, and no completion. */
  ghost predicate HearsNoPayload(h: Heard, h': Heard) {
    h'.elements == h.elements && h'.completed == h.completed && (h.terminated ==> h'.terminated)
  }

  lemma TakesNoPayload(c: Core, f: Frame, open': bool, c': Core)
    requires !CarriesPayload(f) && !c.holder.hasFragments && HearsNoPayload(c.Heard(), c'.Heard())
    requires open' ==> c'.holder == c.holder
    ensures Suits(c, f) && TakesWell(c, open', c', f)
  {
    hide HeardFrom;
  }

  lemma RequesterTakesPayloadWell(id: nat, c: Core, f: Frame)
    requires f.Payload? && !Irregular(f) && Suits(c, f) && !c.thrown
    ensures var e := RequesterTurns(id, c, f); !e.state.thrown && e.frames == [] && TakesWell(c, e.state.registered, e.state, f)
  {
    hide HeardFrom;
    if !HasFollows(f.flags) {
      PushSignal(c.signals, if BareCompletion(f) then Completed
                            else Signal.Next(Assembled(c.holder, f).value, HasComplete(f.flags)));
    }
  }

  lemma RequesterTakesOtherWell(id: nat, c: Core, f: Frame)
    requires (Aborts(f) || f.RequestN? || f.Ext?) && !c.holder.hasFragments && !c.thrown
    ensures var e := RequesterTurns(id, c, f); !e.state.thrown && e.frames == [] && TakesWell(c, e.state.registered, e.state, f)
  {
    hide HeardFrom;
    var e := RequesterTurns(id, c, f);
    match f {
      case Error(_, _, _, _) => Quits(c.Done().(registered := false, holder := EMPTY), c.outboundDone, false);
      case Cancel(_, _) => PushSignal(c.signals, Cancelled);
      case RequestN(_, _, n) => PushSignal(c.signals, Requested(n));
      case Ext(_, _, _, _) => PushSignal(c.signals, ExtensionOf(f));
      case _ =>
    }
    TakesNoPayload(c, f, e.state.registered, e.state);
  }

  lemma RequesterTakesWell(id: nat, c: Core, f: Frame, rest: Summary)
    requires RequesterFaces(c, f, rest) && Suits(c, f)
    ensures var e := RequesterTurns(id, c, f); !e.state.thrown && e.frames == [] && TakesWell(c, e.state.registered, e.state, f)
  {
    hide HeardFrom, RequesterTurns, TakesWell;
    if f.Payload? { RequesterTakesPayloadWell(id, c, f); } else { RequesterTakesOtherWell(id, c, f); }
  }

  lemma ResponderTakesPayloadWell(id: nat, phase: Phase, c: Core, f: Frame)
    requires (phase.Assembling? || phase.Running?) && PhaseFine(phase, c, true) && c.registered
    requires f.Payload? && !Irregular(f) && Suits(c, f) && !c.thrown
    ensures var e := ResponderTurns(id, phase, c, f);
            && !e.state.core.thrown && e.frames == [] && TakesWell(c, e.state.core.registered, e.state.core, f)
  {
    hide HeardFrom;
    if !HasFollows(f.flags) {
      var p, last := Assembled(c.holder, f).value, HasComplete(f.flags);
      PushSignal(c.signals, if phase.Assembling? then Started(p, phase.initialRequestN, last)
                            else if BareCompletion(f) then Completed else Signal.Next(p, last));
    }
  }

  lemma ResponderTakesOtherWell(id: nat, phase: Phase, c: Core, f: Frame)
    requires phase.Running? && (Aborts(f) || f.RequestN? || f.Ext?) && !c.holder.hasFragments && !c.thrown
    ensures var e := ResponderTurns(id, phase, c, f);
            && !e.state.core.thrown && e.frames == [] && TakesWell(c, e.state.core.registered, e.state.core, f)
  {
    hide HeardFrom;
    var e := ResponderTurns(id, phase, c, f);
    match f {
      case RequestN(_, _, n) => PushSignal(c.signals, Requested(n));
      case Ext(_, _, _, _) => PushSignal(c.signals, ExtensionOf(f));
      case _ => Quits(c.Done().(registered := false, holder := EMPTY), c.outboundDone, c.inboundDone);
    }
    TakesNoPayload(c, f, e.state.core.registered, e.state.core);
  }

  lemma ResponderTakesWell(id: nat, phase: Phase, c: Core, f: Frame, rest: Summary)
    requires ResponderFaces(phase, c, f, rest) && Suits(c, f)
    ensures var e := ResponderTurns(id, phase, c, f);
            && !e.state.core.thrown && e.frames == [] && TakesWell(c, e.state.core.registered, e.state.core, f)
  {
    hide HeardFrom, ResponderTurns, TakesWell;
    if f.Payload? { ResponderTakesPayloadWell(id, phase, c, f); } else { ResponderTakesOtherWell(id, phase, c, f); }
  }

  lemma BirthTakesWell(size: nat, f: Frame)
    requires f.RequestChannel? && f.streamId > 0 && !Irregular(f)
    ensures var r := ResponderBorn(size, f); Suits(FRESH, f) && TakesWell(FRESH, r.core.registered, r.core, f)
  {
    if !HasFollows(f.flags) {
      PushSignal([], Started(AppPayload(f.data, f.metadata), f.requestN, HasComplete(f.flags)));
    }
  }

  /** What a frame makes an end send: nothing, or a frame without a payload. */
  lemma AnswersDeliver(frames: seq<Frame>, items: seq<Item>)
    requires |frames| <= 1 && (frames != [] ==> !CarriesPayload(frames[0]))
    ensures Delivers(frames, items, items)
  {
    hide Outcome, Delivers;
    NothingDelivers(items);
    if frames != [] {
      ControlDelivers(frames[0], items);
      assert frames == [frames[0]];
    }
  }

  lemma RequesterAnswers(id: nat, c: Core, f: Frame)
    ensures var frames := RequesterTurns(id, c, f).frames; |frames| <= 1 && (frames != [] ==> !CarriesPayload(frames[0]))
  {
  }

  lemma ResponderAnswers(id: nat, phase: Phase, c: Core, f: Frame)
    requires phase.Assembling? || phase.Running?
    ensures var frames := ResponderTurns(id, phase, c, f).frames;
            |frames| <= 1 && (frames != [] ==> !CarriesPayload(frames[0]))
  {
  }

  // Every step

  lemma RequesterCallFlows(s: System, call: Call)
    requires Inv(s) && s.rq.streamId > 0 && Flowing(s)
    ensures Flowing(AfterRequesterCall(s, call))
  {
    hide Sum, HeardFrom, Outcome, AllArrive, Flow, Delivers, RequesterCalled;
    var e, s' := RequesterCalled(s.rq, s.requesterUp, call), AfterRequesterCall(s, call);
    RequesterCallActs(s.rq, s.requesterUp, call);
    if s'.history.offeredWell {
      RequesterCallDelivers(s.rq, s.requesterUp, call, s.history.offered);
      FlowPush(Takes(s.rs.phase, s.rs.core, s.responderUp), s.rs.core, s.toResponder, s.history.offered, s.rq.core.outboundDone,
               e.frames, s'.history.offered, e.state.core.outboundDone);
    }
    if s.history.answeredWell {
      FlowKeeps(s.requesterUp && s.rq.core.registered, s.rq.core, s.toRequester, s.history.answered, s.rs.core.outboundDone,
                s.requesterUp && e.state.core.registered, e.state.core);
    }
  }

  lemma ResponderCallFlows(s: System, call: Call)
    requires Inv(s) && s.rs.Live() && Flowing(s)
    ensures Flowing(AfterResponderCall(s, call))
  {
    hide Sum, HeardFrom, Outcome, AllArrive, Flow, Delivers, ResponderCalled;
    var e, s' := ResponderCalled(s.rs, call), AfterResponderCall(s, call);
    ResponderCallActs(s.rs, call);
    if s'.history.answeredWell {
      ResponderCallDelivers(s.rs, call, s.history.answered);
      FlowPush(s.requesterUp && s.rq.core.registered, s.rq.core, s.toRequester, s.history.answered, s.rs.core.outboundDone,
               e.frames, s'.history.answered, e.state.core.outboundDone);
    }
    if s.history.offeredWell {
      FlowKeeps(Takes(s.rs.phase, s.rs.core, s.responderUp), s.rs.core, s.toResponder, s.history.offered, s.rq.core.outboundDone,
                Takes(s'.rs.phase, s'.rs.core, s.responderUp), s'.rs.core);
    }
  }

  lemma ToRequesterFlows(s: System)
    requires Inv(s) && s.rq.streamId > 0 && Flowing(s) && s.requesterUp && s.toRequester != [] && s.rq.core.registered
    ensures Flowing(AfterToRequester(s))
  {
    hide Sum, HeardFrom, Outcome, AllArrive, Flow, Delivers, RequesterTurns, Suits, TakesWell;
    var c, f, s' := s.rq.core, Cross(s.toRequester[0]), AfterToRequester(s);
    var rest, e := Sum(s.toRequester[1..]), RequesterTurns(s.rq.streamId, c, f);
    RequesterFacesIt(s);
    RequesterTakesFrame(s.rq.streamId, c, f, rest);
    RequesterAnswers(s.rq.streamId, c, f);
    AnswersDeliver(e.frames, s.history.offered);
    if s.history.offeredWell {
      FlowPush(Takes(s.rs.phase, s.rs.core, s.responderUp), s.rs.core, s.toResponder, s.history.offered, c.outboundDone,
               e.frames, s.history.offered, s'.rq.core.outboundDone);
    }
    if s.history.answeredWell {
      FlowSuits(c, s.toRequester, s.history.answered, s.rs.core.outboundDone);
      RequesterTakesWell(s.rq.streamId, c, f, rest);
      FlowTakes(c, s.toRequester, s.history.answered, s.rs.core.outboundDone, e.state.registered, e.state);
    }
  }

  lemma ToResponderFlows(s: System)
    requires Inv(s) && s.rq.streamId > 0 && Flowing(s) && CanTakeResponder(s) && s.rs.core.registered
    ensures Flowing(AfterToResponder(s))
  {
    hide Sum, HeardFrom, Outcome, AllArrive, Flow, Delivers, ResponderTurns, Suits, TakesWell;
    var c, phase, f, s' := s.rs.core, s.rs.phase, Cross(s.toResponder[0]), AfterToResponder(s);
    var rest, e := Sum(s.toResponder[1..]), ResponderTurns(s.rs.streamId, phase, c, f);
    ResponderFacesIt(s);
    ResponderTakesFrame(s.rs.streamId, phase, c, f, rest);
    ResponderAnswers(s.rs.streamId, phase, c, f);
    AnswersDeliver(e.frames, s.history.answered);
    if s.history.answeredWell {
      FlowPush(s.requesterUp && s.rq.core.registered, s.rq.core, s.toRequester, s.history.answered, c.outboundDone,
               e.frames, s.history.answered, s'.rs.core.outboundDone);
    }
    if s.history.offeredWell {
      FlowSuits(c, s.toResponder, s.history.offered, s.rq.core.outboundDone);
      ResponderTakesWell(s.rs.streamId, phase, c, f, rest);
      FlowTakes(c, s.toResponder, s.history.offered, s.rq.core.outboundDone, s'.rs.core.registered, s'.rs.core);
    }
  }

  lemma BirthFlows(s: System)
    requires Inv(s) && s.rq.streamId > 0 && Flowing(s) && CanTakeResponder(s) && s.rs.phase.Unborn?
    ensures Flowing(AfterToResponder(s))
  {
    hide Sum, HeardFrom, Outcome, AllArrive, Flow, Delivers, ResponderBorn, Suits, TakesWell;
    var f, s' := Cross(s.toResponder[0]), AfterToResponder(s);
    CrossKeepsSum(s.toResponder[0]);
    SumHead(s.toResponder);
    ResponderIsBorn(s.rs.fragmentSize, f, Sum(s.toResponder[1..]));
    SumNone();
    assert s.toRequester + [] == s.toRequester;
    if s.history.offeredWell {
      BirthTakesWell(s.rs.fragmentSize, f);
      FlowTakes(FRESH, s.toResponder, s.history.offered, s.rq.core.outboundDone, s'.rs.core.registered, s'.rs.core);
    }
  }

  /** A frame that is not routed to any stream is dropped. */
  lemma DropsFlow(s: System)
    requires Inv(s) && s.rq.streamId > 0 && Flowing(s)
    ensures s.requesterUp && s.toRequester != [] && !s.rq.core.registered ==> Flowing(AfterToRequester(s))
    ensures CanTakeResponder(s) && !s.rs.phase.Unborn? && !s.rs.core.registered ==> Flowing(AfterToResponder(s))
  {
    hide Sum, HeardFrom, Outcome, AllArrive;
    assert s.toResponder + [] == s.toResponder && s.toRequester + [] == s.toRequester;
    if s.toResponder != [] && !s.rs.phase.Unborn? {
      CrossKeepsSum(s.toResponder[0]);
      SumHead(s.toResponder);
    }
  }

  /** The peer's outbound half may be done without a frame that says so. */
  lemma FlowEnds(open: bool, c: Core, q: seq<Frame>, items: seq<Item>, done: bool)
    requires Flow(open, c, q, items, done)
    ensures Flow(open, c, q, items, true)
  {
  }

  lemma RequesterLossFlows(s: System)
    requires Inv(s) && Flowing(s)
    ensures Flowing(AfterRequesterLoses(s))
  {
    hide Sum, HeardFrom, Outcome, AllArrive, Flow;
    var rq, rs := s.rq.core, s.rs.core;
    Quits(rq.Done().(holder := EMPTY), rq.outboundDone, rq.inboundDone);
    if s.rq.streamId > 0 && s.history.offeredWell {
      FlowEnds(Takes(s.rs.phase, rs, s.responderUp), rs, s.toResponder, s.history.offered, rq.outboundDone);
    }
    if s.rq.streamId > 0 && s.history.answeredWell {
      FlowKeeps(s.requesterUp && rq.registered, rq, s.toRequester, s.history.answered, rs.outboundDone, false, RequesterLost(rq));
    }
  }

  lemma ResponderLossFlows(s: System)
    requires Inv(s) && Flowing(s)
    ensures Flowing(AfterResponderLoses(s))
  {
    hide Sum, HeardFrom, Outcome, AllArrive, Flow;
    var rq, rs := s.rq.core, s.rs.core;
    Quits(rs.Done().(holder := EMPTY), rs.outboundDone, rs.inboundDone);
    if s.rq.streamId > 0 && s.history.offeredWell {
      FlowKeeps(Takes(s.rs.phase, rs, s.responderUp), rs, s.toResponder, s.history.offered, rq.outboundDone, false,
                ResponderLost(s.rs.phase, rs));
    }
    if s.rq.streamId > 0 && s.history.answeredWell {
      FlowEnds(s.requesterUp && rq.registered, rq, s.toRequester, s.history.answered, rs.outboundDone);
    }
  }

  lemma ReadyDelivers(r: Requester, id: nat)
    requires r.Valid() && id > 0 && !r.core.outboundDone && RequestIsDeliverable(r)
    ensures Outcome(Inbox(EMPTY, []), RequesterReady(r, id).frames) == Some(Inbox(EMPTY, AllArrive([r.Request()])))
  {
    hide SentFrames;
    var q, b := SentFrames(ChannelKind(r.initialRequestN), id, r.Request(), r.fragmentSize), Inbox(EMPTY, []);
    RequestOutcome(b, ChannelKind(r.initialRequestN), id, r.Request(), r.fragmentSize);
    AllArrivePush([], r.Request());
    assert [] + [r.Request()] == [r.Request()] && q + [] == q;
    if r.extension.Some? {
      var f := ExtFrame(id, r.extension.value);
      ControlDelivers(f, [r.Request()]);
      OutcomeAppend(b, q, [f]);
    }
  }

  lemma ReadyFlows(s: System, id: nat)
    requires Inv(s) && s.rq.streamId == 0 && s.requesterUp && id > 0 && !s.rq.core.outboundDone
    ensures Flowing(AfterRequesterCall(s, Ready(id)))
  {
    hide Sum, SentFrames;
    var q := RequesterReady(s.rq, id).frames;
    ReadySays(s.rq, id);
    assert s.toResponder + q == q && s.history.offered + [s.rq.Request()] == [s.rq.Request()];
    if RequestIsDeliverable(s.rq) {
      ReadyDelivers(s.rq, id);
    }
  }

  lemma EarlyCallFlows(s: System, call: Call)
    requires Inv(s) && s.rq.streamId == 0
    ensures Flowing(AfterRequesterCall(s, call))
  {
    hide Sum, HeardFrom, Outgoing, Returning;
    if call.Ready? && s.requesterUp && call.id > 0 && !s.rq.core.outboundDone {
      ReadyFlows(s, call.id);
    } else {
      EarlyCall(s.rq, s.requesterUp, call);
    }
  }

  lemma StepFlows(s: System, step: Step)
    requires Inv(s) && Flowing(s)
    ensures Flowing(ChannelSystem.Next(s, step))
  {
    hide AfterRequesterCall, AfterResponderCall, AfterToRequester, AfterToResponder, AfterRequesterLoses, AfterResponderLoses,
         Linked, RequestAhead, Outgoing, Returning;
    match step
    case RequesterCalls(call) =>
      if s.rq.streamId > 0 { RequesterCallFlows(s, call); } else { EarlyCallFlows(s, call); }
    case ResponderCalls(call) => if s.rs.Live() { ResponderCallFlows(s, call); }
    case ToResponder =>
      if CanTakeResponder(s) {
        if s.rs.phase.Unborn? { BirthFlows(s); }
        else if s.rs.core.registered { ToResponderFlows(s); }
        else { DropsFlow(s); }
      }
    case ToRequester =>
      if s.requesterUp && s.toRequester != [] {
        if s.rq.core.registered { ToRequesterFlows(s); } else { DropsFlow(s); }
      }
    case RequesterLoses => RequesterLossFlows(s);
    case ResponderLoses => ResponderLossFlows(s);
  }

  lemma {:induction false} RunFlows(s: System, steps: seq<Step>)
    requires Inv(s) && Flowing(s)
    ensures Flowing(Run(s, steps))
    decreases |steps|
  {
    hide ChannelSystem.Next, Linked, RequestAhead, Outgoing, Returning;
    if steps != [] {
      StepKeepsInv(s, steps[0]);
      StepFlows(s, steps[0]);
      RunFlows(ChannelSystem.Next(s, steps[0]), steps[1..]);
    }
  }
}
