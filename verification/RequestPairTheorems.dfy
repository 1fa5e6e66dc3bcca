/** What holds in every run of a request-stream or a request-response. */
module RequestPairTheorems {
  import opened Options
  import opened Bytes
  import opened Frames
  import opened Reassembler
  import opened Fragmenter
  import opened Sending
  import opened StreamSignals
  import opened ChannelStreams
  import opened ChannelQueues
  import opened RequestStreams
  import ChannelSystem
  import opened ChannelInvariant
  import ChannelRuns
  import opened ChannelPayloads
  import ChannelTheorems
  import opened RequestPair
  import opened RequestPairMoves
  import opened RequestPairRuns

  // The payloads

  lemma RequesterCallDelivers(r: OneRequester, up: bool, call: ChannelSystem.Call, items: seq<Item>)
    requires r.Valid() && r.streamId > 0
    ensures Delivers(OneRequesterCalled(r, up, call).frames, items, items)
  {
    hide Outcome, AllArrive, Delivers;
    NothingDelivers(items);
    match call
    case Asks(n) => ControlDelivers(RequestNFrame(r.streamId, n), items);
    case Cancels => ControlDelivers(CancelFrame(r.streamId), items);
    case Extends(e) => if e.Extension? { ControlDelivers(ExtFrame(r.streamId, e), items); }
    case _ =>
  }

  lemma ResponderCallDelivers(r: OneResponder, call: ChannelSystem.Call, items: seq<Item>)
    requires ValidFragmentSize(r.fragmentSize) && ChannelSystem.AreDeliverable(OneAccepts(r, call), r.fragmentSize)
    ensures Delivers(OneResponderCalled(r, call).frames, items, items + OneAccepts(r, call))
  {
    hide Outcome, AllArrive, Delivers, SentFrames;
    var g, id := r.serving.half, r.streamId;
    NothingDelivers(items);
    assert items + [] == items;
    match call
    case Sends(item) =>
      if !g.done { SendsDelivers(id, r.fragmentSize, AsCore(g), item.(complete := r.single || item.complete), items); }
    case Completes => ControlDelivers(CompleteFrame(id), items);
    case Errs => ControlDelivers(ErrorFrame(id, APPLICATION_ERROR), items);
    case Extends(e) => if e.Extension? { ControlDelivers(ExtFrame(id, e), items); }
    case _ =>
  }

  lemma RequesterTakesWell(single: bool, id: nat, h: Half, f: Frame)
    requires AskerFine(h, true) && h.registered && IsAnswer(single, f) && !Irregular(f) && Suits(AsCore(h), f)
    ensures var e := OneRequesterTurns(single, id, h, f);
            !e.state.thrown && e.frames == [] && TakesWell(AsCore(h), e.state.registered, AsCore(e.state), f)
  {
    hide HeardFrom;
    if f.Payload? && !HasFollows(f.flags) {
      PushSignal(h.signals, if BareCompletion(f) then Completed
                            else Signal.Next(Assembled(h.holder, f).value, HasComplete(f.flags)));
    } else if !f.Payload? {
      PushSignal(h.signals, if f.Error? then Failed else ExtensionOf(f));
    }
  }

  lemma ResponderTakesWell(single: bool, id: nat, n: int, stage: Stage, g: Half, f: Frame, rest: Summary)
    requires AnswererFaces(single, stage, g, f, rest) && Suits(AsCore(g), f)
    ensures var e := OneResponderTurns(single, id, n, stage, g, f);
            && !e.state.half.thrown && e.frames == [] && TakesWell(AsCore(g), e.state.half.registered, AsCore(e.state.half), f)
  {
    hide HeardFrom;
    if f.Payload? && !HasFollows(f.flags) {
      PushSignal(g.signals, Started(Reassemble(g.holder, f.data, f.metadata).value, n, false));
    } else if !f.Payload? {
      PushSignal(g.signals, if f.RequestN? then Requested(f.requestN) else if f.Ext? then ExtensionOf(f) else Cancelled);
    }
  }

  lemma BirthTakesWell(single: bool, size: nat, f: Frame)
    requires IsOneRequest(single, f) && f.streamId > 0 && !Irregular(f)
    ensures var g := OneBorn(single, size, f).serving.half;
            !g.thrown && Suits(AsCore(NEW_HALF), f) && TakesWell(AsCore(NEW_HALF), g.registered, AsCore(g), f)
  {
    NothingHeard();
    if !HasFollows(f.flags) {
      PushSignal([], Started(AppPayload(f.data, f.metadata), DemandIn(f), false));
    }
  }

  // Each step

  lemma RequesterCallStreams(s: Pair, call: ChannelSystem.Call)
    requires PairInv(s) && s.rq.streamId > 0 && Streaming(s)
    ensures Streaming(AfterRequesterCall(s, call))
  {
    hide Sum, HeardFrom, Outcome, AllArrive, Flow, Delivers, OneRequesterCalled;
    var e, g := OneRequesterCalled(s.rq, s.requesterUp, call), s.rs.serving.half;
    RequesterCallActs(s.rq, s.requesterUp, call);
    if s.record.requestedWell {
      RequesterCallDelivers(s.rq, s.requesterUp, call, [s.rq.request]);
      FlowPush(s.responderUp && (s.rs.serving.stage.Awaited? || g.registered), AsCore(g), s.toResponder, [s.rq.request], true,
               e.frames, [s.rq.request], true);
    }
    if s.record.answeredWell {
      FlowKeeps(s.requesterUp && s.rq.half.registered, AsCore(s.rq.half), s.toRequester, s.record.answered, g.done,
                s.requesterUp && e.state.half.registered, AsCore(e.state.half));
    }
  }

  lemma ResponderCallStreams(s: Pair, call: ChannelSystem.Call)
    requires PairInv(s) && s.rq.streamId > 0 && Streaming(s) && s.rs.serving.stage.Served?
    ensures Streaming(AfterResponderCall(s, call))
  {
    hide Sum, HeardFrom, Outcome, AllArrive, Flow, Delivers, OneResponderCalled;
    var e, s', g := OneResponderCalled(s.rs, call), AfterResponderCall(s, call), s.rs.serving.half;
    var back := s.requesterUp && s.rq.half.registered;
    ResponderCallActs(s.rs, call);
    if s'.record.answeredWell {
      if s.responderUp {
        ResponderCallDelivers(s.rs, call, s.record.answered);
        FlowPush(back, AsCore(s.rq.half), s.toRequester, s.record.answered, g.done, e.frames, s'.record.answered, e.state.done);
      } else if e.state.done {
        FlowEnds(back, AsCore(s.rq.half), s.toRequester, s.record.answered, g.done);
      }
    }
    if s.record.requestedWell {
      FlowKeeps(s.responderUp && g.registered, AsCore(g), s.toResponder, [s.rq.request], true,
                s.responderUp && e.state.registered, AsCore(e.state));
    }
  }

  lemma ToRequesterStreams(s: Pair)
    requires PairInv(s) && s.rq.streamId > 0 && Streaming(s) && s.requesterUp && s.toRequester != [] && s.rq.half.registered
    ensures Streaming(AfterToRequester(s))
  {
    hide Sum, HeardFrom, Outcome, AllArrive, Flow, Delivers, OneRequesterTurns, Suits, TakesWell, Lone;
    var h, g, f := s.rq.half, s.rs.serving.half, ChannelSystem.Cross(s.toRequester[0]);
    var e := OneRequesterTurns(s.rq.single, s.rq.streamId, h, f);
    CrossKeeps(s.rq.single, s.toRequester[0]);
    SumHead(s.toRequester);
    RequesterTakesFrame(s.rq.single, s.rq.streamId, h, f);
    if s.record.requestedWell {
      AnswersDeliver(e.frames, [s.rq.request]);
      FlowPush(s.responderUp && (s.rs.serving.stage.Awaited? || g.registered), AsCore(g), s.toResponder, [s.rq.request], true,
               e.frames, [s.rq.request], true);
    }
    if s.record.answeredWell {
      FlowSuits(AsCore(h), s.toRequester, s.record.answered, g.done);
      RequesterTakesWell(s.rq.single, s.rq.streamId, h, f);
      FlowTakes(AsCore(h), s.toRequester, s.record.answered, g.done, e.state.registered, AsCore(e.state));
    }
  }

  lemma ToResponderStreams(s: Pair)
    requires PairInv(s) && s.rq.streamId > 0 && Streaming(s) && s.responderUp && s.toResponder != []
    requires s.rs.serving.half.registered && !s.rs.serving.stage.Awaited?
    ensures Streaming(AfterToResponder(s))
  {
    hide Sum, HeardFrom, Outcome, AllArrive, Flow, Delivers, OneResponderTurns, Suits, TakesWell, Lone;
    var serving, f := s.rs.serving, ChannelSystem.Cross(s.toResponder[0]);
    var g, rest := serving.half, Sum(s.toResponder[1..]);
    var e := OneResponderTurns(s.rs.single, s.rs.streamId, s.rs.initialRequestN, serving.stage, g, f);
    CrossKeeps(s.rq.single, s.toResponder[0]);
    SumHead(s.toResponder);
    AnswererFacesIt(s);
    ResponderTakesFrame(s.rs.single, s.rs.streamId, s.rs.initialRequestN, serving.stage, g, f, rest);
    if s.record.answeredWell {
      AnswersDeliver(e.frames, s.record.answered);
      FlowPush(s.requesterUp && s.rq.half.registered, AsCore(s.rq.half), s.toRequester, s.record.answered, g.done,
               e.frames, s.record.answered, e.state.half.done);
    }
    if s.record.requestedWell {
      FlowSuits(AsCore(g), s.toResponder, [s.rq.request], true);
      ResponderTakesWell(s.rs.single, s.rs.streamId, s.rs.initialRequestN, serving.stage, g, f, rest);
      FlowTakes(AsCore(g), s.toResponder, [s.rq.request], true, e.state.half.registered, AsCore(e.state.half));
    }
  }

  lemma BirthStreams(s: Pair)
    requires PairInv(s) && s.rq.streamId > 0 && Streaming(s) && s.responderUp && s.toResponder != []
    requires s.rs.serving.stage.Awaited?
    ensures Streaming(AfterToResponder(s))
  {
    hide Sum, HeardFrom, Outcome, AllArrive, Flow, Delivers, OneBorn, Suits, TakesWell, Lone;
    var f, s' := ChannelSystem.Cross(s.toResponder[0]), AfterToResponder(s);
    CrossKeeps(s.rq.single, s.toResponder[0]);
    SumHead(s.toResponder);
    ResponderTakesIt(s);
    BirthTakesWell(s.rq.single, s.rs.fragmentSize, f);
    assert s.toRequester + [] == s.toRequester;
    if s.record.answeredWell && s'.rs.serving.half.done {
      FlowEnds(s.requesterUp && s.rq.half.registered, AsCore(s.rq.half), s.toRequester, s.record.answered, false);
    }
    if s.record.requestedWell {
      FlowTakes(AsCore(NEW_HALF), s.toResponder, [s.rq.request], true, s'.rs.serving.half.registered, AsCore(s'.rs.serving.half));
    }
  }

  lemma DropsStream(s: Pair)
    requires PairInv(s) && s.rq.streamId > 0 && Streaming(s)
    ensures s.requesterUp && s.toRequester != [] && !s.rq.half.registered ==> Streaming(AfterToRequester(s))
    ensures s.responderUp && s.toResponder != [] && !s.rs.serving.stage.Awaited? && !s.rs.serving.half.registered ==>
              Streaming(AfterToResponder(s))
  {
    hide Sum, HeardFrom, Outcome, AllArrive, Lone;
    assert s.toResponder + [] == s.toResponder && s.toRequester + [] == s.toRequester;
    if s.toResponder != [] && !s.rs.serving.stage.Awaited? {
      CrossKeeps(s.rq.single, s.toResponder[0]);
      SumHead(s.toResponder);
    }
  }

  lemma RequesterLossStreams(s: Pair)
    requires PairInv(s) && Streaming(s) && s.requesterUp
    ensures Streaming(AfterRequesterLoses(s))
  {
    hide Sum, HeardFrom, Outcome, AllArrive, Flow, Lone;
    var h := s.rq.half;
    PushSignal(h.signals, Failed);
    if s.rq.streamId > 0 && s.record.answeredWell {
      FlowKeeps(h.registered, AsCore(h), s.toRequester, s.record.answered, s.rs.serving.half.done, false, AsCore(OneRequesterLost(h)));
    }
  }

  lemma ResponderLossStreams(s: Pair)
    requires PairInv(s) && Streaming(s) && s.responderUp
    ensures Streaming(AfterResponderLoses(s))
  {
    hide Sum, HeardFrom, Outcome, AllArrive, Flow, Lone;
    var g, stage := s.rs.serving.half, s.rs.serving.stage;
    PushSignal(g.signals, Cancelled);
    if s.rq.streamId > 0 && s.record.requestedWell {
      FlowKeeps(stage.Awaited? || g.registered, AsCore(g), s.toResponder, [s.rq.request], true, false,
                AsCore(OneResponderLost(stage, g)));
    }
  }

  lemma ReadyDelivers(r: OneRequester, id: nat)
    requires r.Valid() && id > 0 && !r.half.done && Deliverable(r.RequestKind(), r.request, r.fragmentSize)
    ensures Outcome(Inbox(EMPTY, []), OneReady(r, id).frames) == Some(Inbox(EMPTY, AllArrive([r.request])))
  {
    hide SentFrames;
    var q, b := SentFrames(r.RequestKind(), id, r.request, r.fragmentSize), Inbox(EMPTY, []);
    RequestOutcome(b, r.RequestKind(), id, r.request, r.fragmentSize);
    AllArrivePush([], r.request);
    assert [] + [r.request] == [r.request] && q + [] == q;
    if r.extension.Some? {
      var f := ExtFrame(id, r.extension.value);
      ControlDelivers(f, [r.request]);
      OutcomeAppend(b, q, [f]);
    }
  }

  lemma ReadyStreams(s: Pair, id: nat)
    requires PairInv(s) && s.rq.streamId == 0 && s.requesterUp && id > 0 && !s.rq.half.done
    ensures Streaming(AfterRequesterCall(s, ChannelSystem.Ready(id)))
  {
    hide Sum, SentFrames, Lone;
    var q := OneReady(s.rq, id).frames;
    assert s.toResponder + q == q;
    NothingHeard();
    if Deliverable(s.rq.RequestKind(), s.rq.request, s.rq.fragmentSize) {
      ReadyDelivers(s.rq, id);
    }
  }

  lemma EarlyCallStreams(s: Pair, call: ChannelSystem.Call)
    requires PairInv(s) && s.rq.streamId == 0
    ensures Streaming(AfterRequesterCall(s, call))
  {
    hide Sum, HeardFrom, Asking, Answering;
    if call.Ready? && s.requesterUp && call.id > 0 && !s.rq.half.done {
      ReadyStreams(s, call.id);
    } else {
      EarlyCall(s.rq, s.requesterUp, call);
    }
  }

  lemma StepStreams(s: Pair, step: ChannelSystem.Step)
    requires PairInv(s) && Streaming(s)
    ensures Streaming(Goes(s, step))
  {
    hide AfterRequesterCall, AfterResponderCall, AfterToRequester, AfterToResponder, AfterRequesterLoses, AfterResponderLoses,
         Coupled, Lone, BeginsWith, Asking, Answering;
    match step
    case RequesterCalls(call) =>
      if s.rq.streamId > 0 { RequesterCallStreams(s, call); } else { EarlyCallStreams(s, call); }
    case ResponderCalls(call) => if s.rs.serving.stage.Served? { ResponderCallStreams(s, call); }
    case ToResponder =>
      if s.responderUp && s.toResponder != [] {
        if s.rs.serving.stage.Awaited? { BirthStreams(s); }
        else if s.rs.serving.half.registered { ToResponderStreams(s); }
        else { DropsStream(s); }
      }
    case ToRequester =>
      if s.requesterUp && s.toRequester != [] {
        if s.rq.half.registered { ToRequesterStreams(s); } else { DropsStream(s); }
      }
    case RequesterLoses => if s.requesterUp { RequesterLossStreams(s); }
    case ResponderLoses => if s.responderUp { ResponderLossStreams(s); }
  }

  lemma {:induction false} PlayStreams(s: Pair, steps: seq<ChannelSystem.Step>)
    requires PairInv(s) && Streaming(s)
    ensures Streaming(Play(s, steps))
    decreases |steps|
  {
    hide Goes, Coupled, Lone, BeginsWith, Asking, Answering;
    if steps != [] {
      StepKeeps(s, steps[0]);
      StepStreams(s, steps[0]);
      PlayStreams(Goes(s, steps[0]), steps[1..]);
    }
  }

  // Every run

  /** A state that some interleaving of calls, deliveries and losses of connections leads to. */
  ghost predicate Possible(s: Pair) {
    exists single: bool, payload: Item, n: int, size: nat, peerSize: nat, steps: seq<ChannelSystem.Step> ::
      ValidFragmentSize(size) && ValidFragmentSize(peerSize) && s == Play(Outset(single, payload, n, size, peerSize), steps)
  }

  lemma PossibleInv(s: Pair)
    requires Possible(s)
    ensures PairInv(s) && Streaming(s)
  {
    hide Coupled, Lone, BeginsWith, Asking, Answering, Idle;
    var single, payload, n, size, peerSize, steps :|
      ValidFragmentSize(size) && ValidFragmentSize(peerSize) && s == Play(Outset(single, payload, n, size, peerSize), steps);
    OutsetInv(single, payload, n, size, peerSize);
    PlayKeeps(Outset(single, payload, n, size, peerSize), steps);
    PlayStreams(Outset(single, payload, n, size, peerSize), steps);
  }

  /** When nothing is in flight, both ends are done or neither is, and the registries agree. */
  lemma OneFlagAgrees(s: Pair)
    requires Possible(s) && s.requesterUp && s.responderUp
    requires s.rq.streamId > 0 && s.toResponder == [] && s.toRequester == []
    ensures s.rq.half.done == s.rs.serving.half.done && s.rq.half.registered == s.rs.serving.half.registered
    ensures s.rq.half.registered == !s.rq.half.done
  {
    PossibleInv(s);
  }

  /** The demand of a ready stream is what the responder has been told, or keeps until its request is
      complete, together with what is in flight; with nothing in flight, an open responder that serves has
      been told exactly what the requester has asked for. */
  lemma DemandReachesTheResponder(s: Pair)
    requires Possible(s) && s.rq.streamId > 0 && s.requesterUp && s.responderUp
    ensures s.rs.serving.stage.Awaited? || s.rs.serving.half.registered ==>
              ToldOf(s.rs) + Sum(s.toResponder).asked == s.record.demanded
    ensures s.rs.serving.stage.Served? && s.rs.serving.half.registered && s.toResponder == [] ==>
              s.rs.serving.half.Heard().demand == s.record.demanded
  {
    PossibleInv(s);
  }

  /** As long as the fragmenter can deliver them: the requester gets the responder's payloads in order, all
      of them before the completion; the responder gets the request, once. */
  lemma AnswersArriveInOrder(s: Pair)
    requires Possible(s)
    ensures s.record.answeredWell ==>
              && s.rq.half.Heard().elements <= AllArrive(s.record.answered)
              && (s.toRequester == [] && s.requesterUp && s.rq.half.registered ==>
                    s.rq.half.Heard().elements == AllArrive(s.record.answered))
              && (s.rq.half.Heard().completed ==> s.rq.half.Heard().elements == AllArrive(s.record.answered))
    ensures s.record.requestedWell ==> s.rs.serving.half.Heard().elements <= [Arrives(s.rq.request)]
    ensures s.record.requestedWell && s.rs.serving.stage.Served? ==> s.rs.serving.half.Heard().elements == [Arrives(s.rq.request)]
  {
    hide Outcome, Sum, Lone, Flow;
    PossibleInv(s);
    NothingHeard();
    var g := s.rs.serving.half;
    assert AllArrive([s.rq.request]) == [Arrives(s.rq.request)];
    if s.rq.streamId > 0 && s.record.answeredWell {
      ChannelTheorems.FlowCloses(s.requesterUp && s.rq.half.registered, AsCore(s.rq.half), s.toRequester, s.record.answered, g.done);
    }
    if s.rq.streamId > 0 && s.record.requestedWell {
      ChannelTheorems.FlowCloses(s.responderUp && (s.rs.serving.stage.Awaited? || g.registered), AsCore(g), s.toResponder,
                                 [s.rq.request], true);
    }
  }

  /** Both applications get well-formed signals in every run: at most one terminal signal, no element after
      it and, for the responder, at most one cancellation. */
  lemma OneFlagSignals(s: Pair)
    requires Possible(s)
    ensures WellFormedLog(s.rq.half.signals) && WellFormedLog(s.rs.serving.half.signals)
    ensures s.rq.half.Heard().terminated ==> s.rq.half.done
  {
    hide Sum, Lone;
    PossibleInv(s);
    NothingHeard();
    WellFormedMeans(s.rq.half.signals);
    WellFormedMeans(s.rs.serving.half.signals);
  }

  /** The only frames that an end gives the stream up over are, at the requester, extensions while it holds
      fragments and, at the responder, REQUEST_N and extensions while it puts the request together; and
      payloads that the fragmenter can deliver cause neither that nor an exception. */
  lemma OneFlagRefusals(s: Pair)
    requires Possible(s)
    ensures s.requesterUp && s.toRequester != [] && s.rq.half.registered ==>
              var e := OneRequesterTurns(s.rq.single, s.rq.streamId, s.rq.half, ChannelSystem.Cross(s.toRequester[0]));
              && (e.frames != [] <==> s.toRequester[0].Ext? && s.rq.half.holder.hasFragments)
              && (s.record.answeredWell ==> e.frames == [] && !e.state.thrown)
    ensures s.responderUp && s.toResponder != [] && s.rs.serving.half.registered && !s.rs.serving.stage.Awaited? ==>
              var e := OneResponderTurns(s.rs.single, s.rs.streamId, s.rs.initialRequestN, s.rs.serving.stage, s.rs.serving.half,
                                         ChannelSystem.Cross(s.toResponder[0]));
              && (e.frames != [] <==> s.rs.serving.stage.Gathering? && (s.toResponder[0].RequestN? || s.toResponder[0].Ext?))
              && (s.record.requestedWell ==> e.frames == [] && !e.state.half.thrown)
  {
    hide Sum, HeardFrom, Outcome, AllArrive, Flow, OneRequesterTurns, OneResponderTurns, Suits, TakesWell, Lone;
    PossibleInv(s);
    if s.requesterUp && s.toRequester != [] && s.rq.half.registered {
      RequesterRefusals(s);
    }
    if s.responderUp && s.toResponder != [] && s.rs.serving.half.registered && !s.rs.serving.stage.Awaited? {
      ResponderRefusals(s);
    }
  }

  lemma RequesterRefusals(s: Pair)
    requires PairInv(s) && Streaming(s) && s.requesterUp && s.toRequester != [] && s.rq.half.registered
    ensures var e := OneRequesterTurns(s.rq.single, s.rq.streamId, s.rq.half, ChannelSystem.Cross(s.toRequester[0]));
            && (e.frames != [] <==> s.toRequester[0].Ext? && s.rq.half.holder.hasFragments)
            && (s.record.answeredWell ==> e.frames == [] && !e.state.thrown)
  {
    hide Sum, HeardFrom, Outcome, AllArrive, Flow, OneRequesterTurns, Suits, TakesWell, Lone;
    var h, f := s.rq.half, ChannelSystem.Cross(s.toRequester[0]);
    CrossKeeps(s.rq.single, s.toRequester[0]);
    SumHead(s.toRequester);
    RequesterTakesFrame(s.rq.single, s.rq.streamId, h, f);
    if s.record.answeredWell {
      FlowSuits(AsCore(h), s.toRequester, s.record.answered, s.rs.serving.half.done);
      RequesterTakesWell(s.rq.single, s.rq.streamId, h, f);
    }
  }

  lemma ResponderRefusals(s: Pair)
    requires PairInv(s) && Streaming(s) && s.responderUp && s.toResponder != []
    requires s.rs.serving.half.registered && !s.rs.serving.stage.Awaited?
    ensures var e := OneResponderTurns(s.rs.single, s.rs.streamId, s.rs.initialRequestN, s.rs.serving.stage, s.rs.serving.half,
                                       ChannelSystem.Cross(s.toResponder[0]));
            && (e.frames != [] <==> s.rs.serving.stage.Gathering? && (s.toResponder[0].RequestN? || s.toResponder[0].Ext?))
            && (s.record.requestedWell ==> e.frames == [] && !e.state.half.thrown)
  {
    hide Sum, HeardFrom, Outcome, AllArrive, Flow, OneResponderTurns, Suits, TakesWell, Lone;
    var serving, f, rest := s.rs.serving, ChannelSystem.Cross(s.toResponder[0]), Sum(s.toResponder[1..]);
    CrossKeeps(s.rq.single, s.toResponder[0]);
    AnswererFacesIt(s);
    ResponderTakesFrame(s.rs.single, s.rs.streamId, s.rs.initialRequestN, serving.stage, serving.half, f, rest);
    if s.record.requestedWell {
      FlowSuits(AsCore(serving.half), s.toResponder, [s.rq.request], true);
      ResponderTakesWell(s.rs.single, s.rs.streamId, s.rs.initialRequestN, serving.stage, serving.half, f, rest);
    }
  }
}
