/** What the applications of a channel are told: an application hears of the end of each half, unless it
    has ended that half itself or the code has no way to tell it. */
module ChannelTellings {
  import opened Options
  import opened Bytes
  import opened Frames
  import opened Reassembler
  import opened Fragmenter
  import opened Sending
  import opened StreamSignals
  import opened ChannelStreams
  import opened ChannelSystem
  import opened ChannelQueues
  import opened ChannelInvariant
  import opened ChannelMoves
  import opened ChannelDeliveries
  import opened ChannelRuns
  import opened ChannelTheorems

  // The connection closes

  /** An end that closes tells its receiver of each half that was open: of the inbound half by the error, or
      by the completion if there is none. */
  lemma ClosingTells(c: Core, withError: bool)
    ensures var h, h' := c.Heard(), RequesterCloses(c, withError).Heard();
            && h'.cancelled == (h.cancelled || !c.outboundDone) && h'.terminated == (h.terminated || !c.inboundDone)
            && h'.completed == (h.completed || (!c.inboundDone && !withError))
            && h'.elements == h.elements && h'.demand == h.demand
    ensures var c' := RequesterCloses(c, withError);
            && c'.inboundDone && c'.outboundDone && c'.registered == c.registered
            && ((c.inboundDone && c.outboundDone) || c'.holder == EMPTY)
    ensures ResponderCloses(Running, c, withError) == RequesterCloses(c, withError)
  {
    hide HeardFrom;
    var c1 := c.Done().(holder := EMPTY);
    PushSignal(c1.signals, Cancelled);
    PushSignal(c1.CancelledUnless(c.outboundDone).signals, if withError then Failed else Completed);
  }

  // The requester

  /** What has been told to the application of a ready requester. */
  ghost predicate AskerTold(c: Core, own: Own) {
    var h := c.Heard();
    && (h.terminated ==> c.inboundDone) && (h.cancelled ==> c.outboundDone)
    && (c.inboundDone ==> c.thrown || h.terminated == !own.cancelled)
    && (c.outboundDone ==> h.cancelled == !own.ended) && (!c.outboundDone ==> !own.ended)
    && (own.cancelled ==> c.inboundDone && c.outboundDone)
  }

  /** Before it is ready, a requester is cancelled by its application or rejected, if anything. */
  ghost predicate EarlyTold(c: Core, own: Own) {
    var h := c.Heard();
    && c.inboundDone == c.outboundDone && !c.thrown
    && h.cancelled == own.cancelled && (own.cancelled ==> c.inboundDone)
    && h.terminated == (c.inboundDone && !own.cancelled)
  }

  ghost predicate RequesterIsTold(r: Requester, own: Own) {
    if r.streamId == 0 then EarlyTold(r.core, own) && own.ended == r.isComplete else AskerTold(r.core, own)
  }

  lemma RequesterCallTells(r: Requester, up: bool, call: Call, own: Own)
    requires r.Valid() && RequesterIsTold(r, own)
    ensures RequesterIsTold(RequesterCalled(r, up, call).state, RequesterOwn(r, call, own))
  {
    hide HeardFrom, SentFrames;
    var c := r.core;
    PushSignal(c.signals, Cancelled);
    PushSignal(c.signals, Failed);
  }

  lemma RequesterFrameTells(id: nat, c: Core, f: Frame, rest: Summary, own: Own)
    requires RequesterFaces(c, f, rest) && AskerTold(c, own)
    ensures AskerTold(RequesterTurns(id, c, f).state, own)
  {
    hide HeardFrom, RequesterTurns;
    match f
    case Payload(_, _, _, _) => RequesterPayloadTells(id, c, f, rest, own);
    case _ => RequesterOtherTells(id, c, f, rest, own);
  }

  lemma RequesterPayloadTells(id: nat, c: Core, f: Frame, rest: Summary, own: Own)
    requires RequesterFaces(c, f, rest) && AskerTold(c, own) && f.Payload?
    ensures AskerTold(RequesterTurns(id, c, f).state, own)
  {
    hide HeardFrom;
    var c1 := RequesterHandles(id, c, f).state;
    if c1.thrown {
      Quits(c1.Done().(holder := EMPTY), c1.outboundDone, c1.inboundDone);
    } else if !HasFollows(f.flags) {
      PushSignal(c.signals, if HasComplete(f.flags) && !HasNext(f.flags) then Completed
                            else Signal.Next(Assembled(c.holder, f).value, HasComplete(f.flags)));
    }
  }

  lemma RequesterOtherTells(id: nat, c: Core, f: Frame, rest: Summary, own: Own)
    requires RequesterFaces(c, f, rest) && AskerTold(c, own) && !f.Payload?
    ensures AskerTold(RequesterTurns(id, c, f).state, own)
  {
    hide HeardFrom;
    match f
    case Error(_, _, _, _) => Quits(c.Done().(registered := false, holder := EMPTY), c.outboundDone, false);
    case Cancel(_, _) => PushSignal(c.signals, Cancelled);
    case RequestN(_, _, n) =>
      Quits(c.Done().(holder := EMPTY), c.outboundDone, c.inboundDone);
      PushSignal(c.signals, Requested(n));
    case Ext(_, _, _, _) => PushSignal(c.signals, ExtensionOf(f));
    case _ =>
  }

  /** An exception tells the application of the end, unless the frame says COMPLETE: then the inbound half is
      done before the reassembler throws, and nobody tells. */
  lemma ExceptionLeavesUntold(id: nat, c: Core, f: Frame, rest: Summary)
    requires RequesterFaces(c, f, rest) && f.Payload? && !c.Heard().terminated
    ensures var c' := RequesterTurns(id, c, f).state;
            c'.thrown ==>
              c'.inboundDone && !c'.holder.hasFragments && (c'.Heard().terminated <==> !HasComplete(f.flags))
  {
    hide HeardFrom;
    var c1 := RequesterHandles(id, c, f).state;
    Quits(c1.Done().(holder := EMPTY), c1.outboundDone, c1.inboundDone);
  }

  lemma RequesterLossTells(c: Core, own: Own)
    requires AskerTold(c, own)
    ensures AskerTold(RequesterLost(c), own)
  {
    hide HeardFrom;
    ClosingTells(c, true);
  }

  // The responder

  /** The error that the receiver is to be told of when the handler returns. */
  predicate ErrorIsKept(phase: Phase) {
    phase.InHandler? && phase.fromConstructor && phase.deferredError
  }

  ghost predicate AnswererTold(phase: Phase, c: Core, up: bool, own: Own, mutedIn: bool, mutedOut: bool) {
    var h := c.Heard();
    && (h.terminated ==> c.inboundDone) && (h.cancelled ==> c.outboundDone)
    && if phase.Unborn? || phase.Assembling? then own == NOTHING_YET && !mutedIn && !mutedOut && !h.terminated && !h.cancelled
       else
         && (c.inboundDone ==> h.terminated || own.cancelled || mutedIn || ErrorIsKept(phase))
         && (mutedIn || ErrorIsKept(phase) ==> c.inboundDone && c.outboundDone && !h.terminated && !own.cancelled)
         && !(mutedIn && ErrorIsKept(phase)) && (up && c.registered ==> !mutedIn && !mutedOut)
         && (own.cancelled ==> c.inboundDone)
         && (c.outboundDone ==> h.cancelled == (!own.ended && !mutedOut)) && (!c.outboundDone ==> !own.ended && !mutedOut)
  }

  lemma ResponderCallTells(r: Responder, up: bool, call: Call, own: Own, mutedIn: bool, mutedOut: bool)
    requires r.Valid() && r.Live() && AnswererTold(r.phase, r.core, up, own, mutedIn, mutedOut)
    requires up ==> Registered(r.core)
    ensures var r' := ResponderCalled(r, call).state;
            AnswererTold(r'.phase, r'.core, up, ResponderOwn(r.core, call, own),
                         mutedIn || ErrorIsForgotten(r.phase, r.core, call), mutedOut)
  {
    hide HeardFrom, SentFrames;
    PushSignal(r.core.signals, Failed);
  }

  lemma ResponderFrameTells(id: nat, phase: Phase, c: Core, f: Frame, rest: Summary, own: Own, mutedIn: bool, mutedOut: bool)
    requires ResponderFaces(phase, c, f, rest) && AnswererTold(phase, c, true, own, mutedIn, mutedOut)
    ensures var e := ResponderTurns(id, phase, c, f).state;
            AnswererTold(e.phase, e.core, !e.core.thrown, own, mutedIn, mutedOut)
  {
    hide HeardFrom, ResponderTurns, AnswererTold;
    if f.Payload? {
      ResponderPayloadTells(id, phase, c, f, rest, own, mutedIn, mutedOut);
    } else {
      ResponderOtherTells(id, phase, c, f, rest, own, mutedIn, mutedOut);
    }
  }

  lemma ResponderPayloadTells(id: nat, phase: Phase, c: Core, f: Frame, rest: Summary, own: Own, mutedIn: bool, mutedOut: bool)
    requires ResponderFaces(phase, c, f, rest) && AnswererTold(phase, c, true, own, mutedIn, mutedOut) && f.Payload?
    ensures var e := ResponderTurns(id, phase, c, f).state;
            AnswererTold(e.phase, e.core, !e.core.thrown, own, mutedIn, mutedOut)
  {
    hide HeardFrom;
    var c1 := ResponderHandles(id, phase, c, f).state.core;
    if c1.thrown {
      Quits(c1.Done().(holder := EMPTY), c1.outboundDone, c1.inboundDone);
    } else if !HasFollows(f.flags) {
      var p, last := Assembled(c.holder, f).value, HasComplete(f.flags);
      PushSignal(c.signals, if phase.Assembling? then Started(p, phase.initialRequestN, last)
                            else if last && !HasNext(f.flags) then Completed else Signal.Next(p, last));
    }
  }

  lemma ResponderOtherTells(id: nat, phase: Phase, c: Core, f: Frame, rest: Summary, own: Own, mutedIn: bool, mutedOut: bool)
    requires ResponderFaces(phase, c, f, rest) && AnswererTold(phase, c, true, own, mutedIn, mutedOut) && !f.Payload?
    ensures var e := ResponderTurns(id, phase, c, f).state;
            AnswererTold(e.phase, e.core, !e.core.thrown, own, mutedIn, mutedOut)
  {
    hide HeardFrom, AnswererTold;
    var e := ResponderTurns(id, phase, c, f).state;
    if (f.RequestN? || f.Ext?) && phase.Running? && !c.holder.hasFragments {
      var signal := if f.RequestN? then Requested(f.requestN) else ExtensionOf(f);
      PushSignal(c.signals, signal);
      ResponderKeepsOn(c, e.core, own, mutedIn, mutedOut);
    } else {
      Quits(c.Done().(registered := false, holder := EMPTY), c.outboundDone, c.inboundDone);
      ResponderQuitTells(phase, c, e.core, own, mutedIn, mutedOut);
    }
  }

  lemma ResponderKeepsOn(c: Core, c': Core, own: Own, mutedIn: bool, mutedOut: bool)
    requires AnswererTold(Running, c, true, own, mutedIn, mutedOut)
    requires c' == c.(signals := c'.signals) && c'.Heard().terminated == c.Heard().terminated
    requires c'.Heard().cancelled == c.Heard().cancelled
    ensures AnswererTold(Running, c', true, own, mutedIn, mutedOut)
  {
    hide HeardFrom;
  }

  lemma ResponderQuitTells(phase: Phase, c: Core, c': Core, own: Own, mutedIn: bool, mutedOut: bool)
    requires AnswererTold(phase, c, true, own, mutedIn, mutedOut) && c.registered && c'.inboundDone && c'.outboundDone
    requires if phase.Assembling? then c'.signals == c.signals
             else phase.Running? && HasQuit(c'.Heard(), c.Heard(), c.outboundDone, c.inboundDone)
    requires !c'.registered
    ensures AnswererTold(phase, c', true, own, mutedIn, mutedOut)
  {
    hide HeardFrom;
  }

  lemma ResponderBirthTells(size: nat, f: Frame)
    requires f.RequestChannel? && f.streamId > 0
    ensures var r := ResponderBorn(size, f); AnswererTold(r.phase, r.core, true, NOTHING_YET, false, false)
  {
    if !HasFollows(f.flags) {
      PushSignal([], Started(AppPayload(f.data, f.metadata), f.requestN, HasComplete(f.flags)));
    }
  }

  lemma ResponderLossTells(phase: Phase, c: Core, own: Own, mutedIn: bool, mutedOut: bool)
    requires AnswererTold(phase, c, true, own, mutedIn, mutedOut)
    ensures var inside := phase.InHandler? && c.registered;
            AnswererTold(phase, ResponderLost(phase, c), false, own, mutedIn || (inside && !c.inboundDone),
                         mutedOut || (inside && !c.outboundDone))
  {
    hide HeardFrom;
    ClosingTells(c, true);
  }

  /** An error that the application raises within its handler, with both halves open, reaches the receiver
      that the handler returns if and only if the constructor called the handler. */
  lemma ErrorWithinHandler(r: Responder)
    requires r.Valid() && r.phase.InHandler? && !r.phase.deferredError && !r.core.inboundDone && !r.core.outboundDone
    requires !r.core.Heard().terminated
    ensures var r' := ChannelStreams.HandlerReturns(ResponderCalled(r, Errs).state);
            && r'.core.inboundDone && r'.core.outboundDone && (r'.core.Heard().terminated <==> r.phase.fromConstructor)
  {
    hide HeardFrom;
    PushSignal(r.core.signals, Failed);
  }

  // Every run

  ghost predicate AllTold(s: System) {
    var h := s.history;
    && RequesterIsTold(s.rq, h.asker)
    && AnswererTold(s.rs.phase, s.rs.core, s.responderUp, h.answerer, h.mutedIn, h.mutedOut)
  }

  lemma StartTells(payload: Item, isComplete: bool, n: int, size: nat, peerSize: nat)
    ensures AllTold(Start(payload, isComplete, n, size, peerSize))
  {
  }

  lemma RequesterCallTellsAll(s: System, call: Call)
    requires Inv(s) && AllTold(s)
    ensures AllTold(AfterRequesterCall(s, call))
  {
    hide HeardFrom, Sum, RequesterCalled, RequesterOwn, RequesterIsTold, AnswererTold, Linked, NotReady;
    RequesterCallTells(s.rq, s.requesterUp, call, s.history.asker);
  }

  lemma ResponderCallTellsAll(s: System, call: Call)
    requires Inv(s) && AllTold(s) && s.rs.Live()
    ensures AllTold(AfterResponderCall(s, call))
  {
    hide HeardFrom, Sum, ResponderCalled, ResponderOwn, RequesterIsTold, AnswererTold;
    ResponderCallTells(s.rs, s.responderUp, call, s.history.answerer, s.history.mutedIn, s.history.mutedOut);
  }

  lemma ToRequesterTells(s: System)
    requires Inv(s) && AllTold(s) && s.requesterUp && s.toRequester != []
    ensures AllTold(AfterToRequester(s))
  {
    hide HeardFrom, Sum, RequesterTurns, AskerTold, EarlyTold, AnswererTold;
    if s.rq.core.registered {
      RequesterFacesIt(s);
      RequesterFrameTells(s.rq.streamId, s.rq.core, Cross(s.toRequester[0]), Sum(s.toRequester[1..]), s.history.asker);
    }
  }

  lemma ToResponderTells(s: System)
    requires Inv(s) && AllTold(s) && CanTakeResponder(s)
    ensures AllTold(AfterToResponder(s))
  {
    hide HeardFrom, Sum, ResponderTurns, ResponderBorn, RequesterIsTold;
    var f, h := Cross(s.toResponder[0]), s.history;
    CrossKeepsSum(s.toResponder[0]);
    SumHead(s.toResponder);
    if s.rs.phase.Unborn? {
      ResponderBirthTells(s.rs.fragmentSize, f);
      ResponderIsBorn(s.rs.fragmentSize, f, Sum(s.toResponder[1..]));
    } else if s.rs.core.registered {
      ResponderFacesIt(s);
      ResponderFrameTells(s.rs.streamId, s.rs.phase, s.rs.core, f, Sum(s.toResponder[1..]), h.answerer, h.mutedIn, h.mutedOut);
    }
  }

  lemma LossesTell(s: System)
    requires Inv(s) && AllTold(s)
    ensures s.requesterUp ==> AllTold(AfterRequesterLoses(s))
    ensures s.responderUp ==> AllTold(AfterResponderLoses(s))
  {
    hide HeardFrom, Sum, AskerTold, AnswererTold, EarlyTold;
    var h := s.history;
    if s.rq.streamId > 0 {
      RequesterLossTells(s.rq.core, h.asker);
    }
    if s.responderUp {
      ResponderLossTells(s.rs.phase, s.rs.core, h.answerer, h.mutedIn, h.mutedOut);
    }
  }

  lemma StepTells(s: System, step: Step)
    requires Inv(s) && AllTold(s)
    ensures AllTold(ChannelSystem.Next(s, step))
  {
    hide AfterRequesterCall, AfterResponderCall, AfterToRequester, AfterToResponder, AfterRequesterLoses, AfterResponderLoses,
         Linked, NotReady, RequestAhead, AllTold;
    match step
    case RequesterCalls(call) => RequesterCallTellsAll(s, call);
    case ResponderCalls(call) => if s.rs.Live() { ResponderCallTellsAll(s, call); }
    case ToResponder => if CanTakeResponder(s) { ToResponderTells(s); }
    case ToRequester => if s.requesterUp && s.toRequester != [] { ToRequesterTells(s); }
    case _ => LossesTell(s);
  }

  lemma {:induction false} RunTells(s: System, steps: seq<Step>)
    requires Inv(s) && AllTold(s)
    ensures AllTold(Run(s, steps))
    decreases |steps|
  {
    hide ChannelSystem.Next, Linked, NotReady, RequestAhead, AllTold;
    if steps != [] {
      StepKeepsInv(s, steps[0]);
      StepTells(s, steps[0]);
      RunTells(ChannelSystem.Next(s, steps[0]), steps[1..]);
    }
  }

  lemma ReachableTold(s: System)
    requires Reachable(s)
    ensures Inv(s) && AllTold(s)
  {
    hide Linked, NotReady, RequestAhead, AllTold;
    var payload, isComplete, n, size, peerSize, steps :|
      ValidFragmentSize(size) && ValidFragmentSize(peerSize)
      && s == Run(Start(payload, isComplete, n, size, peerSize), steps);
    StartInv(payload, isComplete, n, size, peerSize);
    StartTells(payload, isComplete, n, size, peerSize);
    RunKeepsInv(Start(payload, isComplete, n, size, peerSize), steps);
    RunTells(Start(payload, isComplete, n, size, peerSize), steps);
  }

  /** The requester's application is told of the end of the inbound half, unless it has cancelled it itself
      or an exception was thrown; and it is told to stop sending exactly when the outbound half was ended by
      anything but its own last word. */
  lemma RequesterIsToldOfEveryEnd(s: System)
    requires Reachable(s)
    ensures var c, h, own := s.rq.core, s.rq.core.Heard(), s.history.asker;
            && (h.terminated ==> c.inboundDone) && (h.cancelled ==> c.outboundDone)
            && (c.inboundDone && !c.thrown ==> (h.terminated <==> !own.cancelled))
            && (s.rq.streamId > 0 && c.outboundDone ==> (h.cancelled <==> !own.ended))
  {
    hide HeardFrom, Sum, Linked;
    ReachableTold(s);
  }

  /** The responder's application, once its handler has returned, is told of the end of the inbound half,
      unless it has cancelled it itself, and to stop sending exactly when the outbound half was not ended by
      its own last word; except for a half that ended within the handler and was not made up for. */
  lemma ResponderIsToldOfEveryEnd(s: System)
    requires Reachable(s) && s.rs.phase.Running?
    ensures var c, h, own := s.rs.core, s.rs.core.Heard(), s.history.answerer;
            && (h.terminated ==> c.inboundDone) && (h.cancelled ==> c.outboundDone)
            && (c.inboundDone && !own.cancelled ==> (h.terminated <==> !s.history.mutedIn))
            && (c.outboundDone ==> (h.cancelled <==> !own.ended && !s.history.mutedOut))
  {
    hide HeardFrom, Sum, Linked;
    ReachableTold(s);
  }
}
