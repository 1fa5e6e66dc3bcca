/** When an end of a channel takes a frame for an unexpected one, and what becomes of the requester's
    signals: they are well formed unless an ERROR strikes a requester that has been told of the end. */
module ChannelErrors {
  import opened Options
  import opened Bytes
  import opened Frames
  import opened Reassembler
  import opened Fragmenter
  import opened Sending
  import opened StreamSignals
  import opened ChannelStreams
  import opened ChannelSystem
  import opened ChannelQueues
  import opened ChannelInvariant
  import opened ChannelMoves
  import opened ChannelDeliveries
  import opened ChannelRuns
  import opened ChannelPayloads
  import opened ChannelTheorems

  // Unexpected frames

  /** REQUEST_N arrives at a requester that holds fragments. */
  predicate RequesterRefuses(c: Core, f: Frame) {
    f.RequestN? && !c.outboundDone && c.holder.hasFragments
  }

  /** REQUEST_N or an extension arrives at a responder that holds fragments, of its request or of an element. */
  predicate ResponderRefuses(c: Core, f: Frame) {
    (f.RequestN? || f.Ext?) && c.holder.hasFragments
  }

  lemma RequesterRefusal(id: nat, c: Core, f: Frame, rest: Summary)
    requires RequesterFaces(c, f, rest)
    ensures RequesterTurns(id, c, f).frames == if RequesterRefuses(c, f) then [CancelFrame(id)] else []
  {
  }

  lemma ResponderRefusal(id: nat, phase: Phase, c: Core, f: Frame, rest: Summary)
    requires ResponderFaces(phase, c, f, rest)
    ensures ResponderTurns(id, phase, c, f).frames == if ResponderRefuses(c, f) then [ErrorFrame(id, CANCELED_CODE)] else []
  {
  }

  /** Between two ends of a channel the only frames that one of them gives the stream up over are REQUEST_N
      and, at the responder, extensions, exactly while fragments are held. */
  lemma RefusalsAreExact(s: System)
    requires Reachable(s)
    ensures s.requesterUp && s.toRequester != [] && s.rq.core.registered ==>
              RequesterTurns(s.rq.streamId, s.rq.core, Cross(s.toRequester[0])).frames
              == if RequesterRefuses(s.rq.core, s.toRequester[0]) then [CancelFrame(s.rq.streamId)] else []
    ensures CanTakeResponder(s) && !s.rs.phase.Unborn? && s.rs.core.registered ==>
              ResponderTurns(s.rs.streamId, s.rs.phase, s.rs.core, Cross(s.toResponder[0])).frames
              == if ResponderRefuses(s.rs.core, s.toResponder[0]) then [ErrorFrame(s.rs.streamId, CANCELED_CODE)] else []
  {
    hide Sum, HeardFrom, Linked, RequesterFaces, ResponderFaces, Flow, RequesterTurns, ResponderTurns;
    ReachableInv(s);
    if s.requesterUp && s.toRequester != [] && s.rq.core.registered {
      RequesterFacesIt(s);
      RequesterRefusal(s.rq.streamId, s.rq.core, Cross(s.toRequester[0]), Sum(s.toRequester[1..]));
    }
    if CanTakeResponder(s) && !s.rs.phase.Unborn? && s.rs.core.registered {
      ResponderFacesIt(s);
      ResponderRefusal(s.rs.streamId, s.rs.phase, s.rs.core, Cross(s.toResponder[0]), Sum(s.toResponder[1..]));
    }
  }

  /** A direction whose payloads the fragmenter can all deliver causes neither a refusal nor an exception. */
  lemma DeliverableIsNeverRefused(s: System)
    requires Reachable(s)
    ensures s.history.answeredWell && s.requesterUp && s.toRequester != [] && s.rq.core.registered ==>
              var e := RequesterTurns(s.rq.streamId, s.rq.core, Cross(s.toRequester[0])); e.frames == [] && !e.state.thrown
    ensures s.history.offeredWell && CanTakeResponder(s) && !s.rs.phase.Unborn? && s.rs.core.registered ==>
              var e := ResponderTurns(s.rs.streamId, s.rs.phase, s.rs.core, Cross(s.toResponder[0]));
              e.frames == [] && !e.state.core.thrown
  {
    hide Sum, HeardFrom, Linked, RequesterFaces, ResponderFaces, Flow, RequesterTurns, ResponderTurns;
    ReachableInv(s);
    if s.history.answeredWell && s.requesterUp && s.toRequester != [] && s.rq.core.registered {
      RequesterFacesIt(s);
      FlowSuits(s.rq.core, s.toRequester, s.history.answered, s.rs.core.outboundDone);
      RequesterTakesWell(s.rq.streamId, s.rq.core, Cross(s.toRequester[0]), Sum(s.toRequester[1..]));
    }
    if s.history.offeredWell && CanTakeResponder(s) && !s.rs.phase.Unborn? && s.rs.core.registered {
      ResponderFacesIt(s);
      FlowSuits(s.rs.core, s.toResponder, s.history.offered, s.rq.core.outboundDone);
      ResponderTakesWell(s.rs.streamId, s.rs.phase, s.rs.core, Cross(s.toResponder[0]), Sum(s.toResponder[1..]));
    }
  }

  // The requester's signals

  /** An ERROR arrives at a requester whose inbound half is done, but not its outbound half. */
  predicate Strikes(s: System, step: Step) {
    && step.ToRequester? && s.requesterUp && s.toRequester != [] && s.toRequester[0].Error?
    && s.rq.core.registered && s.rq.core.inboundDone
  }

  predicate Struck(s: System, steps: seq<Step>)
    requires Valid(s)
    decreases |steps|
  {
    steps != [] && (Strikes(s, steps[0]) || Struck(ChannelSystem.Next(s, steps[0]), steps[1..]))
  }

  /** A payload is wanted unless the inbound half is done. */
  lemma PayloadIsHeard(id: nat, c: Core, f: Frame, rest: Summary)
    requires RequesterFaces(c, f, rest) && f.Payload?
    ensures RequesterTurns(id, c, f).state.Heard().wellFormed == c.Heard().wellFormed
  {
    hide HeardFrom, Sum;
    var e := RequesterHandles(id, c, f);
    if e.state.thrown {
      Quits(e.state.Done().(holder := EMPTY), e.state.outboundDone, e.state.inboundDone);
    } else if !HasFollows(f.flags) {
      PushSignal(c.signals, if HasComplete(f.flags) && !HasNext(f.flags) then Completed
                            else Signal.Next(Assembled(c.holder, f).value, HasComplete(f.flags)));
    }
  }

  lemma OtherIsHeard(id: nat, c: Core, f: Frame, rest: Summary)
    requires RequesterFaces(c, f, rest) && !f.Payload?
    ensures RequesterTurns(id, c, f).state.Heard().wellFormed == (c.Heard().wellFormed && !(f.Error? && c.inboundDone))
  {
    hide HeardFrom, Sum;
    match f
    case Error(_, _, _, _) => Quits(c.Done().(registered := false, holder := EMPTY), c.outboundDone, false);
    case Cancel(_, _) => PushSignal(c.signals, Cancelled);
    case RequestN(_, _, n) =>
      Quits(c.Done().(holder := EMPTY), c.outboundDone, c.inboundDone);
      PushSignal(c.signals, Requested(n));
    case Ext(_, _, _, _) => PushSignal(c.signals, ExtensionOf(f));
    case _ =>
  }

  lemma DeliveryIsHeard(s: System)
    requires Inv(s) && s.requesterUp && s.toRequester != []
    ensures AfterToRequester(s).rq.core.Heard().wellFormed == (s.rq.core.Heard().wellFormed && !Strikes(s, ToRequester))
  {
    hide HeardFrom, Sum, RequesterTurns, RequesterFaces;
    var c, f, rest := s.rq.core, Cross(s.toRequester[0]), Sum(s.toRequester[1..]);
    if c.registered {
      RequesterFacesIt(s);
      if f.Payload? { PayloadIsHeard(s.rq.streamId, c, f, rest); } else { OtherIsHeard(s.rq.streamId, c, f, rest); }
    }
  }

  lemma LossIsHeard(c: Core)
    requires RequesterHeeds(c)
    ensures RequesterLost(c).Heard().wellFormed == c.Heard().wellFormed
  {
    Quits(c.Done().(holder := EMPTY), c.outboundDone, c.inboundDone);
  }

  lemma CallIsHeard(s: System, call: Call)
    requires Inv(s)
    ensures AfterRequesterCall(s, call).rq.core.Heard().wellFormed == s.rq.core.Heard().wellFormed
  {
    hide Sum, RequesterCalled, HeardFrom;
    if s.rq.streamId > 0 {
      RequesterCallActs(s.rq, s.requesterUp, call);
    } else if call.Ready? && s.requesterUp && call.id > 0 && !s.rq.core.outboundDone {
      ReadyIsHeard(s.rq, call.id);
    } else {
      EarlyCall(s.rq, s.requesterUp, call);
    }
  }

  lemma ReadyIsHeard(r: Requester, id: nat)
    requires r.Valid() && r.streamId == 0 && id > 0
    ensures RequesterCalled(r, true, Ready(id)).state.core.signals == r.core.signals
  {
  }

  lemma LossOfRequesterIsHeard(s: System)
    requires Inv(s)
    ensures AfterRequesterLoses(s).rq.core.Heard().wellFormed == s.rq.core.Heard().wellFormed
  {
    hide Sum, HeardFrom, RequesterLost;
    LossIsHeard(s.rq.core);
  }

  lemma StepIsHeard(s: System, step: Step)
    requires Inv(s)
    ensures ChannelSystem.Next(s, step).rq.core.Heard().wellFormed == (s.rq.core.Heard().wellFormed && !Strikes(s, step))
  {
    hide Inv, HeardFrom, Sum, AfterRequesterCall, AfterToRequester, AfterRequesterLoses;
    match step
    case RequesterCalls(call) => CallIsHeard(s, call);
    case ToRequester => if s.requesterUp && s.toRequester != [] { DeliveryIsHeard(s); }
    case RequesterLoses => LossOfRequesterIsHeard(s);
    case _ =>
  }

  lemma {:induction false} RunIsHeard(s: System, steps: seq<Step>)
    requires Inv(s)
    ensures Run(s, steps).rq.core.Heard().wellFormed == (s.rq.core.Heard().wellFormed && !Struck(s, steps))
    decreases |steps|
  {
    hide ChannelSystem.Next, Linked, NotReady, RequestAhead, HeardFrom, Strikes;
    if steps != [] {
      StepKeepsInv(s, steps[0]);
      StepIsHeard(s, steps[0]);
      RunIsHeard(ChannelSystem.Next(s, steps[0]), steps[1..]);
    }
  }

  /** The requester's application gets at most one terminal signal, no element after it, and at most one
      cancellation, if and only if no ERROR strikes it. */
  lemma SignalsAreWellFormed(payload: Item, isComplete: bool, n: int, size: nat, peerSize: nat, steps: seq<Step>)
    requires ValidFragmentSize(size) && ValidFragmentSize(peerSize)
    ensures var start := Start(payload, isComplete, n, size, peerSize);
            WellFormedLog(Run(start, steps).rq.core.signals) <==> !Struck(start, steps)
  {
    hide Struck, Inv, WellFormedLog;
    var start := Start(payload, isComplete, n, size, peerSize);
    StartInv(payload, isComplete, n, size, peerSize);
    RunIsHeard(start, steps);
    WellFormedMeans(Run(start, steps).rq.core.signals);
  }

  // Where such an ERROR comes from

  /** A responder that has said its last word refuses a frame. */
  predicate RefusesLate(s: System, step: Step) {
    && step.ToResponder? && CanTakeResponder(s) && s.rs.core.registered && s.rs.core.outboundDone
    && ResponderRefuses(s.rs.core, s.toResponder[0])
  }

  predicate RefusedLate(s: System, steps: seq<Step>)
    requires Valid(s)
    decreases |steps|
  {
    steps != [] && (RefusesLate(s, steps[0]) || RefusedLate(ChannelSystem.Next(s, steps[0]), steps[1..]))
  }

  ghost predicate HasError(q: seq<Frame>) {
    exists i | 0 <= i < |q| :: q[i].Error?
  }

  lemma {:induction false} ErrorsMean(q: seq<Frame>)
    ensures Sum(q).errs <==> HasError(q)
    decreases |q|
  {
    if q != [] {
      ErrorsMean(q[1..]);
      assert forall i | 0 < i < |q| :: q[i] == q[1..][i - 1];
      if HasError(q[1..]) {
        var i :| 0 <= i < |q| - 1 && q[1..][i].Error?;
        assert q[i + 1].Error?;
      }
    }
  }

  lemma CallSaysNoLateError(s: System, call: Call)
    requires Inv(s) && s.rs.Live() && s.rs.core.outboundDone
    ensures !Sum(ResponderCalled(s.rs, call).frames).errs
  {
    hide Sum, HeardFrom, ResponderCalled;
    ResponderCallActs(s.rs, call);
  }

  lemma DeliverySaysLateError(s: System)
    requires Inv(s) && CanTakeResponder(s) && !s.rs.phase.Unborn? && s.rs.core.registered
    ensures Sum(ResponderGets(s.rs, Cross(s.toResponder[0])).frames).errs <==> ResponderRefuses(s.rs.core, s.toResponder[0])
  {
    hide Sum, HeardFrom, ResponderTurns;
    var f := Cross(s.toResponder[0]);
    CrossKeepsSum(s.toResponder[0]);
    ResponderFacesIt(s);
    ResponderRefusal(s.rs.streamId, s.rs.phase, s.rs.core, f, Sum(s.toResponder[1..]));
    SumOne(ErrorFrame(s.rs.streamId, CANCELED_CODE));
    SumNone();
  }

  lemma Appended<T>(q: seq<T>, more: seq<T>)
    ensures q <= q + more && (q + more)[|q|..] == more
  {
  }

  /** A responder whose outbound half is done sends an ERROR exactly when it refuses a frame. */
  lemma LateErrorIsRefusal(s: System, step: Step)
    requires Reachable(s) && s.rs.core.outboundDone && !step.ToRequester?
    ensures var s' := ChannelSystem.Next(s, step);
            s.toRequester <= s'.toRequester && (HasError(s'.toRequester[|s.toRequester|..]) <==> RefusesLate(s, step))
  {
    hide Sum, HeardFrom, HasError, Linked, ResponderCalled, ResponderGets, ResponderRefuses;
    ReachableInv(s);
    assert s.toRequester[|s.toRequester|..] == [];
    SumNone();
    ErrorsMean([]);
    match step
    case ResponderCalls(call) =>
      if s.rs.Live() {
        var said := ResponderCalled(s.rs, call).frames;
        CallSaysNoLateError(s, call);
        Appended(s.toRequester, said);
        ErrorsMean(said);
      }
    case ToResponder =>
      if CanTakeResponder(s) {
        var said := ResponderGets(s.rs, Cross(s.toResponder[0])).frames;
        Appended(s.toRequester, said);
        ErrorsMean(said);
        BornOpen(s);
        if s.rs.core.registered { DeliverySaysLateError(s); } else { DropSaysNothing(s.rs, Cross(s.toResponder[0])); }
      }
    case _ =>
  }

  lemma BornOpen(s: System)
    requires Inv(s) && s.rs.core.outboundDone
    ensures !s.rs.phase.Unborn?
  {
    hide Sum, HeardFrom;
  }

  lemma DropSaysNothing(r: Responder, f: Frame)
    requires !r.core.registered && !r.phase.InHandler?
    ensures ResponderGets(r, f).frames == []
  {
  }

  /** As long as nothing was refused late, what is in flight to the requester ends with its last word. */
  ghost predicate Tidy(s: System) {
    var c, m := s.rq.core, Sum(s.toRequester);
    m.once && (s.requesterUp && c.registered && c.inboundDone ==> !m.errs)
  }

  lemma TidyPush(c: Core, up: bool, done: bool, q: Summary, m: Summary, q': Summary)
    requires q.once && (up && c.registered && c.inboundDone ==> !q.errs && done) && (!done ==> !q.ends)
    requires IsBoth(q', q, m) && m.once && (m.pays || m.errs ==> !done)
    ensures q'.once && (up && c.registered && c.inboundDone ==> !q'.errs)
  {
  }

  lemma ResponderCallTidy(s: System, call: Call)
    requires Inv(s) && Tidy(s) && s.rs.Live()
    ensures Tidy(AfterResponderCall(s, call))
  {
    hide Sum, HeardFrom, ResponderCalled;
    var said := ResponderCalled(s.rs, call).frames;
    ResponderCallActs(s.rs, call);
    SumAppend(s.toRequester, said);
    TidyPush(s.rq.core, s.requesterUp, s.rs.core.outboundDone, Sum(s.toRequester), Sum(said), Sum(s.toRequester + said));
  }

  lemma ToResponderTidy(s: System)
    requires Inv(s) && Tidy(s) && CanTakeResponder(s) && !RefusesLate(s, ToResponder)
    ensures Tidy(AfterToResponder(s))
  {
    hide Sum, HeardFrom, ResponderGets;
    var said := ResponderGets(s.rs, Cross(s.toResponder[0])).frames;
    SaysAtMostError(s);
    SumAppend(s.toRequester, said);
    TidyPush(s.rq.core, s.requesterUp, s.rs.core.outboundDone, Sum(s.toRequester), Sum(said), Sum(s.toRequester + said));
  }

  lemma SaysAtMostError(s: System)
    requires Inv(s) && CanTakeResponder(s)
    ensures var m := Sum(ResponderGets(s.rs, Cross(s.toResponder[0])).frames);
            m.once && !m.pays && (m.errs ==> s.rs.core.registered && ResponderRefuses(s.rs.core, s.toResponder[0]))
  {
    hide Sum, HeardFrom, ResponderTurns, ResponderBorn;
    SumNone();
    SumOne(ErrorFrame(s.rs.streamId, CANCELED_CODE));
    CrossKeepsSum(s.toResponder[0]);
    if s.rs.core.registered && !s.rs.phase.Unborn? {
      ResponderFacesIt(s);
      ResponderRefusal(s.rs.streamId, s.rs.phase, s.rs.core, Cross(s.toResponder[0]), Sum(s.toResponder[1..]));
    }
  }

  lemma ToRequesterTidy(s: System)
    requires Inv(s) && Tidy(s) && s.requesterUp && s.toRequester != []
    ensures Tidy(AfterToRequester(s)) && !Strikes(s, ToRequester)
  {
    hide Sum, HeardFrom, RequesterTurns;
    var c, f, rest := s.rq.core, Cross(s.toRequester[0]), Sum(s.toRequester[1..]);
    CrossKeepsSum(s.toRequester[0]);
    SumHead(s.toRequester);
    if c.registered {
      RequesterFacesIt(s);
      RequesterTakesFrame(s.rq.streamId, c, f, rest);
    }
  }

  lemma RequesterCallTidy(s: System, call: Call)
    requires Inv(s) && Tidy(s)
    ensures Tidy(AfterRequesterCall(s, call))
  {
    hide Sum, HeardFrom, RequesterCalled;
    if s.rq.streamId > 0 {
      RequesterCallActs(s.rq, s.requesterUp, call);
    } else {
      assert s.toRequester == [];
      SumNone();
    }
  }

  lemma StepTidy(s: System, step: Step)
    requires Inv(s) && Tidy(s) && !RefusesLate(s, step)
    ensures Tidy(ChannelSystem.Next(s, step)) && !Strikes(s, step)
  {
    hide Linked, NotReady, RequestAhead, HeardFrom, Sum, AfterRequesterCall, AfterResponderCall, AfterToRequester, AfterToResponder;
    match step
    case RequesterCalls(call) => RequesterCallTidy(s, call);
    case ResponderCalls(call) => if s.rs.Live() { ResponderCallTidy(s, call); }
    case ToResponder => if CanTakeResponder(s) { ToResponderTidy(s); }
    case ToRequester => if s.requesterUp && s.toRequester != [] { ToRequesterTidy(s); }
    case _ =>
  }

  lemma {:induction false} RunTidy(s: System, steps: seq<Step>)
    requires Inv(s) && Tidy(s) && !RefusedLate(s, steps)
    ensures !Struck(s, steps)
    decreases |steps|
  {
    hide ChannelSystem.Next, Linked, NotReady, RequestAhead, Tidy, RefusesLate, Strikes;
    if steps != [] {
      StepKeepsInv(s, steps[0]);
      StepTidy(s, steps[0]);
      RunTidy(ChannelSystem.Next(s, steps[0]), steps[1..]);
    }
  }

  /** An ERROR strikes only in a run in which the responder has refused a frame after its last word. */
  lemma StrikesNeedARefusal(payload: Item, isComplete: bool, n: int, size: nat, peerSize: nat, steps: seq<Step>)
    requires ValidFragmentSize(size) && ValidFragmentSize(peerSize)
    ensures var start := Start(payload, isComplete, n, size, peerSize); Struck(start, steps) ==> RefusedLate(start, steps)
  {
    hide Inv, Struck, RefusedLate;
    var start := Start(payload, isComplete, n, size, peerSize);
    StartInv(payload, isComplete, n, size, peerSize);
    SumNone();
    if !RefusedLate(start, steps) {
      RunTidy(start, steps);
    }
  }
}
