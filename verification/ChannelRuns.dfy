/** Every step of a channel keeps its invariant. */
module ChannelRuns {
  import opened Options
  import opened Bytes
  import opened Frames
  import opened Reassembler
  import opened Fragmenter
  import opened Sending
  import opened StreamSignals
  import opened ChannelStreams
  import opened ChannelSystem
  import opened ChannelQueues
  import opened ChannelInvariant
  import opened ChannelMoves
  import opened ChannelDeliveries

  // Before the requester is ready

  lemma StartInv(payload: Item, isComplete: bool, n: int, size: nat, peerSize: nat)
    requires ValidFragmentSize(size) && ValidFragmentSize(peerSize)
    ensures Inv(Start(payload, isComplete, n, size, peerSize))
  {
  }

  lemma EarlyEnd(c: Core, signal: Signal)
    requires NotReadyCore(c) && !c.inboundDone && (signal == Cancelled || signal == Failed)
    ensures NotReadyCore(c.Done().Signalled(signal))
  {
    PushSignal(c.signals, signal);
  }

  /** A call before the requester is ready changes the requester only, and sends nothing. */
  lemma EarlyCall(r: Requester, up: bool, call: Call)
    requires r.Valid() && r.streamId == 0 && NotReadyCore(r.core)
    requires call.Ready? ==> !up || call.id == 0 || r.core.outboundDone
    ensures var e := RequesterCalled(r, up, call);
            && e.frames == [] && RequesterAccepts(r, up, call) == [] && e.state.streamId == 0 && NotReadyCore(e.state.core)
            && e.state.initialRequestN == r.initialRequestN + AskedIn(r.core, call)
  {
    hide SentFrames, HeardFrom;
    if !r.core.inboundDone {
      EarlyEnd(r.core, Cancelled);
      EarlyEnd(r.core, Failed);
    }
  }

  /** The frames that a requester sends when it becomes ready: the request and perhaps an extension. */
  ghost predicate RequestGoes(q: seq<Frame>, id: nat, complete: bool, n: int) {
    && RequestAhead(q, id)
    && var m := Sum(q); !m.aborts && m.ends == complete && !m.irregular && m.orderly && m.once && m.asked == n
  }

  lemma ThenExtension(q: seq<Frame>, id: nat, complete: bool, n: int, f: Frame)
    requires RequestGoes(q, id, complete, n) && f.Ext?
    ensures RequestGoes(q + [f], id, complete, n)
  {
    hide Sum;
    SumOne(f);
    SumAppend(q, [f]);
    SumAppend(q[1..], [f]);
    HeadStays(q, [f]);
  }

  lemma ReadySays(r: Requester, id: nat)
    requires r.Valid() && id > 0 && !r.core.outboundDone
    ensures RequestGoes(RequesterReady(r, id).frames, id, r.isComplete, r.initialRequestN)
  {
    hide Sum, SentFrames;
    var q := SentFrames(ChannelKind(r.initialRequestN), id, r.Request(), r.fragmentSize);
    RequestSum(ChannelKind(r.initialRequestN), id, r.Request(), r.fragmentSize);
    if r.extension.Some? {
      ThenExtension(q, id, r.isComplete, r.initialRequestN, ExtFrame(id, r.extension.value));
    } else {
      assert q + [] == q;
    }
  }

  lemma HeadStays<T>(q: seq<T>, more: seq<T>)
    requires q != []
    ensures (q + more)[0] == q[0] && (q + more)[1..] == q[1..] + more
  {
  }

  lemma OpenedLinked(c: Core, complete: bool, rsUp: bool, q1: Summary, q2: Summary, h: History)
    requires NotReadyCore(c) && !c.outboundDone && Says(q2, false, false, false, false, 0)
    requires !q1.aborts && q1.ends == complete && !q1.irregular && q1.orderly && q1.once
    requires h.demanded == q1.asked && h.wanted == 0
    ensures Linked(c.(registered := true, outboundDone := complete), true, Unborn, FRESH, rsUp, q1, q2, h)
  {
  }

  lemma ReadyKeepsInv(s: System, id: nat)
    requires Inv(s) && s.rq.streamId == 0 && s.requesterUp && id > 0 && !s.rq.core.outboundDone
    ensures Inv(AfterRequesterCall(s, Ready(id)))
  {
    hide Sum, SentFrames, HeardFrom;
    var q := RequesterReady(s.rq, id).frames;
    var s' := AfterRequesterCall(s, Ready(id));
    ReadySays(s.rq, id);
    assert s.toResponder + q == q;
    assert s.toRequester == [];
    SumNone();
    OpenedLinked(s.rq.core, s.rq.isComplete, s.responderUp, Sum(q), Sum([]), s'.history);
  }

  lemma EarlyCallKeepsInv(s: System, call: Call)
    requires Inv(s) && s.rq.streamId == 0
    ensures Inv(AfterRequesterCall(s, call))
  {
    hide Sum, SentFrames, HeardFrom;
    if call.Ready? && s.requesterUp && call.id > 0 && !s.rq.core.outboundDone {
      ReadyKeepsInv(s, call.id);
    } else {
      EarlyCall(s.rq, s.requesterUp, call);
    }
  }

  // Calls

  lemma RequesterCallKeepsInv(s: System, call: Call)
    requires Inv(s) && s.rq.streamId > 0
    ensures Inv(AfterRequesterCall(s, call))
  {
    hide Sum, HeardFrom, RequesterCalled;
    var e, s' := RequesterCalled(s.rq, s.requesterUp, call), AfterRequesterCall(s, call);
    RequesterCallActs(s.rq, s.requesterUp, call);
    SumAppend(s.toResponder, e.frames);
    RequesterActsLinked(s.rq.core, s.requesterUp, s.rs.phase, s.rs.core, s.responderUp, Sum(s.toResponder), Sum(s.toRequester),
                        s.history, e.state.core, Sum(s'.toResponder), Sum(e.frames), s'.history);
    if s.rs.phase.Unborn? {
      SumAppend(s.toResponder[1..], e.frames);
      HeadStays(s.toResponder, e.frames);
    }
  }

  lemma ResponderCallKeepsInv(s: System, call: Call)
    requires Inv(s) && s.rs.Live()
    ensures Inv(AfterResponderCall(s, call))
  {
    hide Sum, HeardFrom, ResponderCalled;
    var e, s' := ResponderCalled(s.rs, call), AfterResponderCall(s, call);
    ResponderCallActs(s.rs, call);
    SumAppend(s.toRequester, e.frames);
    ResponderActsLinked(s.rq.core, s.requesterUp, s.rs.phase, s.rs.core, s.responderUp, Sum(s.toResponder), Sum(s.toRequester),
                        s.history, e.state.phase, e.state.core, Sum(s'.toRequester), Sum(e.frames), s'.history);
  }

  // Frames

  lemma CrossKeepsSum(f: Frame)
    ensures SumOf(Cross(f)) == SumOf(f) && Cross(f).RequestChannel? == f.RequestChannel?
    ensures Cross(f).StreamId() == f.StreamId() && Carries(Cross(f)) == Carries(f)
  {
  }

  lemma RequesterFacesIt(s: System)
    requires Inv(s) && s.requesterUp && s.toRequester != [] && s.rq.core.registered
    ensures RequesterFaces(s.rq.core, Cross(s.toRequester[0]), Sum(s.toRequester[1..]))
  {
    hide Sum, HeardFrom;
    CrossKeepsSum(s.toRequester[0]);
    SumHead(s.toRequester);
  }

  lemma ResponderFacesIt(s: System)
    requires Inv(s) && CanTakeResponder(s) && s.rs.core.registered
    ensures ResponderFaces(s.rs.phase, s.rs.core, Cross(s.toResponder[0]), Sum(s.toResponder[1..]))
  {
    hide Sum, HeardFrom;
    CrossKeepsSum(s.toResponder[0]);
    SumHead(s.toResponder);
  }

  lemma ToRequesterKeepsInv(s: System)
    requires Inv(s) && s.requesterUp && s.toRequester != []
    ensures Inv(AfterToRequester(s))
  {
    hide Sum, HeardFrom, RequesterTurns;
    var c, f, s' := s.rq.core, Cross(s.toRequester[0]), AfterToRequester(s);
    var rest, frames := Sum(s.toRequester[1..]), RequesterGets(s.rq, f).frames;
    CrossKeepsSum(s.toRequester[0]);
    SumHead(s.toRequester);
    SumNone();
    if c.registered {
      RequesterFacesIt(s);
      RequesterTakesFrame(s.rq.streamId, c, f, rest);
    }
    SumAppend(s.toResponder, frames);
    RequesterTookLinked(c, s.rs.phase, s.rs.core, s.responderUp, Sum(s.toResponder), Sum(s.toRequester), s.history,
                        SumOf(f), rest, s'.rq.core, s'.requesterUp, Sum(frames), Sum(s'.toResponder));
    if s.rs.phase.Unborn? {
      SumAppend(s.toResponder[1..], frames);
      HeadStays(s.toResponder, frames);
    }
  }

  lemma ToResponderKeepsInv(s: System)
    requires Inv(s) && CanTakeResponder(s)
    ensures Inv(AfterToResponder(s))
  {
    hide Sum, HeardFrom, ResponderTurns, ResponderBorn;
    var c, phase, f, s' := s.rs.core, s.rs.phase, Cross(s.toResponder[0]), AfterToResponder(s);
    var rest, frames := Sum(s.toResponder[1..]), ResponderGets(s.rs, f).frames;
    CrossKeepsSum(s.toResponder[0]);
    SumHead(s.toResponder);
    SumNone();
    if phase.Unborn? {
      ResponderIsBorn(s.rs.fragmentSize, f, rest);
    } else if c.registered {
      ResponderFacesIt(s);
      ResponderTakesFrame(s.rs.streamId, phase, c, f, rest);
    }
    SumAppend(s.toRequester, frames);
    ResponderTookLinked(s.rq.core, s.requesterUp, phase, c, Sum(s.toResponder), Sum(s.toRequester), s.history,
                        SumOf(f), rest, s'.rs.phase, s'.rs.core, s'.responderUp, Sum(frames), Sum(s'.toRequester));
  }

  lemma LossKeepsInv(s: System)
    requires Inv(s)
    ensures s.requesterUp ==> Inv(AfterRequesterLoses(s))
    ensures s.responderUp ==> Inv(AfterResponderLoses(s))
  {
    hide Sum, HeardFrom;
    if s.rq.streamId > 0 {
      LostLinked(s.rq.core, s.requesterUp, s.rs.phase, s.rs.core, s.responderUp, Sum(s.toResponder), Sum(s.toRequester), s.history);
    }
  }

  // Runs

  lemma StepKeepsInv(s: System, step: Step)
    requires Inv(s)
    ensures Inv(ChannelSystem.Next(s, step))
  {
    hide AfterRequesterCall, AfterResponderCall, AfterToRequester, AfterToResponder, AfterRequesterLoses, AfterResponderLoses,
         Linked, RequestAhead;
    match step
    case RequesterCalls(call) =>
      if s.rq.streamId > 0 { RequesterCallKeepsInv(s, call); } else { EarlyCallKeepsInv(s, call); }
    case ResponderCalls(call) => if s.rs.Live() { ResponderCallKeepsInv(s, call); }
    case ToResponder => if CanTakeResponder(s) { ToResponderKeepsInv(s); }
    case ToRequester => if s.requesterUp && s.toRequester != [] { ToRequesterKeepsInv(s); }
    case RequesterLoses => LossKeepsInv(s);
    case ResponderLoses => LossKeepsInv(s);
  }

  lemma {:induction false} RunKeepsInv(s: System, steps: seq<Step>)
    requires Inv(s)
    ensures Inv(Run(s, steps))
    decreases |steps|
  {
    hide ChannelSystem.Next, Linked, RequestAhead;
    if steps != [] {
      StepKeepsInv(s, steps[0]);
      RunKeepsInv(ChannelSystem.Next(s, steps[0]), steps[1..]);
    }
  }
}
