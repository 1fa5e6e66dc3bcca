/** What the applications of a request are told of its end. */
module RequestPairTellings {
  import opened Options
  import opened Bytes
  import opened Frames
  import opened Reassembler
  import opened Fragmenter
  import opened Sending
  import opened StreamSignals
  import opened ChannelStreams
  import opened ChannelQueues
  import opened RequestStreams
  import ChannelSystem
  import opened ChannelInvariant
  import opened RequestPair
  import opened RequestPairMoves
  import opened RequestPairRuns
  import opened RequestPairTheorems

  /** A requester that is done has told its application so, unless that one has cancelled it. */
  ghost predicate AskerHeard(h: Half, withdrawn: bool) {
    && (h.done ==> h.thrown || h.Heard().terminated == !withdrawn)
    && (!h.done ==> !withdrawn && !h.Heard().terminated)
  }

  /** A responder that serves has been cancelled as soon as it is finished by anything but its own last word. */
  ghost predicate AnswererHeard(stage: Stage, g: Half, up: bool, concluded: bool) {
    if stage.Served? && (g.done || !up) then g.Heard().cancelled == !concluded
    else !concluded && !g.Heard().cancelled
  }

  lemma RequesterCallTells(r: OneRequester, up: bool, call: ChannelSystem.Call, withdrawn: bool)
    requires r.Valid() && AskerHeard(r.half, withdrawn)
    ensures AskerHeard(OneRequesterCalled(r, up, call).state.half, withdrawn || (call.Cancels? && !r.half.done))
  {
    hide HeardFrom, SentFrames;
    PushSignal(r.half.signals, Failed);
  }

  lemma RequesterFrameTells(single: bool, id: nat, h: Half, f: Frame, withdrawn: bool)
    requires AskerFine(h, true) && h.registered && IsAnswer(single, f) && !Irregular(f) && AskerHeard(h, withdrawn)
    ensures AskerHeard(OneRequesterTurns(single, id, h, f).state, withdrawn)
  {
    hide HeardFrom;
    if f.Payload? && !HasFollows(f.flags) && Assembled(h.holder, f).Some? {
      PushSignal(h.signals, Signal.Next(Assembled(h.holder, f).value, HasComplete(f.flags)));
    }
    PushSignal(h.signals, Completed);
    PushSignal(h.signals, Failed);
    if f.Ext? { PushSignal(h.signals, ExtensionOf(f)); }
  }

  lemma ResponderCallTells(r: OneResponder, up: bool, call: ChannelSystem.Call, concluded: bool)
    requires ValidFragmentSize(r.fragmentSize) && r.serving.stage.Served? && AnswererHeard(Served, r.serving.half, up, concluded)
    ensures AnswererHeard(Served, OneResponderCalled(r, call).state, up,
                          concluded || (up && OneLastWord(r, call) && !r.serving.half.done))
  {
    hide HeardFrom, SentFrames;
  }

  lemma ResponderFrameTells(single: bool, id: nat, n: int, stage: Stage, g: Half, f: Frame, rest: Summary, concluded: bool)
    requires AnswererFaces(single, stage, g, f, rest) && AnswererHeard(stage, g, true, concluded)
    ensures var e := OneResponderTurns(single, id, n, stage, g, f).state;
            AnswererHeard(e.stage, e.half, !e.half.thrown, concluded)
  {
    hide HeardFrom;
    PushSignal(g.signals, Cancelled);
    if f.RequestN? { PushSignal(g.signals, Requested(f.requestN)); }
    if f.Ext? { PushSignal(g.signals, ExtensionOf(f)); }
    if f.Payload? && Reassemble(g.holder, f.data, f.metadata).Some? {
      PushSignal(g.signals, Started(Reassemble(g.holder, f.data, f.metadata).value, n, false));
    }
  }

  lemma BirthTells(single: bool, size: nat, f: Frame)
    requires IsOneRequest(single, f) && f.streamId > 0
    ensures var r := OneBorn(single, size, f).serving; AnswererHeard(r.stage, r.half, true, false) && !r.half.thrown
  {
    NothingHeard();
    PushSignal([], Started(AppPayload(f.data, f.metadata), DemandIn(f), false));
  }

  lemma LossTells(h: Half, hUp: bool, stage: Stage, g: Half, withdrawn: bool, concluded: bool)
    requires AskerHeard(h, withdrawn) && AnswererHeard(stage, g, true, concluded) && (!stage.Awaited? ==> Stands(g))
    ensures AskerHeard(OneRequesterLost(h), withdrawn)
    ensures AnswererHeard(stage, OneResponderLost(stage, g), false, concluded)
  {
    hide HeardFrom;
    PushSignal(h.signals, Failed);
    PushSignal(g.signals, Cancelled);
  }

  // Every run

  ghost predicate PairTold(s: Pair) {
    && AskerHeard(s.rq.half, s.record.withdrawn)
    && AnswererHeard(s.rs.serving.stage, s.rs.serving.half, s.responderUp, s.record.concluded)
  }

  lemma RequesterCallTellsPair(s: Pair, call: ChannelSystem.Call)
    requires PairInv(s) && PairTold(s)
    ensures PairTold(AfterRequesterCall(s, call))
  {
    hide HeardFrom, Sum, OneRequesterCalled, Coupled, Lone, AskerHeard, AnswererHeard;
    RequesterCallTells(s.rq, s.requesterUp, call, s.record.withdrawn);
  }

  lemma ResponderCallTellsPair(s: Pair, call: ChannelSystem.Call)
    requires PairInv(s) && PairTold(s) && s.rs.serving.stage.Served?
    ensures PairTold(AfterResponderCall(s, call))
  {
    hide HeardFrom, Sum, OneResponderCalled, Coupled, Lone, AskerHeard, AnswererHeard;
    ResponderCallTells(s.rs, s.responderUp, call, s.record.concluded);
  }

  lemma ToRequesterTells(s: Pair)
    requires PairInv(s) && PairTold(s) && s.requesterUp && s.toRequester != []
    ensures PairTold(AfterToRequester(s))
  {
    hide HeardFrom, Sum, OneRequesterTurns, Lone, AskerHeard, AnswererHeard;
    CrossKeeps(s.rq.single, s.toRequester[0]);
    SumHead(s.toRequester);
    if s.rq.half.registered {
      RequesterFrameTells(s.rq.single, s.rq.streamId, s.rq.half, ChannelSystem.Cross(s.toRequester[0]), s.record.withdrawn);
    }
  }

  lemma ToResponderTells(s: Pair)
    requires PairInv(s) && PairTold(s) && s.rq.streamId > 0 && s.responderUp && s.toResponder != []
    ensures PairTold(AfterToResponder(s))
  {
    hide HeardFrom, Sum, OneResponderTurns, OneBorn, Lone, AskerHeard;
    var serving, f := s.rs.serving, ChannelSystem.Cross(s.toResponder[0]);
    CrossKeeps(s.rq.single, s.toResponder[0]);
    SumHead(s.toResponder);
    NothingHeard();
    if serving.stage.Awaited? {
      BirthTells(s.rq.single, s.rs.fragmentSize, f);
    } else if serving.half.registered {
      AnswererFacesIt(s);
      ResponderFrameTells(s.rs.single, s.rs.streamId, s.rs.initialRequestN, serving.stage, serving.half, f,
                          Sum(s.toResponder[1..]), s.record.concluded);
    }
  }

  lemma LossesTell(s: Pair)
    requires PairInv(s) && PairTold(s)
    ensures s.requesterUp ==> PairTold(AfterRequesterLoses(s))
    ensures s.responderUp ==> PairTold(AfterResponderLoses(s))
  {
    hide HeardFrom, Sum, Lone, AskerHeard, AnswererHeard;
    if s.responderUp {
      LossTells(s.rq.half, s.requesterUp, s.rs.serving.stage, s.rs.serving.half, s.record.withdrawn, s.record.concluded);
    } else {
      RequesterLossTells(s.rq.half, s.record.withdrawn);
    }
  }

  lemma RequesterLossTells(h: Half, withdrawn: bool)
    requires AskerHeard(h, withdrawn)
    ensures AskerHeard(OneRequesterLost(h), withdrawn)
  {
    hide HeardFrom;
    PushSignal(h.signals, Failed);
  }

  lemma StepTells(s: Pair, step: ChannelSystem.Step)
    requires PairInv(s) && PairTold(s)
    ensures PairTold(Goes(s, step))
  {
    hide AfterRequesterCall, AfterResponderCall, AfterToRequester, AfterToResponder, AfterRequesterLoses, AfterResponderLoses,
         Coupled, Lone, BeginsWith, PairTold;
    match step
    case RequesterCalls(call) => RequesterCallTellsPair(s, call);
    case ResponderCalls(call) => if s.rs.serving.stage.Served? { ResponderCallTellsPair(s, call); }
    case ToResponder => if s.responderUp && s.toResponder != [] { ToResponderTells(s); }
    case ToRequester => if s.requesterUp && s.toRequester != [] { ToRequesterTells(s); }
    case _ => LossesTell(s);
  }

  lemma {:induction false} PlayTells(s: Pair, steps: seq<ChannelSystem.Step>)
    requires PairInv(s) && PairTold(s)
    ensures PairTold(Play(s, steps))
    decreases |steps|
  {
    hide Goes, Coupled, Lone, BeginsWith, PairTold;
    if steps != [] {
      StepKeeps(s, steps[0]);
      StepTells(s, steps[0]);
      PlayTells(Goes(s, steps[0]), steps[1..]);
    }
  }

  /** A requester that is done has told its application of the end, exactly unless that one has cancelled the
      stream, or an exception was thrown. A responder that serves and is finished, or has lost its connection,
      has cancelled its application, exactly unless that one has said the last word while it could be heard. */
  lemma OneFlagEndsAreTold(s: Pair)
    requires Possible(s)
    ensures s.rq.half.Heard().terminated ==> s.rq.half.done
    ensures s.rq.half.done && !s.rq.half.thrown ==> (s.rq.half.Heard().terminated <==> !s.record.withdrawn)
    ensures s.rs.serving.stage.Served? ==>
              if s.rs.serving.half.done || !s.responderUp then s.rs.serving.half.Heard().cancelled <==> !s.record.concluded
              else !s.rs.serving.half.Heard().cancelled && !s.record.concluded
  {
    hide Coupled, Lone, BeginsWith, Goes;
    var single, payload, n, size, peerSize, steps :|
      ValidFragmentSize(size) && ValidFragmentSize(peerSize) && s == Play(Outset(single, payload, n, size, peerSize), steps);
    NothingHeard();
    OutsetInv(single, payload, n, size, peerSize);
    PlayTells(Outset(single, payload, n, size, peerSize), steps);
  }
}
