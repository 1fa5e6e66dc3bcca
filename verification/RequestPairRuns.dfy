/** Every step of a request keeps the pair's invariant. */
module RequestPairRuns {
  import opened Options
  import opened Bytes
  import opened Frames
  import opened Reassembler
  import opened Fragmenter
  import opened FragmentShapes
  import opened Sending
  import opened StreamSignals
  import opened ChannelStreams
  import opened ChannelQueues
  import opened RequestStreams
  import ChannelSystem
  import opened ChannelInvariant
  import ChannelRuns
  import RequesterRule
  import opened RequestPair
  import opened RequestPairMoves

  // Queues

  lemma {:induction false} LonePush(q: seq<Frame>, frames: seq<Frame>)
    requires Lone(q) && !Sum(frames).pays
    ensures Lone(q + frames)
    decreases |q|
  {
    if q == [] {
      assert q + frames == frames;
      QuietLone(frames);
    } else {
      assert (q + frames)[1..] == q[1..] + frames;
      LonePush(q[1..], frames);
      SumAppend(q[1..], frames);
    }
  }

  lemma {:induction false} QuietLone(q: seq<Frame>)
    requires !Sum(q).pays
    ensures Lone(q)
    decreases |q|
  {
    if q != [] {
      QuietLone(q[1..]);
    }
  }

  lemma BeginningStays(q: seq<Frame>, frames: seq<Frame>, single: bool, id: nat)
    requires BeginsWith(q, single, id) && !Sum(frames).requests
    ensures BeginsWith(q + frames, single, id)
  {
    SumAppend(q[1..], frames);
    ChannelRuns.HeadStays(q, frames);
  }

  lemma {:induction false} RunIsLone(frames: seq<Frame>, id: int, size: nat, isComplete: bool, finished: bool)
    requires FragmentShapes.Run(frames, id, size, isComplete, finished)
    ensures Lone(frames)
    decreases |frames|
  {
    RunHead(frames, id, size, isComplete, finished);
    if |frames| > 1 {
      RunIsLone(frames[1..], id, size, isComplete, finished);
    } else {
      assert frames[1..] == [];
    }
  }

  /** The frames that a requester sends when it becomes ready. */
  ghost predicate RequestGoes(q: seq<Frame>, single: bool, id: nat, n: int) {
    && BeginsWith(q, single, id) && AllAsk(single, q) && Lone(q)
    && var m := Sum(q); !m.aborts && !m.ends && !m.irregular && m.orderly && m.asked == n
  }

  lemma PiecesAreLone(q: seq<Frame>, single: bool, kind: Kind, id: int, size: nat, isComplete: bool, finished: bool)
    requires q != [] && IsAsk(single, q[0]) && HasFollows(q[0].flags) && CarriesPayload(q[0])
    requires FragmentShapes.Run(q[1..], id, size, isComplete, finished)
    ensures Lone(q) && AllAsk(single, q)
  {
    hide Sum;
    RunIsLone(q[1..], id, size, isComplete, finished);
    RequesterRule.RunIsPayloads(q[1..], id, size, isComplete, finished);
    assert forall i | 0 < i < |q| :: q[i] == q[1..][i - 1];
  }

  lemma RequestIsAsk(single: bool, n: int, id: int, f: Frame)
    requires var kind := if single then ResponseKind else StreamKind(n);
             CarriesPayload(f) && f == kind.FirstFrame(id, f.flags, f.data, f.metadata)
    ensures IsAsk(single, f)
  {
  }

  lemma OneIsLone(single: bool, f: Frame)
    requires IsAsk(single, f)
    ensures Lone([f]) && AllAsk(single, [f])
  {
    assert [f][1..] == [];
  }

  lemma RequestIsLone(r: OneRequester, id: nat)
    requires r.Valid() && id > 0
    ensures var q := SentFrames(r.RequestKind(), id, r.request, r.fragmentSize); Lone(q) && AllAsk(r.single, q)
  {
    hide Lone, AllAsk, IsAsk, FragmentShapes.Run, Fragments;
    var kind, item := r.RequestKind(), r.request;
    var q := SentFrames(kind, id, item, r.fragmentSize);
    if IsFragmentable(item.data, item.metadata, r.fragmentSize, kind) {
      FragmentsWellShaped(kind, id, item.data, item.metadata, r.fragmentSize, item.complete);
      RequestIsAsk(r.single, r.initialRequestN, id, q[0]);
      PiecesAreLone(q, r.single, kind, id, r.fragmentSize, item.complete, item.data != [] || item.complete);
    } else {
      RequestIsAsk(r.single, r.initialRequestN, id, q[0]);
      OneIsLone(r.single, q[0]);
    }
  }

  lemma ThenExtension(q: seq<Frame>, single: bool, id: nat, n: int, f: Frame)
    requires RequestGoes(q, single, id, n) && f.Ext?
    ensures RequestGoes(q + [f], single, id, n)
  {
    hide Sum;
    SumOne(f);
    SumAppend(q, [f]);
    BeginningStays(q, [f], single, id);
    LonePush(q, [f]);
  }

  lemma ReadySays(r: OneRequester, id: nat)
    requires r.Valid() && id > 0 && !r.half.done
    ensures RequestGoes(OneReady(r, id).frames, r.single, id, r.initialRequestN)
  {
    hide Sum, SentFrames;
    var q := SentFrames(r.RequestKind(), id, r.request, r.fragmentSize);
    RequestSum(r.RequestKind(), id, r.request, r.fragmentSize);
    RequestIsLone(r, id);
    if r.extension.Some? {
      ThenExtension(q, r.single, id, r.initialRequestN, ExtFrame(id, r.extension.value));
    } else {
      assert q + [] == q;
    }
  }

  // Before the requester is ready

  lemma OutsetInv(single: bool, payload: Item, n: int, size: nat, peerSize: nat)
    requires ValidFragmentSize(size) && ValidFragmentSize(peerSize)
    ensures PairInv(Outset(single, payload, n, size, peerSize))
  {
    NothingHeard();
  }

  /** A call before the requester is ready changes the requester only, and sends nothing. */
  lemma EarlyCall(r: OneRequester, up: bool, call: ChannelSystem.Call)
    requires r.Valid() && r.streamId == 0 && IdleHalf(r.half)
    requires call.Ready? ==> !up || call.id == 0 || r.half.done
    ensures var e := OneRequesterCalled(r, up, call);
            && e.frames == [] && e.state.streamId == 0 && IdleHalf(e.state.half)
            && e.state.initialRequestN == r.initialRequestN + DemandAdded(r, call)
  {
    hide SentFrames, HeardFrom;
    PushSignal(r.half.signals, Failed);
  }

  lemma OpenedCoupled(h: Half, up: bool, q1: Summary, q2: Summary)
    requires IdleHalf(h) && !h.done && Says(q2, false, false, false, false, 0)
    requires !q1.aborts && !q1.ends && !q1.irregular && q1.orderly
    ensures Coupled(h.(registered := true), true, Awaited, NEW_HALF, up, 0, q1, q2, q1.asked)
  {
    NothingHeard();
  }

  lemma ReadyKeeps(s: Pair, id: nat)
    requires PairInv(s) && s.rq.streamId == 0 && s.requesterUp && id > 0 && !s.rq.half.done
    ensures PairInv(AfterRequesterCall(s, ChannelSystem.Ready(id)))
  {
    hide Sum, SentFrames, HeardFrom;
    var q := OneReady(s.rq, id).frames;
    ReadySays(s.rq, id);
    assert s.toResponder + q == q;
    SumNone();
    NothingHeard();
    OpenedCoupled(s.rq.half, s.responderUp, Sum(q), Sum([]));
  }

  lemma EarlyCallKeeps(s: Pair, call: ChannelSystem.Call)
    requires PairInv(s) && s.rq.streamId == 0
    ensures PairInv(AfterRequesterCall(s, call))
  {
    hide Sum, SentFrames, HeardFrom;
    if call.Ready? && s.requesterUp && call.id > 0 && !s.rq.half.done {
      ReadyKeeps(s, call.id);
    } else {
      EarlyCall(s.rq, s.requesterUp, call);
    }
  }

  // Calls

  lemma RequesterCallKeeps(s: Pair, call: ChannelSystem.Call)
    requires PairInv(s) && s.rq.streamId > 0
    ensures PairInv(AfterRequesterCall(s, call))
  {
    hide Sum, HeardFrom, OneRequesterCalled, Lone;
    var e, s' := OneRequesterCalled(s.rq, s.requesterUp, call), AfterRequesterCall(s, call);
    RequesterCallActs(s.rq, s.requesterUp, call);
    SumAppend(s.toResponder, e.frames);
    LonePush(s.toResponder, e.frames);
    AskerActsCoupled(s.rq.half, s.requesterUp, s.rs.serving.stage, s.rs.serving.half, s.responderUp, ToldOf(s.rs),
                     Sum(s.toResponder), Sum(s.toRequester), s.record.demanded, e.state.half, Sum(e.frames), Sum(s'.toResponder));
    if s.rs.serving.stage.Awaited? {
      BeginningStays(s.toResponder, e.frames, s.rq.single, s.rq.streamId);
    }
  }

  lemma ResponderCallKeeps(s: Pair, call: ChannelSystem.Call)
    requires PairInv(s) && s.rs.serving.stage.Served?
    ensures PairInv(AfterResponderCall(s, call))
  {
    hide Sum, HeardFrom, OneResponderCalled, Lone;
    var e, s' := OneResponderCalled(s.rs, call), AfterResponderCall(s, call);
    ResponderCallActs(s.rs, call);
    SumAppend(s.toRequester, e.frames);
    AnswererActsCoupled(s.rq.half, s.requesterUp, s.rs.serving.half, s.responderUp, s.rs.initialRequestN,
                        Sum(s.toResponder), Sum(s.toRequester), s.record.demanded, e.state, Sum(e.frames), Sum(s'.toRequester));
  }

  // Frames

  lemma CrossKeeps(single: bool, f: Frame)
    ensures var g := ChannelSystem.Cross(f);
            && SumOf(g) == SumOf(f) && IsAsk(single, g) == IsAsk(single, f) && IsAnswer(single, g) == IsAnswer(single, f)
            && IsOneRequest(single, g) == IsOneRequest(single, f) && g.StreamId() == f.StreamId()
            && (CarriesPayload(f) ==> CarriesPayload(g) && g.flags == f.flags)
  {
  }

  lemma ToRequesterKeeps(s: Pair)
    requires PairInv(s) && s.rq.streamId > 0 && s.requesterUp && s.toRequester != []
    ensures PairInv(AfterToRequester(s))
  {
    hide Sum, HeardFrom, OneRequesterTurns, Lone;
    var h, f, s' := s.rq.half, ChannelSystem.Cross(s.toRequester[0]), AfterToRequester(s);
    var rest, frames := Sum(s.toRequester[1..]), OneRequesterGets(s.rq, f).frames;
    CrossKeeps(s.rq.single, s.toRequester[0]);
    SumHead(s.toRequester);
    SumNone();
    if h.registered {
      RequesterTakesFrame(s.rq.single, s.rq.streamId, h, f);
    }
    SumAppend(s.toResponder, frames);
    LonePush(s.toResponder, frames);
    AskerTookCoupled(h, s.rs.serving.stage, s.rs.serving.half, s.responderUp, ToldOf(s.rs), Sum(s.toResponder), Sum(s.toRequester),
                     s.record.demanded, SumOf(f), rest, s'.rq.half, s'.requesterUp, Sum(frames), Sum(s'.toResponder));
    if s.rs.serving.stage.Awaited? {
      BeginningStays(s.toResponder, frames, s.rq.single, s.rq.streamId);
    }
  }

  lemma AnswererFacesIt(s: Pair)
    requires PairInv(s) && s.rq.streamId > 0 && s.responderUp && s.toResponder != []
    requires s.rs.serving.half.registered && !s.rs.serving.stage.Awaited?
    ensures AnswererFaces(s.rs.single, s.rs.serving.stage, s.rs.serving.half, ChannelSystem.Cross(s.toResponder[0]),
                          Sum(s.toResponder[1..]))
  {
    hide Sum, HeardFrom;
    CrossKeeps(s.rq.single, s.toResponder[0]);
    SumHead(s.toResponder);
  }

  /** A frame makes the responder, is taken by it, or is dropped. */
  lemma ResponderTakesIt(s: Pair)
    requires PairInv(s) && s.rq.streamId > 0 && s.responderUp && s.toResponder != []
    ensures var f := ChannelSystem.Cross(s.toResponder[0]);
            var e := OneResponderGets(s.rs, f);
            var stage, g, stage', g' := s.rs.serving.stage, s.rs.serving.half, e.state.serving.stage, e.state.serving.half;
            && AnswererTook(stage, g, ToldOf(s.rs), SumOf(f), stage', g', ToldOf(e.state), !g'.thrown, Sum(e.frames),
                            Sum(s.toResponder[1..]))
            && AllAnswer(s.rq.single, e.frames) && e.state.single == s.rq.single
  {
    hide Sum, HeardFrom, OneResponderTurns, OneBorn;
    var stage, g, f := s.rs.serving.stage, s.rs.serving.half, ChannelSystem.Cross(s.toResponder[0]);
    CrossKeeps(s.rq.single, s.toResponder[0]);
    SumHead(s.toResponder);
    SumNone();
    NothingHeard();
    if stage.Awaited? {
      AnswererIsBorn(s.rq.single, s.rs.fragmentSize, f, Sum(s.toResponder[1..]));
    } else if g.registered {
      AnswererFacesIt(s);
      ResponderTakesFrame(s.rs.single, s.rs.streamId, s.rs.initialRequestN, stage, g, f, Sum(s.toResponder[1..]));
    } else {
      ResponderDrops(stage, g, ToldOf(s.rs), SumOf(f), Sum(s.toResponder), Sum(s.toResponder[1..]));
    }
  }

  lemma ResponderDrops(stage: Stage, g: Half, told: int, p: Summary, q1: Summary, rest: Summary)
    requires AnswererFine(stage, g, true, q1) && IsBoth(q1, p, rest) && !stage.Awaited? && !g.registered
    ensures AnswererTook(stage, g, told, p, stage, g, told, !g.thrown, Sum([]), rest)
  {
    hide HeardFrom;
    SumNone();
  }

  lemma ToResponderKeeps(s: Pair)
    requires PairInv(s) && s.rq.streamId > 0 && s.responderUp && s.toResponder != []
    ensures PairInv(AfterToResponder(s))
  {
    hide Sum, HeardFrom, OneResponderGets, AnswererTook, Coupled;
    var stage, g, f, s' := s.rs.serving.stage, s.rs.serving.half, ChannelSystem.Cross(s.toResponder[0]), AfterToResponder(s);
    var frames := OneResponderGets(s.rs, f).frames;
    CrossKeeps(s.rq.single, s.toResponder[0]);
    SumHead(s.toResponder);
    ResponderTakesIt(s);
    SumAppend(s.toRequester, frames);
    AnswererTookCoupled(s.rq.half, s.requesterUp, stage, g, ToldOf(s.rs), Sum(s.toResponder), Sum(s.toRequester), s.record.demanded,
                        SumOf(f), Sum(s.toResponder[1..]), s'.rs.serving.stage, s'.rs.serving.half, ToldOf(s'.rs), s'.responderUp,
                        Sum(frames), Sum(s'.toRequester));
    TookStage(stage, g, ToldOf(s.rs), SumOf(f), s'.rs.serving.stage, s'.rs.serving.half, ToldOf(s'.rs), s'.responderUp, Sum(frames),
              Sum(s.toResponder[1..]));
  }

  lemma TookStage(stage: Stage, g: Half, told: int, p: Summary, stage': Stage, g': Half, told': int, up': bool, m: Summary,
                  rest: Summary)
    requires AnswererTook(stage, g, told, p, stage', g', told', up', m, rest)
    ensures !stage'.Awaited?
  {
  }

  lemma LossKeeps(s: Pair)
    requires PairInv(s)
    ensures s.requesterUp ==> PairInv(AfterRequesterLoses(s))
    ensures s.responderUp ==> PairInv(AfterResponderLoses(s))
  {
    hide Sum, HeardFrom, Lone;
    var g := s.rs.serving;
    if s.rq.streamId > 0 && s.requesterUp {
      RequesterLossCoupled(s.rq.half, g.stage, g.half, s.responderUp, ToldOf(s.rs), Sum(s.toResponder), Sum(s.toRequester),
                           s.record.demanded);
    }
    if s.rq.streamId > 0 && s.responderUp {
      ResponderLossCoupled(s.rq.half, s.requesterUp, g.stage, g.half, s.rs.initialRequestN, Sum(s.toResponder), Sum(s.toRequester),
                           s.record.demanded);
    }
  }

  // Runs

  lemma StepKeeps(s: Pair, step: ChannelSystem.Step)
    requires PairInv(s)
    ensures PairInv(Goes(s, step))
  {
    hide AfterRequesterCall, AfterResponderCall, AfterToRequester, AfterToResponder, AfterRequesterLoses, AfterResponderLoses,
         Coupled, Lone, BeginsWith;
    match step
    case RequesterCalls(call) =>
      if s.rq.streamId > 0 { RequesterCallKeeps(s, call); } else { EarlyCallKeeps(s, call); }
    case ResponderCalls(call) => if s.rs.serving.stage.Served? { ResponderCallKeeps(s, call); }
    case ToResponder => if s.responderUp && s.toResponder != [] { ToResponderKeeps(s); }
    case ToRequester => if s.requesterUp && s.toRequester != [] { ToRequesterKeeps(s); }
    case RequesterLoses => LossKeeps(s);
    case ResponderLoses => LossKeeps(s);
  }

  lemma {:induction false} PlayKeeps(s: Pair, steps: seq<ChannelSystem.Step>)
    requires PairInv(s)
    ensures PairInv(Play(s, steps))
    decreases |steps|
  {
    hide Goes, Coupled, Lone, BeginsWith;
    if steps != [] {
      StepKeeps(s, steps[0]);
      PlayKeeps(Goes(s, steps[0]), steps[1..]);
    }
  }
}
