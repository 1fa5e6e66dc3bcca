/** What calls, frames and losses make of the ends of a request, and that this keeps the pair's invariant. */
module RequestPairMoves {
  import opened Options
  import opened Bytes
  import opened Frames
  import opened Reassembler
  import opened Fragmenter
  import opened FragmentShapes
  import opened Sending
  import opened StreamSignals
  import opened ChannelStreams
  import opened ChannelQueues
  import opened RequestStreams
  import ChannelSystem
  import opened ChannelInvariant
  import opened RequestPair

  // Calls

  /** A requester's call may only finish the stream, with CANCEL. */
  ghost predicate AskerActs(h: Half, h': Half, m: Summary) {
    && (h.done ==> h'.done) && h'.signals == h.signals && h'.thrown == h.thrown
    && (Stands(h) ==> Stands(h')) && (h'.registered ==> h.registered && h'.holder == h.holder)
    && !m.pays && !m.ends && !m.errs && !m.requests && !m.irregular && m.orderly && m.aborts == (h'.done && !h.done)
  }

  /** A responder's call may only finish the stream, with its last word. */
  ghost predicate AnswererActs(g: Half, g': Half, m: Summary) {
    && (g' == g || (!g.done && g' == g.Over()))
    && !m.requests && !m.irregular && m.orderly && (m.pays || m.errs ==> !g.done) && m.ends == (g'.done && !g.done)
  }

  lemma AskerActsCoupled(h: Half, hUp: bool, stage: Stage, g: Half, gUp: bool, told: int, q1: Summary, q2: Summary, demanded: int,
                         h': Half, m: Summary, q1': Summary)
    requires Coupled(h, hUp, stage, g, gUp, told, q1, q2, demanded) && AskerActs(h, h', m) && IsBoth(q1', q1, m)
    ensures Coupled(h', hUp, stage, g, gUp, told, q1', q2, demanded + m.asked)
  {
    hide HeardFrom;
  }

  lemma AnswererActsCoupled(h: Half, hUp: bool, g: Half, gUp: bool, n: int, q1: Summary, q2: Summary, demanded: int,
                            g': Half, m: Summary, q2': Summary)
    requires Coupled(h, hUp, Served, g, gUp, ToldIn(Served, g, n), q1, q2, demanded) && AnswererActs(g, g', m)
    requires if gUp then IsBoth(q2', q2, m) else q2' == q2
    ensures Coupled(h, hUp, Served, g', gUp, ToldIn(Served, g', n), q1, q2', demanded)
  {
    hide HeardFrom;
  }

  lemma RequesterCallActs(r: OneRequester, up: bool, call: ChannelSystem.Call)
    requires r.Valid() && r.streamId > 0
    ensures var e := OneRequesterCalled(r, up, call);
            && e.state == r.(half := e.state.half) && AllAsk(r.single, e.frames)
            && AskerActs(r.half, e.state.half, Sum(e.frames)) && Sum(e.frames).asked == DemandAdded(r, call)
  {
    hide HeardFrom, Sum, SentFrames;
    SumNone();
    match call
    case Asks(n) => SumOne(RequestNFrame(r.streamId, n));
    case Cancels => SumOne(CancelFrame(r.streamId));
    case Extends(e) => if e.Extension? { SumOne(ExtFrame(r.streamId, e)); }
    case _ =>
  }

  lemma ElementAnswers(single: bool, id: int, item: Item, size: nat)
    requires ValidFragmentSize(size) && (single ==> item.complete)
    ensures AllAnswer(single, SentFrames(PayloadKind, id, item, size))
  {
    if IsFragmentable(item.data, item.metadata, size, PayloadKind) {
      FragmentsWellShaped(PayloadKind, id, item.data, item.metadata, size, item.complete);
      RunAnswers(single, SentFrames(PayloadKind, id, item, size), id, size, item.complete, item.data != [] || item.complete);
    }
  }

  lemma RunAnswers(single: bool, frames: seq<Frame>, id: int, size: nat, isComplete: bool, finished: bool)
    requires FragmentShapes.Run(frames, id, size, isComplete, finished) && (single ==> isComplete)
    ensures AllAnswer(single, frames)
  {
    forall i | 0 <= i < |frames| ensures IsAnswer(single, frames[i]) {
      if i < |frames| - 1 {
        assert frames[..|frames| - 1][i] == frames[i];
      }
    }
  }

  lemma ResponderCallActs(r: OneResponder, call: ChannelSystem.Call)
    requires ValidFragmentSize(r.fragmentSize)
    ensures var e := OneResponderCalled(r, call);
            AllAnswer(r.single, e.frames) && AnswererActs(r.serving.half, e.state, Sum(e.frames))
  {
    hide Sum, SentFrames;
    var g, id := r.serving.half, r.streamId;
    SumNone();
    match call
    case Sends(item) =>
      var it := item.(complete := r.single || item.complete);
      ElementSum(id, it, r.fragmentSize);
      ElementAnswers(r.single, id, it, r.fragmentSize);
    case Completes => SumOne(CompleteFrame(id));
    case Errs => SumOne(ErrorFrame(id, APPLICATION_ERROR));
    case Extends(e) => if e.Extension? { SumOne(ExtFrame(id, e)); }
    case _ =>
  }

  // Frames and losses

  ghost predicate AskerTook(h: Half, p: Summary, h': Half, up': bool, m: Summary) {
    && AskerFine(h', up') && (h.done ==> h'.done) && (p.ends ==> h'.done)
    && (h'.done && !h.done ==> p.ends || m.aborts || !up') && (m.aborts ==> h'.done)
    && !m.pays && !m.ends && !m.errs && !m.requests && !m.irregular && m.orderly && m.asked == 0
  }

  ghost predicate AnswererTook(stage: Stage, g: Half, told: int, p: Summary, stage': Stage, g': Half, told': int, up': bool,
                               m: Summary, rest: Summary) {
    && AnswererFine(stage', g', up', rest) && !stage'.Awaited? && (g.done ==> g'.done) && (p.aborts && up' ==> g'.done)
    && (g'.done && !g.done ==> p.aborts || m.ends)
    && !m.pays && !m.irregular && m.orderly && (m.ends ==> g'.done)
    && (up' && g'.registered ==> (stage.Awaited? || g.registered) && told' == told + p.asked)
  }

  lemma AskerTookCoupled(h: Half, stage: Stage, g: Half, gUp: bool, told: int, q1: Summary, q2: Summary, demanded: int,
                         p: Summary, rest: Summary, h': Half, up': bool, m: Summary, q1': Summary)
    requires Coupled(h, true, stage, g, gUp, told, q1, q2, demanded) && IsBoth(q2, p, rest) && IsBoth(q1', q1, m)
    requires AskerTook(h, p, h', up', m)
    ensures Coupled(h', up', stage, g, gUp, told, q1', rest, demanded)
  {
    hide HeardFrom;
  }

  lemma AnswererTookCoupled(h: Half, hUp: bool, stage: Stage, g: Half, told: int, q1: Summary, q2: Summary, demanded: int,
                            p: Summary, rest: Summary, stage': Stage, g': Half, told': int, up': bool, m: Summary, q2': Summary)
    requires Coupled(h, hUp, stage, g, true, told, q1, q2, demanded) && IsBoth(q1, p, rest) && IsBoth(q2', q2, m)
    requires AnswererTook(stage, g, told, p, stage', g', told', up', m, rest)
    ensures Coupled(h, hUp, stage', g', up', told', rest, q2', demanded)
  {
    hide HeardFrom;
  }

  /** One terminal signal, or an extension, for a requester that is not done. */
  lemma AskerHears(h: Half, h': Half, signal: Signal, p: Summary, up': bool, m: Summary)
    requires AskerFine(h, true) && !h.done && Follows(h'.Heard(), h.Heard(), signal) && signal != Cancelled
    requires h'.done == Terminal(signal) && (if up' then Stands(h') else h'.done)
    requires p.ends ==> h'.done
    requires h'.done ==> p.ends || m.aborts || !up'
    requires Says(m, m.aborts, false, false, false, 0) && (m.aborts ==> h'.done)
    ensures AskerTook(h, p, h', up', m)
  {
    hide HeardFrom;
  }

  lemma RequesterTakesPayload(single: bool, id: nat, h: Half, f: Frame)
    requires AskerFine(h, true) && h.registered && f.Payload? && IsAnswer(single, f) && !Irregular(f)
    ensures var e := OneRequesterTurns(single, id, h, f);
            AskerTook(h, SumOf(f), e.state, !e.state.thrown, Sum(e.frames)) && e.frames == []
  {
    hide HeardFrom;
    SumNone();
    var h1, h' := OneHandles(single, id, h, f).state, OneRequesterTurns(single, id, h, f).state;
    if h1.thrown {
      PushSignal(h.signals, Failed);
    } else if !HasFollows(f.flags) {
      var signal := if HasComplete(f.flags) && !HasNext(f.flags) then Completed
                    else Signal.Next(Assembled(h.holder, f).value, HasComplete(f.flags));
      PushSignal(h.signals, signal);
      AskerHears(h, h', signal, SumOf(f), true, Sum([]));
    }
  }

  lemma RequesterTakesFrame(single: bool, id: nat, h: Half, f: Frame)
    requires AskerFine(h, true) && h.registered && IsAnswer(single, f) && !Irregular(f)
    ensures var e := OneRequesterTurns(single, id, h, f);
            && AskerTook(h, SumOf(f), e.state, !e.state.thrown, Sum(e.frames))
            && e.frames == (if f.Ext? && h.holder.hasFragments then [CancelFrame(id)] else [])
  {
    hide HeardFrom, Sum;
    SumNone();
    SumOne(CancelFrame(id));
    if f.Payload? {
      RequesterTakesPayload(single, id, h, f);
    } else {
      var e := OneRequesterTurns(single, id, h, f);
      var signal := if f.Error? || h.holder.hasFragments then Failed else ExtensionOf(f);
      PushSignal(h.signals, signal);
      AskerHears(h, e.state, signal, SumOf(f), true, Sum(e.frames));
    }
  }

  /** What is known about a registered responder when a frame arrives. */
  ghost predicate AnswererFaces(single: bool, stage: Stage, g: Half, f: Frame, rest: Summary) {
    && AnswererFine(stage, g, true, SumOf(f)) && AnswererFine(stage, g, true, rest) && !stage.Awaited? && g.registered
    && IsAsk(single, f) && (CarriesPayload(f) && !HasFollows(f.flags) ==> !rest.pays)
  }

  lemma AnswererHears(stage: Stage, g: Half, n: int, f: Frame, rest: Summary, g': Half, signal: Signal)
    requires AnswererFine(stage, g, true, rest) && g.registered && Follows(g'.Heard(), g.Heard(), signal)
    requires !Terminal(signal) && signal != Cancelled && !rest.pays && !g'.holder.hasFragments
    requires stage.Gathering? || stage.Served?
    requires signal.Started? == stage.Gathering? && !signal.Next? && !Aborts(f)
    requires DemandOf(signal) == AskedBy(f) + if stage.Gathering? then n else 0
    requires g' == g.(signals := g'.signals, holder := g'.holder)
    ensures AnswererTook(stage, g, ToldIn(stage, g, n), SumOf(f), Served, g', ToldIn(Served, g', n), true, Sum([]), rest)
  {
    hide HeardFrom;
    assert HeardFrom([]).elements == [] && HeardFrom([]).demand == 0 by { NothingHeard(); }
    SumNone();
  }

  lemma NothingHeard()
    ensures var h := HeardFrom([]); h.elements == [] && h.demand == 0 && h.wellFormed && !h.terminated && !h.cancelled && !h.completed
  {
  }

  /** The stream ends, by the peer's word or over an unexpected frame. */
  lemma AnswererStops(id: nat, n: int, stage: Stage, g: Half, f: Frame, rest: Summary)
    requires AnswererFine(stage, g, true, rest) && g.registered && (stage.Gathering? || stage.Served?)
    ensures var e := ResponderStops(id, stage, g, f);
            AnswererTook(stage, g, ToldIn(stage, g, n), SumOf(f), stage, e.state.half, ToldIn(stage, e.state.half, n), true,
                         Sum(e.frames), rest)
  {
    hide HeardFrom;
    SumNone();
    SumOne(ErrorFrame(id, CANCELED_CODE));
    PushSignal(g.signals, Cancelled);
  }

  /** An exception while the request is put together. */
  lemma AnswererThrows(stage: Stage, g: Half, n: int, f: Frame, rest: Summary, g1: Half)
    requires AnswererFine(stage, g, true, rest) && g.registered && stage.Gathering? && !Aborts(f)
    requires g1 == g.(holder := g1.holder, thrown := true)
    ensures var g' := OneResponderLost(stage, g1);
            AnswererTook(stage, g, ToldIn(stage, g, n), SumOf(f), stage, g', ToldIn(stage, g', n), false, Sum([]), rest)
  {
    SumNone();
  }

  predicate ResponderRefuses(stage: Stage, f: Frame) {
    stage.Gathering? && (f.RequestN? || f.Ext?)
  }

  lemma ResponderTakesFrame(single: bool, id: nat, n: int, stage: Stage, g: Half, f: Frame, rest: Summary)
    requires AnswererFaces(single, stage, g, f, rest)
    ensures var e := OneResponderTurns(single, id, n, stage, g, f);
            && AnswererTook(stage, g, ToldIn(stage, g, n), SumOf(f), e.state.stage, e.state.half,
                            ToldIn(e.state.stage, e.state.half, n), !e.state.half.thrown, Sum(e.frames), rest)
            && e.frames == (if ResponderRefuses(stage, f) then [ErrorFrame(id, CANCELED_CODE)] else [])
  {
    hide HeardFrom, Sum;
    SumNone();
    if stage.Gathering? && f.Payload? {
      RequestTakesPayload(single, id, n, g, f, rest);
    } else if stage.Gathering? || f.Cancel? || f.Error? {
      AnswererStops(id, n, stage, g, f, rest);
    } else {
      var signal := if f.RequestN? then Requested(f.requestN) else ExtensionOf(f);
      PushSignal(g.signals, signal);
      AnswererHears(stage, g, n, f, rest, g.Signalled(signal), signal);
    }
  }

  lemma RequestTakesPayload(single: bool, id: nat, n: int, g: Half, f: Frame, rest: Summary)
    requires AnswererFaces(single, Gathering, g, f, rest) && f.Payload?
    ensures var e := OneResponderTurns(single, id, n, Gathering, g, f);
            && AnswererTook(Gathering, g, ToldIn(Gathering, g, n), SumOf(f), e.state.stage, e.state.half,
                            ToldIn(e.state.stage, e.state.half, n), !e.state.half.thrown, Sum(e.frames), rest)
            && e.frames == []
  {
    hide HeardFrom, Sum;
    SumNone();
    var g1 := ResponderTurns(single, id, n, Gathering, g, f).state.half;
    if g1.thrown {
      AnswererThrows(Gathering, g, n, f, rest, g1);
    } else if !HasFollows(f.flags) {
      var signal := Started(Reassemble(g.holder, f.data, f.metadata).value, n, false);
      PushSignal(g.signals, signal);
      AnswererHears(Gathering, g, n, f, rest, g1, signal);
    }
  }

  /** The first frame makes the responder. */
  lemma AnswererIsBorn(single: bool, size: nat, f: Frame, rest: Summary)
    requires IsOneRequest(single, f) && f.streamId > 0 && !rest.requests && (!HasFollows(f.flags) ==> !rest.pays)
    ensures var r := OneBorn(single, size, f);
            && r.single == single
            && AnswererTook(Awaited, NEW_HALF, 0, SumOf(f), r.serving.stage, r.serving.half, ToldOf(r), true, Sum([]), rest)
  {
    SumNone();
    NothingHeard();
    if !HasFollows(f.flags) {
      PushSignal([], Started(AppPayload(f.data, f.metadata), DemandIn(f), false));
    }
  }

  lemma RequesterLossCoupled(h: Half, stage: Stage, g: Half, gUp: bool, told: int, q1: Summary, q2: Summary, demanded: int)
    requires Coupled(h, true, stage, g, gUp, told, q1, q2, demanded)
    ensures Coupled(OneRequesterLost(h), false, stage, g, gUp, told, q1, q2, demanded)
  {
    hide HeardFrom;
    PushSignal(h.signals, Failed);
  }

  lemma ResponderLossCoupled(h: Half, hUp: bool, stage: Stage, g: Half, n: int, q1: Summary, q2: Summary, demanded: int)
    requires Coupled(h, hUp, stage, g, true, ToldIn(stage, g, n), q1, q2, demanded)
    ensures var g' := OneResponderLost(stage, g); Coupled(h, hUp, stage, g', false, ToldIn(stage, g', n), q1, q2, demanded)
  {
    hide HeardFrom;
    PushSignal(g.signals, Cancelled);
  }
}
