/** What a call of an application makes of an end and of the frames it sends, and that this keeps the
    channel's invariant. */
module ChannelMoves {
  import opened Options
  import opened Bytes
  import opened Frames
  import opened Reassembler
  import opened Fragmenter
  import opened Sending
  import opened StreamSignals
  import opened ChannelStreams
  import opened ChannelSystem
  import opened ChannelQueues
  import opened ChannelInvariant

  /** Halves only get done, and the registration follows; frames are in good order, speak only while the
      outbound half is not done, and say which halves are done now; no element is delivered. */
  ghost predicate Acts(c: Core, c': Core, m: Summary) {
    && (c.inboundDone ==> c'.inboundDone) && (c.outboundDone ==> c'.outboundDone)
    && (Registered(c) ==> Registered(c')) && c'.thrown == c.thrown
    && !m.requests && !m.irregular && m.orderly && m.once
    && (m.pays || m.errs ==> !c.outboundDone) && (m.ends ==> c'.outboundDone)
    && (c'.inboundDone && !c.inboundDone ==> m.aborts) && (m.aborts ==> c'.inboundDone)
    && (c'.registered ==> c.registered && c'.holder == c.holder)
    && var h, h' := c.Heard(), c'.Heard();
       && h'.demand == h.demand && h'.elements == h.elements && h'.completed == h.completed
       && (h.terminated ==> h'.terminated) && (h'.terminated ==> c'.inboundDone)
  }

  ghost predicate RequesterActs(c: Core, c': Core, m: Summary) {
    && Acts(c, c', m)
    && (c'.outboundDone && !c.outboundDone ==> m.ends || m.aborts) && (m.aborts ==> c'.outboundDone)
    && (c'.Heard().cancelled ==> c'.outboundDone) && c'.Heard().wellFormed == c.Heard().wellFormed
    && (c'.registered && c'.inboundDone ==> c.inboundDone)
  }

  ghost predicate ResponderActs(phase': Phase, c: Core, c': Core, m: Summary) {
    && Acts(c, c', m) && (phase'.InHandler? || phase'.Running?) && PhaseFine(phase', c', true)
    && (c'.outboundDone && !c.outboundDone ==> m.ends)
    && (c'.registered ==> c'.signals == c.signals) && (c.inboundDone && c.outboundDone ==> !m.aborts)
    && c'.Heard().wellFormed && (c'.Heard().cancelled ==> c'.inboundDone && c'.outboundDone)
  }

  lemma RequesterActsLinked(rq: Core, rqUp: bool, phase: Phase, rs: Core, rsUp: bool, q1: Summary, q2: Summary, h: History,
                            c': Core, q1': Summary, m: Summary, h': History)
    requires Linked(rq, rqUp, phase, rs, rsUp, q1, q2, h) && RequesterActs(rq, c', m) && IsBoth(q1', q1, m)
    requires h'.demanded == h.demanded + m.asked && h'.wanted == h.wanted
    ensures Linked(c', rqUp, phase, rs, rsUp, q1', q2, h')
  {
    hide HeardFrom;
  }

  lemma ResponderActsLinked(rq: Core, rqUp: bool, phase: Phase, rs: Core, rsUp: bool, q1: Summary, q2: Summary, h: History,
                            phase': Phase, c': Core, q2': Summary, m: Summary, h': History)
    requires Linked(rq, rqUp, phase, rs, rsUp, q1, q2, h) && ResponderActs(phase', rs, c', m) && IsBoth(q2', q2, m)
    requires phase.InHandler? || phase.Running?
    requires h'.demanded == h.demanded && h'.wanted == h.wanted + m.asked
    ensures Linked(rq, rqUp, phase', c', rsUp, q1, q2', h')
  {
    hide HeardFrom;
  }

  // The requester's calls

  /** What has been heard agrees with what is done. */
  ghost predicate RequesterHeeds(c: Core) {
    (c.Heard().terminated ==> c.inboundDone) && (c.Heard().cancelled ==> c.outboundDone)
  }

  /** A call that sends at most one frame and leaves the end as it is. */
  lemma RequesterStays(c: Core, m: Summary)
    requires RequesterHeeds(c) && Says(m, false, false, false, false, m.asked)
    ensures RequesterActs(c, c, m)
  {
  }

  lemma RequesterCancelsActs(id: nat, c: Core)
    requires id > 0 && RequesterHeeds(c)
    ensures var e := RequesterCancels(id, c); RequesterActs(c, e.state, Sum(e.frames)) && Sum(e.frames).asked == 0
  {
    if c.inboundDone && c.outboundDone {
      SumNone();
    } else {
      SumOne(if c.inboundDone then ErrorFrame(id, CANCELED_CODE) else CancelFrame(id));
      PushSignal(c.signals, Cancelled);
    }
  }

  /** The last element, or the completion, ends the outbound half. */
  lemma RequesterEnds(c: Core, ends: bool, m: Summary)
    requires RequesterHeeds(c) && !c.outboundDone && Says(m, false, ends, true, false, 0)
    ensures RequesterActs(c, if ends then c.OutboundEnds() else c, m)
  {
  }

  lemma RequesterErrsActs(id: nat, c: Core)
    requires RequesterHeeds(c)
    ensures var e := RequesterErrors(id, c); RequesterActs(c, e.state, Sum(e.frames)) && Sum(e.frames).asked == 0
  {
    if c.outboundDone {
      SumNone();
    } else {
      SumOne(ErrorFrame(id, APPLICATION_ERROR));
      PushSignal(c.signals, Failed);
    }
  }

  lemma SendsActs(id: nat, size: nat, c: Core, item: Item)
    requires RequesterHeeds(c) && ValidFragmentSize(size)
    ensures var e := ChannelStreams.Sends(id, size, c, item); RequesterActs(c, e.state, Sum(e.frames)) && Sum(e.frames).asked == 0
  {
    SumNone();
    if !c.outboundDone {
      ElementSum(id, item, size);
      RequesterEnds(c, item.complete, Sum(SentFrames(PayloadKind, id, item, size)));
    }
  }

  lemma CompletesActs(id: nat, c: Core)
    requires RequesterHeeds(c)
    ensures var e := ChannelStreams.Completes(id, c); RequesterActs(c, e.state, Sum(e.frames)) && Sum(e.frames).asked == 0
  {
    SumNone();
    if !c.outboundDone {
      SumOne(CompleteFrame(id));
      RequesterEnds(c, true, Sum([CompleteFrame(id)]));
    }
  }

  /** What a call of a ready stream's application does. */
  lemma RequesterCallActs(r: Requester, up: bool, call: Call)
    requires r.Valid() && r.streamId > 0 && RequesterHeeds(r.core)
    ensures var e := RequesterCalled(r, up, call);
            && e.state == r.(core := e.state.core)
            && RequesterActs(r.core, e.state.core, Sum(e.frames)) && Sum(e.frames).asked == AskedIn(r.core, call)
  {
    hide HeardFrom, Sum, SentFrames, RequesterErrors, RequesterCancels, ChannelStreams.Sends;
    var c, id := r.core, r.streamId;
    SumNone();
    RequesterStays(c, Sum([]));
    match call
    case Cancels => RequesterCancelsActs(id, c);
    case Sends(item) => SendsActs(id, r.fragmentSize, c, item);
    case Completes => CompletesActs(id, c);
    case Errs => RequesterErrsActs(id, c);
    case Asks(n) => SumOne(RequestNFrame(id, n)); RequesterStays(c, Sum([RequestNFrame(id, n)]));
    case Extends(e) =>
      if e.Extension? {
        SumOne(ExtFrame(id, e));
        RequesterStays(c, Sum([ExtFrame(id, e)]));
      }
    case _ =>
  }

  // The responder's calls

  ghost predicate ResponderHeeds(phase: Phase, c: Core) {
    && (phase.InHandler? || phase.Running?) && PhaseFine(phase, c, true) && c.Heard().wellFormed
    && (c.Heard().terminated ==> c.inboundDone) && (c.Heard().cancelled ==> c.inboundDone && c.outboundDone)
  }

  lemma ResponderStays(phase: Phase, c: Core, m: Summary)
    requires ResponderHeeds(phase, c) && Says(m, false, false, false, false, m.asked)
    ensures ResponderActs(phase, c, c, m)
  {
  }

  lemma ResponderReturns(r: Responder)
    requires r.phase.InHandler? && ResponderHeeds(r.phase, r.core)
    ensures var r' := ChannelStreams.HandlerReturns(r); ResponderActs(r'.phase, r.core, r'.core, Sum([]))
  {
    SumNone();
    PushSignal(r.core.signals, Failed);
  }

  lemma ResponderCancelsActs(id: nat, phase: Phase, c: Core)
    requires ResponderHeeds(phase, c)
    ensures var e := ResponderCancels(id, c); ResponderActs(phase, c, e.state, Sum(e.frames)) && Sum(e.frames).asked == 0
  {
    hide HeardFrom, Sum;
    SumNone();
    if !c.inboundDone {
      SumOne(CancelFrame(id));
    }
  }

  lemma ResponderEnds(phase: Phase, c: Core, ends: bool, m: Summary)
    requires ResponderHeeds(phase, c) && !c.outboundDone && Says(m, false, ends, true, false, 0)
    ensures ResponderActs(phase, c, if ends then c.OutboundEnds() else c, m)
  {
  }

  lemma ResponderErrsActs(id: nat, phase: Phase, c: Core)
    requires ResponderHeeds(phase, c)
    ensures var e := ResponderErrors(id, phase, c);
            ResponderActs(e.state.phase, c, e.state.core, Sum(e.frames)) && Sum(e.frames).asked == 0
  {
    hide HeardFrom, Sum;
    SumNone();
    if !c.outboundDone {
      SumOne(ErrorFrame(id, APPLICATION_ERROR));
      PushSignal(c.signals, Failed);
    }
  }

  lemma ResponderCallActs(r: Responder, call: Call)
    requires r.Valid() && ResponderHeeds(r.phase, r.core)
    ensures var e := ResponderCalled(r, call);
            && e.state == r.(phase := e.state.phase, core := e.state.core)
            && ResponderActs(e.state.phase, r.core, e.state.core, Sum(e.frames)) && Sum(e.frames).asked == AskedIn(r.core, call)
  {
    hide HeardFrom, Sum, SentFrames, ResponderErrors, ResponderCancels;
    var c, id := r.core, r.streamId;
    SumNone();
    ResponderStays(r.phase, c, Sum([]));
    match call
    case HandlerReturns => if r.phase.InHandler? { ResponderReturns(r); }
    case Cancels => ResponderCancelsActs(id, r.phase, c);
    case Errs => ResponderErrsActs(id, r.phase, c);
    case Completes =>
      SumOne(CompleteFrame(id));
      if !c.outboundDone { ResponderEnds(r.phase, c, true, Sum([CompleteFrame(id)])); }
    case Sends(item) =>
      ElementSum(id, item, r.fragmentSize);
      if !c.outboundDone { ResponderEnds(r.phase, c, item.complete, Sum(SentFrames(PayloadKind, id, item, r.fragmentSize))); }
    case Asks(n) => SumOne(RequestNFrame(id, n)); ResponderStays(r.phase, c, Sum([RequestNFrame(id, n)]));
    case Extends(e) =>
      if e.Extension? {
        SumOne(ExtFrame(id, e));
        ResponderStays(r.phase, c, Sum([ExtFrame(id, e)]));
      }
    case _ =>
  }
}
