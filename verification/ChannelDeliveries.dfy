/** What a frame, or the loss of the connection, makes of an end, and that this keeps the channel's
    invariant. */
module ChannelDeliveries {
  import opened Options
  import opened Bytes
  import opened Frames
  import opened Reassembler
  import opened Fragmenter
  import opened Sending
  import opened StreamSignals
  import opened ChannelStreams
  import opened ChannelSystem
  import opened ChannelQueues
  import opened ChannelInvariant

  /** Halves only get done, as the frame `p` says; `m` is what is sent in return: nothing, or the frame that
      gives the stream up. An end that loses its connection has both halves done. */
  ghost predicate Took(c: Core, p: Summary, c': Core, up': bool, m: Summary) {
    && Standing(c', up') && (c.inboundDone ==> c'.inboundDone) && (c.outboundDone ==> c'.outboundDone)
    && (p.ends ==> c'.inboundDone) && (p.aborts ==> c'.outboundDone)
    && !m.pays && !m.requests && !m.irregular && m.orderly && m.asked == 0
    && (m.aborts || m.ends ==> m.aborts && c'.inboundDone && c'.outboundDone)
    && (c'.Heard().terminated ==> c'.inboundDone)
  }

  ghost predicate RequesterTook(c: Core, p: Summary, c': Core, up': bool, m: Summary, rest: Summary) {
    && Took(c, p, c', up', m) && !m.ends && !m.errs && m.once
    && (c'.inboundDone && !c.inboundDone ==> p.ends || m.aborts || !up')
    && (c'.outboundDone && !c.outboundDone ==> p.aborts || m.aborts || !up')
    && (c'.Heard().cancelled ==> c'.outboundDone)
    && (up' && c'.registered && c'.inboundDone ==> c'.Heard().terminated && !rest.pays)
    && (up' && !c'.outboundDone ==> c'.Heard().demand == c.Heard().demand + p.asked)
  }

  ghost predicate ResponderTook(phase: Phase, c: Core, p: Summary, phase': Phase, c': Core, up': bool, m: Summary,
                                rest: Summary) {
    && Took(c, p, c', up', m) && (m.aborts ==> m.ends) && !phase'.Unborn? && PhaseFine(phase', c', up')
    && (p.aborts ==> c'.inboundDone)
    && (c'.inboundDone && !c.inboundDone ==> p.ends || p.aborts || m.aborts || !up')
    && (c'.outboundDone && !c.outboundDone ==> p.aborts || m.ends || !up')
    && c'.Heard().wellFormed && (c'.Heard().cancelled ==> c'.inboundDone && c'.outboundDone)
    && (up' && c'.registered ==>
          && (phase.Unborn? || c.registered) && Told(phase', c') == Told(phase, c) + p.asked
          && (c'.Heard().terminated ==> !rest.pays && !rest.errs && (c.Heard().terminated || p.ends)))
  }

  lemma RequesterTookLinked(rq: Core, phase: Phase, rs: Core, rsUp: bool, q1: Summary, q2: Summary, h: History,
                            p: Summary, q2': Summary, c': Core, up': bool, m: Summary, q1': Summary)
    requires Linked(rq, true, phase, rs, rsUp, q1, q2, h) && IsBoth(q2, p, q2') && IsBoth(q1', q1, m)
    requires RequesterTook(rq, p, c', up', m, q2')
    ensures Linked(c', up', phase, rs, rsUp, q1', q2', h)
  {
    hide HeardFrom;
  }

  lemma ResponderTookLinked(rq: Core, rqUp: bool, phase: Phase, rs: Core, q1: Summary, q2: Summary, h: History,
                            p: Summary, q1': Summary, phase': Phase, c': Core, up': bool, m: Summary, q2': Summary)
    requires Linked(rq, rqUp, phase, rs, true, q1, q2, h) && IsBoth(q1, p, q1') && IsBoth(q2', q2, m)
    requires ResponderTook(phase, rs, p, phase', c', up', m, q1') && !q1'.requests
    ensures Linked(rq, rqUp, phase', c', up', q1', q2', h)
  {
    hide HeardFrom;
  }

  lemma LostLinked(rq: Core, rqUp: bool, phase: Phase, rs: Core, rsUp: bool, q1: Summary, q2: Summary, h: History)
    requires Linked(rq, rqUp, phase, rs, rsUp, q1, q2, h)
    ensures rqUp ==> Linked(RequesterLost(rq), false, phase, rs, rsUp, q1, q2, h)
    ensures rsUp ==> Linked(rq, rqUp, phase, ResponderLost(phase, rs), false, q1, q2, h)
  {
    if rqUp && rq.registered {
      Quits(rq.Done().(holder := EMPTY), rq.outboundDone, rq.inboundDone);
    }
    if rsUp && rs.registered {
      Quits(rs.Done().(holder := EMPTY), rs.outboundDone, rs.inboundDone);
    }
  }

  /** `cancel` and `onError`, each unless its half was done before. */
  ghost predicate HasQuit(h': Heard, h: Heard, outboundDone: bool, inboundDone: bool) {
    && h'.terminated == (h.terminated || !inboundDone) && h'.cancelled == (h.cancelled || !outboundDone)
    && h'.completed == h.completed && h'.elements == h.elements && h'.demand == h.demand
    && h'.wellFormed == (h.wellFormed && (h.cancelled ==> outboundDone) && (h.terminated ==> inboundDone))
  }

  lemma Quits(c: Core, outboundDone: bool, inboundDone: bool)
    ensures var c' := c.CancelledUnless(outboundDone).SignalledUnless(inboundDone, Failed);
            c' == c.(signals := c'.signals) && HasQuit(c'.Heard(), c.Heard(), outboundDone, inboundDone)
  {
    PushSignal(c.signals, Cancelled);
    PushSignal(c.CancelledUnless(outboundDone).signals, Failed);
  }

  // Frames for the requester

  /** What is known about a registered requester when a frame arrives. */
  ghost predicate RequesterFaces(c: Core, f: Frame, rest: Summary) {
    var p, h := SumOf(f), c.Heard();
    && Registered(c) && c.registered && !c.thrown && !p.irregular && !p.requests
    && (h.terminated ==> c.inboundDone) && (h.cancelled ==> c.outboundDone)
    && (p.ends ==> !rest.pays) && (c.inboundDone ==> h.terminated && !p.pays && !rest.pays)
  }

  /** What the requester does with it. */
  ghost predicate RequesterDid(c: Core, f: Frame, e: Effect<Core>, rest: Summary) {
    RequesterTook(c, SumOf(f), e.state, !e.state.thrown, Sum(e.frames), rest)
  }

  lemma RequesterHearsSignal(c: Core, c': Core, f: Frame, signal: Signal, rest: Summary)
    requires RequesterFaces(c, f, rest) && Follows(c'.Heard(), c.Heard(), signal) && !signal.Started?
    requires Terminal(signal) == SumOf(f).ends == (c'.inboundDone && !c.inboundDone)
    requires (signal == Cancelled) == SumOf(f).aborts == (c'.outboundDone && !c.outboundDone)
    requires (c.inboundDone ==> c'.inboundDone) && (c.outboundDone ==> c'.outboundDone)
    requires Registered(c') && !c'.thrown && DemandOf(signal) == AskedBy(f)
    ensures RequesterDid(c, f, Effect(c', []), rest)
  {
    hide HeardFrom, AskedBy;
    SumNone();
  }

  /** An exception, from whatever state it leaves. */
  lemma RequesterThrew(c: Core, c1: Core, f: Frame, rest: Summary)
    requires RequesterFaces(c, f, rest) && c1.thrown && c1.signals == c.signals && !SumOf(f).aborts
    requires (c.inboundDone ==> c1.inboundDone) && c1.outboundDone == c.outboundDone
    requires c1.registered == (c.registered && !(c1.inboundDone && c1.outboundDone))
    ensures RequesterDid(c, f, Effect(RequesterLost(c1), []), rest)
  {
    hide HeardFrom;
    SumNone();
    Quits(c1.Done().(holder := EMPTY), c1.outboundDone, c1.inboundDone);
  }

  lemma RequesterTakesPayload(id: nat, c: Core, f: Frame, rest: Summary)
    requires RequesterFaces(c, f, rest) && f.Payload?
    ensures RequesterDid(c, f, RequesterTurns(id, c, f), rest)
  {
    hide HeardFrom, Sum;
    var e := RequesterHandles(id, c, f);
    SumNone();
    if e.state.thrown {
      RequesterThrew(c, e.state, f, rest);
    } else if HasFollows(f.flags) {
    } else if HasComplete(f.flags) && !HasNext(f.flags) {
      PushSignal(c.signals, Completed);
      RequesterHearsSignal(c, e.state, f, Completed, rest);
    } else {
      var signal := Signal.Next(Assembled(c.holder, f).value, HasComplete(f.flags));
      PushSignal(c.signals, signal);
      RequesterHearsSignal(c, e.state, f, signal, rest);
    }
  }

  lemma RequesterTakesError(id: nat, c: Core, f: Frame, rest: Summary)
    requires RequesterFaces(c, f, rest) && f.Error?
    ensures RequesterDid(c, f, RequesterTurns(id, c, f), rest)
  {
    hide HeardFrom, Sum;
    SumNone();
    Quits(c.Done().(registered := false, holder := EMPTY), c.outboundDone, false);
  }

  lemma RequesterTakesCancel(id: nat, c: Core, f: Frame, rest: Summary)
    requires RequesterFaces(c, f, rest) && f.Cancel?
    ensures RequesterDid(c, f, RequesterTurns(id, c, f), rest)
  {
    hide HeardFrom, Sum;
    SumNone();
    PushSignal(c.signals, Cancelled);
  }

  /** REQUEST_N is refused while fragments are held. */
  lemma RequesterTakesRequestN(id: nat, c: Core, f: Frame, rest: Summary)
    requires RequesterFaces(c, f, rest) && f.RequestN?
    ensures RequesterDid(c, f, RequesterTurns(id, c, f), rest)
  {
    hide HeardFrom, Sum;
    SumNone();
    if !c.outboundDone && c.holder.hasFragments {
      SumOne(CancelFrame(id));
      Quits(c.Done().(holder := EMPTY), c.outboundDone, c.inboundDone);
    } else if !c.outboundDone {
      PushSignal(c.signals, Requested(f.requestN));
    }
  }

  lemma RequesterTakesExtension(id: nat, c: Core, f: Frame, rest: Summary)
    requires RequesterFaces(c, f, rest) && f.Ext?
    ensures RequesterDid(c, f, RequesterTurns(id, c, f), rest)
  {
    hide HeardFrom, Sum;
    SumNone();
    PushSignal(c.signals, ExtensionOf(f));
  }

  lemma RequesterTakesFrame(id: nat, c: Core, f: Frame, rest: Summary)
    requires RequesterFaces(c, f, rest)
    ensures RequesterDid(c, f, RequesterTurns(id, c, f), rest)
  {
    hide HeardFrom, Sum, RequesterTurns, RequesterDid;
    match f
    case Payload(_, _, _, _) => RequesterTakesPayload(id, c, f, rest);
    case Error(_, _, _, _) => RequesterTakesError(id, c, f, rest);
    case Cancel(_, _) => RequesterTakesCancel(id, c, f, rest);
    case RequestN(_, _, _) => RequesterTakesRequestN(id, c, f, rest);
    case Ext(_, _, _, _) => RequesterTakesExtension(id, c, f, rest);
    case _ =>
  }

  // Frames for the responder

  /** What is known about a registered responder when a frame arrives. */
  ghost predicate ResponderFaces(phase: Phase, c: Core, f: Frame, rest: Summary) {
    var p, h := SumOf(f), c.Heard();
    && Registered(c) && c.registered && !c.thrown && !p.irregular && !p.requests
    && (phase.Assembling? || phase.Running?) && PhaseFine(phase, c, true)
    && h.wellFormed && (h.terminated ==> c.inboundDone) && (h.cancelled ==> c.inboundDone && c.outboundDone)
    && (p.ends ==> !rest.pays && !rest.errs)
    && (h.terminated ==> !p.pays && !p.errs && !rest.pays && !rest.errs)
  }

  ghost predicate ResponderDid(phase: Phase, c: Core, f: Frame, e: Effect<Receiving>, rest: Summary) {
    ResponderTook(phase, c, SumOf(f), e.state.phase, e.state.core, !e.state.core.thrown, Sum(e.frames), rest)
  }

  /** The end is given up: by the peer, after an exception, or over an unexpected frame. */
  lemma ResponderQuits(phase: Phase, c: Core, c': Core, f: Frame, up': bool, m: Summary, rest: Summary)
    requires ResponderFaces(phase, c, f, rest)
    requires c'.inboundDone && c'.outboundDone && (up' ==> !c'.registered && !c'.thrown)
    requires if phase.Running? then HasQuit(c'.Heard(), c.Heard(), c.outboundDone, c.inboundDone)
             else c'.signals == c.signals
    requires if m.aborts then Says(m, true, true, false, true, 0) else Says(m, false, false, false, false, 0)
    requires up' ==> SumOf(f).aborts || m.aborts
    ensures ResponderTook(phase, c, SumOf(f), phase, c', up', m, rest)
  {
    hide HeardFrom, SumOf;
  }

  lemma ResponderThrew(phase: Phase, c: Core, c1: Core, f: Frame, rest: Summary)
    requires ResponderFaces(phase, c, f, rest) && c1.thrown
    requires c1 == c.(holder := c1.holder, thrown := true)
    ensures ResponderDid(phase, c, f, Effect(Receiving(phase, ResponderLost(phase, c1)), []), rest)
  {
    hide HeardFrom;
    SumNone();
    Quits(c1.Done().(holder := EMPTY), c1.outboundDone, c1.inboundDone);
    ResponderQuits(phase, c, ResponderLost(phase, c1), f, false, Sum([]), rest);
  }

  lemma ResponderHearsSignal(phase: Phase, c: Core, phase': Phase, c': Core, f: Frame, signal: Signal, rest: Summary)
    requires ResponderFaces(phase, c, f, rest) && Follows(c'.Heard(), c.Heard(), signal) && signal != Cancelled
    requires Terminal(signal) == SumOf(f).ends && (CarriesElement(signal) ==> CarriesPayload(f)) && !SumOf(f).aborts
    requires c'.inboundDone == (c.inboundDone || SumOf(f).ends) && c'.outboundDone == c.outboundDone
    requires Registered(c') && !c'.thrown && !phase'.Unborn? && !phase'.Assembling? && (phase'.InHandler? ==> !phase'.deferredError)
    requires DemandOf(signal) == AskedBy(f) + if phase.Assembling? then phase.initialRequestN else 0
    ensures ResponderDid(phase, c, f, Effect(Receiving(phase', c'), []), rest)
  {
    hide HeardFrom, AskedBy;
    SumNone();
  }

  lemma ResponderTakesPayload(id: nat, phase: Phase, c: Core, f: Frame, rest: Summary)
    requires ResponderFaces(phase, c, f, rest) && f.Payload?
    ensures ResponderDid(phase, c, f, ResponderTurns(id, phase, c, f), rest)
  {
    hide HeardFrom, Sum;
    var e := ResponderHandles(id, phase, c, f);
    SumNone();
    if e.state.core.thrown {
      ResponderThrew(phase, c, e.state.core, f, rest);
    } else if HasFollows(f.flags) {
    } else {
      var p, last := Assembled(c.holder, f).value, HasComplete(f.flags);
      var signal := if phase.Assembling? then Started(p, phase.initialRequestN, last)
                    else if last && !HasNext(f.flags) then Completed else Signal.Next(p, last);
      PushSignal(c.signals, signal);
      ResponderHearsSignal(phase, c, e.state.phase, e.state.core, f, signal, rest);
    }
  }

  lemma ResponderTakesAbort(id: nat, phase: Phase, c: Core, f: Frame, rest: Summary)
    requires ResponderFaces(phase, c, f, rest) && Aborts(f)
    ensures ResponderDid(phase, c, f, ResponderTurns(id, phase, c, f), rest)
  {
    hide HeardFrom, Sum;
    SumNone();
    Quits(c.Done().(registered := false, holder := EMPTY), c.outboundDone, c.inboundDone);
    ResponderQuits(phase, c, ResponderAborted(phase, c), f, true, Sum([]), rest);
  }

  /** REQUEST_N and EXT are refused while fragments are held. */
  lemma ResponderTakesOther(id: nat, phase: Phase, c: Core, f: Frame, rest: Summary)
    requires ResponderFaces(phase, c, f, rest) && (f.RequestN? || f.Ext?)
    ensures ResponderDid(phase, c, f, ResponderTurns(id, phase, c, f), rest)
  {
    hide HeardFrom, Sum;
    if phase.Assembling? || c.holder.hasFragments {
      var e := ResponderFails(id, phase, c);
      SumOne(ErrorFrame(id, CANCELED_CODE));
      Quits(c.(registered := false).Done().(holder := EMPTY), c.outboundDone, c.inboundDone);
      ResponderQuits(phase, c, e.state.core, f, true, Sum(e.frames), rest);
    } else {
      var signal := if f.RequestN? then Requested(f.requestN) else ExtensionOf(f);
      PushSignal(c.signals, signal);
      ResponderHearsSignal(phase, c, phase, c.Signalled(signal), f, signal, rest);
    }
  }

  lemma ResponderTakesFrame(id: nat, phase: Phase, c: Core, f: Frame, rest: Summary)
    requires ResponderFaces(phase, c, f, rest)
    ensures ResponderDid(phase, c, f, ResponderTurns(id, phase, c, f), rest)
  {
    hide HeardFrom, Sum, ResponderTurns, ResponderDid;
    match f
    case Payload(_, _, _, _) => ResponderTakesPayload(id, phase, c, f, rest);
    case Error(_, _, _, _) => ResponderTakesAbort(id, phase, c, f, rest);
    case Cancel(_, _) => ResponderTakesAbort(id, phase, c, f, rest);
    case RequestN(_, _, _) => ResponderTakesOther(id, phase, c, f, rest);
    case Ext(_, _, _, _) => ResponderTakesOther(id, phase, c, f, rest);
    case _ =>
  }

  /** The first frame makes the responder. */
  lemma ResponderIsBorn(size: nat, f: Frame, rest: Summary)
    requires f.RequestChannel? && f.streamId > 0 && !Irregular(f) && (Ends(f) ==> !rest.pays && !rest.errs)
    ensures var r := ResponderBorn(size, f); ResponderTook(Unborn, FRESH, SumOf(f), r.phase, r.core, true, Sum([]), rest)
  {
    SumNone();
    if !HasFollows(f.flags) {
      PushSignal([], Started(AppPayload(f.data, f.metadata), f.requestN, HasComplete(f.flags)));
    }
  }
}
