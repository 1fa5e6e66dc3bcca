/** The invariant of a channel: what holds of each end and the frames in flight to it, and, while both
    connections are open, of the two together. */
module ChannelInvariant {
  import opened Options
  import opened Bytes
  import opened Frames
  import opened Reassembler
  import opened Fragmenter
  import opened Sending
  import opened StreamSignals
  import opened ChannelStreams
  import opened ChannelSystem
  import opened ChannelQueues

  // One end

  ghost predicate Registered(c: Core) {
    c.registered <==> !(c.inboundDone && c.outboundDone)
  }

  /** While its connection is open an end is registered exactly as long as a half is not done. */
  ghost predicate Standing(c: Core, up: bool) {
    if up then Registered(c) && !c.thrown else c.inboundDone && c.outboundDone
  }

  /** What an end has in flight: no payload after its last word, which it has not said before its outbound
      half is done. */
  ghost predicate Sent(c: Core, q: Summary) {
    !q.irregular && q.orderly && (!c.outboundDone ==> !q.ends)
  }

  ghost predicate RequesterFine(c: Core, up: bool, q2: Summary) {
    var h := c.Heard();
    && Standing(c, up) && !q2.requests
    && (h.terminated ==> c.inboundDone) && (h.cancelled ==> c.outboundDone)
    && (up && c.registered && c.inboundDone ==> h.terminated && !q2.pays)
  }

  ghost predicate ResponderFine(phase: Phase, c: Core, up: bool, q1: Summary) {
    var h := c.Heard();
    && (!phase.Unborn? ==> Standing(c, up) && !q1.requests)
    && q1.once && PhaseFine(phase, c, up)
    && h.wellFormed && (h.terminated ==> c.inboundDone) && (h.cancelled ==> c.inboundDone && c.outboundDone)
    && (up && c.registered && h.terminated ==> !q1.pays && !q1.errs)
  }

  ghost predicate PhaseFine(phase: Phase, c: Core, up: bool) {
    match phase
    case Unborn => c == FRESH
    case Assembling(_, isComplete) =>
      !isComplete && c.signals == []
      && (up && c.registered ==> c.holder.hasFragments && !c.inboundDone && !c.outboundDone)
    case InHandler(_, deferredError) =>
      deferredError ==> !c.Heard().terminated && c.inboundDone && c.outboundDone && !c.registered
    case Running => true
  }

  /** Before the responder is born the request is the first frame in flight, and the only one. */
  ghost predicate RequestAhead(q1: seq<Frame>, id: nat) {
    q1 != [] && q1[0].RequestChannel? && q1[0].streamId == id && id > 0 && !Sum(q1[1..]).requests
  }

  // Both ends

  /** What one end has heard the other one has said. */
  ghost predicate Heeded(rq: Core, rqUp: bool, rs: Core, rsUp: bool) {
    && (rqUp && rq.registered && rq.inboundDone ==> rs.outboundDone)
    && (rsUp && rs.registered && rs.Heard().terminated ==> rq.outboundDone)
  }

  /** A half is done at one end only while the frame that says so is in flight to the other. */
  ghost predicate Agreeing(rq: Core, rs: Core, q1: Summary, q2: Summary) {
    && (rq.outboundDone && !rs.inboundDone ==> q1.ends || q1.aborts)
    && (rq.inboundDone && !rs.outboundDone ==> q1.aborts)
    && (rs.inboundDone && !rq.outboundDone ==> q2.aborts)
    && (rs.outboundDone && !rq.inboundDone ==> q2.ends)
    && (q1.aborts ==> rq.inboundDone && rq.outboundDone)
    && (q2.aborts ==> rs.inboundDone)
  }

  /** The demand told to the responder's application, or kept for it. */
  function Told(phase: Phase, c: Core): int {
    c.Heard().demand + if phase.Assembling? then phase.initialRequestN else 0
  }

  ghost predicate Demand(rq: Core, phase: Phase, rs: Core, q1: Summary, q2: Summary, demanded: int, wanted: int) {
    && (phase.Unborn? || rs.registered ==> Told(phase, rs) + q1.asked == demanded)
    && (!rq.outboundDone ==> rq.Heard().demand + q2.asked == wanted)
  }

  /** The two ends, their connections and summaries of what is in flight. */
  ghost predicate Linked(rq: Core, rqUp: bool, phase: Phase, rs: Core, rsUp: bool, q1: Summary, q2: Summary, h: History) {
    && RequesterFine(rq, rqUp, q2) && ResponderFine(phase, rs, rsUp, q1)
    && Sent(rq, q1) && Sent(rs, q2) && Heeded(rq, rqUp, rs, rsUp)
    && (rqUp && rsUp ==> Agreeing(rq, rs, q1, q2) && Demand(rq, phase, rs, q1, q2, h.demanded, h.wanted))
  }

  /** Before the requester is ready nothing has been sent. */
  ghost predicate NotReady(s: System) {
    && |s.toResponder| == 0 && |s.toRequester| == 0 && s.rs.phase.Unborn? && s.rs.core == FRESH
    && s.history.offered == [] && s.history.answered == []
    && s.history.wanted == 0 && s.history.demanded == s.rq.initialRequestN
    && NotReadyCore(s.rq.core)
  }

  ghost predicate NotReadyCore(c: Core) {
    var h := c.Heard();
    && !c.registered && c.holder == EMPTY && !c.thrown && c.inboundDone == c.outboundDone
    && h.wellFormed && h.elements == [] && h.demand == 0 && !h.completed
    && (h.terminated ==> c.inboundDone) && (h.cancelled ==> c.inboundDone)
  }

  ghost predicate Inv(s: System) {
    && Valid(s)
    && if s.rq.streamId == 0 then NotReady(s)
       else
         && Linked(s.rq.core, s.requesterUp, s.rs.phase, s.rs.core, s.responderUp, Sum(s.toResponder), Sum(s.toRequester), s.history)
         && (s.rs.phase.Unborn? ==> RequestAhead(s.toResponder, s.rq.streamId))
  }

  // Payloads

  function Expected(c: Core): Inbox {
    Inbox(c.holder, c.Heard().elements)
  }

  /** One direction: as long as the receiving end takes frames, what it has been given and what is in
      flight is everything the sending end has accepted; afterwards it has been given a prefix. An end that
      has been told of the completion has been given everything, and no more will be sent. */
  ghost predicate Flow(open: bool, c: Core, q: seq<Frame>, items: seq<Item>, peerDone: bool) {
    && (if open then Outcome(Expected(c), q) == Some(Inbox(EMPTY, AllArrive(items)))
        else c.Heard().elements <= AllArrive(items))
    && (c.Heard().completed ==> c.Heard().terminated && peerDone && c.Heard().elements == AllArrive(items))
  }

  predicate Takes(phase: Phase, c: Core, up: bool) {
    up && (phase.Unborn? || c.registered)
  }

  /** If the fragmenter can deliver all the payloads of a direction, they flow. */
  ghost predicate Outgoing(s: System) {
    s.history.offeredWell ==>
      Flow(Takes(s.rs.phase, s.rs.core, s.responderUp), s.rs.core, s.toResponder, s.history.offered, s.rq.core.outboundDone)
  }

  ghost predicate Returning(s: System) {
    s.history.answeredWell ==>
      Flow(s.requesterUp && s.rq.core.registered, s.rq.core, s.toRequester, s.history.answered, s.rs.core.outboundDone)
  }

  ghost predicate Flowing(s: System) {
    s.rq.streamId > 0 ==> Outgoing(s) && Returning(s)
  }
}
