/** What holds in every run of a channel, whatever payloads its applications send. */
module ChannelTheorems {
  import opened Options
  import opened Bytes
  import opened Frames
  import opened Reassembler
  import opened Fragmenter
  import opened Sending
  import opened StreamSignals
  import opened ChannelStreams
  import opened ChannelSystem
  import opened ChannelQueues
  import opened ChannelInvariant
  import opened ChannelRuns
  import opened ChannelPayloads

  /** A state that some interleaving of calls, deliveries and losses of connections leads to. */
  ghost predicate Reachable(s: System) {
    exists payload: Item, isComplete: bool, n: int, size: nat, peerSize: nat, steps: seq<Step> ::
      ValidFragmentSize(size) && ValidFragmentSize(peerSize)
      && s == Run(Start(payload, isComplete, n, size, peerSize), steps)
  }

  lemma ReachableInv(s: System)
    requires Reachable(s)
    ensures Inv(s) && Flowing(s)
  {
    hide Linked, NotReady, RequestAhead, Outgoing, Returning;
    var payload, isComplete, n, size, peerSize, steps :|
      ValidFragmentSize(size) && ValidFragmentSize(peerSize)
      && s == Run(Start(payload, isComplete, n, size, peerSize), steps);
    StartInv(payload, isComplete, n, size, peerSize);
    RunKeepsInv(Start(payload, isComplete, n, size, peerSize), steps);
    RunFlows(Start(payload, isComplete, n, size, peerSize), steps);
  }

  /** When nothing is in flight the two ends agree about both halves, so that neither registry keeps a
      stream that the other end has finished. */
  lemma EndsAgreeAtQuiescence(s: System)
    requires Reachable(s) && s.requesterUp && s.responderUp
    requires s.rq.streamId > 0 && s.toResponder == [] && s.toRequester == []
    ensures s.rq.core.outboundDone == s.rs.core.inboundDone && s.rq.core.inboundDone == s.rs.core.outboundDone
    ensures s.rq.core.registered == s.rs.core.registered
  {
    ReachableInv(s);
  }

  /** While its connection is open, an end is registered exactly as long as one of its halves is not done;
      an end that has lost its connection has both halves done, whatever its registry says. */
  lemma RegistryIsExact(s: System)
    requires Reachable(s)
    ensures s.rq.streamId > 0 && s.requesterUp ==>
              (s.rq.core.registered <==> !(s.rq.core.inboundDone && s.rq.core.outboundDone))
    ensures s.rq.streamId > 0 && !s.requesterUp ==> s.rq.core.inboundDone && s.rq.core.outboundDone
    ensures s.rq.streamId == 0 ==> !s.rq.core.registered
    ensures !s.rs.phase.Unborn? && s.responderUp ==>
              (s.rs.core.registered <==> !(s.rs.core.inboundDone && s.rs.core.outboundDone))
    ensures !s.rs.phase.Unborn? && !s.responderUp ==> s.rs.core.inboundDone && s.rs.core.outboundDone
    ensures s.rs.phase.Unborn? ==> !s.rs.core.registered
  {
    hide HeardFrom, Sum;
    ReachableInv(s);
  }

  /** Demand is neither lost nor invented: what an open responder's application has been told, or will be,
      and what is in flight is all that the requester has asked for since it was made; and an open
      requester's application has been told of all that the responder has asked for. */
  lemma DemandIsConserved(s: System)
    requires Reachable(s) && s.rq.streamId > 0 && s.requesterUp && s.responderUp
    ensures s.rs.phase.Unborn? || s.rs.core.registered ==>
              Told(s.rs.phase, s.rs.core) + Sum(s.toResponder).asked == s.history.demanded
    ensures s.rs.phase.Running? && s.rs.core.registered && s.toResponder == [] ==>
              s.rs.core.Heard().demand == s.history.demanded
    ensures !s.rq.core.outboundDone ==> s.rq.core.Heard().demand + Sum(s.toRequester).asked == s.history.wanted
  {
    hide HeardFrom;
    ReachableInv(s);
  }

  /** A direction in which nothing is in flight has delivered everything to an end that still takes frames. */
  lemma FlowCloses(open: bool, c: Core, q: seq<Frame>, items: seq<Item>, done: bool)
    requires Flow(open, c, q, items, done)
    ensures c.Heard().elements <= AllArrive(items)
    ensures open && q == [] ==> c.Heard().elements == AllArrive(items)
    ensures c.Heard().completed ==> c.Heard().elements == AllArrive(items)
  {
    hide HeardFrom, AllArrive;
    OutcomeExtends(Expected(c), q);
  }

  /** As long as the fragmenter can deliver all the payloads of a direction, they arrive unchanged and in
      order: a prefix of them at any time, all of them when an open end has nothing in flight, and all of
      them before it hears of the completion. */
  lemma PayloadsArriveInOrder(s: System)
    requires Reachable(s)
    ensures s.history.offeredWell ==>
              && s.rs.core.Heard().elements <= AllArrive(s.history.offered)
              && (s.toResponder == [] && s.responderUp && s.rs.core.registered ==>
                    s.rs.core.Heard().elements == AllArrive(s.history.offered))
              && (s.rs.core.Heard().completed ==> s.rs.core.Heard().elements == AllArrive(s.history.offered))
    ensures s.history.answeredWell ==>
              && s.rq.core.Heard().elements <= AllArrive(s.history.answered)
              && (s.toRequester == [] && s.requesterUp && s.rq.core.registered ==>
                    s.rq.core.Heard().elements == AllArrive(s.history.answered))
              && (s.rq.core.Heard().completed ==> s.rq.core.Heard().elements == AllArrive(s.history.answered))
  {
    hide AllArrive, Flow, Outcome, Sum, Linked;
    ReachableInv(s);
    if s.rq.streamId > 0 && s.history.offeredWell {
      FlowCloses(Takes(s.rs.phase, s.rs.core, s.responderUp), s.rs.core, s.toResponder, s.history.offered, s.rq.core.outboundDone);
    }
    if s.rq.streamId > 0 && s.history.answeredWell {
      FlowCloses(s.requesterUp && s.rq.core.registered, s.rq.core, s.toRequester, s.history.answered, s.rs.core.outboundDone);
    }
  }

  /** The responder's application gets at most one terminal signal, no element after it, and at most one
      cancellation, in every run. */
  lemma ResponderSignalsAreWellFormed(s: System)
    requires Reachable(s)
    ensures WellFormedLog(s.rs.core.signals)
  {
    hide Sum;
    ReachableInv(s);
    WellFormedMeans(s.rs.core.signals);
  }
}
