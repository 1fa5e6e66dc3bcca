/** The resumable multiplexer: it stores before it sends, records before it hands on, and answers or
    continues a RESUME handshake. */
module ResumableMultiplexers {
  import opened Options
  import opened Frames
  import opened FrameStores

  const UNSUPPORTED_SETUP := 0x2
  const REJECTED_RESUME := 0x4
  const CONNECTION_ERROR := 0x101

  /** The multiplexer's state: its store, the frames it has handed on (to the connection handler or, by
      stream id, to the registry), whether it has been closed, and whether the server's session store has
      its token, so that it can be resumed. */
  datatype Peer = Peer(store: Store, handled: seq<Frame>, closed: bool, resumable: bool)

  /** `resumable` for the server's end of a session. */
  function NewPeer(resumable: bool): Peer {
    Peer(NEW_STORE, [], false, resumable)
  }

  function ConnectionFailed(code: int): Frame {
    Error(0, NO_FLAGS, code, None)
  }

  /** `send`: the state afterwards and the frames given to the current outbound. */
  function Send(p: Peer, f: Frame): (Peer, seq<Frame>)
    requires Countable(f)
  {
    if f.StreamId() != 0 then (p.(store := StoreFrame(p.store, f)), [f])
    else if f.KeepAlive? then (p, [f.(lastReceivedPosition := p.store.lastReceived)])
    else if f.Error? then (p.(closed := true, resumable := false), [f])
    else (p, [f])
  }

  /** `handle`. */
  function Handle(p: Peer, f: Frame): (Peer, seq<Frame>)
    requires p.store.Valid() && Countable(f)
  {
    if f.StreamId() != 0 then (p.(store := RecordFrame(p.store, f), handled := p.handled + [f]), [])
    else if f.KeepAlive? then
      var (s, ok) := DropTo(p.store, f.lastReceivedPosition);
      if ok then (p.(store := s, handled := p.handled + [f]), [])
      else (p.(store := s, handled := p.handled + [f], closed := true), [ConnectionFailed(CONNECTION_ERROR)])
    else if f.Error? then (p.(handled := p.handled + [f], closed := true, resumable := false), [])
    else (p.(handled := p.handled + [f]), [])
  }

  /** `resume`, on a new connection. A failing RESUME_OK still drains the store. */
  function ResumeSession(p: Peer, f: Frame): (Peer, seq<Frame>)
    requires p.store.Valid() && (f.Resume? || f.ResumeOk?)
  {
    if f.Resume? then
      if p.store.lastReceived < f.clientPosition then
        (p.(closed := true), [ConnectionFailed(REJECTED_RESUME)])
      else
        var (s, ok) := DropTo(p.store, f.serverPosition);
        if ok then (p.(store := s), [ResumeOk(NO_FLAGS, s.lastReceived)] + s.frames)
        else (p.(store := s, closed := true), [ConnectionFailed(CONNECTION_ERROR)])
    else
      var (s, ok) := DropTo(p.store, f.clientPosition);
      if ok then (p.(store := s), s.frames)
      else (p.(store := s, closed := true), [ConnectionFailed(CONNECTION_ERROR)] + s.frames)
  }

  /** The RESUME frame that the client's reconnector sends on a new connection. */
  function ResumeFrame(p: Peer): Frame {
    Resume(NO_FLAGS, 0, 1, [], p.store.lastReceived, p.store.firstAvailable)
  }

  class Outbound {
    var sent: seq<Frame>

    constructor ()
      ensures sent == []
    {
      sent := [];
    }

    method SendFrame(f: Frame)
      modifies this
      ensures sent == old(sent) + [f]
    {
      sent := sent + [f];
    }
  }

  class ResumableMultiplexer {
    const frameStore: FrameStore
    var outbound: Outbound
    var handled: seq<Frame>
    var done: bool
    var inSessionStore: bool

    /** The server puts its end of the session into its session store. */
    constructor (frameStore: FrameStore, outbound: Outbound, atServer: bool)
      requires frameStore.View() == NEW_STORE
      ensures this.frameStore == frameStore && this.outbound == outbound
      ensures View() == NewPeer(atServer)
    {
      this.frameStore := frameStore;
      this.outbound := outbound;
      handled, done, inSessionStore := [], false, atServer;
    }

    function View(): Peer
      reads this, frameStore
    {
      Peer(frameStore.View(), handled, done, inSessionStore)
    }

    method SendFrame(frame: Frame)
      requires Countable(frame)
      modifies this, frameStore, outbound
      ensures outbound == old(outbound)
      ensures View() == Send(old(View()), frame).0
      ensures outbound.sent == old(outbound.sent) + Send(old(View()), frame).1
    {
      if frame.StreamId() == 0 {
        if frame.KeepAlive? {
          outbound.SendFrame(frame.(lastReceivedPosition := frameStore.lastReceivedFramePosition));
          return;
        } else if frame.Error? {
          outbound.SendFrame(frame);
          inSessionStore := false;
          done := true;
          return;
        }
      } else {
        frameStore.StoreSent(frame);
      }
      outbound.SendFrame(frame);
    }

    method HandleFrame(frame: Frame)
      requires Countable(frame) && frameStore.View().Valid()
      modifies this, frameStore, outbound
      ensures outbound == old(outbound)
      ensures View() == Handle(old(View()), frame).0
      ensures outbound.sent == old(outbound.sent) + Handle(old(View()), frame).1
    {
      if frame.StreamId() == 0 {
        if frame.KeepAlive? {
          var ok := frameStore.DropToPosition(frame.lastReceivedPosition);
          if !ok {
            outbound.SendFrame(ConnectionFailed(CONNECTION_ERROR));
            done := true;
          }
        } else if frame.Error? {
          handled := handled + [frame];
          inSessionStore := false;
          done := true;
          return;
        }
      } else {
        frameStore.Record(frame);
      }
      handled := handled + [frame];
    }

    /** The stored frames, oldest first, to the new outbound. */
    method Drain()
      requires frameStore.View().Valid()
      modifies outbound
      ensures outbound.sent == old(outbound.sent) + frameStore.storedFrames
    {
      ghost var frames := frameStore.storedFrames;
      for i := 0 to |frameStore.storedFrames|
        invariant outbound.sent == old(outbound.sent) + frames[..i]
      {
        outbound.SendFrame(frameStore.storedFrames[i]);
        assert frames[..i + 1] == frames[..i] + [frames[i]];
      }
      assert frames[..|frames|] == frames;
    }

    method ResumeOn(frame: Frame, newOutbound: Outbound)
      requires (frame.Resume? || frame.ResumeOk?) && frameStore.View().Valid()
      modifies this, frameStore, newOutbound
      ensures outbound == newOutbound
      ensures View() == ResumeSession(old(View()), frame).0
      ensures outbound.sent == old(newOutbound.sent) + ResumeSession(old(View()), frame).1
    {
      outbound := newOutbound;
      if frame.Resume? {
        if frameStore.lastReceivedFramePosition < frame.clientPosition {
          outbound.SendFrame(ConnectionFailed(REJECTED_RESUME));
          done := true;
          return;
        }
        var ok := frameStore.DropToPosition(frame.serverPosition);
        if !ok {
          outbound.SendFrame(ConnectionFailed(CONNECTION_ERROR));
          done := true;
          return;
        }
        outbound.SendFrame(ResumeOk(NO_FLAGS, frameStore.lastReceivedFramePosition));
      } else {
        var ok := frameStore.DropToPosition(frame.clientPosition);
        if !ok {
          outbound.SendFrame(ConnectionFailed(CONNECTION_ERROR));
          done := true;
        }
      }
      Drain();
    }
  }

  // Against any peer

  /** The positions that `dropTo` accepts: the frame boundaries of what is still stored. */
  ghost predicate InWindow(log: seq<Frame>, dropped: nat, position: nat)
    requires AllCountable(log)
  {
    exists k: nat | dropped <= k <= |log| :: position == Total(log[..k])
  }

  /** `out` is what is stored from the acknowledged position on, and the store keeps no more than that. */
  ghost predicate ContinuesFrom(p: Peer, log: seq<Frame>, dropped: nat, position: nat, out: seq<Frame>)
    requires AllCountable(log)
  {
    exists k: nat | dropped <= k <= |log| ::
      position == Total(log[..k]) && WindowOf(p.store, log, k) && out == log[k..]
  }

  /** KEEPALIVE from any peer is handed on; the session lives on if and only if its position is a boundary
      of what is stored. */
  lemma KeepAliveFromAnyPeer(p: Peer, log: seq<Frame>, dropped: nat, f: Frame)
    requires WindowOf(p.store, log, dropped) && f.KeepAlive?
    ensures var (p', out) := Handle(p, f);
            && p'.handled == p.handled + [f] && p'.resumable == p.resumable
            && if InWindow(log, dropped, f.lastReceivedPosition)
               then p'.closed == p.closed && out == []
                    && ContinuesFrom(p', log, dropped, f.lastReceivedPosition, p'.store.frames)
               else p'.closed && out == [Error(0, NO_FLAGS, 0x101, None)]
  {
    DropToMovesTheWindow(p.store, log, dropped, f.lastReceivedPosition);
  }

  /** RESUME from any peer: rejected if it has dropped frames that this end has not received, and answered
      with an ERROR if it claims to have received what is no boundary of what is stored; otherwise all
      stored frames from its position on follow RESUME_OK. */
  lemma ResumeFromAnyPeer(p: Peer, log: seq<Frame>, dropped: nat, f: Frame)
    requires WindowOf(p.store, log, dropped) && f.Resume?
    ensures p.store.Valid()
    ensures var (p', out) := ResumeSession(p, f);
            && p'.handled == p.handled && p'.store.lastReceived == p.store.lastReceived
            && if p.store.lastReceived < f.clientPosition
               then p' == p.(closed := true) && out == [Error(0, NO_FLAGS, 0x4, None)]
               else if InWindow(log, dropped, f.serverPosition)
               then p'.closed == p.closed && out != [] && out[0] == ResumeOk(NO_FLAGS, p.store.lastReceived)
                    && ContinuesFrom(p', log, dropped, f.serverPosition, out[1..])
               else p'.closed && out == [Error(0, NO_FLAGS, 0x101, None)]
  {
    DropToMovesTheWindow(p.store, log, dropped, f.serverPosition);
    var (p', out) := ResumeSession(p, f);
    if !(p.store.lastReceived < f.clientPosition) && InWindow(log, dropped, f.serverPosition) {
      assert out[1..] == p'.store.frames;
    }
  }

  /** RESUME_OK from any peer: the stored frames from its position on are sent, or else an ERROR before
      whatever the failing `dropTo` has left. */
  lemma ResumeOkFromAnyPeer(p: Peer, log: seq<Frame>, dropped: nat, f: Frame)
    requires WindowOf(p.store, log, dropped) && f.ResumeOk?
    ensures p.store.Valid()
    ensures var (p', out) := ResumeSession(p, f);
            && p'.handled == p.handled && p'.store.lastReceived == p.store.lastReceived
            && if InWindow(log, dropped, f.clientPosition)
               then p'.closed == p.closed && ContinuesFrom(p', log, dropped, f.clientPosition, out)
               else p'.closed && out == [Error(0, NO_FLAGS, 0x101, None)] + p'.store.frames
  {
    DropToMovesTheWindow(p.store, log, dropped, f.clientPosition);
  }
}
