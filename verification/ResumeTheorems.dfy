/** The invariant of the resume protocol holds in every reachable state, and what follows from it. */
module ResumeTheorems {
  import opened Options
  import opened Bytes
  import opened Frames
  import opened Codec
  import opened FrameStores
  import opened ResumableMultiplexers
  import opened ResumeProtocol
  import opened ResumeSafety

  lemma InvInitially(setup: Frame)
    requires setup.Setup?
    ensures Inv(Connecting(setup))
  {
    var log: seq<Frame> := [];
    assert log[..0] == [] && log[0..] == [];
    StreamPartOne(setup);
    assert [setup][1..] == [];
  }

  lemma ClientSendsKeepsInv(s: System, f: Frame)
    requires Inv(s) && StreamFrame(f)
    ensures Inv(Next(s, ClientSends(f)))
  {
    hide Direction, Size, StreamPart;
    var p := s.client.(store := StoreFrame(s.client.store, f));
    assert Send(s.client, f) == (p, [f]);
    SendingStream(s.client.store, s.server, s.clientSent, s.toServer, s.link == Up, s.toClient, f);
    SendingWhileReceiving(s.server.store, s.client, p, s.serverSent, s.toClient, s.serverUp, s.toServer, f);
    if s.link == Up {
      OrdinaryPush(s.toServer, f);
    }
  }

  lemma ServerSendsKeepsInv(s: System, f: Frame)
    requires Inv(s) && s.born && StreamFrame(f)
    ensures Inv(Next(s, ServerSends(f)))
  {
    hide Direction, Size, StreamPart;
    var p := s.server.(store := StoreFrame(s.server.store, f));
    assert Send(s.server, f) == (p, [f]);
    SendingStream(s.server.store, s.client, s.serverSent, s.toClient, s.serverUp, s.toServer, f);
    SendingWhileReceiving(s.client.store, s.server, p, s.clientSent, s.toServer, s.link == Up, s.toClient, f);
    if s.serverUp {
      ServerQueueStaysOrdinary(s, f);
    }
  }

  /** A connection frame as `send` gives it to the outbound: KEEPALIVE with the received position. */
  function Said(p: Peer, f: Frame): Frame {
    if f.KeepAlive? then f.(lastReceivedPosition := p.store.lastReceived) else f
  }

  lemma SayingSends(p: Peer, f: Frame)
    requires ConnectionFrame(f)
    ensures Send(p, f).1 == [Said(p, f)] && ConnectionFrame(Said(p, f)) && Plain(Said(p, f)) == Plain(f)
    ensures Send(p, f).0 == if f.Error? then p.(closed := true, resumable := false) else p
    ensures Acknowledged(Said(p, f)).Some? ==> Acknowledged(Said(p, f)).value == p.store.lastReceived
  {
  }

  lemma ClientSaysKeepsInv(s: System, f: Frame)
    requires Inv(s) && ConnectionFrame(f)
    ensures Inv(Next(s, ClientSays(f)))
  {
    hide Direction, Size, StreamPart;
    var p, g := Send(s.client, f).0, Said(s.client, f);
    SayingSends(s.client, f);
    SendingOnStreamZero(s.client.store, s.server, s.clientSent, s.toServer, s.link == Up, s.toClient, g);
    SendingWhileReceiving(s.server.store, s.client, p, s.serverSent, s.toClient, s.serverUp, s.toServer, g);
    if s.link == Up {
      OrdinaryPush(s.toServer, g);
    }
  }

  lemma ServerSaysKeepsInv(s: System, f: Frame)
    requires Inv(s) && s.born && ConnectionFrame(f)
    ensures Inv(Next(s, ServerSays(f)))
  {
    hide Direction, Size, StreamPart;
    var p, g := Send(s.server, f).0, Said(s.server, f);
    SayingSends(s.server, f);
    SendingOnStreamZero(s.server.store, s.client, s.serverSent, s.toClient, s.serverUp, s.toServer, g);
    SendingWhileReceiving(s.client.store, s.server, p, s.clientSent, s.toServer, s.link == Up, s.toClient, g);
    if s.serverUp {
      ServerQueueStaysOrdinary(s, g);
    }
  }

  lemma ServerQueueStaysOrdinary(s: System, f: Frame)
    requires Handshake(s) && s.serverUp && (StreamFrame(f) || ConnectionFrame(f))
    ensures Handshake(s.(toClient := s.toClient + [f]))
  {
    if s.link == Up {
      OrdinaryPush(s.toClient, f);
    } else {
      assert (s.toClient + [f])[1..] == s.toClient[1..] + [f];
      OrdinaryPush(s.toClient[1..], f);
    }
  }

  /** A peer of an established connection handles the next frame: in the direction in which it receives
      (`flying` is `[f] + rest`) and in the one in which it sends (`[f] + rest` are the acknowledgements). */
  lemma HandlingKeepsDirections(p: Peer, other: Peer, f: Frame, rest: seq<Frame>,
                                inLog: seq<Frame>, inSending: bool, inAcks: seq<Frame>,
                                outLog: seq<Frame>, outFlying: seq<Frame>, outSending: bool)
    requires p.store.Valid() && (StreamFrame(f) || ConnectionFrame(f))
    requires Direction(other.store, p, inLog, [f] + rest, inSending, inAcks)
    requires Direction(p.store, other, outLog, outFlying, outSending, [f] + rest)
    ensures var (p', out) := Handle(p, Seen(f));
            && out == [] && p'.store.Valid()
            && Direction(other.store, p', inLog, rest, inSending, inAcks)
            && Direction(p'.store, other, outLog, outFlying, outSending, rest)
  {
    var p' := Handle(p, Seen(f)).0;
    if f.KeepAlive? {
      ReceivingAck(p.store, other, outLog, outFlying, outSending, f, rest);
      ReceivingConnectionFrame(other.store, p, p', inLog, f, rest, inSending, inAcks);
    } else if StreamFrame(f) {
      SeenStreamFrame(f);
      ReceivingStream(other.store, p, inLog, f, rest, inSending, inAcks);
      ReceivingStreamWhileSending(p.store, p'.store, other, outLog, outFlying, outSending, f, rest);
    } else {
      ReceivingConnectionFrame(other.store, p, p', inLog, f, rest, inSending, inAcks);
      ReceivingStreamWhileSending(p.store, p'.store, other, outLog, outFlying, outSending, f, rest);
    }
  }

  lemma ServerHandlesKeepsInv(s: System, f: Frame, rest: seq<Frame>)
    requires Inv(s) && s.link == Up && s.serverUp && s.toServer == [f] + rest
    ensures Inv(s.(server := Handle(s.server, Seen(f)).0, toServer := rest))
    ensures Handle(s.server, Seen(f)).1 == []
  {
    OrdinaryHead(f, rest);
    HandlingKeepsDirections(s.server, s.client, f, rest, s.clientSent, true, s.toClient, s.serverSent, s.toClient, true);
  }

  lemma ClientHandlesKeepsInv(s: System, f: Frame, rest: seq<Frame>)
    requires Inv(s) && s.link == Up && s.toClient == [f] + rest
    ensures Inv(s.(client := Handle(s.client, Seen(f)).0, toClient := rest))
    ensures Handle(s.client, Seen(f)).1 == []
  {
    OrdinaryHead(f, rest);
    HandlingKeepsDirections(s.client, s.server, f, rest, s.serverSent, true, s.toServer, s.clientSent, s.toServer, true);
  }

  /** SETUP makes the server's end of the session. */
  lemma SetupKeepsInv(s: System, f: Frame, rest: seq<Frame>)
    requires Inv(s) && s.link == Up && !s.serverUp && s.toServer == [f] + rest
    ensures f.Setup? && Inv(ServerReceives(s, f, rest))
  {
    OrdinaryHead(f, rest);
    ReceivingConnectionFrame(s.client.store, s.server, NewPeer(true).(handled := [f]), s.clientSent, f, rest, true, []);
    ReceivingStreamWhileSending(s.server.store, s.server.store, s.client, s.serverSent, [], false, f, rest);
    assert s.serverSent[|Recorded(s.client)|..] == [];
  }

  /** What the server does with RESUME: it accepts, and sends the frames the client has not recorded. */
  lemma ServerAccepts(server: Peer, client: Peer, log: seq<Frame>, f: Frame)
    requires Direction(server.store, client, log, [], false, [f])
    requires f.Resume? && f.serverPosition == client.store.lastReceived
    requires f.clientPosition <= server.store.lastReceived
    ensures server.store.Valid()
    ensures var (server', out) := ResumeSession(server, f);
            var stored := server'.store.frames;
            && server'.handled == server.handled && server'.closed == server.closed
            && server'.store.lastReceived == server.store.lastReceived
            && StreamFrames(stored)
            && out == [ResumeOk(NO_FLAGS, server.store.lastReceived)] + stored
            && Direction(server'.store, client, log, out, true, [])
  {
    assert [f] == [f] + [];
    StreamPartOne(ResumeOk(NO_FLAGS, server.store.lastReceived));
    ResumingSends(server.store, client, log, f, [], [ResumeOk(NO_FLAGS, server.store.lastReceived)]);
  }

  /** The server continues the session, or knows of none. */
  lemma ServerResumesKeepsInv(s: System, f: Frame)
    requires Inv(s) && s.link == Awaiting && Asking(s) && !s.serverUp && s.toServer == [f] && s.server.resumable
    ensures f.Resume? && Inv(ServerReceives(s, f, []))
  {
    ServerAccepts(s.server, s.client, s.serverSent, f);
    var (server, out) := ResumeSession(s.server, f);
    assert [f] == [f] + [];
    ReceivingConnectionFrame(s.client.store, s.server, server, s.clientSent, f, [], false, []);
    var accepted := ResumeOk(NO_FLAGS, s.server.store.lastReceived);
    assert out[1..] == server.store.frames;
    AcceptanceInFlight(s.client.store, server, s.clientSent, accepted, server.store.frames);
  }

  lemma ServerRefusesKeepsInv(s: System, f: Frame)
    requires Inv(s) && s.link == Awaiting && Asking(s) && !s.serverUp && s.toServer == [f] && !s.server.resumable
    ensures Inv(ServerReceives(s, f, []))
  {
    var answer := ConnectionFailed(REJECTED_RESUME);
    NothingInFlight(s.client.store, s.server, s.clientSent, s.toServer, false, s.toClient);
    NothingInFlight(s.server.store, s.client, s.serverSent, s.toClient, false, s.toServer);
    SendingOnStreamZero(s.server.store, s.client, s.serverSent, [], false, [], answer);
    SendingWhileReceiving(s.client.store, s.server, s.server, s.clientSent, [], false, [], answer);
    assert [] + [answer] == [answer];
  }

  /** The client continues the session: it sends every frame the server has not recorded. */
  lemma ClientResumesKeepsInv(s: System, f: Frame, rest: seq<Frame>)
    requires Inv(s) && s.serverUp && s.link == Awaiting && s.toClient == [f] + rest
    ensures f.ResumeOk? && Inv(ClientReceives(s, f, rest))
  {
    var s' := ClientReceives(s, f, rest);
    assert s.toClient[1..] == rest;
    ResumingSends(s.client.store, s.server, s.clientSent, f, rest, []);
    ReceivingConnectionFrame(s.server.store, s.client, s'.client, s.serverSent, f, rest, true, []);
    var stored := s'.client.store.frames;
    assert [] + stored == stored;
    StreamFramesAcknowledgeNothing(stored, s.serverSent, s.server.store.firstAvailable, s.client.store.lastReceived);
  }

  /** The client gives the session up. */
  lemma ClientGivesUpKeepsInv(s: System, f: Frame, rest: seq<Frame>)
    requires Inv(s) && s.link == Awaiting && !s.serverUp && s.toClient == [f] + rest
    ensures f.Error? && rest == [] && Inv(ClientReceives(s, f, rest))
  {
    NothingInFlight(s.client.store, s.server, s.clientSent, s.toServer, false, s.toClient);
    NothingInFlight(s.server.store, s.client, s.serverSent, s.toClient, false, s.toServer);
    assert s.toClient[0] == f && s.toClient[1..] == rest;
  }

  lemma ServerHandlingOnly(s: System, f: Frame, rest: seq<Frame>)
    requires s.Valid() && s.serverUp && Countable(f) && AllCountable(rest) && Handle(s.server, Seen(f)).1 == []
    ensures ServerReceives(s, f, rest) == s.(server := Handle(s.server, Seen(f)).0, toServer := rest)
  {
    assert s.toClient + [] == s.toClient;
  }

  lemma ClientHandlingOnly(s: System, f: Frame, rest: seq<Frame>)
    requires s.Valid() && s.link == Up && Countable(f) && AllCountable(rest) && Handle(s.client, Seen(f)).1 == []
    ensures ClientReceives(s, f, rest) == s.(client := Handle(s.client, Seen(f)).0, toClient := rest)
  {
    assert s.toServer + [] == s.toServer;
  }

  lemma ServerReceivesKeepsInv(s: System, f: Frame, rest: seq<Frame>)
    requires Inv(s) && s.toServer == [f] + rest
    ensures Inv(ServerReceives(s, f, rest))
  {
    if s.serverUp {
      ServerHandlesKeepsInv(s, f, rest);
      ServerHandlingOnly(s, f, rest);
    } else if s.link == Up {
      SetupKeepsInv(s, f, rest);
    } else if s.server.resumable {
      ServerResumesKeepsInv(s, f);
    } else {
      ServerRefusesKeepsInv(s, f);
    }
  }

  lemma ClientReceivesKeepsInv(s: System, f: Frame, rest: seq<Frame>)
    requires Inv(s) && s.toClient == [f] + rest
    ensures Inv(ClientReceives(s, f, rest))
  {
    if s.link == Up {
      ClientHandlesKeepsInv(s, f, rest);
      ClientHandlingOnly(s, f, rest);
    } else if s.serverUp {
      ClientResumesKeepsInv(s, f, rest);
    } else {
      ClientGivesUpKeepsInv(s, f, rest);
    }
  }

  lemma DisconnectKeepsInv(s: System)
    requires Inv(s)
    ensures Inv(Next(s, Disconnect))
  {
    NothingInFlight(s.client.store, s.server, s.clientSent, s.toServer, s.link == Up, s.toClient);
    NothingInFlight(s.server.store, s.client, s.serverSent, s.toClient, s.serverUp, s.toServer);
  }

  lemma ReconnectKeepsInv(s: System)
    requires Inv(s) && s.link == Down
    ensures Inv(Next(s, Reconnect))
  {
    hide Direction;
    var f := ResumeFrame(s.client);
    DirectionRanges(s.client.store, s.server, s.clientSent, [], false, []);
    SendingOnStreamZero(s.client.store, s.server, s.clientSent, [], false, [], f);
    SendingWhileReceiving(s.server.store, s.client, s.client, s.serverSent, [], false, [], f);
    assert [] + [f] == [f];
  }

  lemma StepKeepsInv(s: System, step: Step)
    requires Inv(s)
    ensures Inv(Next(s, step))
  {
    hide Direction, Handshake, ClientSend, ServerSend, ClientSay, ServerSay, ServerReceives, ClientReceives, Disconnected;
    match step
    case ClientSends(f) => if StreamFrame(f) { ClientSendsKeepsInv(s, f); }
    case ServerSends(f) => if s.born && StreamFrame(f) { ServerSendsKeepsInv(s, f); }
    case ClientSays(f) => if ConnectionFrame(f) { ClientSaysKeepsInv(s, f); }
    case ServerSays(f) => if s.born && ConnectionFrame(f) { ServerSaysKeepsInv(s, f); }
    case DeliverToServer => if s.toServer != [] { ServerReceivesKeepsInv(s, s.toServer[0], s.toServer[1..]); }
    case DeliverToClient => if s.toClient != [] { ClientReceivesKeepsInv(s, s.toClient[0], s.toClient[1..]); }
    case Disconnect => DisconnectKeepsInv(s);
    case Reconnect => if s.link == Down { ReconnectKeepsInv(s); }
  }

  lemma {:induction false} RunKeepsInv(s: System, steps: seq<Step>)
    requires Inv(s)
    ensures Inv(Run(s, steps))
    decreases |steps|
  {
    hide Direction, Handshake, Next;
    if steps != [] {
      StepKeepsInv(s, steps[0]);
      RunKeepsInv(Next(s, steps[0]), steps[1..]);
    }
  }

  lemma ReachableInv(setup: Frame, steps: seq<Step>)
    requires setup.Setup?
    ensures Inv(Run(Connecting(setup), steps))
  {
    InvInitially(setup);
    RunKeepsInv(Connecting(setup), steps);
  }

  // The theorems, over every run

  lemma {:induction false} AllSeenPrefix(fs: seq<Frame>, k: nat)
    requires AllCountable(fs) && k <= |fs|
    ensures AllSeen(fs[..k]) == AllSeen(fs)[..k]
    decreases k
  {
    if k > 0 {
      assert fs[..k][1..] == fs[1..][..k - 1];
      AllSeenPrefix(fs[1..], k - 1);
    }
  }

  /** Exactly once and in order: after any run the stream frames that a peer has recorded are a prefix of
      those the other has ever sent, each as the codec delivers it. */
  lemma ExactlyOnceInOrder(setup: Frame, steps: seq<Step>)
    requires setup.Setup?
    ensures var s := Run(Connecting(setup), steps);
            && Recorded(s.server) <= AllSeen(s.clientSent)
            && Recorded(s.client) <= AllSeen(s.serverSent)
  {
    ReachableInv(setup, steps);
    var s := Run(Connecting(setup), steps);
    AllSeenPrefix(s.clientSent, |Recorded(s.server)|);
    AllSeenPrefix(s.serverSent, |Recorded(s.client)|);
  }

  /** Nothing is lost: once both ends have resumed and nothing is in flight, everything has been recorded. */
  lemma QuiescentSessionIsComplete(setup: Frame, steps: seq<Step>)
    requires setup.Setup?
    ensures var s := Run(Connecting(setup), steps);
            s.link == Up && s.toServer == [] && s.toClient == [] ==>
              Recorded(s.server) == AllSeen(s.clientSent) && Recorded(s.client) == AllSeen(s.serverSent)
  {
    ReachableInv(setup, steps);
    var s := Run(Connecting(setup), steps);
    if s.link == Up && s.toServer == [] && s.toClient == [] {
      assert s.clientSent[..|s.clientSent|] == s.clientSent;
      assert s.serverSent[..|s.serverSent|] == s.serverSent;
    }
  }

  /** The positions stay in their ranges: no sender drops what its receiver has not recorded, and what is
      acknowledged in flight can always be dropped. */
  lemma PositionsStayInRange(setup: Frame, steps: seq<Step>)
    requires setup.Setup?
    ensures var s := Run(Connecting(setup), steps);
            && s.client.store.firstAvailable <= s.server.store.lastReceived <= s.client.store.lastSent
            && s.server.store.firstAvailable <= s.client.store.lastReceived <= s.server.store.lastSent
            && AcksInOrder(s.toClient, s.clientSent, s.client.store.firstAvailable, s.server.store.lastReceived)
            && AcksInOrder(s.toServer, s.serverSent, s.server.store.firstAvailable, s.client.store.lastReceived)
  {
    ReachableInv(setup, steps);
    var s := Run(Connecting(setup), steps);
    DirectionRanges(s.client.store, s.server, s.clientSent, s.toServer, s.link == Up, s.toClient);
    DirectionRanges(s.server.store, s.client, s.serverSent, s.toClient, s.serverUp, s.toServer);
  }
}
