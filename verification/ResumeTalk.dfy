/** The connection frames of a resumable session: on each connection they arrive in order and complete, an
    ERROR closes both ends, and nothing else closes any. */
module ResumeTalk {
  import opened Options
  import opened Bytes
  import opened Frames
  import opened Codec
  import opened FrameStores
  import opened ResumableMultiplexers
  import opened ResumeProtocol
  import opened ResumeSafety
  import opened ResumeTheorems

  /** What a peer has handled since it had handled `before` connection frames, followed by what is in
      flight to it, is what the other was asked to send on this connection. */
  ghost predicate Hears(receiver: Peer, before: nat, flying: seq<Frame>, asked: seq<Frame>) {
    && before <= |ConnectionPart(receiver.handled)|
    && ConnectionPart(receiver.handled)[before..] + ConnectionPart(flying) == asked
  }

  /** In flight to each end on a connection over which its peer sends; RESUME_OK is not handed on. */
  function FlyingToServer(s: System): seq<Frame> {
    if s.link == Up then s.toServer else []
  }

  function FlyingToClient(s: System): seq<Frame> {
    if !s.serverUp then [] else if s.link == Awaiting && s.toClient != [] then s.toClient[1..] else s.toClient
  }

  ghost predicate Talking(s: System) {
    && Hears(s.server, s.talk.serverHeard, FlyingToServer(s), s.talk.clientAsked)
    && Hears(s.client, s.talk.clientHeard, FlyingToClient(s), s.talk.serverAsked)
  }

  // Lists

  lemma {:induction false} ConnectionPartAppend(a: seq<Frame>, b: seq<Frame>)
    ensures ConnectionPart(a + b) == ConnectionPart(a) + ConnectionPart(b)
    decreases |a|
  {
    if a == [] {
      assert a + b == b;
    } else {
      assert (a + b)[1..] == a[1..] + b;
      ConnectionPartAppend(a[1..], b);
    }
  }

  lemma ConnectionPartPush(fs: seq<Frame>, f: Frame)
    ensures ConnectionPart(fs + [f]) == if f.StreamId() == 0 then ConnectionPart(fs) + [Plain(f)] else ConnectionPart(fs)
  {
    ConnectionPartAppend(fs, [f]);
    assert [f][1..] == [];
    assert ConnectionPart(fs) + [] == ConnectionPart(fs);
  }

  lemma {:induction false} NoConnectionPart(fs: seq<Frame>)
    requires StreamFrames(fs)
    ensures ConnectionPart(fs) == []
    decreases |fs|
  {
    if fs != [] {
      NoConnectionPart(fs[1..]);
    }
  }

  // What each kind of step does to one direction

  lemma HearsAsked(receiver: Peer, before: nat, flying: seq<Frame>, asked: seq<Frame>, f: Frame, plain: Frame)
    requires Hears(receiver, before, flying, asked) && f.StreamId() == 0 && Plain(f) == plain
    ensures Hears(receiver, before, flying + [f], asked + [plain])
  {
    ConnectionPartPush(flying, f);
  }

  lemma HearsStream(receiver: Peer, before: nat, flying: seq<Frame>, asked: seq<Frame>, f: Frame)
    requires Hears(receiver, before, flying, asked) && f.StreamId() != 0
    ensures Hears(receiver, before, flying + [f], asked)
  {
    ConnectionPartPush(flying, f);
  }

  lemma HearsNext(receiver: Peer, receiver': Peer, before: nat, f: Frame, rest: seq<Frame>, asked: seq<Frame>)
    requires Hears(receiver, before, [f] + rest, asked) && (StreamFrame(f) || ConnectionFrame(f))
    requires receiver'.handled == receiver.handled + [Seen(f)]
    ensures Hears(receiver', before, rest, asked)
  {
    assert ([f] + rest)[1..] == rest;
    if StreamFrame(f) {
      SeenStreamFrame(f);
    }
    ConnectionPartPush(receiver.handled, Seen(f));
  }

  lemma HearsNothingYet(receiver: Peer, stored: seq<Frame>)
    requires StreamFrames(stored)
    ensures Hears(receiver, |ConnectionPart(receiver.handled)|, stored, [])
  {
    NoConnectionPart(stored);
  }

  lemma HearsNothingMore(receiver: Peer, before: nat, asked: seq<Frame>, stored: seq<Frame>)
    requires Hears(receiver, before, [], asked) && StreamFrames(stored)
    ensures Hears(receiver, before, stored, asked)
  {
    NoConnectionPart(stored);
  }

  // Every step

  lemma TalkingInitially(setup: Frame)
    requires setup.Setup?
    ensures Talking(Connecting(setup))
  {
    assert [setup][1..] == [];
  }

  lemma SendingTalks(s: System, step: Step)
    requires Inv(s) && Talking(s) && (step.ClientSends? || step.ServerSends?)
    ensures Talking(Next(s, step))
  {
    hide Direction;
    match step
    case ClientSends(f) =>
      if StreamFrame(f) && s.link == Up {
        HearsStream(s.server, s.talk.serverHeard, s.toServer, s.talk.clientAsked, f);
      }
    case ServerSends(f) =>
      if s.born && StreamFrame(f) && s.serverUp {
        FlyingGrows(s, f);
        HearsStream(s.client, s.talk.clientHeard, FlyingToClient(s), s.talk.serverAsked, f);
      }
  }

  lemma FlyingGrows(s: System, f: Frame)
    requires Handshake(s) && s.serverUp
    ensures FlyingToClient(s.(toClient := s.toClient + [f])) == FlyingToClient(s) + [f]
  {
    if s.link == Awaiting {
      assert (s.toClient + [f])[1..] == s.toClient[1..] + [f];
    }
  }

  lemma SayingTalks(s: System, step: Step)
    requires Inv(s) && Talking(s) && (step.ClientSays? || step.ServerSays?)
    ensures Talking(Next(s, step))
  {
    hide Direction;
    match step
    case ClientSays(f) =>
      if ConnectionFrame(f) {
        SayingSends(s.client, f);
        if s.link == Up {
          HearsAsked(s.server, s.talk.serverHeard, s.toServer, s.talk.clientAsked, Said(s.client, f), Plain(f));
        }
      }
    case ServerSays(f) =>
      if s.born && ConnectionFrame(f) {
        SayingSends(s.server, f);
        if s.serverUp {
          FlyingGrows(s, Said(s.server, f));
          HearsAsked(s.client, s.talk.clientHeard, FlyingToClient(s), s.talk.serverAsked, Said(s.server, f), Plain(f));
        }
      }
  }

  lemma HandlingHandsOn(p: Peer, f: Frame)
    requires p.store.Valid() && Countable(f)
    ensures Handle(p, f).0.handled == p.handled + [f]
  {
  }

  lemma ServerReceivingTalks(s: System, f: Frame, rest: seq<Frame>)
    requires Inv(s) && Talking(s) && s.toServer == [f] + rest
    ensures Talking(ServerReceives(s, f, rest))
  {
    hide Direction;
    if s.serverUp {
      OrdinaryHead(f, rest);
      HandlingHandsOn(s.server, Seen(f));
      ServerHandlesKeepsInv(s, f, rest);
      ServerHandlingOnly(s, f, rest);
      HearsNext(s.server, Handle(s.server, Seen(f)).0, s.talk.serverHeard, f, rest, s.talk.clientAsked);
    } else if s.link == Up {
      OrdinaryHead(f, rest);
      assert [] + [f] == [f];
      HearsNext(s.server, NewPeer(true).(handled := [f]), s.talk.serverHeard, f, rest, s.talk.clientAsked);
    } else if s.server.resumable {
      assert rest == [] && s.toServer == [f];
      ServerResumingTalks(s, f);
    }
  }

  lemma ServerResumingTalks(s: System, f: Frame)
    requires Inv(s) && s.link == Awaiting && Asking(s) && !s.serverUp && s.toServer == [f] && s.server.resumable
    requires Talking(s)
    ensures Talking(ServerReceives(s, f, []))
  {
    ServerAccepts(s.server, s.client, s.serverSent, f);
    var (server, out) := ResumeSession(s.server, f);
    assert out[1..] == server.store.frames;
    HearsNothingMore(s.client, s.talk.clientHeard, s.talk.serverAsked, server.store.frames);
  }

  lemma ClientResumingTalks(s: System, f: Frame, rest: seq<Frame>)
    requires Inv(s) && s.serverUp && s.link == Awaiting && s.toClient == [f] + rest
    requires Talking(s)
    ensures Talking(ClientReceives(s, f, rest))
  {
    assert s.toClient[1..] == rest;
    ResumingSends(s.client.store, s.server, s.clientSent, f, rest, []);
    var stored := ResumeSession(s.client, f).0.store.frames;
    assert s.toServer + stored == stored;
    HearsNothingMore(s.server, s.talk.serverHeard, s.talk.clientAsked, stored);
  }

  lemma ClientReceivingTalks(s: System, f: Frame, rest: seq<Frame>)
    requires Inv(s) && Talking(s) && s.toClient == [f] + rest
    ensures Talking(ClientReceives(s, f, rest))
  {
    hide Direction;
    if s.link == Up {
      OrdinaryHead(f, rest);
      HandlingHandsOn(s.client, Seen(f));
      ClientHandlesKeepsInv(s, f, rest);
      ClientHandlingOnly(s, f, rest);
      HearsNext(s.client, Handle(s.client, Seen(f)).0, s.talk.clientHeard, f, rest, s.talk.serverAsked);
    } else if s.serverUp {
      ClientResumingTalks(s, f, rest);
    }
  }

  lemma DisconnectTalks(s: System)
    ensures Talking(Disconnected(s))
  {
    HearsNothingYet(s.server, []);
    HearsNothingYet(s.client, []);
  }

  lemma ReconnectTalks(s: System)
    requires Handshake(s) && Talking(s) && s.link == Down
    ensures Talking(s.(link := Awaiting, toServer := [ResumeFrame(s.client)]))
  {
  }

  lemma StepTalks(s: System, step: Step)
    requires Inv(s) && Talking(s)
    ensures Talking(Next(s, step))
  {
    hide Direction, Handshake, ServerReceives, ClientReceives, Disconnected, Hears;
    match step
    case ClientSends(f) => SendingTalks(s, step);
    case ServerSends(f) => SendingTalks(s, step);
    case ClientSays(f) => SayingTalks(s, step);
    case ServerSays(f) => SayingTalks(s, step);
    case DeliverToServer => if s.toServer != [] { ServerReceivingTalks(s, s.toServer[0], s.toServer[1..]); }
    case DeliverToClient => if s.toClient != [] { ClientReceivingTalks(s, s.toClient[0], s.toClient[1..]); }
    case Disconnect => DisconnectTalks(s);
    case Reconnect => if s.link == Down { ReconnectTalks(s); }
  }

  // What closes a session

  /** An ERROR about the connection. */
  predicate Fatal(f: Frame) {
    f.Error? && f.streamId == 0
  }

  predicate HasFatal(fs: seq<Frame>) {
    exists i | 0 <= i < |fs| :: Fatal(fs[i])
  }

  /** An end is closed if and only if it was asked to send an ERROR or has handled one (or, the client, has
      been refused), every ERROR handled or in flight was asked for, and the server has the session from
      its SETUP until it is closed. */
  ghost predicate Sound(s: System) {
    && (s.talk.clientEnded || HasFatal(s.client.handled) ==> s.client.closed)
    && (s.client.closed ==> s.talk.clientEnded || HasFatal(s.client.handled) || s.refused)
    && (s.server.closed <==> s.talk.serverEnded || HasFatal(s.server.handled))
    && (s.server.resumable <==> s.born && !s.server.closed)
    && Announced(s.client, FlyingToClient(s), s.talk.serverEnded)
    && Announced(s.server, FlyingToServer(s), s.talk.clientEnded)
    && (HasFatal(s.talk.clientAsked) ==> s.talk.clientEnded)
    && (HasFatal(s.talk.serverAsked) ==> s.talk.serverEnded)
    && (s.talk.orphaned <==> !s.born && s.link != Up)
    && (s.refused ==> s.talk.orphaned || s.server.closed)
    && (s.link == Awaiting && !s.serverUp && s.toServer == [] ==> s.refused)
  }

  ghost predicate Announced(receiver: Peer, flying: seq<Frame>, ended: bool) {
    HasFatal(receiver.handled) || HasFatal(flying) ==> ended
  }

  lemma HasFatalPush(fs: seq<Frame>, f: Frame)
    ensures HasFatal(fs + [f]) <==> HasFatal(fs) || Fatal(f)
  {
    var list := fs + [f];
    assert list[|fs|] == f;
    assert forall i | 0 <= i < |fs| :: list[i] == fs[i];
  }

  lemma HasFatalHead(f: Frame, rest: seq<Frame>)
    ensures HasFatal([f] + rest) <==> Fatal(f) || HasFatal(rest)
  {
    var list := [f] + rest;
    assert list[0] == f;
    assert forall i | 0 <= i < |rest| :: list[i + 1] == rest[i];
  }

  /** A frame that can be handled without an answer closes the session if and only if it is an ERROR. */
  lemma HandlingCloses(p: Peer, f: Frame)
    requires p.store.Valid() && (StreamFrame(f) || ConnectionFrame(f)) && Handle(p, Seen(f)).1 == []
    ensures var p' := Handle(p, Seen(f)).0;
            && p'.closed == (p.closed || Fatal(f)) && p'.resumable == (p.resumable && !Fatal(f))
            && (HasFatal(p'.handled) <==> HasFatal(p.handled) || Fatal(f))
  {
    if StreamFrame(f) {
      SeenStreamFrame(f);
    }
    HasFatalPush(p.handled, Seen(f));
  }

  lemma SoundInitially(setup: Frame)
    requires setup.Setup?
    ensures Sound(Connecting(setup))
  {
  }

  lemma SendingIsSound(s: System, step: Step)
    requires Inv(s) && Sound(s) && (step.ClientSends? || step.ServerSends?)
    ensures Sound(Next(s, step))
  {
    hide Direction, HasFatal, Size;
    match step
    case ClientSends(f) =>
      HasFatalPush(s.toServer, f);
    case ServerSends(f) =>
      if s.serverUp {
        FlyingGrows(s, f);
      }
      HasFatalPush(FlyingToClient(s), f);
  }

  lemma ClientSayingIsSound(s: System, f: Frame)
    requires Inv(s) && Sound(s) && ConnectionFrame(f)
    ensures Sound(ClientSay(s, f))
  {
    hide Direction, HasFatal;
    SayingSends(s.client, f);
    HasFatalPush(s.toServer, Said(s.client, f));
    HasFatalPush(s.talk.clientAsked, Plain(f));
  }

  lemma ServerSayingIsSound(s: System, f: Frame)
    requires Inv(s) && Sound(s) && s.born && ConnectionFrame(f)
    ensures Sound(ServerSay(s, f))
  {
    hide Direction, HasFatal;
    SayingSends(s.server, f);
    if s.serverUp {
      FlyingGrows(s, Said(s.server, f));
    }
    HasFatalPush(FlyingToClient(s), Said(s.server, f));
    HasFatalPush(s.talk.serverAsked, Plain(f));
  }

  lemma ServerReceivingIsSound(s: System, f: Frame, rest: seq<Frame>)
    requires Inv(s) && Sound(s) && s.toServer == [f] + rest
    ensures Sound(ServerReceives(s, f, rest))
  {
    hide Direction, HasFatal;
    HasFatalHead(f, rest);
    if s.serverUp {
      OrdinaryHead(f, rest);
      ServerHandlesKeepsInv(s, f, rest);
      ServerHandlingOnly(s, f, rest);
      HandlingCloses(s.server, f);
    } else if s.link == Up {
      HasFatalPush([], f);
      assert [] + [f] == [f];
    } else if s.server.resumable {
      assert rest == [] && s.toServer == [f];
      ServerResumingIsSound(s, f);
    }
  }

  lemma ServerResumingIsSound(s: System, f: Frame)
    requires Inv(s) && s.link == Awaiting && Asking(s) && !s.serverUp && s.toServer == [f] && s.server.resumable
    requires Sound(s)
    ensures Sound(ServerReceives(s, f, []))
  {
    ServerAccepts(s.server, s.client, s.serverSent, f);
    var (server, out) := ResumeSession(s.server, f);
    assert out[1..] == server.store.frames;
  }

  lemma ClientReceivingIsSound(s: System, f: Frame, rest: seq<Frame>)
    requires Inv(s) && Sound(s) && s.toClient == [f] + rest
    ensures Sound(ClientReceives(s, f, rest))
  {
    hide Direction, HasFatal;
    HasFatalHead(f, rest);
    if s.link == Up {
      OrdinaryHead(f, rest);
      ClientHandlesKeepsInv(s, f, rest);
      ClientHandlingOnly(s, f, rest);
      HandlingCloses(s.client, f);
    } else if s.serverUp {
      ClientResumingIsSound(s, f, rest);
    }
  }

  lemma ClientResumingIsSound(s: System, f: Frame, rest: seq<Frame>)
    requires Inv(s) && s.serverUp && s.link == Awaiting && s.toClient == [f] + rest
    requires Sound(s)
    ensures Sound(ClientReceives(s, f, rest))
  {
    assert s.toClient[1..] == rest;
    ResumingSends(s.client.store, s.server, s.clientSent, f, rest, []);
    var stored := ResumeSession(s.client, f).0.store.frames;
    assert s.toServer + stored == stored;
  }

  lemma StepIsSound(s: System, step: Step)
    requires Inv(s) && Sound(s)
    ensures Sound(Next(s, step))
  {
    hide Direction, HasFatal, Handshake, ClientSay, ServerSay, ServerReceives, ClientReceives;
    match step
    case ClientSends(f) => SendingIsSound(s, step);
    case ServerSends(f) => SendingIsSound(s, step);
    case ClientSays(f) => if ConnectionFrame(f) { ClientSayingIsSound(s, f); }
    case ServerSays(f) => if s.born && ConnectionFrame(f) { ServerSayingIsSound(s, f); }
    case DeliverToServer => if s.toServer != [] { ServerReceivingIsSound(s, s.toServer[0], s.toServer[1..]); }
    case DeliverToClient => if s.toClient != [] { ClientReceivingIsSound(s, s.toClient[0], s.toClient[1..]); }
    case Disconnect => LosingIsSound(s);
    case Reconnect => if s.link == Down { ReconnectingIsSound(s); }
  }

  lemma ReconnectingIsSound(s: System)
    requires Sound(s) && Handshake(s) && s.link == Down
    ensures Sound(s.(link := Awaiting, toServer := [ResumeFrame(s.client)]))
  {
  }

  lemma LosingIsSound(s: System)
    requires Sound(s)
    ensures Sound(Disconnected(s))
  {
  }

  lemma {:induction false} RunTalksSoundly(s: System, steps: seq<Step>)
    requires Inv(s) && Talking(s) && Sound(s)
    ensures var t := Run(s, steps); Inv(t) && Talking(t) && Sound(t)
    decreases |steps|
  {
    hide Direction, Handshake, Talking, Sound, Next;
    if steps != [] {
      StepKeepsInv(s, steps[0]);
      StepTalks(s, steps[0]);
      StepIsSound(s, steps[0]);
      RunTalksSoundly(Next(s, steps[0]), steps[1..]);
    }
  }

  lemma Reachable(setup: Frame, steps: seq<Step>)
    requires setup.Setup?
    ensures var s := Run(Connecting(setup), steps); Inv(s) && Talking(s) && Sound(s)
  {
    InvInitially(setup);
    TalkingInitially(setup);
    SoundInitially(setup);
    RunTalksSoundly(Connecting(setup), steps);
  }

  // The theorems, over every run

  /** The connection frames that a peer has handled on the current connection and those in flight to it
      are, in order, exactly those that the other was asked to send on it: SETUP, KEEPALIVE, LEASE, ERROR
      and METADATA_PUSH, KEEPALIVE up to the position it is given. */
  lemma ConnectionFramesArriveInOrder(setup: Frame, steps: seq<Step>)
    requires setup.Setup?
    ensures var s := Run(Connecting(setup), steps);
            && (s.link == Up ==>
                  && s.talk.serverHeard <= |ConnectionPart(s.server.handled)|
                  && ConnectionPart(s.server.handled)[s.talk.serverHeard..] + ConnectionPart(s.toServer) == s.talk.clientAsked)
            && (s.link == Up && s.serverUp ==>
                  && s.talk.clientHeard <= |ConnectionPart(s.client.handled)|
                  && ConnectionPart(s.client.handled)[s.talk.clientHeard..] + ConnectionPart(s.toClient) == s.talk.serverAsked)
  {
    Reachable(setup, steps);
  }

  /** An ERROR closes both ends: the one that sends it at once, the other when nothing is in flight any
      more; and the server then has the session no longer. */
  lemma ErrorClosesBoth(setup: Frame, steps: seq<Step>)
    requires setup.Setup?
    ensures var s := Run(Connecting(setup), steps);
            && (HasFatal(s.talk.clientAsked) ==> s.client.closed)
            && (HasFatal(s.talk.serverAsked) ==> s.server.closed && !s.server.resumable)
            && (s.link == Up && s.toServer == [] && s.toClient == []
                && (HasFatal(s.talk.clientAsked) || HasFatal(s.talk.serverAsked)) ==>
                  s.client.closed && s.server.closed && !s.server.resumable)
  {
    hide Direction, HasFatal, Run, Connecting;
    Reachable(setup, steps);
    var s := Run(Connecting(setup), steps);
    if s.link == Up && s.toServer == [] && s.toClient == [] {
      assert s.serverUp;
      ErrorsHeard(s.server, s.talk.serverHeard, s.talk.clientAsked);
      ErrorsHeard(s.client, s.talk.clientHeard, s.talk.serverAsked);
    }
  }

  lemma {:induction false} FatalInConnectionPart(fs: seq<Frame>)
    ensures HasFatal(ConnectionPart(fs)) <==> HasFatal(fs)
    decreases |fs|
  {
    if fs != [] {
      FatalInConnectionPart(fs[1..]);
      HasFatalHead(fs[0], fs[1..]);
      HasFatalHead(Plain(fs[0]), ConnectionPart(fs[1..]));
      assert fs == [fs[0]] + fs[1..];
    }
  }

  lemma ErrorsHeard(receiver: Peer, before: nat, asked: seq<Frame>)
    requires Hears(receiver, before, [], asked)
    ensures HasFatal(asked) ==> HasFatal(receiver.handled)
  {
    if HasFatal(asked) {
      var heard := ConnectionPart(receiver.handled);
      FatalInConnectionPart(receiver.handled);
      assert heard[before..] + [] == heard[before..];
      var i :| 0 <= i < |asked| && Fatal(asked[i]);
      assert heard[before + i] == asked[i];
    }
  }

  /** Nothing else closes a session: the server's end is closed exactly when it was asked to send an ERROR
      or has handled one, it can be resumed exactly from its SETUP until then, and a connection is refused
      only if the server has not, or no longer, the session. */
  lemma OnlyErrorsClose(setup: Frame, steps: seq<Step>)
    requires setup.Setup?
    ensures var s := Run(Connecting(setup), steps);
            && (s.server.closed <==> s.talk.serverEnded || HasFatal(s.server.handled))
            && (s.server.resumable <==> s.born && !s.server.closed)
            && (s.talk.clientEnded || HasFatal(s.client.handled) ==> s.client.closed)
            && (s.client.closed ==> s.talk.clientEnded || HasFatal(s.client.handled) || s.refused)
            && (HasFatal(s.client.handled) ==> s.talk.serverEnded)
            && (HasFatal(s.server.handled) ==> s.talk.clientEnded)
            && (s.talk.orphaned <==> !s.born && s.link != Up)
            && (s.refused ==> s.talk.orphaned || s.server.closed)
  {
    Reachable(setup, steps);
  }

  /** Between honest peers resumption never fails: as long as no end was asked to send an ERROR, and once
      the server has the SETUP, no session is closed and no connection refused; and in any run the positions
      stay in their ranges, so that whatever is acknowledged can be dropped. */
  lemma ResumeNeverFails(setup: Frame, steps: seq<Step>)
    requires setup.Setup?
    ensures var s := Run(Connecting(setup), steps);
            && (!s.talk.clientEnded && !s.talk.serverEnded && !s.talk.orphaned ==>
                  !s.client.closed && !s.server.closed && !s.refused)
            && s.client.store.firstAvailable <= s.server.store.lastReceived <= s.client.store.lastSent
            && s.server.store.firstAvailable <= s.client.store.lastReceived <= s.server.store.lastSent
            && AcksInOrder(s.toClient, s.clientSent, s.client.store.firstAvailable, s.server.store.lastReceived)
            && AcksInOrder(s.toServer, s.serverSent, s.server.store.firstAvailable, s.client.store.lastReceived)
  {
    hide Direction;
    OnlyErrorsClose(setup, steps);
    PositionsStayInRange(setup, steps);
  }
}
