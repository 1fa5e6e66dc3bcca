/** Which sessions can be continued until everything has arrived: those whose connection is up and those
    that the server still has. */
module ResumeCompletion {
  import opened Options
  import opened Bytes
  import opened Frames
  import opened Codec
  import opened FrameStores
  import opened ResumableMultiplexers
  import opened ResumeProtocol
  import opened ResumeSafety
  import opened ResumeTheorems

  /** A connection that carries the session is up, at least at one end, or the server would accept a RESUME. */
  predicate Alive(s: System) {
    s.link == Up || s.serverUp || s.server.resumable
  }

  lemma RunFirst(s: System, step: Step, rest: seq<Step>)
    requires s.Valid()
    ensures Run(s, [step] + rest) == Run(Next(s, step), rest)
  {
    assert ([step] + rest)[1..] == rest;
  }

  lemma {:induction false} RunAppend(s: System, a: seq<Step>, b: seq<Step>)
    requires s.Valid()
    ensures Run(s, a + b) == Run(Run(s, a), b)
    decreases |a|
  {
    hide Next;
    if a == [] {
      assert a + b == b;
    } else {
      assert (a + b)[1..] == a[1..] + b;
      RunAppend(Next(s, a[0]), a[1..], b);
    }
  }

  /** Delivering over an established connection. */
  lemma DeliveredToServer(s: System, f: Frame, rest: seq<Frame>)
    requires Inv(s) && s.link == Up && s.toServer == [f] + rest
    ensures var t := ServerReceives(s, f, rest);
            && Inv(t) && t.link == Up && t.toServer == rest && t.toClient == s.toClient
            && t.clientSent == s.clientSent && t.serverSent == s.serverSent
  {
    if s.serverUp {
      ServerHandlesKeepsInv(s, f, rest);
      ServerHandlingOnly(s, f, rest);
    } else {
      SetupKeepsInv(s, f, rest);
    }
  }

  lemma DeliveredToClient(s: System, f: Frame, rest: seq<Frame>)
    requires Inv(s) && s.link == Up && s.toClient == [f] + rest
    ensures var t := ClientReceives(s, f, rest);
            && Inv(t) && t.link == Up && t.toServer == s.toServer && t.toClient == rest
            && t.clientSent == s.clientSent && t.serverSent == s.serverSent
  {
    ClientHandlesKeepsInv(s, f, rest);
    ClientHandlingOnly(s, f, rest);
  }

  /** From an established connection, delivering what is in flight, and nothing else, ends quiescent. */
  lemma {:induction false} DeliveringSettles(s: System) returns (steps: seq<Step>)
    requires Inv(s) && s.link == Up
    ensures var t := Run(s, steps);
            && t.link == Up && t.toServer == [] && t.toClient == []
            && t.clientSent == s.clientSent && t.serverSent == s.serverSent
    decreases |s.toServer| + |s.toClient|
  {
    hide Direction, Handshake, ServerReceives, ClientReceives;
    if s.toServer == [] && s.toClient == [] {
      return [];
    }
    var step: Step;
    if s.toServer != [] {
      step := DeliverToServer;
      DeliveredToServer(s, s.toServer[0], s.toServer[1..]);
    } else {
      step := DeliverToClient;
      DeliveredToClient(s, s.toClient[0], s.toClient[1..]);
    }
    var rest := DeliveringSettles(Next(s, step));
    steps := [step] + rest;
    RunFirst(s, step, rest);
  }

  /** What a reconnecting client says in its RESUME: how much of the server's log it has recorded and from
      where on it still has its own, and its version with the two numbers swapped. */
  lemma ReconnectAsks(s: System)
    requires Inv(s) && s.link == Down
    ensures Next(s, Reconnect).toServer
         == [Resume(NO_FLAGS, 0, 1, [], Total(s.serverSent[..|Recorded(s.client)|]),
                    Total(s.clientSent[..Dropped(s.client.store, s.clientSent)]))]
  {
  }

  /** A server without the session refuses its RESUME, as any first frame but SETUP. */
  lemma RefusalIsSent(s: System, f: Frame, rest: seq<Frame>)
    requires s.Valid() && !s.serverUp && Countable(f) && AllCountable(rest)
    ensures var t := ServerReceives(s, f, rest);
            && (!f.Setup? && !(f.Resume? && s.server.resumable) <==> !t.serverUp)
            && (!t.serverUp ==> t.refused && t.server == s.server
                                && t.toClient == [Error(0, NO_FLAGS, if f.Resume? then 0x4 else 0x2, None)])
  {
  }

  /** A RESUME in flight to a server that has the session is accepted. */
  lemma Resumes(s: System)
    requires Inv(s) && s.link == Awaiting && !s.serverUp && s.toServer != [] && s.server.resumable
    ensures var t := Next(s, DeliverToServer);
            && Inv(t) && t.link == Awaiting && t.serverUp
            && t.clientSent == s.clientSent && t.serverSent == s.serverSent
  {
    hide Direction;
    StepKeepsInv(s, DeliverToServer);
  }

  /** RESUME_OK in flight opens the client's end. */
  lemma Resumed(s: System)
    requires Inv(s) && s.link == Awaiting && s.serverUp
    ensures var t := Next(s, DeliverToClient);
            Inv(t) && t.link == Up && t.clientSent == s.clientSent && t.serverSent == s.serverSent
  {
    hide Direction;
    StepKeepsInv(s, DeliverToClient);
  }

  lemma ConnectsAgain(s: System)
    requires Inv(s)
    ensures var t := Next(Next(s, Disconnect), Reconnect);
            && Inv(t) && t.link == Awaiting && !t.serverUp && t.toServer != [] && t.server == s.server
            && t.clientSent == s.clientSent && t.serverSent == s.serverSent
  {
    hide Direction, Handshake;
    StepKeepsInv(s, Disconnect);
    StepKeepsInv(Next(s, Disconnect), Reconnect);
  }

  /** Reaching an established connection: it is one, RESUME_OK is on its way, or by one reconnection. */
  lemma Opens(s: System) returns (steps: seq<Step>)
    requires Inv(s) && Alive(s)
    ensures var t := Run(s, steps);
            Inv(t) && t.link == Up && t.clientSent == s.clientSent && t.serverSent == s.serverSent
  {
    hide Direction, Handshake, Next;
    if s.link == Up {
      return [];
    }
    if s.serverUp {
      assert s.link == Awaiting by { ServerUpMeansConnected(s); }
      Resumed(s);
      RunFirst(s, DeliverToClient, []);
      return [DeliverToClient];
    }
    ConnectsAgain(s);
    var asking := Next(Next(s, Disconnect), Reconnect);
    Resumes(asking);
    Resumed(Next(asking, DeliverToServer));
    FourSteps(s);
    return [Disconnect, Reconnect, DeliverToServer, DeliverToClient];
  }

  lemma ServerUpMeansConnected(s: System)
    requires Inv(s) && s.serverUp
    ensures s.link != Down
  {
  }

  lemma FourSteps(s: System)
    requires s.Valid()
    ensures Run(s, [Disconnect, Reconnect, DeliverToServer, DeliverToClient])
         == Next(Next(Next(Next(s, Disconnect), Reconnect), DeliverToServer), DeliverToClient)
  {
    hide Next;
    var four := [Disconnect, Reconnect, DeliverToServer, DeliverToClient];
    assert four[1..] == [Reconnect, DeliverToServer, DeliverToClient];
    assert four[1..][1..] == [DeliverToServer, DeliverToClient];
    assert four[1..][1..][1..] == [DeliverToClient];
    assert four[1..][1..][1..][1..] == [];
  }

  /** Resumption completes: a session that is alive can be continued, by at most one reconnection and the
      delivery of what is in flight, until each peer has recorded everything the other had sent. */
  lemma ResumptionCompletes(setup: Frame, steps: seq<Step>) returns (more: seq<Step>)
    requires setup.Setup? && Alive(Run(Connecting(setup), steps))
    ensures var s, t := Run(Connecting(setup), steps), Run(Connecting(setup), steps + more);
            && t.clientSent == s.clientSent && t.serverSent == s.serverSent
            && Recorded(t.server) == AllSeen(s.clientSent)
            && Recorded(t.client) == AllSeen(s.serverSent)
  {
    hide Direction, Handshake, Next, Connecting;
    var start := Connecting(setup);
    var s := Run(start, steps);
    ReachableInv(setup, steps);
    var opening := Opens(s);
    var settling := DeliveringSettles(Run(s, opening));
    more := opening + settling;
    RunAppend(s, opening, settling);
    RunAppend(start, steps, more);
    QuiescentSessionIsComplete(setup, steps + more);
  }

  lemma DeadStep(s: System, step: Step)
    requires Inv(s) && !Alive(s)
    ensures var t := Next(s, step);
            && Inv(t) && !Alive(t)
            && t.server.handled == s.server.handled && t.client.handled == s.client.handled
  {
    hide Direction, Total;
    StepKeepsInv(s, step);
  }

  /** A session that is not alive stays so, whatever is tried: nothing reaches either end any more. */
  lemma {:induction false} DeadSession(s: System, steps: seq<Step>)
    requires Inv(s) && !Alive(s)
    ensures var t := Run(s, steps);
            !Alive(t) && t.server.handled == s.server.handled && t.client.handled == s.client.handled
    decreases |steps|
  {
    hide Direction, Handshake, Next, Alive;
    if steps != [] {
      DeadStep(s, steps[0]);
      DeadSession(Next(s, steps[0]), steps[1..]);
    }
  }

  /** The exact condition: a run can be continued to everything being recorded if and only if the session
      is alive or that is so already. */
  lemma CompletesOnlyIfAlive(setup: Frame, steps: seq<Step>, more: seq<Step>)
    requires setup.Setup? && !Alive(Run(Connecting(setup), steps))
    ensures var s, t := Run(Connecting(setup), steps), Run(Connecting(setup), steps + more);
            && Recorded(t.server) == Recorded(s.server) && Recorded(t.client) == Recorded(s.client)
            && !Alive(t)
  {
    hide Direction, Handshake, Next, Connecting, Alive;
    ReachableInv(setup, steps);
    RunAppend(Connecting(setup), steps, more);
    DeadSession(Run(Connecting(setup), steps), more);
  }
}
