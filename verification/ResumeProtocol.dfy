/** Two resumable multiplexers, the two directions of their current connection, and everything that can
    happen to them. */
module ResumeProtocol {
  import opened Options
  import opened Bytes
  import opened Frames
  import opened Codec
  import opened FrameStores
  import opened ResumableMultiplexers

  /** The frames of streams that the codec can write. */
  predicate StreamFrame(f: Frame) {
    Serializable(f) && f.StreamId() != 0
  }

  predicate StreamFrames(fs: seq<Frame>) {
    forall i | 0 <= i < |fs| :: StreamFrame(fs[i])
  }

  /** A frame as the receiving multiplexer gets it: stream frames have been serialized and decoded. */
  function Seen(f: Frame): (r: Frame)
    requires Countable(f)
    ensures Countable(r)
  {
    if StreamFrame(f) then Received(f) else f
  }

  function AllSeen(fs: seq<Frame>): (r: seq<Frame>)
    requires AllCountable(fs)
    ensures |r| == |fs|
  {
    if fs == [] then [] else [Seen(fs[0])] + AllSeen(fs[1..])
  }

  /** Where the client stands: connected, having sent RESUME on a new connection, or disconnected. */
  datatype Link = Up | Awaiting | Down

  /** What has been said on the current connection: the connection frames that the two ends were asked to
      send on it, and how many each had handled before it. `clientEnded` and `serverEnded`: that end was ever
      asked to send an ERROR; `orphaned`: the first connection was lost before the server had the SETUP. */
  datatype Talk = Talk(clientAsked: seq<Frame>, serverAsked: seq<Frame>, serverHeard: nat, clientHeard: nat,
                       clientEnded: bool, serverEnded: bool, orphaned: bool)

  /** The queues hold what is in flight on the current connection. `clientSent` and `serverSent` are all
      stream frames ever sent; `born` says that the server has its end of the session, `refused` that an
      endpoint has rejected a connection. */
  datatype System = System(client: Peer, server: Peer, link: Link, serverUp: bool, born: bool,
                           toServer: seq<Frame>, toClient: seq<Frame>,
                           clientSent: seq<Frame>, serverSent: seq<Frame>, refused: bool, talk: Talk)
  {
    predicate Valid() {
      && client.store.Valid() && server.store.Valid()
      && AllCountable(toServer) && AllCountable(toClient)
      && AllCountable(clientSent) && AllCountable(serverSent)
    }
  }

  /** The client has sent its SETUP on the first connection. */
  function Connecting(setup: Frame): (s: System)
    requires setup.Setup?
    ensures s.Valid()
  {
    var (p, out) := Send(NewPeer(false), setup);
    System(p, NewPeer(false), Up, false, false, out, [], [], [], false, Talk([setup], [], 0, 0, false, false, false))
  }

  datatype Step =
    | ClientSends(f: Frame)
    | ServerSends(f: Frame)
    | ClientSays(f: Frame)
    | ServerSays(f: Frame)
    | DeliverToServer
    | DeliverToClient
    | Disconnect
    | Reconnect

  /** The frames about the connection, but for the handshake of a resumption. */
  predicate ConnectionFrame(f: Frame) {
    f.StreamId() == 0 && (f.KeepAlive? || f.Lease? || f.Error? || f.MetadataPush? || f.Setup?)
  }

  /** One step; a step that is not possible changes nothing. What is sent while the sender's outbound is
      the old, closed connection is lost. */
  function Next(s: System, step: Step): (s': System)
    requires s.Valid()
    ensures s'.Valid()
  {
    match step
    case ClientSends(f) => if StreamFrame(f) then ClientSend(s, f).(clientSent := s.clientSent + [f]) else s
    case ServerSends(f) => if s.born && StreamFrame(f) then ServerSend(s, f).(serverSent := s.serverSent + [f]) else s
    case ClientSays(f) => if ConnectionFrame(f) then ClientSay(s, f) else s
    case ServerSays(f) => if s.born && ConnectionFrame(f) then ServerSay(s, f) else s
    case DeliverToServer => if s.toServer == [] then s else ServerReceives(s, s.toServer[0], s.toServer[1..])
    case DeliverToClient => if s.toClient == [] then s else ClientReceives(s, s.toClient[0], s.toClient[1..])
    case Disconnect => Disconnected(s)
    case Reconnect => if s.link == Down then s.(link := Awaiting, toServer := [ResumeFrame(s.client)]) else s
  }

  function Disconnected(s: System): System {
    s.(link := Down, serverUp := false, toServer := [], toClient := [],
       talk := Talk([], [], |ConnectionPart(s.server.handled)|, |ConnectionPart(s.client.handled)|,
                    s.talk.clientEnded, s.talk.serverEnded, s.talk.orphaned || !s.born))
  }

  function ClientSend(s: System, f: Frame): (s': System)
    requires s.Valid() && Countable(f)
    ensures s'.Valid()
  {
    var (p, out) := Send(s.client, f);
    s.(client := p, toServer := if s.link == Up then s.toServer + out else s.toServer)
  }

  function ServerSend(s: System, f: Frame): (s': System)
    requires s.Valid() && Countable(f)
    ensures s'.Valid()
  {
    var (p, out) := Send(s.server, f);
    s.(server := p, toClient := if s.serverUp then s.toClient + out else s.toClient)
  }

  function ClientSay(s: System, f: Frame): (s': System)
    requires s.Valid() && ConnectionFrame(f)
    ensures s'.Valid()
  {
    ClientSend(s, f).(talk := s.talk.(clientAsked := if s.link == Up then s.talk.clientAsked + [Plain(f)] else s.talk.clientAsked,
                                      clientEnded := s.talk.clientEnded || f.Error?))
  }

  function ServerSay(s: System, f: Frame): (s': System)
    requires s.Valid() && ConnectionFrame(f)
    ensures s'.Valid()
  {
    ServerSend(s, f).(talk := s.talk.(serverAsked := if s.serverUp then s.talk.serverAsked + [Plain(f)] else s.talk.serverAsked,
                                      serverEnded := s.talk.serverEnded || f.Error?))
  }

  /** The server. The first frame of a connection is SETUP, which makes its end of the session and goes to
      the acceptor, or RESUME, which continues the session on the new connection if the session store has
      it; anything else is refused. */
  function ServerReceives(s: System, f: Frame, rest: seq<Frame>): (s': System)
    requires s.Valid() && Countable(f) && AllCountable(rest)
    ensures s'.Valid()
  {
    if s.serverUp then
      var (p, out) := Handle(s.server, Seen(f));
      s.(server := p, toServer := rest, toClient := s.toClient + out)
    else if f.Setup? then
      s.(server := NewPeer(true).(handled := [f]), born := true, serverUp := true, toServer := rest)
    else if f.Resume? && s.server.resumable then
      var (p, out) := ResumeSession(s.server, f);
      s.(server := p, serverUp := true, toServer := rest, toClient := out)
    else
      var refusal := ConnectionFailed(if f.Resume? then REJECTED_RESUME else UNSUPPORTED_SETUP);
      s.(toServer := rest, toClient := [refusal], refused := true)
  }

  /** The client: while it awaits RESUME_OK, any other frame ends the session. */
  function ClientReceives(s: System, f: Frame, rest: seq<Frame>): (s': System)
    requires s.Valid() && Countable(f) && AllCountable(rest)
    ensures s'.Valid()
  {
    if s.link != Awaiting then
      var (p, out) := Handle(s.client, Seen(f));
      s.(client := p, toClient := rest, toServer := s.toServer + out)
    else if f.ResumeOk? then
      var (p, out) := ResumeSession(s.client, f);
      s.(client := p, link := Up, toClient := rest, toServer := s.toServer + out)
    else
      s.(client := s.client.(closed := true), toClient := rest, refused := true)
  }

  function Run(s: System, steps: seq<Step>): (s': System)
    requires s.Valid()
    ensures s'.Valid()
    decreases |steps|
  {
    if steps == [] then s else Run(Next(s, steps[0]), steps[1..])
  }

  // The invariant

  /** The stream frames of a list. */
  function StreamPart(fs: seq<Frame>): (r: seq<Frame>) {
    if fs == [] then []
    else if fs[0].StreamId() != 0 then [fs[0]] + StreamPart(fs[1..])
    else StreamPart(fs[1..])
  }

  /** A connection frame without the position that KEEPALIVE is given when it is sent. */
  function Plain(f: Frame): Frame {
    if f.KeepAlive? then f.(lastReceivedPosition := 0) else f
  }

  /** The connection frames of a list. */
  function ConnectionPart(fs: seq<Frame>): (r: seq<Frame>) {
    if fs == [] then []
    else if fs[0].StreamId() == 0 then [Plain(fs[0])] + ConnectionPart(fs[1..])
    else ConnectionPart(fs[1..])
  }

  ghost predicate Boundary(log: seq<Frame>, position: nat)
    requires AllCountable(log)
  {
    exists k: nat | k <= |log| :: position == Total(log[..k])
  }

  /** The position that a frame acknowledges to its receiver. */
  function Acknowledged(f: Frame): Option<nat> {
    match f
    case KeepAlive(_, position, _) => Some(position)
    case Resume(_, _, _, _, serverPosition, _) => Some(serverPosition)
    case ResumeOk(_, clientPosition) => Some(clientPosition)
    case _ => None
  }

  /** The acknowledgements in flight are frame boundaries of the log, between `low` and `high` and never
      decreasing along the queue. */
  ghost predicate AcksInOrder(queue: seq<Frame>, log: seq<Frame>, low: nat, high: nat)
    requires AllCountable(log)
  {
    if queue == [] then true
    else match Acknowledged(queue[0])
      case None => AcksInOrder(queue[1..], log, low, high)
      case Some(a) => low <= a <= high && Boundary(log, a) && AcksInOrder(queue[1..], log, a, high)
  }

  /** The stream frames that a peer has recorded. */
  function Recorded(p: Peer): seq<Frame> {
    StreamPart(p.handled)
  }

  /** How many frames of the log the store has dropped. */
  function Dropped(s: Store, log: seq<Frame>): int {
    |log| - |s.frames|
  }

  /** One direction of the session: `log` is what the sender has sent since the start, `flying` what is in
      flight to the receiver, and `acks` what is in flight to the sender. */
  ghost predicate Direction(sender: Store, receiver: Peer, log: seq<Frame>, flying: seq<Frame>, sending: bool,
                            acks: seq<Frame>) {
    && StreamFrames(log) && AllCountable(log)
    && var got, dropped := |Recorded(receiver)|, Dropped(sender, log);
       && 0 <= dropped <= got <= |log|
       && WindowOf(sender, log, dropped)
       && receiver.store.lastReceived == Total(log[..got])
       && Recorded(receiver) == AllSeen(log[..got])
       && StreamPart(flying) == (if sending then log[got..] else [])
       && AcksInOrder(acks, log, sender.firstAvailable, receiver.store.lastReceived)
  }

  ghost predicate Ordinary(queue: seq<Frame>) {
    forall i | 0 <= i < |queue| :: StreamFrame(queue[i]) || ConnectionFrame(queue[i])
  }

  /** Where the handshake stands. */
  ghost predicate Handshake(s: System) {
    && (s.serverUp ==> s.born) && (!s.born ==> s.server == NewPeer(false) && s.serverSent == [])
    && match s.link
       case Down => !s.serverUp && s.toServer == [] && s.toClient == []
       case Awaiting => if s.serverUp then Accepted(s) else Asking(s) || Refused(s)
       case Up => Ordinary(s.toServer) && Ordinary(s.toClient) && (s.serverUp || Opening(s))
  }

  ghost predicate Opening(s: System) {
    !s.born && s.toClient == [] && s.toServer != [] && s.toServer[0].Setup?
  }

  /** RESUME is in flight. */
  ghost predicate Asking(s: System) {
    && s.toClient == [] && |s.toServer| == 1 && s.toServer[0].Resume?
    && s.toServer[0].serverPosition == s.client.store.lastReceived
    && s.toServer[0].clientPosition <= s.server.store.lastReceived
  }

  /** RESUME has been answered with an ERROR. */
  ghost predicate Refused(s: System) {
    s.toServer == [] && |s.toClient| <= 1 && (s.toClient != [] ==> s.toClient[0].Error? && s.toClient[0].streamId == 0)
  }

  /** RESUME_OK is in flight, and then what the server sends. */
  ghost predicate Accepted(s: System) {
    && s.toServer == [] && s.toClient != [] && s.toClient[0].ResumeOk?
    && s.toClient[0].clientPosition == s.server.store.lastReceived
    && Ordinary(s.toClient[1..])
  }

  ghost predicate Inv(s: System) {
    && s.Valid()
    && Direction(s.client.store, s.server, s.clientSent, s.toServer, s.link == Up, s.toClient)
    && Direction(s.server.store, s.client, s.serverSent, s.toClient, s.serverUp, s.toServer)
    && Handshake(s)
  }
}
