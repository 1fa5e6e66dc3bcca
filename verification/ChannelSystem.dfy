/** A requester and a responder of one channel, joined by two FIFO queues, with the calls of both
    applications interleaved in any way with the delivery of frames and the loss of connections. */
module ChannelSystem {
  import opened Options
  import opened Bytes
  import opened Frames
  import opened Reassembler
  import opened Fragmenter
  import opened Sending
  import opened StreamSignals
  import opened ChannelStreams

  /** Whether an application has itself cancelled its inbound half, and ended its outbound half, when it
      was open. A requester's request can be its last element from the start. */
  datatype Own = Own(cancelled: bool, ended: bool)

  const NOTHING_YET := Own(false, false)

  /** What the applications have done so far: `offered` and `answered` are the payloads that the two ends
      have accepted, `demanded` and `wanted` the demand, `asker` and `answerer` what they have ended.
      `offeredWell` and `answeredWell` say whether the fragmenter can deliver all those payloads;
      `mutedIn` and `mutedOut` that a half of the responder has ended within its handler, when there is no
      receiver to tell, in a way that is not made up for. `extended` and `replied` are the extensions that
      the two ends have accepted: of those before the stream is ready, the last one. */
  datatype History = History(offered: seq<Item>, answered: seq<Item>, demanded: int, wanted: int,
                             offeredWell: bool, answeredWell: bool, asker: Own, answerer: Own,
                             mutedIn: bool, mutedOut: bool, extended: seq<Signal>, replied: seq<Signal>)

  /** `requesterUp` and `responderUp` tell whether the connection of an end is open. */
  datatype System = System(rq: Requester, rs: Responder, toResponder: seq<Frame>, toRequester: seq<Frame>,
                           requesterUp: bool, responderUp: bool, history: History)

  datatype Call =
    | Ready(id: nat)
    | Rejected
    | HandlerReturns
    | Asks(n: int)
    | Cancels
    | Sends(item: Item)
    | Completes
    | Errs
    | Extends(e: Signal)

  datatype Step =
    | RequesterCalls(call: Call)
    | ResponderCalls(call: Call)
    | ToResponder
    | ToRequester
    | RequesterLoses
    | ResponderLoses

  /** A frame as it arrives: its buffers have crossed the wire. */
  function Cross(f: Frame): Frame {
    if CarriesPayload(f) then f.(data := NonEmpty(f.data), metadata := NonEmpty(f.metadata)) else f
  }

  predicate Valid(s: System) {
    s.rq.Valid() && s.rs.Valid()
  }

  function Start(payload: Item, isComplete: bool, initialRequestN: int, fragmentSize: nat, peerFragmentSize: nat): System {
    System(NewRequester(payload, isComplete, fragmentSize, initialRequestN), NotYetBorn(peerFragmentSize),
           [], [], true, true,
           History([], [], initialRequestN, 0, true, true, Own(false, isComplete), NOTHING_YET, false, false, [], []))
  }

  // Calls

  /** A call of the requester's application, or of the connection. A new stream is ready, or rejected if
      the connection is closed; elements and errors need a stream that is ready. */
  function RequesterCalled(r: Requester, up: bool, call: Call): (e: Effect<Requester>)
    requires r.Valid()
    ensures e.state.Valid()
  {
    match call
    case Ready(id) =>
      if r.streamId > 0 || id == 0 then Effect(r, [])
      else if up then RequesterReady(r, id)
      else Effect(r.(core := RequesterRejected(r.core)), [])
    case Rejected => Effect(if r.streamId == 0 then r.(core := RequesterRejected(r.core)) else r, [])
    case Asks(n) => RequesterRequests(r, n)
    case Cancels => OfCore(r, RequesterCancels(r.streamId, r.core))
    case Sends(item) =>
      if r.streamId == 0 then Effect(r, [])
      else OfCore(r, ChannelStreams.Sends(r.streamId, r.fragmentSize, r.core, item))
    case Completes => RequesterCompletes(r)
    case Errs => if r.streamId == 0 then Effect(r, []) else OfCore(r, RequesterErrors(r.streamId, r.core))
    case Extends(e) => if e.Extension? then RequesterExtends(r, e) else Effect(r, [])
    case HandlerReturns => Effect(r, [])
  }

  function OfCore(r: Requester, e: Effect<Core>): Effect<Requester> {
    Effect(r.(core := e.state), e.frames)
  }

  /** The payload that a call hands to the requester, if it is accepted. */
  function RequesterAccepts(r: Requester, up: bool, call: Call): seq<Item> {
    match call
    case Ready(id) => if r.streamId == 0 && id > 0 && up && !r.core.outboundDone then [r.Request()] else []
    case Sends(item) => if r.streamId > 0 && !r.core.outboundDone then [item] else []
    case _ => []
  }

  predicate RequestIsDeliverable(r: Requester) {
    Deliverable(ChannelKind(r.initialRequestN), r.Request(), r.fragmentSize)
  }

  predicate AreDeliverable(items: seq<Item>, fragmentSize: nat) {
    items != [] ==> Deliverable(PayloadKind, items[0], fragmentSize)
  }

  /** A call of the responder's application, which holds the stream from the moment its handler is called. */
  function ResponderCalled(r: Responder, call: Call): (e: Effect<Responder>)
    requires r.Valid() && r.Live()
    ensures e.state.Valid()
  {
    var c, id := r.core, r.streamId;
    match call
    case HandlerReturns => Effect(if r.phase.InHandler? then ChannelStreams.HandlerReturns(r) else r, [])
    case Asks(n) => Effect(r, ResponderRequests(id, c, n))
    case Cancels => OfResponderCore(r, ResponderCancels(id, c))
    case Sends(item) => OfResponderCore(r, ChannelStreams.Sends(id, r.fragmentSize, c, item))
    case Completes => OfResponderCore(r, ChannelStreams.Completes(id, c))
    case Errs =>
      var e := ResponderErrors(id, r.phase, c);
      Effect(r.(phase := e.state.phase, core := e.state.core), e.frames)
    case Extends(e) => Effect(r, if e.Extension? then ResponderExtends(id, c, e) else [])
    case _ => Effect(r, [])
  }

  function OfResponderCore(r: Responder, e: Effect<Core>): Effect<Responder> {
    Effect(r.(core := e.state), e.frames)
  }

  function ResponderAccepts(r: Responder, call: Call): seq<Item> {
    if call.Sends? && !r.core.outboundDone then [call.item] else []
  }

  /** The demand that a call adds, unless the inbound half is done. */
  function AskedIn(c: Core, call: Call): int {
    if call.Asks? && !c.inboundDone then call.n else 0
  }

  /** The calls that end an outbound half. */
  predicate LastWord(call: Call) {
    call.Completes? || call.Errs? || (call.Sends? && call.item.complete)
  }

  /** Before the stream is ready, completing it makes the request its last element. */
  function RequesterOwn(r: Requester, call: Call, own: Own): Own {
    Own(own.cancelled || (call.Cancels? && !r.core.inboundDone),
        own.ended || if r.streamId == 0 then call.Completes? else LastWord(call) && !r.core.outboundDone)
  }

  function ResponderOwn(c: Core, call: Call, own: Own): Own {
    Own(own.cancelled || (call.Cancels? && !c.inboundDone), own.ended || (LastWord(call) && !c.outboundDone))
  }

  function RequesterExtended(r: Requester, call: Call, before: seq<Signal>): seq<Signal> {
    if !call.Extends? || !call.e.Extension? || r.core.outboundDone then before
    else if r.streamId == 0 then [call.e]
    else before + [call.e]
  }

  function ResponderExtended(c: Core, call: Call, before: seq<Signal>): seq<Signal> {
    if !call.Extends? || !call.e.Extension? || (c.inboundDone && c.outboundDone) then before else before + [call.e]
  }

  /** An error raised within the handler is kept for the receiver, and forgotten unless the constructor
      called the handler. */
  predicate ErrorIsForgotten(phase: Phase, c: Core, call: Call) {
    call.Errs? && phase.InHandler? && !phase.fromConstructor && !c.inboundDone && !c.outboundDone
  }

  // Frames and connections

  /** The connection of an end closes: the multiplexer closes the streams in its registry with an error
      and leaves them there, and no more frames are routed. */
  function RequesterLost(c: Core): Core {
    if c.registered then RequesterCloses(c, true) else c
  }

  function ResponderLost(phase: Phase, c: Core): Core {
    if c.registered then ResponderCloses(phase, c, true) else c
  }

  /** A frame for a registered requester; an exception closes the connection. */
  function RequesterTurns(id: nat, c: Core, f: Frame): Effect<Core> {
    var e := RequesterHandles(id, c, f);
    if e.state.thrown then Effect(RequesterLost(e.state), e.frames) else e
  }

  function ResponderTurns(id: nat, phase: Phase, c: Core, f: Frame): Effect<Receiving>
    requires phase.Assembling? || phase.Running?
  {
    var e := ResponderHandles(id, phase, c, f);
    if e.state.core.thrown then Effect(e.state.(core := ResponderLost(e.state.phase, e.state.core)), e.frames) else e
  }

  /** The registry routes a frame to the requester, or nowhere. */
  function RequesterGets(r: Requester, f: Frame): Effect<Requester> {
    if r.core.registered then OfCore(r, RequesterTurns(r.streamId, r.core, f)) else Effect(r, [])
  }

  /** A request for an unregistered id makes a new responder; any other frame goes to the stream registered
      under its id, or nowhere. */
  function ResponderGets(r: Responder, f: Frame): Effect<Responder>
    requires !r.phase.InHandler?
  {
    if f.RequestChannel? then
      Effect(if r.core.registered || f.streamId <= 0 then r else ResponderBorn(r.fragmentSize, f), [])
    else if !r.core.registered || r.phase.Unborn? then Effect(r, [])
    else
      var e := ResponderTurns(r.streamId, r.phase, r.core, f);
      Effect(r.(phase := e.state.phase, core := e.state.core), e.frames)
  }

  // Steps

  /** A step; one that is not possible changes nothing. */
  function Next(s: System, step: Step): (s': System)
    requires Valid(s)
    ensures Valid(s')
  {
    match step
    case RequesterCalls(call) => AfterRequesterCall(s, call)
    case ResponderCalls(call) => if s.rs.Live() then AfterResponderCall(s, call) else s
    case ToResponder => if CanTakeResponder(s) then AfterToResponder(s) else s
    case ToRequester => if s.requesterUp && s.toRequester != [] then AfterToRequester(s) else s
    case RequesterLoses => if s.requesterUp then AfterRequesterLoses(s) else s
    case ResponderLoses => if s.responderUp then AfterResponderLoses(s) else s
  }

  function AfterRequesterCall(s: System, call: Call): (s': System)
    requires Valid(s)
    ensures Valid(s')
  {
    var e, items := RequesterCalled(s.rq, s.requesterUp, call), RequesterAccepts(s.rq, s.requesterUp, call);
    s.(rq := e.state, toResponder := s.toResponder + e.frames,
       history := s.history.(offered := s.history.offered + items,
                             demanded := s.history.demanded + AskedIn(s.rq.core, call),
                             offeredWell := s.history.offeredWell
                               && if call.Ready? then items != [] ==> RequestIsDeliverable(s.rq)
                                  else AreDeliverable(items, s.rq.fragmentSize),
                             asker := RequesterOwn(s.rq, call, s.history.asker),
                             extended := RequesterExtended(s.rq, call, s.history.extended)))
  }

  function AfterResponderCall(s: System, call: Call): (s': System)
    requires Valid(s) && s.rs.Live()
    ensures Valid(s')
  {
    var e, items := ResponderCalled(s.rs, call), ResponderAccepts(s.rs, call);
    s.(rs := e.state, toRequester := s.toRequester + e.frames,
       history := s.history.(answered := s.history.answered + items,
                             wanted := s.history.wanted + AskedIn(s.rs.core, call),
                             answeredWell := s.history.answeredWell && AreDeliverable(items, s.rs.fragmentSize),
                             answerer := ResponderOwn(s.rs.core, call, s.history.answerer),
                             mutedIn := s.history.mutedIn || ErrorIsForgotten(s.rs.phase, s.rs.core, call),
                             replied := ResponderExtended(s.rs.core, call, s.history.replied)))
  }

  predicate CanTakeResponder(s: System) {
    s.responderUp && s.toResponder != [] && !s.rs.phase.InHandler?
  }

  function AfterToResponder(s: System): (s': System)
    requires Valid(s) && CanTakeResponder(s)
    ensures Valid(s')
  {
    var e := ResponderGets(s.rs, Cross(s.toResponder[0]));
    s.(rs := e.state, toResponder := s.toResponder[1..], toRequester := s.toRequester + e.frames,
       responderUp := !e.state.core.thrown)
  }

  function AfterToRequester(s: System): (s': System)
    requires Valid(s) && s.requesterUp && s.toRequester != []
    ensures Valid(s')
  {
    var e := RequesterGets(s.rq, Cross(s.toRequester[0]));
    s.(rq := e.state, toRequester := s.toRequester[1..], toResponder := s.toResponder + e.frames,
       requesterUp := !e.state.core.thrown)
  }

  function AfterRequesterLoses(s: System): (s': System)
    requires Valid(s)
    ensures Valid(s')
  {
    s.(requesterUp := false, rq := s.rq.(core := RequesterLost(s.rq.core)))
  }

  function AfterResponderLoses(s: System): (s': System)
    requires Valid(s)
    ensures Valid(s')
  {
    var c, inside := s.rs.core, s.rs.phase.InHandler? && s.rs.core.registered;
    s.(responderUp := false, rs := s.rs.(core := ResponderLost(s.rs.phase, c)),
       history := s.history.(mutedIn := s.history.mutedIn || (inside && !c.inboundDone),
                             mutedOut := s.history.mutedOut || (inside && !c.outboundDone)))
  }

  function Run(s: System, steps: seq<Step>): (s': System)
    requires Valid(s)
    ensures Valid(s')
    decreases |steps|
  {
    if steps == [] then s else Run(Next(s, steps[0]), steps[1..])
  }
}
