/** A requester and a responder of one request-stream or request-response, joined by two FIFO queues, with
    the calls of both applications interleaved in any way with deliveries and the loss of connections. */
module RequestPair {
  import opened Options
  import opened Bytes
  import opened Frames
  import opened Reassembler
  import opened Fragmenter
  import opened Sending
  import opened StreamSignals
  import opened ChannelStreams
  import opened ChannelQueues
  import opened RequestStreams
  import ChannelSystem
  import opened ChannelInvariant

  /** `answered` are the payloads that the responder has accepted, `demanded` is the demand that the
      requester has accepted; the next two say whether the fragmenter can deliver the payloads. `withdrawn`:
      the requester's application has cancelled a stream that was not done; `concluded`: the responder's
      has said the last word on one, on an open connection. `extended` and `replied` are the extensions that the
      two ends have accepted: of those before the stream is ready, the last one. */
  datatype Record = Record(answered: seq<Item>, demanded: int, requestedWell: bool, answeredWell: bool,
                           withdrawn: bool, concluded: bool, extended: seq<Signal>, replied: seq<Signal>)

  datatype Pair = Pair(rq: OneRequester, rs: OneResponder, toResponder: seq<Frame>, toRequester: seq<Frame>,
                       requesterUp: bool, responderUp: bool, record: Record)

  predicate Valid(s: Pair) {
    s.rq.Valid() && ValidFragmentSize(s.rs.fragmentSize)
  }

  function Outset(single: bool, payload: Item, n: int, size: nat, peerSize: nat): Pair {
    Pair(NewOneRequester(single, payload, size, n), OneResponder(single, 0, peerSize, 0, Serving(Awaited, NEW_HALF)),
         [], [], true, true, Record([], if single then 0 else n, true, true, false, false, [], []))
  }

  // Calls

  function OneRequesterCalled(r: OneRequester, up: bool, call: ChannelSystem.Call): (e: Effect<OneRequester>)
    requires r.Valid()
    ensures e.state.Valid()
  {
    match call
    case Ready(id) =>
      if r.streamId > 0 || id == 0 then Effect(r, [])
      else if up then OneReady(r, id)
      else Effect(r.(half := OneRejected(r.half)), [])
    case Rejected => Effect(if r.streamId == 0 then r.(half := OneRejected(r.half)) else r, [])
    case Asks(n) => if r.single then Effect(r, []) else OneRequests(r, n)
    case Cancels => var e := OneCancels(r.streamId, r.half); Effect(r.(half := e.state), e.frames)
    case Extends(e) => if e.Extension? then OneExtends(r, e) else Effect(r, [])
    case _ => Effect(r, [])
  }

  function DemandAdded(r: OneRequester, call: ChannelSystem.Call): int {
    if call.Asks? && !r.single && !r.half.done then call.n else 0
  }

  function OneResponderCalled(r: OneResponder, call: ChannelSystem.Call): Effect<Half>
    requires ValidFragmentSize(r.fragmentSize)
  {
    var g, id := r.serving.half, r.streamId;
    match call
    case Sends(item) => OneSends(r.single, id, r.fragmentSize, g, item)
    case Completes => OneCompletes(id, g)
    case Errs => OneErrors(id, g)
    case Extends(e) => Effect(g, if e.Extension? then OneResponderExtends(id, g, e) else [])
    case _ => Effect(g, [])
  }

  /** The payload that a call hands to the responder; a single one's first payload is its last. */
  function OneAccepts(r: OneResponder, call: ChannelSystem.Call): seq<Item> {
    if call.Sends? && !r.serving.half.done then [call.item.(complete := r.single || call.item.complete)] else []
  }

  /** The calls that finish a stream; a single responder's first payload does. */
  predicate OneLastWord(r: OneResponder, call: ChannelSystem.Call) {
    call.Completes? || call.Errs? || (call.Sends? && (r.single || call.item.complete))
  }

  function OneExtended(r: OneRequester, call: ChannelSystem.Call, before: seq<Signal>): seq<Signal> {
    if !call.Extends? || !call.e.Extension? || r.half.done then before
    else if r.streamId == 0 then [call.e]
    else before + [call.e]
  }

  function OneReplied(g: Half, call: ChannelSystem.Call, before: seq<Signal>): seq<Signal> {
    if !call.Extends? || !call.e.Extension? || g.done then before else before + [call.e]
  }

  // Frames and connections

  function OneRequesterLost(h: Half): Half {
    if h.registered then OneCloses(h, true) else h
  }

  function OneResponderLost(stage: Stage, g: Half): Half {
    if g.registered then OneResponderCloses(stage, g) else g
  }

  /** A frame for a registered end; an exception closes the connection. */
  function OneRequesterTurns(single: bool, id: nat, h: Half, f: Frame): Effect<Half> {
    var e := OneHandles(single, id, h, f);
    if e.state.thrown then Effect(OneRequesterLost(e.state), e.frames) else e
  }

  function OneResponderTurns(single: bool, id: nat, n: int, stage: Stage, g: Half, f: Frame): Effect<Serving>
    requires !stage.Awaited?
  {
    var e := ResponderTurns(single, id, n, stage, g, f);
    if e.state.half.thrown then Effect(e.state.(half := OneResponderLost(e.state.stage, e.state.half)), e.frames) else e
  }

  function OneRequesterGets(r: OneRequester, f: Frame): Effect<OneRequester> {
    if !r.half.registered then Effect(r, [])
    else
      var e := OneRequesterTurns(r.single, r.streamId, r.half, f);
      Effect(r.(half := e.state), e.frames)
  }

  function OneResponderGets(r: OneResponder, f: Frame): Effect<OneResponder> {
    var stage, g := r.serving.stage, r.serving.half;
    if f.RequestStream? || f.RequestResponse? then
      Effect(if g.registered || f.streamId <= 0 then r else OneBorn(f.RequestResponse?, r.fragmentSize, f), [])
    else if !g.registered || stage.Awaited? then Effect(r, [])
    else
      var e := OneResponderTurns(r.single, r.streamId, r.initialRequestN, stage, g, f);
      Effect(r.(serving := e.state), e.frames)
  }

  // Steps

  /** A step; one that is not possible changes nothing. */
  function Goes(s: Pair, step: ChannelSystem.Step): (s': Pair)
    requires Valid(s)
    ensures Valid(s')
  {
    match step
    case RequesterCalls(call) => AfterRequesterCall(s, call)
    case ResponderCalls(call) => if s.rs.serving.stage.Served? then AfterResponderCall(s, call) else s
    case ToResponder => if s.responderUp && s.toResponder != [] then AfterToResponder(s) else s
    case ToRequester => if s.requesterUp && s.toRequester != [] then AfterToRequester(s) else s
    case RequesterLoses => if s.requesterUp then AfterRequesterLoses(s) else s
    case ResponderLoses => if s.responderUp then AfterResponderLoses(s) else s
  }

  function AfterRequesterCall(s: Pair, call: ChannelSystem.Call): (s': Pair)
    requires Valid(s)
    ensures Valid(s')
  {
    var e := OneRequesterCalled(s.rq, s.requesterUp, call);
    s.(rq := e.state, toResponder := s.toResponder + e.frames,
       record := s.record.(demanded := s.record.demanded + DemandAdded(s.rq, call),
                           requestedWell := s.record.requestedWell && (e.state.streamId > s.rq.streamId ==>
                             Deliverable(s.rq.RequestKind(), s.rq.request, s.rq.fragmentSize)),
                           withdrawn := s.record.withdrawn || (call.Cancels? && !s.rq.half.done),
                           extended := OneExtended(s.rq, call, s.record.extended)))
  }

  /** What a responder sends without a connection goes nowhere. */
  function AfterResponderCall(s: Pair, call: ChannelSystem.Call): (s': Pair)
    requires Valid(s)
    ensures Valid(s')
  {
    var e, items := OneResponderCalled(s.rs, call), OneAccepts(s.rs, call);
    var s' := s.(rs := s.rs.(serving := s.rs.serving.(half := e.state)));
    if !s.responderUp then s'
    else s'.(toRequester := s.toRequester + e.frames,
             record := s.record.(answered := s.record.answered + items,
                                 answeredWell := s.record.answeredWell
                                   && ChannelSystem.AreDeliverable(items, s.rs.fragmentSize),
                                 concluded := s.record.concluded || (OneLastWord(s.rs, call) && !s.rs.serving.half.done),
                                 replied := OneReplied(s.rs.serving.half, call, s.record.replied)))
  }

  function AfterToResponder(s: Pair): (s': Pair)
    requires Valid(s) && s.toResponder != []
    ensures Valid(s')
  {
    var e := OneResponderGets(s.rs, ChannelSystem.Cross(s.toResponder[0]));
    s.(rs := e.state, toResponder := s.toResponder[1..], toRequester := s.toRequester + e.frames,
       responderUp := !e.state.serving.half.thrown)
  }

  function AfterToRequester(s: Pair): (s': Pair)
    requires Valid(s) && s.toRequester != []
    ensures Valid(s')
  {
    var e := OneRequesterGets(s.rq, ChannelSystem.Cross(s.toRequester[0]));
    s.(rq := e.state, toRequester := s.toRequester[1..], toResponder := s.toResponder + e.frames,
       requesterUp := !e.state.half.thrown)
  }

  function AfterRequesterLoses(s: Pair): (s': Pair)
    requires Valid(s)
    ensures Valid(s')
  {
    s.(requesterUp := false, rq := s.rq.(half := OneRequesterLost(s.rq.half)))
  }

  function AfterResponderLoses(s: Pair): (s': Pair)
    requires Valid(s)
    ensures Valid(s')
  {
    var serving := s.rs.serving;
    s.(responderUp := false, rs := s.rs.(serving := serving.(half := OneResponderLost(serving.stage, serving.half))))
  }

  function Play(s: Pair, steps: seq<ChannelSystem.Step>): (s': Pair)
    requires Valid(s)
    ensures Valid(s')
    decreases |steps|
  {
    if steps == [] then s else Play(Goes(s, steps[0]), steps[1..])
  }

  // The frames that the two ends send

  /** What a requester sends. */
  predicate IsAsk(single: bool, f: Frame) {
    match f
    case Payload(_, _, _, _) => true
    case RequestStream(_, _, _, _, _) => !single
    case RequestResponse(_, _, _, _) => single
    case RequestN(_, _, _) => !single
    case Cancel(_, _) => true
    case Ext(_, _, _, _) => true
    case _ => false
  }

  /** What a responder sends; a single one sends no payload that is neither followed nor complete. */
  predicate IsAnswer(single: bool, f: Frame) {
    match f
    case Payload(_, flags, _, _) => single ==> HasFollows(flags) || HasComplete(flags)
    case Error(_, _, _, _) => true
    case Ext(_, _, _, _) => true
    case _ => false
  }

  ghost predicate AllAsk(single: bool, q: seq<Frame>) {
    forall i | 0 <= i < |q| :: IsAsk(single, q[i])
  }

  ghost predicate AllAnswer(single: bool, q: seq<Frame>) {
    forall i | 0 <= i < |q| :: IsAnswer(single, q[i])
  }

  /** A payload without FOLLOWS is the last one. */
  ghost predicate Lone(q: seq<Frame>) {
    q != [] ==> (CarriesPayload(q[0]) && !HasFollows(q[0].flags) ==> !Sum(q[1..]).pays) && Lone(q[1..])
  }

  // The invariant. An end with one flag is a channel's end whose halves are done together.

  function AsCore(h: Half): (c: Core)
    ensures c.Heard() == h.Heard()
  {
    Core(h.done, h.done, h.registered, h.holder, h.signals, h.thrown)
  }

  /** What the responder's application has been told, or will be. */
  function ToldIn(stage: Stage, g: Half, initialRequestN: int): int {
    g.Heard().demand + if stage.Gathering? then initialRequestN else 0
  }

  function ToldOf(rs: OneResponder): int {
    ToldIn(rs.serving.stage, rs.serving.half, rs.initialRequestN)
  }

  /** While its connection is open an end is registered exactly as long as it is not done. */
  ghost predicate Stands(h: Half) {
    (h.registered <==> !h.done) && !h.thrown
  }

  ghost predicate AskerFine(h: Half, up: bool) {
    && h.Heard().wellFormed && !h.Heard().cancelled && (h.Heard().terminated ==> h.done)
    && if up then Stands(h) else h.done
  }

  ghost predicate AnswererFine(stage: Stage, g: Half, up: bool, q1: Summary) {
    && g.Heard().wellFormed && !g.Heard().terminated && !g.Heard().completed && (g.Heard().cancelled ==> g.done || !up)
    && match stage
       case Awaited => g == NEW_HALF
       case Gathering => (up ==> Stands(g)) && !q1.requests && g.signals == [] && (up && !g.done ==> g.holder.hasFragments)
       case Served => (up ==> Stands(g)) && !q1.requests && !q1.pays && !g.holder.hasFragments && |g.Heard().elements| == 1
  }

  /** A request comes first, and there is no other one. */
  ghost predicate BeginsWith(q: seq<Frame>, single: bool, id: nat) {
    q != [] && IsOneRequest(single, q[0]) && q[0].StreamId() == id && id > 0 && !Sum(q[1..]).requests
  }

  /** An end is done only when the other one is, or the frame that says so is in flight. */
  ghost predicate Agreed(h: Half, g: Half, q1: Summary, q2: Summary) {
    (h.done && !g.done ==> q1.aborts) && (q1.aborts ==> h.done) && (g.done && !h.done ==> q2.ends)
  }

  ghost predicate Coupled(h: Half, hUp: bool, stage: Stage, g: Half, gUp: bool, told: int, q1: Summary, q2: Summary,
                          demanded: int) {
    && AskerFine(h, hUp) && AnswererFine(stage, g, gUp, q1)
    && !q1.ends && !q1.irregular && q1.orderly && !q2.irregular && q2.orderly && (!g.done ==> !q2.ends)
    && (hUp && gUp ==> Agreed(h, g, q1, q2) && (stage.Awaited? || g.registered ==> told + q1.asked == demanded))
  }

  ghost predicate InTouch(s: Pair) {
    var stage, single := s.rs.serving.stage, s.rq.single;
    && Coupled(s.rq.half, s.requesterUp, stage, s.rs.serving.half, s.responderUp, ToldOf(s.rs),
               Sum(s.toResponder), Sum(s.toRequester), s.record.demanded)
    && AllAsk(single, s.toResponder) && AllAnswer(single, s.toRequester) && Lone(s.toResponder)
    && if stage.Awaited? then BeginsWith(s.toResponder, single, s.rq.streamId) else s.rs.single == single
  }

  ghost predicate Idle(s: Pair) {
    && s.toResponder == [] && s.toRequester == [] && s.rs.serving == Serving(Awaited, NEW_HALF)
    && s.record.answered == [] && s.record.demanded == s.rq.initialRequestN
    && IdleHalf(s.rq.half)
  }

  ghost predicate IdleHalf(h: Half) {
    && !h.registered && h.holder == EMPTY && !h.thrown
    && h.Heard().wellFormed && !h.Heard().cancelled && (h.Heard().terminated ==> h.done)
    && h.Heard().elements == [] && !h.Heard().completed
  }

  ghost predicate PairInv(s: Pair) {
    Valid(s) && if s.rq.streamId == 0 then Idle(s) else InTouch(s)
  }

  /** If the fragmenter can deliver them, the request and the answers flow. */
  ghost predicate Asking(s: Pair) {
    s.record.requestedWell ==>
      Flow(s.responderUp && (s.rs.serving.stage.Awaited? || s.rs.serving.half.registered), AsCore(s.rs.serving.half),
           s.toResponder, [s.rq.request], true)
  }

  ghost predicate Answering(s: Pair) {
    s.record.answeredWell ==>
      Flow(s.requesterUp && s.rq.half.registered, AsCore(s.rq.half), s.toRequester, s.record.answered, s.rs.serving.half.done)
  }

  ghost predicate Streaming(s: Pair) {
    s.rq.streamId > 0 ==> Asking(s) && Answering(s)
  }
}
