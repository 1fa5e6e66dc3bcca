/** The two ends of a REQUEST_CHANNEL stream: what every call and every frame makes of an end, and the
    frames it sends. The classes of `RequestChannelStream.dfy` are proved against these functions. */
module ChannelStreams {
  import opened Options
  import opened Bytes
  import opened Frames
  import opened Reassembler
  import opened Fragmenter
  import opened Sending
  import opened StreamSignals

  const CANCELED_CODE := 0x203
  const APPLICATION_ERROR := 0x201

  function CancelFrame(id: int): Frame { Cancel(id, NO_FLAGS) }
  function ErrorFrame(id: int, code: int): Frame { Error(id, NO_FLAGS, code, None) }
  function CompleteFrame(id: int): Frame { Payload(id, PayloadFlags(false, true, false, false), None, None) }
  function RequestNFrame(id: int, n: int): Frame { RequestN(id, NO_FLAGS, n) }
  function ExtFrame(id: int, e: Signal): Frame
    requires e.Extension?
  {
    Ext(id, NO_FLAGS.(ignore := e.canBeIgnored), e.extendedType, e.content)
  }

  function ExtensionOf(f: Frame): Signal
    requires f.Ext?
  {
    Extension(f.extendedType, f.extendedContent, HasIgnore(f.flags))
  }

  /** The payload a frame completes: of all fragments, or of the frame alone; `None` is an exception. */
  function Assembled(h: Holder, f: Frame): Option<AppPayload>
    requires CarriesPayload(f)
  {
    if h.hasFragments then Reassemble(h, f.data, f.metadata) else Some(AppPayload(f.data, f.metadata))
  }

  /** What both ends of a channel are: two halves, the fragments received, and the calls made on the
      application. `registered` says whether the registry routes frames to this end, `thrown` that a
      call ended with an exception. */
  datatype Core = Core(inboundDone: bool, outboundDone: bool, registered: bool, holder: Holder,
                       signals: seq<Signal>, thrown: bool)
  {
    function Signalled(s: Signal): Core {
      this.(signals := signals + [s])
    }

    function Heard(): Heard {
      HeardFrom(signals)
    }

    /** `receiver.cancel()`, unless the outbound half was done before. */
    function CancelledUnless(done: bool): Core {
      if done then this else Signalled(Cancelled)
    }

    function SignalledUnless(done: bool, s: Signal): Core {
      if done then this else Signalled(s)
    }

    function Done(): Core {
      this.(inboundDone := true, outboundDone := true)
    }

    function InboundEnds(): Core {
      this.(inboundDone := true, registered := registered && !outboundDone)
    }

    function OutboundEnds(): Core {
      this.(outboundDone := true, registered := registered && !inboundDone)
    }

    /** Another fragment. */
    function WithFragment(data: Option<bytes>, metadata: Option<bytes>): Core {
      var h := Add(holder, data, metadata);
      if h.Some? then this.(holder := h.value) else this.(thrown := true)
    }

    /** A payload has been taken out. */
    function Emptied(): Core {
      if holder.hasFragments then this.(holder := EMPTY) else this
    }
  }

  const FRESH := Core(false, false, false, EMPTY, [], false)

  datatype Effect<S> = Effect(state: S, frames: seq<Frame>)

  // The requester. `streamId` is 0 until the stream is ready.

  datatype Requester = Requester(payload: Item, isComplete: bool, fragmentSize: nat, initialRequestN: int,
                                 streamId: nat, extension: Option<Signal>, core: Core)
  {
    predicate Valid() {
      && ValidFragmentSize(fragmentSize)
      && (extension.Some? ==> extension.value.Extension?)
    }

    function Request(): Item {
      payload.(complete := isComplete)
    }
  }

  function NewRequester(payload: Item, isComplete: bool, fragmentSize: nat, initialRequestN: int): Requester {
    Requester(payload, isComplete, fragmentSize, initialRequestN, 0, None, FRESH)
  }

  function RequesterReady(r: Requester, id: nat): Effect<Requester>
    requires r.Valid() && id > 0
  {
    if r.core.outboundDone then Effect(r, [])
    else
      Effect(r.(streamId := id, core := r.core.(registered := true, outboundDone := r.isComplete)),
             SentFrames(ChannelKind(r.initialRequestN), id, r.Request(), r.fragmentSize)
             + if r.extension.Some? then [ExtFrame(id, r.extension.value)] else [])
  }

  function RequesterRejected(c: Core): Core {
    if c.inboundDone then c else c.Done().Signalled(Failed)
  }

  /** A frame that the registry routes to the requester. */
  function RequesterHandles(id: nat, c: Core, f: Frame): Effect<Core> {
    match f
    case Payload(_, flags, data, metadata) =>
      Effect(if HasComplete(flags) || !HasFollows(flags) then RequesterGetsPayload(c, f)
             else c.WithFragment(data, metadata), [])
    case Cancel(_, _) =>
      Effect(if c.outboundDone then c else c.OutboundEnds().Signalled(Cancelled), [])
    case RequestN(_, _, n) =>
      if c.outboundDone then Effect(c, [])
      else if c.holder.hasFragments then RequesterFails(id, c)
      else Effect(c.Signalled(Requested(n)), [])
    case Error(_, _, _, _) =>
      Effect(c.Done().(registered := false, holder := EMPTY).CancelledUnless(c.outboundDone).Signalled(Failed), [])
    case Ext(_, _, _, _) => Effect(c.Signalled(ExtensionOf(f)), [])
    case _ => RequesterFails(id, c)
  }

  function RequesterGetsPayload(c: Core, f: Frame): Core
    requires f.Payload?
  {
    var last := HasComplete(f.flags);
    var c1 := if last then c.InboundEnds() else c;
    if last && !HasNext(f.flags) then c1.Signalled(Completed)
    else
      match Assembled(c.holder, f)
      case None => c1.(holder := c.holder.(hasFragments := false), thrown := true)
      case Some(p) => c1.Emptied().Signalled(Signal.Next(p, last))
  }

  /** An unexpected frame: the stream is closed with an error and cancelled. */
  function RequesterFails(id: nat, c: Core): Effect<Core> {
    Effect(RequesterCloses(c, true).(registered := false), [CancelFrame(id)])
  }

  function RequesterCloses(c: Core, withError: bool): Core {
    if c.inboundDone && c.outboundDone then c
    else c.Done().(holder := EMPTY).CancelledUnless(c.outboundDone)
          .SignalledUnless(c.inboundDone, if withError then Failed else Completed)
  }

  function RequesterRequests(r: Requester, n: int): Effect<Requester> {
    if r.core.inboundDone then Effect(r, [])
    else if r.streamId == 0 then Effect(r.(initialRequestN := r.initialRequestN + n), [])
    else Effect(r, [RequestNFrame(r.streamId, n)])
  }

  function RequesterCancels(id: nat, c: Core): Effect<Core> {
    if c.inboundDone && c.outboundDone then Effect(c, [])
    else
      var c1 := c.Done().CancelledUnless(c.outboundDone);
      if id == 0 then Effect(c1, [])
      else Effect(c1.(registered := false, holder := EMPTY),
                  [if c.inboundDone then ErrorFrame(id, CANCELED_CODE) else CancelFrame(id)])
  }

  function RequesterCompletes(r: Requester): Effect<Requester> {
    if r.streamId == 0 then Effect(r.(isComplete := true), [])
    else
      var e := Completes(r.streamId, r.core);
      Effect(r.(core := e.state), e.frames)
  }

  function RequesterErrors(id: nat, c: Core): Effect<Core> {
    if c.outboundDone then Effect(c, [])
    else Effect(c.Done().(registered := false).SignalledUnless(c.inboundDone, Failed), [ErrorFrame(id, APPLICATION_ERROR)])
  }

  function RequesterExtends(r: Requester, e: Signal): Effect<Requester>
    requires e.Extension?
  {
    if r.core.outboundDone then Effect(r, [])
    else if r.streamId == 0 then Effect(r.(extension := Some(e)), [])
    else Effect(r, [ExtFrame(r.streamId, e)])
  }

  // Both ends send elements and complete in the same way

  function Sends(id: nat, fragmentSize: nat, c: Core, item: Item): Effect<Core>
    requires ValidFragmentSize(fragmentSize)
  {
    if c.outboundDone then Effect(c, [])
    else Effect(if item.complete then c.OutboundEnds() else c, SentFrames(PayloadKind, id, item, fragmentSize))
  }

  function Completes(id: nat, c: Core): Effect<Core> {
    if c.outboundDone then Effect(c, []) else Effect(c.OutboundEnds(), [CompleteFrame(id)])
  }

  // The responder

  /** The phases of a responder: before its first frame, collecting the fragments of the request, within
      the application's handler, which has not returned the receiver yet, and afterwards. */
  datatype Phase = Unborn | Assembling(initialRequestN: int, isComplete: bool)
                 | InHandler(fromConstructor: bool, deferredError: bool) | Running

  datatype Responder = Responder(streamId: nat, fragmentSize: nat, phase: Phase, core: Core)
  {
    predicate Valid() {
      ValidFragmentSize(fragmentSize)
    }

    /** The application holds the responder's outgoing side: its handler has been called. */
    predicate Live() {
      phase.InHandler? || phase.Running?
    }
  }

  function NotYetBorn(fragmentSize: nat): Responder {
    Responder(0, fragmentSize, Unborn, FRESH)
  }

  /** The constructor, for a REQUEST_CHANNEL frame. */
  function ResponderBorn(fragmentSize: nat, f: Frame): (r: Responder)
    requires f.RequestChannel? && f.streamId > 0
  {
    var c := FRESH.(registered := true);
    if HasFollows(f.flags) then
      Responder(f.streamId, fragmentSize, Assembling(f.requestN, HasComplete(f.flags)), c.WithFragment(f.data, f.metadata))
    else
      var last := HasComplete(f.flags);
      Responder(f.streamId, fragmentSize, InHandler(true, false),
                c.(inboundDone := last).Signalled(Started(AppPayload(f.data, f.metadata), f.requestN, last)))
  }

  /** The handler returns the receiver. An error raised meanwhile is passed on to the receiver only when
      the handler was called by the constructor. */
  function HandlerReturns(r: Responder): Responder
    requires r.phase.InHandler?
  {
    r.(phase := Running,
       core := if r.phase.fromConstructor && r.core.outboundDone && r.phase.deferredError
               then r.core.Signalled(Failed) else r.core)
  }

  /** The responder's state that frames change: its phase and its core. */
  datatype Receiving = Receiving(phase: Phase, core: Core)

  function ResponderHandles(id: nat, phase: Phase, c: Core, f: Frame): (e: Effect<Receiving>)
    requires phase.Assembling? || phase.Running?
  {
    match f
    case Payload(_, flags, data, metadata) =>
      Effect(if HasFollows(flags) then Receiving(phase, c.WithFragment(data, metadata))
             else ResponderGetsPayload(phase, c, f), [])
    case RequestN(_, _, n) =>
      if phase.Assembling? || c.holder.hasFragments then ResponderFails(id, phase, c)
      else Effect(Receiving(phase, c.Signalled(Requested(n))), [])
    case Error(_, _, _, _) => Effect(Receiving(phase, ResponderAborted(phase, c)), [])
    case Cancel(_, _) => Effect(Receiving(phase, ResponderAborted(phase, c)), [])
    case Ext(_, _, _, _) =>
      if phase.Assembling? || c.holder.hasFragments then ResponderFails(id, phase, c)
      else Effect(Receiving(phase, c.Signalled(ExtensionOf(f))), [])
    case _ => ResponderFails(id, phase, c)
  }

  /** A complete payload: the request, for which the handler is called, or an element. */
  function ResponderGetsPayload(phase: Phase, c: Core, f: Frame): Receiving
    requires f.Payload?
  {
    match Assembled(c.holder, f)
    case None => Receiving(phase, c.(holder := c.holder.(hasFragments := false), thrown := true))
    case Some(p) =>
      var hasComplete := HasComplete(f.flags);
      var last := hasComplete || (phase.Assembling? && phase.isComplete);
      var c1 := if last then c.Emptied().InboundEnds() else c.Emptied();
      if phase.Assembling? then
        Receiving(InHandler(false, false), c1.Signalled(Started(p, phase.initialRequestN, last)))
      else
        Receiving(phase, c1.Signalled(if hasComplete && !HasNext(f.flags) then Completed else Signal.Next(p, hasComplete)))
  }

  function ResponderAborted(phase: Phase, c: Core): Core {
    var c1 := c.Done().(registered := false, holder := EMPTY);
    if phase.Assembling? then c1
    else c1.CancelledUnless(c.outboundDone).SignalledUnless(c.inboundDone, Failed)
  }

  function ResponderFails(id: nat, phase: Phase, c: Core): Effect<Receiving> {
    Effect(Receiving(phase, ResponderCloses(phase, c.(registered := false), true)), [ErrorFrame(id, CANCELED_CODE)])
  }

  function ResponderCloses(phase: Phase, c: Core, withError: bool): Core {
    if c.inboundDone && c.outboundDone then c
    else
      var c1 := c.Done().(holder := EMPTY);
      if !phase.Running? then c1
      else c1.CancelledUnless(c.outboundDone).SignalledUnless(c.inboundDone, if withError then Failed else Completed)
  }

  function ResponderErrors(id: nat, phase: Phase, c: Core): Effect<Receiving> {
    if c.outboundDone then Effect(Receiving(phase, c), [])
    else
      var c1 := c.Done().(registered := false);
      Effect(if c.inboundDone then Receiving(phase, c1)
             else if phase.InHandler? then Receiving(phase.(deferredError := true), c1)
             else Receiving(phase, c1.Signalled(Failed)),
             [ErrorFrame(id, APPLICATION_ERROR)])
  }

  function ResponderExtends(id: nat, c: Core, e: Signal): seq<Frame>
    requires e.Extension?
  {
    if c.outboundDone && c.inboundDone then [] else [ExtFrame(id, e)]
  }

  function ResponderRequests(id: nat, c: Core, n: int): seq<Frame> {
    if c.inboundDone then [] else [RequestNFrame(id, n)]
  }

  function ResponderCancels(id: nat, c: Core): Effect<Core> {
    if c.inboundDone then Effect(c, []) else Effect(c.InboundEnds(), [CancelFrame(id)])
  }
}
