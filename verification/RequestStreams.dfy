/** The ends of request-stream and request-response streams, which have one flag, `done`: what every call
    and every frame makes of an end, and the frames it sends. The classes of `RequestStreamStream.dfy` are
    proved against these functions. */
module RequestStreams {
  import opened Options
  import opened Bytes
  import opened Frames
  import opened Reassembler
  import opened Fragmenter
  import opened Sending
  import opened StreamSignals
  import opened ChannelStreams

  /** What all ends have: the flag, whether the registry routes frames to this end, the fragments received,
      the calls made on the application, and whether a call ended with an exception. */
  datatype Half = Half(done: bool, registered: bool, holder: Holder, signals: seq<Signal>, thrown: bool)
  {
    function Signalled(s: Signal): Half {
      this.(signals := signals + [s])
    }

    function Heard(): Heard {
      HeardFrom(signals)
    }

    function Over(): Half {
      this.(done := true, registered := false)
    }

    function WithFragment(data: Option<bytes>, metadata: Option<bytes>): Half {
      var h := Add(holder, data, metadata);
      if h.Some? then this.(holder := h.value) else this.(thrown := true)
    }

    function Emptied(): Half {
      if holder.hasFragments then this.(holder := EMPTY) else this
    }

    function Throws(): Half {
      this.(holder := holder.(hasFragments := false), thrown := true)
    }
  }

  const NEW_HALF := Half(false, false, EMPTY, [], false)

  // The requester. A `single` one is of request-response, which has no demand.

  datatype OneRequester = OneRequester(single: bool, request: Item, fragmentSize: nat, initialRequestN: int,
                                       streamId: nat, extension: Option<Signal>, half: Half)
  {
    predicate Valid() {
      && ValidFragmentSize(fragmentSize) && !request.complete
      && (extension.Some? ==> extension.value.Extension?)
      && (single ==> initialRequestN == 0)
    }

    function RequestKind(): Kind {
      if single then ResponseKind else StreamKind(initialRequestN)
    }
  }

  function NewOneRequester(single: bool, payload: Item, fragmentSize: nat, initialRequestN: int): OneRequester {
    OneRequester(single, payload.(complete := false), fragmentSize, if single then 0 else initialRequestN, 0, None, NEW_HALF)
  }

  function OneReady(r: OneRequester, id: nat): Effect<OneRequester>
    requires r.Valid() && id > 0
  {
    if r.half.done then Effect(r, [])
    else
      Effect(r.(streamId := id, half := r.half.(registered := true)),
             SentFrames(r.RequestKind(), id, r.request, r.fragmentSize)
             + if r.extension.Some? then [ExtFrame(id, r.extension.value)] else [])
  }

  function OneRejected(h: Half): Half {
    if h.done then h else h.(done := true).Signalled(Failed)
  }

  function OneHandles(single: bool, id: nat, h: Half, f: Frame): Effect<Half> {
    match f
    case Payload(_, flags, data, metadata) =>
      Effect(if HasComplete(flags) || !HasFollows(flags) then OneGetsPayload(single, h, f)
             else h.WithFragment(data, metadata), [])
    case Error(_, _, _, _) => Effect(h.Over().(holder := EMPTY).Signalled(Failed), [])
    case Ext(_, _, _, _) => if h.holder.hasFragments then OneFails(id, h) else Effect(h.Signalled(ExtensionOf(f)), [])
    case _ => OneFails(id, h)
  }

  /** A single requester is done with its first payload, whether it says COMPLETE or not. */
  function OneGetsPayload(single: bool, h: Half, f: Frame): Half
    requires f.Payload?
  {
    var last := single || HasComplete(f.flags);
    var h1 := if last then h.Over() else h;
    if last && !HasNext(f.flags) then h1.Signalled(Completed)
    else
      match Assembled(h.holder, f)
      case None => h1.Throws()
      case Some(p) => h1.Emptied().Signalled(Signal.Next(p, last))
  }

  /** An unexpected frame: the stream is closed with an error and cancelled. */
  function OneFails(id: nat, h: Half): Effect<Half> {
    Effect(OneCloses(h, true).(registered := false), [CancelFrame(id)])
  }

  function OneCloses(h: Half, withError: bool): Half {
    if h.done then h
    else h.(done := true, holder := EMPTY).Signalled(if withError then Failed else Completed)
  }

  function OneRequests(r: OneRequester, n: int): Effect<OneRequester> {
    if r.half.done then Effect(r, [])
    else if r.streamId == 0 then Effect(r.(initialRequestN := r.initialRequestN + n), [])
    else Effect(r, [RequestNFrame(r.streamId, n)])
  }

  function OneCancels(id: nat, h: Half): Effect<Half> {
    if h.done then Effect(h, [])
    else if id == 0 then Effect(h.(done := true), [])
    else Effect(h.Over().(holder := EMPTY), [CancelFrame(id)])
  }

  function OneExtends(r: OneRequester, e: Signal): Effect<OneRequester>
    requires e.Extension?
  {
    if r.half.done then Effect(r, [])
    else if r.streamId == 0 then Effect(r.(extension := Some(e)), [])
    else Effect(r, [ExtFrame(r.streamId, e)])
  }

  // The responder. Its handler is called by the constructor or, for a fragmented request, by `handle`.

  /** Before its first frame; collecting the fragments of the request; after the call of the handler. */
  datatype Stage = Awaited | Gathering | Served

  /** `initialRequestN` is kept for a fragmented request only. */
  datatype OneResponder = OneResponder(single: bool, streamId: nat, fragmentSize: nat, initialRequestN: int, serving: Serving)

  /** The responder's state that frames change. */
  datatype Serving = Serving(stage: Stage, half: Half)

  function DemandIn(f: Frame): int {
    if f.RequestStream? then f.requestN else 0
  }

  predicate IsOneRequest(single: bool, f: Frame) {
    if single then f.RequestResponse? else f.RequestStream?
  }

  function OneBorn(single: bool, fragmentSize: nat, f: Frame): OneResponder
    requires (f.RequestStream? || f.RequestResponse?) && f.streamId > 0
  {
    var h := NEW_HALF.(registered := true);
    if HasFollows(f.flags) then
      OneResponder(single, f.streamId, fragmentSize, DemandIn(f), Serving(Gathering, h.WithFragment(f.data, f.metadata)))
    else
      OneResponder(single, f.streamId, fragmentSize, 0,
                   Serving(Served, h.Signalled(Started(AppPayload(f.data, f.metadata), DemandIn(f), false))))
  }

  function ResponderTurns(single: bool, id: nat, initialRequestN: int, stage: Stage, h: Half, f: Frame): Effect<Serving>
    requires !stage.Awaited?
  {
    if stage.Gathering? || h.holder.hasFragments then
      if !f.Payload? then ResponderStops(id, stage, h, f)
      else if HasFollows(f.flags) then Effect(Serving(stage, h.WithFragment(f.data, f.metadata)), [])
      else
        match Reassemble(h.holder, f.data, f.metadata)
        case None => Effect(Serving(stage, h.Throws()), [])
        case Some(p) => Effect(Serving(Served, h.(holder := EMPTY).Signalled(Started(p, initialRequestN, false))), [])
    else if f.RequestN? && !single then Effect(Serving(stage, h.Signalled(Requested(f.requestN))), [])
    else if f.Ext? then Effect(Serving(stage, h.Signalled(ExtensionOf(f))), [])
    else ResponderStops(id, stage, h, f)
  }

  /** CANCEL, ERROR, or a frame that is out of place. */
  function ResponderStops(id: nat, stage: Stage, h: Half, f: Frame): Effect<Serving> {
    var h1 := h.Over().(holder := EMPTY);
    Effect(Serving(stage, if stage.Served? then h1.Signalled(Cancelled) else h1),
           if f.Cancel? || f.Error? then [] else [ErrorFrame(id, CANCELED_CODE)])
  }

  /** The connection closes: the receiver is cancelled, and the stream stays as it is. */
  function OneResponderCloses(stage: Stage, h: Half): Half {
    if h.done then h
    else
      var h1 := h.(holder := EMPTY);
      if stage.Served? then h1.Signalled(Cancelled) else h1
  }

  /** An element; a single responder's first one is its last. */
  function OneSends(single: bool, id: nat, fragmentSize: nat, h: Half, item: Item): Effect<Half>
    requires ValidFragmentSize(fragmentSize)
  {
    var last := single || item.complete;
    if h.done then Effect(h, [])
    else Effect(if last then h.Over() else h, SentFrames(PayloadKind, id, item.(complete := last), fragmentSize))
  }

  function OneCompletes(id: nat, h: Half): Effect<Half> {
    if h.done then Effect(h, []) else Effect(h.Over(), [CompleteFrame(id)])
  }

  function OneErrors(id: nat, h: Half): Effect<Half> {
    if h.done then Effect(h, []) else Effect(h.Over(), [ErrorFrame(id, APPLICATION_ERROR)])
  }

  function OneResponderExtends(id: nat, h: Half, e: Signal): seq<Frame>
    requires e.Extension?
  {
    if h.done then [] else [ExtFrame(id, e)]
  }
}
