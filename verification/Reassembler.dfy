/** Putting fragments together again, one frame at a time. */
module Reassembler {
  import opened Options
  import opened Bytes
  import opened Frames

  datatype Holder = Holder(hasFragments: bool, data: Option<bytes>, metadata: Option<bytes>)

  const EMPTY := Holder(false, None, None)

  /** `held ? Buffer.concat([held, fragment]) : fragment`; concatenating a missing fragment throws. */
  function Joined(held: Option<bytes>, fragment: Option<bytes>): Option<Option<bytes>> {
    if held.None? then Some(fragment)
    else if fragment.None? then None
    else Some(Some(held.value + fragment.value))
  }

  function JoinedMetadata(held: Option<bytes>, fragment: Option<bytes>): Option<bytes> {
    if held.Some? && fragment.Some? then Some(held.value + fragment.value) else held
  }

  /** The holder after `add`, or `None` when it throws. */
  function Add(h: Holder, data: Option<bytes>, metadata: Option<bytes>): Option<Holder> {
    if !h.hasFragments then
      Some(Holder(true, data, if metadata.Some? then metadata else h.metadata))
    else
      var joined :- Joined(h.data, data);
      Some(h.(data := joined, metadata := JoinedMetadata(h.metadata, metadata)))
  }

  /** The payload that `reassemble` returns, or `None` when it throws. */
  function Reassemble(h: Holder, data: Option<bytes>, metadata: Option<bytes>): Option<AppPayload> {
    var joined :- Joined(h.data, data);
    Some(AppPayload(joined, JoinedMetadata(h.metadata, metadata)))
  }

  /** The fields of a stream that the reassembler works on. */
  class FragmentsHolder {
    var hasFragments: bool
    var data: Option<bytes>
    var metadata: Option<bytes>

    constructor ()
      ensures View() == EMPTY
    {
      hasFragments, data, metadata := false, None, None;
    }

    function View(): Holder
      reads this
    {
      Holder(hasFragments, data, metadata)
    }

    method AddFragment(dataFragment: Option<bytes>, metadataFragment: Option<bytes>) returns (thrown: bool)
      modifies this
      ensures thrown == Add(old(View()), dataFragment, metadataFragment).None?
      ensures View() == Add(old(View()), dataFragment, metadataFragment).GetOr(old(View()))
    {
      thrown := false;
      if !hasFragments {
        hasFragments := true;
        data := dataFragment;
        if metadataFragment.Some? {
          metadata := metadataFragment;
        }
        return;
      }
      if data.Some? {
        if dataFragment.None? {
          thrown := true;
          return;
        }
        data := Some(data.value + dataFragment.value);
      } else {
        data := dataFragment;
      }
      if metadata.Some? && metadataFragment.Some? {
        metadata := Some(metadata.value + metadataFragment.value);
      }
    }

    /** The payload, after which the holder is as new; `None` when the concatenation throws, which happens
        after `hasFragments` has been reset. */
    method ReassemblePayload(dataFragment: Option<bytes>, metadataFragment: Option<bytes>)
      returns (payload: Option<AppPayload>)
      modifies this
      ensures payload == Reassemble(old(View()), dataFragment, metadataFragment)
      ensures View() == if payload.Some? then EMPTY else old(View()).(hasFragments := false)
    {
      hasFragments := false;
      if data.Some? && dataFragment.None? {
        return None;
      }
      var joined := if data.Some? then Some(data.value + dataFragment.value) else dataFragment;
      data := None;
      if metadata.Some? {
        var m := if metadataFragment.Some? then metadata.value + metadataFragment.value else metadata.value;
        metadata := None;
        return Some(AppPayload(joined, Some(m)));
      }
      return Some(AppPayload(joined, None));
    }

    method CancelFragments()
      modifies this
      ensures View() == EMPTY
    {
      hasFragments, data, metadata := false, None, None;
    }
  }

  // A stream's inbound side: frames with FOLLOWS are added, any other frame completes a payload

  predicate CarriesPayload(f: Frame) {
    f.Payload? || f.RequestResponse? || f.RequestFnf? || f.RequestStream? || f.RequestChannel?
  }

  predicate AllCarryPayload(fs: seq<Frame>) {
    forall i | 0 <= i < |fs| :: CarriesPayload(fs[i])
  }

  /** A buffer as it is when it has crossed the wire, on which an empty one becomes absent, or as it is
      when the frame object itself is handed to the peer. */
  function Crossed(wire: bool, b: Option<bytes>): Option<bytes> {
    if wire then NonEmpty(b) else b
  }

  datatype Inbox = Inbox(holder: Holder, payloads: seq<AppPayload>)

  /** What one more frame makes of an inbox; `None` when the reassembler throws. */
  function Receive(wire: bool, b: Inbox, f: Frame): Option<Inbox>
    requires CarriesPayload(f)
  {
    var data, metadata := Crossed(wire, f.data), Crossed(wire, f.metadata);
    if HasFollows(f.flags) then
      var h :- Add(b.holder, data, metadata);
      Some(b.(holder := h))
    else if b.holder.hasFragments then
      var p :- Reassemble(b.holder, data, metadata);
      Some(Inbox(EMPTY, b.payloads + [p]))
    else
      Some(b.(payloads := b.payloads + [AppPayload(data, metadata)]))
  }

  function ReceiveAll(wire: bool, b: Inbox, fs: seq<Frame>): Option<Inbox>
    requires AllCarryPayload(fs)
    decreases |fs|
  {
    if fs == [] then Some(b)
    else
      var next :- Receive(wire, b, fs[0]);
      ReceiveAll(wire, next, fs[1..])
  }

  lemma ReceiveFirst(wire: bool, b: Inbox, f: Frame, fs: seq<Frame>)
    requires CarriesPayload(f) && AllCarryPayload(fs)
    ensures AllCarryPayload([f] + fs)
    ensures ReceiveAll(wire, b, [f] + fs)
         == var next := Receive(wire, b, f);
            if next.None? then None else ReceiveAll(wire, next.value, fs)
  {
    assert ([f] + fs)[1..] == fs;
  }

  lemma {:induction false} ReceiveConcat(wire: bool, b: Inbox, xs: seq<Frame>, ys: seq<Frame>)
    requires AllCarryPayload(xs) && AllCarryPayload(ys)
    ensures AllCarryPayload(xs + ys)
    ensures ReceiveAll(wire, b, xs + ys)
         == var next := ReceiveAll(wire, b, xs);
            if next.None? then None else ReceiveAll(wire, next.value, ys)
    decreases |xs|
  {
    if xs == [] {
      assert xs + ys == ys;
    } else {
      assert xs + ys == [xs[0]] + (xs[1..] + ys);
      ReceiveConcat(wire, b, xs[1..], ys);
      ReceiveFirst(wire, b, xs[0], xs[1..] + ys);
      var next := Receive(wire, b, xs[0]);
      if next.Some? {
        ReceiveConcat(wire, next.value, xs[1..], ys);
      }
    }
  }
}
