/** Extension frames, and the signals by which an application is told of them. */
module Extensions {
  import opened Options
  import opened Bytes
  import opened Frames
  import opened StreamSignals
  import opened ChannelStreams
  import opened ChannelQueues

  function Carried(f: Frame): seq<Signal> {
    if f.Ext? then [ExtensionOf(f)] else []
  }

  /** The extensions that a list of frames carries. */
  function ExtensionsIn(q: seq<Frame>): seq<Signal> {
    if q == [] then [] else Carried(q[0]) + ExtensionsIn(q[1..])
  }

  /** The extensions among the calls made on an application. */
  function ExtensionsTold(log: seq<Signal>): seq<Signal> {
    if log == [] then []
    else
      var before, s := ExtensionsTold(log[..|log| - 1]), log[|log| - 1];
      if s.Extension? then before + [s] else before
  }

  /** One direction: an end that takes frames has told its application of the extensions that are not in
      flight any more; an end that does not, of some of them, in order. */
  ghost predicate Relays(open: bool, told: seq<Signal>, flying: seq<Signal>, accepted: seq<Signal>) {
    if open then told + flying == accepted else told <= accepted
  }

  lemma {:induction false} ExtensionsAppend(a: seq<Frame>, b: seq<Frame>)
    ensures ExtensionsIn(a + b) == ExtensionsIn(a) + ExtensionsIn(b)
    decreases |a|
  {
    hide Carried;
    if a == [] {
      assert a + b == b;
    } else {
      assert (a + b)[1..] == a[1..] + b && (a + b)[0] == a[0];
      ExtensionsAppend(a[1..], b);
      Regroup(Carried(a[0]), ExtensionsIn(a[1..]), ExtensionsIn(b));
    }
  }

  lemma Regroup<T>(x: seq<T>, y: seq<T>, z: seq<T>)
    ensures (x + y) + z == x + (y + z)
  {
  }

  lemma ExtensionInOne(f: Frame)
    ensures ExtensionsIn([f]) == Carried(f) == if f.Ext? then [ExtensionOf(f)] else []
  {
    assert [f][1..] == [];
  }

  lemma ExtensionsHead(q: seq<Frame>)
    requires q != []
    ensures ExtensionsIn(q) == Carried(q[0]) + ExtensionsIn(q[1..])
  {
  }

  lemma ExtensionToldNext(log: seq<Signal>, s: Signal)
    ensures ExtensionsTold(log + [s]) == if s.Extension? then ExtensionsTold(log) + [s] else ExtensionsTold(log)
  {
    assert (log + [s])[..|log|] == log;
  }

  lemma {:induction false} NoExtensionAmongPayloads(q: seq<Frame>)
    requires AllCarry(q)
    ensures ExtensionsIn(q) == []
    decreases |q|
  {
    if q != [] {
      assert Carries(q[0]);
      NoExtensionAmongPayloads(q[1..]);
    }
  }

  /** A frame carries an extension and back. */
  lemma ExtensionReadBack(id: int, e: Signal)
    requires e.Extension?
    ensures ExtensionsIn([ExtFrame(id, e)]) == [e]
  {
    ExtensionInOne(ExtFrame(id, e));
  }

  lemma RelaysFirst(open: bool, flying: seq<Signal>)
    ensures Relays(open, [], flying, flying)
  {
  }

  lemma NothingBefore<T>(q: seq<T>, more: seq<T>)
    requires q == []
    ensures q + more == more
  {
  }

  lemma RelaysMore(open: bool, told: seq<Signal>, flying: seq<Signal>, accepted: seq<Signal>, more: seq<Signal>)
    requires Relays(open, told, flying, accepted)
    ensures Relays(open, told, flying + more, accepted + more)
  {
    assert told + (flying + more) == (told + flying) + more;
  }

  /** `first` arrives, and is told, unless the end takes frames no longer. */
  lemma RelaysArrival(told: seq<Signal>, first: seq<Signal>, rest: seq<Signal>, accepted: seq<Signal>,
                      told': seq<Signal>, open': bool)
    requires Relays(true, told, first + rest, accepted) && (told' == told + first || (told' == told && !open'))
    ensures Relays(open', told', rest, accepted)
  {
    assert told + (first + rest) == (told + first) + rest;
  }
}
