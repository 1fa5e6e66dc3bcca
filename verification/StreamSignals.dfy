/** The calls that a stream makes on its application, kept as a log. */
module StreamSignals {
  import opened Options
  import opened Frames

  datatype Signal =
    | Started(payload: AppPayload, initialRequestN: int, last: bool)  // a responder's handler is called
    | Next(payload: AppPayload, last: bool)
    | Completed
    | Failed
    | Cancelled
    | Requested(n: int)
    | Extension(extendedType: int, content: Option<bytes>, canBeIgnored: bool)

  import opened Bytes

  /** The signals after which an application is to get no further element. */
  predicate Terminal(s: Signal) {
    match s
    case Started(_, _, last) => last
    case Next(_, last) => last
    case Completed => true
    case Failed => true
    case _ => false
  }

  predicate CarriesElement(s: Signal) {
    s.Started? || s.Next?
  }

  /** What a log of signals amounts to. It is `wellFormed` while there is at most one terminal signal, no
      element after it, and at most one cancellation; `completed` if the terminal one is not an error. */
  datatype Heard = Heard(wellFormed: bool, terminated: bool, completed: bool, cancelled: bool,
                         elements: seq<AppPayload>, demand: int)

  function DemandOf(s: Signal): int {
    match s
    case Started(_, n, _) => n
    case Requested(n) => n
    case _ => 0
  }

  function HeardFrom(log: seq<Signal>): Heard {
    if log == [] then Heard(true, false, false, false, [], 0)
    else
      var h, s := HeardFrom(log[..|log| - 1]), log[|log| - 1];
      Heard(h.wellFormed && (h.terminated ==> !Terminal(s) && !CarriesElement(s)) && (h.cancelled ==> s != Cancelled),
            h.terminated || Terminal(s),
            h.completed || (Terminal(s) && s != Failed),
            h.cancelled || s == Cancelled,
            if CarriesElement(s) then h.elements + [s.payload] else h.elements,
            h.demand + DemandOf(s))
  }

  /** What one signal more makes of it. */
  ghost predicate Follows(next: Heard, h: Heard, s: Signal) {
    && next.wellFormed == (h.wellFormed && (h.terminated ==> !Terminal(s) && !CarriesElement(s))
                           && (h.cancelled ==> s != Cancelled))
    && next.terminated == (h.terminated || Terminal(s))
    && next.completed == (h.completed || (Terminal(s) && s != Failed))
    && next.cancelled == (h.cancelled || s == Cancelled)
    && next.elements == (if CarriesElement(s) then h.elements + [s.payload] else h.elements)
    && next.demand == h.demand + DemandOf(s)
  }

  lemma PushSignal(log: seq<Signal>, s: Signal)
    ensures Follows(HeardFrom(log + [s]), HeardFrom(log), s)
  {
    assert (log + [s])[..|log|] == log;
  }

  /** What `wellFormed` means for the log. */
  ghost predicate WellFormedLog(log: seq<Signal>) {
    && (forall i, j | 0 <= i < j < |log| && Terminal(log[i]) :: !Terminal(log[j]) && !CarriesElement(log[j]))
    && (forall i, j | 0 <= i < j < |log| && log[i] == Cancelled :: log[j] != Cancelled)
  }

  lemma {:induction false} TerminatedMeans(log: seq<Signal>)
    ensures HeardFrom(log).terminated <==> exists i | 0 <= i < |log| :: Terminal(log[i])
    ensures HeardFrom(log).cancelled <==> exists i | 0 <= i < |log| :: log[i] == Cancelled
    decreases |log|
  {
    if log != [] {
      var init, last := log[..|log| - 1], |log| - 1;
      TerminatedMeans(init);
      assert forall i | 0 <= i < last :: init[i] == log[i];
      if HeardFrom(init).terminated {
        var i :| 0 <= i < last && Terminal(init[i]);
        assert Terminal(log[i]);
      }
      if HeardFrom(init).cancelled {
        var i :| 0 <= i < last && init[i] == Cancelled;
        assert log[i] == Cancelled;
      }
    }
  }

  lemma {:induction false} WellFormedMeans(log: seq<Signal>)
    ensures HeardFrom(log).wellFormed <==> WellFormedLog(log)
    decreases |log|
  {
    if log != [] {
      var init := log[..|log| - 1];
      WellFormedMeans(init);
      TerminatedMeans(init);
      assert log == init + [log[|log| - 1]];
      WellFormedGrows(init, log[|log| - 1]);
    }
  }

  lemma WellFormedGrows(log: seq<Signal>, s: Signal)
    ensures WellFormedLog(log + [s]) <==>
              && WellFormedLog(log)
              && ((exists i | 0 <= i < |log| :: Terminal(log[i])) ==> !Terminal(s) && !CarriesElement(s))
              && ((exists i | 0 <= i < |log| :: log[i] == Cancelled) ==> s != Cancelled)
  {
    var log' := log + [s];
    assert forall i | 0 <= i < |log| :: log'[i] == log[i];
    assert log'[|log|] == s;
  }
}
