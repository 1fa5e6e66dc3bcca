/** Admission of requests under leases: the queue of requests that wait for a lease. */
module LeaseHandlers {
  /** A request's stream handler, told apart by identity. */
  type Handler = nat

  /** The first four fields are the lease handler's own. The others tell what it has done: the requests
      submitted, started, rejected, and withdrawn while pending, and, since the last LEASE frame, the
      number granted and the number started. */
  datatype Admission = Admission(maxPending: nat, pending: seq<Handler>, expiration: int, available: int,
                                 submitted: seq<Handler>, started: seq<Handler>, rejected: set<Handler>,
                                 withdrawn: set<Handler>, granted: int, startedSince: nat)

  function NoLease(maxPending: nat): Admission {
    Admission(maxPending, [], 0, 0, [], [], {}, {}, 0, 0)
  }

  function Smaller(a: int, b: nat): nat {
    if a <= 0 then 0 else if a <= b then a else b
  }

  /** A LEASE frame: as many pending requests as it grants are started, oldest first. */
  function Granted(a: Admission, ttl: nat, count: nat, now: int): Admission {
    var n := Smaller(count, |a.pending|);
    a.(expiration := ttl + now, available := count - n, pending := a.pending[n..], started := a.started + a.pending[..n],
       granted := count, startedSince := n)
  }

  function Submitted(a: Admission, h: Handler, now: int): Admission {
    var b := a.(submitted := a.submitted + [h]);
    if a.available > 0 && now < a.expiration then
      b.(available := a.available - 1, started := a.started + [h], startedSince := a.startedSince + 1)
    else if |a.pending| >= a.maxPending then b.(rejected := a.rejected + {h})
    else b.(pending := a.pending + [h])
  }

  /** The position of a handler, or the length of the queue. */
  function IndexOf(q: seq<Handler>, h: Handler): (i: nat)
    ensures i <= |q|
    ensures i < |q| ==> q[i] == h
    ensures forall j | 0 <= j < i :: q[j] != h
  {
    if q == [] || q[0] == h then 0 else 1 + IndexOf(q[1..], h)
  }

  function Cut(q: seq<Handler>, i: nat): seq<Handler>
    requires i < |q|
  {
    q[..i] + q[i + 1..]
  }

  function Withdrawn(a: Admission, h: Handler): Admission {
    var i := IndexOf(a.pending, h);
    if i < |a.pending| then a.(pending := Cut(a.pending, i), withdrawn := a.withdrawn + {h}) else a
  }

  class LeaseHandler {
    const maxPendingRequests: nat
    var pendingRequests: seq<Handler>
    var expirationTime: int
    var availableLease: int
    var started: seq<Handler>
    var rejected: set<Handler>
    ghost var submitted: seq<Handler>
    ghost var withdrawn: set<Handler>
    ghost var granted: int
    ghost var startedSince: nat

    constructor (maxPendingRequests: nat)
      ensures View() == NoLease(maxPendingRequests)
    {
      this.maxPendingRequests := maxPendingRequests;
      pendingRequests, expirationTime, availableLease := [], 0, 0;
      started, rejected, submitted, withdrawn, granted, startedSince := [], {}, [], {}, 0, 0;
    }

    ghost function View(): Admission
      reads this
    {
      Admission(maxPendingRequests, pendingRequests, expirationTime, availableLease, submitted, started, rejected,
                withdrawn, granted, startedSince)
    }

    /** `multiplexer.createRequestStream(handler)`. */
    method CreateRequestStream(h: Handler)
      modifies `started
      ensures started == old(started) + [h]
    {
      started := started + [h];
    }

    method Handle(ttl: nat, requestCount: nat, now: int)
      modifies this
      ensures View() == Granted(old(View()), ttl, requestCount, now)
    {
      expirationTime := ttl + now;
      availableLease := requestCount;
      granted, startedSince := requestCount, 0;
      ghost var queue := pendingRequests;
      while availableLease > 0 && |pendingRequests| > 0
        invariant startedSince <= Smaller(requestCount, |queue|) && availableLease == requestCount - startedSince
        invariant pendingRequests == queue[startedSince..] && started == old(started) + queue[..startedSince]
        invariant expirationTime == ttl + now && granted == requestCount
        invariant rejected == old(rejected) && submitted == old(submitted) && withdrawn == old(withdrawn)
        decreases |pendingRequests|
      {
        var handler := pendingRequests[0];
        pendingRequests := pendingRequests[1..];
        availableLease := availableLease - 1;
        CreateRequestStream(handler);
        assert queue[..startedSince + 1] == queue[..startedSince] + [queue[startedSince]];
        startedSince := startedSince + 1;
      }
    }

    method RequestLease(h: Handler, now: int)
      modifies this
      ensures View() == Submitted(old(View()), h, now)
    {
      submitted := submitted + [h];
      var available := availableLease;
      if available > 0 && now < expirationTime {
        availableLease := available - 1;
        startedSince := startedSince + 1;
        CreateRequestStream(h);
        return;
      }
      if |pendingRequests| >= maxPendingRequests {
        rejected := rejected + {h};
        return;
      }
      pendingRequests := pendingRequests + [h];
    }

    method CancelRequest(h: Handler)
      modifies this
      ensures View() == Withdrawn(old(View()), h)
    {
      var index := 0;
      while index < |pendingRequests| && pendingRequests[index] != h
        invariant index <= |pendingRequests|
        invariant forall j | 0 <= j < index :: pendingRequests[j] != h
      {
        index := index + 1;
      }
      if index < |pendingRequests| {
        pendingRequests := pendingRequests[..index] + pendingRequests[index + 1..];
        withdrawn := withdrawn + {h};
      }
    }
  }

  // Runs

  datatype Event = Lease(ttl: nat, count: nat, now: int) | Request(h: Handler, now: int) | Cancel(h: Handler)

  function Step(a: Admission, e: Event): Admission {
    match e
    case Lease(ttl, count, now) => Granted(a, ttl, count, now)
    case Request(h, now) => Submitted(a, h, now)
    case Cancel(h) => Withdrawn(a, h)
  }

  function Run(a: Admission, events: seq<Event>): Admission
    decreases |events|
  {
    if events == [] then a else Run(Step(a, events[0]), events[1..])
  }

  /** Each request is submitted once, and the clock does not go back. */
  ghost predicate Fair(submitted: seq<Handler>, clock: int, events: seq<Event>)
    decreases |events|
  {
    events == [] ||
    match events[0]
    case Lease(_, _, now) => clock <= now && Fair(submitted, now, events[1..])
    case Request(h, now) => h !in submitted && clock <= now && Fair(submitted + [h], now, events[1..])
    case Cancel(_) => Fair(submitted, clock, events[1..])
  }

  /** The members of a list that have not been dropped, in order. */
  function Kept(list: seq<Handler>, dropped: set<Handler>): (kept: seq<Handler>) {
    if list == [] then []
    else
      var init, h := Kept(list[..|list| - 1], dropped), list[|list| - 1];
      if h in dropped then init else init + [h]
  }

  lemma KeptPush(list: seq<Handler>, dropped: set<Handler>, h: Handler)
    ensures Kept(list + [h], dropped) == if h in dropped then Kept(list, dropped) else Kept(list, dropped) + [h]
  {
    assert (list + [h])[..|list|] == list;
  }

  /** Dropping a stranger changes nothing. */
  lemma {:induction false} KeptStranger(list: seq<Handler>, dropped: set<Handler>, h: Handler)
    requires h !in list
    ensures Kept(list, dropped + {h}) == Kept(list, dropped)
  {
    if list != [] {
      KeptStranger(list[..|list| - 1], dropped, h);
    }
  }

  function Without(q: seq<Handler>, h: Handler): seq<Handler> {
    var i := IndexOf(q, h);
    if i < |q| then Cut(q, i) else q
  }

  predicate Distinct(q: seq<Handler>) {
    forall i, j | 0 <= i < j < |q| :: q[i] != q[j]
  }

  lemma {:induction false} KeptMembers(list: seq<Handler>, dropped: set<Handler>)
    requires Distinct(list)
    ensures var kept := Kept(list, dropped);
            Distinct(kept) && forall h :: h in kept <==> h in list && h !in dropped
  {
    if list != [] {
      var init := list[..|list| - 1];
      assert list == init + [list[|list| - 1]];
      KeptMembers(init, dropped);
    }
  }

  lemma {:induction false} FirstIndex(q: seq<Handler>, h: Handler, i: nat)
    requires i < |q| && q[i] == h && Distinct(q)
    ensures IndexOf(q, h) == i
  {
    var j := IndexOf(q, h);
    assert !(j < i) by {
      assert forall k | 0 <= k < i :: q[k] != q[i];
    }
  }

  lemma WithoutLast(q: seq<Handler>, h: Handler)
    requires Distinct(q + [h])
    ensures Without(q + [h], h) == q
  {
    FirstIndex(q + [h], h, |q|);
  }

  lemma WithoutInside(q: seq<Handler>, last: Handler, h: Handler)
    requires h in q && Distinct(q)
    ensures Without(q + [last], h) == Without(q, h) + [last]
  {
    var i := IndexOf(q, h);
    FirstOfLonger(q, [last], h);
    assert (q + [last])[i + 1..] == q[i + 1..] + [last];
    assert (q + [last])[..i] == q[..i];
  }

  lemma {:induction false} FirstOfLonger(q: seq<Handler>, tail: seq<Handler>, h: Handler)
    requires h in q
    ensures IndexOf(q + tail, h) == IndexOf(q, h) < |q|
  {
    if q[0] != h {
      assert (q + tail)[1..] == q[1..] + tail;
      FirstOfLonger(q[1..], tail, h);
    }
  }

  /** Dropping a member takes it out. */
  lemma {:induction false} KeptWithout(list: seq<Handler>, dropped: set<Handler>, h: Handler)
    requires Distinct(list) && h in list && h !in dropped
    ensures Kept(list, dropped + {h}) == Without(Kept(list, dropped), h)
  {
    var init, last := list[..|list| - 1], list[|list| - 1];
    assert list == init + [last];
    KeptMembers(list, dropped);
    KeptMembers(init, dropped);
    if last == h {
      KeptStranger(init, dropped, h);
      WithoutLast(Kept(init, dropped), h);
    } else {
      KeptWithout(init, dropped, h);
      if last !in dropped {
        WithoutInside(Kept(init, dropped), last, h);
      }
    }
  }

  lemma CutSecond(a: seq<Handler>, b: seq<Handler>, i: nat)
    requires i < |b|
    ensures Cut(a + b, |a| + i) == a + Cut(b, i)
  {
  }

  lemma {:induction false} IndexInSecond(a: seq<Handler>, b: seq<Handler>, h: Handler)
    requires h !in a
    ensures IndexOf(a + b, h) == |a| + IndexOf(b, h)
  {
    if a == [] {
      assert a + b == b;
    } else {
      assert (a + b)[1..] == a[1..] + b;
      IndexInSecond(a[1..], b, h);
    }
  }

  /** Taking a member out of the second of two lists. */
  lemma WithoutSecond(a: seq<Handler>, b: seq<Handler>, h: Handler)
    requires h !in a && h in b
    ensures Without(a + b, h) == a + Without(b, h)
  {
    MembersAreFound(b, h);
    IndexInSecond(a, b, h);
    CutSecond(a, b, IndexOf(b, h));
  }

  lemma NotInBoth(a: seq<Handler>, b: seq<Handler>, h: Handler)
    requires Distinct(a + b) && h in b
    ensures h !in a
  {
    var j :| 0 <= j < |b| && b[j] == h;
    forall i | 0 <= i < |a| ensures a[i] != h {
      assert (a + b)[i] != (a + b)[|a| + j];
    }
  }

  lemma DistinctPush(q: seq<Handler>, h: Handler)
    requires Distinct(q) && h !in q
    ensures Distinct(q + [h])
  {
  }

  lemma MembersAreFound(q: seq<Handler>, h: Handler)
    requires h in q
    ensures IndexOf(q, h) < |q|
  {
    assert !(forall j | 0 <= j < |q| :: q[j] != h);
  }

  /** The requests started and pending are those submitted and not dropped, in order. */
  ghost predicate InOrder(a: Admission) {
    && Distinct(a.submitted) && a.started + a.pending == Kept(a.submitted, a.rejected + a.withdrawn)
    && a.rejected !! a.withdrawn && (forall h | h in a.rejected + a.withdrawn :: h in a.submitted)
  }

  ghost predicate Inv(a: Admission, clock: int) {
    && InOrder(a)
    && a.startedSince + a.available == a.granted && a.available >= 0 && |a.pending| <= a.maxPending
    && (a.pending != [] ==> a.available == 0 || clock >= a.expiration)
  }

  lemma GrantedKeeps(a: Admission, clock: int, ttl: nat, count: nat, now: int)
    requires Inv(a, clock)
    ensures Inv(Granted(a, ttl, count, now), now)
  {
    var n := Smaller(count, |a.pending|);
    assert a.pending == a.pending[..n] + a.pending[n..];
    assert (a.started + a.pending[..n]) + a.pending[n..] == a.started + a.pending;
  }

  /** One request more, which was dropped or put last. */
  lemma SubmittedInOrder(a: Admission, b: Admission, h: Handler)
    requires InOrder(a) && h !in a.submitted && b.submitted == a.submitted + [h] && b.withdrawn == a.withdrawn
    requires || (b.rejected == a.rejected + {h} && b.started + b.pending == a.started + a.pending)
             || (b.rejected == a.rejected && b.started + b.pending == (a.started + a.pending) + [h])
    ensures InOrder(b)
  {
    var dropped := a.rejected + a.withdrawn;
    DistinctPush(a.submitted, h);
    KeptPush(a.submitted, b.rejected + b.withdrawn, h);
    if b.rejected != a.rejected {
      assert b.rejected + b.withdrawn == dropped + {h};
      KeptStranger(a.submitted, dropped, h);
    }
  }

  lemma SubmittedKeeps(a: Admission, clock: int, h: Handler, now: int)
    requires Inv(a, clock) && clock <= now && h !in a.submitted
    ensures Inv(Submitted(a, h, now), now)
  {
    var b := Submitted(a, h, now);
    if a.available > 0 && now < a.expiration {
      assert (a.started + [h]) + [] == (a.started + []) + [h];
    } else if |a.pending| < a.maxPending {
      assert a.started + (a.pending + [h]) == (a.started + a.pending) + [h];
    }
    SubmittedInOrder(a, b, h);
  }

  lemma WithdrawnInOrder(a: Admission, b: Admission, h: Handler)
    requires InOrder(a) && h in a.pending
    requires b.submitted == a.submitted && b.started == a.started && b.pending == Without(a.pending, h)
    requires b.rejected == a.rejected && b.withdrawn == a.withdrawn + {h}
    ensures InOrder(b)
  {
    var dropped := a.rejected + a.withdrawn;
    assert b.rejected + b.withdrawn == dropped + {h};
    assert h in a.started + a.pending;
    KeptMembers(a.submitted, dropped);
    KeptWithout(a.submitted, dropped, h);
    NotInBoth(a.started, a.pending, h);
    WithoutSecond(a.started, a.pending, h);
  }

  lemma WithdrawnKeeps(a: Admission, clock: int, h: Handler)
    requires Inv(a, clock)
    ensures Inv(Withdrawn(a, h), clock)
  {
    if IndexOf(a.pending, h) < |a.pending| {
      WithdrawnInOrder(a, Withdrawn(a, h), h);
    }
  }

  /** What the clock last showed. */
  function Later(clock: int, events: seq<Event>): int
    decreases |events|
  {
    if events == [] then clock
    else
      match events[0]
      case Lease(_, _, now) => Later(now, events[1..])
      case Request(_, now) => Later(now, events[1..])
      case Cancel(_) => Later(clock, events[1..])
  }

  lemma {:induction false} RunKeeps(a: Admission, clock: int, events: seq<Event>)
    requires Inv(a, clock) && Fair(a.submitted, clock, events)
    ensures Inv(Run(a, events), Later(clock, events))
    decreases |events|
  {
    if events != [] {
      var next := Step(a, events[0]);
      match events[0]
      case Lease(ttl, count, now) =>
        GrantedKeeps(a, clock, ttl, count, now);
        RunKeeps(next, now, events[1..]);
      case Request(h, now) =>
        SubmittedKeeps(a, clock, h, now);
        RunKeeps(next, now, events[1..]);
      case Cancel(h) =>
        WithdrawnKeeps(a, clock, h);
        RunKeeps(next, clock, events[1..]);
    }
  }

  /** In every run with a clock that does not go back: what was started since the last LEASE frame and what
      is left of it is what it granted; the queue keeps its limit; the requests started and pending are,
      in this order, those submitted that were neither rejected nor withdrawn, so that none is overtaken. */
  lemma AdmissionIsExact(maxPending: nat, clock: int, events: seq<Event>)
    requires Fair([], clock, events)
    ensures var a := Run(NoLease(maxPending), events);
            && a.startedSince + a.available == a.granted && a.available >= 0
            && |a.pending| <= a.maxPending
            && a.started + a.pending == Kept(a.submitted, a.rejected + a.withdrawn)
  {
    RunKeeps(NoLease(maxPending), clock, events);
  }

  /** The number of the four fates that a request has had. */
  function Fates(a: Admission, h: Handler): nat {
    (if h in a.started then 1 else 0) + (if h in a.pending then 1 else 0)
    + (if h in a.rejected then 1 else 0) + (if h in a.withdrawn then 1 else 0)
  }

  /** Every submitted request has exactly one fate, and is in its list once. */
  lemma EveryRequestHasOneFate(maxPending: nat, clock: int, events: seq<Event>, h: Handler)
    requires Fair([], clock, events)
    ensures var a := Run(NoLease(maxPending), events);
            && Fates(a, h) == (if h in a.submitted then 1 else 0)
            && Distinct(a.started + a.pending)
  {
    RunKeeps(NoLease(maxPending), clock, events);
    var a := Run(NoLease(maxPending), events);
    var all := a.started + a.pending;
    KeptMembers(a.submitted, a.rejected + a.withdrawn);
    assert h in all <==> h in a.started || h in a.pending;
    if h in a.pending {
      NotInBoth(a.started, a.pending, h);
    }
  }

  /** A new request overtakes those that wait exactly when something is left of a lease whose time is not
      over, and that happens only if the clock has gone back. */
  lemma OvertakingNeedsTheClock(a: Admission, clock: int, h: Handler, now: int)
    requires Inv(a, clock) && h !in a.submitted && a.pending != []
    ensures h in Submitted(a, h, now).started <==> a.available > 0 && now < a.expiration
    ensures h in Submitted(a, h, now).started ==> now < clock
  {
    KeptMembers(a.submitted, a.rejected + a.withdrawn);
    assert h in a.started ==> h in a.started + a.pending;
  }

  /** With such a clock it does happen. */
  lemma ClockGoesBack()
    ensures var a := Run(NoLease(1), [Lease(10, 5, 0), Request(1, 20), Request(2, 5)]);
            a.started == [2] && a.pending == [1]
  {
    var e0, e1, e2 := Lease(10, 5, 0), Request(1, 20), Request(2, 5);
    var events := [e0, e1, e2];
    assert events[1..] == [e1, e2] && [e1, e2][1..] == [e2] && [e2][1..] == [];
    var a1 := Step(NoLease(1), e0);
    var a2 := Step(a1, e1);
    assert Run(NoLease(1), events) == Run(a1, [e1, e2]);
    assert Run(a1, [e1, e2]) == Run(a2, [e2]);
    assert Run(a2, [e2]) == Step(a2, e2);
  }

  lemma {:induction false} RunConcat(a: Admission, first: seq<Event>, second: seq<Event>)
    ensures Run(a, first + second) == Run(Run(a, first), second)
    decreases |first|
  {
    if first == [] {
      assert first + second == second;
    } else {
      assert (first + second)[1..] == first[1..] + second;
      RunConcat(Step(a, first[0]), first[1..], second);
    }
  }

  lemma {:induction false} WithdrawnStays(a: Admission, events: seq<Event>)
    ensures a.withdrawn <= Run(a, events).withdrawn
    decreases |events|
  {
    if events != [] {
      WithdrawnStays(Step(a, events[0]), events[1..]);
    }
  }

  /** A cancelled request leaves the queue, and the others keep their places; cancelling one that does not
      wait changes nothing. */
  lemma CancelTakesOut(a: Admission, h: Handler)
    requires Distinct(a.pending)
    ensures var b := Step(a, Cancel(h));
            if h in a.pending
            then exists i: nat | i < |a.pending| ::
                   a.pending[i] == h && b == a.(pending := a.pending[..i] + a.pending[i + 1..], withdrawn := a.withdrawn + {h})
            else b == a
  {
    if h in a.pending {
      MembersAreFound(a.pending, h);
      assert a.pending[IndexOf(a.pending, h)] == h;
    } else {
      NotFound(a.pending, h);
    }
  }

  lemma {:induction false} NotFound(q: seq<Handler>, h: Handler)
    requires h !in q
    ensures IndexOf(q, h) == |q|
  {
    if q != [] {
      NotFound(q[1..], h);
    }
  }

  /** A request that is cancelled while it waits is never started, and never waits again. */
  lemma CancelIsFinal(maxPending: nat, clock: int, before: seq<Event>, h: Handler, after: seq<Event>)
    requires Fair([], clock, before + [Cancel(h)] + after) && h in Run(NoLease(maxPending), before).pending
    ensures var a := Run(NoLease(maxPending), before + [Cancel(h)] + after);
            h in a.withdrawn && h !in a.pending && h !in a.started
  {
    var start := NoLease(maxPending);
    var a := Run(start, before);
    var events := before + [Cancel(h)] + after;
    RunConcat(start, before + [Cancel(h)], after);
    RunConcat(start, before, [Cancel(h)]);
    assert [Cancel(h)][1..] == [] && Run(a, [Cancel(h)]) == Run(Step(a, Cancel(h)), []);
    MembersAreFound(a.pending, h);
    WithdrawnStays(Step(a, Cancel(h)), after);
    EveryRequestHasOneFate(maxPending, clock, events, h);
  }

  // What becomes of a request

  /** In every fair run a new request is started at once exactly if something is left of a lease whose time
      is not over, and then nobody waits; it is rejected exactly if it would have to wait and the queue is
      full; otherwise it goes to the end of the queue. */
  lemma RequestIsDecided(maxPending: nat, clock: int, events: seq<Event>, h: Handler, now: int)
    requires Fair([], clock, events + [Request(h, now)])
    ensures var a := Run(NoLease(maxPending), events);
            var b, valid := Step(a, Request(h, now)), a.available > 0 && now < a.expiration;
            && (h in b.started <==> valid) && (valid ==> a.pending == [] && b.started == a.started + [h])
            && (h in b.rejected <==> !valid && |a.pending| == maxPending)
            && (h in b.pending <==> !valid && |a.pending| < maxPending)
            && (h in b.pending ==> b.pending == a.pending + [h])
  {
    var a, b := Run(NoLease(maxPending), events), Step(Run(NoLease(maxPending), events), Request(h, now));
    FairPrefix([], clock, events, [Request(h, now)]);
    RunKeeps(NoLease(maxPending), clock, events);
    RunSubmits(NoLease(maxPending), clock, events, [Request(h, now)]);
    MaxStays(NoLease(maxPending), events);
    KeptMembers(a.submitted, a.rejected + a.withdrawn);
    assert forall x :: x in a.started || x in a.pending ==> x in a.started + a.pending;
  }

  lemma {:induction false} MaxStays(a: Admission, events: seq<Event>)
    ensures Run(a, events).maxPending == a.maxPending
    decreases |events|
  {
    if events != [] {
      MaxStays(Step(a, events[0]), events[1..]);
    }
  }

  lemma {:induction false} FairPrefix(submitted: seq<Handler>, clock: int, first: seq<Event>, second: seq<Event>)
    requires Fair(submitted, clock, first + second)
    ensures Fair(submitted, clock, first)
    decreases |first|
  {
    if first != [] {
      assert (first + second)[0] == first[0] && (first + second)[1..] == first[1..] + second;
      match first[0]
      case Lease(_, _, now) => FairPrefix(submitted, now, first[1..], second);
      case Request(h, now) => FairPrefix(submitted + [h], now, first[1..], second);
      case Cancel(_) => FairPrefix(submitted, clock, first[1..], second);
    }
  }

  /** What comes after a run is fair with what the run has submitted and its clock. */
  lemma {:induction false} RunSubmits(a: Admission, clock: int, first: seq<Event>, second: seq<Event>)
    requires Fair(a.submitted, clock, first + second)
    ensures Fair(Run(a, first).submitted, Later(clock, first), second)
    decreases |first|
  {
    if first == [] {
      assert first + second == second;
    } else {
      assert (first + second)[0] == first[0] && (first + second)[1..] == first[1..] + second;
      match first[0]
      case Lease(_, _, now) => RunSubmits(Step(a, first[0]), now, first[1..], second);
      case Request(h, now) => RunSubmits(Step(a, first[0]), now, first[1..], second);
      case Cancel(_) => RunSubmits(Step(a, first[0]), clock, first[1..], second);
    }
  }

  predicate NoLeaseAmong(events: seq<Event>) {
    forall i | 0 <= i < |events| :: !events[i].Lease?
  }

  /** Until the next LEASE frame a lease is over at its time, and what it has granted is what has been
      started since and what is left; nobody waits while something is left and its time is not over. */
  lemma LeaseInForce(maxPending: nat, clock: int, before: seq<Event>, ttl: nat, count: nat, t: int, after: seq<Event>)
    requires Fair([], clock, before + [Lease(ttl, count, t)] + after) && NoLeaseAmong(after)
    ensures var a0, a := Run(NoLease(maxPending), before), Run(NoLease(maxPending), before + [Lease(ttl, count, t)] + after);
            && a.expiration == t + ttl && a0.started <= a.started && |a.started| - |a0.started| + a.available == count
            && (a.pending != [] ==> a.available == 0 || Later(t, after) >= t + ttl)
  {
    var start, lease := NoLease(maxPending), [Lease(ttl, count, t)];
    var a0 := Run(start, before);
    FairPrefix([], clock, before + lease, after);
    FairPrefix([], clock, before, lease);
    RunKeeps(start, clock, before + lease + after);
    RunKeeps(start, clock, before);
    RunConcat(start, before + lease, after);
    RunConcat(start, before, lease);
    assert lease[1..] == [] && Run(a0, lease) == Run(Step(a0, lease[0]), []);
    LaterConcat(clock, before + lease, after);
    LaterConcat(clock, before, lease);
    assert Later(Later(clock, before), lease) == t;
    SinceLease(Step(a0, lease[0]), |a0.started|, after);
  }

  lemma {:induction false} LaterConcat(clock: int, first: seq<Event>, second: seq<Event>)
    ensures Later(clock, first + second) == Later(Later(clock, first), second)
    decreases |first|
  {
    if first == [] {
      assert first + second == second;
    } else {
      assert (first + second)[0] == first[0] && (first + second)[1..] == first[1..] + second;
      match first[0]
      case Lease(_, _, now) => LaterConcat(now, first[1..], second);
      case Request(_, now) => LaterConcat(now, first[1..], second);
      case Cancel(_) => LaterConcat(clock, first[1..], second);
    }
  }

  lemma {:induction false} SinceLease(a: Admission, before: nat, events: seq<Event>)
    requires NoLeaseAmong(events) && |a.started| == before + a.startedSince
    ensures var b := Run(a, events);
            && b.expiration == a.expiration && b.granted == a.granted && a.started <= b.started
            && |b.started| == before + b.startedSince
    decreases |events|
  {
    if events != [] {
      SinceLease(Step(a, events[0]), before, events[1..]);
    }
  }
}
