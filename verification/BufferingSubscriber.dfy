/** The RxJS adapter that buffers what an observable emits until the subscriber asks for it. Its `drain`
    loop is guarded by the counter `wip`, because the subscriber may call back at any signal. */
module BufferingSubscribers {
  import opened Bytes

  /** The values of the observable, as the codec encodes them. */
  type Value = bytes

  /** What a subscriber or the observable may call. */
  datatype Op = Request(n: nat) | Next(value: Value) | Complete | Error | Cancel

  /** What the subscriber is told. */
  datatype Emitted = Item(value: Value, last: bool) | Completion | Failure

  predicate Ends(e: Emitted) {
    e.Item? ==> e.last
  }

  /** What a log of signals amounts to: the items in it, whether a terminal signal is in it, and whether
      nothing comes after one. */
  datatype Tally = Tally(items: seq<Value>, ended: bool, proper: bool)

  function Counting(t: Tally, e: Emitted): Tally {
    Tally(if e.Item? then t.items + [e.value] else t.items, t.ended || Ends(e), t.proper && !t.ended)
  }

  function TallyOf(log: seq<Emitted>): Tally {
    if log == [] then Tally([], false, true) else Counting(TallyOf(log[..|log| - 1]), log[|log| - 1])
  }

  lemma TallyPush(log: seq<Emitted>, e: Emitted)
    ensures TallyOf(log + [e]) == Counting(TallyOf(log), e)
  {
    assert (log + [e])[..|log|] == log;
  }

  /** What `proper` means for the log: at most one terminal signal, and nothing after it. */
  lemma {:induction false} ProperMeans(log: seq<Emitted>)
    ensures TallyOf(log).proper <==> forall i | 0 <= i < |log| - 1 :: !Ends(log[i])
    ensures TallyOf(log).ended <==> exists i | 0 <= i < |log| :: Ends(log[i])
    decreases |log|
  {
    if log != [] {
      var init, last := log[..|log| - 1], |log| - 1;
      ProperMeans(init);
      assert forall i | 0 <= i < last :: init[i] == log[i];
      if TallyOf(init).ended {
        var i :| 0 <= i < last && Ends(init[i]);
        assert Ends(log[i]);
      }
    }
  }

  /** What a drain emits when the subscriber does not call back. */
  function Batch(buffer: seq<Value>, requested: nat, done: bool, failed: bool): (out: seq<Emitted>) {
    if requested == 0 then []
    else if buffer == [] then (if done then [if failed then Failure else Completion] else [])
    else if |buffer| == 1 && done then [Item(buffer[0], true)]
    else [Item(buffer[0], false)] + Batch(buffer[1..], requested - 1, done, failed)
  }

  class ObserverToBufferingRSocketSubscriber {
    var requested: nat
    var wip: nat
    var failed: bool
    var done: bool
    var closed: bool
    var buffer: seq<Value>
    /** What the subscriber has been told, and what it will call back at its next signals. */
    var log: seq<Emitted>
    var reactions: seq<seq<Op>>
    /** Everything pushed, all demand, the items of the running drain that have not been taken off
        `requested` yet, and whether a drain has ended for good. */
    ghost var pushed: seq<Value>
    ghost var total: nat
    ghost var unpaid: nat
    ghost var ended: bool

    constructor (requested: nat, reactions: seq<seq<Op>>)
      ensures Valid() && Settled() && !ended
      ensures this.reactions == reactions && log == [] && pushed == [] && total == requested && !done && !closed
    {
      this.requested, wip, failed, done, closed, buffer := requested, 0, false, false, false, [];
      this.log, this.reactions, pushed, total, unpaid, ended := [], reactions, [], requested, 0, false;
    }

    /** What holds at every moment at which the subscriber can call back, given what it has been told. */
    ghost predicate ConsistentWith(t: Tally)
      reads this
    {
      && t.items + buffer == pushed
      && |t.items| + requested == total + unpaid && unpaid <= requested
      && t.proper && (t.ended ==> ended && done)
      && (ended ==> wip > 0) && (wip == 0 ==> unpaid == 0)
    }

    ghost predicate Consistent()
      reads this
    {
      ConsistentWith(TallyOf(log))
    }

    /** Nothing is left to do: there is no demand, or nothing to give. */
    ghost predicate CaughtUp()
      reads this
    {
      requested == 0 || (buffer == [] && !done && !closed)
    }

    ghost predicate Valid()
      reads this
    {
      Consistent() && (wip == 0 ==> CaughtUp())
    }

    /** No drain is running. */
    ghost predicate Settled()
      reads this
    {
      wip == 0 || ended
    }

    /** No wake-up is lost: when no drain is running, and the stream has not ended, every item for which
        there has been demand has been emitted, in order, and only for want of demand has the end, if it has
        come, not been signalled. At any time what has been emitted is a prefix of what has been pushed, no
        longer than the demand. */
    lemma EverythingDueIsEmitted()
      requires Valid()
      ensures var t := TallyOf(log);
              && t.proper && t.items <= pushed && |t.items| <= total
              && (Settled() && !ended ==>
                    && t.items == pushed[..if total < |pushed| then total else |pushed|]
                    && (done || closed ==> |t.items| == total))
    {
      var t := TallyOf(log);
      assert t.items == pushed[..|t.items|];
    }

    /** A call within a signal changes the state but emits nothing, and it shows in `wip`. */
    twostate predicate Deferred()
      reads this
    {
      && log == old(log) && reactions == old(reactions) && unpaid == old(unpaid) && ended == old(ended)
      && old(wip) <= wip && old(requested) <= requested
      && (wip == old(wip) ==> requested == old(requested) && buffer == old(buffer)
                              && done == old(done) && closed == old(closed) && failed == old(failed))
    }

    /** Nothing is taken back, and after the end nothing is emitted. */
    twostate predicate Later()
      reads this
    {
      && old(log) <= log && old(pushed) <= pushed && old(total) <= total
      && (old(done) ==> done) && (old(closed) ==> closed)
      && |reactions| <= |old(reactions)| && (old(ended) ==> ended && log == old(log))
    }

    method RequestMore(n: nat)
      requires Valid()
      modifies this
      decreases if wip == 0 then 1 else 0, 2
      ensures Valid() && Later() && (old(Settled()) ==> Settled())
      ensures old(total) + n <= total
      ensures old(wip) > 0 ==> Deferred() && total == old(total) + n && pushed == old(pushed)
      ensures old(wip) == 0 && old(reactions) == [] ==> log == old(log) + Batch(old(buffer), old(requested) + n, done, failed)
    {
      var before := requested;
      requested := before + n;
      total := total + n;
      if wip == 0 && before > 0 {
        // there was demand already, so nothing is waiting for this one
        assert log + [] == log;
        return;
      }
      Drain();
    }

    method CancelSource()
      requires Valid()
      modifies this
      decreases if wip == 0 then 1 else 0, 2
      ensures Valid() && Later() && (old(Settled()) ==> Settled())
      ensures old(wip) > 0 ==> Deferred() && total == old(total) && pushed == old(pushed)
      ensures closed || done
      ensures old(closed || done) ==> unchanged(this)
      ensures !old(closed || done) && (old(wip) > 0 || old(reactions) == []) ==> closed && !done && failed == old(failed)
      ensures old(wip) == 0 && old(reactions) == [] && !old(closed || done) ==>
                log == old(log) + Batch(old(buffer), old(requested), false, failed)
    {
      if closed || done {
        return;
      }
      closed := true;
      Drain();
    }

    method NextValue(value: Value)
      requires Valid()
      modifies this
      decreases if wip == 0 then 1 else 0, 2
      ensures Valid() && Later() && (old(Settled()) ==> Settled())
      ensures old(pushed) + [value] <= pushed
      ensures old(wip) > 0 ==> Deferred() && total == old(total) && pushed == old(pushed) + [value]
      ensures old(wip) == 0 && old(reactions) == [] ==>
                log == old(log) + Batch(old(buffer) + [value], old(requested), done, failed)
    {
      buffer := buffer + [value];
      pushed := pushed + [value];
      Drain();
    }

    method ErrorOut()
      requires Valid()
      modifies this
      decreases if wip == 0 then 1 else 0, 2
      ensures Valid() && Later() && (old(Settled()) ==> Settled())
      ensures old(wip) > 0 ==> Deferred() && total == old(total) && pushed == old(pushed)
      ensures closed || done
      ensures old(wip) == 0 && old(reactions) == [] && !old(closed) && !old(done) ==>
                log == old(log) + Batch(old(buffer), old(requested), true, true)
      ensures old(closed || done) ==> unchanged(this)
      ensures !old(closed || done) && (old(wip) > 0 || old(reactions) == []) ==> done && failed
    {
      if closed || done {
        return;
      }
      failed := true;
      done := true;
      Drain();
    }

    method CompleteAll()
      requires Valid()
      modifies this
      decreases if wip == 0 then 1 else 0, 2
      ensures Valid() && Later() && (old(Settled()) ==> Settled())
      ensures old(wip) > 0 ==> Deferred() && total == old(total) && pushed == old(pushed)
      ensures closed || done
      ensures old(wip) == 0 && old(reactions) == [] && !old(closed) && !old(done) ==>
                log == old(log) + Batch(old(buffer), old(requested), true, failed)
      ensures old(closed || done) ==> unchanged(this)
      ensures !old(closed || done) && (old(wip) > 0 || old(reactions) == []) ==> done && failed == old(failed)
    {
      if done || closed {
        return;
      }
      done := true;
      Drain();
    }

    /** A signal to the subscriber, with what it calls back. */
    method Emit(e: Emitted)
      requires wip > 0 && !TallyOf(log).ended && ConsistentWith(Counting(TallyOf(log), e))
      modifies this
      decreases 0, 5
      ensures Consistent() && log == old(log) + [e]
      ensures old(pushed) <= pushed && old(total) <= total && (old(done) ==> done) && (old(closed) ==> closed)
      ensures unpaid == old(unpaid) && ended == old(ended) && old(wip) <= wip && old(requested) <= requested
      ensures |reactions| <= |old(reactions)|
      ensures wip == old(wip) || |reactions| < |old(reactions)|
      ensures wip == old(wip) ==> requested == old(requested)
      ensures old(reactions) == [] ==>
                && reactions == [] && wip == old(wip) && buffer == old(buffer) && done == old(done) && closed == old(closed)
                && failed == old(failed)
    {
      Tell(e);
      ReactNext();
    }

    method Tell(e: Emitted)
      requires ConsistentWith(Counting(TallyOf(log), e))
      modifies `log
      ensures Consistent() && log == old(log) + [e]
    {
      ghost var t := Counting(TallyOf(log), e);
      TallyPush(log, e);
      log := log + [e];
      assert TallyOf(log) == t && ConsistentWith(t);
    }

    /** What the subscriber calls back at this signal, if anything. */
    method ReactNext()
      requires wip > 0 && Consistent()
      modifies this
      decreases 0, 4
      ensures Consistent() && log == old(log) && unpaid == old(unpaid) && ended == old(ended)
      ensures old(pushed) <= pushed && old(total) <= total && (old(done) ==> done) && (old(closed) ==> closed)
      ensures old(wip) <= wip && old(requested) <= requested && |reactions| <= |old(reactions)|
      ensures wip == old(wip) || |reactions| < |old(reactions)|
      ensures wip == old(wip) ==> requested == old(requested)
      ensures old(reactions) == [] ==>
                && reactions == [] && wip == old(wip) && buffer == old(buffer) && done == old(done) && closed == old(closed)
                && failed == old(failed)
    {
      if reactions != [] {
        var ops := reactions[0];
        reactions := reactions[1..];
        React(ops);
      }
    }

    method React(ops: seq<Op>)
      requires wip > 0 && Consistent()
      modifies this
      decreases 0, 3
      ensures Consistent() && Deferred() && Later()
    {
      for i := 0 to |ops|
        invariant wip > 0 && Consistent() && Deferred() && Later()
      {
        match ops[i]
        case Request(n) => RequestMore(n);
        case Next(value) => NextValue(value);
        case Complete => CompleteAll();
        case Error => ErrorOut();
        case Cancel => CancelSource();
      }
    }

    /** The oldest item of the buffer, and whether it is the last one of all. */
    method Shift() returns (next: Value, isTerminated: bool)
      requires wip > 0 && !ended && unpaid < requested && buffer != [] && Consistent()
      modifies `buffer, `unpaid, `ended
      ensures next == old(buffer)[0] && buffer == old(buffer)[1..] && unpaid == old(unpaid) + 1
      ensures isTerminated == ended && ended == (|old(buffer)| == 1 && done)
      ensures ConsistentWith(Counting(TallyOf(log), Item(next, isTerminated)))
    {
      next := buffer[0];
      ghost var t := TallyOf(log);
      Regroup(t.items, next, buffer[1..]);
      buffer := buffer[1..];
      isTerminated := buffer == [] && done;
      unpaid := unpaid + 1;
      ended := isTerminated;
    }

    /** One item; it is the last one if nothing is left and nothing will come. */
    method DeliverNext() returns (isTerminated: bool)
      requires wip > 0 && !ended && unpaid < requested && buffer != [] && Consistent()
      modifies this
      decreases 0, 6
      ensures Consistent() && Later() && old(wip) <= wip && old(requested) <= requested
      ensures isTerminated == ended && unpaid == old(unpaid) + 1
      ensures |reactions| <= |old(reactions)| && (wip == old(wip) || |reactions| < |old(reactions)|)
      ensures wip == old(wip) ==> requested == old(requested)
      ensures isTerminated == (|old(buffer)| == 1 && old(done))
      ensures old(reactions) == [] ==>
                && reactions == [] && wip == old(wip) && done == old(done) && closed == old(closed) && failed == old(failed)
                && buffer == old(buffer)[1..] && log == old(log) + [Item(old(buffer)[0], isTerminated)]
    {
      var next;
      next, isTerminated := Shift();
      Emit(Item(next, isTerminated));
    }

    /** Demand, but nothing to give: the drain ends for good if there will never be anything. */
    method RunDry() returns (stopped: bool)
      requires wip > 0 && !ended && unpaid < requested && buffer == [] && Consistent()
      modifies this
      decreases 0, 6
      ensures Consistent() && Later() && old(wip) <= wip
      ensures stopped == ended && ended == (old(done) || old(closed)) && unpaid == old(unpaid)
      ensures wip == old(wip) || |reactions| < |old(reactions)|
      ensures !stopped ==> wip == old(wip) && requested == old(requested) && buffer == [] && !done && !closed
      ensures old(reactions) == [] ==>
                && reactions == [] && wip == old(wip) && done == old(done) && failed == old(failed)
                && log == old(log) + Batch([], 1, done, failed)
    {
      stopped := done || closed;
      if done {
        ended := true;
        Emit(if failed then Failure else Completion);
      } else if closed {
        ended := true;
        assert log + [] == log;
      } else {
        assert log + [] == log;
      }
    }

    /** The inner loop: up to `limit` items. It stops for good at a terminal signal or, with nothing left,
        on a cancelled source. */
    method Deliver(limit: nat) returns (delivered: nat, stopped: bool)
      requires wip > 0 && !ended && unpaid == 0 && limit == requested && Consistent()
      modifies this
      decreases 0, 7
      ensures Consistent() && Later() && old(wip) <= wip && stopped == ended
      ensures !stopped ==> delivered == unpaid <= limit <= requested
      ensures wip == old(wip) || |reactions| < |old(reactions)|
      ensures !stopped && wip == old(wip) ==> requested == limit && (delivered == limit || (buffer == [] && !done && !closed))
      ensures old(reactions) == [] ==>
                && reactions == [] && wip == old(wip) && done == old(done) && failed == old(failed)
                && log == old(log) + Batch(old(buffer), limit, done, failed)
    {
      delivered, stopped := 0, false;
      while delivered < limit
        invariant 0 <= delivered <= limit <= requested && delivered == unpaid && !ended
        invariant Consistent() && Later() && old(wip) <= wip
        invariant wip == old(wip) ==> requested == limit
        invariant wip == old(wip) || |reactions| < |old(reactions)|
        invariant old(reactions) == [] ==>
                    && reactions == [] && wip == old(wip) && done == old(done) && failed == old(failed)
                    && log + Batch(buffer, limit - delivered, done, failed) == old(log) + Batch(old(buffer), limit, done, failed)
        decreases limit - delivered
      {
        if buffer == [] {
          stopped := RunDry();
          return;
        }
        BatchStep(log, buffer, limit - delivered, done, failed);
        var isTerminated := DeliverNext();
        if isTerminated {
          return delivered, true;
        }
        delivered := delivered + 1;
      }
    }

    method Drain()
      requires Consistent()
      modifies this
      decreases if wip == 0 then 1 else 0, 1
      ensures Valid() && Later() && (old(wip) == 0 ==> Settled())
      ensures old(wip) > 0 ==>
                && Deferred() && wip == old(wip) + 1 && total == old(total) && pushed == old(pushed)
                && requested == old(requested) && buffer == old(buffer)
                && done == old(done) && closed == old(closed) && failed == old(failed)
      ensures old(wip) == 0 && old(reactions) == [] ==>
                && done == old(done) && failed == old(failed)
                && log == old(log) + Batch(old(buffer), old(requested), done, failed)
    {
      hide Batch;
      var m := wip;
      wip := m + 1;
      if m != 0 {
        return;
      }
      m := 1;
      while true
        invariant m == wip > 0 && !ended && unpaid == 0 && Consistent() && Later()
        invariant old(reactions) == [] ==>
                    reactions == [] && log == old(log) && buffer == old(buffer) && requested == old(requested)
                    && done == old(done) && failed == old(failed)
        decreases |reactions|
      {
        var delivered, stopped := Deliver(requested);
        if stopped {
          return;
        }
        requested := requested - delivered;
        unpaid := 0;
        if m == wip {
          wip := 0;
          return;
        }
        m := wip;
      }
    }
  }

  lemma Regroup(told: seq<Value>, next: Value, rest: seq<Value>)
    ensures (told + [next]) + rest == told + ([next] + rest)
  {
  }

  lemma BatchStep(log: seq<Emitted>, buffer: seq<Value>, requested: nat, done: bool, failed: bool)
    requires requested > 0 && buffer != []
    ensures [buffer[0]] + buffer[1..] == buffer
    ensures log + Batch(buffer, requested, done, failed)
         == if |buffer| == 1 && done then log + [Item(buffer[0], true)]
            else (log + [Item(buffer[0], false)]) + Batch(buffer[1..], requested - 1, done, failed)
  {
  }

  /** Without calls back, a drain emits the buffered items that there is demand for. */
  lemma {:induction false} BatchItems(buffer: seq<Value>, requested: nat, done: bool, failed: bool)
    ensures var out := Batch(buffer, requested, done, failed);
            && (forall i | 0 <= i < |out| && out[i].Item? :: i < |buffer| && out[i].value == buffer[i])
            && (forall i | 0 <= i < |out| - 1 :: out[i].Item? && !out[i].last)
            && |out| == (if requested <= |buffer| then requested
                         else |buffer| + if buffer == [] && done then 1 else 0)
  {
    if requested > 0 && buffer != [] && !(|buffer| == 1 && done) {
      BatchItems(buffer[1..], requested - 1, done, failed);
      var rest := Batch(buffer[1..], requested - 1, done, failed);
      var out := Batch(buffer, requested, done, failed);
      forall i | 0 <= i < |out|
        ensures (out[i].Item? ==> i < |buffer| && out[i].value == buffer[i]) && (i < |out| - 1 ==> out[i].Item? && !out[i].last)
      {
        if i > 0 {
          assert out[i] == rest[i - 1];
        }
      }
    }
  }

  /** An error reaches the subscriber only when nothing is buffered; otherwise the last item is marked as
      the last one, and the subscriber takes the stream for completed. */
  lemma {:induction false} BufferedErrorIsSwallowed(buffer: seq<Value>, requested: nat)
    requires requested > 0
    ensures var out := Batch(buffer, requested, true, true);
            && (Failure in out <==> buffer == [])
            && ((exists i | 0 <= i < |out| :: out[i].Item? && out[i].last) <==> 0 < |buffer| <= requested)
  {
    var out := Batch(buffer, requested, true, true);
    if |buffer| > 1 && requested > 1 {
      BufferedErrorIsSwallowed(buffer[1..], requested - 1);
      var rest := Batch(buffer[1..], requested - 1, true, true);
      assert forall i | 0 <= i < |rest| :: out[i + 1] == rest[i];
      if 0 < |buffer| <= requested {
        var i :| 0 <= i < |rest| && rest[i].Item? && rest[i].last;
        assert out[i + 1].Item? && out[i + 1].last;
      }
    } else if |buffer| == 1 {
      assert out[0] == Item(buffer[0], true);
    }
  }

  /** One buffered item is enough: with demand for two signals the subscriber is told of a last item and of
      no error. */
  lemma ErrorBehindAnItem(v: Value)
    ensures Batch([v], 2, true, true) == [Item(v, true)] && Failure !in Batch([v], 2, true, true)
  {
    assert Batch([v], 2, true, true)[0] == Item(v, true);
  }
}
